/** The control fields of a queue, updated in place by the critical sections of queue.c. */
module QueueControl {
  import opened QueueProtocol

  class ControlBlock {
    const length: nat
    var count: nat
    var rxLock: int
    var txLock: int
    var waitRx: seq<Task>
    var waitTx: seq<Task>
    ghost var wokenRx: set<Task>
    ghost var wokenTx: set<Task>

    ghost function View(): Control
      reads this
    {
      Control(length, count, rxLock, txLock, waitRx, waitTx, wokenRx, wokenTx)
    }

    constructor (length: nat)
      ensures View() == Created(length).q
    {
      this.length, count, rxLock, txLock := length, 0, UNLOCKED, UNLOCKED;
      waitRx, waitTx, wokenRx, wokenTx := [], [], {}, {};
    }

    /** xTaskRemoveFromEventList on xTasksWaitingToReceive, if any task is in it. */
    method WakeOneReceiver()
      modifies this
      ensures View() == WakeReceiver(old(View()))
    {
      if waitRx != [] {
        wokenRx := wokenRx + {waitRx[0]};
        waitRx := waitRx[1..];
      }
    }

    method WakeOneSender()
      modifies this
      ensures View() == WakeSender(old(View()))
    {
      if waitTx != [] {
        wokenTx := wokenTx + {waitTx[0]};
        waitTx := waitTx[1..];
      }
    }

    method Store(overwrite: bool)
      modifies this
      ensures View() == Stored(old(View()), overwrite)
    {
      if !(overwrite && count > 0) {
        count := count + 1;
      }
    }

    /** The critical section of xQueueGenericSend. */
    method TrySend(overwrite: bool) returns (sent: bool)
      modifies this
      ensures sent <==> HasRoom(old(View()), overwrite)
      ensures View() == if sent then Put(old(View()), overwrite) else old(View())
      ensures old(Served(View())) && (overwrite ==> length == 1) ==> Serves(old(View()), View())
    {
      hide Served, Serves, WakeReceiver, WakeSender, WakeReceivers, WakeSenders;
      SendServes(View(), overwrite);
      sent := count < length || overwrite;
      if sent {
        Store(overwrite);
        WakeOneReceiver();
      }
    }

    /** The critical section of xQueueReceive and of xQueueSemaphoreTake. */
    method TryReceive() returns (received: bool)
      modifies this
      ensures received <==> old(count) > 0
      ensures View() == if received then Take(old(View())) else old(View())
      ensures old(Served(View())) ==> Serves(old(View()), View())
    {
      hide Served, Serves, WakeReceiver, WakeSender, WakeReceivers, WakeSenders;
      ReceiveServes(View());
      received := count > 0;
      if received {
        count := count - 1;
        WakeOneSender();
      }
    }

    /** The critical section of xQueuePeek. */
    method TryPeek() returns (peeked: bool)
      modifies this
      ensures peeked <==> old(count) > 0
      ensures View() == if peeked then Peek(old(View())) else old(View())
      ensures old(Served(View())) ==> Serves(old(View()), View())
    {
      hide Served, Serves, WakeReceiver, WakeSender, WakeReceivers, WakeSenders;
      ReceiveServes(View());
      peeked := count > 0;
      if peeked {
        WakeOneReceiver();
      }
    }

    /** xQueueGenericSendFromISR, and xQueueGiveFromISR without overwriting. */
    method SendFromISR(overwrite: bool) returns (sent: bool)
      requires txLock < INT8_MAX
      modifies this
      ensures sent <==> HasRoom(old(View()), overwrite)
      ensures View() == if sent then PutFromISR(old(View()), overwrite) else old(View())
      ensures old(Served(View())) && old(txLock) >= UNLOCKED && (overwrite ==> length == 1) ==>
        Serves(old(View()), View())
    {
      hide Served, Serves, WakeReceiver, WakeSender, WakeReceivers, WakeSenders;
      SendServes(View(), overwrite);
      sent := count < length || overwrite;
      if sent {
        var lock := txLock;
        Store(overwrite);
        if lock == UNLOCKED {
          WakeOneReceiver();
        } else {
          txLock := lock + 1;
        }
      }
    }

    /** xQueueReceiveFromISR */
    method ReceiveFromISR() returns (received: bool)
      requires rxLock < INT8_MAX
      modifies this
      ensures received <==> old(count) > 0
      ensures View() == if received then TakeFromISR(old(View())) else old(View())
      ensures old(Served(View())) && old(rxLock) >= UNLOCKED ==> Serves(old(View()), View())
    {
      hide Served, Serves, WakeReceiver, WakeSender, WakeReceivers, WakeSenders;
      ReceiveServes(View());
      received := count > 0;
      if received {
        var lock := rxLock;
        count := count - 1;
        if lock == UNLOCKED {
          WakeOneSender();
        } else {
          rxLock := lock + 1;
        }
      }
    }

    /** prvLockQueue */
    method Lock()
      modifies this
      ensures View() == LockQueue(old(View()))
      ensures old(Served(View())) ==> Serves(old(View()), View())
    {
      if rxLock == UNLOCKED {
        rxLock := 0;
      }
      if txLock == UNLOCKED {
        txLock := 0;
      }
    }

    /** The first critical section of prvUnlockQueue. */
    method UnlockTransmit()
      modifies this
      ensures View() == UnlockTx(old(View()))
      ensures old(Served(View())) ==> Serves(old(View()), View())
    {
      hide Served, Serves, WakeReceiver, WakeSender;
      UnlockServes(View());
      ghost var q := View();
      var lock := txLock;
      while lock > 0 && waitRx != []
        invariant WakeReceivers(View(), lock) == WakeReceivers(q, q.txLock)
        decreases lock
      {
        WakeOneReceiver();
        lock := lock - 1;
      }
      txLock := UNLOCKED;
    }

    /** The second one. */
    method UnlockReceive()
      modifies this
      ensures View() == UnlockRx(old(View()))
      ensures old(Served(View())) ==> Serves(old(View()), View())
    {
      hide Served, Serves, WakeReceiver, WakeSender;
      UnlockServes(View());
      ghost var q := View();
      var lock := rxLock;
      while lock > 0 && waitTx != []
        invariant WakeSenders(View(), lock) == WakeSenders(q, q.rxLock)
        decreases lock
      {
        WakeOneSender();
        lock := lock - 1;
      }
      rxLock := UNLOCKED;
    }

    /** prvUnlockQueue, when no interrupt comes between its two critical sections. */
    method Unlock()
      modifies this
      ensures View() == UnlockRx(UnlockTx(old(View())))
      ensures old(Served(View())) ==> Serves(old(View()), View())
    {
      hide WakeReceiver, WakeSender, WakeReceivers, WakeSenders, ListsAgree;
      UnlockTransmit();
      UnlockReceive();
    }

    /** xQueueGenericReset of a queue in use. */
    method ResetQueue()
      modifies this
      ensures View() == Reset(old(View()))
      ensures old(Served(View()) && rxLock == UNLOCKED && txLock == UNLOCKED) ==> Served(View())
    {
      hide Served, WakeReceiver, WakeSender;
      ResetKeeps(View());
      count, rxLock, txLock := 0, UNLOCKED, UNLOCKED;
      WakeOneSender();
    }
  }

  /** The event lists are in order, and every item is spoken for while a receiver waits. */
  ghost predicate Served(q: Control) {
    ListsAgree(q) && ReceiversServed(q)
  }

  lemma SendServes(q: Control, overwrite: bool)
    ensures Served(q) ==> Serves(q, q)
    ensures Served(q) && HasRoom(q, overwrite) && (overwrite ==> q.length == 1) ==>
      Serves(q, Put(q, overwrite)) && (q.txLock >= UNLOCKED ==> Serves(q, PutFromISR(q, overwrite)))
  {
    if Served(q) && HasRoom(q, overwrite) && (overwrite ==> q.length == 1) {
      PutServes(q, overwrite);
      if q.txLock >= UNLOCKED {
        PutFromISRServes(q, overwrite);
      }
    }
  }

  lemma ReceiveServes(q: Control)
    ensures Served(q) ==> Serves(q, q) && Serves(q, Peek(q))
    ensures Served(q) && q.count > 0 ==> Serves(q, Take(q)) && (q.rxLock >= UNLOCKED ==> Serves(q, TakeFromISR(q)))
  {
    if Served(q) {
      PeekServes(q);
      if q.count > 0 {
        TakeServes(q);
        if q.rxLock >= UNLOCKED {
          TakeFromISRServes(q);
        }
      }
    }
  }

  lemma UnlockServes(q: Control)
    ensures Served(q) ==> Serves(q, UnlockTx(q)) && Serves(q, UnlockRx(q))
  {
    if Served(q) {
      UnlockTxServes(q);
      UnlockRxServes(q);
    }
  }

  lemma ResetKeeps(q: Control)
    ensures Served(q) && q.rxLock == UNLOCKED == q.txLock ==> Served(Reset(q))
  {
    if Served(q) && q.rxLock == UNLOCKED == q.txLock {
      ResetServes(q);
    }
  }
}
