/**
 Blocking on a queue: the event lists, the lock counts that tasks and interrupts share, and every
 interleaving of the steps into which queue.c divides a blocking call.
 */
module QueueProtocol {
  import opened SeqLists

  type Task = nat

  /** `wokenRx` and `wokenTx` are the tasks an event removed from a list and that have not run since. */
  datatype Control = Control(
    length: nat, count: nat, rxLock: int, txLock: int,
    waitRx: seq<Task>, waitTx: seq<Task>, wokenRx: set<Task>, wokenTx: set<Task>)

  const UNLOCKED := -1
  const INT8_MAX := 127

  // ---- What one critical section does ----

  /** Removes the first waiting receiver, if there is one. */
  function WakeReceiver(q: Control): Control {
    if q.waitRx == [] then q else q.(waitRx := q.waitRx[1..], wokenRx := q.wokenRx + {q.waitRx[0]})
  }

  function WakeSender(q: Control): Control {
    if q.waitTx == [] then q else q.(waitTx := q.waitTx[1..], wokenTx := q.wokenTx + {q.waitTx[0]})
  }

  /** prvCopyDataToQueue as it affects the count; only a queue of length one is overwritten. */
  function Stored(q: Control, overwrite: bool): Control {
    q.(count := if overwrite && q.count > 0 then q.count else q.count + 1)
  }

  predicate HasRoom(q: Control, overwrite: bool) {
    q.count < q.length || overwrite
  }

  function Put(q: Control, overwrite: bool): Control {
    WakeReceiver(Stored(q, overwrite))
  }

  function Take(q: Control): Control
    requires q.count > 0
  {
    WakeSender(q.(count := q.count - 1))
  }

  function Peek(q: Control): Control {
    WakeReceiver(q)
  }

  /** xQueueGenericSendFromISR, with room for the item. */
  function PutFromISR(q: Control, overwrite: bool): Control {
    if q.txLock == UNLOCKED then Put(q, overwrite) else Stored(q, overwrite).(txLock := q.txLock + 1)
  }

  /** xQueueReceiveFromISR, with an item to receive. */
  function TakeFromISR(q: Control): Control
    requires q.count > 0
  {
    if q.rxLock == UNLOCKED then Take(q) else q.(count := q.count - 1, rxLock := q.rxLock + 1)
  }

  /** prvLockQueue */
  function LockQueue(q: Control): Control {
    q.(rxLock := if q.rxLock == UNLOCKED then 0 else q.rxLock, txLock := if q.txLock == UNLOCKED then 0 else q.txLock)
  }

  /** The first loop of prvUnlockQueue: one receiver is woken for each item posted meanwhile. */
  function WakeReceivers(q: Control, n: int): Control
    decreases n
  {
    if n <= 0 || q.waitRx == [] then q else WakeReceivers(WakeReceiver(q), n - 1)
  }

  function WakeSenders(q: Control, n: int): Control
    decreases n
  {
    if n <= 0 || q.waitTx == [] then q else WakeSenders(WakeSender(q), n - 1)
  }

  function UnlockTx(q: Control): Control {
    WakeReceivers(q, q.txLock).(txLock := UNLOCKED)
  }

  function UnlockRx(q: Control): Control {
    WakeSenders(q, q.rxLock).(rxLock := UNLOCKED)
  }

  /** xQueueGenericReset of a queue in use. */
  function Reset(q: Control): Control {
    WakeSender(q.(count := 0, rxLock := UNLOCKED, txLock := UNLOCKED))
  }

  // ---- The steps of a blocking call ----

  datatype Kind = Taking | Peeking | Putting(overwrite: bool)

  datatype Next = Retry | GiveUp

  /**
   Where a task is: outside; at the top of the loop; having found nothing to do; with the scheduler
   suspended and the queue locked; having seen it still empty or full; about to unlock; having
   unlocked for senders only; about to look once more after its time ran out.
   */
  datatype Pc =
    | Outside
    | AtTop(kind: Kind)
    | Missed(kind: Kind)
    | Locked(kind: Kind)
    | Observed(kind: Kind)
    | Unlocking(kind: Kind, next: Next)
    | HalfUnlocked(kind: Kind, next: Next)
    | LastLook(kind: Kind)

  datatype State = State(q: Control, pcs: map<Task, Pc>, locker: set<Task>)

  datatype Step =
    | Begin(task: Task, kind: Kind)
    | Top(task: Task, mayWait: bool)
    | LockStep(task: Task)
    | Check(task: Task, expired: bool)
    | Place(task: Task, position: nat)
    | UnlockTxStep(task: Task)
    | UnlockRxStep(task: Task)
    | Resume(task: Task)
    | Look(task: Task)
    | IsrPut(overwrite: bool)
    | IsrTake
    | Timeout(task: Task)
    | ResetStep

  function PcOf(s: State, t: Task): Pc {
    if t in s.pcs then s.pcs[t] else Outside
  }

  predicate Waits(s: State, t: Task) {
    t in s.q.waitRx || t in s.q.waitTx
  }

  predicate Blocked(q: Control, k: Kind) {
    if k.Putting? then !HasRoom(q, k.overwrite) else q.count == 0
  }

  /** Steps of other tasks are excluded while one has the scheduler suspended; interrupts are not. */
  predicate Enabled(s: State, step: Step) {
    match step
    case Begin(t, k) =>
      && s.locker == {} && PcOf(s, t) == Outside
      && (k.Putting? && k.overwrite ==> s.q.length == 1)
    case Top(t, _) => s.locker == {} && PcOf(s, t).AtTop? && !Waits(s, t)
    case LockStep(t) => s.locker == {} && PcOf(s, t).Missed?
    case Check(t, _) => t in s.locker && PcOf(s, t).Locked?
    case Place(t, p) =>
      && t in s.locker && PcOf(s, t).Observed?
      && p <= if PcOf(s, t).kind.Putting? then |s.q.waitTx| else |s.q.waitRx|
    case UnlockTxStep(t) => t in s.locker && PcOf(s, t).Unlocking?
    case UnlockRxStep(t) => t in s.locker && PcOf(s, t).HalfUnlocked? && s.q.rxLock != UNLOCKED
    case Resume(t) => t in s.locker && PcOf(s, t).HalfUnlocked? && s.q.rxLock == UNLOCKED
    case Look(t) => s.locker == {} && PcOf(s, t).LastLook?
    case IsrPut(overwrite) =>
      && HasRoom(s.q, overwrite) && s.q.txLock != INT8_MAX
      && (overwrite ==> s.q.length == 1)
    case IsrTake => s.q.count > 0 && s.q.rxLock != INT8_MAX
    case Timeout(t) => s.locker == {} && Waits(s, t)
    case ResetStep => s.locker == {}
  }

  function At(s: State, t: Task, q: Control, pc: Pc): State {
    s.(q := q, pcs := s.pcs[t := pc])
  }

  /** Having run its loop again, the task no longer counts as woken. */
  function Awake(q: Control, t: Task): Control {
    q.(wokenRx := q.wokenRx - {t}, wokenTx := q.wokenTx - {t})
  }

  /** The critical section at the top of the loop. */
  function RunTop(s: State, t: Task, mayWait: bool): State
    requires PcOf(s, t).AtTop?
  {
    var k, q := PcOf(s, t).kind, Awake(s.q, t);
    if Blocked(q, k) then At(s, t, q, if mayWait then Missed(k) else Outside)
    else match k
      case Taking => At(s, t, Take(q), Outside)
      case Peeking => At(s, t, Peek(q), Outside)
      case Putting(overwrite) => At(s, t, Put(q, overwrite), Outside)
  }

  function Perform(s: State, step: Step): State
    requires Enabled(s, step)
  {
    match step
    case Begin(t, k) => At(s, t, s.q, AtTop(k))
    case Top(t, mayWait) => RunTop(s, t, mayWait)
    case LockStep(t) => At(s, t, LockQueue(s.q), Locked(PcOf(s, t).kind)).(locker := {t})
    case Check(t, expired) =>
      var k := PcOf(s, t).kind;
      At(s, t, s.q, if expired then Unlocking(k, GiveUp) else if Blocked(s.q, k) then Observed(k)
        else Unlocking(k, Retry))
    case Place(t, p) =>
      var k := PcOf(s, t).kind;
      var q := if k.Putting? then s.q.(waitTx := InsertAt(s.q.waitTx, p, t))
        else s.q.(waitRx := InsertAt(s.q.waitRx, p, t));
      At(s, t, q, Unlocking(k, Retry))
    case UnlockTxStep(t) => At(s, t, UnlockTx(s.q), HalfUnlocked(PcOf(s, t).kind, PcOf(s, t).next))
    case UnlockRxStep(t) => At(s, t, UnlockRx(s.q), PcOf(s, t))
    case Resume(t) =>
      var k := PcOf(s, t).kind;
      At(s, t, s.q, if PcOf(s, t).next == Retry then AtTop(k) else if k.Putting? then Outside
        else LastLook(k)).(locker := {})
    case Look(t) =>
      var k := PcOf(s, t).kind;
      At(s, t, s.q, if s.q.count == 0 then Outside else AtTop(k))
    case IsrPut(overwrite) => s.(q := PutFromISR(s.q, overwrite))
    case IsrTake => s.(q := TakeFromISR(s.q))
    case Timeout(t) => s.(q := s.q.(waitRx := Without(s.q.waitRx, t), waitTx := Without(s.q.waitTx, t)))
    case ResetStep => s.(q := Reset(s.q))
  }

  // ---- The two bounds ----

  function Positive(lock: int): nat {
    if lock > 0 then lock else 0
  }

  /** While a receiver waits, every item is spoken for by a woken receiver or a pending unlock. */
  ghost predicate ReceiversServed(q: Control) {
    q.waitRx != [] ==> q.count <= |q.wokenRx| + Positive(q.txLock)
  }

  ghost predicate SendersServed(q: Control) {
    q.waitTx != [] ==> q.length - q.count <= |q.wokenTx| + Positive(q.rxLock)
  }

  ghost predicate ListsAgree(q: Control) {
    && NoDup(q.waitRx) && NoDup(q.waitTx)
    && (forall t :: t in q.waitRx ==> t !in q.wokenRx)
    && (forall t :: t in q.waitTx ==> t !in q.wokenTx)
    && q.count <= q.length && q.length > 0
  }

  predicate Holding(pc: Pc) {
    pc.Locked? || pc.Observed? || pc.Unlocking? || pc.HalfUnlocked?
  }

  /** A task in a list, or just woken from it, is in a call of the right kind that will retry. */
  predicate Placed(pc: Pc, putting: bool) {
    (pc.AtTop? || ((pc.Unlocking? || pc.HalfUnlocked?) && pc.next == Retry)) && pc.kind.Putting? == putting
  }

  ghost predicate PlacesAgree(s: State) {
    && (forall t :: t in s.q.waitRx || t in s.q.wokenRx ==> Placed(PcOf(s, t), false))
    && (forall t :: t in s.q.waitTx || t in s.q.wokenTx ==> Placed(PcOf(s, t), true))
  }

  /** The lock counts and the locking task's position agree. */
  ghost predicate LocksAgree(s: State) {
    && (forall t, u :: t in s.locker && u in s.locker ==> t == u)
    && (forall t :: Holding(PcOf(s, t)) <==> t in s.locker)
    && (s.locker == {} ==> s.q.rxLock == s.q.txLock == UNLOCKED)
    && (forall t :: t in s.locker ==>
          var pc := PcOf(s, t);
          && (pc.HalfUnlocked? ==> s.q.txLock == UNLOCKED && s.q.rxLock >= UNLOCKED)
          && (!pc.HalfUnlocked? ==> s.q.txLock >= 0 && s.q.rxLock >= 0)
          && (pc.Observed? && !pc.kind.Putting? ==> s.q.count <= s.q.txLock)
          && (pc.Observed? && pc.kind.Putting? ==> s.q.length - s.q.count <= s.q.rxLock))
    && (forall t {:trigger PcOf(s, t)} ::
          PcOf(s, t) != Outside && PcOf(s, t).kind.Putting? && PcOf(s, t).kind.overwrite ==>
          s.q.length == 1)
  }

  ghost predicate Invariant(s: State) {
    ListsAgree(s.q) && PlacesAgree(s) && LocksAgree(s) && ReceiversServed(s.q)
  }

  // ---- What each critical section keeps ----

  /** Nobody joins a list or the woken sets. */
  ghost predicate NoNewParties(q: Control, r: Control) {
    && r.length == q.length
    && (forall t :: t in r.waitRx || t in r.wokenRx ==> t in q.waitRx || t in q.wokenRx)
    && (forall t :: t in r.waitTx || t in r.wokenTx ==> t in q.waitTx || t in q.wokenTx)
  }

  lemma WakeReceiverKeeps(q: Control)
    requires ListsAgree(q)
    ensures var r := WakeReceiver(q);
      && ListsAgree(r) && NoNewParties(q, r)
      && (r.waitRx != [] ==> |r.wokenRx| == |q.wokenRx| + 1)
      && (q.waitRx != [] ==> |r.wokenRx| == |q.wokenRx| + 1)
      && r == q.(waitRx := r.waitRx, wokenRx := r.wokenRx)
  {
    if q.waitRx != [] {
      assert q.waitRx[0] in q.waitRx;
    }
  }

  lemma WakeSenderKeeps(q: Control)
    requires ListsAgree(q)
    ensures var r := WakeSender(q);
      && ListsAgree(r) && NoNewParties(q, r)
      && (r.waitTx != [] ==> |r.wokenTx| == |q.wokenTx| + 1)
      && (q.waitTx != [] ==> |r.wokenTx| == |q.wokenTx| + 1)
      && r == q.(waitTx := r.waitTx, wokenTx := r.wokenTx)
  {
    if q.waitTx != [] {
      assert q.waitTx[0] in q.waitTx;
    }
  }

  /** The unlock loop wakes min(n, number waiting) receivers, from the front. */
  lemma {:induction false} WakeReceiversKeeps(q: Control, n: int)
    requires ListsAgree(q)
    ensures var r := WakeReceivers(q, n);
      && ListsAgree(r) && NoNewParties(q, r)
      && (r.waitRx != [] ==> |r.wokenRx| == |q.wokenRx| + Positive(n))
      && r == q.(waitRx := r.waitRx, wokenRx := r.wokenRx)
    decreases n
  {
    if n > 0 && q.waitRx != [] {
      WakeReceiverKeeps(q);
      WakeReceiversKeeps(WakeReceiver(q), n - 1);
    }
  }

  lemma {:induction false} WakeSendersKeeps(q: Control, n: int)
    requires ListsAgree(q)
    ensures var r := WakeSenders(q, n);
      && ListsAgree(r) && NoNewParties(q, r)
      && (r.waitTx != [] ==> |r.wokenTx| == |q.wokenTx| + Positive(n))
      && r == q.(waitTx := r.waitTx, wokenTx := r.wokenTx)
    decreases n
  {
    if n > 0 && q.waitTx != [] {
      WakeSenderKeeps(q);
      WakeSendersKeeps(WakeSender(q), n - 1);
    }
  }

  /** Both bounds, with the sender bound only where it held before. */
  ghost predicate Serves(q: Control, r: Control) {
    && ListsAgree(r) && NoNewParties(q, r) && ReceiversServed(r)
    && (SendersServed(q) ==> SendersServed(r))
  }

  /** The bound on items but for one, as when a woken receiver has just begun to run again. */
  ghost predicate ReceiversNearlyServed(q: Control) {
    q.waitRx != [] ==> q.count <= |q.wokenRx| + Positive(q.txLock) + 1
  }

  ghost predicate SendersNearlyServed(q: Control) {
    q.waitTx != [] ==> q.length - q.count <= |q.wokenTx| + Positive(q.rxLock) + 1
  }

  lemma PutServes(q: Control, overwrite: bool)
    requires ListsAgree(q) && ReceiversServed(q) && HasRoom(q, overwrite) && (overwrite ==> q.length == 1)
    ensures Serves(q, Put(q, overwrite)) && (SendersNearlyServed(q) ==> SendersServed(Put(q, overwrite)))
    ensures Put(q, overwrite).rxLock == q.rxLock && Put(q, overwrite).txLock == q.txLock
  {
    WakeReceiverKeeps(Stored(q, overwrite));
    hide ListsAgree;
  }

  lemma TakeServes(q: Control)
    requires ListsAgree(q) && ReceiversNearlyServed(q) && q.count > 0
    ensures Serves(q, Take(q))
    ensures Take(q).rxLock == q.rxLock && Take(q).txLock == q.txLock
  {
    WakeSenderKeeps(q.(count := q.count - 1));
    hide ListsAgree;
  }

  lemma PeekServes(q: Control)
    requires ListsAgree(q) && ReceiversNearlyServed(q)
    ensures Serves(q, Peek(q))
  {
    WakeReceiverKeeps(q);
    hide ListsAgree;
  }

  lemma PutFromISRServes(q: Control, overwrite: bool)
    requires ListsAgree(q) && ReceiversServed(q) && HasRoom(q, overwrite) && (overwrite ==> q.length == 1)
    requires q.txLock >= UNLOCKED
    ensures Serves(q, PutFromISR(q, overwrite))
  {
    PutServes(q, overwrite);
  }

  lemma TakeFromISRServes(q: Control)
    requires ListsAgree(q) && ReceiversServed(q) && q.count > 0 && q.rxLock >= UNLOCKED
    ensures Serves(q, TakeFromISR(q))
  {
    TakeServes(q);
  }

  lemma UnlockTxServes(q: Control)
    requires ListsAgree(q) && ReceiversServed(q)
    ensures Serves(q, UnlockTx(q)) && UnlockTx(q).rxLock == q.rxLock
  {
    WakeReceiversKeeps(q, q.txLock);
  }

  lemma UnlockRxServes(q: Control)
    requires ListsAgree(q) && ReceiversServed(q)
    ensures Serves(q, UnlockRx(q)) && UnlockRx(q).txLock == q.txLock
  {
    WakeSendersKeeps(q, q.rxLock);
  }

  lemma ResetServes(q: Control)
    requires ListsAgree(q) && q.rxLock == UNLOCKED == q.txLock
    ensures var r := Reset(q);
      ListsAgree(r) && NoNewParties(q, r) && ReceiversServed(r) && r.rxLock == UNLOCKED == r.txLock
  {
    WakeSenderKeeps(q.(count := 0, rxLock := UNLOCKED, txLock := UNLOCKED));
  }

  /** A woken receiver that runs again gives up its place in the bound, and takes an item if there is one. */
  lemma TakingServes(q: Control, t: Task)
    requires ListsAgree(q) && ReceiversServed(q) && t !in q.waitRx && t !in q.waitTx && t !in q.wokenTx
    ensures Serves(q, if q.count == 0 then Awake(q, t) else Take(Awake(q, t)))
  {
    AwakeLists(q, t);
    if q.count > 0 {
      TakeServes(Awake(q, t));
      hide ListsAgree, Take;
      ServesFrom(q, t, Take(Awake(q, t)));
    }
  }

  /** A peeking task leaves the item, and hands its place to the next receiver. */
  lemma PeekingServes(q: Control, t: Task)
    requires ListsAgree(q) && ReceiversServed(q) && t !in q.waitRx && t !in q.waitTx && t !in q.wokenTx
    ensures Serves(q, if q.count == 0 then Awake(q, t) else Peek(Awake(q, t)))
  {
    AwakeLists(q, t);
    if q.count > 0 {
      PeekServes(Awake(q, t));
      hide ListsAgree, Peek;
      ServesFrom(q, t, Peek(Awake(q, t)));
    }
  }

  lemma PuttingServes(q: Control, t: Task, overwrite: bool)
    requires ListsAgree(q) && ReceiversServed(q) && t !in q.waitRx && t !in q.waitTx && t !in q.wokenRx
    requires overwrite ==> q.length == 1
    ensures Serves(q, if HasRoom(q, overwrite) then Put(Awake(q, t), overwrite) else Awake(q, t))
  {
    AwakeLists(q, t);
    if HasRoom(q, overwrite) {
      PutServes(Awake(q, t), overwrite);
      hide ListsAgree, Put;
      ServesFrom(q, t, Put(Awake(q, t), overwrite));
    }
  }

  /** What serves from the moment the task runs again serves from before it. */
  lemma ServesFrom(q: Control, t: Task, r: Control)
    requires Serves(Awake(q, t), r) && NoNewParties(q, Awake(q, t))
    requires SendersServed(q) ==> SendersServed(Awake(q, t)) || SendersServed(r)
    ensures Serves(q, r)
  {
    hide ListsAgree, ReceiversServed, SendersServed;
  }

  lemma RunTopServes(s: State, t: Task, mayWait: bool)
    requires Invariant(s) && Enabled(s, Top(t, mayWait))
    ensures Serves(s.q, RunTop(s, t, mayWait).q)
  {
    hide ListsAgree, ReceiversServed, SendersServed, Serves, WakeSender, WakeReceiver;
    match PcOf(s, t).kind
    case Taking => TakingServes(s.q, t);
    case Peeking => PeekingServes(s.q, t);
    case Putting(overwrite) => PuttingServes(s.q, t, overwrite);
  }

  lemma AwakeLists(q: Control, t: Task)
    requires ListsAgree(q) && t !in q.waitRx && t !in q.waitTx
    ensures ListsAgree(Awake(q, t)) && NoNewParties(q, Awake(q, t))
    ensures |q.wokenRx| - 1 <= |Awake(q, t).wokenRx| <= |q.wokenRx|
    ensures |q.wokenTx| - 1 <= |Awake(q, t).wokenTx| <= |q.wokenTx|
    ensures t !in q.wokenRx ==> Awake(q, t).wokenRx == q.wokenRx
    ensures t !in q.wokenTx ==> Awake(q, t).wokenTx == q.wokenTx
  {
    if t in q.wokenRx { assert q.wokenRx == (q.wokenRx - {t}) + {t}; } else { assert q.wokenRx - {t} == q.wokenRx; }
    if t in q.wokenTx { assert q.wokenTx == (q.wokenTx - {t}) + {t}; } else { assert q.wokenTx - {t} == q.wokenTx; }
  }

  // ---- What each step keeps ----

  lemma PlaceServes(s: State, t: Task, p: nat)
    requires Invariant(s) && Enabled(s, Place(t, p))
    ensures var q := Perform(s, Place(t, p)).q;
      ListsAgree(q) && ReceiversServed(q) && (SendersServed(s.q) ==> SendersServed(q))
  {
    hide NoDup, InsertAt;
    if PcOf(s, t).kind.Putting? {
      InsertAtMembers(s.q.waitTx, p, t);
    } else {
      InsertAtMembers(s.q.waitRx, p, t);
    }
  }

  lemma TimeoutServes(q: Control, t: Task)
    requires ListsAgree(q) && ReceiversServed(q)
    ensures Serves(q, q.(waitRx := Without(q.waitRx, t), waitTx := Without(q.waitTx, t)))
  {
    hide NoDup, Without;
    WithoutMembers(q.waitRx, t);
    WithoutMembers(q.waitTx, t);
  }

  /** Every step keeps the bound on items, and every step but a reset the bound on free places. */
  lemma StepServes(s: State, step: Step)
    requires Invariant(s) && Enabled(s, step)
    ensures var q := Perform(s, step).q;
      && ListsAgree(q) && ReceiversServed(q)
      && (step != ResetStep && SendersServed(s.q) ==> SendersServed(q))
      && (!step.Place? ==> NoNewParties(s.q, q))
  {
    hide PlacesAgree, NoDup, WakeReceiver, WakeSender;
    match step
    case Top(t, mayWait) => RunTopServes(s, t, mayWait);
    case Place(t, p) => PlaceServes(s, t, p);
    case UnlockTxStep(t) => UnlockTxServes(s.q);
    case UnlockRxStep(t) => UnlockRxServes(s.q);
    case IsrPut(overwrite) => LocksInRange(s); PutFromISRServes(s.q, overwrite);
    case IsrTake => LocksInRange(s); TakeFromISRServes(s.q);
    case Timeout(t) => TimeoutServes(s.q, t);
    case ResetStep => ResetServes(s.q);
    case _ =>
  }

  lemma LocksInRange(s: State)
    requires LocksAgree(s)
    ensures s.q.rxLock >= UNLOCKED && s.q.txLock >= UNLOCKED
  {
    if s.locker != {} {
      var t :| t in s.locker;
    }
  }

  lemma PlacesKept(s: State, t: Task, q: Control, pc: Pc)
    requires PlacesAgree(s) && NoNewParties(s.q, q)
    requires t in q.waitRx || t in q.wokenRx ==> Placed(pc, false)
    requires t in q.waitTx || t in q.wokenTx ==> Placed(pc, true)
    ensures PlacesAgree(At(s, t, q, pc))
  {
    var r := At(s, t, q, pc);
    forall u ensures PcOf(r, u) == if u == t then pc else PcOf(s, u) {
    }
  }

  lemma RunTopParties(s: State, t: Task, mayWait: bool)
    requires Invariant(s) && Enabled(s, Top(t, mayWait))
    ensures var q := RunTop(s, t, mayWait).q;
      t !in q.waitRx && t !in q.wokenRx && t !in q.waitTx && t !in q.wokenTx && q.rxLock == q.txLock == UNLOCKED
  {
    hide NoDup;
  }

  lemma StepPlaces(s: State, step: Step)
    requires Invariant(s) && Enabled(s, step)
    ensures PlacesAgree(Perform(s, step))
  {
    hide NoDup, WakeReceiver, WakeSender, WakeReceivers, WakeSenders, RunTop, NoNewParties, LocksAgree, ReceiversServed;
    StepServes(s, step);
    match step
    case Begin(t, k) => PerformAt(s, step, t); PlacesKept(s, t, s.q, AtTop(k));
    case Top(t, mayWait) =>
      RunTopParties(s, t, mayWait);
      PerformAt(s, step, t);
      PlacesKept(s, t, Perform(s, step).q, PcOf(Perform(s, step), t));
    case Place(t, p) => PlacePlaces(s, t, p);
    case IsrPut(_) => PerformQ(s, step);
    case IsrTake => PerformQ(s, step);
    case Timeout(_) => PerformQ(s, step);
    case ResetStep => PerformQ(s, step);
    case _ => SamePlaces(s, step);
  }

  lemma PerformAt(s: State, step: Step, t: Task)
    requires Enabled(s, step)
    requires step.Begin? || step.Top? || step.LockStep? || step.Check? || step.Place? || step.UnlockTxStep?
          || step.UnlockRxStep? || step.Resume? || step.Look?
    requires step.task == t
    ensures var r := Perform(s, step); r == At(s, t, r.q, PcOf(r, t)).(locker := r.locker)
  {
  }

  lemma PerformQ(s: State, step: Step)
    requires Enabled(s, step) && (step.IsrPut? || step.IsrTake? || step.Timeout? || step.ResetStep?)
    requires PlacesAgree(s) && NoNewParties(s.q, Perform(s, step).q)
    ensures PlacesAgree(Perform(s, step))
  {
    var r := Perform(s, step);
    forall u ensures PcOf(r, u) == PcOf(s, u) {
    }
  }

  lemma PlacePlaces(s: State, t: Task, p: nat)
    requires Invariant(s) && Enabled(s, Place(t, p))
    ensures PlacesAgree(Perform(s, Place(t, p)))
  {
    hide NoDup, InsertAt, LocksAgree, ReceiversServed;
    if PcOf(s, t).kind.Putting? {
      InsertAtMembers(s.q.waitTx, p, t);
    } else {
      InsertAtMembers(s.q.waitRx, p, t);
    }
    var r := Perform(s, Place(t, p));
    forall u ensures PcOf(r, u) == if u == t then Unlocking(PcOf(s, t).kind, Retry) else PcOf(s, u) {
    }
  }

  /** The remaining steps move a task that is in no list, or keep it retrying. */
  lemma SamePlaces(s: State, step: Step)
    requires Invariant(s) && Enabled(s, step)
    requires step.LockStep? || step.Check? || step.UnlockTxStep? || step.UnlockRxStep? || step.Resume? || step.Look?
    ensures PlacesAgree(Perform(s, step))
  {
    hide NoDup, LocksAgree, ReceiversServed, NoNewParties;
    StepServes(s, step);
    PerformAt(s, step, step.task);
    var r := Perform(s, step);
    MembersStay(s.q, r.q, step.task);
    PlacesKept(s, step.task, r.q, PcOf(r, step.task));
  }

  lemma MembersStay(q: Control, r: Control, t: Task)
    requires NoNewParties(q, r)
    ensures t in r.waitRx || t in r.wokenRx ==> t in q.waitRx || t in q.wokenRx
    ensures t in r.waitTx || t in r.wokenTx ==> t in q.waitTx || t in q.wokenTx
  {
  }

  /** What the locking task's position says about the counts. */
  predicate PositionAgrees(pc: Pc, q: Control) {
    if !Holding(pc) then q.rxLock == q.txLock == UNLOCKED
    else if pc.HalfUnlocked? then q.txLock == UNLOCKED && q.rxLock >= UNLOCKED
    else
      && q.txLock >= 0 && q.rxLock >= 0
      && (pc.Observed? ==> if pc.kind.Putting? then q.length - q.count <= q.rxLock else q.count <= q.txLock)
  }

  predicate OverwriteFits(pc: Pc, length: nat) {
    pc != Outside && pc.kind.Putting? && pc.kind.overwrite ==> length == 1
  }

  /** A task's step keeps the agreement if its new position does. */
  lemma LocksKept(s: State, t: Task, q: Control, pc: Pc)
    requires LocksAgree(s) && s.locker <= {t} && q.length == s.q.length
    requires PositionAgrees(pc, q) && OverwriteFits(pc, q.length)
    ensures LocksAgree(At(s, t, q, pc).(locker := if Holding(pc) then {t} else {}))
  {
    var r := At(s, t, q, pc).(locker := if Holding(pc) then {t} else {});
    forall u ensures PcOf(r, u) == if u == t then pc else PcOf(s, u) {
    }
  }

  lemma Position(s: State, t: Task)
    requires LocksAgree(s) && s.locker <= {t}
    ensures PositionAgrees(PcOf(s, t), s.q) && OverwriteFits(PcOf(s, t), s.q.length)
    ensures s.locker == if Holding(PcOf(s, t)) then {t} else {}
  {
    if Holding(PcOf(s, t)) {
      assert t in s.locker;
    } else {
      assert s.locker == {};
    }
  }

  lemma TaskLocks(s: State, step: Step, t: Task)
    requires Invariant(s) && Enabled(s, step)
    requires step.Begin? || step.Top? || step.LockStep? || step.Check? || step.Place? || step.UnlockTxStep?
          || step.UnlockRxStep? || step.Resume? || step.Look?
    requires step.task == t
    ensures LocksAgree(Perform(s, step))
  {
    hide NoDup, ReceiversServed, PlacesAgree, WakeReceivers, WakeSenders, InsertAt, RunTop;
    assert s.locker <= {t} by { assert forall u :: u in s.locker && t in s.locker ==> u == t; }
    hide LocksAgree;
    Position(s, t);
    StepServes(s, step);
    PerformAt(s, step, t);
    var r := Perform(s, step);
    match step {
      case Top(_, mayWait) => RunTopParties(s, t, mayWait); RunTopKind(s, t, mayWait);
      case UnlockTxStep(_) => UnlockTxServes(s.q);
      case UnlockRxStep(_) => UnlockRxServes(s.q);
      case _ =>
    }
    LocksKept(s, t, r.q, PcOf(r, t));
  }

  lemma RunTopKind(s: State, t: Task, mayWait: bool)
    requires PcOf(s, t).AtTop?
    ensures var r := RunTop(s, t, mayWait);
      PcOf(r, t) in {Missed(PcOf(s, t).kind), Outside} && r.locker == s.locker && r.q.length == s.q.length
  {
  }

  lemma OtherLocks(s: State, step: Step)
    requires Invariant(s) && Enabled(s, step)
    requires step.IsrPut? || step.IsrTake? || step.Timeout? || step.ResetStep?
    ensures LocksAgree(Perform(s, step))
  {
    hide NoDup, ReceiversServed, PlacesAgree, Without;
    var r := Perform(s, step);
    forall u ensures PcOf(r, u) == PcOf(s, u) {
    }
  }

  lemma StepKeeps(s: State, step: Step)
    requires Invariant(s) && Enabled(s, step)
    ensures Invariant(Perform(s, step))
    ensures step != ResetStep && SendersServed(s.q) ==> SendersServed(Perform(s, step).q)
  {
    hide ListsAgree, PlacesAgree, LocksAgree, ReceiversServed, SendersServed, Perform;
    StepServes(s, step);
    StepPlaces(s, step);
    if step.IsrPut? || step.IsrTake? || step.Timeout? || step.ResetStep? {
      OtherLocks(s, step);
    } else {
      TaskLocks(s, step, step.task);
    }
  }

  // ---- Every run ----

  ghost predicate Possible(s: State, steps: seq<Step>)
    decreases |steps|
  {
    steps == [] || (Enabled(s, steps[0]) && Possible(Perform(s, steps[0]), steps[1..]))
  }

  ghost function Run(s: State, steps: seq<Step>): State
    requires Possible(s, steps)
    decreases |steps|
  {
    if steps == [] then s else Run(Perform(s, steps[0]), steps[1..])
  }

  function Created(length: nat): State {
    State(Control(length, 0, UNLOCKED, UNLOCKED, [], [], {}, {}), map[], {})
  }

  lemma {:induction false} RunKeeps(s: State, steps: seq<Step>)
    requires Invariant(s) && Possible(s, steps)
    ensures Invariant(Run(s, steps))
    ensures SendersServed(s.q) && ResetStep !in steps ==> SendersServed(Run(s, steps).q)
    decreases |steps|
  {
    hide Invariant, SendersServed, Enabled, Perform;
    if steps != [] {
      StepKeeps(s, steps[0]);
      RunKeeps(Perform(s, steps[0]), steps[1..]);
    }
  }

  /**
   No wake-up is lost: in every reachable state, while a receiver is in xTasksWaitingToReceive there
   are no more items than woken receivers that have still to run plus the pending unlock's wake-ups.
   */
  lemma NoLostReceiver(length: nat, steps: seq<Step>)
    requires length > 0 && Possible(Created(length), steps)
    ensures var q := Run(Created(length), steps).q;
      q.waitRx != [] ==> q.count <= |q.wokenRx| + Positive(q.txLock)
  {
    RunKeeps(Created(length), steps);
  }

  /** The mirror statement about free places, for runs in which the queue is not reset. */
  lemma NoLostSender(length: nat, steps: seq<Step>)
    requires length > 0 && Possible(Created(length), steps) && ResetStep !in steps
    ensures var q := Run(Created(length), steps).q;
      q.waitTx != [] ==> q.length - q.count <= |q.wokenTx| + Positive(q.rxLock)
  {
    RunKeeps(Created(length), steps);
  }

  /** Once all woken tasks have run and nothing is locked, a receiver waits only on an empty queue. */
  lemma WaitsOnlyWhenEmpty(length: nat, steps: seq<Step>)
    requires length > 0 && Possible(Created(length), steps)
    requires var s := Run(Created(length), steps); s.locker == {} && s.q.wokenRx == {} && s.q.waitRx != []
    ensures Run(Created(length), steps).q.count == 0
  {
    RunKeeps(Created(length), steps);
  }

  // ---- Resetting a queue that senders wait on ----

  /** A reset wakes one sender but frees every place: the sender bound survives it in just these cases. */
  lemma ResetKeepsSendersIff(q: Control)
    requires ListsAgree(q)
    ensures SendersServed(Reset(q)) <==> |q.waitTx| <= 1 || q.length <= |q.wokenTx| + 1
  {
    WakeSenderKeeps(q.(count := 0, rxLock := UNLOCKED, txLock := UNLOCKED));
  }
}
