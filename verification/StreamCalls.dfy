/** Whole calls on a stream or message buffer: what each sends or receives, however the two sides interleave. */
module StreamCalls {
  import opened Octets
  import opened StreamProtocol

  predicate Sends(step: Step) {
    step.SendBytes? || step.SendMessage?
  }

  predicate Receives(step: Step) {
    step.Receive? || step.ReceiveMessage?
  }

  // ---- Sending ----

  /** The bytes the call under way has still to publish. */
  function ToPublish(w: Sender): seq<byte> {
    if w.Quiet? then [] else w.chunk + w.next
  }

  /**
   A stream send undertakes to write as many of its bytes as there is space for, a message send the message's
   length and all of it.
   */
  lemma SendUndertakes(s: State, step: Step)
    requires Invariant(s) && Enabled(s, step) && Sends(step)
    ensures var r, free := Perform(s, step), s.length - 1 - (|s.stream| - |s.received|);
      && r.stream == s.stream && r.sender.Writing?
      && ToPublish(r.sender) ==
           if step.SendMessage? then Encode(|step.message|) + step.message
           else if |step.data| <= free then step.data else step.data[..free]
  {
    hide MemoryHolds, Slot, Encode;
    StreamDistances(s);
  }

  lemma StreamDistances(s: State)
    requires Invariant(s)
    ensures Bytes(s) == |s.stream| - |s.received| && Space(s) == s.length - 1 - (|s.stream| - |s.received|)
  {
    Distances(|s.stream|, |s.received|, s.length);
  }

  lemma OthersPublishNothing(s: State, step: Step)
    requires InRange(s) && Enabled(s, step) && !Sends(step)
    ensures var r := Perform(s, step); r.stream + ToPublish(r.sender) == s.stream + ToPublish(s.sender)
    ensures s.sender.Quiet? ==> Perform(s, step).sender.Quiet?
  {
    hide Encode;
    if step.PublishHead? {
      var w := s.sender;
      assert s.stream + (w.chunk + w.next) == (s.stream + w.chunk) + w.next;
    }
  }

  lemma {:induction false} PublishedInTheEnd(s: State, steps: seq<Step>)
    requires Possible(s, steps) && forall step :: step in steps ==> !Sends(step)
    ensures var r := Run(s, steps); r.stream + ToPublish(r.sender) == s.stream + ToPublish(s.sender)
    decreases |steps|
  {
    hide InRange, Enabled, Perform, ToPublish, Sends;
    if steps != [] {
      assert steps[0] in steps;
      OthersPublishNothing(s, steps[0]);
      PublishedInTheEnd(Perform(s, steps[0]), steps[1..]);
    }
  }

  /**
   However the receiver's steps come between: when a send call has come to its end, exactly the bytes it
   accepted have been added to the stream, in order; a message has been added whole, after its length.
   */
  lemma SendAppends(s: State, step: Step, steps: seq<Step>)
    requires Invariant(s) && Enabled(s, step) && Sends(step)
    requires Possible(Perform(s, step), steps) && forall other :: other in steps ==> !Sends(other)
    requires Run(Perform(s, step), steps).sender.Quiet?
    ensures var r, free := Run(Perform(s, step), steps), s.length - 1 - (|s.stream| - |s.received|);
      r.stream == s.stream +
        if step.SendMessage? then Encode(|step.message|) + step.message
        else if |step.data| <= free then step.data else step.data[..free]
  {
    SendUndertakes(s, step);
    PublishedInTheEnd(Perform(s, step), steps);
    hide Invariant, Enabled, Perform, Encode, Sends, Possible, Run;
    var r := Run(Perform(s, step), steps);
    assert r.stream + [] == r.stream;
  }

  // ---- Receiving ----

  /** The bytes a stream receive has still to take. */
  function ToTake(r: Receiver): nat {
    if r.Reading? && r.phase == Plain then r.count else 0
  }

  predicate NoMessagePhase(r: Receiver) {
    r.Reading? ==> r.phase == Plain
  }

  lemma ReceiveUndertakes(s: State, max: nat)
    requires Invariant(s) && Enabled(s, Receive(max))
    ensures var r, unread := Perform(s, Receive(max)), |s.stream| - |s.received|;
      && r.received == s.received && r.receiver.Reading? && r.receiver.phase == Plain
      && ToTake(r.receiver) == if unread < max then unread else max
  {
    hide MemoryHolds, Slot;
    StreamDistances(s);
  }

  lemma OthersTakeNothing(s: State, step: Step)
    requires Invariant(s) && Enabled(s, step) && !Receives(step) && NoMessagePhase(s.receiver)
    ensures var r := Perform(s, step);
      && |r.received| + ToTake(r.receiver) == |s.received| + ToTake(s.receiver)
      && NoMessagePhase(r.receiver) && s.stream <= r.stream
  {
    hide MemoryHolds, Slot, Encode;
  }

  lemma {:induction false} TakenInTheEnd(s: State, steps: seq<Step>)
    requires Invariant(s) && Possible(s, steps) && (forall step :: step in steps ==> !Receives(step))
    requires NoMessagePhase(s.receiver)
    ensures var r := Run(s, steps);
      Invariant(r) && |r.received| + ToTake(r.receiver) == |s.received| + ToTake(s.receiver) && s.stream <= r.stream
    decreases |steps|
  {
    hide Invariant, Enabled, Perform, ToTake, Receives, NoMessagePhase;
    if steps != [] {
      assert steps[0] in steps;
      StepKeeps(s, steps[0]);
      OthersTakeNothing(s, steps[0]);
      TakenInTheEnd(Perform(s, steps[0]), steps[1..]);
    }
  }

  /**
   However the sender's steps come between: when a stream receive has come to its end, it has taken the oldest
   unread bytes, as many as were there when it began or as its destination holds, whichever is less.
   */
  lemma ReceiveTakesOldest(s: State, max: nat, steps: seq<Step>)
    requires Invariant(s) && Enabled(s, Receive(max))
    requires Possible(Perform(s, Receive(max)), steps) && forall other :: other in steps ==> !Receives(other)
    requires Run(Perform(s, Receive(max)), steps).receiver.Waiting?
    ensures var r, unread := Run(Perform(s, Receive(max)), steps), |s.stream| - |s.received|;
      && unread >= 0
      && r.received == s.received + s.stream[|s.received|..|s.received| + if unread < max then unread else max]
  {
    ReceiveUndertakes(s, max);
    StepKeeps(s, Receive(max));
    assert s.received <= s.stream;
    hide MemoryHolds, Possible, Enabled, Perform, Receives;
    TakenInTheEnd(Perform(s, Receive(max)), steps);
    hide Run;
    var r, unread := Run(Perform(s, Receive(max)), steps), |s.stream| - |s.received|;
    var n := |s.received| + if unread < max then unread else max;
    assert r.received <= r.stream && s.stream <= r.stream && |r.received| == n;
    assert r.received == r.stream[..n] == s.stream[..n];
    assert s.stream[..n] == s.stream[..|s.received|] + s.stream[|s.received|..n];
  }

  // ---- Receiving a message ----

  /** One message is on its way out while the receiver is reading. */
  function InHand(r: Receiver): nat {
    if r.Reading? then 1 else 0
  }

  lemma OthersDeliverNothing(s: State, step: Step)
    requires Framed(s) && Invariant(s) && Enabled(s, step) && MessageStep(step) && !Receives(step)
    ensures var r := Perform(s, step); |r.delivered| + InHand(r.receiver) == |s.delivered| + InHand(s.receiver)
  {
    if step.PublishTail? && s.receiver.phase != Body {
      HeaderGivesLength(s);
    }
    hide MemoryHolds, Slot, Encode, Frames, Framed;
  }

  /** The length of a message is never zero, so after it the receiver goes on to the message. */
  lemma HeaderGivesLength(s: State)
    requires Framed(s) && Invariant(s) && Enabled(s, PublishTail) && s.receiver.phase != Body
    ensures Perform(s, PublishTail).receiver.Reading?
  {
    hide MemoryHolds, Slot;
    NextFrame(s, HEADER);
    var m := s.sent[|s.delivered|];
    hide Frames, SenderFramed;
    assert s.receiver.got == Encode(|m|);
    DecodeEncode(|m|);
  }

  lemma {:induction false} DeliveredInTheEnd(s: State, steps: seq<Step>)
    requires Framed(s) && Invariant(s) && Possible(s, steps)
    requires forall step :: step in steps ==> MessageStep(step) && !Receives(step)
    ensures var r := Run(s, steps);
      && Framed(r) && Invariant(r) && s.sent <= r.sent && s.delivered <= r.delivered
      && |r.delivered| + InHand(r.receiver) == |s.delivered| + InHand(s.receiver)
    decreases |steps|
  {
    hide Invariant, Framed, Enabled, Perform, InHand, Receives, MessageStep;
    if steps != [] {
      assert steps[0] in steps;
      StepKeeps(s, steps[0]);
      MessageStepKeeps(s, steps[0]);
      OthersDeliverNothing(s, steps[0]);
      MessagesStay(s, steps[0]);
      DeliveredInTheEnd(Perform(s, steps[0]), steps[1..]);
    }
  }

  lemma MessagesStay(s: State, step: Step)
    requires InRange(s) && Enabled(s, step)
    ensures s.sent <= Perform(s, step).sent && s.delivered <= Perform(s, step).delivered
  {
    hide Encode;
  }

  /**
   However the sender's steps come between: a message receive that has come to its end has delivered the next
   message.
   */
  lemma ReceiveDeliversNext(s: State, steps: seq<Step>)
    requires Framed(s) && Invariant(s) && Enabled(s, ReceiveMessage)
    requires Possible(Perform(s, ReceiveMessage), steps)
    requires forall other :: other in steps ==> MessageStep(other) && !Receives(other)
    requires Run(Perform(s, ReceiveMessage), steps).receiver.Waiting?
    ensures |s.delivered| < |s.sent|
    ensures Run(Perform(s, ReceiveMessage), steps).delivered == s.delivered + [s.sent[|s.delivered|]]
  {
    StepKeeps(s, ReceiveMessage);
    MessageStepKeeps(s, ReceiveMessage);
    ReceiveHasOne(s);
    var s1 := Perform(s, ReceiveMessage);
    hide Invariant, Enabled, Perform, Receives, MessageStep, Possible;
    DeliveredInTheEnd(s1, steps);
    var r, k := Run(s1, steps), |s.delivered|;
    hide SenderFramed;
    assert r.delivered <= r.sent && |r.delivered| == k + 1;
    assert r.delivered == r.sent[..k + 1] == s.sent[..k + 1];
    assert s.sent[..k + 1] == s.sent[..k] + [s.sent[k]];
  }

  lemma ReceiveHasOne(s: State)
    requires Framed(s) && Invariant(s) && Enabled(s, ReceiveMessage)
    ensures |s.delivered| < |s.sent|
    ensures var r := Perform(s, ReceiveMessage);
      r.sent == s.sent && r.delivered == s.delivered && r.receiver.Reading? && s.delivered <= s.sent
  {
    hide MemoryHolds, Slot;
    StreamDistances(s);
    NextMessageIsWhole(s);
  }

  // ---- Calls come to their end ----

  function SendSteps(w: Sender): nat {
    if w.Quiet? then 0
    else if w.copied <= |w.chunk| then |w.chunk| - w.copied + 1 + (if w.next == [] then 0 else |w.next| + 1)
    else 0
  }

  /** The sender's own steps bring its call to an end. */
  lemma {:induction false} SenderFinishes(s: State) returns (steps: seq<Step>)
    requires Invariant(s)
    ensures Possible(s, steps) && Run(s, steps).sender.Quiet?
    ensures forall step :: step in steps ==> step == CopyIn || step == PublishHead
    decreases SendSteps(s.sender)
  {
    if s.sender.Quiet? {
      steps := [];
    } else {
      var next := if s.sender.copied < |s.sender.chunk| then CopyIn else PublishHead;
      StepKeeps(s, next);
      SenderGoesOn(s, next);
      hide Invariant, SendSteps;
      var rest := SenderFinishes(Perform(s, next));
      steps := [next] + rest;
      assert steps[1..] == rest;
    }
  }

  lemma SenderGoesOn(s: State, next: Step)
    requires Invariant(s) && s.sender.Writing?
    requires next == if s.sender.copied < |s.sender.chunk| then CopyIn else PublishHead
    ensures Enabled(s, next) && SendSteps(Perform(s, next).sender) < SendSteps(s.sender)
  {
    hide Slot;
  }

  /** No message is longer than the buffer. */
  function ReceiveSteps(r: Receiver, length: nat): nat {
    if r.Waiting? then 0
    else if |r.got| <= r.count then r.count - |r.got| + 1 + (if r.phase.Header? then length + 1 else 0)
    else 0
  }

  /** And the receiver's its call. */
  lemma {:induction false} ReceiverFinishes(s: State) returns (steps: seq<Step>)
    requires Invariant(s)
    ensures Possible(s, steps) && Run(s, steps).receiver.Waiting?
    ensures forall step :: step in steps ==> step == CopyOut || step == PublishTail
    decreases ReceiveSteps(s.receiver, s.length)
  {
    if s.receiver.Waiting? {
      steps := [];
    } else {
      var next := if |s.receiver.got| < s.receiver.count then CopyOut else PublishTail;
      StepKeeps(s, next);
      ReceiverGoesOn(s, next);
      hide Invariant, ReceiveSteps;
      var rest := ReceiverFinishes(Perform(s, next));
      steps := [next] + rest;
      assert steps[1..] == rest;
    }
  }

  lemma ReceiverGoesOn(s: State, next: Step)
    requires Invariant(s) && s.receiver.Reading?
    requires next == if |s.receiver.got| < s.receiver.count then CopyOut else PublishTail
    ensures Enabled(s, next) && Perform(s, next).length == s.length
    ensures ReceiveSteps(Perform(s, next).receiver, s.length) < ReceiveSteps(s.receiver, s.length)
  {
    hide Slot, Decode;
  }
}
