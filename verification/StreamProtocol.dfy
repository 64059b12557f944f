/**
 A stream or message buffer between one sender and one receiver, each preempted between any two
 memory accesses: index reads, byte copies and index publications are separate steps.
 */
module StreamProtocol {
  import opened Arith
  import opened Octets

  const HEADER := 4

  // ---- Index arithmetic ----

  /** prvBytesInBuffer */
  function BytesBetween(length: nat, head: nat, tail: nat): nat
    requires tail < length
  {
    var count := length + head - tail;
    if count >= length then count - length else count
  }

  /** xStreamBufferSpacesAvailable */
  function SpaceBetween(length: nat, head: nat, tail: nat): nat
    requires head < length
  {
    var space := length + tail - head - 1;
    if space >= length then space - length else space
  }

  /** How the copies and publications move an index on by less than the length. */
  function Moved(length: nat, index: nat, n: nat): nat {
    if index + n >= length then index + n - length else index + n
  }

  function Slot(position: nat, length: nat): (p: nat)
    requires length > 0
    ensures p < length
  {
    position % length
  }

  lemma SlotMoved(position: nat, n: nat, length: nat)
    requires 0 < length && n <= length
    ensures Moved(length, Slot(position, length), n) == Slot(position + n, length)
  {
    if n == length {
      AddMultiple(position, 1, length);
    } else {
      AddWithin(position, n, length);
    }
  }

  /** The indices determine how much is unread as long as the buffer is never completely full. */
  lemma Distances(written: nat, read: nat, length: nat)
    requires read <= written < read + length
    ensures BytesBetween(length, Slot(written, length), Slot(read, length)) == written - read
    ensures SpaceBetween(length, Slot(written, length), Slot(read, length)) == length - 1 - (written - read)
  {
    AddWithin(read, written - read, length);
  }

  // ---- Message framing ----

  function Encode(n: nat): (h: seq<byte>)
    requires n < 0x1_0000_0000
    ensures |h| == HEADER
  {
    [(n % 256) as byte, (n / 0x100 % 256) as byte, (n / 0x1_0000 % 256) as byte, (n / 0x100_0000) as byte]
  }

  function Decode(h: seq<byte>): (n: nat)
    requires |h| == HEADER
  {
    h[0] as nat + 0x100 * h[1] as nat + 0x1_0000 * h[2] as nat + 0x100_0000 * h[3] as nat
  }

  /** The length written before a message is the length read back. */
  lemma DecodeEncode(n: nat)
    requires n < 0x1_0000_0000
    ensures Decode(Encode(n)) == n
  {
  }

  predicate Sendable(m: seq<byte>) {
    0 < |m| < 0x1_0000_0000
  }

  ghost predicate AllSendable(ms: seq<seq<byte>>) {
    forall i :: 0 <= i < |ms| ==> Sendable(ms[i])
  }

  /** The bytes of a sequence of messages, each after its length. */
  function Frames(ms: seq<seq<byte>>): seq<byte>
    requires AllSendable(ms)
  {
    if ms == [] then [] else
      var m := ms[|ms| - 1];
      assert Sendable(m);
      Frames(ms[..|ms| - 1]) + Encode(|m|) + m
  }

  lemma FramesAppend(ms: seq<seq<byte>>, m: seq<byte>)
    requires AllSendable(ms) && Sendable(m)
    ensures AllSendable(ms + [m]) && Frames(ms + [m]) == Frames(ms) + Encode(|m|) + m
  {
    assert (ms + [m])[..|ms|] == ms;
  }

  /** The frames of some of the messages are a prefix of the frames of all. */
  lemma {:induction false} FramesPrefix(ms: seq<seq<byte>>, k: nat)
    requires AllSendable(ms) && k <= |ms|
    ensures Frames(ms[..k]) <= Frames(ms)
    ensures k < |ms| ==> Frames(ms[..k]) + Encode(|ms[k]|) + ms[k] <= Frames(ms)
    decreases |ms|
  {
    if k < |ms| {
      var last := |ms| - 1;
      assert Sendable(ms[last]);
      assert ms[..last][..k] == ms[..k];
      FramesPrefix(ms[..last], k);
      if k < last {
        assert ms[..last][k] == ms[k];
      }
    } else {
      assert ms[..k] == ms;
    }
  }

  // ---- The machine ----

  datatype Sender = Quiet | Writing(chunk: seq<byte>, copied: nat, next: seq<byte>)

  datatype Phase = Plain | Header(available: nat) | Body

  datatype Receiver = Waiting | Reading(count: nat, got: seq<byte>, phase: Phase)

  /**
   `stream` is every byte whose write has been published and `received` every byte whose read has;
   `sent` and `delivered` are the messages handed over and handed out.
   */
  datatype State = State(
    length: nat, memory: seq<byte>, head: nat, tail: nat, sender: Sender, receiver: Receiver,
    stream: seq<byte>, received: seq<byte>, sent: seq<seq<byte>>, delivered: seq<seq<byte>>)

  datatype Step =
    | SendBytes(data: seq<byte>)
    | SendMessage(message: seq<byte>)
    | CopyIn
    | PublishHead
    | Receive(max: nat)
    | ReceiveMessage
    | CopyOut
    | PublishTail

  function Space(s: State): nat
    requires s.head < s.length
  {
    SpaceBetween(s.length, s.head, s.tail)
  }

  function Bytes(s: State): nat
    requires s.tail < s.length
  {
    BytesBetween(s.length, s.head, s.tail)
  }

  /** Indices stay inside the buffer. */
  predicate InRange(s: State) {
    s.length > 0 && |s.memory| == s.length && s.head < s.length && s.tail < s.length
  }

  /** A message that does not fit, or an empty buffer, ends the call without a step. */
  predicate Enabled(s: State, step: Step)
    requires InRange(s)
  {
    match step
    case SendBytes(data) => s.sender.Quiet? && |data| > 0 && Space(s) > 0
    case SendMessage(m) => s.sender.Quiet? && Sendable(m) && |m| + HEADER <= Space(s)
    case CopyIn => s.sender.Writing? && s.sender.copied < |s.sender.chunk|
    case PublishHead => s.sender.Writing? && s.sender.copied >= |s.sender.chunk|
    case Receive(max) => s.receiver.Waiting? && max > 0 && Bytes(s) > 0
    case ReceiveMessage => s.receiver.Waiting? && Bytes(s) > HEADER
    case CopyOut => s.receiver.Reading? && |s.receiver.got| < s.receiver.count
    case PublishTail => s.receiver.Reading? && |s.receiver.got| >= s.receiver.count
  }

  function Min(a: nat, b: nat): nat {
    if a < b then a else b
  }

  /** What the receiver does once it has published its index. */
  function Continue(r: Receiver): Receiver
    requires r.Reading?
  {
    match r.phase
    case Plain => Waiting
    case Body => Waiting
    case Header(available) =>
      var n := if |r.got| == HEADER && available >= HEADER then Min(Decode(r.got), available - HEADER) else 0;
      if n > 0 then Reading(n, [], Body) else Waiting
  }

  function Perform(s: State, step: Step): State
    requires InRange(s) && Enabled(s, step)
  {
    match step
    case SendBytes(data) => s.(sender := Writing(data[..Min(|data|, Space(s))], 0, []))
    case SendMessage(m) => s.(sender := Writing(Encode(|m|), 0, m), sent := s.sent + [m])
    case CopyIn =>
      var w := s.sender;
      var at := Moved(s.length, s.head, w.copied);
      if at >= s.length then s else
        s.(memory := s.memory[at := w.chunk[w.copied]], sender := w.(copied := w.copied + 1))
    case PublishHead =>
      var w := s.sender;
      s.(head := Moved(s.length, s.head, |w.chunk|), stream := s.stream + w.chunk,
         sender := if w.next == [] then Quiet else Writing(w.next, 0, []))
    case Receive(max) => s.(receiver := Reading(Min(Bytes(s), max), [], Plain))
    case ReceiveMessage => s.(receiver := Reading(HEADER, [], Header(Bytes(s))))
    case CopyOut =>
      var r := s.receiver;
      var at := Moved(s.length, s.tail, |r.got|);
      if at >= s.length then s else s.(receiver := r.(got := r.got + [s.memory[at]]))
    case PublishTail =>
      var r := s.receiver;
      s.(tail := Moved(s.length, s.tail, r.count), received := s.received + r.got, receiver := Continue(r),
         delivered := if r.phase == Body then s.delivered + [r.got] else s.delivered)
  }

  // ---- No byte is lost, repeated or overwritten ----

  /** The unread bytes and those being written are where the indices say they are. */
  ghost predicate MemoryHolds(s: State) {
    && InRange(s)
    && (forall k {:trigger Slot(k, s.length)} :: |s.received| <= k < |s.stream| ==>
      s.memory[Slot(k, s.length)] == s.stream[k])
    && (s.sender.Writing? ==>
          && s.sender.copied <= |s.sender.chunk|
          && forall i :: 0 <= i < s.sender.copied ==>
               s.memory[Slot(|s.stream| + i, s.length)] == s.sender.chunk[i])
  }

  /** The bytes a sender has undertaken to write. */
  function Pending(w: Sender): nat {
    if w.Quiet? then 0 else |w.chunk| + |w.next|
  }

  ghost predicate Bounded(s: State) {
    && s.length > 0 && s.head == Slot(|s.stream|, s.length) && s.tail == Slot(|s.received|, s.length)
    && s.received <= s.stream
    && |s.stream| + Pending(s.sender) <= |s.received| + s.length - 1
    && match s.receiver
       case Waiting => true
       case Reading(count, got, phase) =>
         && |got| <= count && |s.received| + count <= |s.stream|
         && got == s.stream[|s.received|..|s.received| + |got|]
         && match phase
            case Header(available) => count == HEADER && HEADER < available && |s.received| + available <= |s.stream|
            case _ => true
  }

  ghost predicate Invariant(s: State) {
    MemoryHolds(s) && Bounded(s)
  }

  lemma SlotsDiffer(k: nat, j: nat, length: nat)
    requires length > 0 && k < j < k + length
    ensures Slot(k, length) != Slot(j, length)
  {
    ModDistinct(k, j, length);
  }

  /** Copying into the free part never touches an unread byte. */
  lemma CopyInKeeps(s: State)
    requires Invariant(s) && Enabled(s, CopyIn)
    ensures Invariant(Perform(s, CopyIn))
  {
    hide Slot;
    var w, r := s.sender, Perform(s, CopyIn);
    var position := |s.stream| + w.copied;
    SlotMoved(|s.stream|, w.copied, s.length);
    forall k | |s.received| <= k < |s.stream| ensures r.memory[Slot(k, s.length)] == s.stream[k] {
      SlotsDiffer(k, position, s.length);
    }
    forall i | 0 <= i < r.sender.copied ensures r.memory[Slot(|s.stream| + i, s.length)] == w.chunk[i] {
      if i < w.copied {
        SlotsDiffer(|s.stream| + i, position, s.length);
      }
    }
  }

  lemma PublishHeadKeeps(s: State)
    requires Invariant(s) && Enabled(s, PublishHead)
    ensures Invariant(Perform(s, PublishHead))
  {
    hide Slot;
    var w, r := s.sender, Perform(s, PublishHead);
    SlotMoved(|s.stream|, |w.chunk|, s.length);
    forall k | |r.received| <= k < |r.stream| ensures r.memory[Slot(k, r.length)] == r.stream[k] {
      if k >= |s.stream| {
        assert s.memory[Slot(|s.stream| + (k - |s.stream|), s.length)] == w.chunk[k - |s.stream|];
      }
    }
  }

  lemma CopyOutKeeps(s: State)
    requires Invariant(s) && Enabled(s, CopyOut)
    ensures Invariant(Perform(s, CopyOut))
  {
    hide Slot;
    var r := s.receiver;
    SlotMoved(|s.received|, |r.got|, s.length);
    assert s.memory[Slot(|s.received| + |r.got|, s.length)] == s.stream[|s.received| + |r.got|];
  }

  lemma PublishTailKeeps(s: State)
    requires Invariant(s) && Enabled(s, PublishTail)
    ensures Invariant(Perform(s, PublishTail))
  {
    hide Slot;
    SlotMoved(|s.received|, s.receiver.count, s.length);
  }

  lemma StepKeeps(s: State, step: Step)
    requires Invariant(s) && Enabled(s, step)
    ensures Invariant(Perform(s, step))
  {
    hide Slot;
    Distances(|s.stream|, |s.received|, s.length);
    match step
    case CopyIn => CopyInKeeps(s);
    case PublishHead => PublishHeadKeeps(s);
    case CopyOut => CopyOutKeeps(s);
    case PublishTail => PublishTailKeeps(s);
    case _ =>
  }

  // ---- Runs ----

  ghost predicate Possible(s: State, steps: seq<Step>)
    decreases |steps|
  {
    steps == [] || (InRange(s) && Enabled(s, steps[0]) && Possible(Perform(s, steps[0]), steps[1..]))
  }

  ghost function Run(s: State, steps: seq<Step>): State
    requires Possible(s, steps)
    decreases |steps|
  {
    if steps == [] then s else Run(Perform(s, steps[0]), steps[1..])
  }

  /** A new buffer; whatever its storage holds. */
  function Created(memory: seq<byte>): State {
    State(|memory|, memory, 0, 0, Quiet, Waiting, [], [], [], [])
  }

  lemma CreatedInvariant(memory: seq<byte>)
    requires |memory| > 0
    ensures Invariant(Created(memory)) && Framed(Created(memory))
  {
    DivModUnique(0, 0, 0, |memory|);
  }

  lemma {:induction false} RunKeeps(s: State, steps: seq<Step>)
    requires Invariant(s) && Possible(s, steps)
    ensures Invariant(Run(s, steps))
    decreases |steps|
  {
    hide MemoryHolds, Bounded, Enabled, Perform;
    if steps != [] {
      StepKeeps(s, steps[0]);
      RunKeeps(Perform(s, steps[0]), steps[1..]);
    }
  }

  /**
   In every interleaving the bytes received, with those the receiver has copied out so far, are a
   prefix of the bytes sent, and every byte sent but not yet received is still in the buffer.
   */
  lemma ReceivedIsPrefix(memory: seq<byte>, steps: seq<Step>)
    requires |memory| > 0 && Possible(Created(memory), steps)
    ensures var s := Run(Created(memory), steps);
      && s.received + (if s.receiver.Reading? then s.receiver.got else []) <= s.stream
      && |s.stream| - |s.received| < s.length == |s.memory|
      && forall k {:trigger Slot(k, s.length)} :: |s.received| <= k < |s.stream| ==>
        s.memory[Slot(k, s.length)] == s.stream[k]
  {
    hide Perform, Enabled;
    CreatedInvariant(memory);
    RunKeeps(Created(memory), steps);
  }

  // ---- Whole messages ----

  /** How far the sender is into the frame of its last message. */
  ghost predicate SenderFramed(w: Sender, stream: seq<byte>, sent: seq<seq<byte>>) {
    && AllSendable(sent)
    && match w
       case Quiet => stream == Frames(sent)
       case Writing(chunk, _, next) =>
         && sent != [] && Sendable(sent[|sent| - 1]) && AllSendable(sent[..|sent| - 1])
         && var m, before := sent[|sent| - 1], sent[..|sent| - 1];
            if next != [] then next == m && chunk == Encode(|m|) && stream == Frames(before)
            else chunk == m && stream == Frames(before) + Encode(|m|)
  }

  /** How far the receiver is into the frame of the next message. */
  ghost predicate ReceiverFramed(r: Receiver, received: seq<byte>, sent: seq<seq<byte>>, delivered: seq<seq<byte>>) {
    && delivered <= sent && AllSendable(delivered)
    && if r.Reading? && r.phase == Body
       then |delivered| < |sent| && Sendable(sent[|delivered|])
            && r.count == |sent[|delivered|]| && received == Frames(delivered) + Encode(|sent[|delivered|]|)
       else received == Frames(delivered)
            && (r.Reading? ==>
                  r.phase.Header? && |delivered| < |sent| && Sendable(sent[|delivered|])
                  && HEADER + |sent[|delivered|]| <= r.phase.available)
  }

  ghost predicate Framed(s: State) {
    SenderFramed(s.sender, s.stream, s.sent) && ReceiverFramed(s.receiver, s.received, s.sent, s.delivered)
  }

  predicate MessageStep(step: Step) {
    !step.SendBytes? && !step.Receive?
  }

  /** What has been published is whole frames, or whole frames and one more length. */
  lemma StreamIsFrames(w: Sender, stream: seq<byte>, sent: seq<seq<byte>>)
    requires SenderFramed(w, stream, sent)
    ensures w.Quiet? ==> stream == Frames(sent)
    ensures w.Writing? ==> AllSendable(sent[..|sent| - 1]) && Frames(sent[..|sent| - 1]) <= stream
                           && |stream| <= |Frames(sent[..|sent| - 1])| + HEADER
  {
  }

  /** With more than a length unread, the whole next message is there. */
  lemma NextMessageIsWhole(s: State)
    requires Framed(s) && s.received == Frames(s.delivered) && |s.stream| - |s.received| > HEADER
    ensures |s.delivered| < |s.sent| && Sendable(s.sent[|s.delivered|])
    ensures Frames(s.delivered) + Encode(|s.sent[|s.delivered|]|) + s.sent[|s.delivered|] <= s.stream
  {
    StreamIsFrames(s.sender, s.stream, s.sent);
    assert s.sent[..|s.sent|] == s.sent && s.sent[..|s.delivered|] == s.delivered;
    NextIsWhole(s.sent, if s.sender.Quiet? then |s.sent| else |s.sent| - 1, |s.delivered|, s.stream);
  }

  lemma NextIsWhole(ms: seq<seq<byte>>, j: nat, k: nat, stream: seq<byte>)
    requires j <= |ms| && k <= |ms| && AllSendable(ms)
    requires Frames(ms[..j]) <= stream && |stream| <= |Frames(ms[..j])| + HEADER
      && |stream| > |Frames(ms[..k])| + HEADER
    ensures k < |ms| && Sendable(ms[k]) && Frames(ms[..k]) + Encode(|ms[k]|) + ms[k] <= stream
  {
    hide Frames, Encode;
    FramesGrow(ms, j, k);
    assert k < j;
    assert ms[..j][..k] == ms[..k] && ms[..j][k] == ms[k];
    FramesPrefix(ms[..j], k);
  }

  lemma FramesGrow(ms: seq<seq<byte>>, j: nat, k: nat)
    requires j <= |ms| && k <= |ms| && AllSendable(ms)
    ensures j <= k ==> |Frames(ms[..j])| <= |Frames(ms[..k])|
  {
    if j <= k {
      FramesPrefix(ms[..k], j);
      assert ms[..k][..j] == ms[..j];
    }
  }

  lemma StreamIsPrefix(s: State)
    requires Framed(s)
    ensures s.stream <= Frames(s.sent)
  {
    if s.sender.Writing? {
      var before, m := s.sent[..|s.sent| - 1], s.sent[|s.sent| - 1];
      FramesAppend(before, m);
      assert before + [m] == s.sent;
    }
  }

  /** The frame of the next message, as far as it has been published. */
  lemma NextFrame(s: State, n: nat)
    requires Framed(s) && |s.delivered| < |s.sent|
    requires Sendable(s.sent[|s.delivered|]) && n <= HEADER + |s.sent[|s.delivered|]|
    requires |Frames(s.delivered)| + n <= |s.stream|
    ensures s.stream[|Frames(s.delivered)|..|Frames(s.delivered)| + n]
            == (Encode(|s.sent[|s.delivered|]|) + s.sent[|s.delivered|])[..n]
  {
    var k, f := |s.delivered|, Frames(s.delivered);
    var m := s.sent[k];
    StreamIsPrefix(s);
    assert s.delivered == s.sent[..k];
    FramesPrefix(s.sent, k);
    assert f + Encode(|m|) + m == f + (Encode(|m|) + m);
    hide Frames, Encode, Framed;
    Within(s.stream, Frames(s.sent), f, Encode(|m|) + m, n);
  }

  lemma Within(stream: seq<byte>, whole: seq<byte>, f: seq<byte>, frame: seq<byte>, n: nat)
    requires stream <= whole && f + frame <= whole && n <= |frame| && |f| + n <= |stream|
    ensures stream[|f|..|f| + n] == frame[..n]
  {
    assert stream[|f|..|f| + n] == whole[|f|..|f| + n] == (f + frame)[|f|..|f| + n];
  }

  lemma SendMessageFramed(s: State, m: seq<byte>)
    requires Framed(s) && InRange(s) && Enabled(s, SendMessage(m))
    ensures Framed(Perform(s, SendMessage(m)))
  {
    hide Frames, Encode;
    FramesAppend(s.sent, m);
    assert (s.sent + [m])[..|s.sent|] == s.sent;
  }

  lemma PublishHeadFramed(s: State)
    requires Framed(s) && InRange(s) && Enabled(s, PublishHead)
    ensures Framed(Perform(s, PublishHead))
  {
    var before, m := s.sent[..|s.sent| - 1], s.sent[|s.sent| - 1];
    FramesAppend(before, m);
    assert before + [m] == s.sent;
    hide Frames, Encode;
  }

  lemma ReceiveMessageFramed(s: State)
    requires Framed(s) && Invariant(s) && Enabled(s, ReceiveMessage)
    ensures Framed(Perform(s, ReceiveMessage))
  {
    Distances(|s.stream|, |s.received|, s.length);
    NextMessageIsWhole(s);
  }

  /** The length read is the next message's, so exactly that message is read next. */
  lemma HeaderFramed(s: State)
    requires Framed(s) && Invariant(s) && Enabled(s, PublishTail) && s.receiver.phase != Body
    ensures Framed(Perform(s, PublishTail))
  {
    hide MemoryHolds, Slot;
    NextFrame(s, HEADER);
    var m := s.sent[|s.delivered|];
    hide Frames, SenderFramed;
    assert s.receiver.got == Encode(|m|);
    DecodeEncode(|m|);
  }

  lemma AfterHeader(stream: seq<byte>, at: nat, header: seq<byte>, m: seq<byte>)
    requires at + |header| + |m| <= |stream|
    requires stream[at..at + |header| + |m|] == (header + m)[..|header| + |m|]
    ensures stream[at + |header|..at + |header| + |m|] == m
  {
    assert stream[at..at + |header| + |m|][|header|..] == stream[at + |header|..at + |header| + |m|];
  }

  /** What has been read after the length is the message itself. */
  lemma BodyFramed(s: State)
    requires Framed(s) && Invariant(s) && Enabled(s, PublishTail) && s.receiver.phase == Body
    ensures Framed(Perform(s, PublishTail))
  {
    hide MemoryHolds, Slot;
    var m, f := s.sent[|s.delivered|], Frames(s.delivered);
    NextFrame(s, HEADER + |m|);
    hide SenderFramed, Encode, Frames;
    AfterHeader(s.stream, |f|, Encode(|m|), m);
    assert s.receiver.got == m;
    FramesAppend(s.delivered, m);
    assert s.sent[..|s.delivered| + 1] == s.delivered + [m];
  }

  lemma PublishTailFramed(s: State)
    requires Framed(s) && Invariant(s) && Enabled(s, PublishTail)
    ensures Framed(Perform(s, PublishTail))
  {
    if s.receiver.phase == Body {
      BodyFramed(s);
    } else {
      HeaderFramed(s);
    }
  }

  lemma MessageStepKeeps(s: State, step: Step)
    requires Framed(s) && Invariant(s) && Enabled(s, step) && MessageStep(step)
    ensures Framed(Perform(s, step))
  {
    match step
    case SendMessage(m) => SendMessageFramed(s, m);
    case PublishHead => PublishHeadFramed(s);
    case ReceiveMessage => ReceiveMessageFramed(s);
    case PublishTail => PublishTailFramed(s);
    case CopyIn => hide Frames;
    case CopyOut => hide Frames;
  }

  lemma {:induction false} MessageRunKeeps(s: State, steps: seq<Step>)
    requires Invariant(s) && Framed(s) && Possible(s, steps) && forall step :: step in steps ==> MessageStep(step)
    ensures Framed(Run(s, steps))
    decreases |steps|
  {
    hide MemoryHolds, Bounded, Framed, Enabled, Perform, MessageStep;
    if steps != [] {
      assert steps[0] in steps;
      StepKeeps(s, steps[0]);
      MessageStepKeeps(s, steps[0]);
      MessageRunKeeps(Perform(s, steps[0]), steps[1..]);
    }
  }

  /** In every interleaving of message calls only whole messages come out, in the order they went in. */
  lemma WholeMessagesInOrder(memory: seq<byte>, steps: seq<Step>)
    requires |memory| > 0 && Possible(Created(memory), steps) && forall step :: step in steps ==> MessageStep(step)
    ensures Run(Created(memory), steps).delivered <= Run(Created(memory), steps).sent
  {
    hide Perform, Enabled;
    CreatedInvariant(memory);
    MessageRunKeeps(Created(memory), steps);
  }

  /** When both sides are idle, what is left in the buffer is exactly the messages not yet delivered. */
  lemma QuiescentContents(s: State)
    requires Framed(s) && s.sender.Quiet? && s.receiver.Waiting?
    ensures s.stream == Frames(s.sent) && s.received == Frames(s.delivered) && s.delivered <= s.sent
    ensures |s.stream| == |s.received| ==> s.delivered == s.sent
  {
    var k := |s.delivered|;
    assert s.delivered == s.sent[..k];
    if k < |s.sent| {
      FramesPrefix(s.sent, k);
    } else {
      assert s.sent[..k] == s.sent;
    }
  }
}
