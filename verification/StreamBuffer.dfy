/** A stream or message buffer used by one task at a time: its bytes form a bounded queue. */
module StreamBuffer {
  import opened Octets
  import opened StreamProtocol

  function Unread(memory: seq<byte>, read: nat, n: nat, length: nat): (s: seq<byte>)
    requires 0 < length == |memory|
    ensures |s| == n
  {
    seq(n, i requires 0 <= i < n => memory[Slot(read + i, length)])
  }

  function Overlaid(memory: seq<byte>, at: nat, data: seq<byte>): (m: seq<byte>)
    requires at + |data| <= |memory|
    ensures |m| == |memory|
  {
    memory[..at] + data + memory[at + |data|..]
  }

  lemma OverlaidAt(memory: seq<byte>, at: nat, data: seq<byte>, j: nat)
    requires at + |data| <= |memory| && j < |memory|
    ensures Overlaid(memory, at, data)[j] == if at <= j < at + |data| then data[j - at] else memory[j]
  {
  }

  /** The memory after a write at the given index, in a second part at the start if it wraps. */
  function Written(memory: seq<byte>, at: nat, data: seq<byte>): (m: seq<byte>)
    requires at < |memory| && |data| <= |memory|
    ensures |m| == |memory|
  {
    var first := Min(|memory| - at, |data|);
    var m := Overlaid(memory, at, data[..first]);
    if |data| > first then Overlaid(m, 0, data[first..]) else m
  }

  lemma WrittenAt(memory: seq<byte>, at: nat, data: seq<byte>, j: nat)
    requires at < |memory| && |data| <= |memory| && j < |memory|
    ensures var first := Min(|memory| - at, |data|);
      Written(memory, at, data)[j] ==
        if j < |data| - first then data[first + j] else if at <= j < at + first then data[j - at] else memory[j]
  {
    hide Overlaid;
    var first := Min(|memory| - at, |data|);
    OverlaidAt(memory, at, data[..first], j);
    if |data| > first {
      OverlaidAt(Overlaid(memory, at, data[..first]), 0, data[first..], j);
    }
  }

  /** Writing after the unread bytes appends to them. */
  lemma WrittenInParts(memory: seq<byte>, read: nat, written: nat, data: seq<byte>, length: nat)
    requires 0 < length == |memory| && read <= written && written - read + |data| < length
    ensures Unread(Written(memory, Slot(written, length), data), read, written + |data| - read, length)
            == Unread(memory, read, written - read, length) + data
  {
    hide Slot, Written;
    var at, n := Slot(written, length), written - read;
    var m := Written(memory, at, data);
    var was, now := Unread(memory, read, n, length), Unread(m, read, n + |data|, length);
    forall k | 0 <= k < n + |data| ensures now[k] == (was + data)[k] {
      WrittenAt(memory, at, data, Slot(read + k, length));
      if k < n {
        StaysPut(read + k, written, |data|, length);
      } else {
        SlotMoved(written, k - n, length);
      }
    }
  }

  class Buffer {
    const length: nat
    const buffer: array<byte>
    var head: nat
    var tail: nat
    /** How many bytes have ever been written and read. */
    ghost var written: nat
    ghost var read: nat

    ghost predicate Valid()
      reads this
    {
      && length > 0 && buffer.Length == length
      && read <= written < read + length
      && head == Slot(written, length) && tail == Slot(read, length)
    }

    ghost function Contents(): (s: seq<byte>)
      reads this, buffer
      requires Valid()
      ensures |s| == written - read
    {
      Unread(buffer[..], read, written - read, length)
    }

    constructor (length: nat)
      requires length > 0
      ensures Valid() && Contents() == [] && fresh(buffer) && this.length == length
    {
      this.length := length;
      buffer := new byte[length];
      head, tail, written, read := 0, 0, 0, 0;
      new;
      CreatedInvariant(buffer[..]);
    }

    /** prvBytesInBuffer */
    method BytesInBuffer() returns (n: nat)
      requires Valid()
      ensures n == |Contents()|
    {
      Distances(written, read, length);
      n := length + head - tail;
      if n >= length {
        n := n - length;
      }
    }

    /** xStreamBufferSpacesAvailable */
    method SpacesAvailable() returns (n: nat)
      requires Valid()
      ensures n + |Contents()| == length - 1
    {
      Distances(written, read, length);
      n := length + tail - head - 1;
      if n >= length {
        n := n - length;
      }
    }

    /** memcpy into the storage area */
    method CopyIn(at: nat, data: seq<byte>)
      requires at + |data| <= buffer.Length
      modifies buffer
      ensures buffer[..] == Overlaid(old(buffer[..]), at, data)
    {
      var i := 0;
      while i < |data|
        invariant 0 <= i <= |data|
        invariant forall j :: 0 <= j < buffer.Length ==>
                    buffer[j] == if at <= j < at + i then data[j - at] else old(buffer[j])
      {
        buffer[at + i] := data[i];
        i := i + 1;
      }
    }

    /** prvWriteBytesToBuffer: in two parts if the buffer wraps. */
    method WriteBytes(data: seq<byte>)
      requires Valid() && 0 < |data| && |Contents()| + |data| <= length - 1
      modifies this, buffer
      ensures Valid() && Contents() == old(Contents()) + data
    {
      hide Slot, Unread, Overlaid;
      WrittenInParts(buffer[..], read, written, data, length);
      SlotMoved(written, |data|, length);
      var first := Min(length - head, |data|);
      CopyIn(head, data[..first]);
      if |data| > first {
        CopyIn(0, data[first..]);
      }
      var next := head + |data|;
      if next >= length {
        next := next - length;
      }
      head, written := next, written + |data|;
    }

    /** prvReadBytesFromBuffer, of at most the bytes said to be available. */
    method ReadBytes(max: nat, available: nat) returns (data: seq<byte>)
      requires Valid() && available <= |Contents()|
      modifies this`tail, this`read
      ensures Valid() && |data| == Min(max, available)
      ensures old(Contents()) == data + Contents()
    {
      hide Slot;
      ghost var was := Contents();
      var count := Min(available, max);
      data := [];
      if count > 0 {
        var next := tail;
        var first := Min(length - next, count);
        data := buffer[next..next + first];
        if count > first {
          data := data + buffer[..count - first];
        }
        forall i | 0 <= i < count ensures data[i] == was[i] {
          SlotMoved(read, i, length);
          assert was[i] == buffer[..][Slot(read + i, length)];
        }
        next := next + count;
        if next >= length {
          next := next - length;
        }
        SlotMoved(read, count, length);
        tail, read := next, read + count;
        ghost var now := Contents();
        forall k | 0 <= k < |now| ensures now[k] == was[count + k] {
          assert now[k] == buffer[..][Slot(read + k, length)];
        }
      }
    }

    /** prvWriteMessageToBuffer: as much of a stream as fits, or all of a message or nothing. */
    method WriteMessage(data: seq<byte>, isMessage: bool) returns (n: nat)
      requires Valid() && Sendable(data)
      modifies this, buffer
      ensures Valid()
      ensures !isMessage ==>
        n == Min(|data|, length - 1 - |old(Contents())|) && Contents() == old(Contents()) + data[..n]
      ensures isMessage ==>
        var fits := |old(Contents())| + HEADER + |data| <= length - 1;
        && n == (if fits then |data| else 0)
        && Contents() == if fits then old(Contents()) + Encode(|data|) + data else old(Contents())
    {
      var space := SpacesAvailable();
      n := 0;
      if space == 0 {
        assert !isMessage ==> Contents() + data[..0] == Contents();
      } else if !isMessage {
        n := Min(|data|, space);
        WriteBytes(data[..n]);
      } else if space >= HEADER + |data| {
        WriteBytes(Encode(|data|));
        WriteBytes(data);
        n := |data|;
      }
    }

    /** prvReadMessageFromBuffer for a message: one that does not fit the destination is put back. */
    method ReadMessage(max: nat) returns (data: seq<byte>)
      requires Valid() && |Contents()| > HEADER
      modifies this`tail, this`read
      ensures Valid()
      ensures var was := old(Contents());
        var n := Decode(was[..HEADER]);
        if n > max then data == [] && Contents() == was
        else |data| == Min(n, |was| - HEADER) && was == was[..HEADER] + data + Contents()
    {
      var available := BytesInBuffer();
      ghost var was := Contents();
      var originalTail := tail;
      ghost var originalRead := read;
      var header := ReadBytes(HEADER, available);
      assert header == was[..HEADER];
      var n := Decode(header);
      if n > max {
        tail, read := originalTail, originalRead;
        n := 0;
      }
      data := ReadBytes(n, if n == 0 then 0 else available - HEADER);
    }
  }

  /** A byte that is unread is not where the next bytes are written. */
  lemma StaysPut(k: nat, written: nat, n: nat, length: nat)
    requires 0 < length && k < written && written + n < k + length
    ensures var at := Slot(written, length);
      && !(at <= Slot(k, length) < at + Min(length - at, n))
      && !(Slot(k, length) < n - Min(length - at, n))
  {
    hide Slot;
    var at, p := Slot(written, length), Slot(k, length);
    if at <= p < at + Min(length - at, n) {
      SlotMoved(written, p - at, length);
      SlotsDiffer(k, written + (p - at), length);
    }
    if p < n - Min(length - at, n) {
      SlotMoved(written, length - at + p, length);
      SlotsDiffer(k, written + (length - at + p), length);
    }
  }

  /** A message written to an empty message buffer is the message read from it. */
  method RoundTrip(b: Buffer, message: seq<byte>) returns (data: seq<byte>)
    requires b.Valid() && b.Contents() == [] && Sendable(message) && HEADER + |message| < b.length
    modifies b, b.buffer
    ensures b.Valid() && b.Contents() == [] && data == message
  {
    var n := b.WriteMessage(message, true);
    DecodeEncode(|message|);
    assert b.Contents()[..HEADER] == Encode(|message|);
    data := b.ReadMessage(|message|);
  }
}
