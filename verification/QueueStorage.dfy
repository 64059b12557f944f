/**
 The storage of queue.c: a ring of uxLength items of uxItemSize bytes, addressed by two byte pointers.
 It behaves as a bounded double-ended queue, for every item size including the zero of semaphores.
 */
module QueueStorage {
  import opened Arith
  import opened Octets

  type Item = seq<byte>

  datatype Position = Back | Front | Overwrite

  // ---- Slots ----

  lemma SlotBounds(p: nat, length: nat, z: nat)
    requires p < length
    ensures 0 <= p * z <= p * z + z <= length * z
    ensures p + 1 < length ==> (p + 1) * z == p * z + z && (z > 0 ==> p * z + z < length * z)
    ensures p + 1 == length ==> p * z + z == length * z
    ensures p > 0 ==> (p - 1) * z == p * z - z
  {
    Distribute(p, 1, z);
    Distribute(length - p - 1, p + 1, z);
    MulNonNegative(p, z);
    MulNonNegative(length - p - 1, z);
    if p + 1 < length { MulGrows(length - p - 2, z); }
  }

  /** Item number p of the storage area. */
  function Slot(storage: seq<byte>, p: nat, length: nat, z: nat): (item: Item)
    requires p < length && |storage| == length * z
    ensures |item| == z
  {
    SlotBounds(p, length, z);
    storage[p * z..p * z + z]
  }

  function Spliced(storage: seq<byte>, at: nat, item: Item): (r: seq<byte>)
    requires at + |item| <= |storage|
    ensures |r| == |storage|
  {
    storage[..at] + item + storage[at + |item|..]
  }

  lemma SplicedSlice(storage: seq<byte>, at: nat, item: Item, i: nat)
    requires at + |item| <= |storage| && i + |item| <= |storage|
    ensures i == at ==> Spliced(storage, at, item)[i..i + |item|] == item
    ensures i + |item| <= at || at + |item| <= i ==>
              Spliced(storage, at, item)[i..i + |item|] == storage[i..i + |item|]
  {
  }

  lemma Apart(p: nat, q: nat, z: nat)
    requires p < q
    ensures 0 <= p * z && p * z + z <= q * z
  {
    SlotBounds(p, q, z);
  }

  /** Writing one item leaves the other slots alone. */
  lemma SplicedSlots(storage: seq<byte>, p: nat, q: nat, length: nat, item: Item)
    requires p < length && q < length && |storage| == length * |item|
    ensures 0 <= p * |item| && p * |item| + |item| <= |storage|
    ensures Slot(Spliced(storage, p * |item|, item), q, length, |item|) ==
            if q == p then item else Slot(storage, q, length, |item|)
  {
    hide Spliced;
    var z := |item|;
    SlotBounds(p, length, z);
    SlotBounds(q, length, z);
    if q < p {
      Apart(q, p, z);
    } else if p < q {
      Apart(p, q, z);
    }
    SplicedSlice(storage, p * z, item, q * z);
  }

  /** The slot k places after the one that follows the read position. */
  function Index(read: nat, k: nat, length: nat): (p: nat)
    requires length > 0
    ensures p < length
  {
    (read + 1 + k) % length
  }

  function Before(p: nat, length: nat): (q: nat)
    requires p < length
    ensures q < length
  {
    if p == 0 then length - 1 else p - 1
  }

  function After(p: nat, length: nat): (q: nat)
    requires p < length
    ensures q < length
  {
    if p + 1 == length then 0 else p + 1
  }

  /** Moving a byte pointer on by one item, or back, moves the slot it denotes. */
  lemma OffsetAfter(p: nat, length: nat, z: nat)
    requires p < length && z > 0
    ensures After(p, length) * z == if p * z + z >= length * z then 0 else p * z + z
    ensures 0 <= After(p, length) * z <= After(p, length) * z + z <= length * z
    ensures p * z >= 0
  {
    SlotBounds(p, length, z);
    SlotBounds(After(p, length), length, z);
  }

  lemma OffsetBefore(p: nat, length: nat, z: nat)
    requires p < length && z > 0
    ensures Before(p, length) * z == if p * z < z then length * z - z else p * z - z
    ensures 0 <= p * z <= p * z + z <= length * z
  {
    SlotBounds(p, length, z);
    SlotBounds(length - 1, length, z);
    if p > 0 {
      MulGrows(p - 1, z);
    }
  }

  lemma IndexDistinct(read: nat, j: nat, k: nat, length: nat)
    requires j < k < j + length
    ensures Index(read, j, length) != Index(read, k, length)
  {
    ModDistinct(read + 1 + j, read + 1 + k, length);
  }

  lemma IndexBefore(read: nat, k: nat, length: nat)
    requires read < length
    ensures Index(Before(read, length), k + 1, length) == Index(read, k, length)
    ensures Index(Before(read, length), 0, length) == read
  {
    if read == 0 {
      AddMultiple(k + 1, 1, length);
      AddMultiple(0, 1, length);
    } else {
      DivModUnique(read, 0, read, length);
    }
  }

  lemma IndexAfter(read: nat, k: nat, length: nat)
    requires read < length
    ensures Index(After(read, length), k, length) == Index(read, k + 1, length)
    ensures Index(read, 0, length) == After(read, length)
  {
    if read + 1 == length {
      AddMultiple(k + 1, 1, length);
      AddMultiple(0, 1, length);
    } else {
      DivModUnique(read + 1, 0, read + 1, length);
    }
  }

  lemma AfterIndex(read: nat, k: nat, length: nat)
    requires length > 0
    ensures After(Index(read, k, length), length) == Index(read, k + 1, length)
  {
    if length == 1 {
      ModOne(read + 1 + k);
      ModOne(read + 2 + k);
    } else {
      AddWithin(read + 1 + k, 1, length);
    }
  }

  lemma ModOne(x: nat)
    ensures x % 1 == 0
  {
  }

  /** The queued items, oldest first: they start one slot after the read position. */
  function Queued(storage: seq<byte>, read: nat, count: nat, length: nat, z: nat): (items: seq<Item>)
    requires length > 0 && |storage| == length * z
    ensures |items| == count
  {
    seq(count, k requires 0 <= k < count => Slot(storage, Index(read, k, length), length, z))
  }

  // ---- What the four index updates do to the queued items ----

  lemma SentToBack(storage: seq<byte>, read: nat, count: nat, length: nat, item: Item)
    requires count < length && read < length && |storage| == length * |item|
    ensures var write := Index(read, count, length);
      && write * |item| + |item| <= |storage|
      && Queued(Spliced(storage, write * |item|, item), read, count + 1, length, |item|) ==
         Queued(storage, read, count, length, |item|) + [item]
  {
    hide Index, Slot, Spliced;
    var write := Index(read, count, length);
    SplicedSlots(storage, write, write, length, item);
    forall k | 0 <= k < count
      ensures Slot(Spliced(storage, write * |item|, item), Index(read, k, length), length, |item|) ==
              Slot(storage, Index(read, k, length), length, |item|)
    {
      IndexDistinct(read, k, count, length);
      SplicedSlots(storage, write, Index(read, k, length), length, item);
    }
  }

  lemma SentToFront(storage: seq<byte>, read: nat, count: nat, length: nat, item: Item)
    requires count < length && read < length && |storage| == length * |item|
    ensures read * |item| + |item| <= |storage|
    ensures Queued(Spliced(storage, read * |item|, item), Before(read, length), count + 1, length, |item|) ==
            [item] + Queued(storage, read, count, length, |item|)
    ensures Index(Before(read, length), count + 1, length) == Index(read, count, length)
  {
    hide Index, Slot, Spliced, Before;
    SplicedSlots(storage, read, read, length, item);
    IndexBefore(read, count, length);
    var r := Before(read, length);
    forall k | 0 <= k < count
      ensures Index(r, k + 1, length) == Index(read, k, length)
      ensures Slot(Spliced(storage, read * |item|, item), Index(read, k, length), length, |item|) ==
              Slot(storage, Index(read, k, length), length, |item|)
    {
      IndexBefore(read, k, length);
      IndexDistinct(r, 0, k + 1, length);
      SplicedSlots(storage, read, Index(read, k, length), length, item);
    }
    var was, now := Queued(storage, read, count, length, |item|),
                    Queued(Spliced(storage, read * |item|, item), r, count + 1, length, |item|);
    forall k | 0 <= k < count ensures now[k + 1] == was[k] {
    }
  }

  lemma Received(storage: seq<byte>, read: nat, count: nat, length: nat, z: nat)
    requires 0 < count && read < length && |storage| == length * z
    ensures Queued(storage, read, count, length, z)[0] == Slot(storage, After(read, length), length, z)
    ensures Queued(storage, After(read, length), count - 1, length, z) == Queued(storage, read, count, length, z)[1..]
    ensures Index(After(read, length), count - 1, length) == Index(read, count, length)
  {
    hide Index, Slot, After;
    IndexAfter(read, count - 1, length);
    var was, now := Queued(storage, read, count, length, z), Queued(storage, After(read, length), count - 1, length, z);
    forall k | 0 <= k < count - 1 ensures now[k] == was[k + 1] {
      IndexAfter(read, k, length);
    }
  }

  /**
   Overwriting stores in front and leaves a non-zero count as it is.  The indices then still agree
   exactly when there was nothing to overwrite or the queue has length one, the only length allowed.
   */
  lemma OverwriteAgreesIff(read: nat, count: nat, length: nat)
    requires read < length && count <= length
    ensures Index(Before(read, length), if count > 0 then count else 1, length) == Index(read, count, length)
            <==> count == 0 || length == 1
  {
    if count == 0 {
      IndexBefore(read, 0, length);
    } else if length == 1 {
      ModOne(Before(read, length) + 1 + count);
      ModOne(read + 1 + count);
    } else {
      IndexBefore(read, count - 1, length);
      IndexDistinct(read, count - 1, count, length);
    }
  }

  // ---- The queue ----

  class Queue {
    const length: nat
    const itemSize: nat
    const storage: array<byte>
    /** pcWriteTo and pcReadFrom, as distances from pcHead */
    var writeTo: nat
    var readFrom: nat
    var messagesWaiting: nat
    ghost var write: nat
    ghost var read: nat

    ghost predicate Valid()
      reads this
    {
      && length > 0 && storage.Length == length * itemSize
      && write < length && read < length && writeTo == write * itemSize && readFrom == read * itemSize
      && messagesWaiting <= length && write == Index(read, messagesWaiting, length)
    }

    ghost function Contents(): (items: seq<Item>)
      reads this, storage
      requires Valid()
      ensures |items| == messagesWaiting
    {
      Queued(storage[..], read, messagesWaiting, length, itemSize)
    }

    constructor (length: nat, itemSize: nat)
      requires length > 0
      ensures Valid() && Contents() == [] && fresh(storage)
      ensures this.length == length && this.itemSize == itemSize
    {
      this.length, this.itemSize := length, itemSize;
      SlotBounds(length - 1, length, itemSize);
      storage := new byte[length * itemSize];
      writeTo, messagesWaiting, write := 0, 0, 0;
      readFrom, read := (length - 1) * itemSize, length - 1;
      AddMultiple(0, 1, length);
    }

    /** xQueueGenericReset, as far as the storage is concerned. */
    method Reset()
      requires Valid()
      modifies this
      ensures Valid() && Contents() == []
    {
      SlotBounds(length - 1, length, itemSize);
      writeTo, messagesWaiting, write := 0, 0, 0;
      readFrom, read := (length - 1) * itemSize, length - 1;
      AddMultiple(0, 1, length);
    }

    /** memcpy into the storage area */
    method CopyIn(at: nat, item: Item)
      requires at + |item| <= storage.Length
      modifies storage
      ensures storage[..] == Spliced(old(storage[..]), at, item)
    {
      var i := 0;
      while i < |item|
        invariant 0 <= i <= |item|
        invariant forall j :: 0 <= j < storage.Length ==>
                    storage[j] == if at <= j < at + i then item[j - at] else old(storage[j])
      {
        storage[at + i] := item[i];
        i := i + 1;
      }
    }

    /** Copies an item to the write position and advances it. */
    method StoreAtWrite(item: Item)
      requires Valid() && |item| == itemSize
      modifies this`writeTo, this`write, storage
      ensures write == After(old(write), length) && writeTo == write * itemSize
      ensures old(write) * itemSize + itemSize <= storage.Length
      ensures storage[..] == Spliced(old(storage[..]), old(write) * itemSize, item)
    {
      hide Index, After;
      SlotBounds(write, length, itemSize);
      if itemSize > 0 {
        OffsetAfter(write, length, itemSize);
        CopyIn(writeTo, item);
        writeTo := writeTo + itemSize;
        if writeTo >= length * itemSize {
          writeTo := 0;
        }
      }
      write := After(write, length);
    }

    /** Copies an item to the read position and moves that back by one item. */
    method StoreAtRead(item: Item)
      requires Valid() && |item| == itemSize
      modifies this`readFrom, this`read, storage
      ensures read == Before(old(read), length) && readFrom == read * itemSize
      ensures old(read) * itemSize + itemSize <= storage.Length
      ensures storage[..] == Spliced(old(storage[..]), old(read) * itemSize, item)
    {
      hide Index, Before;
      SlotBounds(read, length, itemSize);
      if itemSize > 0 {
        OffsetBefore(read, length, itemSize);
        CopyIn(readFrom, item);
        if readFrom < itemSize {
          readFrom := length * itemSize - itemSize;
        } else {
          readFrom := readFrom - itemSize;
        }
      }
      read := Before(read, length);
    }

    /** Overwriting counts one item too many when items have no bytes: that branch only increments. */
    predicate Overcounts(position: Position)
      reads this
    {
      position == Overwrite && itemSize == 0 && messagesWaiting > 0
    }

    /** prvCopyDataToQueue for a queue or counting semaphore. */
    method CopyDataToQueue(item: Item, position: Position)
      requires Valid() && |item| == itemSize
      requires position != Overwrite ==> messagesWaiting < length
      requires position == Overwrite ==> length == 1
      modifies this, storage
      ensures Valid() <==> !old(Overcounts(position))
      ensures old(Overcounts(position)) ==> messagesWaiting == old(messagesWaiting) + 1
      ensures Valid() ==> Contents() == match position
                                        case Back => old(Contents()) + [item]
                                        case Front => [item] + old(Contents())
                                        case Overwrite => [item]
    {
      hide Index, Spliced, Queued, After, Before;
      var count := messagesWaiting;
      if position == Back {
        SentToBack(storage[..], read, count, length, item);
        AfterIndex(read, count, length);
        StoreAtWrite(item);
      } else {
        if position == Front {
          SentToFront(storage[..], read, count, length, item);
        } else {
          SentToFront(storage[..], read, 0, length, item);
          OverwriteAgreesIff(read, count, length);
        }
        StoreAtRead(item);
        if itemSize > 0 && position == Overwrite && count > 0 {
          count := count - 1;
        }
      }
      messagesWaiting := count + 1;
    }

    /** prvCopyDataFromQueue: advances the read position, then copies from it. */
    method CopyDataFromQueue() returns (item: Item)
      requires Valid() && messagesWaiting > 0
      modifies this`readFrom, this`read
      ensures read == After(old(read), length) && readFrom == read * itemSize
      ensures item == old(Contents())[0]
    {
      hide Index, After;
      Received(storage[..], read, messagesWaiting, length, itemSize);
      if itemSize != 0 {
        OffsetAfter(read, length, itemSize);
        readFrom := readFrom + itemSize;
        if readFrom >= length * itemSize {
          readFrom := 0;
        }
        item := storage[readFrom..readFrom + itemSize];
      } else {
        item := [];
      }
      read := After(read, length);
    }

    /** The non-blocking part of xQueueGenericSend. */
    method Send(item: Item, position: Position) returns (ok: bool)
      requires Valid() && |item| == itemSize
      requires position == Overwrite ==> length == 1
      modifies this, storage
      ensures ok <==> position == Overwrite || old(messagesWaiting) < length
      ensures Valid() <==> !old(Overcounts(position))
      ensures old(Overcounts(position)) ==> messagesWaiting == old(messagesWaiting) + 1
      ensures Valid() ==> Contents() == if !ok then old(Contents()) else
                                          match position
                                          case Back => old(Contents()) + [item]
                                          case Front => [item] + old(Contents())
                                          case Overwrite => [item]
    {
      ok := messagesWaiting < length || position == Overwrite;
      if ok {
        CopyDataToQueue(item, position);
      }
    }

    /** The non-blocking part of xQueueReceive. */
    method Receive() returns (ok: bool, item: Item)
      requires Valid()
      modifies this
      ensures Valid() && (ok <==> old(messagesWaiting) > 0)
      ensures ok ==> old(Contents()) == [item] + Contents()
      ensures !ok ==> Contents() == old(Contents())
    {
      ok, item := messagesWaiting > 0, [];
      if ok {
        Received(storage[..], read, messagesWaiting, length, itemSize);
        item := CopyDataFromQueue();
        messagesWaiting := messagesWaiting - 1;
      }
    }

    /** The non-blocking part of xQueuePeek: the read position is put back afterwards. */
    method Peek() returns (ok: bool, item: Item)
      requires Valid()
      modifies this
      ensures Valid() && (ok <==> messagesWaiting > 0)
      ensures Contents() == old(Contents()) && (ok ==> item == Contents()[0])
      ensures readFrom == old(readFrom) && writeTo == old(writeTo) && messagesWaiting == old(messagesWaiting)
    {
      ok, item := messagesWaiting > 0, [];
      if ok {
        var original := readFrom;
        ghost var originalRead := read;
        item := CopyDataFromQueue();
        readFrom, read := original, originalRead;
      }
    }
  }
}
