/**
 * The ten-slot circular buffer both STM32 telemetry variants keep: an array of
 * slots, a read index, a write index and a count. This module reads the slots
 * as the sequence of buffered items, oldest first, and proves how the index
 * moves of a put or a get change that sequence.
 */
module Ring {

  /** `TELEMETRY_MAX_PACKETS`: the number of slots. */
  const TELEMETRY_MAX_PACKETS: nat := 10

  /**
   * The index invariant of a ring of `length` slots: both indices name a
   * slot, the count fits, and the write slot is `count` slots after the read
   * slot.
   */
  ghost predicate RingIndices(length: nat, write: nat, read: nat, count: nat)
  {
    && length == TELEMETRY_MAX_PACKETS
    && write < TELEMETRY_MAX_PACKETS
    && read < TELEMETRY_MAX_PACKETS
    && count <= TELEMETRY_MAX_PACKETS
    && write == (read + count) % TELEMETRY_MAX_PACKETS
  }

  /**
   * A put keeps the index invariant: the write slot moves on, and so does the
   * read slot of a full ring, whose write slot is its read slot.
   */
  lemma PutIndices(write: nat, read: nat, count: nat)
    requires RingIndices(TELEMETRY_MAX_PACKETS, write, read, count)
    ensures count < TELEMETRY_MAX_PACKETS ==>
      RingIndices(TELEMETRY_MAX_PACKETS, (write + 1) % TELEMETRY_MAX_PACKETS, read, count + 1)
    ensures count == TELEMETRY_MAX_PACKETS ==>
      && write == read
      && RingIndices(TELEMETRY_MAX_PACKETS, (write + 1) % TELEMETRY_MAX_PACKETS,
                     (read + 1) % TELEMETRY_MAX_PACKETS, count)
  {
    var next := if write + 1 < TELEMETRY_MAX_PACKETS then write + 1 else 0;
    assert (write + 1) % TELEMETRY_MAX_PACKETS == next;
    if read + count < TELEMETRY_MAX_PACKETS {
      assert write == read + count;
    } else {
      assert write == read + count - TELEMETRY_MAX_PACKETS;
    }
  }

  /** The `count` items of a ring of ten slots starting at slot `read`, oldest first. */
  function RingView<T>(slots: seq<T>, read: nat, count: nat): (c: seq<T>)
    requires |slots| == TELEMETRY_MAX_PACKETS && read < TELEMETRY_MAX_PACKETS && count <= TELEMETRY_MAX_PACKETS
    ensures |c| == count
    ensures forall i :: 0 <= i < count ==> c[i] == slots[(read + i) % TELEMETRY_MAX_PACKETS]
  {
    seq(count, i requires 0 <= i < count => slots[(read + i) % TELEMETRY_MAX_PACKETS])
  }

  /** Writing the slot after the newest one appends to a ring that is not full. */
  lemma RingAppend<T>(slots: seq<T>, read: nat, count: nat, p: T)
    requires |slots| == TELEMETRY_MAX_PACKETS && read < TELEMETRY_MAX_PACKETS && count < TELEMETRY_MAX_PACKETS
    ensures RingView(slots[(read + count) % TELEMETRY_MAX_PACKETS := p], read, count + 1)
         == RingView(slots, read, count) + [p]
  {
    var w := (read + count) % TELEMETRY_MAX_PACKETS;
    var after := RingView(slots[w := p], read, count + 1);
    forall i | 0 <= i < count
      ensures after[i] == slots[(read + i) % TELEMETRY_MAX_PACKETS]
    {
      assert (read + i) % TELEMETRY_MAX_PACKETS != w;
    }
  }

  /** Overwriting the oldest slot of a full ring and moving the read slot on. */
  lemma RingOverwrite<T>(slots: seq<T>, read: nat, p: T)
    requires |slots| == TELEMETRY_MAX_PACKETS && read < TELEMETRY_MAX_PACKETS
    ensures RingView(slots[read := p], (read + 1) % TELEMETRY_MAX_PACKETS, TELEMETRY_MAX_PACKETS)
         == RingView(slots, read, TELEMETRY_MAX_PACKETS)[1..] + [p]
  {
    var next := (read + 1) % TELEMETRY_MAX_PACKETS;
    var after := RingView(slots[read := p], next, TELEMETRY_MAX_PACKETS);
    var before := RingView(slots, read, TELEMETRY_MAX_PACKETS);
    forall i | 0 <= i < TELEMETRY_MAX_PACKETS - 1
      ensures after[i] == before[i + 1]
    {
      assert (next + i) % TELEMETRY_MAX_PACKETS == (read + (i + 1)) % TELEMETRY_MAX_PACKETS;
      assert (next + i) % TELEMETRY_MAX_PACKETS != read;
    }
    assert (next + (TELEMETRY_MAX_PACKETS - 1)) % TELEMETRY_MAX_PACKETS == read;
  }

  /** Moving the read slot on drops the oldest item. */
  lemma RingAdvance<T>(slots: seq<T>, read: nat, count: nat)
    requires |slots| == TELEMETRY_MAX_PACKETS && read < TELEMETRY_MAX_PACKETS
    requires 0 < count <= TELEMETRY_MAX_PACKETS
    ensures RingView(slots, (read + 1) % TELEMETRY_MAX_PACKETS, count - 1)
         == RingView(slots, read, count)[1..]
  {
    var next := (read + 1) % TELEMETRY_MAX_PACKETS;
    var after, before := RingView(slots, next, count - 1), RingView(slots, read, count);
    forall i | 0 <= i < count - 1
      ensures after[i] == before[i + 1]
    {
      assert (next + i) % TELEMETRY_MAX_PACKETS == (read + (i + 1)) % TELEMETRY_MAX_PACKETS;
    }
  }

  /**
   * A put into a ring that overwrites when full: the item is written to the
   * write slot; a ring with room grows by it, and a full ring, whose read slot
   * moves on, loses its oldest item.
   */
  lemma RingOverwritingPut<T>(slots: seq<T>, write: nat, read: nat, count: nat, p: T)
    requires |slots| == TELEMETRY_MAX_PACKETS
    requires RingIndices(TELEMETRY_MAX_PACKETS, write, read, count)
    ensures count < TELEMETRY_MAX_PACKETS ==>
      RingView(slots[write := p], read, count + 1) == RingView(slots, read, count) + [p]
    ensures count == TELEMETRY_MAX_PACKETS ==>
      RingView(slots[write := p], (read + 1) % TELEMETRY_MAX_PACKETS, count)
        == RingView(slots, read, count)[1..] + [p]
  {
    if count < TELEMETRY_MAX_PACKETS {
      RingAppend(slots, read, count, p);
    } else {
      PutIndices(write, read, count);
      RingOverwrite(slots, read, p);
    }
  }
}
