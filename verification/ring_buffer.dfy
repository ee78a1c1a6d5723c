/** The per-source sample queue (Sources/Core/Capture/RingBuffer.swift): a
    fixed-capacity circular buffer of samples with a write cursor and a count
    of unread frames. A write that does not fit is truncated (the newest
    samples are dropped, unread ones are never overwritten); a read that asks
    for more than is available is padded with silence.

    The buffer is a value: every operation takes a state and returns the next
    one. The lock the source takes around each operation is not modelled;
    each operation is atomic. */
module RingBuffers {
  import opened Ints

  datatype RingBuffer = RingBuffer(
    buffer: seq<real>,
    capacity: int,
    writeIndex: int,
    availableFrames: int)
  {
    /** Invariant every operation preserves. The capacity must be positive
        because every index is taken modulo it. */
    predicate Valid() {
      && capacity > 0
      && |buffer| == capacity
      && 0 <= writeIndex < capacity
      && 0 <= availableFrames <= capacity
    }

    /** Slot of the oldest unread frame, computed as the source's `read` does. */
    function ReadIndex(): (r: int)
      requires Valid()
      ensures 0 <= r < capacity
    {
      (writeIndex - availableFrames + capacity) % capacity
    }

    /** Slot that holds the `k`-th oldest unread frame. */
    function Slot(k: int): (r: int)
      requires Valid() && 0 <= k
      ensures 0 <= r < capacity
    {
      (ReadIndex() + k) % capacity
    }

    /** The buffer viewed as a FIFO queue: unread frames, oldest first. */
    function Contents(): (q: seq<real>)
      requires Valid()
      ensures |q| == availableFrames
    {
      seq(availableFrames, k requires 0 <= k < availableFrames => buffer[Slot(k)])
    }

    /** Slot that the `j`-th frame of the next write goes to. */
    function FreeSlot(j: int): (r: int)
      requires Valid() && 0 <= j
      ensures 0 <= r < capacity
    {
      Slot(availableFrames + j)
    }
  }

  /** `init(capacity:)`: a zero-filled store, both counters at zero. */
  function Init(capacity: int): (rb: RingBuffer)
    requires capacity > 0
    ensures rb.Valid()
    ensures rb.capacity == capacity && rb.writeIndex == 0
    ensures rb.Contents() == []
  {
    RingBuffer(seq(capacity, _ => 0.0), capacity, 0, 0)
  }

  /** The write cursor, `j` slots on, is the `j`-th free slot. */
  lemma WriteSlot(rb: RingBuffer, j: int)
    requires rb.Valid() && 0 <= j
    ensures (rb.writeIndex + j) % rb.capacity == rb.FreeSlot(j)
  {
    var c := rb.capacity;
    ModOfSum(rb.writeIndex - rb.availableFrames + c, rb.availableFrames + j, c);
    ModAddMultiple(rb.writeIndex + j, 1, c);
  }

  /** Distinct logical positions below the capacity occupy distinct slots. */
  lemma SlotsDistinct(rb: RingBuffer, p: int, q: int)
    requires rb.Valid() && 0 <= p < rb.capacity && 0 <= q < rb.capacity && p != q
    ensures rb.Slot(p) != rb.Slot(q)
  {
    if p < q {
      ModDistinct(rb.ReadIndex(), p, q, rb.capacity);
    } else {
      ModDistinct(rb.ReadIndex(), q, p, rb.capacity);
    }
  }

  /** The `i`-th free slot holds neither an unread frame nor an earlier frame
      of the same write, as long as the write fits. */
  lemma FreeSlotIsFresh(rb: RingBuffer, i: int)
    requires rb.Valid() && 0 <= i < rb.capacity - rb.availableFrames
    ensures forall k :: 0 <= k < rb.availableFrames ==> rb.Slot(k) != rb.FreeSlot(i)
    ensures forall j :: 0 <= j < i ==> rb.FreeSlot(j) != rb.FreeSlot(i)
  {
    forall k | 0 <= k < rb.availableFrames
      ensures rb.Slot(k) != rb.FreeSlot(i)
    {
      SlotsDistinct(rb, k, rb.availableFrames + i);
    }
    forall j | 0 <= j < i
      ensures rb.FreeSlot(j) != rb.FreeSlot(i)
    {
      SlotsDistinct(rb, rb.availableFrames + j, rb.availableFrames + i);
    }
  }

  /** The `k`-th unread frame sits `k` slots past the cursor minus the
      unread count, wrapped once. */
  lemma SlotFromCursor(rb: RingBuffer, k: int)
    requires rb.Valid() && 0 <= k
    ensures rb.Slot(k) == (rb.writeIndex - rb.availableFrames + k) % rb.capacity
  {
    var c, x := rb.capacity, rb.writeIndex - rb.availableFrames;
    ModOfSum(x + c, k, c);
    ModAddMultiple(x + k, 1, c);
  }

  /** Advancing the cursor (with wrap-around) and the unread count by the
      same amount keeps their difference modulo the capacity. */
  lemma CursorLessCount(w: int, a: int, n: int, k: int, c: int)
    requires c > 0
    ensures ((w + n) % c - (a + n) + k) % c == (w - a + k) % c
  {
    ModOfSum(w + n, k - a - n, c);
    assert (w + n) % c + (k - a - n) == (w + n) % c - (a + n) + k;
    assert w + n + (k - a - n) == w - a + k;
  }

  /** After a write of `n` frames the read position has not moved, so the
      queue is the old queue followed by the stored frames. */
  lemma WrittenContents(rb: RingBuffer, buf: seq<real>, data: seq<real>, n: int)
    requires rb.Valid() && 0 <= n <= rb.capacity - rb.availableFrames && n <= |data|
    requires |buf| == rb.capacity
    requires forall k :: 0 <= k < rb.availableFrames ==> buf[rb.Slot(k)] == rb.buffer[rb.Slot(k)]
    requires forall j :: 0 <= j < n ==> buf[rb.FreeSlot(j)] == data[j]
    ensures RingBuffer(buf, rb.capacity, (rb.writeIndex + n) % rb.capacity, rb.availableFrames + n).Valid()
    ensures RingBuffer(buf, rb.capacity, (rb.writeIndex + n) % rb.capacity, rb.availableFrames + n).Contents()
         == rb.Contents() + data[..n]
  {
    var rb' := RingBuffer(buf, rb.capacity, (rb.writeIndex + n) % rb.capacity, rb.availableFrames + n);
    var q := rb.Contents() + data[..n];
    forall k | 0 <= k < rb'.availableFrames
      ensures rb'.Contents()[k] == q[k]
    {
      WrittenAt(rb, buf, data, n, k);
    }
  }

  /** A write moves the cursor and the unread count together, so every
      logical position keeps its slot. */
  lemma WrittenSlot(rb: RingBuffer, buf: seq<real>, n: int, k: int)
    requires rb.Valid() && 0 <= n <= rb.capacity - rb.availableFrames && 0 <= k
    requires |buf| == rb.capacity
    ensures RingBuffer(buf, rb.capacity, (rb.writeIndex + n) % rb.capacity, rb.availableFrames + n).Valid()
    ensures RingBuffer(buf, rb.capacity, (rb.writeIndex + n) % rb.capacity, rb.availableFrames + n).Slot(k)
         == rb.Slot(k)
  {
    var c, w, a := rb.capacity, rb.writeIndex, rb.availableFrames;
    var rb' := RingBuffer(buf, c, (w + n) % c, a + n);
    SlotFromCursor(rb', k);
    SlotFromCursor(rb, k);
    CursorLessCount(w, a, n, k, c);
  }

  /** One position of the queue after a write: an old unread frame or a
      newly written one. */
  lemma WrittenAt(rb: RingBuffer, buf: seq<real>, data: seq<real>, n: int, k: int)
    requires rb.Valid() && 0 <= n <= rb.capacity - rb.availableFrames && n <= |data|
    requires |buf| == rb.capacity
    requires forall k :: 0 <= k < rb.availableFrames ==> buf[rb.Slot(k)] == rb.buffer[rb.Slot(k)]
    requires forall j :: 0 <= j < n ==> buf[rb.FreeSlot(j)] == data[j]
    requires 0 <= k < rb.availableFrames + n
    ensures RingBuffer(buf, rb.capacity, (rb.writeIndex + n) % rb.capacity, rb.availableFrames + n).Valid()
    ensures RingBuffer(buf, rb.capacity, (rb.writeIndex + n) % rb.capacity, rb.availableFrames + n).Contents()[k]
         == (rb.Contents() + data[..n])[k]
  {
    var c := rb.capacity;
    var rb' := RingBuffer(buf, c, (rb.writeIndex + n) % c, rb.availableFrames + n);
    WrittenSlot(rb, buf, n, k);
    var slot := rb.Slot(k);
    assert rb'.Contents()[k] == buf[slot];
    if k < rb.availableFrames {
      assert buf[slot] == rb.Contents()[k];
    } else {
      assert slot == rb.FreeSlot(k - rb.availableFrames);
      assert buf[slot] == data[..n][k - rb.availableFrames];
    }
  }

  /** `write(_:frameCount:)`: copies `min(frameCount, capacity - availableFrames)`
      frames of `data` behind the unread ones and drops the rest. */
  method Write(rb: RingBuffer, data: seq<real>, frameCount: int) returns (rb': RingBuffer)
    requires rb.Valid()
    requires 0 <= frameCount <= |data|
    ensures rb'.Valid() && rb'.capacity == rb.capacity
    ensures rb'.availableFrames
         == rb.availableFrames + Min(frameCount, rb.capacity - rb.availableFrames)
    ensures rb'.Contents()
         == rb.Contents() + data[..Min(frameCount, rb.capacity - rb.availableFrames)]
    ensures frameCount == 0 || rb.availableFrames == rb.capacity ==> rb' == rb
  {
    var c := rb.capacity;
    var n := Min(frameCount, c - rb.availableFrames);
    var buf := rb.buffer;
    var i := 0;
    while i < n
      invariant 0 <= i <= n
      invariant |buf| == c
      invariant forall k :: 0 <= k < rb.availableFrames ==> buf[rb.Slot(k)] == rb.buffer[rb.Slot(k)]
      invariant forall j :: 0 <= j < i ==> buf[rb.FreeSlot(j)] == data[j]
      invariant i == 0 ==> buf == rb.buffer
    {
      WriteSlot(rb, i);
      FreeSlotIsFresh(rb, i);
      buf := buf[(rb.writeIndex + i) % c := data[i]];
      i := i + 1;
    }
    WrittenContents(rb, buf, data, n);
    ModSmall(rb.writeIndex, c);
    rb' := RingBuffer(buf, c, (rb.writeIndex + n) % c, Min(rb.availableFrames + n, c));
  }

  /** `read(into:frameCount:)`: returns the number of real frames delivered,
      `min(frameCount, availableFrames)`, together with the `frameCount`
      output slots: the oldest unread frames first, silence after them. */
  method Read(rb: RingBuffer, frameCount: int) returns (rb': RingBuffer, output: seq<real>, framesRead: int)
    requires rb.Valid()
    requires 0 <= frameCount
    ensures framesRead == Min(frameCount, rb.availableFrames)
    ensures |output| == frameCount
    ensures output[..framesRead] == rb.Contents()[..framesRead]
    ensures forall i :: framesRead <= i < frameCount ==> output[i] == 0.0
    ensures rb'.Valid() && rb'.capacity == rb.capacity
    ensures rb'.availableFrames == rb.availableFrames - framesRead
    ensures rb'.Contents() == rb.Contents()[framesRead..]
    ensures rb'.writeIndex == rb.writeIndex
  {
    framesRead := Min(frameCount, rb.availableFrames);
    var frames := CopyUnread(rb, framesRead);
    output := PadWithSilence(frames, frameCount);
    rb' := rb.(availableFrames := rb.availableFrames - framesRead);
    ConsumedContents(rb, framesRead);
  }

  /** The copy loop of `read`: the `n` oldest unread frames, from the read
      index on, wrapping at the capacity. */
  method CopyUnread(rb: RingBuffer, n: int) returns (output: seq<real>)
    requires rb.Valid() && 0 <= n <= rb.availableFrames
    ensures output == rb.Contents()[..n]
  {
    var c := rb.capacity;
    var readIndex := (rb.writeIndex - rb.availableFrames + c) % c;
    assert readIndex == rb.ReadIndex();
    output := [];
    var i := 0;
    while i < n
      invariant 0 <= i <= n
      invariant |output| == i
      invariant forall j :: 0 <= j < i ==> output[j] == rb.buffer[rb.Slot(j)]
    {
      output := output + [rb.buffer[(readIndex + i) % c]];
      i := i + 1;
    }
    assert forall j :: 0 <= j < n ==> output[j] == rb.Contents()[j];
  }

  /** The padding loop of `read`: silence from the copied frames up to
      `frameCount` output slots. */
  method PadWithSilence(frames: seq<real>, frameCount: int) returns (output: seq<real>)
    requires |frames| <= frameCount
    ensures |output| == frameCount
    ensures output[..|frames|] == frames
    ensures forall j :: |frames| <= j < frameCount ==> output[j] == 0.0
  {
    output := frames;
    var i := |frames|;
    while i < frameCount
      invariant |frames| <= i <= frameCount
      invariant |output| == i
      invariant output[..|frames|] == frames
      invariant forall j :: |frames| <= j < i ==> output[j] == 0.0
    {
      output := output + [0.0];
      i := i + 1;
    }
  }

  /** Consuming `n` frames leaves the write cursor in place, so the queue
      loses exactly its `n` oldest frames. */
  lemma ConsumedContents(rb: RingBuffer, n: int)
    requires rb.Valid() && 0 <= n <= rb.availableFrames
    ensures rb.(availableFrames := rb.availableFrames - n).Valid()
    ensures rb.(availableFrames := rb.availableFrames - n).Contents() == rb.Contents()[n..]
  {
    var rb' := rb.(availableFrames := rb.availableFrames - n);
    forall k | 0 <= k < rb'.availableFrames
      ensures rb'.Contents()[k] == rb.Contents()[n + k]
    {
      SlotFromCursor(rb', k);
      SlotFromCursor(rb, n + k);
      assert rb'.writeIndex - rb'.availableFrames + k == rb.writeIndex - rb.availableFrames + (n + k);
    }
  }

  /** `reset()`: forgets every unread frame and rewinds the cursor. The
      backing store keeps its stale samples, which are no longer reachable. */
  function Reset(rb: RingBuffer): (rb': RingBuffer)
    requires rb.Valid()
    ensures rb'.Valid() && rb'.capacity == rb.capacity
    ensures rb'.availableFrames == 0 && rb'.writeIndex == 0
    ensures rb'.Contents() == []
  {
    rb.(availableFrames := 0, writeIndex := 0)
  }

  /** After `reset`, a read delivers no real frame: only silence. */
  method ReadAfterReset(rb: RingBuffer, frameCount: int) returns (output: seq<real>, framesRead: int)
    requires rb.Valid() && 0 <= frameCount
    ensures framesRead == 0
    ensures output == seq(frameCount, _ => 0.0)
  {
    var cleared := Reset(rb);
    var _, out, n := Read(cleared, frameCount);
    output, framesRead := out, n;
  }

  /** On an empty buffer, writing `W <= capacity` frames and then reading `R`
      yields the first `min(R, W)` written frames followed by silence. */
  method WriteThenRead(capacity: int, data: seq<real>, w: int, r: int)
    returns (output: seq<real>, framesRead: int)
    requires capacity > 0
    requires 0 <= w <= capacity && w <= |data|
    requires 0 <= r
    ensures framesRead == Min(r, w)
    ensures output == data[..Min(r, w)] + seq(r - Min(r, w), _ => 0.0)
  {
    var rb := Init(capacity);
    rb := Write(rb, data, w);
    var _, out, n := Read(rb, r);
    output, framesRead := out, n;
    assert output[..n] == data[..n];
  }
}
