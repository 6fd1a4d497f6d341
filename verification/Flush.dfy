/** The greedy framer `H2Exchange.flush`: how queued body bytes become DATA frames.

    Here a queued cell is the part of it that has not been framed yet; class `H2Exchange`
    keeps the source's `[data, offset, end_stream]` cells and refines this form.
 */
module Flush {
  import opened Basics
  import opened Folds
  import opened Http2

  datatype Chunk = Chunk(data: seq<Byte>, end: bool)

  type Queue = seq<Chunk>

  /** One stream's queue; `pending` is the sequence of its entries in insertion order. */
  datatype Entry = Entry(id: StreamId, queue: Queue)

  function ChunkTape(c: Chunk): Tape { Body(c.data) + EndMark(c.end) }
  function ChunkBytes(c: Chunk): nat { |c.data| }
  function ChunkEnds(c: Chunk): nat { if c.end then 1 else 0 }

  /** Upper bound on the frames a chunk can still produce. */
  function ChunkWork(c: Chunk): nat { |c.data| + 1 }

  function EndsOf(f: Frame): nat { if !f.WindowUpdate? && f.end then 1 else 0 }

  function QueueTape(q: Queue): Tape { FlatMap(ChunkTape, q) }
  function Work(q: Queue): nat { Sum(ChunkWork, q) }

  function NextFrame(id: StreamId, c: Chunk, size: nat): Frame
    requires size <= |c.data|
  {
    Data(id, c.data[..size], c.end && size == |c.data|)
  }

  function Advance(c: Chunk, size: nat): Queue
    requires size <= |c.data|
  {
    if size == |c.data| then [] else [c.(data := c.data[size..])]
  }

  function NextSize(c: Chunk, capacity: nat, limit: nat): (size: nat)
    ensures size <= |c.data|
  {
    Min(|c.data|, Min(capacity, limit))
  }

  predicate Blocked(c: Chunk, capacity: nat, limit: nat) {
    NextSize(c, capacity, limit) == 0 && c.data != []
  }

  lemma AdvanceWork(q: Queue, size: nat)
    requires q != [] && size <= |q[0].data| && (size == 0 ==> q[0].data == [])
    ensures Work(Advance(q[0], size) + q[1..]) < Work(q)
  {
    SumConcat(ChunkWork, Advance(q[0], size), q[1..]);
  }

  datatype CutResult = CutResult(frames: seq<Frame>, left: Queue)

  /** The frames one visit to a stream produces when its windows allow `capacity` bytes. */
  function Cut(id: StreamId, q: Queue, capacity: nat, limit: nat): (r: CutResult)
    ensures Bytes(r.frames) <= capacity
    decreases Work(q)
  {
    if q == [] then CutResult([], [])
    else if Blocked(q[0], capacity, limit) then CutResult([], q)
    else
      var size := NextSize(q[0], capacity, limit);
      AdvanceWork(q, size);
      var r := Cut(id, Advance(q[0], size) + q[1..], capacity - size, limit);
      SumConcat(BytesOn(CONNECTION), [NextFrame(id, q[0], size)], r.frames);
      CutResult([NextFrame(id, q[0], size)] + r.frames, r.left)
  }

  /** One step of `Cut` that is not blocked; every proof about `Cut` follows it. */
  lemma {:induction false} CutStep(id: StreamId, q: Queue, capacity: nat, limit: nat)
    returns (size: nat, rest: Queue, tail: CutResult)
    requires q != [] && !Blocked(q[0], capacity, limit)
    ensures size == NextSize(q[0], capacity, limit) && (size == 0 ==> q[0].data == [])
    ensures size <= capacity && size <= limit
    ensures rest == Advance(q[0], size) + q[1..] && Work(rest) < Work(q)
    ensures tail == Cut(id, rest, capacity - size, limit)
    ensures Cut(id, q, capacity, limit) == CutResult([NextFrame(id, q[0], size)] + tail.frames, tail.left)
  {
    size := NextSize(q[0], capacity, limit);
    AdvanceWork(q, size);
    rest := Advance(q[0], size) + q[1..];
    tail := Cut(id, rest, capacity - size, limit);
  }

  lemma {:induction false} CutStops(id: StreamId, q: Queue, capacity: nat, limit: nat)
    requires q == [] || Blocked(q[0], capacity, limit)
    ensures Cut(id, q, capacity, limit) == CutResult([], q)
  {
  }

  predicate DataOn(id: StreamId, limit: nat, f: Frame) {
    f.Data? && f.id == id && |f.payload| <= limit
  }

  lemma {:induction false} CutFrames(id: StreamId, q: Queue, capacity: nat, limit: nat, r: CutResult)
    requires r == Cut(id, q, capacity, limit)
    ensures forall f <- r.frames :: DataOn(id, limit, f)
    decreases Work(q)
  {
    if q != [] && !Blocked(q[0], capacity, limit) {
      var size, rest, tail := CutStep(id, q, capacity, limit);
      CutFrames(id, rest, capacity - size, limit, tail);
    }
  }

  /** Framing neither loses, reorders nor invents anything: bytes, empty frames and END_STREAM. */
  lemma {:induction false} CutKeepsTape(id: StreamId, q: Queue, capacity: nat, limit: nat, r: CutResult)
    requires r == Cut(id, q, capacity, limit)
    ensures TapeOf(id, r.frames) + QueueTape(r.left) == QueueTape(q)
    decreases Work(q)
  {
    hide Cut, NextSize, Blocked;
    if q != [] && !Blocked(q[0], capacity, limit) {
      var size, rest, tail := CutStep(id, q, capacity, limit);
      var f, chunk := NextFrame(id, q[0], size), Advance(q[0], size);
      CutKeepsTape(id, rest, capacity - size, limit, tail);
      FlatMapConcat(OnStream(id), [f], tail.frames);
      FlatMapConcat(ChunkTape, chunk, q[1..]);
      AdvanceTape(id, q[0], size);
      Regroup(FrameTape(f, id), TapeOf(id, tail.frames), QueueTape(tail.left), QueueTape(chunk), QueueTape(q[1..]));
    } else {
      CutStops(id, q, capacity, limit);
    }
  }

  lemma AdvanceTape(id: StreamId, c: Chunk, size: nat)
    requires size <= |c.data| && (size == 0 ==> c.data == [])
    ensures FrameTape(NextFrame(id, c, size), id) + QueueTape(Advance(c, size)) == ChunkTape(c)
  {
    if size < |c.data| {
      BodySplit(c.data, size);
    } else {
      assert c.data[..size] == c.data;
    }
  }

  lemma StepSums(id: StreamId, q: Queue, size: nat, frames: seq<Frame>)
    requires q != [] && size <= |q[0].data| && (size == 0 ==> q[0].data == [])
    ensures var f, rest := NextFrame(id, q[0], size), Advance(q[0], size) + q[1..];
            && Bytes([f] + frames) == size + Bytes(frames)
            && Sum(ChunkBytes, q) == size + Sum(ChunkBytes, rest)
            && Sum(EndsOf, [f] + frames) + Sum(ChunkEnds, rest) == Sum(EndsOf, frames) + Sum(ChunkEnds, q)
  {
    var f, chunk := NextFrame(id, q[0], size), Advance(q[0], size);
    SumConcat(BytesOn(CONNECTION), [f], frames);
    SumConcat(EndsOf, [f], frames);
    SumConcat(ChunkBytes, chunk, q[1..]);
    SumConcat(ChunkEnds, chunk, q[1..]);
  }

  /** Byte and END_STREAM totals are conserved, and the work bound shrinks by the frames made. */
  lemma {:induction false} CutConserves(id: StreamId, q: Queue, capacity: nat, limit: nat, r: CutResult)
    requires r == Cut(id, q, capacity, limit)
    ensures Bytes(r.frames) + Sum(ChunkBytes, r.left) == Sum(ChunkBytes, q)
    ensures Sum(EndsOf, r.frames) + Sum(ChunkEnds, r.left) == Sum(ChunkEnds, q)
    ensures |r.frames| + Work(r.left) <= Work(q)
    decreases Work(q)
  {
    hide Cut, NextSize, Blocked;
    if q != [] && !Blocked(q[0], capacity, limit) {
      var size, rest, tail := CutStep(id, q, capacity, limit);
      CutConserves(id, rest, capacity - size, limit, tail);
      StepSums(id, q, size, tail.frames);
    } else {
      CutStops(id, q, capacity, limit);
    }
  }

  lemma {:induction false} CutExhausts(id: StreamId, q: Queue, capacity: nat, limit: nat, r: CutResult)
    requires limit > 0 && r == Cut(id, q, capacity, limit)
    ensures r.left != [] ==> Bytes(r.frames) == capacity
    decreases Work(q)
  {
    hide Cut;
    if q != [] && !Blocked(q[0], capacity, limit) {
      var size, rest, tail := CutStep(id, q, capacity, limit);
      CutExhausts(id, rest, capacity - size, limit, tail);
      StepSums(id, q, size, tail.frames);
    } else {
      CutStops(id, q, capacity, limit);
    }
  }

  /** A visit is greedy: it sends all that is queued or all that the windows allow, whichever is less. */
  lemma CutIsGreedy(id: StreamId, q: Queue, capacity: nat, limit: nat)
    requires limit > 0
    ensures var r := Cut(id, q, capacity, limit);
            && Bytes(r.frames) == Min(Sum(ChunkBytes, q), capacity)
            && (r.left != [] ==> Bytes(r.frames) == capacity)
  {
    var r := Cut(id, q, capacity, limit);
    CutExhausts(id, q, capacity, limit, r);
    CutConserves(id, q, capacity, limit, r);
  }

  /** Frames are filled: only one frame per chunk may be smaller than the limit. */
  lemma {:induction false} CutFillsFrames(id: StreamId, q: Queue, capacity: nat, limit: nat, r: CutResult)
    requires limit > 0 && r == Cut(id, q, capacity, limit)
    ensures (|r.frames| - |q|) * limit <= Bytes(r.frames)
    ensures |r.left| <= |q|
    decreases Work(q)
  {
    hide Cut, Sum, BytesOn;
    if q != [] && !Blocked(q[0], capacity, limit) {
      var size, rest, tail := CutStep(id, q, capacity, limit);
      CutFillsFrames(id, rest, capacity - size, limit, tail);
      StepSums(id, q, size, tail.frames);
      if |rest| < |q| {
        assert |r.frames| - |q| == |tail.frames| - |rest|;
      } else if size == limit {
        Multiply(|tail.frames| - |rest|, limit);
      } else {
        CutStops(id, rest, capacity - size, limit);
        NegativeProduct(1 - |q|, limit);
      }
    } else {
      CutStops(id, q, capacity, limit);
      NegativeProduct(-|q|, limit);
    }
  }

  lemma Multiply(k: int, limit: nat)
    ensures (k + 1) * limit == k * limit + limit
  {
  }

  lemma NegativeProduct(k: int, limit: nat)
    requires k <= 0
    ensures k * limit <= 0
  {
  }

  /** One chunk leaves in frames of exactly the limit, except the last; with `CutIsGreedy` this fixes every size. */
  lemma {:induction false} CutOfOneChunk(id: StreamId, c: Chunk, capacity: nat, limit: nat, r: CutResult)
    requires limit > 0 && r == Cut(id, [c], capacity, limit)
    ensures forall i :: 0 <= i < |r.frames| - 1 ==> r.frames[i].Data? && |r.frames[i].payload| == limit
    decreases |c.data|
  {
    hide Cut, Work;
    if Blocked(c, capacity, limit) {
      CutStops(id, [c], capacity, limit);
    } else {
      var size, rest, tail := CutStep(id, [c], capacity, limit);
      if size == |c.data| {
        assert rest == [];
        CutStops(id, rest, capacity - size, limit);
      } else {
        var next := c.(data := c.data[size..]);
        assert rest == [next];
        CutOfOneChunk(id, next, capacity - size, limit, tail);
        if size < limit {
          CutStops(id, rest, capacity - size, limit);
        }
      }
    }
  }

  // ---------------------------------------------------------------- all streams of a connection

  function EntryTape(s: StreamId): Entry -> Tape {
    (e: Entry) => if e.id == s then QueueTape(e.queue) else []
  }

  function PendingTape(entries: seq<Entry>, s: StreamId): Tape {
    FlatMap(EntryTape(s), entries)
  }

  function EntryBytes(e: Entry): nat { Sum(ChunkBytes, e.queue) }
  function EntryEnds(e: Entry): nat { Sum(ChunkEnds, e.queue) }
  function EntryWork(e: Entry): nat { Work(e.queue) }

  /** A dict has one entry per key, and `flush` deletes a queue as soon as it is empty. */
  predicate PendingOk(entries: seq<Entry>) {
    && (forall i, j :: 0 <= i < j < |entries| ==> entries[i].id != entries[j].id)
    && forall i :: 0 <= i < |entries| ==> entries[i].queue != []
  }

  function Kept(id: StreamId, left: Queue): seq<Entry> {
    if left == [] then [] else [Entry(id, left)]
  }

  datatype FlushResult = FlushResult(conn: Endpoint, frames: seq<Frame>, pending: seq<Entry>)

  /** `flush`: every stream is visited once, in order, with the windows its predecessors left. */
  function FlushAll(e: Endpoint, entries: seq<Entry>): FlushResult
    decreases |entries|
  {
    if entries == [] then FlushResult(e, [], [])
    else
      var cut := Cut(entries[0].id, entries[0].queue, e.Capacity(entries[0].id), e.limits.frame);
      var r := FlushAll(e.SendFrames(entries[0].id, cut.frames), entries[1..]);
      FlushResult(r.conn, cut.frames + r.frames, Kept(entries[0].id, cut.left) + r.pending)
  }

  /** One visit of `FlushAll` and what it does to the connection. */
  lemma {:induction false} FlushStep(e: Endpoint, entries: seq<Entry>, r: FlushResult)
    returns (id: StreamId, cut: CutResult, next: Endpoint, tail: FlushResult)
    requires entries != [] && r == FlushAll(e, entries)
    ensures id == entries[0].id && cut == Cut(id, entries[0].queue, e.Capacity(id), e.limits.frame)
    ensures forall f <- cut.frames :: DataOn(id, e.limits.frame, f)
    ensures next == e.SendFrames(id, cut.frames) && tail == FlushAll(next, entries[1..])
    ensures r == FlushResult(tail.conn, cut.frames + tail.frames, Kept(id, cut.left) + tail.pending)
  {
    id := entries[0].id;
    cut := Cut(id, entries[0].queue, e.Capacity(id), e.limits.frame);
    CutFrames(id, entries[0].queue, e.Capacity(id), e.limits.frame, cut);
    next := e.SendFrames(id, cut.frames);
    tail := FlushAll(next, entries[1..]);
  }

  lemma FlushOfNothing(e: Endpoint, r: FlushResult)
    requires r == FlushAll(e, [])
    ensures r == FlushResult(e, [], [])
  {
  }

  lemma OneStreamOnly(id: StreamId, limit: nat, frames: seq<Frame>, k: StreamId)
    requires forall f <- frames :: DataOn(id, limit, f)
    ensures Sum(BytesOn(k), frames) == if k == CONNECTION || k == id then Bytes(frames) else 0
    ensures k != id ==> TapeOf(k, frames) == []
  {
    if k == CONNECTION || k == id {
      SumEqual(BytesOn(k), BytesOn(CONNECTION), frames);
    } else {
      SumZero(BytesOn(k), frames);
    }
    if k != id {
      FlatMapEmpty(OnStream(k), frames);
    }
  }

  /** Flushing appends DATA frames and touches nothing but the windows and the ended streams. */
  lemma {:induction false} FlushTouches(e: Endpoint, entries: seq<Entry>, r: FlushResult)
    requires r == FlushAll(e, entries)
    ensures r.conn.outbox == e.outbox + r.frames
    ensures r.conn == e.(outbox := r.conn.outbox, windows := r.conn.windows, localEnded := r.conn.localEnded)
    decreases |entries|
  {
    hide FlushAll, Cut;
    if entries != [] {
      var id, cut, next, tail := FlushStep(e, entries, r);
      FlushTouches(next, entries[1..], tail);
      Associate(e.outbox, cut.frames, tail.frames);
    } else {
      FlushOfNothing(e, r);
    }
  }

  lemma {:induction false} FlushEmitsData(e: Endpoint, entries: seq<Entry>, r: FlushResult)
    requires r == FlushAll(e, entries)
    ensures forall f <- r.frames :: f.Data? && |f.payload| <= e.limits.frame
    decreases |entries|
  {
    if entries != [] {
      var id, cut, next, tail := FlushStep(e, entries, r);
      FlushEmitsData(next, entries[1..], tail);
    }
  }

  /** Each window pays exactly for the bytes framed against it; it cannot go negative. */
  lemma {:induction false} FlushSpendsWindows(e: Endpoint, entries: seq<Entry>, k: StreamId)
    ensures var r := FlushAll(e, entries); r.conn.Window(k) + Sum(BytesOn(k), r.frames) == e.Window(k)
    decreases |entries|
  {
    if entries != [] {
      var id, cut, next, tail := FlushStep(e, entries, FlushAll(e, entries));
      FlushSpendsWindows(next, entries[1..], k);
      OneStreamOnly(id, e.limits.frame, cut.frames, k);
      SumConcat(BytesOn(k), cut.frames, tail.frames);
    }
  }

  /** A stream is ended by the flush exactly when its END_STREAM was framed. */
  lemma {:induction false} FlushEndsStreams(e: Endpoint, entries: seq<Entry>, s: StreamId)
    ensures var r := FlushAll(e, entries); s in r.conn.localEnded <==> s in e.localEnded || End in TapeOf(s, r.frames)
    decreases |entries|
  {
    if entries != [] {
      var id, cut, next, tail := FlushStep(e, entries, FlushAll(e, entries));
      FlushEndsStreams(next, entries[1..], s);
      OneStreamOnly(id, e.limits.frame, cut.frames, s);
      FlatMapConcat(OnStream(s), cut.frames, tail.frames);
    }
  }

  /** What a stream still has to send is split, in order, into frames and what stays queued. */
  lemma {:induction false} FlushKeepsTape(e: Endpoint, entries: seq<Entry>, r: FlushResult, s: StreamId)
    requires PendingOk(entries) && r == FlushAll(e, entries)
    ensures TapeOf(s, r.frames) + PendingTape(r.pending, s) == PendingTape(entries, s)
    decreases |entries|
  {
    hide FlushAll, Cut;
    if entries != [] {
      var id, cut, next, tail := FlushStep(e, entries, r);
      FlushKeepsTape(next, entries[1..], tail, s);
      FlatMapConcat(OnStream(s), cut.frames, tail.frames);
      FlatMapConcat(EntryTape(s), Kept(id, cut.left), tail.pending);
      if s == id {
        CutKeepsTape(id, entries[0].queue, e.Capacity(id), e.limits.frame, cut);
        FlatMapEmpty(EntryTape(s), entries[1..]);
      } else {
        OneStreamOnly(id, e.limits.frame, cut.frames, s);
        FlatMapEmpty(EntryTape(s), Kept(id, cut.left));
      }
      Interleave(TapeOf(s, cut.frames), PendingTape(Kept(id, cut.left), s), TapeOf(s, tail.frames),
          PendingTape(tail.pending, s));
    } else {
      FlushOfNothing(e, r);
    }
  }

  lemma {:induction false} FlushConserves(e: Endpoint, entries: seq<Entry>)
    ensures var r := FlushAll(e, entries);
            && Bytes(r.frames) + Sum(EntryBytes, r.pending) == Sum(EntryBytes, entries)
            && Sum(EndsOf, r.frames) + Sum(EntryEnds, r.pending) == Sum(EntryEnds, entries)
            && |r.frames| + Sum(EntryWork, r.pending) <= Sum(EntryWork, entries)
    decreases |entries|
  {
    if entries != [] {
      var id, cut, next, tail := FlushStep(e, entries, FlushAll(e, entries));
      FlushConserves(next, entries[1..]);
      CutConserves(id, entries[0].queue, e.Capacity(id), e.limits.frame, cut);
      SumConcat(BytesOn(CONNECTION), cut.frames, tail.frames);
      SumConcat(EndsOf, cut.frames, tail.frames);
      SumConcat(EntryBytes, Kept(id, cut.left), tail.pending);
      SumConcat(EntryEnds, Kept(id, cut.left), tail.pending);
      SumConcat(EntryWork, Kept(id, cut.left), tail.pending);
    }
  }

  lemma {:induction false} FlushKeepsPendingOk(e: Endpoint, entries: seq<Entry>, r: FlushResult)
    requires PendingOk(entries) && r == FlushAll(e, entries)
    ensures PendingOk(r.pending)
    ensures forall p <- r.pending :: exists q <- entries :: q.id == p.id
    decreases |entries|
  {
    hide FlushAll, Cut;
    if entries != [] {
      var id, cut, next, tail := FlushStep(e, entries, r);
      FlushKeepsPendingOk(next, entries[1..], tail);
      forall p | p in r.pending ensures exists q <- entries :: q.id == p.id {
        if p in tail.pending {
          var q :| q in entries[1..] && q.id == p.id;
          assert q in entries;
        } else {
          assert entries[0] in entries;
        }
      }
    } else {
      FlushOfNothing(e, r);
    }
  }

  /** Maximality: whatever stays queued is stuck at a window of size 0, even for streams that were
      visited before others drained the connection window. */
  lemma {:induction false} FlushIsMaximal(e: Endpoint, entries: seq<Entry>, r: FlushResult)
    requires e.limits.frame > 0 && r == FlushAll(e, entries)
    ensures forall p <- r.pending :: r.conn.Capacity(p.id) == 0
    decreases |entries|
  {
    if entries != [] {
      var id, cut, next, tail := FlushStep(e, entries, r);
      FlushIsMaximal(next, entries[1..], tail);
      CutIsGreedy(id, entries[0].queue, e.Capacity(id), e.limits.frame);
      FlushSpendsWindows(next, entries[1..], CONNECTION);
      FlushSpendsWindows(next, entries[1..], id);
    }
  }

  function EntryChunks(e: Entry): nat { |e.queue| }

  lemma {:induction false} FlushFillsFrames(e: Endpoint, entries: seq<Entry>)
    requires e.limits.frame > 0
    ensures var r := FlushAll(e, entries);
            (|r.frames| - Sum(EntryChunks, entries)) * e.limits.frame <= Bytes(r.frames)
    decreases |entries|
  {
    hide FlushAll, Cut, BytesOn;
    var r := FlushAll(e, entries);
    if entries == [] {
      FlushOfNothing(e, r);
    } else {
      var id, cut, next, tail := FlushStep(e, entries, r);
      FlushFillsFrames(next, entries[1..]);
      CutFillsFrames(id, entries[0].queue, e.Capacity(id), e.limits.frame, cut);
      SumConcat(BytesOn(CONNECTION), cut.frames, tail.frames);
      Distribute(|cut.frames| - |entries[0].queue|, |tail.frames| - Sum(EntryChunks, entries[1..]), e.limits.frame);
    }
  }

  lemma Distribute(a: int, b: int, limit: nat)
    ensures (a + b) * limit == a * limit + b * limit
  {
  }

  /** Streams are visited in the order of the dict, each with what its predecessors left. */
  lemma {:induction false} FlushInOrder(e: Endpoint, a: seq<Entry>, b: seq<Entry>)
    ensures var ra := FlushAll(e, a);
            var rb := FlushAll(ra.conn, b);
            FlushAll(e, a + b) == FlushResult(rb.conn, ra.frames + rb.frames, ra.pending + rb.pending)
    decreases |a|
  {
    hide FlushAll, Cut;
    var ra := FlushAll(e, a);
    if a == [] {
      FlushOfNothing(e, ra);
      var rb := FlushAll(e, b);
      assert [] + b == b && [] + rb.frames == rb.frames && [] + rb.pending == rb.pending;
    } else {
      assert (a + b)[1..] == a[1..] + b;
      var id, cut, next, tail := FlushStep(e, a, ra);
      var id', cut', next', tail' := FlushStep(e, a + b, FlushAll(e, a + b));
      FlushInOrder(next, a[1..], b);
      var rb := FlushAll(ra.conn, b);
      Associate(cut.frames, tail.frames, rb.frames);
      Associate(Kept(id, cut.left), tail.pending, rb.pending);
    }
  }

  lemma {:induction false} FlushVisitsOnly(e: Endpoint, entries: seq<Entry>, id: StreamId)
    requires forall p <- entries :: p.id != id
    ensures forall f <- FlushAll(e, entries).frames :: f.id != id
    decreases |entries|
  {
    hide FlushAll, Cut;
    var r := FlushAll(e, entries);
    if entries == [] {
      FlushOfNothing(e, r);
    } else {
      var first, cut, next, tail := FlushStep(e, entries, r);
      FlushVisitsOnly(next, entries[1..], id);
      assert entries[0] in entries;
    }
  }

  /** The share of a stream: all it has queued, or all that its window and what its predecessors left of the connection
      window allow. Its frames follow those of its predecessors. */
  lemma {:induction false} FlushShare(e: Endpoint, before: seq<Entry>, p: Entry, after: seq<Entry>)
    returns (mine: seq<Frame>, rest: seq<Frame>)
    requires e.limits.frame > 0 && p.id > 0 && forall q <- before :: q.id != p.id
    ensures var first := FlushAll(e, before).frames;
            && FlushAll(e, before + ([p] + after)).frames == first + (mine + rest)
            && (forall f <- mine :: f.Data? && f.id == p.id)
            && Bytes(first) <= e.Window(CONNECTION)
            && Bytes(mine) == Min(Sum(ChunkBytes, p.queue), Min(e.Window(CONNECTION) - Bytes(first), e.Window(p.id)))
  {
    hide FlushAll, Cut, Sum;
    var r := FlushAll(e, before);
    FlushTouches(e, before, r);
    FlushInOrder(e, before, [p] + after);
    var id, cut, next, tail := FlushStep(r.conn, [p] + after, FlushAll(r.conn, [p] + after));
    mine, rest := cut.frames, tail.frames;
    CutIsGreedy(id, p.queue, r.conn.Capacity(id), e.limits.frame);
    FlushSpendsWindows(e, before, CONNECTION);
    FlushSpendsWindows(e, before, p.id);
    FlushVisitsOnly(e, before, p.id);
    FlushEmitsData(e, before, r);
    SumZero(BytesOn(p.id), r.frames);
    assert forall f <- mine :: DataOn(id, e.limits.frame, f);
  }

  // ---------------------------------------------------------------- what any framer must do

  /** The contract of a framer, whatever order and sizes it chooses: DATA frames within the size limit that spend
      the windows exactly, split every stream's queue in order, and leave nothing that could still be sent. */
  ghost predicate Schedules(e: Endpoint, entries: seq<Entry>, r: FlushResult) {
    && r.conn.outbox == e.outbox + r.frames
    && r.conn == e.(outbox := r.conn.outbox, windows := r.conn.windows, localEnded := r.conn.localEnded)
    && (forall f <- r.frames :: f.Data? && |f.payload| <= e.limits.frame)
    && (forall k :: r.conn.Window(k) + Sum(BytesOn(k), r.frames) == e.Window(k))
    && (forall s :: s in r.conn.localEnded <==> s in e.localEnded || End in TapeOf(s, r.frames))
    && (forall s :: TapeOf(s, r.frames) + PendingTape(r.pending, s) == PendingTape(entries, s))
    && Bytes(r.frames) + Sum(EntryBytes, r.pending) == Sum(EntryBytes, entries)
    && Sum(EndsOf, r.frames) + Sum(EntryEnds, r.pending) == Sum(EntryEnds, entries)
    && |r.frames| + Sum(EntryWork, r.pending) <= Sum(EntryWork, entries)
    && PendingOk(r.pending)
    && (e.limits.frame > 0 ==> forall p <- r.pending :: r.conn.Capacity(p.id) == 0)
  }

  /** `flush` is such a framer. */
  lemma {:induction false} FlushSchedules(e: Endpoint, entries: seq<Entry>)
    requires PendingOk(entries)
    ensures Schedules(e, entries, FlushAll(e, entries))
  {
    hide FlushAll, PendingTape;
    var r := FlushAll(e, entries);
    FlushTouches(e, entries, r);
    FlushEmitsData(e, entries, r);
    FlushConserves(e, entries);
    FlushKeepsPendingOk(e, entries, r);
    if e.limits.frame > 0 {
      FlushIsMaximal(e, entries, r);
    }
    forall k ensures r.conn.Window(k) + Sum(BytesOn(k), r.frames) == e.Window(k) {
      FlushSpendsWindows(e, entries, k);
    }
    forall s ensures s in r.conn.localEnded <==> s in e.localEnded || End in TapeOf(s, r.frames) {
      FlushEndsStreams(e, entries, s);
    }
    forall s ensures TapeOf(s, r.frames) + PendingTape(r.pending, s) == PendingTape(entries, s) {
      FlushKeepsTape(e, entries, r, s);
    }
  }

  // ---------------------------------------------------------------- queueing

  /** `setdefault(id, []).append(chunk)` */
  function Enqueue(entries: seq<Entry>, id: StreamId, chunk: Chunk): seq<Entry> {
    if entries == [] then [Entry(id, [chunk])]
    else if entries[0].id == id then [Entry(id, entries[0].queue + [chunk])] + entries[1..]
    else [entries[0]] + Enqueue(entries[1..], id, chunk)
  }

  lemma {:induction false} EnqueueKeepsPendingOk(entries: seq<Entry>, id: StreamId, chunk: Chunk)
    requires PendingOk(entries)
    ensures PendingOk(Enqueue(entries, id, chunk))
    ensures forall p <- Enqueue(entries, id, chunk) :: p.id == id || exists q <- entries :: q.id == p.id
  {
    if entries != [] && entries[0].id != id {
      EnqueueKeepsPendingOk(entries[1..], id, chunk);
    }
  }

  function Keys(entries: seq<Entry>): seq<StreamId> {
    seq(|entries|, i requires 0 <= i < |entries| => entries[i].id)
  }

  /** A stream that has nothing queued yet comes last in the dict; no other changes its place. */
  lemma {:induction false} EnqueueKeepsOrder(entries: seq<Entry>, id: StreamId, chunk: Chunk)
    ensures Keys(Enqueue(entries, id, chunk)) == Keys(entries) + if id in Keys(entries) then [] else [id]
  {
    if entries == [] {
    } else if entries[0].id == id {
      assert Keys(entries)[0] == id;
      assert Enqueue(entries, id, chunk)[1..] == entries[1..];
    } else {
      EnqueueKeepsOrder(entries[1..], id, chunk);
      assert Keys(entries) == [entries[0].id] + Keys(entries[1..]);
      assert Keys(Enqueue(entries, id, chunk)) == [entries[0].id] + Keys(Enqueue(entries[1..], id, chunk));
    }
  }

  /** The chunk goes behind everything its stream has queued; other streams do not notice. */
  lemma {:induction false} EnqueueAppends(entries: seq<Entry>, id: StreamId, chunk: Chunk, s: StreamId)
    requires PendingOk(entries)
    ensures PendingTape(Enqueue(entries, id, chunk), s)
         == PendingTape(entries, s) + if s == id then ChunkTape(chunk) else []
  {
    if entries != [] {
      if entries[0].id == id {
        FlatMapConcat(ChunkTape, entries[0].queue, [chunk]);
        if s == id {
          FlatMapEmpty(EntryTape(s), entries[1..]);
        }
      } else {
        EnqueueAppends(entries[1..], id, chunk, s);
        Associate(EntryTape(s)(entries[0]), PendingTape(entries[1..], s), if s == id then ChunkTape(chunk) else []);
      }
    }
  }

  lemma {:induction false} EnqueueAdds(entries: seq<Entry>, id: StreamId, chunk: Chunk)
    ensures var r := Enqueue(entries, id, chunk);
            && Sum(EntryBytes, r) == Sum(EntryBytes, entries) + |chunk.data|
            && Sum(EntryEnds, r) == Sum(EntryEnds, entries) + ChunkEnds(chunk)
            && Sum(EntryWork, r) == Sum(EntryWork, entries) + ChunkWork(chunk)
  {
    if entries != [] {
      if entries[0].id == id {
        SumConcat(ChunkBytes, entries[0].queue, [chunk]);
        SumConcat(ChunkEnds, entries[0].queue, [chunk]);
        SumConcat(ChunkWork, entries[0].queue, [chunk]);
      } else {
        EnqueueAdds(entries[1..], id, chunk);
      }
    }
  }
}
