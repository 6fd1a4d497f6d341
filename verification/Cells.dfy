/** The queues of `H2Exchange` as the source keeps them, with offsets into uncut bodies, and why framing them is the
    same as framing the unsent parts themselves.
 */
module Cells {
  import opened Basics
  import opened Folds
  import opened Http2
  import opened Flush
  import opened Direction
  import opened Liveness

  /** A `[data, offset, end_stream]` cell: bytes before `offset` have been framed. */
  datatype Cell = Cell(data: seq<Byte>, offset: nat, end: bool)

  /** One key of a `pending` dict with its queue. */
  datatype Row = Row(id: StreamId, cells: seq<Cell>)

  predicate CellsOk(cells: seq<Cell>) {
    forall c <- cells :: c.offset <= |c.data|
  }

  predicate RowsOk(rows: seq<Row>) {
    forall r <- rows :: CellsOk(r.cells)
  }

  function Chunks(cells: seq<Cell>): (q: Queue)
    requires CellsOk(cells)
    ensures |q| == |cells|
  {
    if cells == [] then []
    else [Chunk(cells[0].data[cells[0].offset..], cells[0].end)] + Chunks(cells[1..])
  }

  function Entries(rows: seq<Row>): (es: seq<Entry>)
    requires RowsOk(rows)
    ensures |es| == |rows|
  {
    if rows == [] then []
    else [Entry(rows[0].id, Chunks(rows[0].cells))] + Entries(rows[1..])
  }

  /** `setdefault(id, []).append(cell)` */
  function Append(rows: seq<Row>, id: StreamId, cell: Cell): seq<Row> {
    if rows == [] then [Row(id, [cell])]
    else if rows[0].id == id then [Row(id, rows[0].cells + [cell])] + rows[1..]
    else [rows[0]] + Append(rows[1..], id, cell)
  }

  lemma {:induction false} ChunksConcat(a: seq<Cell>, b: seq<Cell>)
    requires CellsOk(a) && CellsOk(b)
    ensures CellsOk(a + b) && Chunks(a + b) == Chunks(a) + Chunks(b)
  {
    if a == [] {
      assert a + b == b;
    } else {
      ChunksConcat(a[1..], b);
      assert (a + b)[1..] == a[1..] + b;
    }
  }

  lemma {:induction false} EntriesConcat(a: seq<Row>, b: seq<Row>)
    requires RowsOk(a) && RowsOk(b)
    ensures RowsOk(a + b) && Entries(a + b) == Entries(a) + Entries(b)
  {
    if a == [] {
      assert a + b == b;
    } else {
      EntriesConcat(a[1..], b);
      assert (a + b)[1..] == a[1..] + b;
    }
  }

  lemma {:induction false} AppendIsEnqueue(rows: seq<Row>, id: StreamId, data: seq<Byte>, end: bool)
    requires RowsOk(rows)
    ensures RowsOk(Append(rows, id, Cell(data, 0, end)))
    ensures Entries(Append(rows, id, Cell(data, 0, end))) == Enqueue(Entries(rows), id, Chunk(data, end))
  {
    var cell := Cell(data, 0, end);
    assert Chunks([cell]) == [Chunk(data, end)];
    if rows == [] {
    } else if rows[0].id == id {
      ChunksConcat(rows[0].cells, [cell]);
      assert Append(rows, id, cell)[1..] == rows[1..];
    } else {
      AppendIsEnqueue(rows[1..], id, data, end);
      assert Append(rows, id, cell)[1..] == Append(rows[1..], id, cell);
    }
  }

  /** `now` is `e` after `sent` frames of one stream. */
  ghost predicate Sending(e: Endpoint, id: StreamId, sent: seq<Frame>, now: Endpoint) {
    && Bytes(sent) <= e.Capacity(id)
    && now == e.SendFrames(id, sent)
    && now.limits == e.limits && now.Capacity(id) == e.Capacity(id) - Bytes(sent)
  }

  lemma Overwrite<K, V>(m: map<K, V>, i: K, j: K, a: V, b: V, c: V, d: V)
    ensures m[i := a][j := b][i := c][j := d] == m[i := c][j := d]
  {
  }

  lemma SendTwice(e: Endpoint, id: StreamId, sent: seq<Frame>, f: Frame)
    requires Bytes(sent) + Bytes([f]) <= e.Capacity(id)
    ensures Bytes(sent + [f]) == Bytes(sent) + Bytes([f])
    ensures Bytes([f]) <= e.SendFrames(id, sent).Capacity(id)
    ensures e.SendFrames(id, sent).SendFrames(id, [f]) == e.SendFrames(id, sent + [f])
  {
    hide FlatMap, Sum, OnStream, BytesOn;
    SumConcat(BytesOn(CONNECTION), sent, [f]);
    FlatMapConcat(OnStream(id), sent, [f]);
    Associate(e.outbox, sent, [f]);
    if sent != [] {
      Overwrite(e.windows, CONNECTION, id,
                e.Window(CONNECTION) - Bytes(sent), e.Window(id) - Bytes(sent),
                e.Window(CONNECTION) - Bytes(sent + [f]), e.Window(id) - Bytes(sent + [f]));
    } else {
      assert sent + [f] == [f];
    }
  }

  lemma SendOneMore(e: Endpoint, id: StreamId, sent: seq<Frame>, now: Endpoint, f: Frame)
    requires Sending(e, id, sent, now) && Bytes([f]) <= now.Capacity(id)
    ensures Sending(e, id, sent + [f], now.SendFrames(id, [f]))
    ensures now.SendFrames(id, [f]).Capacity(id) == now.Capacity(id) - Bytes([f])
  {
    SendTwice(e, id, sent, f);
  }

  /** The queue after `size` bytes of its first cell were framed: popped, or its offset moved. */
  function Shifted(cells: seq<Cell>, size: nat): seq<Cell>
    requires cells != []
  {
    if size == |cells[0].data| - cells[0].offset then cells[1..]
    else [cells[0].(offset := cells[0].offset + size)] + cells[1..]
  }

  lemma OffsetSkips(c: Cell, size: nat)
    requires c.offset + size <= |c.data|
    ensures c.data[c.offset..][..size] == c.data[c.offset..c.offset + size]
    ensures c.data[c.offset..][size..] == c.data[c.offset + size..]
  {
  }

  /** Moving the offset is the same as slicing off what was framed. */
  lemma ShiftIsAdvance(cells: seq<Cell>, id: StreamId, size: nat)
    requires cells != [] && CellsOk(cells) && cells[0].offset + size <= |cells[0].data|
    ensures CellsOk(Shifted(cells, size))
    ensures var q := Chunks(cells);
            && Chunks(Shifted(cells, size)) == Advance(q[0], size) + q[1..]
            && NextFrame(id, q[0], size)
               == Data(id, cells[0].data[cells[0].offset..cells[0].offset + size],
                       cells[0].end && size == |cells[0].data| - cells[0].offset)
  {
    var c, rest := cells[0], cells[1..];
    OffsetSkips(c, size);
    if size == |c.data| - c.offset {
      assert [] + Chunks(rest) == Chunks(rest);
    } else {
      var next := c.(offset := c.offset + size);
      assert Shifted(cells, size)[0] == next && Shifted(cells, size)[1..] == rest;
    }
  }

  /** END_STREAM travels with the last chunk, so what stays queued is still legal to send. */
  lemma StaysLegal(e: Endpoint, id: StreamId, q: Queue, size: nat)
    requires q != [] && Legal(e, id, q) && size <= |q[0].data| && size <= e.Capacity(id)
    requires size == 0 ==> q[0].data == []
    ensures Bytes([NextFrame(id, q[0], size)]) <= e.Capacity(id)
    ensures Legal(e.SendFrames(id, [NextFrame(id, q[0], size)]), id, Advance(q[0], size) + q[1..])
  {
    FrameEnds(NextFrame(id, q[0], size), id);
    var rest := Advance(q[0], size) + q[1..];
    if size == |q[0].data| {
      assert rest == q[1..];
    } else {
      assert rest[1..] == q[1..];
    }
  }

  /** Cutting `q0` has produced `sent` and goes on like cutting `q`. */
  ghost predicate Cutting(id: StreamId, q0: Queue, capacity0: nat, limit: nat,
      sent: seq<Frame>, capacity: nat, q: Queue)
  {
    var rest := Cut(id, q, capacity, limit);
    Cut(id, q0, capacity0, limit) == CutResult(sent + rest.frames, rest.left)
  }

  lemma {:induction false} CutOneMore(id: StreamId, q0: Queue, capacity0: nat, limit: nat, sent: seq<Frame>,
      capacity: nat, q: Queue)
    requires Cutting(id, q0, capacity0, limit, sent, capacity, q)
    requires q != [] && !Blocked(q[0], capacity, limit)
    ensures var size := NextSize(q[0], capacity, limit);
            && size <= capacity && (size == 0 ==> q[0].data == [])
            && Work(Advance(q[0], size) + q[1..]) < Work(q)
            && Cutting(id, q0, capacity0, limit, sent + [NextFrame(id, q[0], size)],
                       capacity - size, Advance(q[0], size) + q[1..])
  {
    var size, rest, tail := CutStep(id, q, capacity, limit);
    Associate(sent, [NextFrame(id, q[0], size)], tail.frames);
  }

  lemma {:induction false} CutIsDone(id: StreamId, q0: Queue, capacity0: nat, limit: nat, sent: seq<Frame>,
      capacity: nat, q: Queue)
    requires Cutting(id, q0, capacity0, limit, sent, capacity, q)
    requires q == [] || Blocked(q[0], capacity, limit)
    ensures Cut(id, q0, capacity0, limit) == CutResult(sent, q)
  {
    assert sent + [] == sent;
  }

  /** Half-way through a stream: `sent` frames are out and `q` is left of the queue `q0`. */
  ghost predicate Framing(e: Endpoint, id: StreamId, q0: Queue, sent: seq<Frame>, now: Endpoint, q: Queue) {
    && Sending(e, id, sent, now)
    && Legal(now, id, q)
    && Cutting(id, q0, e.Capacity(id), e.limits.frame, sent, now.Capacity(id), q)
  }

  lemma FramingStarts(e: Endpoint, id: StreamId, q0: Queue)
    requires Legal(e, id, q0)
    ensures Framing(e, id, q0, [], e, q0)
  {
    var all := Cut(id, q0, e.Capacity(id), e.limits.frame);
    assert [] + all.frames == all.frames;
  }

  lemma FramingStep(e: Endpoint, id: StreamId, q0: Queue, sent: seq<Frame>, now: Endpoint, q: Queue, size: nat)
    requires Framing(e, id, q0, sent, now, q)
    requires q != [] && !Blocked(q[0], now.Capacity(id), now.limits.frame)
    requires size == NextSize(q[0], now.Capacity(id), now.limits.frame)
    ensures Bytes([NextFrame(id, q[0], size)]) <= now.Capacity(id)
    ensures Framing(e, id, q0, sent + [NextFrame(id, q[0], size)],
                    now.SendFrames(id, [NextFrame(id, q[0], size)]), Advance(q[0], size) + q[1..])
    ensures Work(Advance(q[0], size) + q[1..]) < Work(q)
  {
    hide Cutting, Legal, Cut, Advance;
    var f := NextFrame(id, q[0], size);
    CutOneMore(id, q0, e.Capacity(id), e.limits.frame, sent, now.Capacity(id), q);
    StaysLegal(now, id, q, size);
    SendOneMore(e, id, sent, now, f);
  }

  lemma FramingEnds(e: Endpoint, id: StreamId, q0: Queue, sent: seq<Frame>, now: Endpoint, q: Queue)
    requires Framing(e, id, q0, sent, now, q)
    requires q == [] || Blocked(q[0], now.Capacity(id), now.limits.frame)
    ensures var cut := Cut(id, q0, e.Capacity(id), e.limits.frame);
            now == e.SendFrames(id, cut.frames) && q == cut.left
  {
    CutIsDone(id, q0, e.Capacity(id), e.limits.frame, sent, now.Capacity(id), q);
  }

  /** The inner loop of `flush`. */
  method FlushQueue(connection: H2Connection, id: StreamId, queue: seq<Cell>) returns (left: seq<Cell>)
    requires CellsOk(queue) && Legal(connection.state, id, Chunks(queue))
    modifies connection`state
    ensures CellsOk(left)
    ensures var e := old(connection.state);
            var cut := Cut(id, Chunks(queue), e.Capacity(id), e.limits.frame);
            connection.state == e.SendFrames(id, cut.frames) && Chunks(left) == cut.left
  {
    hide Cutting, Sending;
    left := queue;
    ghost var e, q, sent := connection.state, Chunks(queue), [];
    FramingStarts(e, id, q);
    while left != []
      invariant CellsOk(left) && q == Chunks(left)
      invariant Framing(e, id, Chunks(queue), sent, connection.state, q)
      decreases Work(q)
    {
      var cell := left[0];
      var remaining := |cell.data| - cell.offset;
      var size := Min(remaining, Min(connection.state.Capacity(id), connection.state.limits.frame));
      if size == 0 && remaining > 0 {
        break;
      }
      FramingStep(e, id, Chunks(queue), sent, connection.state, q, size);
      ShiftIsAdvance(left, id, size);
      connection.SendData(id, cell.data[cell.offset..cell.offset + size], cell.end && size == remaining);
      sent := sent + [NextFrame(id, q[0], size)];
      q := Advance(q[0], size) + q[1..];
      left := Shifted(left, size);
    }
    FramingEnds(e, id, Chunks(queue), sent, connection.state, q);
  }

  /** Framing one stream leaves the others legal. */
  lemma VisitKeepsLegal(e: Endpoint, entries: seq<Entry>, frames: seq<Frame>)
    requires entries != [] && AllLegal(e, entries) && Bytes(frames) <= e.Capacity(entries[0].id)
    ensures AllLegal(e.SendFrames(entries[0].id, frames), entries[1..])
  {
    forall p | p in entries[1..] ensures Legal(e.SendFrames(entries[0].id, frames), p.id, p.queue) {
      assert Legal(e, p.id, p.queue) && p.id != entries[0].id;
    }
  }

  /** `visited` rows are done and flushing goes on with `rows`. */
  ghost predicate Visiting(all: FlushResult, visited: seq<Row>, e: Endpoint, rows: seq<Row>)
    requires RowsOk(visited) && RowsOk(rows)
  {
    var r := FlushAll(e, Entries(rows));
    all.conn == r.conn && all.pending == Entries(visited) + r.pending
  }

  lemma VisitStart(e: Endpoint, rows: seq<Row>)
    requires RowsOk(rows)
    ensures RowsOk([]) && [] + rows == rows
    ensures Visiting(FlushAll(e, Entries(rows)), [], e, rows)
  {
    var all := FlushAll(e, Entries(rows));
    assert [] + all.pending == all.pending;
  }

  /** What the visit of the first of `rows` finds, and what it leaves. */
  lemma {:induction false} VisitNext(all: FlushResult, visited: seq<Row>, e: Endpoint, rows: seq<Row>)
    requires RowsOk(visited) && RowsOk(rows) && rows != []
    requires AllLegal(e, Entries(rows)) && Visiting(all, visited, e, rows)
    ensures CellsOk(rows[0].cells) && RowsOk(rows[1..]) && Legal(e, rows[0].id, Chunks(rows[0].cells))
    ensures var id, cut := rows[0].id, Cut(rows[0].id, Chunks(rows[0].cells), e.Capacity(rows[0].id), e.limits.frame);
            && AllLegal(e.SendFrames(id, cut.frames), Entries(rows[1..]))
            && forall left: seq<Cell> :: CellsOk(left) && Chunks(left) == cut.left ==>
                 var visited' := if left == [] then visited else visited + [Row(id, left)];
                 RowsOk(visited') && Visiting(all, visited', e.SendFrames(id, cut.frames), rows[1..])
  {
    assert Entries(rows)[0] in Entries(rows);
    var id, cut, next, tail := FlushStep(e, Entries(rows), FlushAll(e, Entries(rows)));
    VisitKeepsLegal(e, Entries(rows), cut.frames);
    forall left: seq<Cell> | CellsOk(left) && Chunks(left) == cut.left
      ensures var visited' := if left == [] then visited else visited + [Row(id, left)];
              RowsOk(visited') && Visiting(all, visited', next, rows[1..])
    {
      var more := if left == [] then [] else [Row(id, left)];
      EntriesConcat(visited, more);
      assert Entries(more) == Kept(id, cut.left);
      Associate(Entries(visited), Entries(more), tail.pending);
      assert left == [] ==> visited + more == visited;
    }
  }

  lemma VisitDone(all: FlushResult, visited: seq<Row>, e: Endpoint)
    requires RowsOk(visited) && RowsOk([]) && Visiting(all, visited, e, [])
    ensures visited + [] == visited && all.conn == e && all.pending == Entries(visited)
  {
    assert Entries(visited) + [] == Entries(visited);
  }
}
