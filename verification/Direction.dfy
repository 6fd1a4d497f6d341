/** One direction of the exchange: what a sender, the wire and a receiver hold together.

    A direction has two laws. Credit: for the connection and for every stream, the send window, DATA
    in flight, bytes the application holds, withheld credit and credit in flight add up to the
    initial window. Tape: what was delivered, is in flight and is queued on a stream,
    in this order, is the message the application queued.
 */
module Direction {
  import opened Basics
  import opened Folds
  import opened Http2
  import opened Flush

  /** One side as the application sees it. `events` are those it has been handed but not handled. */
  datatype Peer = Peer(conn: Endpoint, pending: seq<Entry>, events: seq<Event>)

  /** Everything charged against window `k` of the sender `x` that `y` has not paid back in full. */
  function InFlow(x: Peer, y: Peer, k: StreamId): nat {
    x.conn.Window(k) + Sum(BytesOn(k), x.conn.outbox) + Sum(EventBytesOn(k), y.events)
    + y.conn.Withheld(k) + Sum(CreditOn(k), y.conn.outbox)
  }

  predicate FlowOk(x: Peer, y: Peer, k: StreamId) {
    && InFlow(x, y, k) <= x.conn.limits.window
    && (k !in x.conn.localEnded ==> InFlow(x, y, k) == x.conn.limits.window)
    && (k !in y.conn.remoteEnded ==> y.conn.Withheld(k) < y.conn.limits.threshold)
  }

  function SentTape(x: Peer, y: Peer, s: StreamId): Tape {
    TapeOf(s, y.conn.received) + TapeOf(s, x.conn.outbox)
  }

  /** The whole message of stream `s`: delivered, in flight, queued. */
  function StreamTape(x: Peer, y: Peer, s: StreamId): Tape {
    SentTape(x, y, s) + PendingTape(x.pending, s)
  }

  predicate StreamOk(x: Peer, y: Peer, s: StreamId) {
    && WellEnded(StreamTape(x, y, s))
    && (s == CONNECTION ==> StreamTape(x, y, s) == [])
    && (s in x.conn.localEnded <==> End in SentTape(x, y, s))
    && (s in y.conn.remoteEnded <==> End in TapeOf(s, y.conn.received))
  }

  ghost predicate Channel(x: Peer, y: Peer) {
    && x.conn.limits == y.conn.limits
    && PendingOk(x.pending)
    && (forall e <- y.events :: e.id > 0)
    && (forall k :: FlowOk(x, y, k))
    && (forall s :: StreamOk(x, y, s))
  }

  // ---------------------------------------------------------------- queued bytes are framed

  function Framed(x: Peer, r: FlushResult): Peer {
    x.(conn := r.conn, pending := r.pending)
  }

  lemma FramingKeepsFlow(x: Peer, y: Peer, r: FlushResult, k: StreamId)
    requires Schedules(x.conn, x.pending, r) && FlowOk(x, y, k)
    ensures FlowOk(Framed(x, r), y, k)
  {
    hide Schedules;
    SchedulesOn(x, r, k);
    SumConcat(BytesOn(k), x.conn.outbox, r.frames);
  }

  /** The contract of a framer at one stream or window. */
  lemma SchedulesOn(x: Peer, r: FlushResult, k: StreamId)
    requires Schedules(x.conn, x.pending, r)
    ensures r.conn.outbox == x.conn.outbox + r.frames
    ensures r.conn == x.conn.(outbox := r.conn.outbox, windows := r.conn.windows, localEnded := r.conn.localEnded)
    ensures r.conn.Window(k) + Sum(BytesOn(k), r.frames) == x.conn.Window(k)
    ensures k in r.conn.localEnded <==> k in x.conn.localEnded || End in TapeOf(k, r.frames)
    ensures TapeOf(k, r.frames) + PendingTape(r.pending, k) == PendingTape(x.pending, k)
    ensures Sum(CreditOn(k), r.frames) == 0
    ensures PendingOk(r.pending)
  {
    SumZero(CreditOn(k), r.frames);
  }

  lemma FramingKeepsStreamTape(x: Peer, y: Peer, r: FlushResult, s: StreamId)
    requires Schedules(x.conn, x.pending, r)
    ensures StreamTape(Framed(x, r), y, s) == StreamTape(x, y, s)
    ensures SentTape(Framed(x, r), y, s) == SentTape(x, y, s) + TapeOf(s, r.frames)
  {
    hide Schedules;
    SchedulesOn(x, r, s);
    FlatMapConcat(OnStream(s), x.conn.outbox, r.frames);
    var a, b, c, d := TapeOf(s, y.conn.received), TapeOf(s, x.conn.outbox), TapeOf(s, r.frames),
        PendingTape(r.pending, s);
    Associate(a, b, c);
    Associate(a + b, c, d);
  }

  lemma FramingKeepsStream(x: Peer, y: Peer, r: FlushResult, s: StreamId)
    requires Schedules(x.conn, x.pending, r) && StreamOk(x, y, s)
    ensures StreamOk(Framed(x, r), y, s)
  {
    hide Schedules;
    SchedulesOn(x, r, s);
    FramingKeepsStreamTape(x, y, r, s);
  }

  lemma FramingKeepsReverseFlow(x: Peer, y: Peer, r: FlushResult, k: StreamId)
    requires Schedules(x.conn, x.pending, r) && FlowOk(y, x, k)
    ensures FlowOk(y, Framed(x, r), k)
  {
    hide Schedules;
    SchedulesOn(x, r, k);
    SumConcat(CreditOn(k), x.conn.outbox, r.frames);
  }

  /** Framing keeps the direction it sends into and the one it receives from. */
  lemma FramingKeepsChannels(x: Peer, y: Peer, r: FlushResult)
    requires Schedules(x.conn, x.pending, r) && Channel(x, y) && Channel(y, x)
    ensures Channel(Framed(x, r), y) && Channel(y, Framed(x, r))
  {
    hide Schedules;
    SchedulesOn(x, r, CONNECTION);
    forall k ensures FlowOk(Framed(x, r), y, k) && FlowOk(y, Framed(x, r), k) {
      FramingKeepsFlow(x, y, r, k);
      FramingKeepsReverseFlow(x, y, r, k);
    }
    forall s ensures StreamOk(Framed(x, r), y, s) && StreamOk(y, Framed(x, r), s) {
      FramingKeepsStream(x, y, r, s);
      assert StreamOk(y, x, s);
    }
  }

  // ---------------------------------------------------------------- a frame arrives

  function Departed(x: Peer): Peer
    requires x.conn.outbox != []
  {
    x.(conn := x.conn.(outbox := x.conn.outbox[1..]))
  }

  function Arrived(y: Peer, f: Frame, keep: bool, serverSide: bool): Peer {
    Peer(y.conn.Receive(f, keep), y.pending, y.events + EventsOf(serverSide)(f))
  }

  lemma ArrivalKeepsTapes(x: Peer, y: Peer, keep: bool, serverSide: bool, s: StreamId)
    requires x.conn.outbox != []
    ensures var x', y' := Departed(x), Arrived(y, x.conn.outbox[0], keep, serverSide);
            && SentTape(x', y', s) == SentTape(x, y, s)
            && StreamTape(x', y', s) == StreamTape(x, y, s)
            && StreamTape(y', x', s) == StreamTape(y, x, s)
            && TapeOf(s, y'.conn.received) == TapeOf(s, y.conn.received) + FrameTape(x.conn.outbox[0], s)
  {
    hide FlatMap, FrameTape, PendingTape, EventsOf;
    var f := x.conn.outbox[0];
    FlatMapHead(OnStream(s), x.conn.outbox);
    FlatMapConcat(OnStream(s), y.conn.received, [f]);
    Associate(TapeOf(s, y.conn.received), FrameTape(f, s), TapeOf(s, x.conn.outbox[1..]));
  }

  lemma EventsCarryBytes(f: Frame, serverSide: bool, k: StreamId)
    ensures Sum(EventBytesOn(k), EventsOf(serverSide)(f)) == BytesOn(k)(f)
  {
    if !f.WindowUpdate? && f.end {
      assert EventsOf(serverSide)(f)[1..] == [StreamEnded(f.id)];
    }
  }

  lemma ArrivalKeepsFlow(x: Peer, y: Peer, keep: bool, serverSide: bool, k: StreamId)
    requires x.conn.outbox != [] && FlowOk(x, y, k)
    ensures FlowOk(Departed(x), Arrived(y, x.conn.outbox[0], keep, serverSide), k)
  {
    var f := x.conn.outbox[0];
    SumConcat(EventBytesOn(k), y.events, EventsOf(serverSide)(f));
    EventsCarryBytes(f, serverSide, k);
    assert Sum(BytesOn(k), x.conn.outbox) == BytesOn(k)(f) + Sum(BytesOn(k), x.conn.outbox[1..]);
  }

  lemma ArrivalKeepsReverseFlow(x: Peer, y: Peer, keep: bool, serverSide: bool, k: StreamId)
    requires x.conn.outbox != [] && FlowOk(y, x, k)
    ensures FlowOk(Arrived(y, x.conn.outbox[0], keep, serverSide), Departed(x), k)
  {
  }

  lemma FrameEnds(f: Frame, s: StreamId)
    ensures End in FrameTape(f, s) <==> f.id == s && !f.WindowUpdate? && f.end
  {
    if f.Data? {
      NoEndInBody(f.payload);
    }
  }

  lemma ArrivalKeepsStream(x: Peer, y: Peer, keep: bool, serverSide: bool, s: StreamId)
    requires x.conn.outbox != [] && StreamOk(x, y, s)
    ensures StreamOk(Departed(x), Arrived(y, x.conn.outbox[0], keep, serverSide), s)
  {
    var f := x.conn.outbox[0];
    ArrivalKeepsTapes(x, y, keep, serverSide, s);
    FrameEnds(f, s);
    assert Arrived(y, f, keep, serverSide).conn.remoteEnded
        == y.conn.remoteEnded + if !f.WindowUpdate? && f.end then {f.id} else {};
  }

  lemma ArrivalKeepsReverseStream(x: Peer, y: Peer, keep: bool, serverSide: bool, s: StreamId)
    requires x.conn.outbox != [] && StreamOk(y, x, s)
    ensures StreamOk(Arrived(y, x.conn.outbox[0], keep, serverSide), Departed(x), s)
  {
  }

  lemma ArrivalKeepsChannels(x: Peer, y: Peer, keep: bool, serverSide: bool)
    requires x.conn.outbox != [] && Channel(x, y) && Channel(y, x)
    ensures Channel(Departed(x), Arrived(y, x.conn.outbox[0], keep, serverSide))
    ensures Channel(Arrived(y, x.conn.outbox[0], keep, serverSide), Departed(x))
  {
    var x', y' := Departed(x), Arrived(y, x.conn.outbox[0], keep, serverSide);
    forall k ensures FlowOk(x', y', k) && FlowOk(y', x', k) {
      ArrivalKeepsFlow(x, y, keep, serverSide, k);
      ArrivalKeepsReverseFlow(x, y, keep, serverSide, k);
    }
    forall s ensures StreamOk(x', y', s) && StreamOk(y', x', s) {
      ArrivalKeepsStream(x, y, keep, serverSide, s);
      ArrivalKeepsReverseStream(x, y, keep, serverSide, s);
    }
    ArrivedEventsHaveStreams(x, y, serverSide);
  }

  lemma ArrivedEventsHaveStreams(x: Peer, y: Peer, serverSide: bool)
    requires x.conn.outbox != [] && StreamOk(x, y, x.conn.outbox[0].id)
    ensures forall e <- EventsOf(serverSide)(x.conn.outbox[0]) :: e.id > 0
  {
    var f := x.conn.outbox[0];
    assert TapeOf(f.id, x.conn.outbox) == FrameTape(f, f.id) + TapeOf(f.id, x.conn.outbox[1..]);
  }

  // ---------------------------------------------------------------- an event is handled

  function Skipped(y: Peer): Peer
    requires y.events != []
  {
    y.(events := y.events[1..])
  }

  lemma SkipKeepsChannels(x: Peer, y: Peer)
    requires Channel(x, y) && Channel(y, x)
    requires y.events != [] && !y.events[0].DataReceived?
    ensures Channel(x, Skipped(y)) && Channel(Skipped(y), x)
  {
    forall k ensures FlowOk(x, Skipped(y), k) && FlowOk(Skipped(y), x, k) {
      assert FlowOk(x, y, k) && FlowOk(y, x, k);
    }
    forall s ensures StreamOk(x, Skipped(y), s) && StreamOk(Skipped(y), x, s) {
      assert StreamOk(x, y, s) && StreamOk(y, x, s);
    }
  }

  /** The receiver acknowledges the data of the event and returns some credit. */
  function Acknowledged(y: Peer, connection: nat, stream: nat): Peer
    requires y.events != [] && y.events[0].DataReceived?
    requires y.conn.MayRelease(y.events[0].id, |y.events[0].data|, connection, stream)
  {
    Skipped(y).(conn := y.conn.Acknowledge(y.events[0].id, |y.events[0].data|, connection, stream))
  }

  lemma CreditFrames(id: StreamId, connection: nat, stream: nat, k: StreamId)
    requires id > 0
    ensures var fs := Credit(CONNECTION, connection) + Credit(id, stream);
            && Sum(CreditOn(k), fs) == (if k == CONNECTION then connection else if k == id then stream else 0)
            && Sum(BytesOn(k), fs) == 0 && TapeOf(k, fs) == []
  {
    SumConcat(CreditOn(k), Credit(CONNECTION, connection), Credit(id, stream));
    SumZero(BytesOn(k), Credit(CONNECTION, connection) + Credit(id, stream));
    FlatMapEmpty(OnStream(k), Credit(CONNECTION, connection) + Credit(id, stream));
  }

  lemma AcknowledgeKeepsFlow(x: Peer, y: Peer, connection: nat, stream: nat, k: StreamId)
    requires y.events != [] && y.events[0].DataReceived? && y.events[0].id > 0
    requires y.conn.MayRelease(y.events[0].id, |y.events[0].data|, connection, stream)
    ensures FlowOk(x, y, k) ==> FlowOk(x, Acknowledged(y, connection, stream), k)
    ensures FlowOk(y, x, k) ==> FlowOk(Acknowledged(y, connection, stream), x, k)
  {
    var id := y.events[0].id;
    var fs := Credit(CONNECTION, connection) + Credit(id, stream);
    CreditFrames(id, connection, stream, k);
    SumConcat(CreditOn(k), y.conn.outbox, fs);
    SumConcat(BytesOn(k), y.conn.outbox, fs);
  }

  lemma AcknowledgeKeepsTapes(x: Peer, y: Peer, connection: nat, stream: nat, s: StreamId)
    requires y.events != [] && y.events[0].DataReceived? && y.events[0].id > 0
    requires y.conn.MayRelease(y.events[0].id, |y.events[0].data|, connection, stream)
    ensures SentTape(Acknowledged(y, connection, stream), x, s) == SentTape(y, x, s)
    ensures StreamTape(x, Acknowledged(y, connection, stream), s) == StreamTape(x, y, s)
    ensures StreamTape(Acknowledged(y, connection, stream), x, s) == StreamTape(y, x, s)
  {
    var id := y.events[0].id;
    CreditFrames(id, connection, stream, s);
    FlatMapConcat(OnStream(s), y.conn.outbox, Credit(CONNECTION, connection) + Credit(id, stream));
  }

  lemma AcknowledgeKeepsChannels(x: Peer, y: Peer, connection: nat, stream: nat)
    requires Channel(x, y) && Channel(y, x)
    requires y.events != [] && y.events[0].DataReceived?
    requires y.conn.MayRelease(y.events[0].id, |y.events[0].data|, connection, stream)
    ensures Channel(x, Acknowledged(y, connection, stream)) && Channel(Acknowledged(y, connection, stream), x)
  {
    var y' := Acknowledged(y, connection, stream);
    forall k ensures FlowOk(x, y', k) && FlowOk(y', x, k) {
      assert FlowOk(x, y, k) && FlowOk(y, x, k);
      AcknowledgeKeepsFlow(x, y, connection, stream, k);
    }
    forall s ensures StreamOk(x, y', s) && StreamOk(y', x, s) {
      assert StreamOk(x, y, s) && StreamOk(y, x, s);
      AcknowledgeKeepsTapes(x, y, connection, stream, s);
    }
  }

  // ---------------------------------------------------------------- a message is started and queued

  function Opened(x: Peer, id: StreamId, end: bool): Peer {
    x.(conn := x.conn.SendHeaders(id, end))
  }

  function Queued(x: Peer, id: StreamId, chunk: Chunk): Peer {
    x.(pending := Enqueue(x.pending, id, chunk))
  }

  lemma OpenAppends(x: Peer, y: Peer, id: StreamId, end: bool, s: StreamId)
    requires StreamTape(x, y, id) == []
    ensures StreamTape(Opened(x, id, end), y, s) == if s == id then [Head] + EndMark(end) else StreamTape(x, y, s)
    ensures SentTape(Opened(x, id, end), y, s) == if s == id then [Head] + EndMark(end) else SentTape(x, y, s)
  {
    hide FlatMap, PendingTape;
    var a, b, c := TapeOf(s, y.conn.received), TapeOf(s, x.conn.outbox), PendingTape(x.pending, s);
    var t := FrameTape(Headers(id, end), s);
    FlatMapConcat(OnStream(s), x.conn.outbox, [Headers(id, end)]);
    assert s == id ==> a == [] && b == [] && c == [];
    InsertLast(a, b, t, c);
    InsertLast(a, b, t, []);
  }

  lemma OpenKeepsChannels(x: Peer, y: Peer, id: StreamId, end: bool)
    requires Channel(x, y) && Channel(y, x)
    requires id > 0 && StreamTape(x, y, id) == []
    ensures Channel(Opened(x, id, end), y) && Channel(y, Opened(x, id, end))
  {
    hide Sum, FlatMap, PendingTape;
    var x' := Opened(x, id, end);
    forall k ensures FlowOk(x', y, k) && FlowOk(y, x', k) {
      assert FlowOk(x, y, k) && FlowOk(y, x, k);
      SumConcat(BytesOn(k), x.conn.outbox, [Headers(id, end)]);
      SumConcat(CreditOn(k), x.conn.outbox, [Headers(id, end)]);
    }
    forall s ensures StreamOk(x', y, s) && StreamOk(y, x', s) {
      assert StreamOk(x, y, s) && StreamOk(y, x, s);
      OpenAppends(x, y, id, end, s);
    }
  }

  lemma QueueAppends(x: Peer, y: Peer, id: StreamId, chunk: Chunk, s: StreamId)
    requires PendingOk(x.pending)
    ensures StreamTape(Queued(x, id, chunk), y, s) == StreamTape(x, y, s) + if s == id then ChunkTape(chunk) else []
  {
    EnqueueAppends(x.pending, id, chunk, s);
    Associate(SentTape(x, y, s), PendingTape(x.pending, s), if s == id then ChunkTape(chunk) else []);
  }

  lemma QueueKeepsChannels(x: Peer, y: Peer, id: StreamId, chunk: Chunk)
    requires Channel(x, y) && Channel(y, x)
    requires id > 0 && End !in StreamTape(x, y, id)
    ensures Channel(Queued(x, id, chunk), y) && Channel(y, Queued(x, id, chunk))
  {
    var x' := Queued(x, id, chunk);
    EnqueueKeepsPendingOk(x.pending, id, chunk);
    forall k ensures FlowOk(x', y, k) && FlowOk(y, x', k) {
      assert FlowOk(x, y, k) && FlowOk(y, x, k);
    }
    forall s ensures StreamOk(x', y, s) && StreamOk(y, x', s) {
      assert StreamOk(x, y, s) && StreamOk(y, x, s);
      QueueAppends(x, y, id, chunk, s);
      NoEndInBody(chunk.data);
    }
  }
}
