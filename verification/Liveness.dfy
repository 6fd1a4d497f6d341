/** What the laws of `Direction` and `Exchange` amount to: every run is safe, `pump` cannot stop early,
    and a finished exchange has delivered every message. */
module Liveness {
  import opened Basics
  import opened Bodies
  import opened Folds
  import opened Http2
  import opened Flush
  import opened Direction
  import opened Exchange
  import opened NativeFlow
  import opened Progress

  /** The contract of section 6.9: a receiver may hold back less than `threshold` bytes of credit,
      and a whole window of acknowledged bytes is enough to make it return some. */
  predicate GoodLimits(limits: Limits) {
    0 < limits.frame && 0 < limits.threshold <= limits.window
  }

  // ---------------------------------------------------------------- every reachable state

  datatype Step =
    | Flushes(atServer: bool, framing: FlushResult)
    | Delivers(atServer: bool, keep: bool)
    | Consumes(atServer: bool, choice: Choice)
    | Handles(atServer: bool, connection: nat, stream: nat)
    | Opens(id: StreamId, end: bool)
    | Queues(id: StreamId, chunk: Chunk)
    | Submits(id: StreamId, data: seq<Byte>, end: bool)

  /** `Delivers` leaves data to be acknowledged when it is handled, `Consumes` acknowledges it on arrival. `Opens`,
      `Queues` and `Submits` are the client's calls: a new stream, and data on one that is not ended, which is kept
      in cells or appended to the body in the library. */
  ghost predicate Enabled(w: World, step: Step) {
    match step
    case Flushes(atServer, r) => MayFlush(w, atServer, r)
    case Delivers(atServer, _) => w.Sender(atServer).conn.outbox != []
    case Consumes(atServer, c) =>
      w.Sender(atServer).conn.outbox != [] && MayTake(w.Receiver(atServer).conn, w.Sender(atServer).conn.outbox[0], c)
    case Handles(atServer, connection, stream) => CanHandle(w, atServer, connection, stream)
    case Opens(id, _) => id > 0 && StreamTape(w.client, w.server, id) == []
    case Queues(id, _) => id > 0 && End !in StreamTape(w.client, w.server, id)
    case Submits(id, _, _) => id > 0 && End !in StreamTape(w.client, w.server, id)
  }

  ghost function Next(w: World, step: Step, body: seq<Byte>): World
    requires Enabled(w, step)
  {
    match step
    case Flushes(atServer, r) => Flushed(w, atServer, r)
    case Delivers(atServer, keep) => Delivered(w, atServer, keep)
    case Consumes(atServer, c) => Consumed(w, atServer, c)
    case Handles(atServer, connection, stream) => Handled(w, atServer, body, connection, stream)
    case Opens(id, end) => w.(client := Opened(w.client, id, end))
    case Queues(id, chunk) => w.(client := Queued(w.client, id, chunk))
    case Submits(id, data, end) => w.(client := Submitted(w.client, id, data, end))
  }

  /** After the handshake. */
  function Start(limits: Limits): World {
    World(Peer(Fresh(limits), [], []), Peer(Fresh(limits), [], []), [0, 0, 0, 0])
  }

  ghost predicate IsRun(limits: Limits, run: seq<World>, steps: seq<Step>, body: seq<Byte>) {
    && |run| == |steps| + 1
    && run[0] == Start(limits)
    && forall i :: 0 <= i < |steps| ==> Enabled(run[i], steps[i]) && run[i + 1] == Next(run[i], steps[i], body)
  }

  lemma InitiallyInv(limits: Limits, body: seq<Byte>)
    requires limits.threshold > 0
    ensures Inv(Start(limits), body)
  {
    var p := Peer(Fresh(limits), [], []);
    forall k ensures FlowOk(p, p, k) {
    }
    forall s ensures StreamOk(p, p, s) && AnswerOk(p, p, body, s) {
    }
  }

  lemma OpenKeepsInv(w: World, id: StreamId, end: bool, body: seq<Byte>)
    requires Inv(w, body) && id > 0 && StreamTape(w.client, w.server, id) == []
    ensures Inv(w.(client := Opened(w.client, id, end)), body)
  {
    OpenKeepsChannels(w.client, w.server, id, end);
    forall s ensures AnswerOk(Opened(w.client, id, end), w.server, body, s) {
      assert AnswerOk(w.client, w.server, body, s);
    }
  }

  lemma QueueKeepsInv(w: World, id: StreamId, chunk: Chunk, body: seq<Byte>)
    requires Inv(w, body) && id > 0 && End !in StreamTape(w.client, w.server, id)
    ensures Inv(w.(client := Queued(w.client, id, chunk)), body)
  {
    QueueKeepsChannels(w.client, w.server, id, chunk);
    forall s ensures AnswerOk(Queued(w.client, id, chunk), w.server, body, s) {
      assert AnswerOk(w.client, w.server, body, s);
    }
  }

  lemma SubmitKeepsInv(w: World, id: StreamId, data: seq<Byte>, end: bool, body: seq<Byte>)
    requires Inv(w, body) && id > 0 && End !in StreamTape(w.client, w.server, id)
    ensures Inv(w.(client := Submitted(w.client, id, data, end)), body)
  {
    SubmitKeepsChannels(w.client, w.server, id, data, end);
    forall s ensures AnswerOk(Submitted(w.client, id, data, end), w.server, body, s) {
      assert AnswerOk(w.client, w.server, body, s);
    }
  }

  lemma NextKeepsInv(w: World, step: Step, body: seq<Byte>)
    requires Inv(w, body) && Enabled(w, step)
    ensures Inv(Next(w, step, body), body)
  {
    match step
    case Flushes(atServer, r) => FlushKeepsInv(w, atServer, r, body);
    case Delivers(atServer, keep) => ArrivalKeepsInv(w, atServer, keep, body);
    case Consumes(atServer, c) => ConsumeKeepsInv(w, atServer, c, body);
    case Handles(atServer, connection, stream) => HandleKeepsInv(w, atServer, body, connection, stream);
    case Opens(id, end) => OpenKeepsInv(w, id, end, body);
    case Queues(id, chunk) => QueueKeepsInv(w, id, chunk, body);
    case Submits(id, data, end) => SubmitKeepsInv(w, id, data, end, body);
  }

  /** Safety over whole runs of either library, for every framer and every interleaving of flushes, deliveries,
      handled events and client calls: both laws of both directions hold, and no stream is answered twice. */
  lemma {:induction false} EveryRunIsSafe(limits: Limits, run: seq<World>, steps: seq<Step>, body: seq<Byte>)
    requires limits.threshold > 0 && IsRun(limits, run, steps, body)
    ensures forall w <- run :: Inv(w, body)
    decreases |steps|
  {
    if steps == [] {
      InitiallyInv(limits, body);
    } else {
      var n := |steps| - 1;
      EveryRunIsSafe(limits, run[..n + 1], steps[..n], body);
      assert run[n] in run[..n + 1];
      NextKeepsInv(run[n], steps[n], body);
      assert run == run[..n + 1] + [run[n + 1]];
    }
  }

  // ---------------------------------------------------------------- consequences of a sound direction

  /** Windows stay within their initial size, and data never overruns what the receiver granted. */
  lemma WindowsAreRespected(x: Peer, y: Peer, k: StreamId)
    requires Channel(x, y)
    ensures 0 <= x.conn.Window(k) <= x.conn.limits.window
    ensures Sum(BytesOn(k), x.conn.outbox) + Sum(EventBytesOn(k), y.events) + y.conn.Withheld(k) <= x.conn.limits.window
  {
    assert FlowOk(x, y, k);
  }

  /** A queue that `flush` may frame without a protocol error. */
  predicate Legal(e: Endpoint, id: StreamId, q: Queue) {
    && id > 0
    && (q != [] ==> id !in e.localEnded)
    && forall i :: 0 <= i < |q| - 1 ==> !q[i].end
  }

  lemma {:induction false} EndOnlyOnLastChunk(q: Queue)
    requires WellEnded(QueueTape(q))
    ensures forall i :: 0 <= i < |q| - 1 ==> !q[i].end
  {
    if |q| > 1 {
      var t, rest := ChunkTape(q[0]), QueueTape(q[1..]);
      assert QueueTape(q) == t + rest;
      assert rest == ChunkTape(q[1]) + QueueTape(q[1..][1..]);
      assert t[|t| - 1] == QueueTape(q)[|t| - 1];
      forall i | 0 <= i < |rest| - 1 ensures rest[i] != End {
        assert rest[i] == QueueTape(q)[|t| + i];
      }
      EndOnlyOnLastChunk(q[1..]);
      assert forall i :: 1 <= i < |q| - 1 ==> q[i] == q[1..][i - 1];
    }
  }

  lemma {:induction false} EntryInPending(entries: seq<Entry>, p: Entry)
    requires PendingOk(entries) && p in entries
    ensures PendingTape(entries, p.id) == QueueTape(p.queue)
  {
    if entries[0] == p {
      FlatMapEmpty(EntryTape(p.id), entries[1..]);
    } else {
      EntryInPending(entries[1..], p);
    }
  }

  /** Nothing is queued on a stream after its END_STREAM, so `flush` never misuses the connection. */
  lemma PendingIsLegal(x: Peer, y: Peer, p: Entry)
    requires Channel(x, y) && p in x.pending
    ensures Legal(x.conn, p.id, p.queue)
  {
    assert StreamOk(x, y, p.id);
    EntryInPending(x.pending, p);
    var t, sent, q := StreamTape(x, y, p.id), SentTape(x, y, p.id), QueueTape(p.queue);
    assert q == ChunkTape(p.queue[0]) + QueueTape(p.queue[1..]);
    forall i | 0 <= i < |q| - 1 ensures q[i] != End {
      assert q[i] == t[|sent| + i];
    }
    EndOnlyOnLastChunk(p.queue);
    forall i | 0 <= i < |sent| ensures sent[i] != End {
      assert sent[i] == t[i];
    }
  }

  ghost predicate AllLegal(e: Endpoint, entries: seq<Entry>) {
    && PendingOk(entries)
    && forall p <- entries :: Legal(e, p.id, p.queue)
  }

  /** The receiver's oldest event names a stream, and a request that has just ended has no response yet. */
  lemma HandleIsLegal(w: World, atServer: bool, body: seq<Byte>)
    requires Inv(w, body) && w.Receiver(atServer).events != []
    ensures var e := w.Receiver(atServer).events[0];
            && e.id > 0
            && (atServer && e.StreamEnded? ==> StreamTape(w.server, w.client, e.id) == [])
            && (atServer && e.StreamEnded? ==> e.id !in w.server.conn.localEnded)
  {
    var e := w.Receiver(atServer).events[0];
    if atServer && e.StreamEnded? {
      assert AnswerOk(w.client, w.server, body, e.id) && StreamOk(w.server, w.client, e.id);
      NotYetAnswered(w, body);
    }
  }

  /** Deadlock freedom: with nothing in flight either way and everything acknowledged, a queued
      stream always finds both of its windows open. */
  lemma NoDeadlock(x: Peer, y: Peer, p: Entry)
    requires GoodLimits(x.conn.limits) && Channel(x, y)
    requires x.conn.outbox == [] && y.conn.outbox == [] && y.events == []
    requires p in x.pending
    ensures x.conn.Capacity(p.id) > 0
  {
    PendingIsLegal(x, y, p);
    assert StreamOk(x, y, p.id) && StreamOk(x, y, CONNECTION);
    assert FlowOk(x, y, p.id) && FlowOk(x, y, CONNECTION);
  }

  /** What a `deliver` that moved nothing leaves at its source. */
  predicate Stuck(x: Peer) {
    x.conn.outbox == [] && forall p <- x.pending :: x.conn.Capacity(p.id) == 0
  }

  predicate Quiescent(w: World) {
    && w.client.conn.outbox == [] && w.client.pending == [] && w.client.events == []
    && w.server.conn.outbox == [] && w.server.pending == [] && w.server.events == []
  }

  /** When both directions are stuck, nothing is left anywhere. */
  lemma StuckIsQuiescent(w: World, body: seq<Byte>)
    requires Inv(w, body) && GoodLimits(w.client.conn.limits)
    requires Stuck(w.client) && Stuck(w.server) && w.client.events == [] && w.server.events == []
    ensures Quiescent(w)
  {
    if w.client.pending != [] {
      NoDeadlock(w.client, w.server, w.client.pending[0]);
    }
    if w.server.pending != [] {
      NoDeadlock(w.server, w.client, w.server.pending[0]);
    }
  }

  /** A quiescent exchange has counted what it was bound for; every message the client queued has arrived
      whole, and exactly the streams whose request ended carry the response. */
  lemma QuiescentIsComplete(w: World, body: seq<Byte>, s: StreamId)
    requires Inv(w, body) && Quiescent(w)
    ensures w.totals == Outcome(w, body)
    ensures TapeOf(s, w.server.conn.received) == StreamTape(w.client, w.server, s)
    ensures TapeOf(s, w.client.conn.received)
         == if End in TapeOf(s, w.server.conn.received) then MessageTape(BodyParts(body)) else []
  {
    assert AnswerOk(w.client, w.server, body, s);
    assert StreamTape(w.server, w.client, s) == TapeOf(s, w.client.conn.received);
    assert EndsLeft(w) == 0;
  }
}
