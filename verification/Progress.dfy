/** What is left to do in an exchange: the totals it will end with, and why it ends. */
module Progress {
  import opened Basics
  import opened Folds
  import opened Http2
  import opened Flush
  import opened Direction
  import opened Exchange

  function HeadsOf(f: Frame): nat { if f.Headers? then 1 else 0 }
  function FrameWork(f: Frame): nat { if f.Data? then 3 else 1 }
  function EventRequests(e: Event): nat { if e.RequestReceived? then 1 else 0 }
  function EventResponses(e: Event): nat { if e.ResponseReceived? then 1 else 0 }
  function EventOctets(e: Event): nat { if e.DataReceived? || e.DataConsumed? then |e.data| else 0 }
  function EventEnds(e: Event): nat { if e.StreamEnded? then 1 else 0 }
  function EventWork(e: Event): nat { if e.DataReceived? then 2 else 0 }

  /** Queued or in flight from `p`. */
  function OutHeads(p: Peer): nat { Sum(HeadsOf, p.conn.outbox) }
  function OutBytes(p: Peer): nat { Sum(EntryBytes, p.pending) + Bytes(p.conn.outbox) }
  function OutEnds(p: Peer): nat { Sum(EntryEnds, p.pending) + Sum(EndsOf, p.conn.outbox) }
  function OutWork(p: Peer): nat { 4 * Sum(EntryWork, p.pending) + Sum(FrameWork, p.conn.outbox) }

  /** Received by `p` but not handled. */
  function InRequests(p: Peer): nat { Sum(EventRequests, p.events) }
  function InResponses(p: Peer): nat { Sum(EventResponses, p.events) }
  function InBytes(p: Peer): nat { Sum(EventOctets, p.events) }
  function InEnds(p: Peer): nat { Sum(EventEnds, p.events) }
  function InWork(p: Peer): nat { Sum(EventWork, p.events) }

  /** Requests whose end the server has not handled: each will produce one response. */
  function EndsLeft(w: World): nat { OutEnds(w.client) + InEnds(w.server) }

  function Times(a: nat, n: nat): nat {
    if n == 0 then 0 else a + Times(a, n - 1)
  }

  /** The totals once everything queued, in flight, unhandled or still unanswered has been counted. */
  function Outcome(w: World, body: seq<Byte>): seq<nat>
    requires |w.totals| == 4
  {
    [w.totals[0] + OutHeads(w.client) + InRequests(w.server) + InRequests(w.client),
     w.totals[1] + OutBytes(w.client) + InBytes(w.server),
     w.totals[2] + EndsLeft(w) + OutHeads(w.server) + InResponses(w.server) + InResponses(w.client),
     w.totals[3] + Times(|body|, EndsLeft(w)) + OutBytes(w.server) + InBytes(w.client)]
  }

  function ResponseWork(body: seq<Byte>): nat {
    1 + if body == [] then 0 else 4 * (|body| + 1)
  }

  /** Work that can still be done. A DATA frame outweighs the two WINDOW_UPDATE frames it may cause, a
      queued byte outweighs its frame, and a request carries the work of its response. */
  function Potential(w: World, body: seq<Byte>): nat {
    OutWork(w.client) + InWork(w.client) + OutWork(w.server) + InWork(w.server) + Times(ResponseWork(body), EndsLeft(w))
  }

  // ---------------------------------------------------------------- one peer

  lemma FramingLoad(p: Peer, r: FlushResult)
    requires Schedules(p.conn, p.pending, r)
    ensures var p' := Framed(p, r);
            && OutHeads(p') == OutHeads(p) && OutBytes(p') == OutBytes(p) && OutEnds(p') == OutEnds(p)
            && OutWork(p') + |r.frames| <= OutWork(p)
  {
    SumConcat(HeadsOf, p.conn.outbox, r.frames);
    SumConcat(BytesOn(CONNECTION), p.conn.outbox, r.frames);
    SumConcat(EndsOf, p.conn.outbox, r.frames);
    SumConcat(FrameWork, p.conn.outbox, r.frames);
    SumZero(HeadsOf, r.frames);
    DataWork(r.frames);
  }

  lemma {:induction false} DataWork(frames: seq<Frame>)
    requires forall f <- frames :: f.Data?
    ensures Sum(FrameWork, frames) == 3 * |frames|
  {
    if frames != [] {
      DataWork(frames[1..]);
    }
  }

  lemma DepartureLoad(x: Peer)
    requires x.conn.outbox != []
    ensures var f := x.conn.outbox[0];
            && OutHeads(x) == OutHeads(Departed(x)) + HeadsOf(f)
            && OutBytes(x) == OutBytes(Departed(x)) + BytesOn(CONNECTION)(f)
            && OutEnds(x) == OutEnds(Departed(x)) + EndsOf(f)
            && OutWork(x) == OutWork(Departed(x)) + FrameWork(f)
  {
  }

  lemma EventsLoad(f: Frame, serverSide: bool)
    ensures var es := EventsOf(serverSide)(f);
            && Sum(EventRequests, es) == (if serverSide then HeadsOf(f) else 0)
            && Sum(EventResponses, es) == (if serverSide then 0 else HeadsOf(f))
            && Sum(EventOctets, es) == BytesOn(CONNECTION)(f)
            && Sum(EventEnds, es) == EndsOf(f)
            && Sum(EventWork, es) + 1 <= FrameWork(f)
  {
    if !f.WindowUpdate? && f.end {
      assert EventsOf(serverSide)(f)[1..] == [StreamEnded(f.id)];
    }
  }

  lemma ArrivalLoad(y: Peer, f: Frame, keep: bool, serverSide: bool)
    ensures var y' := Arrived(y, f, keep, serverSide);
            && InRequests(y') == InRequests(y) + (if serverSide then HeadsOf(f) else 0)
            && InResponses(y') == InResponses(y) + (if serverSide then 0 else HeadsOf(f))
            && InBytes(y') == InBytes(y) + BytesOn(CONNECTION)(f)
            && InEnds(y') == InEnds(y) + EndsOf(f)
            && InWork(y') + 1 <= InWork(y) + FrameWork(f)
  {
    var es := EventsOf(serverSide)(f);
    EventsLoad(f, serverSide);
    SumConcat(EventRequests, y.events, es);
    SumConcat(EventResponses, y.events, es);
    SumConcat(EventOctets, y.events, es);
    SumConcat(EventEnds, y.events, es);
    SumConcat(EventWork, y.events, es);
  }

  lemma SkipLoad(y: Peer)
    requires y.events != []
    ensures var e := y.events[0];
            && InRequests(y) == InRequests(Skipped(y)) + EventRequests(e)
            && InResponses(y) == InResponses(Skipped(y)) + EventResponses(e)
            && InBytes(y) == InBytes(Skipped(y)) + EventOctets(e)
            && InEnds(y) == InEnds(Skipped(y)) + EventEnds(e)
            && InWork(y) == InWork(Skipped(y)) + EventWork(e)
  {
  }

  lemma CreditLoad(outbox: seq<Frame>, id: StreamId, connection: nat, stream: nat)
    ensures var all := outbox + (Credit(CONNECTION, connection) + Credit(id, stream));
            && Sum(HeadsOf, all) == Sum(HeadsOf, outbox) && Bytes(all) == Bytes(outbox)
            && Sum(EndsOf, all) == Sum(EndsOf, outbox)
            && Sum(FrameWork, all) <= Sum(FrameWork, outbox) + 2
  {
    var fs := Credit(CONNECTION, connection) + Credit(id, stream);
    SumConcat(HeadsOf, outbox, fs);
    SumConcat(BytesOn(CONNECTION), outbox, fs);
    SumConcat(EndsOf, outbox, fs);
    SumConcat(FrameWork, outbox, fs);
    SumZero(HeadsOf, fs);
    SumZero(BytesOn(CONNECTION), fs);
    SumZero(EndsOf, fs);
    SumConcat(FrameWork, Credit(CONNECTION, connection), Credit(id, stream));
  }

  lemma AcknowledgeLoad(y: Peer, connection: nat, stream: nat)
    requires y.events != [] && y.events[0].DataReceived?
    requires y.conn.MayRelease(y.events[0].id, |y.events[0].data|, connection, stream)
    ensures var y' := Acknowledged(y, connection, stream);
            && OutHeads(y') == OutHeads(y) && OutBytes(y') == OutBytes(y) && OutEnds(y') == OutEnds(y)
            && OutWork(y') <= OutWork(y) + 2
  {
    CreditLoad(y.conn.outbox, y.events[0].id, connection, stream);
  }

  lemma OpenLoad(x: Peer, id: StreamId, end: bool)
    ensures var x' := Opened(x, id, end);
            && OutHeads(x') == OutHeads(x) + 1 && OutBytes(x') == OutBytes(x)
            && OutEnds(x') == OutEnds(x) + (if end then 1 else 0)
            && OutWork(x') == OutWork(x) + 1
  {
    var fs := [Headers(id, end)];
    SumConcat(HeadsOf, x.conn.outbox, fs);
    SumConcat(BytesOn(CONNECTION), x.conn.outbox, fs);
    SumConcat(EndsOf, x.conn.outbox, fs);
    SumConcat(FrameWork, x.conn.outbox, fs);
  }

  lemma QueueLoad(x: Peer, id: StreamId, chunk: Chunk)
    ensures var x' := Queued(x, id, chunk);
            && OutHeads(x') == OutHeads(x) && OutBytes(x') == OutBytes(x) + |chunk.data|
            && OutEnds(x') == OutEnds(x) + (if chunk.end then 1 else 0)
            && OutWork(x') == OutWork(x) + 4 * (|chunk.data| + 1)
  {
    EnqueueAdds(x.pending, id, chunk);
  }

  lemma ResponseLoad(y: Peer, id: StreamId, body: seq<Byte>)
    ensures var y' := Responded(y, id, body);
            && OutHeads(y') == OutHeads(y) + 1 && OutBytes(y') == OutBytes(y) + |body|
            && OutWork(y') == OutWork(y) + ResponseWork(body)
  {
    OpenLoad(y, id, body == []);
    if body != [] {
      QueueLoad(Opened(y, id, false), id, Chunk(body, true));
    }
  }

  // ---------------------------------------------------------------- transitions of the exchange

  /** What every transition of `pump` does: it keeps the invariant, the messages the client queued and the
      totals the exchange is bound for, and never adds work. */
  ghost predicate Evolves(w: World, w': World, body: seq<Byte>) {
    && Inv(w, body) && Inv(w', body)
    && Outcome(w', body) == Outcome(w, body)
    && Potential(w', body) <= Potential(w, body)
    && w'.client.conn.limits == w.client.conn.limits
    && forall s :: StreamTape(w'.client, w'.server, s) == StreamTape(w.client, w.server, s)
  }

  lemma EvolvesTransitively(a: World, b: World, c: World, body: seq<Byte>)
    requires Evolves(a, b, body) && Evolves(b, c, body)
    ensures Evolves(a, c, body)
  {
    forall s ensures StreamTape(c.client, c.server, s) == StreamTape(a.client, a.server, s) {
      assert StreamTape(b.client, b.server, s) == StreamTape(a.client, a.server, s);
    }
  }

  /** Replacing the sender by one that owes the same. */
  lemma SenderLoad(w: World, atServer: bool, x: Peer, body: seq<Byte>)
    requires |w.totals| == 4
    requires var x0 := w.Sender(atServer);
             && x.events == x0.events && OutHeads(x) == OutHeads(x0) && OutBytes(x) == OutBytes(x0)
             && OutEnds(x) == OutEnds(x0) && OutWork(x) <= OutWork(x0)
    ensures var w' := w.With(atServer, x, w.Receiver(atServer));
            && Outcome(w', body) == Outcome(w, body) && Potential(w', body) <= Potential(w, body)
  {
    assert EndsLeft(w.With(atServer, x, w.Receiver(atServer))) == EndsLeft(w);
  }

  lemma FlushWorldLoad(w: World, atServer: bool, r: FlushResult, body: seq<Byte>)
    requires |w.totals| == 4 && MayFlush(w, atServer, r)
    ensures Outcome(Flushed(w, atServer, r), body) == Outcome(w, body)
    ensures Potential(Flushed(w, atServer, r), body) <= Potential(w, body)
  {
    FramingLoad(w.Sender(atServer), r);
    SenderLoad(w, atServer, Framed(w.Sender(atServer), r), body);
  }

  lemma FlushEvolves(w: World, atServer: bool, r: FlushResult, body: seq<Byte>)
    requires Inv(w, body) && MayFlush(w, atServer, r)
    ensures Evolves(w, Flushed(w, atServer, r), body)
  {
    hide Schedules;
    FlushKeepsInv(w, atServer, r, body);
    FlushWorldLoad(w, atServer, r, body);
    var w' := Flushed(w, atServer, r);
    SchedulesOn(w.Sender(atServer), r, CONNECTION);
    forall s ensures StreamTape(w'.client, w'.server, s) == StreamTape(w.client, w.server, s) {
      SchedulesOn(w.Sender(atServer), r, s);
      if atServer {
        FramingKeepsStreamTape(w.client, w.server, r, s);
      }
    }
  }

  lemma ArrivalKeepsOutcome(w: World, atServer: bool, keep: bool, body: seq<Byte>)
    requires |w.totals| == 4 && w.Sender(atServer).conn.outbox != []
    ensures Outcome(Delivered(w, atServer, keep), body) == Outcome(w, body)
  {
    hide Sum, EventsOf;
    DepartureLoad(w.Sender(atServer));
    ArrivalLoad(w.Receiver(atServer), w.Sender(atServer).conn.outbox[0], keep, atServer);
    assert EndsLeft(Delivered(w, atServer, keep)) == EndsLeft(w);
  }

  lemma ArrivalLowersPotential(w: World, atServer: bool, keep: bool, body: seq<Byte>)
    requires |w.totals| == 4 && w.Sender(atServer).conn.outbox != []
    ensures Potential(Delivered(w, atServer, keep), body) < Potential(w, body)
  {
    DepartureLoad(w.Sender(atServer));
    ArrivalLoad(w.Receiver(atServer), w.Sender(atServer).conn.outbox[0], keep, atServer);
    assert EndsLeft(Delivered(w, atServer, keep)) == EndsLeft(w);
  }

  lemma ArrivalEvolves(w: World, atServer: bool, keep: bool, body: seq<Byte>)
    requires Inv(w, body) && w.Sender(atServer).conn.outbox != []
    ensures Evolves(w, Delivered(w, atServer, keep), body)
    ensures Potential(Delivered(w, atServer, keep), body) < Potential(w, body)
  {
    ArrivalKeepsInv(w, atServer, keep, body);
    ArrivalKeepsOutcome(w, atServer, keep, body);
    ArrivalLowersPotential(w, atServer, keep, body);
    var w' := Delivered(w, atServer, keep);
    forall s ensures StreamTape(w'.client, w'.server, s) == StreamTape(w.client, w.server, s) {
      ArrivalKeepsTapes(w.Sender(atServer), w.Receiver(atServer), keep, atServer, s);
    }
  }

  /** Answering consumes one end mark and pays for exactly one response. */
  lemma RespondLoad(w: World, body: seq<Byte>)
    requires CanHandle(w, true, 0, 0) && w.server.events[0].StreamEnded?
    ensures Outcome(Handled(w, true, body, 0, 0), body) == Outcome(w, body)
    ensures Potential(Handled(w, true, body, 0, 0), body) <= Potential(w, body)
  {
    hide Sum, Enqueue;
    var w' := Handled(w, true, body, 0, 0);
    SkipLoad(w.server);
    ResponseLoad(Skipped(w.server), w.server.events[0].id, body);
    assert EndsLeft(w) == EndsLeft(w') + 1;
    assert Times(|body|, EndsLeft(w)) == |body| + Times(|body|, EndsLeft(w'));
    assert Times(ResponseWork(body), EndsLeft(w)) == ResponseWork(body) + Times(ResponseWork(body), EndsLeft(w'));
  }

  lemma CountLoad(w: World, atServer: bool, body: seq<Byte>, connection: nat, stream: nat)
    requires CanHandle(w, atServer, connection, stream) && !(atServer && w.server.events[0].StreamEnded?)
    ensures Outcome(Handled(w, atServer, body, connection, stream), body) == Outcome(w, body)
    ensures Potential(Handled(w, atServer, body, connection, stream), body) <= Potential(w, body)
  {
    hide Sum, Credit;
    var y, w' := w.Receiver(atServer), Handled(w, atServer, body, connection, stream);
    SkipLoad(y);
    if y.events[0].DataReceived? {
      AcknowledgeLoad(y, connection, stream);
      assert EndsLeft(w') == EndsLeft(w);
    } else {
      assert EndsLeft(w') == EndsLeft(w);
    }
  }

  lemma HandleLoad(w: World, atServer: bool, body: seq<Byte>, connection: nat, stream: nat)
    requires CanHandle(w, atServer, connection, stream)
    ensures Outcome(Handled(w, atServer, body, connection, stream), body) == Outcome(w, body)
    ensures Potential(Handled(w, atServer, body, connection, stream), body) <= Potential(w, body)
  {
    if atServer && w.server.events[0].StreamEnded? {
      RespondLoad(w, body);
    } else {
      CountLoad(w, atServer, body, connection, stream);
    }
  }

  lemma HandleKeepsRequestTape(w: World, atServer: bool, body: seq<Byte>, connection: nat, stream: nat, s: StreamId)
    requires CanHandle(w, atServer, connection, stream) && w.Receiver(atServer).events[0].id > 0
    ensures var w' := Handled(w, atServer, body, connection, stream);
            StreamTape(w'.client, w'.server, s) == StreamTape(w.client, w.server, s)
  {
    if w.Receiver(atServer).events[0].DataReceived? {
      AcknowledgeKeepsTapes(w.Sender(atServer), w.Receiver(atServer), connection, stream, s);
    }
  }

  lemma HandleEvolves(w: World, atServer: bool, body: seq<Byte>, connection: nat, stream: nat)
    requires Inv(w, body) && CanHandle(w, atServer, connection, stream)
    ensures Evolves(w, Handled(w, atServer, body, connection, stream), body)
  {
    HandleKeepsInv(w, atServer, body, connection, stream);
    HandleLoad(w, atServer, body, connection, stream);
    var w' := Handled(w, atServer, body, connection, stream);
    forall s ensures StreamTape(w'.client, w'.server, s) == StreamTape(w.client, w.server, s) {
      HandleKeepsRequestTape(w, atServer, body, connection, stream, s);
    }
  }

  lemma EvolvesReflexively(w: World, body: seq<Byte>)
    requires Inv(w, body)
    ensures Evolves(w, w, body)
  {
  }

  // ---------------------------------------------------------------- a batch of frames

  /** The sender's oldest frames arrive one after the other. */
  function BatchDelivered(w: World, atServer: bool, keeps: seq<bool>): World
    requires |keeps| <= |w.Sender(atServer).conn.outbox|
    decreases |keeps|
  {
    if keeps == [] then w else BatchDelivered(Delivered(w, atServer, keeps[0]), atServer, keeps[1..])
  }

  lemma {:induction false} BatchEvolves(w: World, atServer: bool, keeps: seq<bool>, body: seq<Byte>)
    requires Inv(w, body) && |keeps| <= |w.Sender(atServer).conn.outbox|
    ensures Evolves(w, BatchDelivered(w, atServer, keeps), body)
    ensures keeps != [] ==> Potential(BatchDelivered(w, atServer, keeps), body) < Potential(w, body)
    decreases |keeps|
  {
    hide Inv, Potential, Outcome;
    if keeps == [] {
      EvolvesReflexively(w, body);
    } else {
      var next := Delivered(w, atServer, keeps[0]);
      ArrivalEvolves(w, atServer, keeps[0], body);
      BatchEvolves(next, atServer, keeps[1..], body);
      EvolvesTransitively(w, next, BatchDelivered(w, atServer, keeps), body);
    }
  }

  lemma {:induction false} BatchIsReceived(w: World, atServer: bool, keeps: seq<bool>)
    requires |keeps| <= |w.Sender(atServer).conn.outbox|
    ensures var x, y, n := w.Sender(atServer), w.Receiver(atServer), |keeps|;
            BatchDelivered(w, atServer, keeps)
            == w.With(atServer, x.(conn := x.conn.(outbox := x.conn.outbox[n..])),
                      Peer(ReceiveAll(y.conn, x.conn.outbox[..n], keeps), y.pending,
                           y.events + FlatMap(EventsOf(atServer), x.conn.outbox[..n])))
    decreases |keeps|
  {
    var x, y, n := w.Sender(atServer), w.Receiver(atServer), |keeps|;
    if keeps != [] {
      var f, more := x.conn.outbox[0], x.conn.outbox[1..];
      BatchIsReceived(Delivered(w, atServer, keeps[0]), atServer, keeps[1..]);
      assert x.conn.outbox[..n][1..] == more[..n - 1] && more[n - 1..] == x.conn.outbox[n..];
      Associate(y.events, EventsOf(atServer)(f), FlatMap(EventsOf(atServer), more[..n - 1]));
    }
  }

  lemma EvolvesKeeps(w: World, w': World, body: seq<Byte>)
    requires Evolves(w, w', body)
    ensures Inv(w', body) && Potential(w', body) <= Potential(w, body)
    ensures w'.client.conn.limits == w.client.conn.limits == w'.server.conn.limits == w.server.conn.limits
    ensures forall s :: StreamTape(w'.client, w'.server, s) == StreamTape(w.client, w.server, s)
  {
  }
}
