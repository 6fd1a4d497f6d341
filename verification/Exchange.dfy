/** Both directions together: the transitions of `H2Exchange` and what every one of them keeps. */
module Exchange {
  import opened Basics
  import opened Folds
  import opened Http2
  import opened Flush
  import opened Direction

  /** `totals`: requests received, request bytes, responses received, response bytes. */
  datatype World = World(client: Peer, server: Peer, totals: seq<nat>) {
    function Sender(atServer: bool): Peer { if atServer then client else server }
    function Receiver(atServer: bool): Peer { if atServer then server else client }

    function With(atServer: bool, sender: Peer, receiver: Peer): World {
      if atServer then World(sender, receiver, totals) else World(receiver, sender, totals)
    }
  }

  function MessageTape(parts: seq<seq<Byte>>): Tape {
    [Head] + FlatMap(Body, parts) + [End]
  }

  function BodyParts(body: seq<Byte>): seq<seq<Byte>> {
    if body == [] then [] else [body]
  }

  function EndedOn(id: StreamId): Event -> nat {
    (e: Event) => if e == StreamEnded(id) then 1 else 0
  }

  /** A request is answered once: before its `StreamEnded` is handled there is no response, afterwards the
      response of its stream is there, whole, and no second `StreamEnded` waits. */
  predicate AnswerOk(client: Peer, server: Peer, body: seq<Byte>, id: StreamId) {
    var answer := StreamTape(server, client, id);
    && (answer == [] || answer == MessageTape(BodyParts(body)))
    && (if End in TapeOf(id, server.conn.received) then 1 else 0)
       == Sum(EndedOn(id), server.events) + (if answer == [] then 0 else 1)
  }

  ghost predicate Inv(w: World, body: seq<Byte>) {
    && |w.totals| == 4
    && Channel(w.client, w.server) && Channel(w.server, w.client)
    && forall id :: AnswerOk(w.client, w.server, body, id)
  }

  // ---------------------------------------------------------------- transitions

  function Flushed(w: World, atServer: bool, r: FlushResult): World {
    w.With(atServer, Framed(w.Sender(atServer), r), w.Receiver(atServer))
  }

  ghost predicate MayFlush(w: World, atServer: bool, r: FlushResult) {
    Schedules(w.Sender(atServer).conn, w.Sender(atServer).pending, r)
  }

  /** The oldest frame of the sender reaches the receiver. */
  function Delivered(w: World, atServer: bool, keep: bool): World
    requires w.Sender(atServer).conn.outbox != []
  {
    var x := w.Sender(atServer);
    w.With(atServer, Departed(x), Arrived(w.Receiver(atServer), x.conn.outbox[0], keep, atServer))
  }

  function CountedBytes(totals: seq<nat>, atServer: bool, n: nat): seq<nat>
    requires |totals| == 4
  {
    if atServer then totals[1 := totals[1] + n] else totals[3 := totals[3] + n]
  }

  function Counted(totals: seq<nat>, atServer: bool, e: Event): seq<nat>
    requires |totals| == 4
  {
    match e
    case DataReceived(_, data) => CountedBytes(totals, atServer, |data|)
    case DataConsumed(_, data) => CountedBytes(totals, atServer, |data|)
    case RequestReceived(_) => totals[0 := totals[0] + 1]
    case ResponseReceived(_) => totals[2 := totals[2] + 1]
    case StreamEnded(_) => totals
  }

  /** `respond` */
  function Responded(server: Peer, id: StreamId, body: seq<Byte>): Peer {
    var started := Opened(server, id, body == []);
    if body == [] then started else Queued(started, id, Chunk(body, true))
  }

  /** The receiver handles its oldest event, `connection` and `stream` being the credit it returns. */
  predicate CanHandle(w: World, atServer: bool, connection: nat, stream: nat) {
    var y := w.Receiver(atServer);
    && |w.totals| == 4 && y.events != []
    && (y.events[0].DataReceived? ==> y.conn.MayRelease(y.events[0].id, |y.events[0].data|, connection, stream))
  }

  function HandlePeer(y: Peer, atServer: bool, body: seq<Byte>, connection: nat, stream: nat): Peer
    requires y.events != []
    requires y.events[0].DataReceived? ==> y.conn.MayRelease(y.events[0].id, |y.events[0].data|, connection, stream)
  {
    if y.events[0].DataReceived? then Acknowledged(y, connection, stream)
    else if y.events[0].StreamEnded? && atServer then Responded(Skipped(y), y.events[0].id, body)
    else Skipped(y)
  }

  function Handled(w: World, atServer: bool, body: seq<Byte>, connection: nat, stream: nat): World
    requires CanHandle(w, atServer, connection, stream)
  {
    var y := w.Receiver(atServer);
    w.With(atServer, w.Sender(atServer), HandlePeer(y, atServer, body, connection, stream))
     .(totals := Counted(w.totals, atServer, y.events[0]))
  }

  // ---------------------------------------------------------------- answers

  lemma FlushKeepsAnswer(w: World, atServer: bool, r: FlushResult, body: seq<Byte>, id: StreamId)
    requires MayFlush(w, atServer, r) && AnswerOk(w.client, w.server, body, id)
    ensures AnswerOk(Flushed(w, atServer, r).client, Flushed(w, atServer, r).server, body, id)
  {
    hide Schedules;
    SchedulesOn(w.Sender(atServer), r, id);
    if !atServer {
      FramingKeepsStreamTape(w.server, w.client, r, id);
    }
  }

  lemma EventsEnd(f: Frame, serverSide: bool, id: StreamId)
    ensures Sum(EndedOn(id), EventsOf(serverSide)(f)) == if End in FrameTape(f, id) then 1 else 0
  {
    FrameEnds(f, id);
    if !f.WindowUpdate? && f.end {
      assert EventsOf(serverSide)(f)[1..] == [StreamEnded(f.id)];
    }
  }

  lemma EndIsLast(t: Tape, before: Tape, f: Tape, after: Tape)
    requires WellEnded(t) && t == before + f + after && f != []
    ensures End !in before
  {
    forall i | 0 <= i < |before| ensures before[i] != End {
      assert before[i] == t[i];
    }
  }

  /** END_STREAM reaches the server at most once per stream. */
  lemma EndArrivesOnce(x: Peer, y: Peer, id: StreamId)
    requires x.conn.outbox != [] && WellEnded(StreamTape(x, y, id)) && FrameTape(x.conn.outbox[0], id) != []
    ensures End !in TapeOf(id, y.conn.received)
  {
    var before, now := TapeOf(id, y.conn.received), FrameTape(x.conn.outbox[0], id);
    var after := TapeOf(id, x.conn.outbox[1..]);
    Associate(before, now, after);
    Associate(before + now, after, PendingTape(x.pending, id));
    EndIsLast(StreamTape(x, y, id), before, now, after + PendingTape(x.pending, id));
  }

  lemma ArrivalKeepsAnswer(w: World, atServer: bool, keep: bool, body: seq<Byte>, id: StreamId)
    requires w.Sender(atServer).conn.outbox != []
    requires StreamOk(w.client, w.server, id) && AnswerOk(w.client, w.server, body, id)
    ensures AnswerOk(Delivered(w, atServer, keep).client, Delivered(w, atServer, keep).server, body, id)
  {
    var x, y := w.Sender(atServer), w.Receiver(atServer);
    var f := x.conn.outbox[0];
    ArrivalKeepsTapes(x, y, keep, atServer, id);
    if atServer {
      SumConcat(EndedOn(id), y.events, EventsOf(atServer)(f));
      EventsEnd(f, atServer, id);
      if End in FrameTape(f, id) {
        EndArrivesOnce(x, y, id);
      }
    }
  }

  /** Handling anything but a `StreamEnded` at the server. */
  lemma HandleKeepsAnswer(w: World, atServer: bool, body: seq<Byte>, connection: nat, stream: nat, id: StreamId)
    requires CanHandle(w, atServer, connection, stream) && w.Receiver(atServer).events[0].id > 0
    requires !(atServer && w.server.events[0].StreamEnded?)
    requires AnswerOk(w.client, w.server, body, id)
    ensures var w' := Handled(w, atServer, body, connection, stream); AnswerOk(w'.client, w'.server, body, id)
  {
    var x, y := w.Sender(atServer), w.Receiver(atServer);
    if y.events[0].DataReceived? {
      AcknowledgeKeepsTapes(x, y, connection, stream, id);
    }
  }

  lemma ResponseTape(client: Peer, server: Peer, id: StreamId, body: seq<Byte>, s: StreamId)
    requires PendingOk(server.pending) && StreamTape(server, client, id) == []
    ensures StreamTape(Responded(server, id, body), client, s)
         == if s == id then MessageTape(BodyParts(body)) else StreamTape(server, client, s)
  {
    hide StreamTape, Enqueue;
    var started := Opened(server, id, body == []);
    OpenAppends(server, client, id, body == [], s);
    if body != [] {
      QueueAppends(started, client, id, Chunk(body, true), s);
      Associate([Head], Body(body), [End]);
      assert ChunkTape(Chunk(body, true)) == Body(body) + [End];
    } else {
      assert FlatMap(Body, BodyParts(body)) == [];
    }
  }

  /** A waiting `StreamEnded` means the stream has no response yet. */
  lemma NotYetAnswered(w: World, body: seq<Byte>)
    requires w.server.events != [] && w.server.events[0].StreamEnded?
    requires AnswerOk(w.client, w.server, body, w.server.events[0].id)
    ensures StreamTape(w.server, w.client, w.server.events[0].id) == []
  {
  }

  lemma RespondKeepsAnswer(w: World, body: seq<Byte>, id: StreamId)
    requires w.server.events != [] && w.server.events[0].StreamEnded? && PendingOk(w.server.pending)
    requires AnswerOk(w.client, w.server, body, w.server.events[0].id) && AnswerOk(w.client, w.server, body, id)
    ensures AnswerOk(w.client, Responded(Skipped(w.server), w.server.events[0].id, body), body, id)
  {
    hide FlatMap, Enqueue;
    NotYetAnswered(w, body);
    ResponseTape(w.client, Skipped(w.server), w.server.events[0].id, body, id);
  }

  // ---------------------------------------------------------------- every transition keeps the invariant

  lemma FlushKeepsInv(w: World, atServer: bool, r: FlushResult, body: seq<Byte>)
    requires Inv(w, body) && MayFlush(w, atServer, r)
    ensures Inv(Flushed(w, atServer, r), body)
  {
    hide Schedules;
    FramingKeepsChannels(w.Sender(atServer), w.Receiver(atServer), r);
    forall id ensures AnswerOk(Flushed(w, atServer, r).client, Flushed(w, atServer, r).server, body, id) {
      FlushKeepsAnswer(w, atServer, r, body, id);
    }
  }

  lemma ArrivalKeepsInv(w: World, atServer: bool, keep: bool, body: seq<Byte>)
    requires Inv(w, body) && w.Sender(atServer).conn.outbox != []
    ensures Inv(Delivered(w, atServer, keep), body)
  {
    ArrivalKeepsChannels(w.Sender(atServer), w.Receiver(atServer), keep, atServer);
    forall id ensures AnswerOk(Delivered(w, atServer, keep).client, Delivered(w, atServer, keep).server, body, id) {
      ArrivalKeepsAnswer(w, atServer, keep, body, id);
    }
  }

  lemma RespondKeepsChannels(w: World, body: seq<Byte>)
    requires Inv(w, body) && w.server.events != [] && w.server.events[0].StreamEnded?
    ensures var y := Responded(Skipped(w.server), w.server.events[0].id, body);
            Channel(w.client, y) && Channel(y, w.client)
  {
    var id := w.server.events[0].id;
    SkipKeepsChannels(w.client, w.server);
    assert AnswerOk(w.client, w.server, body, id);
    NotYetAnswered(w, body);
    var skipped := Skipped(w.server);
    OpenKeepsChannels(skipped, w.client, id, body == []);
    if body != [] {
      OpenAppends(skipped, w.client, id, false, id);
      QueueKeepsChannels(Opened(skipped, id, false), w.client, id, Chunk(body, true));
    }
  }

  lemma HandleKeepsInv(w: World, atServer: bool, body: seq<Byte>, connection: nat, stream: nat)
    requires Inv(w, body) && CanHandle(w, atServer, connection, stream)
    ensures Inv(Handled(w, atServer, body, connection, stream), body)
  {
    var x, y, e := w.Sender(atServer), w.Receiver(atServer), w.Receiver(atServer).events[0];
    var w' := Handled(w, atServer, body, connection, stream);
    if atServer && e.StreamEnded? {
      RespondKeepsChannels(w, body);
      forall id ensures AnswerOk(w'.client, w'.server, body, id) {
        RespondKeepsAnswer(w, body, id);
      }
    } else {
      if e.DataReceived? {
        AcknowledgeKeepsChannels(x, y, connection, stream);
      } else {
        SkipKeepsChannels(x, y);
      }
      forall id ensures AnswerOk(w'.client, w'.server, body, id) {
        HandleKeepsAnswer(w, atServer, body, connection, stream, id);
      }
    }
  }
}
