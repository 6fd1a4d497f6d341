/** An exchange whose connections do flow control themselves: a frame is acknowledged as it is received, and the
    application only counts the data. Everything `Exchange` and `Progress` state holds here as well.
 */
module NativeFlow {
  import opened Basics
  import opened Folds
  import opened Http2
  import opened Flush
  import opened Direction
  import opened Exchange
  import opened Progress

  /** What the connection decides while it receives a frame: see `Receive` and `MayRelease`. */
  datatype Choice = Choice(keep: bool, connection: nat, stream: nat)

  function EndEvent(f: Frame): seq<Event>
    requires !f.WindowUpdate?
  {
    if f.end then [StreamEnded(f.id)] else []
  }

  function ConsumedEvents(serverSide: bool): Frame -> seq<Event> {
    (f: Frame) => if f.Data? then [DataConsumed(f.id, f.payload)] + EndEvent(f) else EventsOf(serverSide)(f)
  }

  predicate MayTake(e: Endpoint, f: Frame, c: Choice) {
    f.Data? ==> e.Receive(f, c.keep).MayRelease(f.id, |f.payload|, c.connection, c.stream)
  }

  function Take(e: Endpoint, f: Frame, c: Choice): Endpoint
    requires MayTake(e, f, c)
  {
    if f.Data? then e.Receive(f, c.keep).Acknowledge(f.id, |f.payload|, c.connection, c.stream)
    else e.Receive(f, c.keep)
  }

  function Taken(y: Peer, f: Frame, c: Choice, serverSide: bool): Peer
    requires MayTake(y.conn, f, c)
  {
    Peer(Take(y.conn, f, c), y.pending, y.events + ConsumedEvents(serverSide)(f))
  }

  /** The oldest frame of the sender is received and acknowledged. */
  function Consumed(w: World, atServer: bool, c: Choice): World
    requires w.Sender(atServer).conn.outbox != []
    requires MayTake(w.Receiver(atServer).conn, w.Sender(atServer).conn.outbox[0], c)
  {
    var x := w.Sender(atServer);
    w.With(atServer, Departed(x), Taken(w.Receiver(atServer), x.conn.outbox[0], c, atServer))
  }

  /** A direction sees unhandled events only through their sums. */
  lemma EventsMatterInSum(x: Peer, y: Peer, events: seq<Event>)
    requires Channel(x, y) && Channel(y, x)
    requires forall k :: Sum(EventBytesOn(k), events) == Sum(EventBytesOn(k), y.events)
    requires forall e <- events :: e.id > 0
    ensures Channel(x, y.(events := events)) && Channel(y.(events := events), x)
  {
    var y' := y.(events := events);
    forall k ensures FlowOk(x, y', k) && FlowOk(y', x, k) {
      assert FlowOk(x, y, k) && FlowOk(y, x, k);
    }
    forall s ensures StreamOk(x, y', s) && StreamOk(y', x, s) {
      assert StreamOk(x, y, s) && StreamOk(y, x, s);
    }
  }

  /** The data event of a frame may be handled before everything that waits. */
  lemma DataFirst(events: seq<Event>, f: Frame, k: StreamId)
    requires f.Data?
    ensures Sum(EventBytesOn(k), [DataReceived(f.id, f.payload)] + (events + EndEvent(f)))
         == Sum(EventBytesOn(k), events + ([DataReceived(f.id, f.payload)] + EndEvent(f)))
    ensures Sum(EventBytesOn(k), events + ([DataConsumed(f.id, f.payload)] + EndEvent(f)))
         == Sum(EventBytesOn(k), events + EndEvent(f))
  {
    var d, c, end := [DataReceived(f.id, f.payload)], [DataConsumed(f.id, f.payload)], EndEvent(f);
    SumConcat(EventBytesOn(k), d, events + end);
    SumConcat(EventBytesOn(k), events, end);
    SumConcat(EventBytesOn(k), events, d + end);
    SumConcat(EventBytesOn(k), d, end);
    SumConcat(EventBytesOn(k), events, c + end);
    SumConcat(EventBytesOn(k), c, end);
  }

  lemma TakingDataKeepsChannels(x: Peer, y: Peer, c: Choice, serverSide: bool)
    requires x.conn.outbox != [] && x.conn.outbox[0].Data? && Channel(x, y) && Channel(y, x)
    requires MayTake(y.conn, x.conn.outbox[0], c)
    ensures var y' := Taken(y, x.conn.outbox[0], c, serverSide); Channel(Departed(x), y') && Channel(y', Departed(x))
  {
    hide Channel, Sum;
    var f := x.conn.outbox[0];
    var x', d, end := Departed(x), [DataReceived(f.id, f.payload)], EndEvent(f);
    ArrivalKeepsChannels(x, y, c.keep, serverSide);
    var arrived := Arrived(y, f, c.keep, serverSide);
    assert arrived.events == y.events + (d + end);
    EventsHaveStreams(x', arrived);
    forall k ensures Sum(EventBytesOn(k), d + (y.events + end)) == Sum(EventBytesOn(k), y.events + (d + end)) {
      DataFirst(y.events, f, k);
    }
    assert forall e <- d + (y.events + end) :: e in arrived.events;
    EventsMatterInSum(x', arrived, d + (y.events + end));
    var first := arrived.(events := d + (y.events + end));
    AcknowledgeKeepsChannels(x', first, c.connection, c.stream);
    var rest := Acknowledged(first, c.connection, c.stream);
    assert rest.events == y.events + end;
    forall k
      ensures Sum(EventBytesOn(k), y.events + ([DataConsumed(f.id, f.payload)] + end))
           == Sum(EventBytesOn(k), rest.events)
    {
      DataFirst(y.events, f, k);
    }
    assert d[0] in arrived.events;
    EventsMatterInSum(x', rest, y.events + ([DataConsumed(f.id, f.payload)] + end));
  }

  lemma EventsHaveStreams(x: Peer, y: Peer)
    requires Channel(x, y)
    ensures forall e <- y.events :: e.id > 0
  {
  }

  lemma ConsumeKeepsChannels(x: Peer, y: Peer, c: Choice, serverSide: bool)
    requires x.conn.outbox != [] && Channel(x, y) && Channel(y, x)
    requires MayTake(y.conn, x.conn.outbox[0], c)
    ensures var y' := Taken(y, x.conn.outbox[0], c, serverSide); Channel(Departed(x), y') && Channel(y', Departed(x))
  {
    hide Channel;
    if x.conn.outbox[0].Data? {
      TakingDataKeepsChannels(x, y, c, serverSide);
    } else {
      ArrivalKeepsChannels(x, y, c.keep, serverSide);
    }
  }

  /** The connection's own credit frames are on no stream. */
  lemma TakenTapes(x: Peer, y: Peer, c: Choice, serverSide: bool, s: StreamId)
    requires x.conn.outbox != [] && MayTake(y.conn, x.conn.outbox[0], c)
    requires x.conn.outbox[0].Data? ==> x.conn.outbox[0].id > 0
    ensures var y', a := Taken(y, x.conn.outbox[0], c, serverSide), Arrived(y, x.conn.outbox[0], c.keep, serverSide);
            && y'.conn.received == a.conn.received
            && StreamTape(Departed(x), y', s) == StreamTape(Departed(x), a, s)
            && StreamTape(y', Departed(x), s) == StreamTape(a, Departed(x), s)
  {
    var f := x.conn.outbox[0];
    if f.Data? {
      var fs := Credit(CONNECTION, c.connection) + Credit(f.id, c.stream);
      CreditFrames(f.id, c.connection, c.stream, s);
      FlatMapConcat(OnStream(s), y.conn.outbox, fs);
    }
  }

  lemma ConsumedEnds(f: Frame, serverSide: bool, id: StreamId)
    ensures Sum(EndedOn(id), ConsumedEvents(serverSide)(f)) == Sum(EndedOn(id), EventsOf(serverSide)(f))
  {
    if f.Data? {
      SumConcat(EndedOn(id), [DataConsumed(f.id, f.payload)], EndEvent(f));
      SumConcat(EndedOn(id), [DataReceived(f.id, f.payload)], EndEvent(f));
    }
  }

  lemma DataHasStream(x: Peer, y: Peer)
    requires Channel(x, y) && x.conn.outbox != []
    ensures x.conn.outbox[0].Data? ==> x.conn.outbox[0].id > 0
  {
    var f := x.conn.outbox[0];
    assert StreamOk(x, y, f.id);
    ArrivedEventsHaveStreams(x, y, true);
    if f.Data? {
      assert EventsOf(true)(f)[0] in EventsOf(true)(f);
    }
  }

  lemma ConsumeKeepsAnswer(w: World, atServer: bool, c: Choice, body: seq<Byte>, id: StreamId)
    requires Inv(w, body) && w.Sender(atServer).conn.outbox != []
    requires MayTake(w.Receiver(atServer).conn, w.Sender(atServer).conn.outbox[0], c)
    ensures AnswerOk(Consumed(w, atServer, c).client, Consumed(w, atServer, c).server, body, id)
  {
    hide StreamTape, Sum, FlatMap, MessageTape, ConsumedEvents, EventsOf, Take;
    var x, y := w.Sender(atServer), w.Receiver(atServer);
    var f := x.conn.outbox[0];
    assert StreamOk(w.client, w.server, id) && AnswerOk(w.client, w.server, body, id);
    ArrivalKeepsAnswer(w, atServer, c.keep, body, id);
    DataHasStream(x, y);
    TakenTapes(x, y, c, atServer, id);
    ConsumedEnds(f, atServer, id);
    SumConcat(EndedOn(id), y.events, EventsOf(atServer)(f));
    SumConcat(EndedOn(id), y.events, ConsumedEvents(atServer)(f));
  }

  lemma ConsumeKeepsInv(w: World, atServer: bool, c: Choice, body: seq<Byte>)
    requires Inv(w, body) && w.Sender(atServer).conn.outbox != []
    requires MayTake(w.Receiver(atServer).conn, w.Sender(atServer).conn.outbox[0], c)
    ensures Inv(Consumed(w, atServer, c), body)
  {
    hide Channel, AnswerOk;
    ConsumeKeepsChannels(w.Sender(atServer), w.Receiver(atServer), c, atServer);
    forall id ensures AnswerOk(Consumed(w, atServer, c).client, Consumed(w, atServer, c).server, body, id) {
      ConsumeKeepsAnswer(w, atServer, c, body, id);
    }
  }

  // ---------------------------------------------------------------- progress

  lemma ConsumedEventsLoad(f: Frame, serverSide: bool)
    ensures var es := ConsumedEvents(serverSide)(f);
            && Sum(EventRequests, es) == (if serverSide then HeadsOf(f) else 0)
            && Sum(EventResponses, es) == (if serverSide then 0 else HeadsOf(f))
            && Sum(EventOctets, es) == BytesOn(CONNECTION)(f)
            && Sum(EventEnds, es) == EndsOf(f)
            && Sum(EventWork, es) == 0
  {
    if f.Data? {
      var d := [DataConsumed(f.id, f.payload)];
      assert ConsumedEvents(serverSide)(f) == d + EndEvent(f);
      SumConcat(EventRequests, d, EndEvent(f));
      SumConcat(EventResponses, d, EndEvent(f));
      SumConcat(EventOctets, d, EndEvent(f));
      SumConcat(EventEnds, d, EndEvent(f));
      SumConcat(EventWork, d, EndEvent(f));
    } else {
      EventsLoad(f, serverSide);
    }
  }

  lemma TakenLoad(y: Peer, f: Frame, c: Choice, serverSide: bool)
    requires MayTake(y.conn, f, c)
    ensures var y' := Taken(y, f, c, serverSide);
            && InRequests(y') == InRequests(y) + (if serverSide then HeadsOf(f) else 0)
            && InResponses(y') == InResponses(y) + (if serverSide then 0 else HeadsOf(f))
            && InBytes(y') == InBytes(y) + BytesOn(CONNECTION)(f)
            && InEnds(y') == InEnds(y) + EndsOf(f)
            && InWork(y') == InWork(y)
  {
    var es := ConsumedEvents(serverSide)(f);
    ConsumedEventsLoad(f, serverSide);
    SumConcat(EventRequests, y.events, es);
    SumConcat(EventResponses, y.events, es);
    SumConcat(EventOctets, y.events, es);
    SumConcat(EventEnds, y.events, es);
    SumConcat(EventWork, y.events, es);
  }

  lemma TakenOwes(y: Peer, f: Frame, c: Choice, serverSide: bool)
    requires MayTake(y.conn, f, c)
    ensures var y' := Taken(y, f, c, serverSide);
            && OutHeads(y') == OutHeads(y) && OutBytes(y') == OutBytes(y) && OutEnds(y') == OutEnds(y)
            && OutWork(y') + 1 <= OutWork(y) + FrameWork(f)
  {
    if f.Data? {
      CreditLoad(y.conn.outbox, f.id, c.connection, c.stream);
    }
  }

  lemma ConsumeKeepsOutcome(w: World, atServer: bool, c: Choice, body: seq<Byte>)
    requires |w.totals| == 4 && w.Sender(atServer).conn.outbox != []
    requires MayTake(w.Receiver(atServer).conn, w.Sender(atServer).conn.outbox[0], c)
    ensures Outcome(Consumed(w, atServer, c), body) == Outcome(w, body)
    ensures Potential(Consumed(w, atServer, c), body) < Potential(w, body)
  {
    hide Sum, Taken;
    var x, y := w.Sender(atServer), w.Receiver(atServer);
    DepartureLoad(x);
    DepartureKeepsEvents(x);
    TakenLoad(y, x.conn.outbox[0], c, atServer);
    TakenOwes(y, x.conn.outbox[0], c, atServer);
    assert EndsLeft(Consumed(w, atServer, c)) == EndsLeft(w);
  }

  lemma DepartureKeepsEvents(x: Peer)
    requires x.conn.outbox != []
    ensures Departed(x).events == x.events
  {
  }

  lemma ConsumeEvolves(w: World, atServer: bool, c: Choice, body: seq<Byte>)
    requires Inv(w, body) && w.Sender(atServer).conn.outbox != []
    requires MayTake(w.Receiver(atServer).conn, w.Sender(atServer).conn.outbox[0], c)
    ensures Evolves(w, Consumed(w, atServer, c), body)
    ensures Potential(Consumed(w, atServer, c), body) < Potential(w, body)
  {
    hide StreamTape, Outcome, Potential, Channel, AnswerOk;
    ConsumeKeepsInv(w, atServer, c, body);
    ConsumeKeepsOutcome(w, atServer, c, body);
    var x, y := w.Sender(atServer), w.Receiver(atServer);
    var w' := Consumed(w, atServer, c);
    DataHasStream(x, y);
    forall s ensures StreamTape(w'.client, w'.server, s) == StreamTape(w.client, w.server, s) {
      ArrivalKeepsTapes(x, y, c.keep, atServer, s);
      TakenTapes(x, y, c, atServer, s);
    }
  }

  // ---------------------------------------------------------------- a slice of the wire

  /** Every frame of a slice, one after the other. */
  predicate MayTakeAll(e: Endpoint, frames: seq<Frame>, choices: seq<Choice>)
    requires |choices| == |frames|
    decreases |frames|
  {
    frames == []
    || (MayTake(e, frames[0], choices[0]) && MayTakeAll(Take(e, frames[0], choices[0]), frames[1..], choices[1..]))
  }

  function TakeAll(e: Endpoint, frames: seq<Frame>, choices: seq<Choice>): Endpoint
    requires |choices| == |frames| && MayTakeAll(e, frames, choices)
    decreases |frames|
  {
    if frames == [] then e else TakeAll(Take(e, frames[0], choices[0]), frames[1..], choices[1..])
  }

  lemma {:induction false} TakeOneMore(e: Endpoint, frames: seq<Frame>, choices: seq<Choice>, f: Frame, c: Choice)
    requires |choices| == |frames| && MayTakeAll(e, frames, choices) && MayTake(TakeAll(e, frames, choices), f, c)
    ensures MayTakeAll(e, frames + [f], choices + [c])
    ensures TakeAll(e, frames + [f], choices + [c]) == Take(TakeAll(e, frames, choices), f, c)
    decreases |frames|
  {
    hide Take, MayTake;
    if frames == [] {
      assert frames + [f] == [f] && choices + [c] == [c] && [f][1..] == [] && [c][1..] == [];
    } else {
      assert (frames + [f])[1..] == frames[1..] + [f] && (choices + [c])[1..] == choices[1..] + [c];
      TakeOneMore(Take(e, frames[0], choices[0]), frames[1..], choices[1..], f, c);
    }
  }

  lemma {:induction false} TakeAllKeepsLimits(e: Endpoint, frames: seq<Frame>, choices: seq<Choice>)
    requires |choices| == |frames| && MayTakeAll(e, frames, choices)
    ensures TakeAll(e, frames, choices).limits == e.limits
    decreases |frames|
  {
    if frames != [] {
      TakeAllKeepsLimits(Take(e, frames[0], choices[0]), frames[1..], choices[1..]);
    }
  }

  /** The world after the receiver took the first frames of the sender's wire. */
  lemma {:induction false} SliceEvolves(w: World, atServer: bool, slice: seq<Frame>, rest: seq<Frame>,
      choices: seq<Choice>, body: seq<Byte>)
    requires Inv(w, body) && w.Sender(atServer).conn.outbox == slice + rest
    requires |choices| == |slice| && MayTakeAll(w.Receiver(atServer).conn, slice, choices)
    ensures var x, y := w.Sender(atServer), w.Receiver(atServer);
            var w' := w.With(atServer, x.(conn := x.conn.(outbox := rest)),
                             Peer(TakeAll(y.conn, slice, choices), y.pending,
                                  y.events + FlatMap(ConsumedEvents(atServer), slice)));
            && Evolves(w, w', body)
            && (slice != [] ==> Potential(w', body) < Potential(w, body))
    decreases |slice|
  {
    hide Inv, Potential, Outcome, Evolves, Take, MayTake, StreamTape;
    var x, y := w.Sender(atServer), w.Receiver(atServer);
    if slice == [] {
      assert slice + rest == rest;
      assert y.events + [] == y.events;
      EvolvesReflexively(w, body);
    } else {
      var next := Consumed(w, atServer, choices[0]);
      assert (slice + rest)[1..] == slice[1..] + rest;
      ConsumeEvolves(w, atServer, choices[0], body);
      EvolvesKeeps(w, next, body);
      SliceEvolves(next, atServer, slice[1..], rest, choices[1..], body);
      Associate(y.events, ConsumedEvents(atServer)(slice[0]), FlatMap(ConsumedEvents(atServer), slice[1..]));
      var w' := w.With(atServer, x.(conn := x.conn.(outbox := rest)),
                       Peer(TakeAll(y.conn, slice, choices), y.pending,
                            y.events + FlatMap(ConsumedEvents(atServer), slice)));
      EvolvesTransitively(w, next, w', body);
      EvolvesKeeps(next, w', body);
    }
  }
}
