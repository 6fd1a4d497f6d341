/** The class `Ngh2Exchange`: the same workload over connections that frame bodies and acknowledge data themselves,
    and that report the end of a stream as a flag of its last event.
 */
module Ngh2Exchanges {
  import opened Basics
  import opened Bodies
  import opened Folds
  import opened Http2
  import opened Flush
  import opened Direction
  import opened Exchange
  import opened Progress
  import opened Liveness
  import opened NativeFlow
  import opened Requests
  import opened Scenarios
  import opened Transfer

  /** The events of an `ngh2.Connection` that the exchange looks at. */
  datatype NgEvent =
    | Request(id: StreamId, end: bool)
    | Response(id: StreamId, end: bool)
    | Payload(id: StreamId, data: seq<Byte>, end: bool)

  function NgEventsOf(serverSide: bool): Frame -> seq<NgEvent> {
    (f: Frame) =>
      match f
      case Headers(id, end) => [if serverSide then Request(id, end) else Response(id, end)]
      case Data(id, payload, end) => [Payload(id, payload, end)]
      case WindowUpdate(_, _) => []
  }

  /** A server receives requests, a client responses. */
  predicate OfRole(e: NgEvent, serverSide: bool) {
    (e.Request? ==> serverSide) && (e.Response? ==> !serverSide)
  }

  lemma {:induction false} EventsFitRole(serverSide: bool, frames: seq<Frame>)
    ensures forall e <- FlatMap(NgEventsOf(serverSide), frames) :: OfRole(e, serverSide)
  {
    if frames != [] {
      EventsFitRole(serverSide, frames[1..]);
    }
  }

  /** The event of the other library, and its separate `StreamEnded`. */
  function FirstPart(e: NgEvent): Event {
    match e
    case Request(id, _) => RequestReceived(id)
    case Response(id, _) => ResponseReceived(id)
    case Payload(id, data, _) => DataConsumed(id, data)
  }

  function Expand(e: NgEvent): seq<Event> {
    [FirstPart(e)] + if e.end then [StreamEnded(e.id)] else []
  }

  lemma {:induction false} EventsExpand(serverSide: bool, frames: seq<Frame>)
    ensures FlatMap(Expand, FlatMap(NgEventsOf(serverSide), frames)) == FlatMap(ConsumedEvents(serverSide), frames)
  {
    if frames != [] {
      EventsExpand(serverSide, frames[1..]);
      FlatMapConcat(Expand, NgEventsOf(serverSide)(frames[0]), FlatMap(NgEventsOf(serverSide), frames[1..]));
      OneFrameExpands(serverSide, frames[0]);
    }
  }

  /** A flag on the event says the same as an event of its own. */
  lemma OneFrameExpands(serverSide: bool, f: Frame)
    ensures FlatMap(Expand, NgEventsOf(serverSide)(f)) == ConsumedEvents(serverSide)(f)
  {
    match f
    case Headers(id, end) =>
      var e := if serverSide then Request(id, end) else Response(id, end);
      assert NgEventsOf(serverSide)(f) == [e] && FlatMap(Expand, [e]) == Expand(e);
      assert EventsOf(serverSide)(f) == [FirstPart(e)] + if end then [StreamEnded(id)] else [];
    case Data(id, payload, end) =>
      var e := Payload(id, payload, end);
      assert NgEventsOf(serverSide)(f) == [e] && FlatMap(Expand, [e]) == Expand(e);
      assert EndEvent(f) == if end then [StreamEnded(id)] else [];
    case WindowUpdate(_, _) =>
      assert NgEventsOf(serverSide)(f) == [] && EventsOf(serverSide)(f) == [] && ConsumedEvents(serverSide)(f) == [];
  }

  /** An `ngh2.Connection` as far as the exchange can observe it. `bodies` are the streams whose body is open:
      `send_data` is refused on every other one. */
  class Connection {
    const serverSide: bool
    var state: Endpoint
    var queue: seq<Entry>
    var bodies: set<StreamId>
    var events: seq<NgEvent>
    var nextStream: StreamId

    constructor (serverSide: bool, limits: Limits)
      ensures this.serverSide == serverSide && state == Fresh(limits)
      ensures queue == [] && bodies == {} && events == [] && nextStream == 1
    {
      this.serverSide := serverSide;
      state, queue, bodies, events, nextStream := Fresh(limits), [], {}, [], 1;
    }

    method SendRequest(end: bool) returns (id: StreamId)
      modifies this`state, this`bodies, this`nextStream
      ensures id == old(nextStream) && nextStream == id + 2 && state == old(state).SendHeaders(id, end)
      ensures bodies == old(bodies) + if end then {} else {id}
    {
      id := nextStream;
      nextStream := id + 2;
      state := state.SendHeaders(id, end);
      bodies := bodies + if end then {} else {id};
    }

    method SendResponse(id: StreamId, end: bool)
      requires id > 0 && id !in state.localEnded
      modifies this`state, this`bodies
      ensures state == old(state).SendHeaders(id, end) && bodies == old(bodies) + if end then {} else {id}
    {
      state := state.SendHeaders(id, end);
      bodies := bodies + if end then {} else {id};
    }

    method SendData(id: StreamId, data: seq<Byte>, end: bool)
      requires id in bodies
      modifies this`queue, this`bodies
      ensures queue == Submit(old(queue), id, data, end) && bodies == old(bodies) - if end then {id} else {}
    {
      queue := Submit(queue, id, data, end);
      bodies := bodies - if end then {id} else {};
    }

    /** All that can be sent now. How bodies are cut and streams interleaved is not promised. */
    method DataToSend() returns (wire: seq<Frame>, ghost framing: FlushResult)
      requires PendingOk(queue)
      modifies this`state, this`queue
      ensures Schedules(old(state), old(queue), framing)
      ensures wire == framing.conn.outbox && state == framing.conn.(outbox := []) && queue == framing.pending
    {
      FlushSchedules(state, queue);
      var r := FlushAll(state, queue);
      framing := r;
      wire, queue := r.conn.outbox, r.pending;
      state := r.conn.(outbox := []);
    }

    /** Received data is acknowledged at once; how much credit that releases is not promised beyond `MayTake`. */
    method ReceiveData(slice: seq<Frame>) returns (ghost choices: seq<Choice>)
      requires state.limits.threshold > 0
      modifies this`state, this`events
      ensures |choices| == |slice| && MayTakeAll(old(state), slice, choices)
      ensures state == TakeAll(old(state), slice, choices)
      ensures events == old(events) + FlatMap(NgEventsOf(serverSide), slice)
    {
      choices := [];
      assert old(events) + [] == old(events);
      for i := 0 to |slice|
        invariant |choices| == i && MayTakeAll(old(state), slice[..i], choices)
        invariant state == TakeAll(old(state), slice[..i], choices) && state.limits == old(state).limits
        invariant events == old(events) + FlatMap(NgEventsOf(serverSide), slice[..i])
      {
        var f := slice[i];
        var c := Choose(state, f);
        TakeOneMore(old(state), slice[..i], choices, f, c);
        FlatMapConcat(NgEventsOf(serverSide), slice[..i], [f]);
        Associate(old(events), FlatMap(NgEventsOf(serverSide), slice[..i]), NgEventsOf(serverSide)(f));
        assert slice[..i] + [f] == slice[..i + 1];
        state := Take(state, f, c);
        events := events + NgEventsOf(serverSide)(f);
        choices := choices + [c];
      }
      assert slice[..|slice|] == slice;
    }

    method Events() returns (taken: seq<NgEvent>)
      modifies this`events
      ensures taken == old(events) && events == []
    {
      taken := events;
      events := [];
    }
  }

  method Choose(e: Endpoint, f: Frame) returns (c: Choice)
    requires e.limits.threshold > 0
    ensures MayTake(e, f, c)
  {
    var keep: bool := *;
    c := Choice(keep, 0, 0);
    if f.Data? {
      var e' := e.Receive(f, keep);
      assert e'.MayRelease(f.id, |f.payload|, e'.Withheld(CONNECTION) + |f.payload|, e'.Withheld(f.id) + |f.payload|);
      var connection, stream :| e'.MayRelease(f.id, |f.payload|, connection, stream);
      c := Choice(keep, connection, stream);
    }
  }

  /** Handling one event with its flag is handling the two events it expands to. */
  lemma HandleExpanded(w: World, atServer: bool, e: NgEvent, rest: seq<Event>, body: seq<Byte>)
    requires Inv(w, body) && w.Receiver(atServer).events == Expand(e) + rest
    ensures CanHandle(w, atServer, 0, 0)
    ensures var w1 := Handled(w, atServer, body, 0, 0);
            && Evolves(w, w1, body)
            && w1.Receiver(atServer).events == Expand(e)[1..] + rest
            && (e.end ==> CanHandle(w1, atServer, 0, 0) && Evolves(w, Handled(w1, atServer, body, 0, 0), body)
                          && e.id > 0
                          && (atServer ==> e.id !in w1.server.conn.localEnded && Absent(w1.server.pending, e.id)))
  {
    hide Inv, Outcome, Potential, StreamTape;
    InvHasTotals(w, body);
    assert (Expand(e) + rest)[0] == FirstPart(e) && (Expand(e) + rest)[1..] == Expand(e)[1..] + rest;
    HandleEvolves(w, atServer, body, 0, 0);
    var w1 := Handled(w, atServer, body, 0, 0);
    if e.end {
      assert w1.Receiver(atServer).events[0] == StreamEnded(e.id);
      InvHasTotals(w1, body);
      HandleIsLegal(w1, atServer, body);
      UnansweredIsAbsent(w1, atServer, body);
      HandleEvolves(w1, atServer, body, 0, 0);
      EvolvesTransitively(w, w1, Handled(w1, atServer, body, 0, 0), body);
    }
  }

  lemma UnansweredIsAbsent(w: World, atServer: bool, body: seq<Byte>)
    requires Inv(w, body) && w.Receiver(atServer).events != [] && w.Receiver(atServer).events[0].StreamEnded?
    ensures atServer ==> Absent(w.server.pending, w.server.events[0].id)
  {
    if atServer {
      var id := w.server.events[0].id;
      assert AnswerOk(w.client, w.server, body, id);
      NotYetAnswered(w, body);
      SilentIsAbsent(w.server.pending, id);
    }
  }

  lemma InvHasTotals(w: World, body: seq<Byte>)
    requires Inv(w, body)
    ensures |w.totals| == 4
  {
  }

  /** What `deliver` relies on when it drains the source, and what it can say if nothing comes of it. */
  lemma DrainStarts(w: World, atServer: bool, r: FlushResult, body: seq<Byte>)
    requires Inv(w, body) && GoodLimits(w.client.conn.limits) && MayFlush(w, atServer, r)
    ensures w.Receiver(atServer).conn.limits == w.client.conn.limits
    ensures Evolves(w, Flushed(w, atServer, r), body)
    ensures var x := Framed(w.Sender(atServer), r); x.conn.outbox == [] ==> Stuck(x)
  {
    FlushEvolves(w, atServer, r, body);
  }

  lemma QueuesAreOk(w: World, body: seq<Byte>)
    requires Inv(w, body)
    ensures PendingOk(w.client.pending) && PendingOk(w.server.pending)
  {
  }

  /** A request whose body was submitted is a request with one part. */
  lemma BodyIsOnePart(x: Peer, id: StreamId, parts: seq<seq<Byte>>)
    requires Absent(x.pending, id)
    ensures Peer(Opened(x, id, parts == []).conn,
                 if parts == [] then x.pending else StartBody(x.pending, id, Join(parts), true), x.events)
         == SendParts(x, id, Merged(parts), |Merged(parts)|)
  {
    if parts != [] {
      SubmitToAbsent(x.pending, id, Join(parts), true);
      assert SendParts(x, id, [Join(parts)], 0) == Opened(x, id, false);
    }
  }

  lemma NewIsAbsent(w: World, id: StreamId, body: seq<Byte>)
    requires Inv(w, body) && StreamTape(w.client, w.server, id) == []
    ensures Absent(w.client.pending, id)
  {
    SilentIsAbsent(w.client.pending, id);
  }

  lemma JoinLast(parts: seq<seq<Byte>>, n: nat)
    requires n < |parts|
    ensures Join(parts[..n + 1]) == Join(parts[..n]) + parts[n]
  {
    assert parts[..n + 1] == parts[..n] + [parts[n]];
    JoinConcat(parts[..n], [parts[n]]);
  }

  lemma MergedLength(parts: seq<seq<Byte>>)
    ensures Sum(Length, Merged(parts)) == Sum(Length, parts) && Join(Merged(parts)) == Join(parts)
  {
    if parts != [] {
      JoinLength(parts);
    }
  }

  class Ngh2Exchange {
    const scenario: Scenario
    const client: Connection
    const server: Connection
    var totals: seq<nat>

    constructor (scenario: Scenario, frame: nat, threshold: nat)
      requires GoodLimits(Limits(scenario.InitialWindow(), frame, threshold))
      ensures fresh(client) && fresh(server) && Valid() && Quiescent(View())
      ensures this.scenario == scenario
      ensures var window := if scenario.window.Some? then scenario.window.value else 65_535;
              client.state == server.state == Fresh(Limits(window, frame, threshold))
    {
      this.scenario := scenario;
      client := new Connection(false, Limits(scenario.InitialWindow(), frame, threshold));
      server := new Connection(true, Limits(scenario.InitialWindow(), frame, threshold));
      totals := [0, 0, 0, 0];
      new;
      InitiallyInv(client.state.limits, scenario.responseBody);
    }

    ghost predicate Shape()
      reads this, client, server
    {
      && client != server && !client.serverSide && server.serverSide
      && client.events == [] && server.events == [] && |totals| == 4
    }

    function Source(atServer: bool): Connection { if atServer then client else server }
    function Destination(atServer: bool): Connection { if atServer then server else client }

    ghost function View(): World
      reads this, client, server
    {
      World(Peer(client.state, client.queue, []), Peer(server.state, server.queue, []), totals)
    }

    /** The exchange inside `deliver`: `wire` has left the source, `events` are taken and not handled. */
    ghost function During(atServer: bool, wire: seq<Frame>, events: seq<Event>): World
      reads this, client, server
    {
      var x, y := View().Sender(atServer), View().Receiver(atServer);
      View().With(atServer, x.(conn := x.conn.(outbox := wire)), y.(events := events))
    }

    ghost predicate Valid()
      reads this, client, server
    {
      && Shape()
      && Inv(View(), scenario.responseBody)
      && GoodLimits(client.state.limits)
      && client.nextStream > 0
      && forall s :: s >= client.nextStream ==> StreamTape(View().client, View().server, s) == []
    }

    method Respond(id: StreamId)
      requires client != server && id > 0 && id !in server.state.localEnded && Absent(server.queue, id)
      modifies server`state, server`queue, server`bodies
      ensures Peer(server.state, server.queue, [])
           == Responded(Peer(old(server.state), old(server.queue), []), id, scenario.responseBody)
    {
      var body := scenario.responseBody;
      server.SendResponse(id, body == []);
      if body != [] {
        SubmitToAbsent(server.queue, id, body, true);
        server.SendData(id, body, true);
      }
    }

    /** The body of the event loop in `deliver`. */
    method Handle(atServer: bool, e: NgEvent, ghost wire: seq<Frame>, ghost rest: seq<Event>)
      requires Shape() && OfRole(e, atServer)
      requires Inv(During(atServer, wire, Expand(e) + rest), scenario.responseBody)
      modifies this`totals, server`state, server`queue, server`bodies
      ensures Shape() && (!atServer ==> server.state == old(server.state) && server.queue == old(server.queue))
      ensures Evolves(old(During(atServer, wire, Expand(e) + rest)), During(atServer, wire, rest),
                      scenario.responseBody)
    {
      hide Inv, Evolves, StreamTape;
      ghost var w, body := During(atServer, wire, Expand(e) + rest), scenario.responseBody;
      HandleExpanded(w, atServer, e, rest, body);
      ghost var w1 := Handled(w, atServer, body, 0, 0);
      match e {
        case Payload(id, data, end) =>
          if atServer {
            totals := totals[1 := totals[1] + |data|];
          } else {
            totals := totals[3 := totals[3] + |data|];
          }
          if atServer && end {
            Respond(id);
          }
        case Request(id, end) =>
          totals := totals[0 := totals[0] + 1];
          if end {
            Respond(id);
          }
        case Response(_, _) =>
          totals := totals[2 := totals[2] + 1];
      }
      if e.end {
        assert During(atServer, wire, rest) == Handled(w1, atServer, body, 0, 0);
      } else {
        assert During(atServer, wire, rest) == w1;
      }
    }

    /** Receives one slice of the wire and handles the events it produces, oldest first. */
    method ReceiveSlice(atServer: bool, slice: seq<Frame>, ghost rest: seq<Frame>)
      requires Shape() && Destination(atServer).state.limits.threshold > 0 && slice != []
      requires Inv(During(atServer, slice + rest, []), scenario.responseBody)
      modifies this`totals, Destination(atServer)`state, Destination(atServer)`events,
               server`state, server`queue, server`bodies
      ensures Shape() && (!atServer ==> server.state == old(server.state) && server.queue == old(server.queue))
      ensures Evolves(old(During(atServer, slice + rest, [])), During(atServer, rest, []), scenario.responseBody)
      ensures Potential(During(atServer, rest, []), scenario.responseBody)
            < Potential(old(During(atServer, slice + rest, [])), scenario.responseBody)
    {
      hide Inv, Potential, Outcome, Evolves, StreamTape;
      hide TakeAll, MayTakeAll, Expand, NgEventsOf, ConsumedEvents, OfRole;
      ghost var w, body := During(atServer, slice + rest, []), scenario.responseBody;
      var choices := Destination(atServer).ReceiveData(slice);
      var events := Destination(atServer).Events();
      assert [] + FlatMap(NgEventsOf(atServer), slice) == FlatMap(NgEventsOf(atServer), slice);
      assert [] + FlatMap(ConsumedEvents(atServer), slice) == FlatMap(ConsumedEvents(atServer), slice);
      EventsExpand(atServer, slice);
      EventsFitRole(atServer, slice);
      SliceEvolves(w, atServer, slice, rest, choices, body);
      ghost var x, y := w.Sender(atServer), w.Receiver(atServer);
      assert y.events == [];
      assert During(atServer, rest, FlatMap(Expand, events))
          == w.With(atServer, x.(conn := x.conn.(outbox := rest)),
                    Peer(TakeAll(y.conn, slice, choices), y.pending,
                         y.events + FlatMap(ConsumedEvents(atServer), slice)));
      while events != []
        invariant Shape() && (!atServer ==> server.state == old(server.state) && server.queue == old(server.queue))
        invariant forall e <- events :: OfRole(e, atServer)
        invariant Evolves(w, During(atServer, rest, FlatMap(Expand, events)), body)
        invariant Potential(During(atServer, rest, FlatMap(Expand, events)), body) < Potential(w, body)
        decreases |events|
      {
        ghost var before := During(atServer, rest, FlatMap(Expand, events));
        EvolvesKeeps(w, before, body);
        Handle(atServer, events[0], rest, FlatMap(Expand, events[1..]));
        events := events[1..];
        EvolvesTransitively(w, before, During(atServer, rest, FlatMap(Expand, events)), body);
        EvolvesKeeps(before, During(atServer, rest, FlatMap(Expand, events)), body);
      }
    }

    /** Drains the source, which the destination reads slice by slice. */
    method Deliver(atServer: bool) returns (moved: bool)
      requires Valid()
      modifies this`totals, client`state, client`queue, client`events,
               server`state, server`queue, server`bodies, server`events
      ensures Valid()
      ensures Evolves(old(View()), View(), scenario.responseBody)
      ensures moved ==> Potential(View(), scenario.responseBody) < Potential(old(View()), scenario.responseBody)
      ensures !moved ==> View().Receiver(atServer) == old(View()).Receiver(atServer)
      ensures !moved ==> Stuck(View().Sender(atServer))
    {
      hide Inv, Potential, Outcome, Evolves, StreamTape, Stuck, Schedules;
      ghost var w, body := View(), scenario.responseBody;
      QueuesAreOk(w, body);
      var source := Source(atServer);
      var wire, framing := source.DataToSend();
      DrainStarts(w, atServer, framing, body);
      assert During(atServer, wire, []) == Flushed(w, atServer, framing);
      moved := wire != [];
      while wire != []
        invariant Shape() && source.state.outbox == []
        invariant Evolves(w, During(atServer, wire, []), body)
        invariant !moved ==> During(atServer, wire, []) == Flushed(w, atServer, framing)
        invariant moved && wire == [] ==> Potential(During(atServer, wire, []), body) < Potential(w, body)
        decreases |wire|
      {
        ghost var before := During(atServer, wire, []);
        var n: nat :| 0 < n <= |wire|;
        assert wire[..n] + wire[n..] == wire;
        EvolvesKeeps(w, before, body);
        ReceiveSlice(atServer, wire[..n], wire[n..]);
        wire := wire[n..];
        EvolvesTransitively(w, before, During(atServer, wire, []), body);
      }
      assert During(atServer, [], []) == View();
      EvolvesKeeps(w, View(), body);
    }

    /** Both sides take turns until a whole round moves nothing; `|` evaluates both calls. */
    method Pump()
      requires Valid()
      modifies this`totals, client`state, client`queue, client`events,
               server`state, server`queue, server`bodies, server`events
      ensures Valid() && Quiescent(View())
      ensures Evolves(old(View()), View(), scenario.responseBody)
    {
      hide Inv, Potential, Outcome, StreamTape, Stuck, Quiescent;
      ghost var w, body := View(), scenario.responseBody;
      EvolvesReflexively(w, body);
      var moved := true;
      while moved
        invariant Valid()
        invariant Evolves(w, View(), body)
        invariant !moved ==> Quiescent(View())
        decreases Potential(View(), body), moved
      {
        ghost var before := View();
        var toServer := Deliver(true);
        ghost var between := View();
        var toClient := Deliver(false);
        moved := toServer || toClient;
        EvolvesTransitively(before, between, View(), body);
        EvolvesTransitively(w, before, View(), body);
        if !moved {
          StuckIsQuiescent(View(), body);
        }
      }
    }

    /** One request of an iteration. */
    method SendRequest(parts: seq<seq<Byte>>) returns (id: StreamId)
      requires Valid()
      modifies client`state, client`queue, client`bodies, client`nextStream
      ensures Valid() && id == old(client.nextStream) && client.nextStream == id + 2
      ensures View() == old(View()).(client := SendParts(old(View()).client, id, Merged(parts), |Merged(parts)|))
      ensures Outcome(View(), scenario.responseBody)
           == Plus(Outcome(old(View()), scenario.responseBody), Sum(Length, parts), true, scenario.responseBody)
      ensures forall s :: StreamTape(View().client, View().server, s)
                       == if s == id then MessageTape(Merged(parts))
                          else StreamTape(old(View()).client, old(View()).server, s)
    {
      hide Inv, StreamTape, MessageTape, Outcome, SendParts, Submit;
      ghost var w, body := View(), scenario.responseBody;
      var last := |parts| - 1;
      SendRequestIsSound(w, client.nextStream, Merged(parts), body);
      MergedLength(parts);
      NewIsAbsent(w, client.nextStream, body);
      id := client.SendRequest(parts == []);
      assert client.queue == StartBody(w.client.pending, id, Join(parts[..0]), false);
      for index := 0 to |parts|
        invariant Shape() && client.nextStream == id + 2
        invariant client.state == Opened(w.client, id, parts == []).conn && (index < |parts| ==> id in client.bodies)
        invariant client.queue == StartBody(w.client.pending, id, Join(parts[..index]), index == |parts| && parts != [])
        invariant View() == w.(client := View().client)
      {
        SubmitTwice(w.client.pending, id, Join(parts[..index]), parts[index], index == last);
        JoinLast(parts, index);
        client.SendData(id, parts[index], index == last);
      }
      assert parts[..|parts|] == parts;
      BodyIsOnePart(w.client, id, parts);
      SendPartsKeepsLimits(w.client, id, Merged(parts), |Merged(parts)|);
    }

    /** One iteration. */
    method Call() returns (result: seq<nat>)
      requires Valid() && Quiescent(View())
      modifies this`totals, client`state, client`queue, client`events, client`nextStream,
               client`bodies, server`state, server`queue, server`bodies, server`events
      ensures Valid() && Quiescent(View())
      ensures result == scenario.TotalsOf(scenario.Iterations())
      ensures result == scenario.Expected() <==> scenario.parallel >= 0
      ensures Reports(scenario, result)
      ensures Transferred(View(), old(client.nextStream), scenario.Iterations(),
                          Join(scenario.RequestParts()), scenario.responseBody)
      ensures Exchanged(old(View()), View(), old(client.nextStream), scenario.Iterations(),
                        Merged(scenario.RequestParts()), scenario.responseBody)
    {
      hide Inv, StreamTape, MessageTape, Outcome, Quiescent, Requested, Exchanged, Evolves;
      hide Transferred, Reports;
      ghost var w, body, first := View(), scenario.responseBody, client.nextStream;
      totals := [0, 0, 0, 0];
      var parts := scenario.RequestParts();
      ResetIsSound(w, scenario);
      for i := 0 to scenario.Iterations()
        invariant Valid() && client.nextStream == first + 2 * i
        invariant Outcome(View(), body) == scenario.TotalsOf(i)
        invariant Requested(w, View(), first, i, Merged(parts))
      {
        ghost var before := View();
        var id := SendRequest(parts);
        RequestedOneMore(w, before, View(), first, i, Merged(parts));
        TotalsGrow(scenario, i);
      }
      ghost var queued := View();
      Pump();
      ExchangeCompletes(w, queued, View(), first, scenario.Iterations(), Merged(parts), body);
      ExpectedIsTotals(scenario);
      TotalsInNumbers(scenario);
      MergedLength(parts);
      ExchangeTransfers(w, View(), first, scenario.Iterations(), Merged(parts), body);
      result := totals;
    }
  }
}
