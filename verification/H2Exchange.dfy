/** The class `H2Exchange`: two connections, their `pending` queues and the loops that drive them. */
module H2Exchanges {
  import opened Basics
  import opened Folds
  import opened Http2
  import opened Flush
  import opened Direction
  import opened Exchange
  import opened Progress
  import opened Liveness
  import opened Cells
  import opened Requests
  import opened Scenarios
  import opened Transfer

  function GreedyFlush(w: World, atServer: bool): FlushResult {
    FlushAll(w.Sender(atServer).conn, w.Sender(atServer).pending)
  }

  /** What `deliver` relies on when it flushes, and what it can say if nothing comes of it. */
  lemma {:induction false} DeliverStarts(w: World, atServer: bool, body: seq<Byte>)
    requires Inv(w, body) && GoodLimits(w.client.conn.limits)
    ensures AllLegal(w.Sender(atServer).conn, w.Sender(atServer).pending)
    ensures w.Receiver(atServer).conn.limits == w.client.conn.limits
    ensures Evolves(w, Flushed(w, atServer, GreedyFlush(w, atServer)), body)
    ensures var x := Framed(w.Sender(atServer), GreedyFlush(w, atServer)); x.conn.outbox == [] ==> Stuck(x)
  {
    hide FlushAll;
    var x := w.Sender(atServer);
    forall p | p in x.pending ensures Legal(x.conn, p.id, p.queue) {
      PendingIsLegal(x, w.Receiver(atServer), p);
    }
    FlushSchedules(x.conn, x.pending);
    FlushEvolves(w, atServer, GreedyFlush(w, atServer), body);
  }

  class H2Exchange {
    const scenario: Scenario
    const client: H2Connection
    const server: H2Connection
    var pending: map<H2Connection, seq<Row>>
    var totals: seq<nat>

    /** `frame` and `threshold` are what the library negotiates and how it batches credit. */
    constructor (scenario: Scenario, frame: nat, threshold: nat)
      requires GoodLimits(Limits(scenario.InitialWindow(), frame, threshold))
      ensures fresh(client) && fresh(server) && Valid() && Quiescent(View())
      ensures this.scenario == scenario
      ensures var window := if scenario.window.Some? then scenario.window.value else 65_535;
              client.state == server.state == Fresh(Limits(window, frame, threshold))
    {
      this.scenario := scenario;
      var c := new H2Connection(false, Limits(scenario.InitialWindow(), frame, threshold));
      var s := new H2Connection(true, Limits(scenario.InitialWindow(), frame, threshold));
      client, server := c, s;
      pending := map[c := [], s := []];
      totals := [0, 0, 0, 0];
      new;
      InitiallyInv(client.state.limits, scenario.responseBody);
    }

    predicate Shape()
      reads this
    {
      && client != server && !client.serverSide && server.serverSide
      && pending.Keys == {client, server}
      && RowsOk(pending[client]) && RowsOk(pending[server])
      && |totals| == 4
    }

    function Source(atServer: bool): H2Connection { if atServer then client else server }
    function Destination(atServer: bool): H2Connection { if atServer then server else client }

    ghost function PeerOf(connection: H2Connection, events: seq<Event>): Peer
      requires Shape() && connection in {client, server}
      reads this, connection
    {
      Peer(connection.state, Entries(pending[connection]), events)
    }

    ghost function View(): World
      requires Shape()
      reads this, client, server
    {
      World(PeerOf(client, []), PeerOf(server, []), totals)
    }

    /** The exchange inside `deliver`: `wire` has left the source and is not received yet, `events` are
        received and not handled. */
    ghost function During(atServer: bool, wire: seq<Frame>, events: seq<Event>): World
      requires Shape()
      reads this, client, server
    {
      var x := PeerOf(Source(atServer), []);
      View().With(atServer, x.(conn := x.conn.(outbox := wire)), PeerOf(Destination(atServer), events))
    }

    ghost predicate Valid()
      reads this, client, server
    {
      && Shape()
      && Inv(View(), scenario.responseBody)
      && GoodLimits(client.state.limits)
      && client.nextStream > 0
      && forall s :: s >= client.nextStream ==> StreamTape(View().client, View().server, s) == []
    }

    method SendData(connection: H2Connection, id: StreamId, data: seq<Byte>, end: bool)
      requires Shape() && connection in {client, server}
      modifies this`pending
      ensures Shape()
      ensures Entries(pending[connection]) == Enqueue(Entries(old(pending[connection])), id, Chunk(data, end))
      ensures forall other :: other in {client, server} && other != connection ==> pending[other] == old(pending[other])
    {
      AppendIsEnqueue(pending[connection], id, data, end);
      pending := pending[connection := Append(pending[connection], id, Cell(data, 0, end))];
    }

    /** `flush`: `pending` is walked in insertion order; a queue that is emptied is deleted. */
    method Flush(connection: H2Connection)
      requires Shape() && connection in {client, server}
      requires AllLegal(connection.state, Entries(pending[connection]))
      modifies this`pending, connection`state
      ensures Shape()
      ensures var r := FlushAll(old(connection.state), Entries(old(pending[connection])));
              connection.state == r.conn && Entries(pending[connection]) == r.pending
      ensures forall other :: other in {client, server} && other != connection ==> pending[other] == old(pending[other])
    {
      hide FlushAll, Cut, AllLegal, Legal, Visiting, Entries, Chunks, RowsOk, CellsOk, FlatMap, Sum, TapeOf;
      var rows, visited := pending[connection], [];
      ghost var all := FlushAll(connection.state, Entries(rows));
      VisitStart(connection.state, rows);
      while rows != []
        invariant Shape() && RowsOk(rows) && RowsOk(visited) && pending[connection] == visited + rows
        invariant forall c :: c in {client, server} && c != connection ==> pending[c] == old(pending[c])
        invariant AllLegal(connection.state, Entries(rows))
        invariant Visiting(all, visited, connection.state, rows)
        decreases |rows|
      {
        VisitNext(all, visited, connection.state, rows);
        var left := FlushQueue(connection, rows[0].id, rows[0].cells);
        if left != [] {
          visited := visited + [Row(rows[0].id, left)];
        }
        rows := rows[1..];
        EntriesConcat(visited, rows);
        pending := pending[connection := visited + rows];
      }
      VisitDone(all, visited, connection.state);
    }

    method Respond(id: StreamId)
      requires Shape() && id > 0 && id !in server.state.localEnded
      modifies this`pending, server`state, server`nextStream
      ensures Shape() && pending[client] == old(pending[client])
      ensures PeerOf(server, []) == Responded(old(PeerOf(server, [])), id, scenario.responseBody)
    {
      var body := scenario.responseBody;
      server.SendHeaders(id, body == []);
      if body != [] {
        SendData(server, id, body, true);
      }
    }

    /** The body of the event loop in `deliver`. */
    method Handle(atServer: bool, e: Event, ghost wire: seq<Frame>, ghost rest: seq<Event>)
      requires Shape() && Destination(atServer).state.limits.threshold > 0 && !e.DataConsumed?
      requires Inv(During(atServer, wire, [e] + rest), scenario.responseBody)
      modifies this`pending, this`totals, Destination(atServer)`state, server`nextStream
      ensures Shape() && pending[Source(atServer)] == old(pending[Source(atServer)])
      ensures Evolves(old(During(atServer, wire, [e] + rest)), During(atServer, wire, rest), scenario.responseBody)
    {
      hide Inv, Evolves, Entries, RowsOk;
      ghost var w := During(atServer, wire, [e] + rest);
      ghost var connection, stream: nat := 0, 0;
      assert ([e] + rest)[1..] == rest;
      HandleIsLegal(w, atServer, scenario.responseBody);
      match e {
        case DataReceived(id, data) =>
          if atServer {
            totals := totals[1 := totals[1] + |data|];
          } else {
            totals := totals[3 := totals[3] + |data|];
          }
          connection, stream := Destination(atServer).AcknowledgeReceivedData(|data|, id);
        case RequestReceived(_) =>
          totals := totals[0 := totals[0] + 1];
        case ResponseReceived(_) =>
          totals := totals[2 := totals[2] + 1];
        case StreamEnded(id) =>
          if atServer {
            Respond(id);
          }
      }
      assert During(atServer, wire, rest) == Handled(w, atServer, scenario.responseBody, connection, stream);
      HandleEvolves(w, atServer, scenario.responseBody, connection, stream);
    }

    /** Receives one slice of the wire and handles the events it completes, oldest first. */
    method ReceiveSlice(atServer: bool, slice: seq<Frame>, ghost rest: seq<Frame>)
      requires Shape() && Destination(atServer).state.limits.threshold > 0 && slice != []
      requires Inv(During(atServer, slice + rest, []), scenario.responseBody)
      modifies this`pending, this`totals, Destination(atServer)`state, server`nextStream
      ensures Shape() && pending[Source(atServer)] == old(pending[Source(atServer)])
      ensures Destination(atServer).state.limits == old(Destination(atServer).state.limits)
      ensures Evolves(old(During(atServer, slice + rest, [])), During(atServer, rest, []), scenario.responseBody)
      ensures Potential(During(atServer, rest, []), scenario.responseBody)
            < Potential(old(During(atServer, slice + rest, [])), scenario.responseBody)
    {
      hide Inv, Potential, Outcome, Evolves, Entries, RowsOk, StreamTape;
      ghost var w, body := During(atServer, slice + rest, []), scenario.responseBody;
      var events, keeps := Destination(atServer).ReceiveData(slice);
      assert (slice + rest)[..|slice|] == slice && (slice + rest)[|slice|..] == rest;
      assert [] + events == events;
      ReceiveAllKeepsLimits(w.Receiver(atServer).conn, slice, keeps);
      BatchIsReceived(w, atServer, keeps);
      BatchEvolves(w, atServer, keeps, body);
      assert During(atServer, rest, events) == BatchDelivered(w, atServer, keeps);
      while events != []
        invariant Shape() && pending[Source(atServer)] == old(pending[Source(atServer)])
        invariant forall e <- events :: !e.DataConsumed?
        invariant Destination(atServer).state.limits == old(Destination(atServer).state.limits)
        invariant Evolves(w, During(atServer, rest, events), body)
        invariant Potential(During(atServer, rest, events), body) < Potential(w, body)
        decreases |events|
      {
        ghost var before := During(atServer, rest, events);
        assert [events[0]] + events[1..] == events;
        EvolvesKeeps(w, before, body);
        Handle(atServer, events[0], rest, events[1..]);
        events := events[1..];
        EvolvesTransitively(w, before, During(atServer, rest, events), body);
        EvolvesKeeps(before, During(atServer, rest, events), body);
      }
    }

    /** Drains the source, which the destination reads piece by piece: each `READ_SIZE` slice completes
        some number of frames, and slices that complete none have no effect. */
    method Deliver(atServer: bool) returns (moved: bool)
      requires Valid()
      modifies this`pending, this`totals, client`state, server`state, server`nextStream
      ensures Valid()
      ensures Evolves(old(View()), View(), scenario.responseBody)
      ensures moved ==> Potential(View(), scenario.responseBody) < Potential(old(View()), scenario.responseBody)
      ensures !moved ==> PeerOf(Destination(atServer), []) == old(PeerOf(Destination(atServer), []))
      ensures !moved ==> Stuck(PeerOf(Source(atServer), []))
    {
      hide Inv, Potential, Outcome, Evolves, Entries, RowsOk, StreamTape, FlushAll, Stuck, AllLegal;
      ghost var w, body := View(), scenario.responseBody;
      var source := Source(atServer);
      DeliverStarts(w, atServer, body);
      Flush(source);
      var wire := source.DataToSend();
      assert During(atServer, wire, []) == Flushed(w, atServer, GreedyFlush(w, atServer));
      moved := wire != [];
      while wire != []
        invariant Shape() && source.state.outbox == []
        invariant Destination(atServer).state.limits == w.client.conn.limits
        invariant Evolves(w, During(atServer, wire, []), body)
        invariant !moved ==> During(atServer, wire, []) == Flushed(w, atServer, GreedyFlush(w, atServer))
        invariant moved && wire == [] ==> Potential(During(atServer, wire, []), body) < Potential(w, body)
        decreases |wire|
      {
        ghost var before := During(atServer, wire, []);
        var n: nat :| 0 < n <= |wire|;
        assert wire[..n] + wire[n..] == wire;
        EvolvesKeeps(w, before, body);
        ReceiveSlice(atServer, wire[..n], wire[n..]);
        wire := wire[n..];
        EvolvesTransitively(w, before, During(atServer, wire, []), body);
      }
      assert During(atServer, [], []) == View();
      EvolvesKeeps(w, View(), body);
    }

    /** Both sides take turns until a whole round moves nothing; `|` evaluates both calls. */
    method Pump()
      requires Valid()
      modifies this`pending, this`totals, client`state, server`state, server`nextStream
      ensures Valid() && Quiescent(View())
      ensures Evolves(old(View()), View(), scenario.responseBody)
    {
      hide Inv, Potential, Outcome, Entries, RowsOk, StreamTape, Stuck, Quiescent;
      ghost var w, body := View(), scenario.responseBody;
      EvolvesReflexively(w, body);
      var moved := true;
      while moved
        invariant Valid()
        invariant Evolves(w, View(), body)
        invariant !moved ==> Quiescent(View())
        decreases Potential(View(), body), moved
      {
        ghost var before := View();
        var toServer := Deliver(true);
        ghost var between := View();
        var toClient := Deliver(false);
        moved := toServer || toClient;
        EvolvesTransitively(before, between, View(), body);
        EvolvesTransitively(w, before, View(), body);
        if !moved {
          StuckIsQuiescent(View(), body);
        }
      }
    }

    /** One request of an iteration: headers, then a queued cell per part, the last one ending the stream. */
    method SendRequest(parts: seq<seq<Byte>>) returns (id: StreamId)
      requires Valid()
      modifies this`pending, client`state, client`nextStream
      ensures Valid() && id == old(client.nextStream) && client.nextStream == id + 2
      ensures View() == old(View()).(client := SendParts(old(View()).client, id, parts, |parts|))
      ensures Outcome(View(), scenario.responseBody)
           == Plus(Outcome(old(View()), scenario.responseBody), Sum(Length, parts), true, scenario.responseBody)
      ensures forall s :: StreamTape(View().client, View().server, s)
                       == if s == id then MessageTape(parts) else StreamTape(old(View()).client, old(View()).server, s)
    {
      hide Inv, StreamTape, MessageTape, Outcome, Entries, RowsOk;
      ghost var w, body := View(), scenario.responseBody;
      var last := |parts| - 1;
      id := client.GetNextAvailableStreamId();
      SendRequestIsSound(w, id, parts, body);
      FreshStream(w, id, body);
      client.SendHeaders(id, parts == []);
      for index := 0 to |parts|
        invariant Shape() && client.nextStream == id + 2
        invariant View() == w.(client := SendParts(w.client, id, parts, index))
      {
        SendData(client, id, parts[index], index == last);
      }
      SendPartsKeepsLimits(w.client, id, parts, |parts|);
    }

    /** One iteration. It ends with nothing pending or in flight, so the next one starts like the first. */
    method Call() returns (result: seq<nat>)
      requires Valid() && Quiescent(View())
      modifies this`pending, this`totals, client`state, client`nextStream, server`state, server`nextStream
      ensures Valid() && Quiescent(View())
      ensures result == scenario.TotalsOf(scenario.Iterations())
      ensures result == scenario.Expected() <==> scenario.parallel >= 0
      ensures Reports(scenario, result)
      ensures Transferred(View(), old(client.nextStream), scenario.Iterations(),
                          Join(scenario.RequestParts()), scenario.responseBody)
      ensures Exchanged(old(View()), View(), old(client.nextStream), scenario.Iterations(),
                        scenario.RequestParts(), scenario.responseBody)
    {
      hide Inv, StreamTape, MessageTape, Outcome, Entries, RowsOk, Quiescent, Requested, Exchanged, Evolves;
      hide Transferred, Reports;
      ghost var w, body, first := View(), scenario.responseBody, client.nextStream;
      totals := [0, 0, 0, 0];
      var parts := scenario.RequestParts();
      ResetIsSound(w, scenario);
      for i := 0 to scenario.Iterations()
        invariant Valid() && client.nextStream == first + 2 * i
        invariant Outcome(View(), body) == scenario.TotalsOf(i)
        invariant Requested(w, View(), first, i, parts)
      {
        ghost var before := View();
        var id := SendRequest(parts);
        RequestedOneMore(w, before, View(), first, i, parts);
        TotalsGrow(scenario, i);
      }
      ghost var queued := View();
      Pump();
      ExchangeCompletes(w, queued, View(), first, scenario.Iterations(), parts, body);
      ExpectedIsTotals(scenario);
      TotalsInNumbers(scenario);
      ExchangeTransfers(w, View(), first, scenario.Iterations(), parts, body);
      result := totals;
    }
  }
}
