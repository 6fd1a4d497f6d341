/** The requests one iteration queues, and what they add to the exchange. */
module Requests {
  import opened Basics
  import opened Folds
  import opened Http2
  import opened Flush
  import opened Direction
  import opened Exchange
  import opened Progress
  import opened Liveness
  import opened Scenarios

  /** The client after `send_headers` and the first `n` parts; the last part ends the stream. */
  function SendParts(x: Peer, id: StreamId, parts: seq<seq<Byte>>, n: nat): Peer
    requires n <= |parts|
  {
    if n == 0 then Opened(x, id, parts == [])
    else Queued(SendParts(x, id, parts, n - 1), id, Chunk(parts[n - 1], n == |parts|))
  }

  function PartialTape(parts: seq<seq<Byte>>, n: nat): Tape
    requires n <= |parts|
  {
    [Head] + FlatMap(Body, parts[..n]) + EndMark(n == |parts|)
  }

  lemma PartialTapeGrows(parts: seq<seq<Byte>>, n: nat)
    requires 0 < n <= |parts|
    ensures End !in PartialTape(parts, n - 1)
    ensures PartialTape(parts, n - 1) + ChunkTape(Chunk(parts[n - 1], n == |parts|)) == PartialTape(parts, n)
  {
    NoEndInParts(parts[..n - 1]);
    FlatMapConcat(Body, parts[..n - 1], [parts[n - 1]]);
    assert parts[..n - 1] + [parts[n - 1]] == parts[..n];
  }

  lemma {:induction false} NoEndInParts(parts: seq<seq<Byte>>)
    ensures End !in FlatMap(Body, parts)
  {
    if parts != [] {
      NoEndInBody(parts[0]);
      NoEndInParts(parts[1..]);
    }
  }

  /** While a request is being queued, the exchange stays sound and other streams do not change. */
  lemma {:induction false} SendPartsIsSound(w: World, id: StreamId, parts: seq<seq<Byte>>, n: nat, body: seq<Byte>)
    requires n <= |parts| && Inv(w, body) && id > 0 && StreamTape(w.client, w.server, id) == []
    ensures Inv(w.(client := SendParts(w.client, id, parts, n)), body)
    ensures forall s :: StreamTape(SendParts(w.client, id, parts, n), w.server, s)
                     == if s == id then PartialTape(parts, n) else StreamTape(w.client, w.server, s)
    decreases n
  {
    hide Inv, StreamTape, PartialTape;
    var x := SendParts(w.client, id, parts, n);
    if n == 0 {
      OpenKeepsInv(w, id, parts == [], body);
      forall s
        ensures StreamTape(x, w.server, s)
             == if s == id then PartialTape(parts, n) else StreamTape(w.client, w.server, s)
      {
        OpenAppends(w.client, w.server, id, parts == [], s);
        EmptyPartialTape(parts);
      }
    } else {
      var before := SendParts(w.client, id, parts, n - 1);
      var chunk := Chunk(parts[n - 1], n == |parts|);
      SendPartsIsSound(w, id, parts, n - 1, body);
      PartialTapeGrows(parts, n);
      QueueKeepsInv(w.(client := before), id, chunk, body);
      InvHasPendingOk(w.(client := before), body);
      forall s
        ensures StreamTape(x, w.server, s)
             == if s == id then PartialTape(parts, n) else StreamTape(w.client, w.server, s)
      {
        QueueAppends(before, w.server, id, chunk, s);
      }
    }
  }

  lemma EmptyPartialTape(parts: seq<seq<Byte>>)
    ensures PartialTape(parts, 0) == [Head] + EndMark(parts == [])
  {
  }

  lemma InvHasPendingOk(w: World, body: seq<Byte>)
    requires Inv(w, body)
    ensures PendingOk(w.client.pending)
  {
  }

  lemma FullTape(parts: seq<seq<Byte>>)
    ensures PartialTape(parts, |parts|) == MessageTape(parts)
  {
    assert parts[..|parts|] == parts;
  }

  // ---------------------------------------------------------------- what a request adds to the totals

  function Plus(outcome: seq<nat>, bytes: nat, complete: bool, body: seq<Byte>): seq<nat>
    requires |outcome| == 4
  {
    [outcome[0] + 1, outcome[1] + bytes,
     outcome[2] + if complete then 1 else 0, outcome[3] + if complete then |body| else 0]
  }

  lemma ClientLoad(w: World, x: Peer, bytes: nat, complete: bool, body: seq<Byte>)
    requires |w.totals| == 4 && x.events == w.client.events
    requires OutHeads(x) == OutHeads(w.client) + 1 && OutBytes(x) == OutBytes(w.client) + bytes
    requires OutEnds(x) == OutEnds(w.client) + if complete then 1 else 0
    ensures Outcome(w.(client := x), body) == Plus(Outcome(w, body), bytes, complete, body)
  {
    var w' := w.(client := x);
    if complete {
      assert EndsLeft(w') == EndsLeft(w) + 1;
      assert Times(|body|, EndsLeft(w')) == |body| + Times(|body|, EndsLeft(w));
    } else {
      assert EndsLeft(w') == EndsLeft(w);
    }
  }

  lemma {:induction false} SendPartsLoad(x: Peer, id: StreamId, parts: seq<seq<Byte>>, n: nat)
    requires n <= |parts|
    ensures var x' := SendParts(x, id, parts, n);
            && x'.events == x.events
            && OutHeads(x') == OutHeads(x) + 1
            && OutBytes(x') == OutBytes(x) + Sum(Length, parts[..n])
            && OutEnds(x') == OutEnds(x) + if n == |parts| then 1 else 0
    decreases n
  {
    hide OutHeads, OutBytes, OutEnds, Enqueue;
    if n == 0 {
      OpenLoad(x, id, parts == []);
    } else {
      SendPartsLoad(x, id, parts, n - 1);
      QueueLoad(SendParts(x, id, parts, n - 1), id, Chunk(parts[n - 1], n == |parts|));
      SumConcat(Length, parts[..n - 1], [parts[n - 1]]);
      assert parts[..n - 1] + [parts[n - 1]] == parts[..n];
    }
  }

  /** A whole request: one message on its stream, one request and one response more in the totals to come. */
  lemma SendRequestIsSound(w: World, id: StreamId, parts: seq<seq<Byte>>, body: seq<Byte>)
    requires Inv(w, body) && id > 0 && StreamTape(w.client, w.server, id) == []
    ensures var w' := w.(client := SendParts(w.client, id, parts, |parts|));
            && Inv(w', body)
            && Outcome(w', body) == Plus(Outcome(w, body), Sum(Length, parts), true, body)
            && forall s :: StreamTape(w'.client, w'.server, s)
                        == if s == id then MessageTape(parts) else StreamTape(w.client, w.server, s)
  {
    hide StreamTape, PartialTape, MessageTape, Outcome;
    SendPartsIsSound(w, id, parts, |parts|, body);
    SendPartsLoad(w.client, id, parts, |parts|);
    assert parts[..|parts|] == parts;
    ClientLoad(w, SendParts(w.client, id, parts, |parts|), Sum(Length, parts), true, body);
    FullTape(parts);
  }

  lemma OneMore(a: nat, n: nat)
    ensures a * (n + 1) == a * n + a
  {
  }

  lemma TotalsGrow(scenario: Scenario, n: nat)
    ensures Plus(scenario.TotalsOf(n), Sum(Length, scenario.RequestParts()), true, scenario.responseBody)
         == scenario.TotalsOf(n + 1)
  {
    OneMore(Sum(Length, scenario.RequestParts()), n);
    OneMore(|scenario.responseBody|, n);
  }

  /** `expected` counts a negative number of requests as negative; the loop then runs no request at all. */
  lemma ExpectedIsTotals(scenario: Scenario)
    ensures scenario.TotalsOf(scenario.Iterations()) == scenario.Expected() <==> scenario.parallel >= 0
  {
    if scenario.parallel < 0 {
      assert scenario.TotalsOf(0)[0] != scenario.Expected()[0];
    }
  }

  // ---------------------------------------------------------------- a finished iteration

  /** The streams of `n` requests: every second identifier from `first` on. */
  predicate IsNew(first: StreamId, n: nat, s: StreamId) {
    first <= s < first + 2 * n && (s - first) % 2 == 0
  }

  /** Both sides of each new stream carry their whole message, and no other stream has changed. */
  ghost predicate Exchanged(before: World, after: World, first: StreamId, n: nat,
      parts: seq<seq<Byte>>, body: seq<Byte>)
  {
    && (forall s :: TapeOf(s, after.server.conn.received)
                 == if IsNew(first, n, s) then MessageTape(parts) else TapeOf(s, before.server.conn.received))
    && (forall s :: TapeOf(s, after.client.conn.received)
                 == if IsNew(first, n, s) then MessageTape(BodyParts(body)) else TapeOf(s, before.client.conn.received))
  }

  /** What the client has queued after `n` requests. */
  ghost predicate Requested(before: World, w: World, first: StreamId, n: nat, parts: seq<seq<Byte>>) {
    forall s :: StreamTape(w.client, w.server, s)
             == if IsNew(first, n, s) then MessageTape(parts) else StreamTape(before.client, before.server, s)
  }

  lemma RequestedOneMore(before: World, w: World, w': World, first: StreamId, n: nat, parts: seq<seq<Byte>>)
    requires Requested(before, w, first, n, parts)
    requires forall s :: StreamTape(w'.client, w'.server, s)
                      == if s == first + 2 * n then MessageTape(parts) else StreamTape(w.client, w.server, s)
    ensures Requested(before, w', first, n + 1, parts)
  {
    hide StreamTape, MessageTape;
    forall s ensures IsNew(first, n + 1, s) <==> IsNew(first, n, s) || s == first + 2 * n {
    }
  }

  lemma ExchangeCompletes(before: World, queued: World, after: World, first: StreamId, n: nat, parts: seq<seq<Byte>>,
      body: seq<Byte>)
    requires Inv(before, body) && Quiescent(before)
    requires Requested(before, queued, first, n, parts)
    requires |queued.totals| == 4 && Evolves(queued, after, body) && Quiescent(after)
    ensures after.totals == Outcome(queued, body)
    ensures Exchanged(before, after, first, n, parts, body)
  {
    hide StreamTape, TapeOf, Outcome, Inv, MessageTape, Quiescent;
    EvolvesFacts(queued, after, body);
    forall s
      ensures TapeOf(s, after.server.conn.received)
           == if IsNew(first, n, s) then MessageTape(parts) else TapeOf(s, before.server.conn.received)
      ensures TapeOf(s, after.client.conn.received)
           == if IsNew(first, n, s) then MessageTape(BodyParts(body)) else TapeOf(s, before.client.conn.received)
    {
      QuiescentIsComplete(before, body, s);
      QuiescentIsComplete(after, body, s);
      MessageEnds(parts);
    }
    QuiescentIsComplete(after, body, first);
  }

  lemma EvolvesFacts(w: World, w': World, body: seq<Byte>)
    requires Evolves(w, w', body)
    ensures Inv(w', body) && |w.totals| == |w'.totals| == 4 && Outcome(w', body) == Outcome(w, body)
    ensures forall s :: StreamTape(w'.client, w'.server, s) == StreamTape(w.client, w.server, s)
  {
  }

  lemma MessageEnds(parts: seq<seq<Byte>>)
    ensures End in MessageTape(parts)
  {
    var t := MessageTape(parts);
    assert t[|t| - 1] == End;
  }

  lemma FreshStream(w: World, id: StreamId, body: seq<Byte>)
    requires Inv(w, body) && StreamTape(w.client, w.server, id) == []
    ensures id !in w.client.conn.localEnded
  {
    assert StreamOk(w.client, w.server, id);
  }

  lemma {:induction false} SendPartsKeepsLimits(x: Peer, id: StreamId, parts: seq<seq<Byte>>, n: nat)
    requires n <= |parts|
    ensures SendParts(x, id, parts, n).conn.limits == x.conn.limits
    decreases n
  {
    if n > 0 {
      SendPartsKeepsLimits(x, id, parts, n - 1);
    }
  }

  lemma ResetIsSound(w: World, scenario: Scenario)
    requires Inv(w, scenario.responseBody) && Quiescent(w)
    ensures var w' := w.(totals := [0, 0, 0, 0]);
            && Inv(w', scenario.responseBody)
            && Outcome(w', scenario.responseBody) == scenario.TotalsOf(0)
            && forall first, parts :: Requested(w, w', first, 0, parts)
  {
    var w' := w.(totals := [0, 0, 0, 0]);
    QuiescentIsComplete(w', scenario.responseBody, 0);
  }
}
