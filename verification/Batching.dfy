/** What the boundaries between batches change: the same events, delivered in one batch or split. */
module Batching {
  import opened Basics
  import opened Folds
  import opened RequestTracker

  function Next(q: Status, e: Event, id: StreamId): Status {
    if Concerns(e, id) then Advance(q, e) else q
  }

  lemma {:induction false} TrackConcat(q: Status, a: Batch, b: Batch, id: StreamId)
    ensures Track(q, a + b, id) == Track(Track(q, a, id), b, id)
    decreases |a|
  {
    if a == [] {
      assert a + b == b;
    } else {
      TrackConcat(Next(q, a[0], id), a[1..], b, id);
      assert (a + b)[1..] == a[1..] + b;
    }
  }

  lemma {:induction false} RequestsConcat(a: Batch, b: Batch, id: StreamId)
    ensures RequestsIn(a + b, id) == RequestsIn(a, id) + RequestsIn(b, id)
    decreases |a|
  {
    if a == [] {
      assert a + b == b;
    } else {
      RequestsConcat(a[1..], b, id);
      assert (a + b)[1..] == a[1..] + b;
    }
  }

  lemma {:induction false} JoinedRequests(batches: seq<Batch>, id: StreamId)
    ensures RequestsIn(Join(batches), id) == RequestsInAll(batches, id)
  {
    if batches != [] {
      JoinedRequests(batches[1..], id);
      RequestsConcat(batches[0], Join(batches[1..]), id);
    }
  }

  lemma {:induction false} JoinedCloses(batches: seq<Batch>)
    ensures Closes(Join(batches)) <==> !NoClose(batches)
  {
    if batches != [] {
      JoinedCloses(batches[1..]);
      assert NoClose(batches) <==> !Closes(batches[0]) && NoClose(batches[1..]);
    }
  }

  /** A stream that is not tracked stays so without a request, and a tracked one has used a request up. */
  predicate Spent(q: Status, requests: nat) {
    requests + Busy(q) <= 1
  }

  lemma {:induction false} TrackSpends(q: Status, events: Batch, id: StreamId, later: nat)
    requires Spent(q, RequestsIn(events, id) + later)
    ensures Spent(Track(q, events, id), later)
  {
    TrackNeedsRequests(q, events, id);
  }

  lemma {:induction false} ReadyInOneBatch(q: Status, batches: seq<Batch>, id: StreamId)
    requires !q.Ready? && Spent(q, RequestsInAll(batches, id))
    requires Track(q, Join(batches), id).Ready?
    ensures AnsweredByAutomaton(q, batches, id) >= 1
    decreases |batches|
  {
    if batches != [] {
      var q' := Track(q, batches[0], id);
      TrackConcat(q, batches[0], Join(batches[1..]), id);
      TrackSpends(q, batches[0], id, RequestsInAll(batches[1..], id));
      if !q'.Ready? {
        ReadyInOneBatch(q', batches[1..], id);
      }
    }
  }

  lemma SingleBatch(es: Batch, id: StreamId)
    ensures AnsweredByAutomaton(Idle, [es], id) == if Track(Idle, es, id).Ready? then 1 else 0
  {
    assert [es][1..] == [];
    assert AnsweredByAutomaton(Settle(Track(Idle, es, id)), [], id) == 0;
  }

  /** Batching monotonicity: a stream that is requested once and answered when the whole trace is one
      batch is answered under every split of the trace. */
  lemma AnsweredUnderEverySplit(batches: seq<Batch>, id: StreamId)
    requires NoClose(batches) && RequestsInAll(batches, id) <= 1
    ensures Answered(Serve(map[], [Join(batches)]).answers, id) <= Answered(Serve(map[], batches).answers, id)
  {
    JoinedCloses(batches);
    ServeRefinesAutomaton(map[], batches, id);
    ServeRefinesAutomaton(map[], [Join(batches)], id);
    SingleBatch(Join(batches), id);
    if Track(Idle, Join(batches), id).Ready? {
      ReadyInOneBatch(Idle, batches, id);
    }
  }

  predicate Ends(e: Event) {
    e.StreamReset? || e.StreamClosed?
  }

  /** Once the stream is complete, no reset or close of it follows. */
  predicate Kept(q: Status, events: Batch, id: StreamId)
    decreases |events|
  {
    events == []
    || (!(q.Ready? && Concerns(events[0], id) && Ends(events[0])) && Kept(Next(q, events[0], id), events[1..], id))
  }

  lemma {:induction false} KeptConcat(q: Status, a: Batch, b: Batch, id: StreamId)
    ensures Kept(q, a + b, id) <==> Kept(q, a, id) && Kept(Track(q, a, id), b, id)
    decreases |a|
  {
    if a == [] {
      assert a + b == b;
    } else {
      KeptConcat(Next(q, a[0], id), a[1..], b, id);
      assert (a + b)[1..] == a[1..] + b;
    }
  }

  lemma {:induction false} KeptStaysReady(q: Status, events: Batch, id: StreamId)
    requires q.Ready? && Kept(q, events, id)
    ensures Track(q, events, id).Ready?
    decreases |events|
  {
    if events != [] {
      KeptStaysReady(Next(q, events[0], id), events[1..], id);
    }
  }

  lemma {:induction false} UnrequestedIsUnanswered(batches: seq<Batch>, id: StreamId)
    requires RequestsInAll(batches, id) == 0
    ensures AnsweredByAutomaton(Idle, batches, id) == 0
  {
    if batches != [] {
      TrackNeedsRequests(Idle, batches[0], id);
      UnrequestedIsUnanswered(batches[1..], id);
    }
  }

  lemma {:induction false} KeptSplitsAgree(q: Status, batches: seq<Batch>, id: StreamId)
    requires !q.Ready? && Spent(q, RequestsInAll(batches, id)) && Kept(q, Join(batches), id)
    ensures AnsweredByAutomaton(q, batches, id) == if Track(q, Join(batches), id).Ready? then 1 else 0
    decreases |batches|
  {
    if batches != [] {
      var q', rest := Track(q, batches[0], id), batches[1..];
      TrackConcat(q, batches[0], Join(rest), id);
      KeptConcat(q, batches[0], Join(rest), id);
      TrackSpends(q, batches[0], id, RequestsInAll(rest, id));
      if q'.Ready? {
        KeptStaysReady(q', Join(rest), id);
        UnrequestedIsUnanswered(rest, id);
      } else {
        KeptSplitsAgree(q', rest, id);
      }
    }
  }

  function Singletons(events: Batch): seq<Batch> {
    if events == [] then [] else [[events[0]]] + Singletons(events[1..])
  }

  lemma {:induction false} JoinSingletons(events: Batch, id: StreamId)
    ensures Join(Singletons(events)) == events
    ensures RequestsInAll(Singletons(events), id) == RequestsIn(events, id)
    ensures NoClose(Singletons(events)) <==> !Closes(events)
  {
    if events != [] {
      JoinSingletons(events[1..], id);
      JoinedRequests(Singletons(events), id);
      JoinedCloses(Singletons(events));
    }
  }

  /** A completed stream that is reset later: nothing is left of it in one batch... */
  lemma {:induction false} LostInOneBatch(q: Status, events: Batch, id: StreamId)
    requires Spent(q, RequestsIn(events, id)) && !Kept(q, events, id)
    ensures Track(q, events, id) == Idle
    decreases |events|
  {
    var next := Next(q, events[0], id);
    assert Busy(next) <= Busy(q) + RequestsIn(events, id) - RequestsIn(events[1..], id);
    if q.Ready? && Concerns(events[0], id) && Ends(events[0]) {
      TrackNeedsRequests(Idle, events[1..], id);
    } else {
      LostInOneBatch(next, events[1..], id);
    }
  }

  /** ...but event by event it is answered before the reset arrives. */
  lemma {:induction false} AnsweredOneByOne(q: Status, events: Batch, id: StreamId)
    requires !q.Ready? && Spent(q, RequestsIn(events, id)) && !Kept(q, events, id)
    ensures AnsweredByAutomaton(q, Singletons(events), id) >= 1
    decreases |events|
  {
    var next, rest := Next(q, events[0], id), Singletons(events[1..]);
    assert Track(q, [events[0]], id) == next by {
      assert [events[0]][1..] == [];
    }
    assert Singletons(events)[0] == [events[0]] && Singletons(events)[1..] == rest;
    assert Busy(next) <= Busy(q) + RequestsIn(events, id) - RequestsIn(events[1..], id);
    if !next.Ready? {
      AnsweredOneByOne(next, events[1..], id);
    }
  }

  /** Batching is invisible for a stream requested once, if and only if no reset or close of it follows its
      completion: then every split answers it equally often, and otherwise two splits differ. */
  lemma SplitsAgreeExactlyWhenKept(events: Batch, id: StreamId)
    requires !Closes(events) && RequestsIn(events, id) <= 1
    ensures Kept(Idle, events, id) <==>
            forall batches: seq<Batch> :: Join(batches) == events ==>
              Answered(Serve(map[], batches).answers, id) == Answered(Serve(map[], [events]).answers, id)
  {
    ServeRefinesAutomaton(map[], [events], id);
    SingleBatch(events, id);
    if Kept(Idle, events, id) {
      forall batches: seq<Batch> | Join(batches) == events
        ensures Answered(Serve(map[], batches).answers, id) == Answered(Serve(map[], [events]).answers, id)
      {
        JoinedCloses(batches);
        JoinedRequests(batches, id);
        ServeRefinesAutomaton(map[], batches, id);
        KeptSplitsAgree(Idle, batches, id);
      }
    } else {
      LostInOneBatch(Idle, events, id);
      AnsweredOneByOne(Idle, events, id);
      JoinSingletons(events, id);
      ServeRefinesAutomaton(map[], Singletons(events), id);
    }
  }

  lemma ResetForgets(q: Status, id: StreamId)
    ensures Track(q, [StreamReset(id), StreamClosed(id)], id) == Idle
  {
    var reset := [StreamReset(id), StreamClosed(id)];
    assert reset[1..] == [StreamClosed(id)];
    assert Track(q, reset, id) == Track(Idle, reset[1..], id);
    assert [StreamClosed(id)][1..] == [];
    assert Track(Idle, [StreamClosed(id)], id) == Track(Idle, [], id);
  }

  /** A complete request that is reset in the same batch is never answered; one batch earlier it would have been. */
  lemma ResetRequestIsLost(id: StreamId, headers: Fields)
    ensures var request, reset := RequestReceived(id, headers, true), [StreamReset(id), StreamClosed(id)];
            && Answered(Serve(map[], [[request] + reset]).answers, id) == 0
            && Answered(Serve(map[], [[request], reset]).answers, id) == 1
  {
    var request: Event, reset: Batch := RequestReceived(id, headers, true), [StreamReset(id), StreamClosed(id)];
    var one, two := [[request] + reset], [[request], reset];
    assert reset[1..] == [StreamClosed(id)] && reset[1..][1..] == [] && [request][1..] == [];
    ResetForgets(Idle, id);
    ResetForgets(Ready(headers), id);
    TrackConcat(Idle, [request], reset, id);
    ServeRefinesAutomaton(map[], one, id);
    ServeRefinesAutomaton(map[], two, id);
    SingleBatch([request] + reset, id);
    assert two[1..] == [reset];
    SingleBatch(reset, id);
  }
}
