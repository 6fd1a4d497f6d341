/** What the request trackers keep and answer, said by positions in the event trace instead of by an automaton. */
module Requested {
  import opened Basics
  import opened RequestTracker
  import opened Batching

  predicate Asks(e: Event, id: StreamId) {
    e.RequestReceived? && e.id == id
  }

  predicate Drops(e: Event, id: StreamId) {
    (e.StreamReset? || e.StreamClosed?) && e.id == id
  }

  /** The last event of a request: headers or data that end the stream, or trailers. */
  predicate Finishes(e: Event, id: StreamId) {
    match e
    case RequestReceived(i, _, end) => i == id && end
    case DataReceived(i, end) => i == id && end
    case TrailersReceived(i) => i == id
    case StreamReset(_) => false
    case StreamClosed(_) => false
    case GoAwayReceived => false
    case ConnectionClosed => false
  }

  predicate Undisturbed(events: Batch, id: StreamId, from: nat, to: nat)
    requires to <= |events|
  {
    forall j :: from <= j < to ==> !Drops(events[j], id)
  }

  /** Requested, here or before, and neither reset nor closed since. */
  predicate InUse(known: bool, events: Batch, id: StreamId, n: nat)
    requires n <= |events|
  {
    || (known && Undisturbed(events, id, 0, n))
    || exists i :: 0 <= i < n && Asks(events[i], id) && Undisturbed(events, id, i + 1, n)
  }

  /** Finished while in use, and neither reset nor closed since. */
  predicate Finished(known: bool, ready: bool, events: Batch, id: StreamId, n: nat)
    requires n <= |events|
  {
    || (ready && Undisturbed(events, id, 0, n))
    || exists k :: 0 <= k < n && Finishes(events[k], id) && Undisturbed(events, id, k + 1, n)
                   && (Asks(events[k], id) || InUse(known, events, id, k))
  }

  predicate LastAsk(events: Batch, id: StreamId, n: nat, i: nat)
    requires n <= |events|
  {
    i < n && Asks(events[i], id) && forall j :: i < j < n ==> !Asks(events[j], id)
  }

  predicate NeverAsked(events: Batch, id: StreamId, n: nat)
    requires n <= |events|
  {
    forall j :: 0 <= j < n ==> !Asks(events[j], id)
  }

  lemma InUseOneMore(known: bool, events: Batch, id: StreamId, n: nat)
    requires n < |events|
    ensures InUse(known, events, id, n + 1)
       <==> !Drops(events[n], id) && (Asks(events[n], id) || InUse(known, events, id, n))
  {
    if InUse(known, events, id, n + 1) && !Asks(events[n], id) && !(known && Undisturbed(events, id, 0, n + 1)) {
      var i :| 0 <= i < n + 1 && Asks(events[i], id) && Undisturbed(events, id, i + 1, n + 1);
      assert Undisturbed(events, id, i + 1, n);
    }
    if !Drops(events[n], id) && Asks(events[n], id) {
      assert Undisturbed(events, id, n + 1, n + 1);
    }
    if !Drops(events[n], id) && InUse(known, events, id, n) && !(known && Undisturbed(events, id, 0, n)) {
      var i :| 0 <= i < n && Asks(events[i], id) && Undisturbed(events, id, i + 1, n);
      assert Undisturbed(events, id, i + 1, n + 1);
    }
  }

  lemma FinishedOneMore(known: bool, ready: bool, events: Batch, id: StreamId, n: nat)
    requires n < |events|
    ensures Finished(known, ready, events, id, n + 1)
       <==> !Drops(events[n], id)
            && (Finished(known, ready, events, id, n)
                || (Finishes(events[n], id) && (Asks(events[n], id) || InUse(known, events, id, n))))
  {
    hide InUse, Finishes, Asks;
    if Finished(known, ready, events, id, n + 1) && !(ready && Undisturbed(events, id, 0, n + 1)) {
      var k :| 0 <= k < n + 1 && Finishes(events[k], id) && Undisturbed(events, id, k + 1, n + 1)
               && (Asks(events[k], id) || InUse(known, events, id, k));
      if k == n {
        FinishingIsNoDrop(events[n], id);
      } else {
        assert Undisturbed(events, id, k + 1, n);
      }
    }
    if !Drops(events[n], id) && Finishes(events[n], id) && (Asks(events[n], id) || InUse(known, events, id, n)) {
      assert Undisturbed(events, id, n + 1, n + 1);
    }
    if !Drops(events[n], id) && Finished(known, ready, events, id, n) && !(ready && Undisturbed(events, id, 0, n)) {
      var k :| 0 <= k < n && Finishes(events[k], id) && Undisturbed(events, id, k + 1, n)
               && (Asks(events[k], id) || InUse(known, events, id, k));
      assert Undisturbed(events, id, k + 1, n + 1);
    }
  }

  lemma FinishingIsNoDrop(e: Event, id: StreamId)
    ensures Finishes(e, id) ==> !Drops(e, id)
  {
  }

  ghost predicate Describes(q: Status, events: Batch, id: StreamId, n: nat, r: Status)
    requires n <= |events|
  {
    && (!r.Idle? <==> InUse(!q.Idle?, events, id, n))
    && (r.Ready? <==> Finished(!q.Idle?, q.Ready?, events, id, n))
    && (!r.Idle? ==> forall i: nat :: LastAsk(events, id, n, i) ==> r.headers == events[i].headers)
    && (!r.Idle? && NeverAsked(events, id, n) ==> !q.Idle? && r.headers == q.headers)
  }

  lemma OneEventDescribed(q: Status, events: Batch, id: StreamId, n: nat, r: Status)
    requires n < |events| && Describes(q, events, id, n, r)
    ensures Describes(q, events, id, n + 1, Next(r, events[n], id))
  {
    hide InUse, Finished;
    InUseOneMore(!q.Idle?, events, id, n);
    FinishedOneMore(!q.Idle?, q.Ready?, events, id, n);
    var e, r' := events[n], Next(r, events[n], id);
    forall i: nat | !r'.Idle? && LastAsk(events, id, n + 1, i)
      ensures i < |events| && Asks(events[i], id) && r'.headers == events[i].headers
    {
      if i < n {
        assert !Asks(e, id) && LastAsk(events, id, n, i);
      }
    }
  }

  /** The automaton of a stream, by positions: it is not idle exactly while the stream is in use, ready exactly when
      its request has been finished in use, and it holds the headers of the last request. */
  lemma {:induction false} TrackMeans(q: Status, events: Batch, id: StreamId, n: nat)
    requires n <= |events|
    ensures Describes(q, events, id, n, Track(q, events[..n], id))
    decreases n
  {
    hide Describes, Next;
    if n == 0 {
      NothingDescribed(q, events, id);
    } else {
      TrackMeans(q, events, id, n - 1);
      OneEventDescribed(q, events, id, n - 1, Track(q, events[..n - 1], id));
      assert events[..n] == events[..n - 1] + [events[n - 1]];
      TrackConcat(q, events[..n - 1], [events[n - 1]], id);
      OneTracked(Track(q, events[..n - 1], id), events[n - 1], id);
    }
  }

  lemma NothingDescribed(q: Status, events: Batch, id: StreamId)
    ensures Describes(q, events, id, 0, q) && Track(q, events[..0], id) == q
  {
    assert Undisturbed(events, id, 0, 0);
  }

  lemma OneTracked(q: Status, e: Event, id: StreamId)
    ensures Track(q, [e], id) == Next(q, e, id)
  {
    assert [e][1..] == [];
  }

  /** One batch of the example server. Answered are the streams whose request was finished in use; kept are those in
      use and not finished. Both come with the headers of the last request. */
  lemma BatchMeans(requests: map<StreamId, Fields>, events: Batch, id: StreamId)
    requires ConnectionClosed !in events
    ensures var n, known := |events|, id in requests;
            && (id in Answers(requests, events) <==> Finished(known, false, events, id, n))
            && (id in Remaining(requests, events)
                <==> InUse(known, events, id, n) && !Finished(known, false, events, id, n))
            && (forall i: nat :: LastAsk(events, id, n, i) ==>
                  && (id in Answers(requests, events) ==> Answers(requests, events)[id] == events[i].headers)
                  && (id in Remaining(requests, events) ==> Remaining(requests, events)[id] == events[i].headers))
            && (NeverAsked(events, id, n) ==>
                  && (id in Answers(requests, events) ==> known && Answers(requests, events)[id] == requests[id])
                  && (id in Remaining(requests, events) ==> known && Remaining(requests, events)[id] == requests[id]))
  {
    hide InUse, Finished, LastAsk, NeverAsked, Answers, Remaining;
    OneBatch(requests, events, id);
    TrackMeans(Tracked(requests, id), events, id, |events|);
    assert events[..|events|] == events;
    LastAsksAreThere(events, id);
  }

  lemma LastAsksAreThere(events: Batch, id: StreamId)
    ensures forall i: nat :: LastAsk(events, id, |events|, i) ==> i < |events| && events[i].RequestReceived?
  {
  }

  /** The driver loop up to the batch that closes the connection: the batches before it as if it did not exist,
      nothing in it, and nothing after it. */
  lemma {:induction false} ServeUntilClosed(requests: map<StreamId, Fields>, before: seq<Batch>, last: Batch,
      after: seq<Batch>)
    requires NoClose(before) && ConnectionClosed in last
    ensures var all := Serve(requests, before + ([last] + after));
            all.closed && all.answers == Serve(requests, before).answers + [map[]]
    decreases |before|
  {
    hide Scan, Remaining, Answers;
    if before == [] {
      assert before + ([last] + after) == [last] + after;
      ClosedAnswersNothing(requests, last);
    } else {
      assert !Closes(before[0]);
      OpenGoesOn(requests, before[0]);
      ServeUntilClosed(Remaining(requests, before[0]), before[1..], last, after);
      assert (before + ([last] + after))[1..] == before[1..] + ([last] + after);
    }
  }

  lemma ClosedAnswersNothing(requests: map<StreamId, Fields>, last: Batch)
    requires ConnectionClosed in last
    ensures Scan(requests, last).closed && Answers(requests, last) == map[]
  {
    ClosedByEvent(State(requests, {}, false), last);
  }

  lemma OpenGoesOn(requests: map<StreamId, Fields>, batch: Batch)
    requires !Closes(batch)
    ensures !Scan(requests, batch).closed
  {
    ClosedByEvent(State(requests, {}, false), batch);
  }
}
