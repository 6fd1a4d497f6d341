/** The request bookkeeping of the example server (`process_request_events` and the loop around it).

    A batch is what one call of `connection.events()` returns. The model follows the code: `ready`
    lives for one batch, `requests` for the whole connection.
 */
module RequestTracker {
  import opened Basics

  datatype Header = Header(name: string, value: string)
  type Fields = seq<Header>

  /** Events other than these do not reach any branch. */
  datatype Event =
    | RequestReceived(id: StreamId, headers: Fields, end: bool)
    | DataReceived(id: StreamId, end: bool)
    | TrailersReceived(id: StreamId)
    | StreamReset(id: StreamId)
    | StreamClosed(id: StreamId)
    | GoAwayReceived
    | ConnectionClosed

  type Batch = seq<Event>

  // ---------------------------------------------------------------- the code

  datatype State = State(requests: map<StreamId, Fields>, ready: set<StreamId>, closed: bool)

  function Step(st: State, e: Event): State {
    match e
    case RequestReceived(id, headers, end) =>
      st.(requests := st.requests[id := headers], ready := st.ready + if end then {id} else {})
    case DataReceived(id, end) =>
      if end && id in st.requests then st.(ready := st.ready + {id}) else st
    case TrailersReceived(id) =>
      if id in st.requests then st.(ready := st.ready + {id}) else st
    case StreamReset(id) => st.(requests := st.requests - {id}, ready := st.ready - {id})
    case StreamClosed(id) => st.(requests := st.requests - {id}, ready := st.ready - {id})
    case GoAwayReceived => st
    case ConnectionClosed => st.(closed := true)
  }

  function Fold(st: State, events: Batch): State
    decreases |events|
  {
    if events == [] then st else Fold(Step(st, events[0]), events[1..])
  }

  function Scan(requests: map<StreamId, Fields>, events: Batch): State {
    Fold(State(requests, {}, false), events)
  }

  /** Streams answered by one batch, with the headers handed to `send_response`. */
  function Answers(requests: map<StreamId, Fields>, events: Batch): map<StreamId, Fields> {
    var st := Scan(requests, events);
    if st.closed then map[] else map id | id in st.ready && id in st.requests :: st.requests[id]
  }

  /** What is still tracked after one batch. */
  function Remaining(requests: map<StreamId, Fields>, events: Batch): map<StreamId, Fields> {
    var st := Scan(requests, events);
    if st.closed then st.requests else st.requests - st.ready
  }

  lemma {:induction false} FoldConcat(st: State, a: Batch, b: Batch)
    ensures Fold(st, a + b) == Fold(Fold(st, a), b)
    decreases |a|
  {
    if a == [] {
      assert a + b == b;
    } else {
      FoldConcat(Step(st, a[0]), a[1..], b);
      assert (a + b)[1..] == a[1..] + b;
    }
  }

  /** `ready` never names a stream that is not tracked. */
  lemma {:induction false} ReadyIsTracked(st: State, events: Batch)
    requires st.ready <= st.requests.Keys
    ensures Fold(st, events).ready <= Fold(st, events).requests.Keys
    decreases |events|
  {
    if events != [] {
      ReadyIsTracked(Step(st, events[0]), events[1..]);
    }
  }

  class Tracker {
    var requests: map<StreamId, Fields>

    constructor ()
      ensures requests == map[]
    {
      requests := map[];
    }

    /** `process_request_events`; `answers` records the calls of `send_response`. */
    method ProcessRequestEvents(events: Batch) returns (closed: bool, answers: map<StreamId, Fields>)
      modifies this
      ensures closed == Scan(old(requests), events).closed
      ensures answers == Answers(old(requests), events)
      ensures requests == Remaining(old(requests), events)
    {
      closed, answers := false, map[];
      var ready: set<StreamId> := {};
      for i := 0 to |events|
        invariant State(requests, ready, closed) == Scan(old(requests), events[..i])
      {
        FoldConcat(State(old(requests), {}, false), events[..i], [events[i]]);
        assert events[..i] + [events[i]] == events[..i + 1];
        match events[i] {
          case RequestReceived(id, headers, end) =>
            requests := requests[id := headers];
            if end {
              ready := ready + {id};
            }
          case DataReceived(id, end) =>
            if end && id in requests {
              ready := ready + {id};
            }
          case TrailersReceived(id) =>
            if id in requests {
              ready := ready + {id};
            }
          case StreamReset(id) =>
            requests, ready := requests - {id}, ready - {id};
          case StreamClosed(id) =>
            requests, ready := requests - {id}, ready - {id};
          case GoAwayReceived =>
          case ConnectionClosed =>
            closed := true;
        }
      }
      assert events[..|events|] == events;
      if !closed {
        ghost var tracked := requests;
        var todo := ready;
        while todo != {}
          invariant todo <= ready
          invariant requests == tracked - (ready - todo)
          invariant answers == map id | id in ready - todo && id in tracked :: tracked[id]
          decreases todo
        {
          var id :| id in todo;
          if id in requests {
            answers := answers[id := requests[id]];
            requests := requests - {id};
          }
          todo := todo - {id};
        }
      }
    }
  }

  // ---------------------------------------------------------------- the automaton of one stream

  datatype Status = Idle | Open(headers: Fields) | Ready(headers: Fields)

  function Advance(q: Status, e: Event): Status {
    match e
    case RequestReceived(_, headers, end) => if end || q.Ready? then Ready(headers) else Open(headers)
    case DataReceived(_, end) => if end && q.Open? then Ready(q.headers) else q
    case TrailersReceived(_) => if q.Open? then Ready(q.headers) else q
    case StreamReset(_) => Idle
    case StreamClosed(_) => Idle
    case GoAwayReceived => q
    case ConnectionClosed => q
  }

  predicate Concerns(e: Event, id: StreamId) {
    !e.GoAwayReceived? && !e.ConnectionClosed? && e.id == id
  }

  /** The automaton over the events of its own stream; all others pass it by. */
  function Track(q: Status, events: Batch, id: StreamId): Status
    decreases |events|
  {
    if events == [] then q
    else Track(if Concerns(events[0], id) then Advance(q, events[0]) else q, events[1..], id)
  }

  function StatusOf(st: State, id: StreamId): Status {
    if id !in st.requests then Idle
    else if id in st.ready then Ready(st.requests[id])
    else Open(st.requests[id])
  }

  /** The shared dict and set behave, on every stream, like that stream's own automaton. */
  lemma {:induction false} TrackerRefinesAutomaton(st: State, events: Batch, id: StreamId)
    requires st.ready <= st.requests.Keys
    ensures StatusOf(Fold(st, events), id) == Track(StatusOf(st, id), events, id)
    decreases |events|
  {
    if events != [] {
      var st' := Step(st, events[0]);
      assert StatusOf(st', id)
          == if Concerns(events[0], id) then Advance(StatusOf(st, id), events[0]) else StatusOf(st, id);
      TrackerRefinesAutomaton(st', events[1..], id);
    }
  }

  predicate Closes(events: Batch) {
    ConnectionClosed in events
  }

  lemma {:induction false} ClosedByEvent(st: State, events: Batch)
    ensures Fold(st, events).closed <==> st.closed || Closes(events)
    decreases |events|
  {
    if events != [] {
      ClosedByEvent(Step(st, events[0]), events[1..]);
    }
  }

  // ---------------------------------------------------------------- whole connections

  datatype Outcome = Outcome(requests: map<StreamId, Fields>, answers: seq<map<StreamId, Fields>>, closed: bool)

  /** The loop of `handle_connection`: batch after batch until one reports the end of the connection. */
  function Serve(requests: map<StreamId, Fields>, batches: seq<Batch>): Outcome
    decreases |batches|
  {
    if batches == [] then Outcome(requests, [], false)
    else if Scan(requests, batches[0]).closed then
      Outcome(Remaining(requests, batches[0]), [Answers(requests, batches[0])], true)
    else
      var r := Serve(Remaining(requests, batches[0]), batches[1..]);
      r.(answers := [Answers(requests, batches[0])] + r.answers)
  }

  method HandleConnection(batches: seq<Batch>)
      returns (requests: map<StreamId, Fields>, answers: seq<map<StreamId, Fields>>)
    ensures var r := Serve(map[], batches); requests == r.requests && answers == r.answers
  {
    var tracker := new Tracker();
    answers := [];
    ghost var all := Serve(map[], batches);
    var i := 0;
    assert batches[0..] == batches && [] + all.answers == all.answers;
    while i < |batches|
      invariant 0 <= i <= |batches|
      invariant var r := Serve(tracker.requests, batches[i..]);
                all.requests == r.requests && all.answers == answers + r.answers
    {
      var closed, now := tracker.ProcessRequestEvents(batches[i]);
      answers := answers + [now];
      i := i + 1;
      if closed {
        break;
      }
    }
    requests := tracker.requests;
  }

  /** Times a stream was answered. */
  function Answered(answers: seq<map<StreamId, Fields>>, id: StreamId): nat {
    if answers == [] then 0 else (if id in answers[0] then 1 else 0) + Answered(answers[1..], id)
  }

  /** The automaton across batches: a stream that is ready at the end of a batch is answered and forgotten. */
  function Settle(q: Status): Status { if q.Ready? then Idle else q }

  function AnsweredByAutomaton(q: Status, batches: seq<Batch>, id: StreamId): nat
    decreases |batches|
  {
    if batches == [] then 0
    else
      var q' := Track(q, batches[0], id);
      (if q'.Ready? then 1 else 0) + AnsweredByAutomaton(Settle(q'), batches[1..], id)
  }

  function TrackAll(q: Status, batches: seq<Batch>, id: StreamId): Status
    decreases |batches|
  {
    if batches == [] then q else TrackAll(Settle(Track(q, batches[0], id)), batches[1..], id)
  }

  function Tracked(requests: map<StreamId, Fields>, id: StreamId): Status {
    StatusOf(State(requests, {}, false), id)
  }

  predicate NoClose(batches: seq<Batch>) {
    forall b <- batches :: !Closes(b)
  }

  lemma OneBatch(requests: map<StreamId, Fields>, b: Batch, id: StreamId)
    requires !Closes(b)
    ensures !Scan(requests, b).closed
    ensures var q := Track(Tracked(requests, id), b, id);
            && (id in Answers(requests, b) <==> q.Ready?)
            && (q.Ready? ==> Answers(requests, b)[id] == q.headers)
            && Tracked(Remaining(requests, b), id) == Settle(q)
  {
    var st := State(requests, {}, false);
    ClosedByEvent(st, b);
    ReadyIsTracked(st, b);
    TrackerRefinesAutomaton(st, b, id);
  }

  /** Refinement over whole runs: while the connection stays open, `requests` holds exactly the streams
      whose automaton is open, and a stream is answered as often as its automaton says. */
  lemma {:induction false} ServeRefinesAutomaton(requests: map<StreamId, Fields>, batches: seq<Batch>, id: StreamId)
    requires NoClose(batches)
    ensures var r := Serve(requests, batches);
            && !r.closed && |r.answers| == |batches|
            && Tracked(r.requests, id) == TrackAll(Tracked(requests, id), batches, id)
            && Answered(r.answers, id) == AnsweredByAutomaton(Tracked(requests, id), batches, id)
    decreases |batches|
  {
    if batches != [] {
      OneBatch(requests, batches[0], id);
      ServeRefinesAutomaton(Remaining(requests, batches[0]), batches[1..], id);
      var r := Serve(requests, batches);
      assert r.answers[1..] == Serve(Remaining(requests, batches[0]), batches[1..]).answers;
    }
  }

  function RequestsIn(events: Batch, id: StreamId): nat {
    if events == [] then 0
    else (if events[0].RequestReceived? && events[0].id == id then 1 else 0) + RequestsIn(events[1..], id)
  }

  function RequestsInAll(batches: seq<Batch>, id: StreamId): nat {
    if batches == [] then 0 else RequestsIn(batches[0], id) + RequestsInAll(batches[1..], id)
  }

  function Busy(q: Status): nat { if q.Idle? then 0 else 1 }

  lemma {:induction false} TrackNeedsRequests(q: Status, events: Batch, id: StreamId)
    ensures Busy(Track(q, events, id)) <= Busy(q) + RequestsIn(events, id)
    decreases |events|
  {
    if events != [] {
      TrackNeedsRequests(if Concerns(events[0], id) then Advance(q, events[0]) else q, events[1..], id);
    }
  }

  /** No stream is answered more often than it was requested, on any run, closed or not. */
  lemma {:induction false} AnsweredAtMostOncePerRequest(requests: map<StreamId, Fields>, batches: seq<Batch>,
      id: StreamId)
    ensures Answered(Serve(requests, batches).answers, id)
         <= (if id in requests then 1 else 0) + RequestsInAll(batches, id)
    decreases |batches|
  {
    if batches != [] {
      var st, b := State(requests, {}, false), batches[0];
      ReadyIsTracked(st, b);
      TrackerRefinesAutomaton(st, b, id);
      TrackNeedsRequests(Tracked(requests, id), b, id);
      var r := Serve(requests, batches);
      if Scan(requests, b).closed {
        assert r.answers[1..] == [];
      } else {
        AnsweredAtMostOncePerRequest(Remaining(requests, b), batches[1..], id);
        assert r.answers[1..] == Serve(Remaining(requests, b), batches[1..]).answers;
      }
    }
  }

  /** Nothing is answered in, or after, a batch that reports ConnectionClosed. */
  lemma {:induction false} NothingAnsweredOnceClosed(requests: map<StreamId, Fields>, batches: seq<Batch>, i: nat)
    requires i < |batches| && Closes(batches[i])
    ensures var answers := Serve(requests, batches).answers;
            |answers| <= i + 1 && (|answers| == i + 1 ==> answers[i] == map[])
    decreases |batches|
  {
    ClosedByEvent(State(requests, {}, false), batches[0]);
    if i > 0 && !Closes(batches[0]) {
      NothingAnsweredOnceClosed(Remaining(requests, batches[0]), batches[1..], i - 1);
    }
  }
}
