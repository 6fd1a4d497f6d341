/** The example client: `process_response_events` and how `get` combines its results. */
module ResponseFold {
  import opened Basics
  import opened Folds

  const NO_ERROR := 0

  /** `status` is None where `int(dict(headers)[b":status"])` raises. */
  datatype Event =
    | ResponseReceived(id: StreamId, status: Option<int>)
    | DataReceived(id: StreamId, data: seq<Byte>)
    | StreamReset(id: StreamId, code: nat)
    | GoAwayReceived(last: StreamId)
    | StreamClosed(id: StreamId, localError: bool, code: nat)
    | ConnectionClosed(code: nat)

  type Batch = seq<Event>

  datatype Error =
    | BadStatus
    | WasReset(code: nat)
    | NotProcessed
    | LocalError
    | ClosedWith(code: nat)
    | ConnectionLost(code: nat)
    | EndOfFile
    | NoHeaders

  /** `body` is the caller's bytearray: what was appended stays there when the call raises. */
  datatype Progress =
    | Going(status: Option<int>, body: seq<Byte>, complete: bool)
    | Failed(error: Error, body: seq<Byte>)

  function Step(id: StreamId, p: Progress, e: Event): Progress
    requires p.Going?
  {
    if e.ResponseReceived? && e.id == id then
      if e.status.None? then Failed(BadStatus, p.body) else p.(status := e.status)
    else if e.DataReceived? && e.id == id then Going(p.status, p.body + e.data, p.complete)
    else if e.StreamReset? && e.id == id then Failed(WasReset(e.code), p.body)
    else if e.GoAwayReceived? && id > e.last then Failed(NotProcessed, p.body)
    else if e.StreamClosed? && e.id == id then
      if e.localError then Failed(LocalError, p.body)
      else if e.code != NO_ERROR then Failed(ClosedWith(e.code), p.body)
      else p.(complete := true)
    else if e.ConnectionClosed? && !p.complete then Failed(ConnectionLost(e.code), p.body)
    else p
  }

  function Process(id: StreamId, p: Progress, events: Batch): Progress
    decreases |events|
  {
    if p.Failed? || events == [] then p else Process(id, Step(id, p, events[0]), events[1..])
  }

  /** One call of `process_response_events`: completion is reported for its own batch only. */
  function Call(id: StreamId, status: Option<int>, body: seq<Byte>, events: Batch): Progress {
    Process(id, Going(status, body, false), events)
  }

  lemma {:induction false} ProcessConcat(id: StreamId, p: Progress, a: Batch, b: Batch)
    ensures Process(id, p, a + b) == Process(id, Process(id, p, a), b)
    decreases |a|
  {
    if p.Going? {
      if a == [] {
        assert a + b == b;
      } else {
        ProcessConcat(id, Step(id, p, a[0]), a[1..], b);
        assert (a + b)[1..] == a[1..] + b;
      }
    }
  }

  class Client {
    const id: StreamId
    var status: Option<int>
    var body: seq<Byte>

    constructor (id: StreamId)
      ensures this.id == id && status == None && body == []
    {
      this.id := id;
      status, body := None, [];
    }

    method ProcessResponseEvents(events: Batch) returns (failure: Option<Error>, complete: bool)
      modifies this
      ensures body == Call(id, old(status), old(body), events).body
      ensures match Call(id, old(status), old(body), events)
              case Failed(error, _) => failure == Some(error)
              case Going(s, _, c) => failure == None && status == s && complete == c
      ensures match failure
              case None => Collected(id, old(status), old(body), events, Going(status, body, complete))
              case Some(error) => Blames(id, events, error)
    {
      CallMeans(id, status, body, events);
      hide Collected, Blames;
      failure, complete := None, false;
      ghost var all := Call(id, old(status), old(body), events);
      var i := 0;
      assert events[0..] == events;
      while i < |events|
        invariant 0 <= i <= |events| && failure == None
        invariant Process(id, Going(status, body, complete), events[i..]) == all
      {
        var e := events[i];
        ghost var p := Going(status, body, complete);
        assert events[i..][1..] == events[i + 1..];
        assert Process(id, p, events[i..]) == Process(id, Step(id, p, e), events[i + 1..]);
        i := i + 1;
        if e.ResponseReceived? && e.id == id {
          if e.status.None? {
            failure := Some(BadStatus);
            return;
          }
          status := e.status;
        } else if e.DataReceived? && e.id == id {
          body := body + e.data;
        } else if e.StreamReset? && e.id == id {
          failure := Some(WasReset(e.code));
          return;
        } else if e.GoAwayReceived? && id > e.last {
          failure := Some(NotProcessed);
          return;
        } else if e.StreamClosed? && e.id == id {
          if e.localError {
            failure := Some(LocalError);
            return;
          }
          if e.code != NO_ERROR {
            failure := Some(ClosedWith(e.code));
            return;
          }
          complete := true;
        } else if e.ConnectionClosed? && !complete {
          failure := Some(ConnectionLost(e.code));
          return;
        }
      }
    }
  }

  // ---------------------------------------------------------------- what the fold means

  function DataOf(id: StreamId): Event -> seq<Byte> {
    (e: Event) => if e.DataReceived? && e.id == id then e.data else []
  }

  /** The stream was closed without an error. */
  predicate ClosesCleanly(id: StreamId, e: Event) {
    e == StreamClosed(id, false, NO_ERROR)
  }

  /** What one event makes of the call, given whether the stream was complete before it. */
  function Fatal(id: StreamId, e: Event, complete: bool): Option<Error> {
    match e
    case ResponseReceived(i, status) => if i == id && status == None then Some(BadStatus) else None
    case DataReceived(_, _) => None
    case StreamReset(i, code) => if i == id then Some(WasReset(code)) else None
    case GoAwayReceived(last) => if id > last then Some(NotProcessed) else None
    case StreamClosed(i, localError, code) =>
      if i != id then None
      else if localError then Some(LocalError)
      else if code != 0 then Some(ClosedWith(code)) else None
    case ConnectionClosed(code) => if complete then None else Some(ConnectionLost(code))
  }

  predicate CompleteAt(id: StreamId, complete: bool, events: Batch, i: nat)
    requires i <= |events|
  {
    complete || exists j :: 0 <= j < i && ClosesCleanly(id, events[j])
  }

  /** `i` is the last response on the stream. */
  predicate LastResponse(id: StreamId, events: Batch, i: nat) {
    && i < |events| && events[i].ResponseReceived? && events[i].id == id
    && forall j :: i < j < |events| ==> !(events[j].ResponseReceived? && events[j].id == id)
  }

  predicate NoResponse(id: StreamId, events: Batch) {
    forall j :: 0 <= j < |events| ==> !(events[j].ResponseReceived? && events[j].id == id)
  }

  /** The call has gone through `events`: nothing in them was fatal, the data of the stream is appended in order, the
      status is that of the last response, and completion that of a clean close. */
  ghost predicate WentThrough(id: StreamId, status: Option<int>, body: seq<Byte>, complete: bool,
      events: Batch, r: Progress)
  {
    && r.Going?
    && (forall i :: 0 <= i < |events| ==> Fatal(id, events[i], CompleteAt(id, complete, events, i)) == None)
    && r.body == body + FlatMap(DataOf(id), events)
    && (forall i: nat :: LastResponse(id, events, i) ==> r.status == events[i].status)
    && (NoResponse(id, events) ==> r.status == status)
    && (r.complete <==> CompleteAt(id, complete, events, |events|))
  }

  lemma StepIsFatal(id: StreamId, p: Progress, e: Event)
    requires p.Going?
    ensures match Fatal(id, e, p.complete)
            case Some(error) => Step(id, p, e) == Failed(error, p.body)
            case None =>
              && Step(id, p, e).Going?
              && Step(id, p, e).body == p.body + DataOf(id)(e)
              && Step(id, p, e).status == (if e.ResponseReceived? && e.id == id then e.status else p.status)
              && (Step(id, p, e).complete <==> p.complete || ClosesCleanly(id, e))
  {
  }

  lemma WentThroughOneMore(id: StreamId, status: Option<int>, body: seq<Byte>, complete: bool,
      events: Batch, r: Progress, e: Event)
    requires WentThrough(id, status, body, complete, events, r) && Fatal(id, e, r.complete) == None
    ensures WentThrough(id, status, body, complete, events + [e], Step(id, r, e))
  {
    hide Fatal, Step, FlatMap;
    var all, after := events + [e], Step(id, r, e);
    StepIsFatal(id, r, e);
    FlatMapConcat(DataOf(id), events, [e]);
    Associate(body, FlatMap(DataOf(id), events), DataOf(id)(e));
    forall i | 0 <= i < |all| ensures Fatal(id, all[i], CompleteAt(id, complete, all, i)) == None {
      if i < |events| {
        assert all[i] == events[i];
        SameCompletion(id, complete, events, e, i);
      } else {
        SameCompletion(id, complete, events, e, i);
      }
    }
    CompletionGrows(id, complete, events, e);
    LastResponseMoves(id, events, e);
  }

  lemma SameCompletion(id: StreamId, complete: bool, events: Batch, e: Event, i: nat)
    requires i <= |events|
    ensures CompleteAt(id, complete, events + [e], i) == CompleteAt(id, complete, events, i)
  {
    assert forall j :: 0 <= j < i ==> (events + [e])[j] == events[j];
  }

  lemma CompletionGrows(id: StreamId, complete: bool, events: Batch, e: Event)
    ensures CompleteAt(id, complete, events + [e], |events| + 1)
       <==> CompleteAt(id, complete, events, |events|) || ClosesCleanly(id, e)
  {
    var all := events + [e];
    assert forall j :: 0 <= j < |events| ==> all[j] == events[j];
    assert all[|events|] == e;
  }

  lemma LastResponseMoves(id: StreamId, events: Batch, e: Event)
    ensures forall i: nat :: LastResponse(id, events + [e], i) <==>
              if e.ResponseReceived? && e.id == id then i == |events| else LastResponse(id, events, i)
    ensures NoResponse(id, events + [e]) <==> NoResponse(id, events) && !(e.ResponseReceived? && e.id == id)
  {
    var all := events + [e];
    assert all[|events|] == e && forall j :: 0 <= j < |events| ==> all[j] == events[j];
  }

  /** The fold, from any start: either it goes through, or it fails at the first fatal event, with the body up to it. */
  lemma {:induction false} ProcessMeans(id: StreamId, status: Option<int>, body: seq<Byte>, complete: bool,
      events: Batch)
    returns (n: nat)
    ensures n <= |events|
    ensures var r := Process(id, Going(status, body, complete), events);
            if r.Going? then n == |events| && WentThrough(id, status, body, complete, events, r)
            else
              && n < |events|
              && (forall i :: 0 <= i < n ==> Fatal(id, events[i], CompleteAt(id, complete, events, i)) == None)
              && Fatal(id, events[n], CompleteAt(id, complete, events, n)) == Some(r.error)
              && r.body == body + FlatMap(DataOf(id), events[..n])
    decreases |events|
  {
    hide Fatal, Step, FlatMap, WentThrough;
    if events == [] {
      n := 0;
      NothingToDo(id, status, body, complete);
    } else {
      var m, e := |events| - 1, events[|events| - 1];
      assert events[..m] + [e] == events;
      n := ProcessMeans(id, status, body, complete, events[..m]);
      var before := Process(id, Going(status, body, complete), events[..m]);
      ProcessConcat(id, Going(status, body, complete), events[..m], [e]);
      OneEvent(id, before, e);
      if before.Going? {
        CompletionOf(id, status, body, complete, events[..m], before);
        StepIsFatal(id, before, e);
        SameCompletion(id, complete, events[..m], e, m);
        EarlierAgrees(id, complete, events, m);
        if Fatal(id, e, before.complete) == None {
          WentThroughOneMore(id, status, body, complete, events[..m], before, e);
          n := |events|;
        }
      } else {
        EarlierAgrees(id, complete, events, m);
        assert events[..m][..n] == events[..n];
      }
    }
  }

  lemma NothingToDo(id: StreamId, status: Option<int>, body: seq<Byte>, complete: bool)
    ensures Process(id, Going(status, body, complete), []) == Going(status, body, complete)
    ensures WentThrough(id, status, body, complete, [], Going(status, body, complete))
  {
  }

  lemma OneEvent(id: StreamId, p: Progress, e: Event)
    ensures Process(id, p, [e]) == if p.Failed? then p else Step(id, p, e)
  {
    assert [e][1..] == [];
  }

  lemma CompletionOf(id: StreamId, status: Option<int>, body: seq<Byte>, complete: bool, events: Batch, r: Progress)
    requires WentThrough(id, status, body, complete, events, r)
    ensures r.body == body + FlatMap(DataOf(id), events)
    ensures r.complete <==> CompleteAt(id, complete, events, |events|)
    ensures forall i :: 0 <= i < |events| ==> Fatal(id, events[i], CompleteAt(id, complete, events, i)) == None
  {
  }

  lemma EarlierAgrees(id: StreamId, complete: bool, events: Batch, m: nat)
    requires m < |events|
    ensures forall i :: 0 <= i <= m ==> CompleteAt(id, complete, events[..m], i) == CompleteAt(id, complete, events, i)
  {
    forall i | 0 <= i <= m ensures CompleteAt(id, complete, events[..m], i) == CompleteAt(id, complete, events, i) {
      assert forall j :: 0 <= j < i ==> events[..m][j] == events[j];
    }
  }

  // ---------------------------------------------------------------- splitting a batch

  /** Two calls in a row, as `get` combines them. */
  function TwoCalls(id: StreamId, status: Option<int>, body: seq<Byte>, a: Batch, b: Batch): Progress {
    match Call(id, status, body, a)
    case Failed(error, kept) => Failed(error, kept)
    case Going(s, kept, done) =>
      match Call(id, s, kept, b)
      case Failed(error, kept') => Failed(error, kept')
      case Going(s', kept', done') => Going(s', kept', done || done')
  }

  /** The event settles the stream: it completes it, or makes the call raise whatever came before. */
  predicate Settles(id: StreamId, e: Event) {
    match e
    case ResponseReceived(i, status) => i == id && status.None?
    case DataReceived(_, _) => false
    case StreamReset(i, _) => i == id
    case GoAwayReceived(last) => id > last
    case StreamClosed(i, _, _) => i == id
    case ConnectionClosed(_) => false
  }

  /** ConnectionClosed comes before any event that settles the stream. */
  predicate LosesConnection(id: StreamId, events: Batch)
    decreases |events|
  {
    events != [] && !Settles(id, events[0]) && (events[0].ConnectionClosed? || LosesConnection(id, events[1..]))
  }

  function Completed(p: Progress): Progress {
    if p.Going? then p.(complete := true) else p
  }

  /** Being complete makes no difference to the events, except that a lost connection is overlooked. */
  lemma CompletionOnlyHidesLoss(id: StreamId, status: Option<int>, body: seq<Byte>, events: Batch)
    ensures Process(id, Going(status, body, true), events) == Completed(Process(id, Going(status, body, false), events))
       <==> !LosesConnection(id, events)
    ensures LosesConnection(id, events) ==>
              var open := Process(id, Going(status, body, false), events);
              var done := Process(id, Going(status, body, true), events);
              && open.Failed? && open.error.ConnectionLost?
              && (if done.Going? then done.complete else !done.error.ConnectionLost?)
  {
    LossIsFatal(id, status, body, events);
    AlreadyComplete(id, Going(status, body, true), events);
  }

  lemma {:induction false} LossIsFatal(id: StreamId, status: Option<int>, body: seq<Byte>, events: Batch)
    ensures !LosesConnection(id, events) ==>
              Process(id, Going(status, body, true), events)
              == Completed(Process(id, Going(status, body, false), events))
    ensures LosesConnection(id, events) ==>
              var p := Process(id, Going(status, body, false), events); p.Failed? && p.error.ConnectionLost?
    decreases |events|
  {
    if events != [] {
      var p := Step(id, Going(status, body, false), events[0]);
      if p.Going? && !p.complete {
        LossIsFatal(id, p.status, p.body, events[1..]);
      } else if p.Going? {
        AlreadyComplete(id, p, events[1..]);
      }
    }
  }

  lemma {:induction false} AlreadyComplete(id: StreamId, p: Progress, events: Batch)
    requires p.Going? && p.complete
    ensures var r := Process(id, p, events); if r.Going? then r.complete else !r.error.ConnectionLost?
    decreases |events|
  {
    if events != [] {
      var next := Step(id, p, events[0]);
      if next.Going? {
        AlreadyComplete(id, next, events[1..]);
      }
    }
  }

  /** Splitting a batch in two calls is invisible, if and only if the first part does not complete the stream
      before the second part loses the connection: every call starts with `complete = False`. */
  lemma SplitsAgreeExactly(id: StreamId, status: Option<int>, body: seq<Byte>, a: Batch, b: Batch)
    ensures Call(id, status, body, a + b) == TwoCalls(id, status, body, a, b)
       <==> !(Call(id, status, body, a).Going? && Call(id, status, body, a).complete && LosesConnection(id, b))
  {
    ProcessConcat(id, Going(status, body, false), a, b);
    var p := Call(id, status, body, a);
    if p.Going? && p.complete {
      CompletionOnlyHidesLoss(id, p.status, p.body, b);
      AlreadyComplete(id, p, b);
    }
  }

  // ---------------------------------------------------------------- get

  /** One turn of the loop in `get`: events of what was read, then events of what was written. */
  datatype Round = Round(input: Batch, output: Batch)

  datatype Result = Response(status: int, body: seq<Byte>) | Raised(error: Error)

  function Finish(status: Option<int>, body: seq<Byte>): Result {
    if status.None? then Raised(NoHeaders) else Response(status.value, body)
  }

  function Rounds(id: StreamId, status: Option<int>, body: seq<Byte>, rounds: seq<Round>): Result
    decreases |rounds|
  {
    if rounds == [] then Raised(EndOfFile)
    else
      match TwoCalls(id, status, body, rounds[0].input, rounds[0].output)
      case Failed(error, _) => Raised(error)
      case Going(s, kept, done) => if done then Finish(s, kept) else Rounds(id, s, kept, rounds[1..])
  }

  function Whole(id: StreamId, first: Batch, rounds: seq<Round>): Result {
    match Call(id, None, [], first)
    case Failed(error, _) => Raised(error)
    case Going(s, kept, done) => if done then Finish(s, kept) else Rounds(id, s, kept, rounds)
  }

  function Joined(rounds: seq<Round>): Batch {
    if rounds == [] then [] else rounds[0].input + rounds[0].output + Joined(rounds[1..])
  }

  /** No round completes the stream with its input and then loses the connection with its output. */
  predicate NothingLost(id: StreamId, status: Option<int>, body: seq<Byte>, rounds: seq<Round>)
    decreases |rounds|
  {
    rounds == [] || (
      var p := Call(id, status, body, rounds[0].input);
      && !(p.Going? && p.complete && LosesConnection(id, rounds[0].output))
      && (var q := TwoCalls(id, status, body, rounds[0].input, rounds[0].output);
          q.Going? && !q.complete ==> NothingLost(id, q.status, q.body, rounds[1..])))
  }

  function Report(p: Progress): Result {
    match p
    case Failed(error, _) => Raised(error)
    case Going(s, kept, done) => if done then Finish(s, kept) else Raised(EndOfFile)
  }

  /** How many rounds `get` looks at. */
  function Decided(id: StreamId, status: Option<int>, body: seq<Byte>, rounds: seq<Round>): (n: nat)
    ensures n <= |rounds|
    decreases |rounds|
  {
    if rounds == [] then 0
    else
      var q := TwoCalls(id, status, body, rounds[0].input, rounds[0].output);
      1 + if q.Going? && !q.complete then Decided(id, q.status, q.body, rounds[1..]) else 0
  }

  lemma JoinedFirst(rounds: seq<Round>, n: nat)
    requires 0 < n <= |rounds|
    ensures Joined(rounds[..n]) == (rounds[0].input + rounds[0].output) + Joined(rounds[1..][..n - 1])
  {
    assert rounds[..n][0] == rounds[0] && rounds[..n][1..] == rounds[1..][..n - 1];
  }

  lemma {:induction false} RoundsAreOneFold(id: StreamId, status: Option<int>, body: seq<Byte>, rounds: seq<Round>)
    ensures var n := Decided(id, status, body, rounds);
            Rounds(id, status, body, rounds) == Report(Call(id, status, body, Joined(rounds[..n])))
            <==> NothingLost(id, status, body, rounds)
    decreases |rounds|
  {
    hide Call, LosesConnection;
    if rounds == [] {
      NothingHappened(id, status, body);
    } else {
      var a, b, n := rounds[0].input, rounds[0].output, Decided(id, status, body, rounds);
      var q := TwoCalls(id, status, body, a, b);
      JoinedFirst(rounds, n);
      if q.Going? && !q.complete {
        RoundsAreOneFold(id, q.status, q.body, rounds[1..]);
        CallsContinue(id, status, body, a, b, Joined(rounds[1..][..n - 1]));
      } else {
        assert (a + b) + [] == a + b;
        SplitsAgreeExactly(id, status, body, a, b);
        LossIsReported(id, status, body, a, b);
      }
    }
  }

  lemma NothingHappened(id: StreamId, status: Option<int>, body: seq<Byte>)
    ensures Call(id, status, body, []) == Going(status, body, false)
  {
  }

  /** Two calls that leave the stream open are one call, and more events may follow. */
  lemma CallsContinue(id: StreamId, status: Option<int>, body: seq<Byte>, a: Batch, b: Batch, more: Batch)
    requires var q := TwoCalls(id, status, body, a, b); q.Going? && !q.complete
    ensures var q := TwoCalls(id, status, body, a, b);
            Call(id, status, body, (a + b) + more) == Call(id, q.status, q.body, more)
    ensures var p := Call(id, status, body, a); p.Going? && !p.complete
  {
    SplitsAgreeExactly(id, status, body, a, b);
    ProcessConcat(id, Going(status, body, false), a + b, more);
  }

  /** A completed response that loses its connection is an error in two calls, and no ConnectionLost in one. */
  lemma LossIsReported(id: StreamId, status: Option<int>, body: seq<Byte>, a: Batch, b: Batch)
    ensures var p := Call(id, status, body, a);
            p.Going? && p.complete && LosesConnection(id, b) ==>
              var q, one := TwoCalls(id, status, body, a, b), Call(id, status, body, a + b);
              && q.Failed? && q.error.ConnectionLost?
              && (if one.Going? then one.complete else !one.error.ConnectionLost?)
  {
    var p := Call(id, status, body, a);
    if p.Going? && p.complete && LosesConnection(id, b) {
      CompletionOnlyHidesLoss(id, p.status, p.body, b);
      ProcessConcat(id, Going(status, body, false), a, b);
      AlreadyComplete(id, p, b);
    }
  }

  /** However the events are spread over reads and writes, `get` returns what one pass over all of them, up to the
      round that decides, returns (the same status, the whole body in order, or the same error), if and only if no
      round completes the response with its input and loses the connection with its output. */
  lemma GetIsOneFold(id: StreamId, first: Batch, rounds: seq<Round>)
    ensures var p := Call(id, None, [], first);
            var n := if p.Going? && !p.complete then Decided(id, p.status, p.body, rounds) else 0;
            Whole(id, first, rounds) == Report(Call(id, None, [], first + Joined(rounds[..n])))
            <==> (p.Going? && !p.complete ==> NothingLost(id, p.status, p.body, rounds))
  {
    var p := Call(id, None, [], first);
    if p.Going? && !p.complete {
      var n := Decided(id, p.status, p.body, rounds);
      RoundsAreOneFold(id, p.status, p.body, rounds);
      ProcessConcat(id, Going(None, [], false), first, Joined(rounds[..n]));
    } else {
      assert first + [] == first;
    }
  }

  // ---------------------------------------------------------------- what get returns

  /** Status, body and completion that `events` amount to, however they were spread over calls. */
  ghost predicate Collected(id: StreamId, status: Option<int>, body: seq<Byte>, events: Batch, r: Progress) {
    && r.Going?
    && r.body == body + FlatMap(DataOf(id), events)
    && (forall i: nat :: LastResponse(id, events, i) ==> r.status == events[i].status)
    && (NoResponse(id, events) ==> r.status == status)
    && (r.complete <==> exists j :: 0 <= j < |events| && ClosesCleanly(id, events[j]))
  }

  /** Some event of these is an error. */
  predicate Blames(id: StreamId, events: Batch, error: Error) {
    exists j :: 0 <= j < |events| && Fatal(id, events[j], false) == Some(error)
  }

  lemma CallMeans(id: StreamId, status: Option<int>, body: seq<Byte>, events: Batch)
    ensures var p := Call(id, status, body, events);
            if p.Going? then Collected(id, status, body, events, p) else Blames(id, events, p.error)
  {
    hide Process;
    var n := ProcessMeans(id, status, body, false, events);
    var p := Call(id, status, body, events);
    if p.Failed? {
      assert Fatal(id, events[n], false) == Some(p.error);
    }
  }

  lemma LastOfTwo(id: StreamId, a: Batch, b: Batch)
    ensures forall i: nat :: LastResponse(id, a + b, i) ==>
              if NoResponse(id, b) then LastResponse(id, a, i) else i >= |a| && LastResponse(id, b, i - |a|)
    ensures NoResponse(id, a + b) <==> NoResponse(id, a) && NoResponse(id, b)
  {
    var all := a + b;
    assert forall j :: 0 <= j < |a| ==> all[j] == a[j];
    assert forall j :: 0 <= j < |b| ==> all[|a| + j] == b[j];
  }

  lemma CollectedTwice(id: StreamId, status: Option<int>, body: seq<Byte>, a: Batch, p: Progress, b: Batch, q: Progress)
    requires Collected(id, status, body, a, p) && Collected(id, p.status, p.body, b, q)
    ensures Collected(id, status, body, a + b, Going(q.status, q.body, p.complete || q.complete))
  {
    hide FlatMap, LastResponse, NoResponse;
    var all := a + b;
    FlatMapConcat(DataOf(id), a, b);
    Associate(body, FlatMap(DataOf(id), a), FlatMap(DataOf(id), b));
    LastOfTwo(id, a, b);
    assert forall j :: 0 <= j < |a| ==> all[j] == a[j];
    assert forall j :: 0 <= j < |b| ==> all[|a| + j] == b[j];
    HasLast(id, b);
    forall i: nat | LastResponse(id, all, i)
      ensures i < |all| && all[i].ResponseReceived? && q.status == all[i].status
    {
      LastIsThere(id, all, i);
      if NoResponse(id, b) {
        LastIsThere(id, a, i);
      } else {
        LastIsThere(id, b, i - |a|);
      }
    }
  }

  lemma LastIsThere(id: StreamId, events: Batch, i: nat)
    requires LastResponse(id, events, i)
    ensures i < |events| && events[i].ResponseReceived?
  {
  }

  lemma {:induction false} HasLast(id: StreamId, events: Batch)
    ensures NoResponse(id, events) || exists i: nat :: LastResponse(id, events, i)
  {
    if events != [] {
      var m, e := |events| - 1, events[|events| - 1];
      assert events[..m] + [e] == events;
      HasLast(id, events[..m]);
      LastResponseMoves(id, events[..m], e);
      if e.ResponseReceived? && e.id == id {
        assert LastResponse(id, events, m);
      } else if !NoResponse(id, events[..m]) {
        var i: nat :| LastResponse(id, events[..m], i);
        assert LastResponse(id, events, i);
      }
    }
  }

  lemma BlamesMore(id: StreamId, a: Batch, b: Batch, error: Error)
    requires Blames(id, a, error) || Blames(id, b, error)
    ensures Blames(id, a + b, error)
  {
    var all := a + b;
    assert forall j :: 0 <= j < |a| ==> all[j] == a[j];
    assert forall j :: 0 <= j < |b| ==> all[|a| + j] == b[j];
  }

  lemma TwoCallsMean(id: StreamId, status: Option<int>, body: seq<Byte>, a: Batch, b: Batch)
    ensures var q := TwoCalls(id, status, body, a, b);
            if q.Going? then Collected(id, status, body, a + b, q) else Blames(id, a + b, q.error)
  {
    hide Call, Collected, Blames;
    CallMeans(id, status, body, a);
    var p := Call(id, status, body, a);
    if p.Failed? {
      BlamesMore(id, a, b, p.error);
    } else {
      CallMeans(id, p.status, p.body, b);
      var q := Call(id, p.status, p.body, b);
      if q.Failed? {
        BlamesMore(id, a, b, q.error);
      } else {
        CollectedTwice(id, status, body, a, p, b, q);
      }
    }
  }

  /** What a result says about the events that were looked at. */
  ghost predicate Means(id: StreamId, status: Option<int>, body: seq<Byte>, events: Batch, r: Result) {
    match r
    case Response(code, data) => Collected(id, status, body, events, Going(Some(code), data, true))
    case Raised(NoHeaders) => exists data :: Collected(id, status, body, events, Going(None, data, true))
    case Raised(EndOfFile) => forall j :: 0 <= j < |events| ==> !ClosesCleanly(id, events[j])
    case Raised(error) => Blames(id, events, error)
  }

  lemma BlameIsSpecific(id: StreamId, events: Batch, error: Error)
    requires Blames(id, events, error)
    ensures error != NoHeaders && error != EndOfFile
  {
  }

  lemma FinishMeans(id: StreamId, status: Option<int>, body: seq<Byte>, events: Batch, q: Progress)
    requires Collected(id, status, body, events, q) && q.complete
    ensures Means(id, status, body, events, Finish(q.status, q.body))
  {
    assert q == Going(q.status, q.body, true);
  }

  lemma MeansMore(id: StreamId, status: Option<int>, body: seq<Byte>, a: Batch, q: Progress, b: Batch, r: Result)
    requires Collected(id, status, body, a, q) && !q.complete && Means(id, q.status, q.body, b, r)
    ensures Means(id, status, body, a + b, r)
  {
    hide FlatMap, LastResponse, NoResponse, Fatal;
    match r
    case Response(code, data) =>
      CollectedTwice(id, status, body, a, q, b, Going(Some(code), data, true));
    case Raised(NoHeaders) =>
      var data :| Collected(id, q.status, q.body, b, Going(None, data, true));
      CollectedTwice(id, status, body, a, q, b, Going(None, data, true));
    case Raised(EndOfFile) =>
    case Raised(error) =>
      BlamesMore(id, a, b, error);
  }

  lemma {:induction false} RoundsMean(id: StreamId, status: Option<int>, body: seq<Byte>, rounds: seq<Round>)
    ensures var n := Decided(id, status, body, rounds);
            Means(id, status, body, Joined(rounds[..n]), Rounds(id, status, body, rounds))
    ensures Rounds(id, status, body, rounds) == Raised(EndOfFile) ==> Decided(id, status, body, rounds) == |rounds|
    decreases |rounds|
  {
    hide Means, Collected, Blames, Finish;
    if rounds == [] {
      EmptyMeans(id, status, body);
    } else {
      var a, b, n := rounds[0].input, rounds[0].output, Decided(id, status, body, rounds);
      var q := TwoCalls(id, status, body, a, b);
      TwoCallsMean(id, status, body, a, b);
      JoinedFirst(rounds, n);
      assert (a + b) + [] == a + b;
      if q.Failed? {
        BlameIsSpecific(id, a + b, q.error);
        BlameMeans(id, status, body, a + b, q.error);
      } else if q.complete {
        FinishMeans(id, status, body, a + b, q);
        FinishIsNoEndOfFile(q.status, q.body);
      } else {
        RoundsMean(id, q.status, q.body, rounds[1..]);
        MeansMore(id, status, body, a + b, q, Joined(rounds[1..][..n - 1]), Rounds(id, q.status, q.body, rounds[1..]));
      }
    }
  }

  lemma EmptyMeans(id: StreamId, status: Option<int>, body: seq<Byte>)
    ensures Means(id, status, body, [], Raised(EndOfFile))
  {
  }

  lemma BlameMeans(id: StreamId, status: Option<int>, body: seq<Byte>, events: Batch, error: Error)
    requires Blames(id, events, error)
    ensures Means(id, status, body, events, Raised(error))
  {
    BlameIsSpecific(id, events, error);
  }

  lemma FinishIsNoEndOfFile(status: Option<int>, body: seq<Byte>)
    ensures Finish(status, body) != Raised(EndOfFile)
  {
  }

  /** The events that `get` looks at. */
  function Seen(id: StreamId, first: Batch, rounds: seq<Round>): Batch {
    var p := Call(id, None, [], first);
    first + Joined(rounds[..if p.Going? && !p.complete then Decided(id, p.status, p.body, rounds) else 0])
  }

  /** A response is the status of the last response headers and all data of the stream, in order, and the stream was
      closed cleanly; an error is one that an event reports, or a missing status, or the end of the input. */
  lemma GetMeans(id: StreamId, first: Batch, rounds: seq<Round>)
    ensures Means(id, None, [], Seen(id, first, rounds), Whole(id, first, rounds))
  {
    hide Means, Collected, Blames, Finish, Call;
    var p := Call(id, None, [], first);
    CallMeans(id, None, [], first);
    assert first + [] == first;
    if p.Failed? {
      BlameMeans(id, None, [], first, p.error);
    } else if p.complete {
      FinishMeans(id, None, [], first, p);
    } else {
      RoundsMean(id, p.status, p.body, rounds);
      var later := Joined(rounds[..Decided(id, p.status, p.body, rounds)]);
      MeansMore(id, None, [], first, p, later, Whole(id, first, rounds));
    }
  }

  /** `get`, from the first look at the events on; the end of `rounds` is the end of the input. */
  method Get(id: StreamId, first: Batch, rounds: seq<Round>) returns (r: Result)
    ensures r == Whole(id, first, rounds)
    ensures Means(id, None, [], Seen(id, first, rounds), r)
  {
    GetMeans(id, first, rounds);
    hide Means, Seen, Collected, Blames, Process, Finish;
    var client := new Client(id);
    var failure, complete := client.ProcessResponseEvents(first);
    if failure.Some? {
      return Raised(failure.value);
    }
    var i := 0;
    assert rounds[0..] == rounds;
    while !complete
      invariant 0 <= i <= |rounds| && client.id == id
      invariant Whole(id, first, rounds)
             == if complete then Finish(client.status, client.body)
                else Rounds(id, client.status, client.body, rounds[i..])
      decreases |rounds| - i, !complete
    {
      if i == |rounds| {
        return Raised(EndOfFile);
      }
      assert rounds[i..][1..] == rounds[i + 1..];
      failure, complete := client.ProcessResponseEvents(rounds[i].input);
      if failure.Some? {
        return Raised(failure.value);
      }
      var lost, sentComplete := client.ProcessResponseEvents(rounds[i].output);
      if lost.Some? {
        return Raised(lost.value);
      }
      complete := complete || sentComplete;
      i := i + 1;
    }
    r := Finish(client.status, client.body);
  }

  /** The condition of `GetIsOneFold` is needed: a response that is complete when the read is processed is still
      reported as an error if writing the final output closes the connection. */
  lemma CompleteResponseCanBeLost(id: StreamId, status: int, code: nat)
    ensures var round := Round([ResponseReceived(id, Some(status)), StreamClosed(id, false, NO_ERROR)],
        [ConnectionClosed(code)]);
            && Rounds(id, None, [], [round]) == Raised(ConnectionLost(code))
            && Call(id, None, [], Joined([round])) == Going(Some(status), [], true)
  {
    var a, b := [ResponseReceived(id, Some(status)), StreamClosed(id, false, NO_ERROR)], [ConnectionClosed(code)];
    var round := Round(a, b);
    assert a[1..] == [StreamClosed(id, false, NO_ERROR)] && a[1..][1..] == [] && b[1..] == [] && [round][1..] == [];
    calc {
      Call(id, None, [], a);
      Process(id, Going(Some(status), [], false), a[1..]);
      Process(id, Going(Some(status), [], true), []);
      Going(Some(status), [], true);
    }
    calc {
      Call(id, Some(status), [], b);
      Process(id, Failed(ConnectionLost(code), []), []);
      Failed(ConnectionLost(code), []);
    }
    assert Joined([round]) == a + b + [] && a + b + [] == a + b;
    ProcessConcat(id, Going(None, [], false), a, b);
  }
}
