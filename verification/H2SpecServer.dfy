/** The request bookkeeping of the h2spec adapter (`serve_connection`), a second implementation of
    `RequestTracker`: it stores the method instead of the headers, answers even in a closing batch, and
    looks at a second, shorter batch after it has sent its output.
 */
module H2SpecServer {
  import opened Basics
  import opened Requested
  import opened RequestTracker

  const METHOD := ":method"

  predicate HasMethod(headers: Fields) {
    exists h <- headers :: h.name == METHOD
  }

  /** `next(header[1] for header in headers if header[0] == b":method")` */
  function FirstMethod(headers: Fields): string
    requires HasMethod(headers)
  {
    if headers[0].name == METHOD then headers[0].value else FirstMethod(headers[1..])
  }

  /** `dict(headers)[b":method"]` */
  function LastMethod(headers: Fields): string
    requires HasMethod(headers)
  {
    var last := headers[|headers| - 1];
    if last.name == METHOD then last.value
    else
      assert HasMethod(headers[..|headers| - 1]) by {
        var h :| h in headers && h.name == METHOD;
        assert h in headers[..|headers| - 1];
      }
      LastMethod(headers[..|headers| - 1])
  }

  lemma {:induction false} FirstMethodAt(headers: Fields, i: nat)
    requires i < |headers| && headers[i].name == METHOD
    requires forall j :: 0 <= j < i ==> headers[j].name != METHOD
    ensures FirstMethod(headers) == headers[i].value
  {
    assert headers[i] in headers;
    if i > 0 {
      FirstMethodAt(headers[1..], i - 1);
    }
  }

  lemma {:induction false} LastMethodAt(headers: Fields, i: nat)
    requires i < |headers| && headers[i].name == METHOD
    requires forall j :: i < j < |headers| ==> headers[j].name != METHOD
    ensures LastMethod(headers) == headers[i].value
  {
    assert headers[i] in headers;
    if i < |headers| - 1 {
      LastMethodAt(headers[..|headers| - 1], i);
    }
  }

  /** Both servers see the same method when the field occurs once. */
  lemma MethodsAgree(headers: Fields, i: nat)
    requires i < |headers| && headers[i].name == METHOD
    requires forall j :: 0 <= j < |headers| && j != i ==> headers[j].name != METHOD
    ensures HasMethod(headers) && FirstMethod(headers) == LastMethod(headers)
  {
    FirstMethodAt(headers, i);
    LastMethodAt(headers, i);
  }

  // ---------------------------------------------------------------- the code

  type Methods = map<StreamId, string>

  datatype SpecState = SpecState(requests: Methods, ready: set<StreamId>, goaway: bool, closed: bool)

  /** A request without a method raises StopIteration, which ends the connection. */
  predicate Raises(e: Event) {
    e.RequestReceived? && !HasMethod(e.headers)
  }

  function SpecStep(st: SpecState, e: Event): SpecState
    requires !Raises(e)
  {
    match e
    case RequestReceived(id, headers, end) =>
      st.(requests := st.requests[id := FirstMethod(headers)], ready := st.ready + if end then {id} else {})
    case DataReceived(id, end) =>
      if end && id in st.requests then st.(ready := st.ready + {id}) else st
    case TrailersReceived(id) =>
      if id in st.requests then st.(ready := st.ready + {id}) else st
    case StreamReset(id) => st.(requests := st.requests - {id}, ready := st.ready - {id})
    case StreamClosed(id) => st.(requests := st.requests - {id}, ready := st.ready - {id})
    case GoAwayReceived => st.(goaway := true)
    case ConnectionClosed => st.(closed := true)
  }

  predicate WellFormed(events: Batch) {
    forall e <- events :: !Raises(e)
  }

  function SpecFold(st: SpecState, events: Batch): SpecState
    requires WellFormed(events)
    decreases |events|
  {
    if events == [] then st else SpecFold(SpecStep(st, events[0]), events[1..])
  }

  /** After the output was sent, only closed streams and the end of the connection are looked at. */
  function AfterOutput(requests: Methods, events: Batch): Methods
    decreases |events|
  {
    if events == [] then requests
    else AfterOutput(if events[0].StreamClosed? then requests - {events[0].id} else requests, events[1..])
  }

  /** What one turn of the receive loop sees: the events of the input and those of the output. */
  datatype Round = Round(input: Batch, output: Batch)

  datatype RoundResult = RoundResult(requests: Methods, goaway: bool, stop: bool, answers: Methods)

  function ServeRound(requests: Methods, goaway: bool, round: Round): RoundResult
    requires WellFormed(round.input)
  {
    var st := SpecFold(SpecState(requests, {}, goaway, false), round.input);
    var closed := st.closed || Closes(round.output);
    RoundResult(AfterOutput(st.requests - st.ready, round.output), st.goaway, st.goaway || closed,
                map id | id in st.ready && id in st.requests :: st.requests[id])
  }

  lemma {:induction false} SpecFoldOneMore(st: SpecState, events: Batch, e: Event)
    requires WellFormed(events) && !Raises(e)
    ensures WellFormed(events + [e])
    ensures SpecFold(st, events + [e]) == SpecStep(SpecFold(st, events), e)
    decreases |events|
  {
    if events == [] {
      assert [] + [e] == [e] && [e][1..] == [];
      assert SpecFold(SpecStep(st, e), []) == SpecStep(st, e);
    } else {
      assert (events + [e])[1..] == events[1..] + [e];
      SpecFoldOneMore(SpecStep(st, events[0]), events[1..], e);
    }
  }

  lemma {:induction false} AfterOutputOneMore(requests: Methods, events: Batch, e: Event)
    ensures AfterOutput(requests, events + [e])
         == if e.StreamClosed? then AfterOutput(requests, events) - {e.id} else AfterOutput(requests, events)
    decreases |events|
  {
    if events == [] {
      assert [] + [e] == [e];
    } else {
      assert (events + [e])[1..] == events[1..] + [e];
      AfterOutputOneMore(if events[0].StreamClosed? then requests - {events[0].id} else requests, events[1..], e);
    }
  }

  class SpecServer {
    var requests: Methods
    var peerGoaway: bool

    constructor ()
      ensures requests == map[] && !peerGoaway
    {
      requests, peerGoaway := map[], false;
    }

    /** The event loop over the input. `raised` is the StopIteration of a request without a method. */
    method ReadInput(events: Batch) returns (raised: bool, closed: bool, ready: set<StreamId>)
      modifies this
      ensures raised <==> !WellFormed(events)
      ensures !raised ==>
        SpecState(requests, ready, peerGoaway, closed)
        == SpecFold(SpecState(old(requests), {}, old(peerGoaway), false), events)
      ensures !raised ==> (peerGoaway <==> old(peerGoaway) || GoAwayReceived in events)
      ensures !raised ==> (closed <==> ConnectionClosed in events)
    {
      raised, closed, ready := false, false, {};
      for i := 0 to |events|
        invariant WellFormed(events[..i]) && !raised
        invariant SpecState(requests, ready, peerGoaway, closed)
               == SpecFold(SpecState(old(requests), {}, old(peerGoaway), false), events[..i])
      {
        var e := events[i];
        if e.RequestReceived? && !HasMethod(e.headers) {
          raised := true;
          assert e in events;
          return;
        }
        assert events[..i] + [e] == events[..i + 1];
        SpecFoldOneMore(SpecState(old(requests), {}, old(peerGoaway), false), events[..i], e);
        match e {
          case RequestReceived(id, headers, end) =>
            requests := requests[id := FirstMethod(headers)];
            if end {
              ready := ready + {id};
            }
          case DataReceived(id, end) =>
            if end && id in requests {
              ready := ready + {id};
            }
          case TrailersReceived(id) =>
            if id in requests {
              ready := ready + {id};
            }
          case StreamReset(id) =>
            requests, ready := requests - {id}, ready - {id};
          case StreamClosed(id) =>
            requests, ready := requests - {id}, ready - {id};
          case GoAwayReceived =>
            peerGoaway := true;
          case ConnectionClosed =>
            closed := true;
        }
      }
      assert events[..|events|] == events;
      FlagsOf(SpecState(old(requests), {}, old(peerGoaway), false), events);
    }

    method AnswerReady(ready: set<StreamId>) returns (answers: Methods)
      modifies this`requests
      ensures requests == old(requests) - ready
      ensures answers == map id | id in ready && id in old(requests) :: old(requests)[id]
    {
      answers := map[];
      var todo := ready;
      while todo != {}
        invariant todo <= ready && requests == old(requests) - (ready - todo)
        invariant answers == map id | id in ready - todo && id in old(requests) :: old(requests)[id]
        decreases todo
      {
        var id :| id in todo;
        if id in requests {
          answers := answers[id := requests[id]];
          requests := requests - {id};
        }
        todo := todo - {id};
      }
    }

    method ReadOutput(events: Batch) returns (closed: bool)
      modifies this`requests
      ensures requests == AfterOutput(old(requests), events) && (closed <==> Closes(events))
    {
      closed := false;
      for i := 0 to |events|
        invariant requests == AfterOutput(old(requests), events[..i]) && (closed <==> Closes(events[..i]))
      {
        var e := events[i];
        assert events[..i] + [e] == events[..i + 1];
        AfterOutputOneMore(old(requests), events[..i], e);
        if e.StreamClosed? {
          requests := requests - {e.id};
        } else if e.ConnectionClosed? {
          closed := true;
        }
      }
      assert events[..|events|] == events;
    }

    /** One turn of the receive loop. */
    method Serve(round: Round) returns (stop: bool, raised: bool, answers: Methods)
      modifies this
      ensures raised <==> !WellFormed(round.input)
      ensures !raised ==>
        RoundResult(requests, peerGoaway, stop, answers) == ServeRound(old(requests), old(peerGoaway), round)
    {
      var closed, ready;
      answers, stop := map[], false;
      raised, closed, ready := ReadInput(round.input);
      if !raised {
        answers := AnswerReady(ready);
        var closedByOutput := ReadOutput(round.output);
        stop := peerGoaway || closed || closedByOutput;
      }
    }
  }

  // ---------------------------------------------------------------- agreement with the example server

  predicate AllHaveMethod(requests: map<StreamId, Fields>) {
    forall id :: id in requests ==> HasMethod(requests[id])
  }

  /** The methods of the requests the example server tracks. */
  function Project(requests: map<StreamId, Fields>): Methods
    requires AllHaveMethod(requests)
  {
    map id | id in requests :: FirstMethod(requests[id])
  }

  ghost predicate Agree(a: State, b: SpecState) {
    && AllHaveMethod(a.requests)
    && b.requests == Project(a.requests) && b.ready == a.ready && b.closed == a.closed
  }

  lemma StepsAgree(a: State, b: SpecState, e: Event)
    requires !Raises(e) && Agree(a, b)
    ensures Agree(Step(a, e), SpecStep(b, e))
  {
    if e.RequestReceived? {
      assert Project(a.requests[e.id := e.headers]) == Project(a.requests)[e.id := FirstMethod(e.headers)];
    } else if e.StreamReset? || e.StreamClosed? {
      assert Project(a.requests - {e.id}) == Project(a.requests) - {e.id};
    }
  }

  lemma {:induction false} FoldsAgree(a: State, b: SpecState, events: Batch)
    requires WellFormed(events) && Agree(a, b)
    ensures Agree(Fold(a, events), SpecFold(b, events))
    decreases |events|
  {
    hide Agree;
    if events != [] {
      StepsAgree(a, b, events[0]);
      FoldsAgree(Step(a, events[0]), SpecStep(b, events[0]), events[1..]);
    }
  }

  /** No event that can only come from input: what is left ends the connection, closes or resets a stream, or says
      nothing about a request. */
  predicate Quiet(e: Event) {
    e.StreamClosed? || e.StreamReset? || e.GoAwayReceived? || e.ConnectionClosed? || (e.DataReceived? && !e.end)
  }

  predicate Passive(events: Batch) {
    forall e <- events :: Quiet(e)
  }

  /** Streams that the example server forgets, and those that the adapter forgets. */
  function Gone(events: Batch): set<StreamId> {
    set e <- events | e.StreamClosed? || e.StreamReset? :: e.id
  }

  function Shut(events: Batch): set<StreamId> {
    set e <- events | e.StreamClosed? :: e.id
  }

  lemma ForgottenFirst(events: Batch)
    requires events != []
    ensures var e, rest := events[0], events[1..];
            && Gone(events) == Gone(rest) + (if e.StreamClosed? || e.StreamReset? then {e.id} else {})
            && Shut(events) == Shut(rest) + (if e.StreamClosed? then {e.id} else {})
  {
    assert events == [events[0]] + events[1..];
  }

  lemma {:induction false} PassiveForgets(st: State, events: Batch)
    requires Passive(events)
    ensures var after := Fold(st, events);
            after.requests == st.requests - Gone(events) && after.ready <= st.ready
    decreases |events|
  {
    hide Gone;
    if events == [] {
      NothingForgotten();
    } else {
      var e, next := events[0], Step(st, events[0]);
      assert Quiet(e);
      PassiveForgets(next, events[1..]);
      ForgottenFirst(events);
      assert next.requests - Gone(events[1..]) == st.requests - Gone(events);
    }
  }

  lemma NothingForgotten()
    ensures Gone([]) == {} && Shut([]) == {}
  {
  }

  lemma {:induction false} OutputForgets(requests: Methods, events: Batch)
    ensures AfterOutput(requests, events) == requests - Shut(events)
    decreases |events|
  {
    hide Shut;
    if events == [] {
      NothingForgotten();
    } else {
      var e := events[0];
      var next := if e.StreamClosed? then requests - {e.id} else requests;
      OutputForgets(next, events[1..]);
      ForgottenFirst(events);
      assert next - Shut(events[1..]) == requests - Shut(events);
    }
  }

  /** Every tracked stream that is reset is also reported as closed. */
  predicate ResetsAreClosed(requests: map<StreamId, Fields>, events: Batch) {
    forall id <- requests.Keys :: StreamReset(id) in events ==> StreamClosed(id) in events
  }

  /** On the events after the output the two servers keep the same streams if and only if no tracked stream is
      reset without being closed. Neither answers anything. */
  lemma OutputsAgreeExactly(requests: map<StreamId, Fields>, events: Batch)
    requires Passive(events) && AllHaveMethod(requests)
    ensures (Scan(requests, events).closed <==> Closes(events)) && Answers(requests, events) == map[]
    ensures AllHaveMethod(Remaining(requests, events))
    ensures AfterOutput(Project(requests), events) == Project(Remaining(requests, events))
       <==> ResetsAreClosed(requests, events)
  {
    PassiveForgets(State(requests, {}, false), events);
    ClosedByEvent(State(requests, {}, false), events);
    OutputForgets(Project(requests), events);
    var gone, shut := Gone(events), Shut(events);
    assert Remaining(requests, events) == requests - gone;
    assert Project(requests - gone) == Project(requests) - gone;
    if ResetsAreClosed(requests, events) {
      forall id <- requests.Keys ensures id in gone <==> id in shut {
        if id in gone {
          var e :| e in events && (e.StreamClosed? || e.StreamReset?) && e.id == id;
          assert e == StreamClosed(id) || e == StreamReset(id);
        }
      }
      assert Project(requests) - gone == Project(requests) - shut;
    } else {
      var id :| id in requests && StreamReset(id) in events && StreamClosed(id) !in events;
      assert id in gone && id !in shut;
      assert id in Project(requests) - shut;
    }
  }

  /** On one batch of input the two trackers keep the same streams, and they answer the same requests exactly
      when the batch does not report ConnectionClosed or nothing in it is ready: the example server
      withholds its answers from a closing connection, the adapter does not. */
  lemma InputsAgreeExactlyUnlessClosing(requests: map<StreamId, Fields>, goaway: bool, input: Batch)
    requires WellFormed(input) && AllHaveMethod(requests)
    ensures var st := Scan(requests, input);
            var r := ServeRound(Project(requests), goaway, Round(input, []));
            && AllHaveMethod(Answers(requests, input)) && AllHaveMethod(Remaining(requests, input))
            && (!Closes(input) ==> r.requests == Project(Remaining(requests, input)))
            && (r.answers == Project(Answers(requests, input)) <==> !Closes(input) || st.ready == {})
  {
    hide Fold, SpecFold, HasMethod, FirstMethod;
    var a, b := State(requests, {}, false), SpecState(Project(requests), {}, goaway, false);
    FoldsAgree(a, b, input);
    ReadyIsTracked(a, input);
    ClosedByEvent(a, input);
    var st := Fold(a, input);
    assert !st.closed ==> Project(st.requests - st.ready) == Project(st.requests) - st.ready;
    if st.closed && st.ready != {} {
      var id :| id in st.ready;
      assert id in ServeRound(Project(requests), goaway, Round(input, [])).answers;
    }
  }

  /** The library reports ConnectionClosed only when no stream is left: then the two servers agree on every batch of
      input, in their answers and in what they keep. */
  lemma InputsAgreeWhenDrained(requests: map<StreamId, Fields>, goaway: bool, input: Batch)
    requires WellFormed(input) && AllHaveMethod(requests)
    requires Closes(input) ==> Scan(requests, input).requests == map[]
    ensures AllHaveMethod(Answers(requests, input)) && AllHaveMethod(Remaining(requests, input))
    ensures var r := ServeRound(Project(requests), goaway, Round(input, []));
            r.answers == Project(Answers(requests, input)) && r.requests == Project(Remaining(requests, input))
  {
    hide Fold, SpecFold, HasMethod, FirstMethod;
    InputsAgreeExactlyUnlessClosing(requests, goaway, input);
    ReadyIsTracked(State(requests, {}, false), input);
    ClosedByEvent(State(requests, {}, false), input);
    FoldsAgree(State(requests, {}, false), SpecState(Project(requests), {}, goaway, false), input);
  }

  datatype SpecOutcome = SpecOutcome(requests: Methods, answers: seq<Methods>)

  /** The receive loop, until GOAWAY, ConnectionClosed or a StopIteration ends it. */
  function ServeRounds(requests: Methods, rounds: seq<Round>): SpecOutcome
    decreases |rounds|
  {
    if rounds == [] || !WellFormed(rounds[0].input) then SpecOutcome(requests, [])
    else
      var now := ServeRound(requests, false, rounds[0]);
      if now.stop then SpecOutcome(now.requests, [now.answers])
      else
        var later := ServeRounds(now.requests, rounds[1..]);
        later.(answers := [now.answers] + later.answers)
  }

  lemma {:induction false} FlagsOf(st: SpecState, events: Batch)
    requires WellFormed(events)
    ensures SpecFold(st, events).goaway <==> st.goaway || GoAwayReceived in events
    ensures SpecFold(st, events).closed <==> st.closed || ConnectionClosed in events
    decreases |events|
  {
    if events != [] {
      FlagsOf(SpecStep(st, events[0]), events[1..]);
    }
  }

  /** The peer or the library ends the connection in this round. */
  predicate Ends(r: Round) {
    GoAwayReceived in r.input || ConnectionClosed in r.input || ConnectionClosed in r.output
  }

  /** A round is the last one exactly when GOAWAY or ConnectionClosed is seen in it. */
  lemma RoundStopsExactly(requests: Methods, round: Round)
    requires WellFormed(round.input)
    ensures ServeRound(requests, false, round).stop <==> Ends(round)
    ensures ServeRound(requests, false, round).goaway <==> GoAwayReceived in round.input
  {
    FlagsOf(SpecState(requests, {}, false, false), round.input);
  }

  predicate AllWellFormed(rounds: seq<Round>) {
    forall i :: 0 <= i < |rounds| ==> WellFormed(rounds[i].input)
  }

  /** What is tracked after a number of rounds. */
  function TrackedAfter(requests: Methods, rounds: seq<Round>): Methods
    requires AllWellFormed(rounds)
    decreases |rounds|
  {
    if rounds == [] then requests
    else
      assert WellFormed(rounds[0].input) && forall i :: 0 <= i < |rounds| - 1 ==> rounds[1..][i] == rounds[i + 1];
      TrackedAfter(ServeRound(requests, false, rounds[0]).requests, rounds[1..])
  }

  /** `n` rounds are served: all have methods, none before the last of them ends the connection, and if rounds
      remain, the last did so or the next one has a request without a method. */
  ghost predicate ServedExactly(rounds: seq<Round>, n: nat) {
    && n <= |rounds|
    && AllWellFormed(rounds[..n])
    && (forall i :: 0 <= i < n - 1 ==> !Ends(rounds[i]))
    && (n < |rounds| ==> (n > 0 && Ends(rounds[n - 1])) || !WellFormed(rounds[n].input))
  }

  /** The answers of a round, from what was tracked when it began. */
  ghost predicate IsAnswer(requests: Methods, rounds: seq<Round>, i: nat, answer: Methods) {
    i < |rounds| && AllWellFormed(rounds[..i]) && WellFormed(rounds[i].input)
    && answer == ServeRound(TrackedAfter(requests, rounds[..i]), false, rounds[i]).answers
  }

  ghost predicate AnsweredInTurn(requests: Methods, rounds: seq<Round>, answers: seq<Methods>) {
    forall i :: 0 <= i < |answers| ==> IsAnswer(requests, rounds, i, answers[i])
  }

  lemma WellFormedFirst(round: Round, rounds: seq<Round>)
    ensures AllWellFormed([round] + rounds) <==> WellFormed(round.input) && AllWellFormed(rounds)
  {
    hide WellFormed;
    var all := [round] + rounds;
    assert all[0] == round && forall i :: 0 <= i < |rounds| ==> all[i + 1] == rounds[i];
  }

  lemma {:induction false} ServesUntilTheEnd(requests: Methods, rounds: seq<Round>)
    ensures ServedExactly(rounds, |ServeRounds(requests, rounds).answers|)
    decreases |rounds|
  {
    hide ServeRound, WellFormed, Ends;
    if rounds != [] && WellFormed(rounds[0].input) {
      var now, rest := ServeRound(requests, false, rounds[0]), rounds[1..];
      RoundStopsExactly(requests, rounds[0]);
      if now.stop {
        assert rounds[..1] == [rounds[0]];
      } else {
        ServesUntilTheEnd(now.requests, rest);
        var n := |ServeRounds(now.requests, rest).answers|;
        assert rounds[..n + 1] == [rounds[0]] + rest[..n];
        WellFormedFirst(rounds[0], rest[..n]);
        assert forall i :: 0 < i < |rounds| ==> rounds[i] == rest[i - 1];
      }
    }
  }

  lemma IsAnswerLater(requests: Methods, rounds: seq<Round>, i: nat, answer: Methods)
    requires rounds != [] && WellFormed(rounds[0].input)
    requires IsAnswer(ServeRound(requests, false, rounds[0]).requests, rounds[1..], i, answer)
    ensures IsAnswer(requests, rounds, i + 1, answer)
  {
    hide ServeRound, WellFormed;
    var rest := rounds[1..];
    assert rounds[..i + 1] == [rounds[0]] + rest[..i];
    WellFormedFirst(rounds[0], rest[..i]);
    assert rounds[..i + 1][1..] == rest[..i] && rounds[i + 1] == rest[i];
  }

  lemma {:induction false} AnswersInTurn(requests: Methods, rounds: seq<Round>)
    ensures AnsweredInTurn(requests, rounds, ServeRounds(requests, rounds).answers)
    decreases |rounds|
  {
    hide ServeRound, WellFormed, IsAnswer;
    var answers := ServeRounds(requests, rounds).answers;
    if rounds != [] && WellFormed(rounds[0].input) {
      var now := ServeRound(requests, false, rounds[0]);
      FirstAnswer(requests, rounds);
      if !now.stop {
        AnswersInTurn(now.requests, rounds[1..]);
        var later := ServeRounds(now.requests, rounds[1..]).answers;
        assert answers == [now.answers] + later;
        forall i | 0 <= i < |answers| ensures IsAnswer(requests, rounds, i, answers[i]) {
          if i > 0 {
            IsAnswerLater(requests, rounds, i - 1, later[i - 1]);
          }
        }
      }
    }
  }

  lemma FirstAnswer(requests: Methods, rounds: seq<Round>)
    requires rounds != [] && WellFormed(rounds[0].input)
    ensures IsAnswer(requests, rounds, 0, ServeRound(requests, false, rounds[0]).answers)
  {
    assert rounds[..0] == [];
  }

  lemma ServeRoundsOfNone(requests: Methods)
    ensures ServeRounds(requests, []).answers == []
  {
  }

  lemma ServeRoundsFirst(requests: Methods, rounds: seq<Round>)
    requires rounds != []
    ensures if WellFormed(rounds[0].input) then
              var now := ServeRound(requests, false, rounds[0]);
              && ServeRounds(requests, rounds).answers
                 == [now.answers] + (if now.stop then [] else ServeRounds(now.requests, rounds[1..]).answers)
              && (!now.stop ==> !now.goaway)
            else ServeRounds(requests, rounds).answers == []
  {
  }

  method ServeConnection(rounds: seq<Round>) returns (answers: seq<Methods>)
    ensures answers == ServeRounds(map[], rounds).answers
    ensures ServedExactly(rounds, |answers|) && AnsweredInTurn(map[], rounds, answers)
  {
    ServesUntilTheEnd(map[], rounds);
    AnswersInTurn(map[], rounds);
    hide ServedExactly, AnsweredInTurn, ServeRounds, ServeRound, WellFormed;
    var server := new SpecServer();
    answers := [];
    ghost var all := ServeRounds(map[], rounds);
    var i := 0;
    assert rounds[0..] == rounds && [] + all.answers == all.answers;
    while i < |rounds|
      invariant 0 <= i <= |rounds| && !server.peerGoaway
      invariant all.answers == answers + ServeRounds(server.requests, rounds[i..]).answers
    {
      ServeRoundsFirst(server.requests, rounds[i..]);
      assert rounds[i..][1..] == rounds[i + 1..];
      var stop, raised, now := server.Serve(rounds[i]);
      if raised {
        return;
      }
      answers := answers + [now];
      if stop {
        return;
      }
      i := i + 1;
    }
    ServeRoundsOfNone(server.requests);
    assert rounds[i..] == [] && answers + [] == answers;
  }

  function Interleave(rounds: seq<Round>): seq<Batch> {
    if rounds == [] then [] else [rounds[0].input, rounds[0].output] + Interleave(rounds[1..])
  }

  predicate Ordinary(r: Round) {
    WellFormed(r.input) && !Closes(r.input) && GoAwayReceived !in r.input && Passive(r.output)
  }

  lemma {:induction false} NoGoAway(st: SpecState, events: Batch)
    requires WellFormed(events) && GoAwayReceived !in events && !st.goaway
    ensures !SpecFold(st, events).goaway
    decreases |events|
  {
    if events != [] {
      NoGoAway(SpecStep(st, events[0]), events[1..]);
    }
  }

  /** One ordinary round: the same answers, and the same streams afterwards if and only if the output closes every
      tracked stream that it resets. */
  lemma RoundsAgreeExactly(requests: map<StreamId, Fields>, r: Round)
    requires Ordinary(r) && AllHaveMethod(requests)
    ensures var s, kept := ServeRound(Project(requests), false, r), Remaining(requests, r.input);
            && AllHaveMethod(Answers(requests, r.input)) && s.answers == Project(Answers(requests, r.input))
            && !Scan(requests, r.input).closed
            && (s.stop <==> Closes(r.output)) && (Scan(kept, r.output).closed <==> Closes(r.output))
            && Answers(kept, r.output) == map[] && AllHaveMethod(Remaining(kept, r.output))
            && (s.requests == Project(Remaining(kept, r.output)) <==> ResetsAreClosed(kept, r.output))
  {
    var kept := Remaining(requests, r.input);
    InputsAgreeExactlyUnlessClosing(requests, false, r.input);
    OutputsAgreeExactly(kept, r.output);
    ClosedByEvent(State(requests, {}, false), r.input);
    FoldsAgree(State(requests, {}, false), SpecState(Project(requests), {}, false, false), r.input);
    NoGoAway(SpecState(Project(requests), {}, false, false), r.input);
  }

  /** Along the run, up to the output that ends the connection, outputs close the tracked streams that they reset. */
  predicate Settled(requests: map<StreamId, Fields>, rounds: seq<Round>)
    decreases |rounds|
  {
    rounds == [] || (
      var kept := Remaining(requests, rounds[0].input);
      && ResetsAreClosed(kept, rounds[0].output)
      && (Closes(rounds[0].output) || Settled(Remaining(kept, rounds[0].output), rounds[1..])))
  }

  /** Per round, the answers to the input are the same and the output is answered by neither. */
  ghost predicate SameAnswers(a: seq<map<StreamId, Fields>>, b: seq<Methods>) {
    && |a| == 2 * |b|
    && forall i :: 0 <= i < |b| ==> AllHaveMethod(a[2 * i]) && b[i] == Project(a[2 * i]) && a[2 * i + 1] == map[]
  }

  lemma SameAnswersCons(a: seq<map<StreamId, Fields>>, b: seq<Methods>, now: map<StreamId, Fields>)
    requires SameAnswers(a, b) && AllHaveMethod(now)
    ensures SameAnswers([now] + ([map[]] + a), [Project(now)] + b)
  {
    var a', b' := [now] + ([map[]] + a), [Project(now)] + b;
    forall i | 0 <= i < |b'|
      ensures AllHaveMethod(a'[2 * i]) && b'[i] == Project(a'[2 * i]) && a'[2 * i + 1] == map[]
    {
      if i > 0 {
        assert a'[2 * i] == a[2 * (i - 1)] && a'[2 * i + 1] == a[2 * (i - 1) + 1] && b'[i] == b[i - 1];
      }
    }
  }

  /** Rounds that are served: all of them, unless the output of one ends the connection. */
  function Served(rounds: seq<Round>): nat {
    if rounds == [] then 0 else 1 + if Closes(rounds[0].output) then 0 else Served(rounds[1..])
  }

  /** Over any number of ordinary rounds, the last of which may end the connection with its output, both servers give
      the same answers and keep the same streams. */
  lemma {:induction false} TrackersAgree(requests: map<StreamId, Fields>, rounds: seq<Round>)
    requires AllHaveMethod(requests) && (forall r <- rounds :: Ordinary(r)) && Settled(requests, rounds)
    ensures var a, b := Serve(requests, Interleave(rounds)), ServeRounds(Project(requests), rounds);
            && AllHaveMethod(a.requests) && b.requests == Project(a.requests)
            && |b.answers| == Served(rounds) && SameAnswers(a.answers, b.answers)
    decreases |rounds|
  {
    if rounds != [] {
      var r, kept := rounds[0], Remaining(requests, rounds[0].input);
      RoundsAgreeExactly(requests, r);
      InterleaveStep(requests, rounds);
      var next := Remaining(kept, r.output);
      if Closes(r.output) {
        SameAnswersCons([], [], Answers(requests, r.input));
      } else {
        TrackersAgree(next, rounds[1..]);
        SameAnswersCons(Serve(next, Interleave(rounds[1..])).answers, ServeRounds(Project(next), rounds[1..]).answers,
                        Answers(requests, r.input));
      }
    }
  }

  lemma InterleaveStep(requests: map<StreamId, Fields>, rounds: seq<Round>)
    requires rounds != []
    requires var kept := Remaining(requests, rounds[0].input);
             && !Scan(requests, rounds[0].input).closed && Answers(kept, rounds[0].output) == map[]
    ensures var kept := Remaining(requests, rounds[0].input);
            var next := Remaining(kept, rounds[0].output);
            var later := if Scan(kept, rounds[0].output).closed then Outcome(next, [], true)
                         else Serve(next, Interleave(rounds[1..]));
            Serve(requests, Interleave(rounds))
            == later.(answers := [Answers(requests, rounds[0].input)] + ([map[]] + later.answers))
  {
    hide Scan, Remaining, Answers;
    var all, rest := Interleave(rounds), [rounds[0].output] + Interleave(rounds[1..]);
    assert all[0] == rounds[0].input && all[1..] == rest && rest[1..] == Interleave(rounds[1..]);
    assert Serve(requests, all)
        == (var s := Serve(Remaining(requests, all[0]), rest); s.(answers := [Answers(requests, all[0])] + s.answers));
  }

  ghost predicate AgreeAfter(requests: map<StreamId, Fields>, rounds: seq<Round>)
    requires AllHaveMethod(requests)
  {
    var a, b := Serve(requests, Interleave(rounds)), ServeRounds(Project(requests), rounds);
    AllHaveMethod(a.requests) && b.requests == Project(a.requests)
  }

  lemma {:induction false} SettledPrefix(requests: map<StreamId, Fields>, rounds: seq<Round>, n: nat)
    requires Settled(requests, rounds) && n <= |rounds|
    ensures Settled(requests, rounds[..n])
    decreases n
  {
    if n > 0 {
      var kept := Remaining(requests, rounds[0].input);
      if !Closes(rounds[0].output) {
        SettledPrefix(Remaining(kept, rounds[0].output), rounds[1..], n - 1);
        assert rounds[..n][1..] == rounds[1..][..n - 1];
      }
    }
  }

  /** What an ordinary first round leaves to the later ones. */
  lemma FirstRound(requests: map<StreamId, Fields>, rounds: seq<Round>)
    requires AllHaveMethod(requests) && rounds != [] && Ordinary(rounds[0])
    ensures var kept, s := Remaining(requests, rounds[0].input), ServeRound(Project(requests), false, rounds[0]);
            var next := Remaining(kept, rounds[0].output);
            && AllHaveMethod(next)
            && Serve(requests, Interleave(rounds)).requests
               == (if Closes(rounds[0].output) then next else Serve(next, Interleave(rounds[1..])).requests)
            && ServeRounds(Project(requests), rounds).requests
               == (if Closes(rounds[0].output) then s.requests else ServeRounds(s.requests, rounds[1..]).requests)
            && (s.requests == Project(next) <==> ResetsAreClosed(kept, rounds[0].output))
  {
    RoundsAgreeExactly(requests, rounds[0]);
    InterleaveStep(requests, rounds);
  }

  lemma {:induction false} FirstDisagreement(requests: map<StreamId, Fields>, rounds: seq<Round>) returns (n: nat)
    requires AllHaveMethod(requests) && (forall r <- rounds :: Ordinary(r)) && !Settled(requests, rounds)
    ensures n <= |rounds| && !AgreeAfter(requests, rounds[..n])
    decreases |rounds|
  {
    hide ServeRound, Serve, ServeRounds, Remaining, ResetsAreClosed, Interleave;
    var kept := Remaining(requests, rounds[0].input);
    var next := Remaining(kept, rounds[0].output);
    if ResetsAreClosed(kept, rounds[0].output) {
      FirstRound(requests, rounds);
      var m := FirstDisagreement(next, rounds[1..]);
      n := m + 1;
      FirstRound(requests, rounds[..n]);
      assert rounds[..n][1..] == rounds[1..][..m];
    } else {
      n := 1;
      FirstRound(requests, rounds[..1]);
      assert rounds[..1][1..] == [];
      NoRounds(next, ServeRound(Project(requests), false, rounds[0]).requests);
    }
  }

  lemma NoRounds(requests: map<StreamId, Fields>, methods: Methods)
    ensures Serve(requests, Interleave([])).requests == requests && ServeRounds(methods, []).requests == methods
  {
  }

  /** After every number of ordinary rounds both servers keep the same streams, if and only if along the run every
      tracked stream that an output resets is closed by it, which the library promises. */
  lemma TrackersAgreeExactly(requests: map<StreamId, Fields>, rounds: seq<Round>)
    requires AllHaveMethod(requests) && forall r <- rounds :: Ordinary(r)
    ensures Settled(requests, rounds) <==> forall n: nat :: n <= |rounds| ==> AgreeAfter(requests, rounds[..n])
  {
    if Settled(requests, rounds) {
      forall n: nat | n <= |rounds| ensures AgreeAfter(requests, rounds[..n]) {
        SettledPrefix(requests, rounds, n);
        TrackersAgree(requests, rounds[..n]);
      }
    } else {
      var n := FirstDisagreement(requests, rounds);
    }
  }

  /** The value that is tracked is that of the first `:method` field. */
  predicate IsMethod(headers: Fields, value: string) {
    exists k :: 0 <= k < |headers| && headers[k] == Header(":method", value)
                && forall j :: 0 <= j < k ==> headers[j].name != ":method"
  }

  lemma {:induction false} FirstMethodIsMethod(headers: Fields)
    requires HasMethod(headers)
    ensures IsMethod(headers, FirstMethod(headers))
  {
    var k := FirstMethodPosition(headers);
    FirstMethodAt(headers, k);
    assert headers[k] == Header(":method", FirstMethod(headers));
  }

  lemma {:induction false} FirstMethodPosition(headers: Fields) returns (k: nat)
    requires HasMethod(headers)
    ensures k < |headers| && headers[k].name == ":method" && forall j :: 0 <= j < k ==> headers[j].name != ":method"
  {
    if headers[0].name == METHOD {
      k := 0;
    } else {
      var h :| h in headers && h.name == METHOD;
      assert h in headers[1..];
      k := FirstMethodPosition(headers[1..]);
      k := k + 1;
    }
  }

  /** One batch of the adapter, by positions: who is answered and who is kept, and with the method of which request. */
  lemma SpecBatchMeans(requests: map<StreamId, Fields>, goaway: bool, input: Batch, id: StreamId)
    requires WellFormed(input) && AllHaveMethod(requests) && ConnectionClosed !in input
    ensures var r, n, known := ServeRound(Project(requests), goaway, Round(input, [])), |input|, id in requests;
            && (id in r.answers <==> Finished(known, false, input, id, n))
            && (id in r.requests <==> InUse(known, input, id, n) && !Finished(known, false, input, id, n))
            && (forall i: nat :: LastAsk(input, id, n, i) ==>
                  && (id in r.answers ==> IsMethod(input[i].headers, r.answers[id]))
                  && (id in r.requests ==> IsMethod(input[i].headers, r.requests[id])))
  {
    hide InUse, Finished, LastAsk, Answers, Remaining, ServeRound, IsMethod, HasMethod, FirstMethod;
    InputsAgreeWhenDrained(requests, goaway, input);
    BatchMeans(requests, input, id);
    LastAsksAreThere(input, id);
    var answers, kept := Answers(requests, input), Remaining(requests, input);
    if id in answers {
      FirstMethodIsMethod(answers[id]);
    }
    if id in kept {
      FirstMethodIsMethod(kept[id]);
    }
  }
}
