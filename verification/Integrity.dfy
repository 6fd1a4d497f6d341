/** The tape law over whole runs: what the client said on a stream, call by call, is what is delivered, in flight and
    queued on it.
 */
module Integrity {
  import opened Basics
  import opened Bodies
  import opened Folds
  import opened Http2
  import opened Flush
  import opened Direction
  import opened Exchange
  import opened NativeFlow
  import opened Progress
  import opened Liveness

  /** What a step adds to the message of stream `s`: only the client's own calls do. */
  function StepTape(s: StreamId): Step -> Tape {
    (step: Step) =>
      match step
      case Opens(id, end) => if id == s then [Head] + EndMark(end) else []
      case Queues(id, chunk) => if id == s then ChunkTape(chunk) else []
      case Submits(id, data, end) => if id == s then Octets(data) + EndMark(end) else []
      case Flushes(_, _) => []
      case Delivers(_, _) => []
      case Consumes(_, _) => []
      case Handles(_, _, _) => []
  }

  function Said(steps: seq<Step>, s: StreamId): Tape {
    FlatMap(StepTape(s), steps)
  }

  function Message(w: World, s: StreamId): Tape {
    StreamTape(w.client, w.server, s)
  }

  /** Everything that happens between the client's calls leaves every message alone. */
  lemma TransportIsSilent(w: World, step: Step, body: seq<Byte>, s: StreamId)
    requires Inv(w, body) && Enabled(w, step) && !step.Opens? && !step.Queues? && !step.Submits?
    ensures Message(Next(w, step, body), s) == Message(w, s)
  {
    hide Inv, Outcome, Potential, StreamTape, MayFlush;
    match step
    case Flushes(atServer, r) => FlushEvolves(w, atServer, r, body);
    case Delivers(atServer, keep) => ArrivalEvolves(w, atServer, keep, body);
    case Consumes(atServer, c) => ConsumeEvolves(w, atServer, c, body);
    case Handles(atServer, connection, stream) => HandleEvolves(w, atServer, body, connection, stream);
  }

  lemma CallsAppend(w: World, step: Step, body: seq<Byte>, s: StreamId)
    requires Inv(w, body) && Enabled(w, step) && (step.Opens? || step.Queues?)
    ensures Message(Next(w, step, body), s) == Message(w, s) + StepTape(s)(step)
  {
    hide StreamTape, FlatMap;
    if step.Opens? {
      OpenAppends(w.client, w.server, step.id, step.end, s);
    } else {
      QueueAppends(w.client, w.server, step.id, step.chunk, s);
    }
  }

  lemma SubmissionsAppend(w: World, step: Step, body: seq<Byte>, s: StreamId)
    requires Inv(w, body) && Enabled(w, step) && step.Submits?
    ensures Visible(Message(Next(w, step, body), s)) == Visible(Message(w, s)) + Visible(StepTape(s)(step))
  {
    hide StreamTape, Visible, Channel;
    SubmitKeepsChannels(w.client, w.server, step.id, step.data, step.end);
    WithoutEmpty(StepTape(s)(step));
  }

  lemma StepSays(w: World, step: Step, body: seq<Byte>, s: StreamId)
    requires Inv(w, body) && Enabled(w, step)
    ensures !step.Submits? ==> Message(Next(w, step, body), s) == Message(w, s) + StepTape(s)(step)
    ensures Visible(Message(Next(w, step, body), s)) == Visible(Message(w, s)) + Visible(StepTape(s)(step))
  {
    hide Inv, Enabled, Next, Message, Visible;
    if step.Submits? {
      SubmissionsAppend(w, step, body, s);
    } else {
      if step.Opens? || step.Queues? {
        CallsAppend(w, step, body, s);
      } else {
        TransportIsSilent(w, step, body, s);
        assert StepTape(s)(step) == [] && Message(w, s) + [] == Message(w, s);
      }
      VisibleConcat(Message(w, s), StepTape(s)(step));
    }
  }

  /** Byte integrity over whole runs of either library, for every framer and every order of steps: the message of each
      stream is exactly what the client said on it, in order. Where bodies are kept in the library, DATA frames
      without bytes are not counted. */
  lemma {:induction false} EveryRunKeepsMessages(limits: Limits, run: seq<World>, steps: seq<Step>, body: seq<Byte>,
      s: StreamId)
    requires limits.threshold > 0 && IsRun(limits, run, steps, body)
    ensures (forall step <- steps :: !step.Submits?) ==> Message(run[|steps|], s) == Said(steps, s)
    ensures Visible(Message(run[|steps|], s)) == Visible(Said(steps, s))
    decreases |steps|
  {
    hide Inv, Enabled, Next, Message, Visible, StepTape;
    if steps == [] {
      NothingSaid(limits, s);
    } else {
      var n := |steps| - 1;
      EveryRunKeepsMessages(limits, run[..n + 1], steps[..n], body, s);
      EveryRunIsSafe(limits, run, steps, body);
      assert run[n] in run;
      StepSays(run[n], steps[n], body, s);
      assert steps == steps[..n] + [steps[n]];
      FlatMapConcat(StepTape(s), steps[..n], [steps[n]]);
      VisibleConcat(Said(steps[..n], s), StepTape(s)(steps[n]));
      assert steps[n] in steps && forall step <- steps[..n] :: step in steps;
    }
  }

  lemma NothingSaid(limits: Limits, s: StreamId)
    ensures Message(Start(limits), s) == []
  {
  }

  /** So what has been delivered is always the beginning of what was said, and what the client has received on a
      stream the beginning of the response. */
  lemma DeliveredIsPrefix(limits: Limits, run: seq<World>, steps: seq<Step>, body: seq<Byte>, s: StreamId)
    requires limits.threshold > 0 && IsRun(limits, run, steps, body)
    ensures var w := run[|steps|];
            && Visible(TapeOf(s, w.server.conn.received)) <= Visible(Said(steps, s))
            && TapeOf(s, w.client.conn.received) <= MessageTape(BodyParts(body))
  {
    hide Visible, Said, MessageTape, TapeOf, PendingTape;
    var w := run[|steps|];
    EveryRunKeepsMessages(limits, run, steps, body, s);
    EveryRunIsSafe(limits, run, steps, body);
    assert w in run;
    assert AnswerOk(w.client, w.server, body, s);
    var delivered, sent := TapeOf(s, w.server.conn.received), TapeOf(s, w.client.conn.outbox);
    var queued := PendingTape(w.client.pending, s);
    Associate(delivered, sent, queued);
    VisibleConcat(delivered, sent + queued);
  }
}
