/** Why credit has to come back: when every run that stops has finished, and the run that does not. */
module Deadlock {
  import opened Basics
  import opened Http2
  import opened Flush
  import opened Direction
  import opened Exchange
  import opened Liveness

  /** Some run of `limits` ends in `w`. */
  ghost predicate Reachable(limits: Limits, w: World, body: seq<Byte>) {
    exists run: seq<World>, steps: seq<Step> :: IsRun(limits, run, steps, body) && run[|steps|] == w
  }

  lemma ReachesNext(limits: Limits, w: World, step: Step, body: seq<Byte>)
    requires Reachable(limits, w, body) && Enabled(w, step)
    ensures Reachable(limits, Next(w, step, body), body)
  {
    hide Next, Enabled;
    var run: seq<World>, steps: seq<Step> :| IsRun(limits, run, steps, body) && run[|steps|] == w;
    var run', steps' := run + [Next(w, step, body)], steps + [step];
    forall i | 0 <= i < |steps'| ensures Enabled(run'[i], steps'[i]) && run'[i + 1] == Next(run'[i], steps'[i], body) {
      if i < |steps| {
        assert run'[i] == run[i] && run'[i + 1] == run[i + 1] && steps'[i] == steps[i];
      }
    }
    assert IsRun(limits, run', steps', body) && run'[|steps'|] == Next(w, step, body);
  }

  lemma ReachableIsSafe(limits: Limits, w: World, body: seq<Byte>)
    requires limits.threshold > 0 && Reachable(limits, w, body)
    ensures Inv(w, body)
  {
    var run: seq<World>, steps: seq<Step> :| IsRun(limits, run, steps, body) && run[|steps|] == w;
    EveryRunIsSafe(limits, run, steps, body);
    assert run[|steps|] in run;
  }

  /** The server withholds all credit while an unfinished request waits at the client for more of it. */
  ghost predicate Starving(limits: Limits, w: World, body: seq<Byte>) {
    && Reachable(limits, w, body) && w.client.conn.limits == limits
    && w.client.events == [] && w.server.conn.outbox == [] && w.server.pending == []
    && w.client.pending != [] && (forall p <- w.client.pending :: w.client.conn.Capacity(p.id) == 0)
    && (forall f <- w.client.conn.outbox :: !f.WindowUpdate? && !f.end)
    && (forall e <- w.server.events :: !e.StreamEnded?)
  }

  /** A threshold above the window lets the server keep everything it was sent. */
  lemma MayWithhold(limits: Limits, w: World, body: seq<Byte>)
    requires limits.threshold > limits.window && Starving(limits, w, body) && w.server.events != []
    ensures CanHandle(w, true, 0, 0)
  {
    ReachableIsSafe(limits, w, body);
    var e := w.server.events[0];
    if e.DataReceived? {
      assert FlowOk(w.client, w.server, CONNECTION) && FlowOk(w.client, w.server, e.id);
    }
  }

  lemma StarvingHandles(limits: Limits, w: World, body: seq<Byte>)
    requires limits.threshold > limits.window && Starving(limits, w, body) && w.server.events != []
    ensures CanHandle(w, true, 0, 0) && Starving(limits, Handled(w, true, body, 0, 0), body)
    ensures Handled(w, true, body, 0, 0).client == w.client
    ensures Handled(w, true, body, 0, 0).server.events == w.server.events[1..]
  {
    hide Reachable;
    MayWithhold(limits, w, body);
    ReachesNext(limits, w, Handles(true, 0, 0), body);
    var w' := Handled(w, true, body, 0, 0);
    assert !w.server.events[0].StreamEnded?;
    assert w'.server.conn.outbox == w.server.conn.outbox;
  }

  lemma StarvingDelivers(limits: Limits, w: World, body: seq<Byte>)
    requires Starving(limits, w, body) && w.client.conn.outbox != []
    ensures Starving(limits, Delivered(w, true, false), body)
    ensures Delivered(w, true, false).client.conn.outbox == w.client.conn.outbox[1..]
    ensures |Delivered(w, true, false).server.events| == |w.server.events| + 1
  {
    hide Reachable;
    ReachesNext(limits, w, Delivers(true, false), body);
    var f, w' := w.client.conn.outbox[0], Delivered(w, true, false);
    assert |EventsOf(true)(f)| == 1 && !EventsOf(true)(f)[0].StreamEnded?;
    assert w'.server.events == w.server.events + EventsOf(true)(f);
  }

  /** Delivering and handling go on until nothing moves any more. */
  lemma {:induction false} StarvingHalts(limits: Limits, w: World, body: seq<Byte>) returns (end: World)
    requires limits.threshold > limits.window && Starving(limits, w, body)
    ensures Starving(limits, end, body) && end.client.conn.outbox == [] && end.server.events == []
    decreases 2 * |w.client.conn.outbox| + |w.server.events|
  {
    hide Starving;
    if w.server.events != [] {
      StarvingHandles(limits, w, body);
      end := StarvingHalts(limits, Handled(w, true, body, 0, 0), body);
    } else if w.client.conn.outbox != [] {
      StarvingDelivers(limits, w, body);
      end := StarvingHalts(limits, Delivered(w, true, false), body);
    } else {
      end := w;
    }
  }

  /** One request with one byte more than the window, as the client queues it. */
  function Asked(limits: Limits): World {
    var data: seq<Byte> := seq(limits.window + 1, _ => 0);
    Start(limits).(client := Queued(Opened(Start(limits).client, 1, false), 1, Chunk(data, true)))
  }

  lemma StartIsReachable(limits: Limits, body: seq<Byte>)
    ensures Reachable(limits, Start(limits), body)
  {
    var run, steps: seq<Step> := [Start(limits)], [];
    assert IsRun(limits, run, steps, body) && run[|steps|] == Start(limits);
  }

  lemma AskedIsReachable(limits: Limits, body: seq<Byte>)
    ensures Reachable(limits, Asked(limits), body)
    ensures Asked(limits).client.pending == [Entry(1, [Chunk(seq(limits.window + 1, _ => 0), true)])]
    ensures Asked(limits).client.conn.outbox == [Headers(1, false)]
  {
    hide Reachable, WellEnded;
    var w, data: seq<Byte> := Start(limits), seq(limits.window + 1, _ => 0);
    StartIsReachable(limits, body);
    ReachesNext(limits, w, Opens(1, false), body);
    var w1 := Next(w, Opens(1, false), body);
    OpenAppends(w.client, w.server, 1, false, 1);
    ReachesNext(limits, w1, Queues(1, Chunk(data, true)), body);
  }

  function Launched(limits: Limits): World {
    Flushed(Asked(limits), true, FlushAll(Asked(limits).client.conn, Asked(limits).client.pending))
  }

  /** Framing the request stops at the window, before the end of the body. */
  lemma AskedStarves(limits: Limits, body: seq<Byte>)
    requires limits.frame > 0
    ensures Starving(limits, Launched(limits), body)
  {
    hide FlushAll, Reachable;
    var w := Asked(limits);
    var x, entries := w.client.conn, w.client.pending;
    var r := FlushAll(x, entries);
    AskedIsReachable(limits, body);
    FlushSchedules(x, entries);
    ReachesNext(limits, w, Flushes(true, r), body);
    FlushIsMaximal(x, entries, r);
    AskedStaysOpen(limits, r);
    assert r.conn.outbox == [Headers(1, false)] + r.frames;
  }

  lemma AskedStaysOpen(limits: Limits, r: FlushResult)
    requires r == FlushAll(Asked(limits).client.conn, Asked(limits).client.pending)
    ensures r.pending != [] && forall f <- r.frames :: f.Data? && !f.end
  {
    var x := Asked(limits).client.conn;
    var data: seq<Byte> := seq(limits.window + 1, _ => 0);
    var q := [Chunk(data, true)];
    AskedIsReachable(limits, []);
    var cut := Cut(1, q, x.Capacity(1), x.limits.frame);
    var rest := FlushAll(x.SendFrames(1, cut.frames), []);
    assert Asked(limits).client.pending[1..] == [];
    assert r.frames == cut.frames + [] && r.pending == Kept(1, cut.left) + [];
    CutConserves(1, q, x.Capacity(1), x.limits.frame, cut);
    CutFrames(1, q, x.Capacity(1), x.limits.frame, cut);
    CutEndsLast(1, q, x.Capacity(1), x.limits.frame, cut);
  }

  /** While one chunk is not sent whole, its END_STREAM is not sent. */
  lemma {:induction false} CutEndsLast(id: StreamId, q: Queue, capacity: nat, limit: nat, r: CutResult)
    requires |q| == 1 && r == Cut(id, q, capacity, limit) && r.left != []
    ensures forall f <- r.frames :: f.Data? && !f.end
    decreases Work(q)
  {
    hide Cut;
    if Blocked(q[0], capacity, limit) {
      CutStops(id, q, capacity, limit);
    } else {
      var size, rest, tail := CutStep(id, q, capacity, limit);
      if rest == [] {
        CutStops(id, rest, capacity - size, limit);
        assert false;
      }
      assert |rest| == 1 && size < |q[0].data|;
      CutEndsLast(id, rest, capacity - size, limit, tail);
    }
  }

  /** Nothing moves any more. */
  ghost predicate Halted(w: World) {
    Stuck(w.client) && Stuck(w.server) && w.client.events == [] && w.server.events == []
  }

  /** The release rule is what keeps the exchange alive: every run that halts has finished exactly when credit has to
      be returned before more than a whole window of it is withheld. */
  lemma DeadlockFreeExactly(limits: Limits, body: seq<Byte>)
    requires limits.frame > 0 && limits.threshold > 0
    ensures limits.threshold <= limits.window
       <==> forall w :: Reachable(limits, w, body) && Halted(w) ==> Quiescent(w)
  {
    hide Inv, Reachable, Starving;
    if limits.threshold <= limits.window {
      forall w | Reachable(limits, w, body) && Halted(w) ensures Quiescent(w) {
        ReachableIsSafe(limits, w, body);
        ReachableKeepsLimits(limits, w, body);
        StuckIsQuiescent(w, body);
      }
    } else {
      AskedStarves(limits, body);
      var w := StarvingHalts(limits, Launched(limits), body);
      StarvingIsUnfinished(limits, w, body);
    }
  }

  lemma StarvingIsUnfinished(limits: Limits, w: World, body: seq<Byte>)
    requires Starving(limits, w, body) && w.client.conn.outbox == [] && w.server.events == []
    ensures Reachable(limits, w, body) && Halted(w) && !Quiescent(w)
  {
  }

  lemma ReachableKeepsLimits(limits: Limits, w: World, body: seq<Byte>)
    requires Reachable(limits, w, body)
    ensures w.client.conn.limits == limits
  {
    var run: seq<World>, steps: seq<Step> :| IsRun(limits, run, steps, body) && run[|steps|] == w;
    RunKeepsLimits(limits, run, steps, body);
  }

  lemma {:induction false} RunKeepsLimits(limits: Limits, run: seq<World>, steps: seq<Step>, body: seq<Byte>)
    requires IsRun(limits, run, steps, body)
    ensures run[|steps|].client.conn.limits == limits
    decreases |steps|
  {
    hide Next, Enabled;
    if steps != [] {
      var n := |steps| - 1;
      RunKeepsLimits(limits, run[..n + 1], steps[..n], body);
      assert run[n + 1] == Next(run[n], steps[n], body);
      NextKeepsLimits(run[n], steps[n], body);
    }
  }

  lemma NextKeepsLimits(w: World, step: Step, body: seq<Byte>)
    requires Enabled(w, step)
    ensures Next(w, step, body).client.conn.limits == w.client.conn.limits
  {
  }
}
