/** `check_workloads`: both exchanges are run twice per scenario and compared with what the scenario expects. */
module Workloads {
  import opened Http2
  import opened Exchange
  import opened Liveness
  import opened Requests
  import opened Scenarios
  import opened Transfer
  import H2Exchanges
  import Ngh2Exchanges

  /** A scenario, the frame size both libraries negotiate, and how each of them batches credit. */
  datatype Workload = Workload(scenario: Scenario, frame: nat, ngh2Threshold: nat, h2Threshold: nat) {
    predicate Good() {
      && GoodLimits(Limits(scenario.InitialWindow(), frame, ngh2Threshold))
      && GoodLimits(Limits(scenario.InitialWindow(), frame, h2Threshold))
    }
  }

  /** Two iterations of one implementation; the check stops at the first result that is not the expected one. */
  method CheckNgh2(w: Workload) returns (ok: bool, results: seq<seq<nat>>)
    requires w.Good()
    ensures ok <==> w.scenario.parallel >= 0
    ensures forall r <- results :: Reports(w.scenario, r)
    ensures |results| == if ok then 2 else 1
  {
    hide Quiescent, GoodLimits, Reports, Transferred, Ngh2Exchanges.Ngh2Exchange.Valid, Exchanged, Inv;
    ok, results := true, [];
    var workload := new Ngh2Exchanges.Ngh2Exchange(w.scenario, w.frame, w.ngh2Threshold);
    for i := 0 to 2
      invariant fresh(workload) && fresh(workload.client) && fresh(workload.server)
      invariant workload.scenario == w.scenario && workload.Valid() && Quiescent(workload.View())
      invariant |results| == i && forall r <- results :: Reports(w.scenario, r)
      invariant i > 0 ==> w.scenario.parallel >= 0
    {
      var result := workload.Call();
      results := results + [result];
      if result != w.scenario.Expected() {
        return false, results;
      }
    }
  }

  method CheckH2(w: Workload) returns (ok: bool, results: seq<seq<nat>>)
    requires w.Good()
    ensures ok <==> w.scenario.parallel >= 0
    ensures forall r <- results :: Reports(w.scenario, r)
    ensures |results| == if ok then 2 else 1
  {
    hide Quiescent, GoodLimits, Reports, Transferred, Exchanged, Inv;
    ok, results := true, [];
    var workload := new H2Exchanges.H2Exchange(w.scenario, w.frame, w.h2Threshold);
    for i := 0 to 2
      invariant fresh(workload) && fresh(workload.client) && fresh(workload.server)
      invariant workload.scenario == w.scenario && workload.Valid() && Quiescent(workload.View())
      invariant |results| == i && forall r <- results :: Reports(w.scenario, r)
      invariant i > 0 ==> w.scenario.parallel >= 0
    {
      var result := workload.Call();
      results := results + [result];
      if result != w.scenario.Expected() {
        return false, results;
      }
    }
  }

  /** Both libraries report the same totals for a scenario, twice each, and they are the expected ones
      exactly when the scenario asks for no negative number of requests. */
  method CheckWorkload(w: Workload) returns (ok: bool, results: seq<seq<nat>>)
    requires w.Good()
    ensures ok <==> w.scenario.parallel >= 0
    ensures forall r <- results :: Reports(w.scenario, r)
    ensures |results| == if ok then 4 else 1
  {
    ok, results := CheckNgh2(w);
    if ok {
      var more;
      ok, more := CheckH2(w);
      results := results + more;
    }
  }

  /** The whole check passes exactly when no scenario asks for a negative number of requests. */
  method CheckWorkloads(workloads: seq<Workload>) returns (ok: bool)
    requires forall w <- workloads :: w.Good()
    ensures ok <==> forall w <- workloads :: w.scenario.parallel >= 0
  {
    for i := 0 to |workloads|
      invariant forall w <- workloads[..i] :: w.scenario.parallel >= 0
    {
      var passed, _ := CheckWorkload(workloads[i]);
      if !passed {
        return false;
      }
    }
    return true;
  }
}
