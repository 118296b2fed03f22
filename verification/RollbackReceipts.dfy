/** What a failed application must show before the search may go on: that exactly the
    candidate's own health check failed, that everything was rolled back and verified,
    and that this is still what the dataplane reports. */
module RollbackReceipts {
  import opened Basics
  import opened Traversals

  // A step of the transaction: by the candidate's engine, in the health phase, failed.
  datatype Step = Step(ofEngine: bool, inHealth: bool, failed: bool)

  datatype Execution = Execution(plan: int, digest: int, rolledBack: bool, verified: bool, steps: seq<Step>)

  // A route of the plan: the node it resolves to, whether it is this service's as it
  // was reviewed, and whether the typed cause of the failure names it.
  datatype Route = Route(node: NodeId, reviewed: bool, caused: bool)

  // `definite` says that the error has a typed cause and none that excludes one.
  datatype Failure = Failure(definite: bool, plan: int, digest: int, sameNetwork: bool, execution: Execution,
                             routes: seq<Route>)

  datatype Receipt = Receipt(node: NodeId, failure: Failure, reported: Option<Execution>)

  ghost predicate OnlyHealthFailed(steps: seq<Step>) {
    exists i :: 0 <= i < |steps| && steps[i] == Step(true, true, true) &&
      forall j :: 0 <= j < |steps| && j != i ==> !steps[j].failed
  }

  /** The receipt is accepted for its candidate. */
  ghost predicate Accepted(r: Receipt) {
    && r.failure.definite && r.failure.sameNetwork
    && r.failure.execution.rolledBack && r.failure.execution.verified
    && r.failure.execution.plan == r.failure.plan && r.failure.execution.digest == r.failure.digest
    && r.reported == Some(r.failure.execution)
    && OnlyHealthFailed(r.failure.execution.steps)
    && exists i :: 0 <= i < |r.failure.routes| && r.failure.routes[i] == Route(r.node, true, true)
  }

  method CheckSteps(steps: seq<Step>) returns (ok: bool)
    ensures ok <==> OnlyHealthFailed(steps)
  {
    var failures := 0;
    ghost var last := 0;
    for i := 0 to |steps|
      invariant failures <= 1 <==> forall j, k :: 0 <= j < k < i ==> !steps[j].failed || !steps[k].failed
      invariant failures == 0 ==> forall j :: 0 <= j < i ==> !steps[j].failed
      invariant failures > 0 ==> 0 <= last < i && steps[last] == Step(true, true, true)
      invariant failures >= 0
    {
      if steps[i].failed {
        if !steps[i].ofEngine || !steps[i].inHealth {
          return false;
        }
        failures := failures + 1;
        last := i;
      }
    }
    ok := failures == 1;
    if ok {
      forall j | 0 <= j < |steps| && j != last ensures !steps[j].failed {
        assert j < last || last < j;
      }
    }
  }

  /** Accepted exactly then. */
  method Examine(r: Receipt) returns (ok: bool)
    ensures ok <==> Accepted(r)
  {
    var f := r.failure;
    if !f.definite || !f.execution.rolledBack || !f.execution.verified || f.execution.plan != f.plan ||
      f.execution.digest != f.digest || !f.sameNetwork {
      return false;
    }
    var steps := CheckSteps(f.execution.steps);
    if !steps || r.reported != Some(f.execution) {
      return false;
    }
    for i := 0 to |f.routes|
      invariant forall j :: 0 <= j < i ==> f.routes[j] != Route(r.node, true, true)
    {
      if f.routes[i] == Route(r.node, true, true) {
        return true;
      }
    }
    return false;
  }
}
