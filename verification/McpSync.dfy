/**
 The queue that pushes snapshots of the target registry to the backend: each waits for the one before
 it, also when that failed.  The backend replaces its registry when a push succeeds.
 */
module McpSync {
  import opened Prelude

  type Snapshot = string

  /** `outcomes` are those of the pushes that ended, in order; `registry` is what the backend has. */
  datatype State = State(asked: seq<Snapshot>, outcomes: seq<bool>, pushing: bool, registry: Option<Snapshot>)

  const IDLE := State([], [], false, None)

  datatype Step = Asks(snapshot: Snapshot) | Begins | Ends(ok: bool)

  predicate Enabled(s: State, step: Step)
  {
    match step
    case Asks(_) => true
    case Begins => !s.pushing && |s.outcomes| < |s.asked|
    case Ends(_) => s.pushing && |s.outcomes| < |s.asked|
  }

  function Apply(s: State, step: Step): State
    requires Enabled(s, step)
  {
    match step
    case Asks(snapshot) => s.(asked := s.asked + [snapshot])
    case Begins => s.(pushing := true)
    case Ends(ok) =>
      s.(pushing := false, outcomes := s.outcomes + [ok], registry := if ok then Some(s.asked[|s.outcomes|]) else s.registry)
  }

  ghost predicate IsRun(s: State, steps: seq<Step>)
    decreases |steps|
  {
    steps == [] || (Enabled(s, steps[0]) && IsRun(Apply(s, steps[0]), steps[1..]))
  }

  function After(s: State, steps: seq<Step>): State
    requires IsRun(s, steps)
    decreases |steps|
  {
    if steps == [] then s else After(Apply(s, steps[0]), steps[1..])
  }

  /** The number of the latest push that succeeded. */
  function Latest(outcomes: seq<bool>): Option<nat>
  {
    if outcomes == [] then None
    else if outcomes[|outcomes| - 1] then Some(|outcomes| - 1)
    else Latest(outcomes[..|outcomes| - 1])
  }

  lemma LatestIsSuccessful(outcomes: seq<bool>)
    ensures match Latest(outcomes)
            case None => forall k | 0 <= k < |outcomes| :: !outcomes[k]
            case Some(n) => n < |outcomes| && outcomes[n] && forall k | n < k < |outcomes| :: !outcomes[k]
  {
  }

  ghost predicate Inv(s: State)
  {
    && |s.outcomes| <= |s.asked|
    && (s.pushing ==> |s.outcomes| < |s.asked|)
    && (match Latest(s.outcomes)
        case None => s.registry == None
        case Some(n) => n < |s.asked| && s.registry == Some(s.asked[n]))
  }

  lemma StepKeepsInv(s: State, step: Step)
    requires Inv(s) && Enabled(s, step)
    ensures Inv(Apply(s, step))
  {
    LatestIsSuccessful(s.outcomes);
    if step.Ends? {
      assert (s.outcomes + [step.ok])[..|s.outcomes|] == s.outcomes;
    }
  }

  lemma {:induction false} RunKeepsInv(s: State, steps: seq<Step>)
    requires Inv(s) && IsRun(s, steps)
    ensures Inv(After(s, steps))
    decreases |steps|
  {
    hide Inv, Apply, Enabled;
    if steps != [] {
      StepKeepsInv(s, steps[0]);
      RunKeepsInv(Apply(s, steps[0]), steps[1..]);
    }
  }

  /**
   An older snapshot never finishes last: the registry is the newest of the snapshots whose push
   succeeded, and once all have ended, the newest asked for unless its own push failed.
   */
  lemma NewestSnapshotWins(steps: seq<Step>)
    requires IsRun(IDLE, steps)
    ensures var s := After(IDLE, steps);
            && |s.outcomes| <= |s.asked|
            && (forall k | 0 <= k < |s.outcomes| && s.outcomes[k] && (forall j | k < j < |s.outcomes| :: !s.outcomes[j]) ::
                  s.registry == Some(s.asked[k]))
            && (s.asked != [] && |s.outcomes| == |s.asked| && s.outcomes[|s.outcomes| - 1] ==>
                  s.registry == Some(s.asked[|s.asked| - 1]))
  {
    RunKeepsInv(IDLE, steps);
    LatestIsSuccessful(After(IDLE, steps).outcomes);
  }
}
