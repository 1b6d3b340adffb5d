/**
 The eager schema loader: up to four workers that take the next namespace index from a shared counter,
 load it and write the result into its slot, in whatever order the loads come back.
 */
module SchemaLoader {
  import opened Prelude

  const MAX_WORKERS := 4

  type Worker = nat

  /** A namespace is not loaded yet, or its load gave a namespace or an error. */
  datatype Slot = Unloaded | Loaded(objects: string) | Failed(message: string)

  /** `started` and `finished` remember the loads begun and ended, in order. */
  datatype State = State(
    next: nat,
    busy: map<Worker, nat>,
    stopped: set<Worker>,
    slots: seq<Slot>,
    started: seq<nat>,
    finished: map<nat, Slot>)

  function Workers(n: nat): nat
  {
    if n < MAX_WORKERS then n else MAX_WORKERS
  }

  function Start(n: nat): State
  {
    State(0, map[], {}, seq(n, _ => Unloaded), [], map[])
  }

  datatype Step = Takes(w: Worker) | Finishes(w: Worker, result: Slot)

  predicate Enabled(s: State, step: Step)
  {
    match step
    case Takes(w) => w < Workers(|s.slots|) && w !in s.busy && w !in s.stopped
    case Finishes(w, result) => w in s.busy && !result.Unloaded?
  }

  function Apply(s: State, step: Step): State
  {
    match step
    case Takes(w) =>
      if s.next < |s.slots| then s.(next := s.next + 1, busy := s.busy[w := s.next], started := s.started + [s.next])
      else s.(stopped := s.stopped + {w})
    case Finishes(w, result) =>
      if w in s.busy && s.busy[w] < |s.slots| then
        s.(busy := s.busy - {w}, slots := s.slots[s.busy[w] := result], finished := s.finished[s.busy[w] := result])
      else s
  }

  ghost predicate IsRun(s: State, steps: seq<Step>)
    decreases |steps|
  {
    steps == [] || (Enabled(s, steps[0]) && IsRun(Apply(s, steps[0]), steps[1..]))
  }

  function After(s: State, steps: seq<Step>): State
    decreases |steps|
  {
    if steps == [] then s else After(Apply(s, steps[0]), steps[1..])
  }

  /** Loads are started in the order of the indices. */
  ghost predicate Counted(s: State, n: nat)
  {
    && |s.slots| == n && s.next <= n
    && s.started == seq(s.next, i => i)
    && (s.stopped != {} ==> s.next == n)
  }

  /** Every index started is with exactly one worker or finished. */
  ghost predicate Working(s: State, n: nat)
  {
    && (forall w | w in s.busy :: s.busy[w] < s.next && s.busy[w] !in s.finished && w !in s.stopped && w < Workers(n))
    && (forall w, v | w in s.busy && v in s.busy && w != v :: s.busy[w] != s.busy[v])
    && (forall i | 0 <= i < s.next && i !in s.finished :: WithWorker(s, i))
    && (forall i | i in s.finished :: i < s.next)
  }

  ghost predicate WithWorker(s: State, i: nat)
  {
    exists w | w in s.busy :: s.busy[w] == i
  }

  /** A slot holds what its load gave. */
  ghost predicate Filled(s: State)
  {
    forall i | 0 <= i < |s.slots| :: if i in s.finished then s.slots[i] == s.finished[i] && !s.slots[i].Unloaded? else s.slots[i].Unloaded?
  }

  ghost predicate Inv(s: State, n: nat)
  {
    Counted(s, n) && Working(s, n) && Filled(s)
  }

  lemma TakeKeepsInv(s: State, w: Worker, n: nat)
    requires Inv(s, n) && Enabled(s, Takes(w))
    ensures Inv(Apply(s, Takes(w)), n)
  {
    var s1 := Apply(s, Takes(w));
    if s.next < n {
      assert seq(s.next + 1, i => i) == seq(s.next, i => i) + [s.next];
      TakeKeepsWorking(s, w, n);
      hide Working;
    }
  }

  lemma TakeKeepsWorking(s: State, w: Worker, n: nat)
    requires Working(s, n) && |s.slots| == n && s.next < n && Enabled(s, Takes(w))
    ensures Working(Apply(s, Takes(w)), n)
  {
    var s1 := Apply(s, Takes(w));
    assert s1.busy == s.busy[w := s.next] && s1.next == s.next + 1 && s1.finished == s.finished && s1.stopped == s.stopped;
    hide Apply;
    forall i | 0 <= i < s1.next && i !in s1.finished
      ensures WithWorker(s1, i)
    {
      if i == s.next {
        assert w in s1.busy && s1.busy[w] == i;
      } else {
        assert WithWorker(s, i);
        var v :| v in s.busy && s.busy[v] == i;
        assert v in s1.busy && s1.busy[v] == i;
      }
    }
    hide WithWorker;
  }

  lemma FinishKeepsInv(s: State, w: Worker, result: Slot, n: nat)
    requires Inv(s, n) && Enabled(s, Finishes(w, result))
    ensures Inv(Apply(s, Finishes(w, result)), n)
  {
    assert s.busy[w] < s.next;
    FinishKeepsWorking(s, w, result, n);
    hide Working;
  }

  lemma FinishKeepsWorking(s: State, w: Worker, result: Slot, n: nat)
    requires Working(s, n) && |s.slots| == n && s.next <= n && Enabled(s, Finishes(w, result))
    ensures Working(Apply(s, Finishes(w, result)), n)
  {
    var s1 := Apply(s, Finishes(w, result));
    forall i | 0 <= i < s1.next && i !in s1.finished
      ensures WithWorker(s1, i)
    {
      assert WithWorker(s, i);
      var v :| v in s.busy && s.busy[v] == i;
      assert v in s1.busy && s1.busy[v] == i;
    }
  }

  lemma {:induction false} RunKeepsInv(s: State, steps: seq<Step>, n: nat)
    requires Inv(s, n) && IsRun(s, steps)
    ensures Inv(After(s, steps), n)
    decreases |steps|
  {
    hide Inv, Apply, Enabled;
    if steps != [] {
      match steps[0] {
        case Takes(w) => TakeKeepsInv(s, w, n);
        case Finishes(w, result) => FinishKeepsInv(s, w, result, n);
      }
      RunKeepsInv(Apply(s, steps[0]), steps[1..], n);
    }
  }

  /** When all workers have stopped, each namespace was started exactly once, in order, and its slot holds what its load gave. */
  lemma EveryNamespaceIsLoadedOnce(n: nat, steps: seq<Step>)
    requires IsRun(Start(n), steps)
    requires forall w | 0 <= w < Workers(n) :: w in After(Start(n), steps).stopped
    ensures var s := After(Start(n), steps);
            && s.started == seq(n, i => i)
            && |s.slots| == n
            && forall i | 0 <= i < n :: i in s.finished && !s.slots[i].Unloaded? && s.slots[i] == s.finished[i]
  {
    RunKeepsInv(Start(n), steps, n);
    var s := After(Start(n), steps);
    hide IsRun, After;
    if n > 0 {
      assert 0 in s.stopped;
    }
    forall i | 0 <= i < n
      ensures i in s.finished
    {
      assert WithWorker(s, i) ==> exists w | w in s.busy :: w !in s.stopped && w < Workers(n);
    }
  }

  /** At no moment are more than four loads under way, nor the same index twice. */
  lemma AtMostFourLoads(n: nat, steps: seq<Step>)
    requires IsRun(Start(n), steps)
    ensures |After(Start(n), steps).busy| <= MAX_WORKERS
    ensures forall w, v | w in After(Start(n), steps).busy && v in After(Start(n), steps).busy && w != v ::
              After(Start(n), steps).busy[w] != After(Start(n), steps).busy[v]
  {
    RunKeepsInv(Start(n), steps, n);
    var s := After(Start(n), steps);
    hide IsRun, After, Counted, Filled;
    FewKeys(s.busy);
  }

  lemma FewKeys(busy: map<Worker, nat>)
    requires forall w | w in busy :: w < MAX_WORKERS
    ensures |busy| <= MAX_WORKERS
  {
    var all := {0, 1, 2, 3};
    assert busy.Keys <= all;
    assert all == busy.Keys + (all - busy.Keys);
    assert |busy| == |busy.Keys|;
  }
}
