/**
 The Agent's local workspace: a scope with an epoch, a stored path, and one serial queue through which
 the backend's grant is configured, restored and revoked.

 A job that calls the backend is begun in one step and replied to in another; anything may be asked
 in between.  The backend's grant changes when it replies.
 */
module AgentWorkspace {
  import opened Prelude

  type Owner = string
  type Path = string
  type Epoch = nat

  datatype Work =
    | Revoke
    | Save(value: Option<Path>)       // trimmed; `None` when nothing is left
    | Prepare

  /** What was captured when the job was asked for. */
  datatype Job = Job(id: nat, owner: Option<Owner>, epoch: Epoch, work: Work)

  /** The call the running job is waiting for. */
  datatype Running =
    | Idle
    | Revoking(job: Job)
    | Saving(job: Job, previous: Path)
    | Restoring(job: Job, previous: Path, before: Option<Path>)    // `before`: granted when the save began
    | Preparing(job: Job)

  datatype Answer = Done | Given(path: Option<Path>) | Locked | NotPersisted | BackendFailed

  datatype Settled = Settled(id: nat, answer: Answer)

  /** A grant in force, with the epoch of the job that made it. */
  datatype Grant = Grant(path: Path, madeIn: Epoch)

  datatype State = State(
    scope: Option<Owner>,
    path: Path,
    activePath: Option<Path>,
    epoch: Epoch,
    queue: seq<Job>,
    running: Running,
    nextJob: nat,
    settled: seq<Settled>,
    storage: map<Owner, Path>,
    backend: Option<Grant>,
    revoked: Epoch)                  // of the last revocation that succeeded

  function Initial(scope: Option<Owner>, storage: map<Owner, Path>): State
  {
    State(scope, ReadPath(scope, storage), None, 0, [], Idle, 0, [], storage, None, 0)
  }

  /** No owner, or an empty one, counts as none. */
  predicate NoOwner(scope: Option<Owner>)
  {
    scope.None? || scope.value == ""
  }

  function ReadPath(scope: Option<Owner>, storage: map<Owner, Path>): Path
  {
    if NoOwner(scope) || scope.value !in storage then "" else storage[scope.value]
  }

  function Enqueue(s: State, owner: Option<Owner>, work: Work): State
  {
    s.(queue := s.queue + [Job(s.nextJob, owner, s.epoch, work)], nextJob := s.nextJob + 1)
  }

  /** `setAgentWorkspaceScope` */
  function SetScope(s: State, owner: Option<Owner>, reset: bool): State
  {
    if s.scope == owner && !reset then s
    else Enqueue(s.(scope := owner, epoch := s.epoch + 1, activePath := None, path := ReadPath(owner, s.storage)), None, Revoke)
  }

  function AskSave(s: State, value: Option<Path>): State
  {
    if NoOwner(s.scope) then s else Enqueue(s, s.scope, Save(value))
  }

  function AskPrepare(s: State): State
  {
    Enqueue(s, s.scope, Prepare)
  }

  predicate Outdated(s: State, j: Job)
  {
    s.scope != j.owner || s.epoch != j.epoch
  }

  function Answered(s: State, j: Job, a: Answer): State
  {
    s.(running := Idle, settled := s.settled + [Settled(j.id, a)])
  }

  /** The next job begins: up to its first call of the backend, or to its end. */
  function Begin(s: State): State
  {
    if s.queue == [] || !s.running.Idle? then s
    else
      var j := s.queue[0];
      var s1 := s.(queue := s.queue[1..]);
      match j.work
      case Revoke => s1.(running := Revoking(j))
      case Save(_) => if Outdated(s, j) then Answered(s1, j, Locked) else s1.(running := Saving(j, s.path))
      case Prepare =>
        if NoOwner(j.owner) || Outdated(s, j) then Answered(s1, j, Locked)
        else if s.path == "" then Answered(s1, j, Given(None))
        else if s.activePath != Some(s.path) then s1.(running := Preparing(j))
        else Answered(s1, j, Given(s.activePath))
  }

  /** The backend's reply: what the path became, or a failure that changes nothing. */
  datatype Reply = Configured(path: Option<Path>) | Refused

  function Granted(path: Option<Path>, epoch: Epoch): Option<Grant>
  {
    if path.None? then None else Some(Grant(path.value, epoch))
  }

  function PathOf(backend: Option<Grant>): Option<Path>
  {
    if backend.None? then None else Some(backend.value.path)
  }

  function Store(storage: map<Owner, Path>, owner: Owner, path: Option<Path>): map<Owner, Path>
  {
    if path.Some? && path.value != "" then storage[owner := path.value] else storage - {owner}
  }

  /** `persists` tells whether the browser's storage takes the path. */
  function OnReply(s: State, reply: Reply, persists: bool): State
  {
    match s.running
    case Idle => s
    case Revoking(j) =>
      if reply.Refused? then Answered(s, j, BackendFailed)
      else Answered(s.(backend := Granted(reply.path, j.epoch), revoked := j.epoch), j, Done)
    case Saving(j, previous) =>
      if reply.Refused? then Answered(s, j, BackendFailed)
      else
        var s1 := s.(backend := Granted(reply.path, j.epoch));
        if Outdated(s, j) || j.owner.None? then Answered(s1, j, Locked)
        else if !persists then s1.(running := Restoring(j, previous, PathOf(s.backend)))
        else Answered(s1.(storage := Store(s.storage, j.owner.value, reply.path),
                          path := if reply.path.Some? then reply.path.value else "",
                          activePath := reply.path), j, Done)
    case Restoring(j, _, _) =>
      if reply.Refused? then Answered(s, j, BackendFailed)
      else Answered(s.(backend := Granted(reply.path, j.epoch)), j, NotPersisted)
    case Preparing(j) =>
      if reply.Refused? then Answered(s, j, BackendFailed)
      else
        var s1 := s.(backend := Granted(reply.path, j.epoch), activePath := reply.path);
        Answered(s1, j, if Outdated(s, j) then Locked else Given(reply.path))
  }

  datatype Step =
    | Scopes(owner: Option<Owner>, reset: bool)
    | Saves(value: Option<Path>)
    | Prepares
    | Begins
    | Replies(reply: Reply, persists: bool)

  /** Configuring nothing gives nothing. */
  predicate Enabled(s: State, step: Step)
  {
    match step
    case Begins => s.running.Idle? && s.queue != []
    case Replies(reply, _) => !s.running.Idle? && (s.running.Revoking? && reply.Configured? ==> reply.path == None)
    case _ => true
  }

  function Apply(s: State, step: Step): State
  {
    match step
    case Scopes(owner, reset) => SetScope(s, owner, reset)
    case Saves(value) => AskSave(s, value)
    case Prepares => AskPrepare(s)
    case Begins => Begin(s)
    case Replies(reply, persists) => OnReply(s, reply, persists)
  }

  ghost predicate IsRun(s: State, steps: seq<Step>)
    decreases |steps|
  {
    steps == [] || (Enabled(s, steps[0]) && IsRun(Apply(s, steps[0]), steps[1..]))
  }

  function After(s: State, steps: seq<Step>): State
    decreases |steps|
  {
    if steps == [] then s else After(Apply(s, steps[0]), steps[1..])
  }

  // ---- One after the other ----

  /** The running job, if any, followed by the queue. */
  function Open(s: State): seq<Job>
  {
    (if s.running.Idle? then [] else [s.running.job]) + s.queue
  }

  /** Jobs are numbered as they were asked for; those settled come before those open, whose epochs never fall. */
  ghost predicate InOrder(settled: seq<Settled>, open: seq<Job>, nextJob: nat, epoch: Epoch)
  {
    && |settled| + |open| == nextJob
    && (forall k | 0 <= k < |settled| :: settled[k].id == k)
    && (forall k | 0 <= k < |open| :: open[k].id == |settled| + k)
    && (forall j, k | 0 <= j <= k < |open| :: open[j].epoch <= open[k].epoch <= epoch)
  }

  ghost predicate Serial(s: State)
  {
    InOrder(s.settled, Open(s), s.nextJob, s.epoch)
  }

  /** The grant in force was made no earlier than the last revocation, and so will any that an open job makes. */
  ghost predicate NotBefore(revoked: Epoch, backend: Option<Grant>, open: seq<Job>, epoch: Epoch)
  {
    && (backend.Some? ==> revoked <= backend.value.madeIn <= epoch)
    && (forall k | 0 <= k < |open| :: open[k].epoch >= revoked)
    && revoked <= epoch
  }

  ghost predicate GrantsAreNew(s: State)
  {
    NotBefore(s.revoked, s.backend, Open(s), s.epoch)
  }

  ghost predicate Inv(s: State)
  {
    Serial(s) && GrantsAreNew(s)
  }

  lemma SettleFirst(settled: seq<Settled>, j: Job, rest: seq<Job>, nextJob: nat, epoch: Epoch, a: Answer)
    requires InOrder(settled, [j] + rest, nextJob, epoch)
    ensures InOrder(settled + [Settled(j.id, a)], rest, nextJob, epoch)
    ensures forall k | 0 <= k < |rest| :: rest[k].epoch >= j.epoch
    ensures j.epoch <= epoch
  {
    var open := [j] + rest;
    assert open[0] == j;
    assert forall k | 0 <= k < |rest| :: rest[k] == open[k + 1];
  }

  /** The last of the open jobs may be gone, and a later revocation may be the last one. */
  lemma NotBeforeRest(revoked: Epoch, later: Epoch, backend: Option<Grant>, grant: Option<Grant>, j: Job, rest: seq<Job>, epoch: Epoch)
    requires NotBefore(revoked, backend, [j] + rest, epoch)
    requires grant == backend || grant.None? || grant.value.madeIn == j.epoch
    requires j.epoch <= epoch
    requires later == revoked || (later == j.epoch && grant.None? && j.epoch <= epoch && forall k | 0 <= k < |rest| :: rest[k].epoch >= j.epoch)
    ensures NotBefore(later, grant, rest, epoch)
    ensures later == revoked ==> NotBefore(later, grant, [j] + rest, epoch)
  {
    var open := [j] + rest;
    assert open[0] == j;
    assert forall k | 0 <= k < |rest| :: rest[k] == open[k + 1];
  }

  lemma EnqueueKeepsInv(s: State, owner: Option<Owner>, work: Work)
    requires Inv(s)
    ensures Inv(Enqueue(s, owner, work))
  {
    var s1 := Enqueue(s, owner, work);
    assert Open(s1) == Open(s) + [Job(s.nextJob, owner, s.epoch, work)];
  }

  lemma StepKeepsInv(s: State, step: Step)
    requires Inv(s) && Enabled(s, step)
    ensures Inv(Apply(s, step))
  {
    match step
    case Scopes(owner, reset) =>
      if !(s.scope == owner && !reset) {
        var s1 := s.(scope := owner, epoch := s.epoch + 1, activePath := None, path := ReadPath(owner, s.storage));
        assert Open(s1) == Open(s);
        EnqueueKeepsInv(s1, None, Revoke);
      }
    case Saves(value) => EnqueueKeepsInv(s, s.scope, Save(value));
    case Prepares => EnqueueKeepsInv(s, s.scope, Prepare);
    case Begins => BeginKeepsInv(s);
    case Replies(reply, persists) => ReplyKeepsInv(s, reply, persists);
  }

  /** A job leaves the front of the queue: it is running now, or settled. */
  lemma BeginEffect(s: State)
    requires s.running.Idle? && s.queue != []
    ensures var s1, j := Begin(s), s.queue[0];
            && s1.queue == s.queue[1..] && s1.nextJob == s.nextJob && s1.epoch == s.epoch
            && s1.backend == s.backend && s1.revoked == s.revoked && s1.storage == s.storage
            && (if s1.running.Idle? then exists a :: s1.settled == s.settled + [Settled(j.id, a)]
                else s1.running.job == j && s1.settled == s.settled)
  {
    hide ReadPath, Store;
    var s1, j := Begin(s), s.queue[0];
    if s1.running.Idle? {
      var a := if j.work.Save? || NoOwner(j.owner) || Outdated(s, j) then Locked else if s.path == "" then Given(None) else Given(s.activePath);
      assert s1.settled == s.settled + [Settled(j.id, a)];
    }
  }

  lemma BeginKeepsInv(s: State)
    requires Inv(s) && s.running.Idle? && s.queue != []
    ensures Inv(Begin(s))
  {
    hide Begin, InOrder, NotBefore;
    BeginEffect(s);
    var s1, j := Begin(s), s.queue[0];
    assert Open(s) == s.queue == [j] + s.queue[1..];
    OpenEpoch(s, j, s.queue[1..]);
    NotBeforeRest(s.revoked, s.revoked, s.backend, s.backend, j, s.queue[1..], s.epoch);
    if s1.running.Idle? {
      var a :| s1.settled == s.settled + [Settled(j.id, a)];
      assert Open(s1) == s.queue[1..];
      SettleFirst(s.settled, j, s.queue[1..], s.nextJob, s.epoch, a);
    } else {
      assert Open(s1) == s.queue;
    }
  }

  lemma OpenEpoch(s: State, j: Job, rest: seq<Job>)
    requires Inv(s) && Open(s) == [j] + rest
    ensures j.epoch <= s.epoch
  {
    assert Open(s)[0] == j;
  }

  /** What a reply may do: settle the job or go on to the restoring call. */
  lemma ReplyEffect(s: State, reply: Reply, persists: bool)
    requires Enabled(s, Replies(reply, persists))
    ensures var s1, j := OnReply(s, reply, persists), s.running.job;
            && s1.queue == s.queue && s1.nextJob == s.nextJob && s1.epoch == s.epoch
            && (s1.backend == s.backend || s1.backend.None? || s1.backend.value.madeIn == j.epoch)
            && (s1.revoked == s.revoked || (s1.revoked == j.epoch && s1.backend.None? && s1.running.Idle?))
            && (if s1.running.Idle? then exists a :: s1.settled == s.settled + [Settled(j.id, a)]
                else s1.running.job == j && s1.settled == s.settled)
  {
    hide Store;
    var s1, j := OnReply(s, reply, persists), s.running.job;
    if s1.running.Idle? {
      var a := s1.settled[|s.settled|].answer;
      assert s1.settled == s.settled + [Settled(j.id, a)];
    }
  }

  lemma ReplyKeepsInv(s: State, reply: Reply, persists: bool)
    requires Inv(s) && Enabled(s, Replies(reply, persists))
    ensures Inv(OnReply(s, reply, persists))
  {
    ReplyEffect(s, reply, persists);
    hide OnReply, InOrder, NotBefore;
    var s1, j := OnReply(s, reply, persists), s.running.job;
    assert Open(s) == [j] + s.queue;
    OpenEpoch(s, j, s.queue);
    if s1.running.Idle? {
      var a :| s1.settled == s.settled + [Settled(j.id, a)];
      assert Open(s1) == s.queue;
      SettleFirst(s.settled, j, s.queue, s.nextJob, s.epoch, a);
      NotBeforeRest(s.revoked, s1.revoked, s.backend, s1.backend, j, s.queue, s.epoch);
    } else {
      assert Open(s1) == [j] + s.queue;
      NotBeforeRest(s.revoked, s1.revoked, s.backend, s1.backend, j, s.queue, s.epoch);
    }
  }

  lemma {:induction false} RunKeepsInv(s: State, steps: seq<Step>)
    requires Inv(s) && IsRun(s, steps)
    ensures Inv(After(s, steps))
    decreases |steps|
  {
    hide Inv, Apply, Enabled;
    if steps != [] {
      StepKeepsInv(s, steps[0]);
      RunKeepsInv(Apply(s, steps[0]), steps[1..]);
    }
  }

  lemma InitialInv(scope: Option<Owner>, storage: map<Owner, Path>)
    ensures Inv(Initial(scope, storage))
  {
  }

  /** The serial queue settles the jobs in the order they were asked for, each once and one at a time. */
  lemma JobsSettleInOrder(scope: Option<Owner>, storage: map<Owner, Path>, steps: seq<Step>)
    requires IsRun(Initial(scope, storage), steps)
    ensures var s := After(Initial(scope, storage), steps);
            && (forall k | 0 <= k < |s.settled| :: s.settled[k].id == k)
            && (forall k | 0 <= k < |Open(s)| :: Open(s)[k].id == |s.settled| + k)
            && |s.settled| + |Open(s)| == s.nextJob
  {
    InitialInv(scope, storage);
    RunKeepsInv(Initial(scope, storage), steps);
  }

  /**
   In every interleaving, the grant in force was made by a job asked for no earlier than the scope change
   of the last successful revocation; once that is the latest one, by a job of the present epoch.
   */
  lemma NoGrantOutlivesItsRevocation(scope: Option<Owner>, storage: map<Owner, Path>, steps: seq<Step>)
    requires IsRun(Initial(scope, storage), steps)
    ensures var s := After(Initial(scope, storage), steps);
            && (s.backend.Some? ==> s.backend.value.madeIn >= s.revoked)
            && (s.backend.Some? && s.revoked == s.epoch ==> s.backend.value.madeIn == s.epoch)
            && (forall k | 0 <= k < |Open(s)| :: Open(s)[k].epoch >= s.revoked)
  {
    InitialInv(scope, storage);
    RunKeepsInv(Initial(scope, storage), steps);
  }

  /** The path is the stored one, and neither the running save nor a queued one is without an owner. */
  ghost predicate PathIsStored(s: State)
  {
    && s.path == ReadPath(s.scope, s.storage)
    && (s.running.Saving? ==> !NoOwner(s.running.job.owner))
    && (forall k | 0 <= k < |s.queue| && s.queue[k].work.Save? :: !NoOwner(s.queue[k].owner))
  }

  lemma StepKeepsPath(s: State, step: Step)
    requires PathIsStored(s) && SaveIsNew(s) && !OwnerlessSave(s) && Enabled(s, step)
    ensures PathIsStored(Apply(s, step))
  {
    if step.Replies? {
      ReplyKeepsPath(s, step.reply, step.persists);
    } else {
      hide ReadPath, SaveIsNew, OwnerlessSave;
    }
  }

  lemma ReplyKeepsPath(s: State, reply: Reply, persists: bool)
    requires PathIsStored(s) && SaveIsNew(s) && Enabled(s, Replies(reply, persists))
    ensures PathIsStored(OnReply(s, reply, persists))
  {
    ReplyEffect(s, reply, persists);
    if s.running.Saving? && reply.Configured? && persists && !Outdated(s, s.running.job) {
      StoredIsRead(s.running.job.owner, s.storage, reply.path);
    }
    hide ReadPath, Store;
  }

  lemma StoredIsRead(owner: Option<Owner>, storage: map<Owner, Path>, path: Option<Path>)
    requires !NoOwner(owner)
    ensures ReadPath(owner, Store(storage, owner.value, path)) == if path.Some? then path.value else ""
  {
  }

  /** The path shown is always the one stored for the present scope. */
  lemma {:induction false} PathIsTheStoredOne(s: State, steps: seq<Step>)
    requires IsRun(s, steps) && PathIsStored(s) && SaveIsNew(s) && !OwnerlessSave(s)
    ensures After(s, steps).path == ReadPath(After(s, steps).scope, After(s, steps).storage)
    decreases |steps|
  {
    hide Apply, Enabled, ReadPath, OwnerlessSave, SaveIsNew;
    if steps != [] {
      hide PathIsStored;
      StepKeepsPath(s, steps[0]);
      SavesStayNew(s, steps[0]);
      SavesHaveOwners(s, steps[0]);
      PathIsTheStoredOne(Apply(s, steps[0]), steps[1..]);
    }
  }

  // ---- Jobs of an older epoch ----

  /** A job of an older epoch is waiting or has been turned away; it is not running. */
  ghost predicate TurnedAway(s: State, j: Job)
  {
    && j.epoch < s.epoch
    && (j in s.queue || Settled(j.id, Locked) in s.settled)
    && (s.running.Idle? || s.running.job != j)
  }

  lemma WaitingIsNotRunning(s: State, j: Job)
    requires Inv(s) && j in s.queue && !s.running.Idle?
    ensures s.running.job != j
  {
    var k :| 0 <= k < |s.queue| && s.queue[k] == j;
    assert Open(s)[0] == s.running.job && Open(s)[k + 1] == j;
  }

  lemma SettledIsNotOpen(s: State, j: Job, a: Answer)
    requires Inv(s) && Settled(j.id, a) in s.settled
    ensures j !in s.queue
  {
    var m :| 0 <= m < |s.settled| && s.settled[m] == Settled(j.id, a);
    assert j.id < |s.settled|;
    forall k | 0 <= k < |s.queue|
      ensures s.queue[k] != j
    {
      assert Open(s)[|Open(s)| - |s.queue| + k] == s.queue[k];
    }
  }

  lemma StepTurnsAway(s: State, step: Step, j: Job)
    requires Inv(s) && Enabled(s, step) && TurnedAway(s, j) && !j.work.Revoke?
    ensures TurnedAway(Apply(s, step), j)
  {
    match step
    case Begins =>
      if j in s.queue {
        assert s.queue == [s.queue[0]] + s.queue[1..];
        if s.queue[0] == j {
          assert Begin(s).settled == s.settled + [Settled(j.id, Locked)];
        }
      } else {
        SettledIsNotOpen(s, j, Locked);
        BeginEffect(s);
        assert s.queue[0] in s.queue;
        hide Begin;
      }
    case Replies(reply, persists) => ReplyEffect(s, reply, persists); hide OnReply;
    case _ =>
  }

  /** Whoever was asked for before a scope change and has not begun is refused without ever calling the backend. */
  lemma {:induction false} OlderJobsAreTurnedAway(s: State, steps: seq<Step>, j: Job)
    requires Inv(s) && IsRun(s, steps) && TurnedAway(s, j) && !j.work.Revoke?
    ensures TurnedAway(After(s, steps), j)
    ensures After(s, steps).queue == [] ==> Settled(j.id, Locked) in After(s, steps).settled
    decreases |steps|
  {
    hide Inv, Apply, Enabled, TurnedAway;
    if steps == [] {
      WaitingOrTurnedAway(s, j);
    } else {
      StepKeepsInv(s, steps[0]);
      StepTurnsAway(s, steps[0], j);
      OlderJobsAreTurnedAway(Apply(s, steps[0]), steps[1..], j);
    }
  }

  lemma WaitingOrTurnedAway(s: State, j: Job)
    requires TurnedAway(s, j)
    ensures s.queue == [] ==> Settled(j.id, Locked) in s.settled
  {
  }

  /** At a scope change every waiting save and prepare becomes such a job. */
  lemma ScopeChangeTurnsAway(s: State, owner: Option<Owner>, reset: bool, j: Job)
    requires Inv(s) && j in s.queue && (s.scope != owner || reset)
    ensures TurnedAway(SetScope(s, owner, reset), j)
  {
    var k :| 0 <= k < |s.queue| && s.queue[k] == j;
    assert Open(s)[|Open(s)| - |s.queue| + k] == j;
    if !s.running.Idle? {
      WaitingIsNotRunning(s, j);
    }
  }

  // ---- The mirror of the grant ----

  /** `activePath`, where there is one, is the backend's grant; between the calls of a failed save, that from before the save. */
  ghost predicate Mirrored(s: State)
  {
    s.activePath.Some? ==> s.activePath == if s.running.Restoring? then s.running.before else PathOf(s.backend)
  }

  /** A save that is running has an owner, and since a scope change there is no `activePath`. */
  ghost predicate SaveIsNew(s: State)
  {
    s.running.Saving? ==>
      && s.running.job.owner.Some? && s.running.job.epoch <= s.epoch
      && (if s.epoch == s.running.job.epoch then s.scope == s.running.job.owner else s.activePath.None?)
  }

  /** What the backend has granted once a restoring call is replied to. */
  function LeftBehind(s: State, reply: Reply): Option<Path>
  {
    if reply.Refused? then PathOf(s.backend) else reply.path
  }

  /**
   What spoils the mirror: a revocation that comes through while there is an `activePath`, set by a
   prepare that was replied to after the scope change, or a failed save that leaves the backend with
   another grant than it had before the save, because restoring failed or gave another path.
   */
  predicate Spoils(s: State, step: Step)
  {
    && step.Replies?
    && s.activePath.Some?
    && ((s.running.Revoking? && step.reply.Configured?) ||
        (s.running.Restoring? && LeftBehind(s, step.reply) != s.running.before))
  }

  lemma StepMirrors(s: State, step: Step)
    requires Mirrored(s) && SaveIsNew(s) && Enabled(s, step) && !OwnerlessSave(s)
    ensures Mirrored(Apply(s, step)) <==> !Spoils(s, step)
  {
    hide Store, ReadPath;
  }

  lemma SavesStayNew(s: State, step: Step)
    requires SaveIsNew(s) && Enabled(s, step) && !OwnerlessSave(s)
    ensures SaveIsNew(Apply(s, step))
  {
    hide Store, ReadPath;
    assert s.queue != [] && s.queue[0].work.Save? ==> s.queue[0].owner.Some?;
  }

  /** There is none: a save without an owner is refused before it is queued. */
  predicate OwnerlessSave(s: State)
  {
    exists k | 0 <= k < |s.queue| :: s.queue[k].work.Save? && s.queue[k].owner.None?
  }

  lemma SavesHaveOwners(s: State, step: Step)
    requires !OwnerlessSave(s) && Enabled(s, step)
    ensures !OwnerlessSave(Apply(s, step))
  {
    hide Store, ReadPath;
    match step
    case Begins => BeginEffect(s); hide Begin;
    case Replies(reply, persists) => ReplyEffect(s, reply, persists); hide OnReply;
    case _ =>
  }

  ghost predicate AlwaysMirrored(s: State, steps: seq<Step>)
    decreases |steps|
  {
    Mirrored(s) && (steps == [] || AlwaysMirrored(Apply(s, steps[0]), steps[1..]))
  }

  ghost predicate NeverSpoilt(s: State, steps: seq<Step>)
    decreases |steps|
  {
    steps == [] || (!Spoils(s, steps[0]) && NeverSpoilt(Apply(s, steps[0]), steps[1..]))
  }

  /** The mirror is right throughout a run exactly when none of these replies occurs in it. */
  lemma {:induction false} MirrorHoldsExactly(s: State, steps: seq<Step>)
    requires IsRun(s, steps) && Mirrored(s) && SaveIsNew(s) && !OwnerlessSave(s)
    ensures AlwaysMirrored(s, steps) <==> NeverSpoilt(s, steps)
    decreases |steps|
  {
    hide Mirrored, SaveIsNew, OwnerlessSave, Apply, Enabled, Spoils;
    if steps != [] {
      StepMirrors(s, steps[0]);
      SavesStayNew(s, steps[0]);
      SavesHaveOwners(s, steps[0]);
      var s1 := Apply(s, steps[0]);
      if !Spoils(s, steps[0]) {
        MirrorHoldsExactly(s1, steps[1..]);
      }
    }
  }

  /** While it is right, a prepare that answers at once with a path answers with the grant in force. */
  lemma MirroredPreparesAreGranted(s: State)
    requires Mirrored(s) && s.running.Idle? && s.queue != [] && s.queue[0].work.Prepare?
    requires Begin(s).running.Idle?
    ensures var a := Begin(s).settled[|s.settled|].answer;
            a.Given? && a.path.Some? ==> PathOf(Begin(s).backend) == a.path
  {
  }

  /**
   A prepare replied to after the scope was reset: the revocation succeeds and the backend has no grant,
   yet the next prepare is answered with the path.
   */
  lemma LateReplySpoilsTheMirror(owner: Owner, path: Path)
    requires owner != "" && path != ""
    ensures var s0 := Initial(Some(owner), map[owner := path]);
            var steps := [Prepares, Begins, Scopes(Some(owner), true), Replies(Configured(Some(path)), true),
                          Begins, Replies(Configured(None), true), Prepares, Begins];
            && IsRun(s0, steps)
            && After(s0, steps).backend == None
            && After(s0, steps).settled == [Settled(0, Locked), Settled(1, Done), Settled(2, Given(Some(path)))]
  {
    var s0 := Initial(Some(owner), map[owner := path]);
    var s1 := Apply(s0, Prepares);
    var s2 := Apply(s1, Begins);
    assert s2.running == Preparing(Job(0, Some(owner), 0, Prepare)) && s2.queue == [];
    var s3 := Apply(s2, Scopes(Some(owner), true));
    assert s3.queue == [Job(1, None, 1, Revoke)];
    var s4 := Apply(s3, Replies(Configured(Some(path)), true));
    assert s4.activePath == Some(path) && s4.settled == [Settled(0, Locked)];
    var s5 := Apply(s4, Begins);
    assert s5.queue == [] && s5.running == Revoking(Job(1, None, 1, Revoke));
    var s6 := Apply(s5, Replies(Configured(None), true));
    assert s6.backend == None && s6.activePath == Some(path);
    var s7 := Apply(s6, Prepares);
    assert s7.queue == [Job(2, Some(owner), 1, Prepare)];
    var s8 := Apply(s7, Begins);
    assert s8.settled == [Settled(0, Locked), Settled(1, Done), Settled(2, Given(Some(path)))];
    hide Apply, Enabled;
    RunOne(s7, Begins, []);
    RunOne(s6, Prepares, [Begins]);
    RunOne(s5, Replies(Configured(None), true), [Prepares, Begins]);
    RunOne(s4, Begins, [Replies(Configured(None), true), Prepares, Begins]);
    RunOne(s3, Replies(Configured(Some(path)), true), [Begins, Replies(Configured(None), true), Prepares, Begins]);
    RunOne(s2, Scopes(Some(owner), true), [Replies(Configured(Some(path)), true), Begins, Replies(Configured(None), true), Prepares, Begins]);
    RunOne(s1, Begins, [Scopes(Some(owner), true), Replies(Configured(Some(path)), true), Begins, Replies(Configured(None), true), Prepares, Begins]);
    RunOne(s0, Prepares, [Begins, Scopes(Some(owner), true), Replies(Configured(Some(path)), true), Begins, Replies(Configured(None), true), Prepares, Begins]);
  }

  lemma RunOne(s: State, step: Step, rest: seq<Step>)
    ensures IsRun(s, [step] + rest) <==> Enabled(s, step) && IsRun(Apply(s, step), rest)
    ensures After(s, [step] + rest) == After(Apply(s, step), rest)
  {
    assert ([step] + rest)[1..] == rest;
  }

  /** The module's variables; a promise chain runs the queue. */
  class Workspace {
    var scope: Option<Owner>
    var path: Path
    var activePath: Option<Path>
    var epoch: Epoch
    var queue: seq<Job>
    var running: Running
    var nextJob: nat
    var settled: seq<Settled>
    var storage: map<Owner, Path>
    var backend: Option<Grant>
    ghost var revoked: Epoch

    ghost function Abs(): State
      reads this
    {
      State(scope, path, activePath, epoch, queue, running, nextJob, settled, storage, backend, revoked)
    }

    constructor (owner: Option<Owner>, stored: map<Owner, Path>)
      ensures Abs() == Initial(owner, stored)
    {
      scope, path, storage := owner, ReadPath(owner, stored), stored;
      activePath, epoch, queue, running, nextJob, settled := None, 0, [], Idle, 0, [];
      backend, revoked := None, 0;
    }

    method Push(owner: Option<Owner>, work: Work)
      modifies this`queue, this`nextJob
      ensures Abs() == Enqueue(old(Abs()), owner, work)
    {
      queue := queue + [Job(nextJob, owner, epoch, work)];
      nextJob := nextJob + 1;
    }

    method SetAgentWorkspaceScope(owner: Option<Owner>, reset: bool)
      modifies this
      ensures Abs() == SetScope(old(Abs()), owner, reset)
    {
      if scope == owner && !reset {
        return;
      }
      scope := owner;
      epoch := epoch + 1;
      activePath := None;
      path := ReadPath(owner, storage);
      Push(None, Revoke);
    }

    method SaveAgentWorkspace(value: Option<Path>)
      modifies this
      ensures Abs() == AskSave(old(Abs()), value)
    {
      if !NoOwner(scope) {
        Push(scope, Save(value));
      }
    }

    method PrepareAgentWorkspace()
      modifies this
      ensures Abs() == AskPrepare(old(Abs()))
    {
      Push(scope, Prepare);
    }

    method Settle(j: Job, a: Answer)
      modifies this`running, this`settled
      ensures Abs() == Answered(old(Abs()), j, a)
    {
      running := Idle;
      settled := settled + [Settled(j.id, a)];
    }

    method RunNext()
      requires running.Idle? && queue != []
      modifies this
      ensures Abs() == Begin(old(Abs()))
    {
      var j := queue[0];
      queue := queue[1..];
      match j.work {
        case Revoke => running := Revoking(j);
        case Save(_) =>
          if scope != j.owner || epoch != j.epoch {
            Settle(j, Locked);
          } else {
            running := Saving(j, path);
          }
        case Prepare =>
          if NoOwner(j.owner) || scope != j.owner || epoch != j.epoch {
            Settle(j, Locked);
          } else if path == "" {
            Settle(j, Given(None));
          } else if activePath != Some(path) {
            running := Preparing(j);
          } else {
            Settle(j, Given(activePath));
          }
      }
    }

    method HandleReply(reply: Reply, persists: bool)
      requires !running.Idle?
      modifies this
      ensures Abs() == OnReply(old(Abs()), reply, persists)
    {
      hide ReadPath;
      var call, j := running, running.job;
      if reply.Refused? {
        Settle(j, BackendFailed);
        return;
      }
      var granted := backend;
      backend := Granted(reply.path, j.epoch);
      var outdated := scope != j.owner || epoch != j.epoch;
      match call {
        case Revoking(_) =>
          revoked := j.epoch;
          Settle(j, Done);
        case Saving(_, previous) =>
          if outdated || j.owner.None? {
            Settle(j, Locked);
          } else if !persists {
            running := Restoring(j, previous, PathOf(granted));
          } else {
            storage := Store(storage, j.owner.value, reply.path);
            path := if reply.path.Some? then reply.path.value else "";
            activePath := reply.path;
            Settle(j, Done);
          }
        case Restoring(_, _, _) => Settle(j, NotPersisted);
        case Preparing(_) =>
          activePath := reply.path;
          Settle(j, if outdated then Locked else Given(reply.path));
      }
    }
  }
}
