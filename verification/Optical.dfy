/**
 Optical export grants: a passphrase with a lockout, grants that expire and can be locked, one read
 at a time under each grant, and cancellation tokens in two levels, a grant's and its reads'.

 `State` is the whole of it.  Tokens and leases are named by numbers and given out once; time is
 whatever the clock said, in milliseconds, and a call reads it twice, `now` and not before that `later`.
 The hash and its verification are outcomes handed in with the call.
 */
module Optical {
  import opened Prelude

  type Scope = string
  type Token = string
  type RequestId = string        // of bytes
  type Cancel = nat
  type LeaseId = nat

  const GRANT_TTL := 8 * 60 * 60 * 1000
  const LOCKOUT := 30 * 1000
  const MAX_FAILURES := 5
  const MAX_GRANTS := 8
  const MAX_CANCELS := 64

  datatype OpticalError =
    | Disabled | PassphraseLength | ConfigError | TryLater | AdminRequired | AlreadyConfigured
    | NotConfigured | WrongPassphrase | Locked | InvalidRequest | Cancelled | Busy | ReadFailed

  datatype Result<+T> = Ok(value: T) | Err(error: OpticalError)

  datatype Grant = Grant(scope: Scope, expires: int, cancel: Cancel, running: map<RequestId, Cancel>, cancelled: seq<RequestId>)

  datatype Lease = Lease(scope: Scope, token: Token, request: RequestId, cancel: Cancel, expires: int)

  /** Cancellation tokens: who is whose child, and which were cancelled themselves. */
  datatype Cancels = Cancels(parents: map<Cancel, Cancel>, cancelled: set<Cancel>, next: Cancel)

  datatype Config = Config(enabled: bool, configError: bool)

  /** The passphrase side. */
  datatype Door = Door(hash: Option<string>, failures: nat, retryAt: Option<int>)

  /** The grant side; `issued` are all tokens so far and `history` every cancel request that reached a grant. */
  datatype Vault = Vault(
    grants: map<Token, Grant>,
    cancels: Cancels,
    leases: map<LeaseId, Lease>,
    nextLease: LeaseId,
    issued: set<Token>,
    history: map<Token, seq<RequestId>>)

  datatype State = State(config: Config, door: Door, vault: Vault)

  function Initial(config: Config, hash: Option<string>): State
  {
    State(config, Door(hash, 0, None), Vault(map[], Cancels(map[], {}, 0), map[], 0, {}, map[]))
  }

  /** `is_cancelled`: a child is cancelled with its parent. */
  predicate IsCancelled(c: Cancels, t: Cancel)
  {
    t in c.cancelled || (t in c.parents && c.parents[t] in c.cancelled)
  }

  // ---- The passphrase ----

  /** How hashing and storing, or verifying, went. */
  datatype Outcome = Stored(hash: string) | StoreFailed | Verified | Wrong | Corrupt

  datatype UnlockCall = UnlockCall(
    scope: Scope, bytes: nat, chars: nat, setup: bool, canConfigure: bool,
    outcome: Outcome, now: int, later: int, token: Token, oldest: Token)

  function Failed(d: Door, later: int): Door
  {
    if d.failures + 1 >= MAX_FAILURES then d.(failures := 0, retryAt := Some(later + LOCKOUT))
    else d.(failures := d.failures + 1)
  }

  /** What a call to `unlock` answers and does to the passphrase side. */
  function Knock(config: Config, d: Door, u: UnlockCall): (Door, Result<Token>)
  {
    if !config.enabled then (d, Err(Disabled))
    else if u.bytes > 1024 || u.chars < 8 then (d, Err(PassphraseLength))
    else if config.configError then (d, Err(ConfigError))
    else if d.retryAt.Some? && d.retryAt.value > u.now then (d, Err(TryLater))
    else if u.setup && !u.canConfigure then (d, Err(AdminRequired))
    else if u.setup && d.hash.Some? then (d, Err(AlreadyConfigured))
    else if !u.setup && d.hash.None? then (d, Err(NotConfigured))
    else match u.outcome
      case Stored(hash) => (Door(Some(hash), 0, None), Ok(u.token))
      case StoreFailed => (d, Err(ConfigError))
      case Verified => (Door(d.hash, 0, None), Ok(u.token))
      case Wrong => (Failed(d, u.later), Err(WrongPassphrase))
      case Corrupt => (d, Err(ConfigError))
  }

  // ---- Grants ----

  function InScope(grants: map<Token, Grant>, scope: Scope): set<Token>
  {
    set t | t in grants && grants[t].scope == scope
  }

  function Expired(grants: map<Token, Grant>, now: int): set<Token>
  {
    set t | t in grants && grants[t].expires <= now
  }

  /** Every removal of a grant cancels its token. */
  function RemoveGrants(v: Vault, gone: set<Token>): Vault
  {
    v.(grants := v.grants - gone,
       cancels := v.cancels.(cancelled := v.cancels.cancelled + set t | t in gone && t in v.grants :: v.grants[t].cancel))
  }

  /** Expired grants go; a ninth grant of a scope takes the place of the oldest one. */
  function MakeRoom(v: Vault, u: UnlockCall): Vault
  {
    var v1 := RemoveGrants(v, Expired(v.grants, u.later));
    if |InScope(v1.grants, u.scope)| >= MAX_GRANTS then RemoveGrants(v1, {u.oldest}) else v1
  }

  function AddGrant(v: Vault, u: UnlockCall): Vault
  {
    var c := v.cancels.next;
    v.(grants := v.grants[u.token := Grant(u.scope, u.later + GRANT_TTL, c, map[], [])],
       cancels := v.cancels.(next := c + 1),
       issued := v.issued + {u.token},
       history := v.history[u.token := []])
  }

  function Unlock(s: State, u: UnlockCall): (State, Result<Token>)
  {
    var (d, r) := Knock(s.config, s.door, u);
    (State(s.config, d, if r.Ok? then AddGrant(MakeRoom(s.vault, u), u) else s.vault), r)
  }

  /** The one to make room with: of the scope, and expiring no later than any other of it. */
  predicate IsOldest(grants: map<Token, Grant>, scope: Scope, t: Token)
  {
    && t in InScope(grants, scope)
    && forall u | u in InScope(grants, scope) :: grants[t].expires <= grants[u].expires
  }

  function Lock(v: Vault, scope: Scope, token: Token): Vault
  {
    if token in v.grants && v.grants[token].scope == scope then RemoveGrants(v, {token}) else v
  }

  function LockScope(v: Vault, scope: Scope): Vault
  {
    RemoveGrants(v, InScope(v.grants, scope))
  }

  predicate Valid(s: State, scope: Scope, token: Token, now: int)
  {
    && s.config.enabled
    && token in s.vault.grants
    && s.vault.grants[token].scope == scope
    && s.vault.grants[token].expires > now
    && !IsCancelled(s.vault.cancels, s.vault.grants[token].cancel)
  }

  predicate BadRequest(request: RequestId)
  {
    request == "" || |request| > 128
  }

  function Remember(g: Grant, request: RequestId): Grant
  {
    var kept := if |g.cancelled| == MAX_CANCELS then g.cancelled[1..] else g.cancelled;
    g.(cancelled := kept + [request])
  }

  function CancelRead(v: Vault, scope: Scope, token: Token, request: RequestId): Vault
  {
    if BadRequest(request) || token !in v.grants || v.grants[token].scope != scope then v
    else
      var g := v.grants[token];
      var hit := if request in g.running then {g.running[request]} else {};
      v.(grants := v.grants[token := Remember(g, request)],
         cancels := v.cancels.(cancelled := v.cancels.cancelled + hit),
         history := if token in v.history then v.history[token := v.history[token] + [request]] else v.history)
  }

  function BeginRead(s: State, scope: Scope, token: Token, request: RequestId, now: int): (State, Result<LeaseId>)
  {
    var v := s.vault;
    if !s.config.enabled then (s, Err(Disabled))
    else if token !in v.grants || v.grants[token].scope != scope || v.grants[token].expires <= now then (s, Err(Locked))
    else if BadRequest(request) then (s, Err(InvalidRequest))
    else if request in v.grants[token].cancelled then (s, Err(Cancelled))
    else if v.grants[token].running != map[] then (s, Err(Busy))
    else
      var g, c := v.grants[token], v.cancels.next;
      var v1 := v.(
        grants := v.grants[token := g.(running := g.running[request := c])],
        cancels := v.cancels.(parents := v.cancels.parents[c := g.cancel], next := c + 1),
        leases := v.leases[v.nextLease := Lease(scope, token, request, c, g.expires)],
        nextLease := v.nextLease + 1);
      (s.(vault := v1), Ok(v.nextLease))
  }

  /** A lease is dropped: its read is taken off the grant, if that is still there. */
  function DropLease(v: Vault, l: LeaseId): Vault
  {
    if l !in v.leases then v
    else
      var lease := v.leases[l];
      var grants := if lease.token in v.grants
                    then v.grants[lease.token := v.grants[lease.token].(running := v.grants[lease.token].running - {lease.request})]
                    else v.grants;
      v.(grants := grants, leases := v.leases - {l})
  }

  /** The end of `read`: `raced` is what came first of cancellation, expiry, the time limit and the file itself. */
  function FinishRead(s: State, lease: Lease, raced: Result<string>, now: int): Result<string>
  {
    if IsCancelled(s.vault.cancels, lease.cancel) || !Valid(s, lease.scope, lease.token, now) then Err(Locked) else raced
  }

  // ---- Runs ----

  datatype Step =
    | DoUnlock(u: UnlockCall)
    | DoLock(scope: Scope, token: Token)
    | DoLockScope(scope: Scope)
    | DoCancel(scope: Scope, token: Token, request: RequestId)
    | DoBeginRead(scope: Scope, token: Token, request: RequestId, now: int)
    | DoDrop(l: LeaseId)          // at the end of `read`, or when its future is dropped

  predicate Enabled(s: State, step: Step)
  {
    match step
    case DoUnlock(u) =>
      && u.now <= u.later
      && u.token !in s.vault.issued
      && (if u.setup then u.outcome.Stored? || u.outcome.StoreFailed? else !u.outcome.Stored? && !u.outcome.StoreFailed?)
      && (var kept := s.vault.grants - Expired(s.vault.grants, u.later);
          |InScope(kept, u.scope)| >= MAX_GRANTS ==> IsOldest(kept, u.scope, u.oldest))
    case DoDrop(l) => l in s.vault.leases
    case _ => true
  }

  function Apply(s: State, step: Step): State
  {
    match step
    case DoUnlock(u) => Unlock(s, u).0
    case DoLock(scope, token) => s.(vault := Lock(s.vault, scope, token))
    case DoLockScope(scope) => s.(vault := LockScope(s.vault, scope))
    case DoCancel(scope, token, request) => s.(vault := CancelRead(s.vault, scope, token, request))
    case DoBeginRead(scope, token, request, now) => BeginRead(s, scope, token, request, now).0
    case DoDrop(l) => s.(vault := DropLease(s.vault, l))
  }

  ghost predicate IsRun(s: State, steps: seq<Step>)
    decreases |steps|
  {
    steps == [] || (Enabled(s, steps[0]) && IsRun(Apply(s, steps[0]), steps[1..]))
  }

  function After(s: State, steps: seq<Step>): State
    decreases |steps|
  {
    if steps == [] then s else After(Apply(s, steps[0]), steps[1..])
  }

  // ---- Invariants ----

  /** A live lease is the one read of its grant, under the grant's token; without a grant it is cancelled. */
  ghost predicate LeaseLinked(v: Vault, lease: Lease)
  {
    if lease.token in v.grants then
      && v.grants[lease.token].running == map[lease.request := lease.cancel]
      && v.grants[lease.token].scope == lease.scope
      && lease.cancel in v.cancels.parents && v.cancels.parents[lease.cancel] == v.grants[lease.token].cancel
    else IsCancelled(v.cancels, lease.cancel)
  }

  ghost predicate LeasesLinked(v: Vault)
  {
    && (forall l | l in v.leases :: l < v.nextLease && v.leases[l].token in v.issued && v.leases[l].cancel in v.cancels.parents && LeaseLinked(v, v.leases[l]))
    && (forall l, m | l in v.leases && m in v.leases && l != m :: v.leases[l].cancel != v.leases[m].cancel)
  }

  ghost predicate HasLease(v: Vault, t: Token)
  {
    exists l | l in v.leases :: v.leases[l].token == t
  }

  /** A grant's own token is a root and is not cancelled; it has a read only while there is a lease. */
  ghost predicate GrantLinked(v: Vault, t: Token, g: Grant)
  {
    && t in v.issued
    && g.cancel < v.cancels.next && g.cancel !in v.cancels.cancelled && g.cancel !in v.cancels.parents
    && (g.running != map[] ==> HasLease(v, t))
    && t in v.history && g.cancelled == LastN(v.history[t], MAX_CANCELS)
  }

  ghost predicate GrantsLinked(v: Vault)
  {
    && (forall t | t in v.grants :: GrantLinked(v, t, v.grants[t]))
    && (forall t, u | t in v.grants && u in v.grants && t != u :: v.grants[t].cancel != v.grants[u].cancel)
    && (forall t | t in v.history :: t in v.issued)
    && (forall c | c in v.cancels.parents :: c < v.cancels.next)
    && (forall c | c in v.cancels.cancelled :: c < v.cancels.next)
  }

  ghost predicate FewGrants(v: Vault)
  {
    forall scope :: |InScope(v.grants, scope)| <= MAX_GRANTS
  }

  ghost predicate Inv(v: Vault)
  {
    LeasesLinked(v) && GrantsLinked(v) && FewGrants(v)
  }

  lemma FewerInScope(a: map<Token, Grant>, b: map<Token, Grant>, scope: Scope)
    requires InScope(a, scope) <= InScope(b, scope)
    ensures |InScope(a, scope)| <= |InScope(b, scope)|
  {
    assert InScope(b, scope) == InScope(a, scope) + (InScope(b, scope) - InScope(a, scope));
  }

  lemma RemoveKeepsInv(v: Vault, gone: set<Token>)
    requires Inv(v)
    ensures Inv(RemoveGrants(v, gone))
  {
    var v1 := RemoveGrants(v, gone);
    forall l | l in v1.leases
      ensures LeaseLinked(v1, v1.leases[l])
    {
      assert LeaseLinked(v, v.leases[l]);
    }
    forall t | t in v1.grants
      ensures GrantLinked(v1, t, v1.grants[t])
    {
      assert GrantLinked(v, t, v.grants[t]);
      if HasLease(v, t) {
        var l :| l in v.leases && v.leases[l].token == t;
        assert l in v1.leases;
      }
    }
    forall scope
      ensures |InScope(v1.grants, scope)| <= MAX_GRANTS
    {
      FewerInScope(v1.grants, v.grants, scope);
    }
  }

  lemma RemoveOne(grants: map<Token, Grant>, scope: Scope, t: Token)
    requires t in InScope(grants, scope)
    ensures |InScope(grants - {t}, scope)| == |InScope(grants, scope)| - 1
  {
    assert InScope(grants, scope) == InScope(grants - {t}, scope) + {t};
  }

  lemma AddKeepsInv(v: Vault, u: UnlockCall)
    requires Inv(v) && u.token !in v.issued
    requires |InScope(v.grants, u.scope)| < MAX_GRANTS
    ensures Inv(AddGrant(v, u))
  {
    var v1 := AddGrant(v, u);
    assert u.token !in v.grants;
    forall l | l in v1.leases
      ensures LeaseLinked(v1, v1.leases[l])
    {
      assert LeaseLinked(v, v.leases[l]);
    }
    forall t | t in v1.grants
      ensures GrantLinked(v1, t, v1.grants[t])
    {
      if t != u.token {
        assert GrantLinked(v, t, v.grants[t]);
        if HasLease(v, t) {
          var l :| l in v.leases && v.leases[l].token == t;
          assert l in v1.leases;
        }
      }
    }
    AddKeepsFew(v, u);
  }

  lemma InScopeOfAdded(grants: map<Token, Grant>, t: Token, g: Grant, scope: Scope)
    requires t !in grants
    ensures InScope(grants[t := g], scope) == if g.scope == scope then InScope(grants, scope) + {t} else InScope(grants, scope)
    ensures |InScope(grants[t := g], scope)| <= |InScope(grants, scope)| + (if g.scope == scope then 1 else 0)
  {
  }

  lemma AddKeepsFew(v: Vault, u: UnlockCall)
    requires FewGrants(v) && u.token !in v.grants && |InScope(v.grants, u.scope)| < MAX_GRANTS
    ensures FewGrants(AddGrant(v, u))
  {
    hide InScope;
    forall scope
      ensures |InScope(AddGrant(v, u).grants, scope)| <= MAX_GRANTS
    {
      InScopeOfAdded(v.grants, u.token, AddGrant(v, u).grants[u.token], scope);
    }
  }

  lemma UnlockKeepsInv(s: State, u: UnlockCall)
    requires Inv(s.vault) && Enabled(s, DoUnlock(u))
    ensures Inv(Unlock(s, u).0.vault)
  {
    hide Inv, Knock;
    var v := s.vault;
    var gone := Expired(v.grants, u.later);
    RemoveKeepsInv(v, gone);
    var v1 := RemoveGrants(v, gone);
    if |InScope(v1.grants, u.scope)| >= MAX_GRANTS {
      RemoveKeepsInv(v1, {u.oldest});
      RemoveOne(v1.grants, u.scope, u.oldest);
      AtMostEight(v1, u.scope);
    }
    assert MakeRoom(v, u).issued == v.issued;
    AddKeepsInv(MakeRoom(v, u), u);
  }

  lemma AtMostEight(v: Vault, scope: Scope)
    requires Inv(v)
    ensures |InScope(v.grants, scope)| <= MAX_GRANTS
  {
  }

  /** A grant keeps its scope, so the count per scope is the same. */
  lemma UpdateKeepsFew(v: Vault, v1: Vault, t: Token)
    requires FewGrants(v) && t in v.grants && t in v1.grants && v1.grants == v.grants[t := v1.grants[t]]
    requires v1.grants[t].scope == v.grants[t].scope
    ensures FewGrants(v1)
  {
    forall scope
      ensures |InScope(v1.grants, scope)| <= MAX_GRANTS
    {
      assert InScope(v1.grants, scope) == InScope(v.grants, scope);
    }
  }

  lemma CancelKeepsLeases(v: Vault, scope: Scope, token: Token, request: RequestId)
    requires Inv(v)
    ensures LeasesLinked(CancelRead(v, scope, token, request))
  {
    hide GrantsLinked, FewGrants, Remember;
    var v1 := CancelRead(v, scope, token, request);
    forall l | l in v1.leases
      ensures LeaseLinked(v1, v1.leases[l])
    {
      assert LeaseLinked(v, v.leases[l]);
      RememberKeeps(v.grants, token, request);
    }
  }

  lemma RememberKeeps(grants: map<Token, Grant>, token: Token, request: RequestId)
    ensures token in grants ==> Remember(grants[token], request) == grants[token].(cancelled := Remember(grants[token], request).cancelled)
  {
  }

  /** What is cancelled is a read's token, so no grant's. */
  lemma CancelsNoGrant(v: Vault, token: Token, request: RequestId)
    requires Inv(v) && token in v.grants && request in v.grants[token].running
    ensures v.grants[token].running[request] in v.cancels.parents
  {
    assert GrantLinked(v, token, v.grants[token]);
    var l :| l in v.leases && v.leases[l].token == token;
    assert LeaseLinked(v, v.leases[l]);
  }

  lemma CancelKeepsGrants(v: Vault, scope: Scope, token: Token, request: RequestId)
    requires Inv(v)
    ensures GrantsLinked(CancelRead(v, scope, token, request))
  {
    var v1 := CancelRead(v, scope, token, request);
    if !BadRequest(request) && token in v.grants && v.grants[token].scope == scope {
      var g := v.grants[token];
      assert GrantLinked(v, token, g);
      RememberIsLast(v.history[token], g, request);
      if request in g.running {
        CancelsNoGrant(v, token, request);
      }
      hide LeasesLinked, FewGrants, Remember;
      RememberKeeps(v.grants, token, request);
      forall t | t in v1.grants
        ensures GrantLinked(v1, t, v1.grants[t])
      {
        assert GrantLinked(v, t, v.grants[t]);
        if HasLease(v, t) {
          var l :| l in v.leases && v.leases[l].token == t;
          assert l in v1.leases;
        }
      }
    }
  }

  lemma CancelKeepsInv(v: Vault, scope: Scope, token: Token, request: RequestId)
    requires Inv(v)
    ensures Inv(CancelRead(v, scope, token, request))
  {
    CancelKeepsLeases(v, scope, token, request);
    CancelKeepsGrants(v, scope, token, request);
    hide LeasesLinked, GrantsLinked;
    if !BadRequest(request) && token in v.grants && v.grants[token].scope == scope {
      UpdateKeepsFew(v, CancelRead(v, scope, token, request), token);
    }
  }

  /** Dropping the front of a full list and adding at the back keeps the last ones. */
  lemma RememberIsLast(history: seq<RequestId>, g: Grant, request: RequestId)
    requires g.cancelled == LastN(history, MAX_CANCELS)
    ensures Remember(g, request).cancelled == LastN(history + [request], MAX_CANCELS)
  {
    if |history| >= MAX_CANCELS {
      assert (history + [request])[|history| + 1 - MAX_CANCELS..] == history[|history| + 1 - MAX_CANCELS..] + [request];
    }
  }

  lemma BeginKeepsInv(s: State, scope: Scope, token: Token, request: RequestId, now: int)
    requires Inv(s.vault)
    ensures Inv(BeginRead(s, scope, token, request, now).0.vault)
  {
    var v := s.vault;
    var (s1, r) := BeginRead(s, scope, token, request, now);
    var v1 := s1.vault;
    if r.Ok? {
      var n := v.nextLease;
      assert GrantLinked(v, token, v.grants[token]);
      forall l | l in v1.leases
        ensures LeaseLinked(v1, v1.leases[l])
        ensures v1.leases[l].token in v1.issued && v1.leases[l].cancel in v1.cancels.parents
        ensures l < v1.nextLease
      {
        if l != n {
          assert LeaseLinked(v, v.leases[l]);
          assert v.leases[l].request in map[v.leases[l].request := v.leases[l].cancel];
          assert v.leases[l].token != token;
        }
      }
      forall t | t in v1.grants
        ensures GrantLinked(v1, t, v1.grants[t])
      {
        assert GrantLinked(v, t, v.grants[t]);
        if t == token {
          assert n in v1.leases && v1.leases[n].token == t;
        } else if HasLease(v, t) {
          var l :| l in v.leases && v.leases[l].token == t;
          assert l in v1.leases && v1.leases[l].token == t;
        }
      }
      UpdateKeepsFew(v, v1, token);
    }
  }

  /** Two live leases under the same grant are the same lease. */
  lemma OneReadPerGrant(v: Vault, l: LeaseId, m: LeaseId)
    requires Inv(v) && l in v.leases && m in v.leases
    requires v.leases[l].token == v.leases[m].token && v.leases[l].token in v.grants
    ensures l == m
  {
    var a, b := v.leases[l], v.leases[m];
    assert LeaseLinked(v, a) && LeaseLinked(v, b);
    var running := v.grants[a.token].running;
    assert b.request in running && running[b.request] == b.cancel;
    assert a.request == b.request && running[a.request] == a.cancel;
  }

  lemma DropKeepsInv(v: Vault, l: LeaseId)
    requires Inv(v) && l in v.leases
    ensures Inv(DropLease(v, l))
  {
    var v1 := DropLease(v, l);
    var lease := v.leases[l];
    assert LeaseLinked(v, lease);
    forall m | m in v1.leases
      ensures LeaseLinked(v1, v1.leases[m])
    {
      assert LeaseLinked(v, v.leases[m]);
      if lease.token in v.grants && v.leases[m].token == lease.token {
        OneReadPerGrant(v, l, m);
      }
    }
    forall t | t in v1.grants
      ensures GrantLinked(v1, t, v1.grants[t])
    {
      assert GrantLinked(v, t, v.grants[t]);
      if t == lease.token {
        assert v1.grants[t].running == map[];
      } else if HasLease(v, t) {
        var m :| m in v.leases && v.leases[m].token == t;
        assert m in v1.leases;
      }
    }
    if lease.token in v.grants {
      UpdateKeepsFew(v, v1, lease.token);
    }
  }

  lemma StepKeepsInv(s: State, step: Step)
    requires Inv(s.vault) && Enabled(s, step)
    ensures Inv(Apply(s, step).vault)
  {
    hide Inv, Unlock, BeginRead, CancelRead, DropLease, RemoveGrants;
    match step
    case DoUnlock(u) => UnlockKeepsInv(s, u);
    case DoLock(scope, token) => RemoveKeepsInv(s.vault, {token});
    case DoLockScope(scope) => RemoveKeepsInv(s.vault, InScope(s.vault.grants, scope));
    case DoCancel(scope, token, request) => CancelKeepsInv(s.vault, scope, token, request);
    case DoBeginRead(scope, token, request, now) => BeginKeepsInv(s, scope, token, request, now);
    case DoDrop(l) => DropKeepsInv(s.vault, l);
  }

  lemma {:induction false} RunKeepsInv(s: State, steps: seq<Step>)
    requires Inv(s.vault) && IsRun(s, steps)
    ensures Inv(After(s, steps).vault)
    decreases |steps|
  {
    hide Inv, Apply, Enabled;
    if steps != [] {
      StepKeepsInv(s, steps[0]);
      RunKeepsInv(Apply(s, steps[0]), steps[1..]);
    }
  }

  // ---- Grants, leases and scopes ----

  /**
   In every reachable state a lease whose grant is gone is cancelled, a grant has at most one read,
   and that is its live lease's; no scope has more than eight grants.
   */
  lemma LeasesFollowGrants(config: Config, hash: Option<string>, steps: seq<Step>)
    requires IsRun(Initial(config, hash), steps)
    ensures var v := After(Initial(config, hash), steps).vault;
            && Inv(v)
            && (forall l | l in v.leases && v.leases[l].token !in v.grants :: IsCancelled(v.cancels, v.leases[l].cancel))
            && (forall t | t in v.grants :: |v.grants[t].running| <= 1)
            && (forall t | t in v.grants && v.grants[t].running != map[] ::
                  exists l | l in v.leases :: v.leases[l].token == t && v.grants[t].running == map[v.leases[l].request := v.leases[l].cancel])
            && (forall l, m | l in v.leases && m in v.leases && v.leases[l].token == v.leases[m].token && v.leases[l].token in v.grants :: l == m)
            && (forall scope :: |InScope(v.grants, scope)| <= MAX_GRANTS)
  {
    var s := Initial(config, hash);
    assert forall scope :: InScope(s.vault.grants, scope) == {};
    RunKeepsInv(s, steps);
    LinkedMeans(After(s, steps).vault);
  }

  lemma LinkedMeans(v: Vault)
    requires Inv(v)
    ensures forall l | l in v.leases && v.leases[l].token !in v.grants :: IsCancelled(v.cancels, v.leases[l].cancel)
    ensures forall t | t in v.grants :: |v.grants[t].running| <= 1
    ensures forall t | t in v.grants && v.grants[t].running != map[] ::
              exists l | l in v.leases :: v.leases[l].token == t && v.grants[t].running == map[v.leases[l].request := v.leases[l].cancel]
    ensures forall l, m | l in v.leases && m in v.leases && v.leases[l].token == v.leases[m].token && v.leases[l].token in v.grants :: l == m
    ensures forall scope :: |InScope(v.grants, scope)| <= MAX_GRANTS
  {
    forall l | l in v.leases && v.leases[l].token !in v.grants
      ensures IsCancelled(v.cancels, v.leases[l].cancel)
    {
      assert LeaseLinked(v, v.leases[l]);
    }
    forall t | t in v.grants && v.grants[t].running != map[]
      ensures |v.grants[t].running| == 1
      ensures exists l | l in v.leases :: v.leases[l].token == t && v.grants[t].running == map[v.leases[l].request := v.leases[l].cancel]
    {
      assert GrantLinked(v, t, v.grants[t]);
      var l :| l in v.leases && v.leases[l].token == t;
      assert LeaseLinked(v, v.leases[l]);
    }
    forall l, m | l in v.leases && m in v.leases && v.leases[l].token == v.leases[m].token && v.leases[l].token in v.grants
      ensures l == m
    {
      OneReadPerGrant(v, l, m);
    }
  }

  /** The scope a step acts in, and the time up to which it removes expired grants. */
  function ScopeOf(s: State, step: Step): Option<Scope>
  {
    match step
    case DoUnlock(u) => Some(u.scope)
    case DoLock(scope, _) => Some(scope)
    case DoLockScope(scope) => Some(scope)
    case DoCancel(scope, _, _) => Some(scope)
    case DoBeginRead(scope, _, _, _) => Some(scope)
    case DoDrop(l) => if l in s.vault.leases then Some(s.vault.leases[l].scope) else None
  }

  /** A step leaves every grant of another scope alone, unless it prunes it as expired, and does not cancel it. */
  lemma OtherScopesAreUntouched(s: State, step: Step, t: Token)
    requires Inv(s.vault) && Enabled(s, step) && t in s.vault.grants
    requires ScopeOf(s, step) != Some(s.vault.grants[t].scope)
    requires step.DoUnlock? ==> s.vault.grants[t].expires > step.u.later
    ensures t in Apply(s, step).vault.grants && Apply(s, step).vault.grants[t] == s.vault.grants[t]
  {
    if step.DoDrop? {
      assert LeaseLinked(s.vault, s.vault.leases[step.l]);
    } else if step.DoUnlock? {
      assert GrantLinked(s.vault, t, s.vault.grants[t]);
    }
  }

  /** Nor does it cancel that grant's read. */
  lemma OtherReadsAreUntouched(s: State, step: Step, l: LeaseId)
    requires Inv(s.vault) && Enabled(s, step) && l in s.vault.leases && s.vault.leases[l].token in s.vault.grants
    requires ScopeOf(s, step) != Some(s.vault.leases[l].scope)
    requires step.DoUnlock? ==> s.vault.grants[s.vault.leases[l].token].expires > step.u.later
    ensures var lease := s.vault.leases[l];
            l in Apply(s, step).vault.leases && Apply(s, step).vault.leases[l] == lease &&
            (IsCancelled(Apply(s, step).vault.cancels, lease.cancel) <==> IsCancelled(s.vault.cancels, lease.cancel))
  {
    var lease := s.vault.leases[l];
    StepKeepsInv(s, step);
    LeaseStays(s, step, l);
    OtherScopesAreUntouched(s, step, lease.token) by {
      assert LeaseLinked(s.vault, lease);
    }
    CancelledOnlyOwn(s, step, l);
    hide Apply;
    UncancelledUnlessItself(s.vault, l);
    UncancelledUnlessItself(Apply(s, step).vault, l);
  }

  /** While its grant is there, a lease is cancelled only by its own token. */
  lemma UncancelledUnlessItself(v: Vault, l: LeaseId)
    requires Inv(v) && l in v.leases && v.leases[l].token in v.grants
    ensures IsCancelled(v.cancels, v.leases[l].cancel) <==> v.leases[l].cancel in v.cancels.cancelled
    ensures v.leases[l].scope == v.grants[v.leases[l].token].scope
  {
    assert LeaseLinked(v, v.leases[l]);
    assert GrantLinked(v, v.leases[l].token, v.grants[v.leases[l].token]);
  }

  lemma LeaseStays(s: State, step: Step, l: LeaseId)
    requires Inv(s.vault) && Enabled(s, step) && l in s.vault.leases && step != DoDrop(l)
    ensures l in Apply(s, step).vault.leases && Apply(s, step).vault.leases[l] == s.vault.leases[l]
  {
  }

  /** The tokens a step cancels directly are those of grants it removes, or of the one read that is cancelled. */
  lemma CancelledOnlyOwn(s: State, step: Step, l: LeaseId)
    requires Inv(s.vault) && Enabled(s, step) && l in s.vault.leases && s.vault.leases[l].token in s.vault.grants
    requires ScopeOf(s, step) != Some(s.vault.leases[l].scope)
    ensures s.vault.leases[l].cancel in Apply(s, step).vault.cancels.cancelled <==> s.vault.leases[l].cancel in s.vault.cancels.cancelled
  {
    hide Knock, InScope, Expired;
    assert LeaseLinked(s.vault, s.vault.leases[l]);
    if step.DoCancel? {
      OtherLeaseOtherRead(s, step, l);
    }
  }

  lemma OtherLeaseOtherRead(s: State, step: Step, l: LeaseId)
    requires Inv(s.vault) && step.DoCancel? && l in s.vault.leases && s.vault.leases[l].token in s.vault.grants
    requires step.scope != s.vault.leases[l].scope
    ensures var v := s.vault;
            !BadRequest(step.request) && step.token in v.grants && v.grants[step.token].scope == step.scope &&
            step.request in v.grants[step.token].running ==>
              v.grants[step.token].running[step.request] != v.leases[l].cancel
  {
    var v := s.vault;
    if step.token in v.grants && step.request in v.grants[step.token].running {
      assert GrantLinked(v, step.token, v.grants[step.token]);
      var m :| m in v.leases && v.leases[m].token == step.token;
      UncancelledUnlessItself(v, l);
      UncancelledUnlessItself(v, m);
      assert LeaseLinked(v, v.leases[m]);
    }
  }

  // ---- Reads ----

  /** What ends the read of `lease`: locking its grant or its scope, or cancelling the very request. */
  predicate Kills(step: Step, lease: Lease)
  {
    || step == DoLock(lease.scope, lease.token)
    || step == DoLockScope(lease.scope)
    || step == DoCancel(lease.scope, lease.token, lease.request)
  }

  lemma KillingCancels(s: State, step: Step, l: LeaseId)
    requires Inv(s.vault) && l in s.vault.leases && Kills(step, s.vault.leases[l])
    requires !BadRequest(s.vault.leases[l].request)
    ensures IsCancelled(Apply(s, step).vault.cancels, s.vault.leases[l].cancel)
  {
    assert LeaseLinked(s.vault, s.vault.leases[l]);
  }

  lemma CancellationLasts(s: State, step: Step, c: Cancel)
    requires Inv(s.vault) && Enabled(s, step) && IsCancelled(s.vault.cancels, c)
    ensures IsCancelled(Apply(s, step).vault.cancels, c)
  {
    hide Knock, InScope, Expired, LeasesLinked, FewGrants;
  }

  lemma {:induction false} CancelledReadsStayCancelled(s: State, steps: seq<Step>, c: Cancel)
    requires Inv(s.vault) && IsRun(s, steps) && IsCancelled(s.vault.cancels, c)
    ensures IsCancelled(After(s, steps).vault.cancels, c)
    decreases |steps|
  {
    hide Inv, Apply, Enabled, IsCancelled;
    if steps != [] {
      StepKeepsInv(s, steps[0]);
      CancellationLasts(s, steps[0], c);
      CancelledReadsStayCancelled(Apply(s, steps[0]), steps[1..], c);
    }
  }

  /** Whoever locks the grant or its scope, or cancels the request, while the lease is held cancels it for good. */
  lemma {:induction false} KilledReadIsCancelled(s: State, steps: seq<Step>, l: LeaseId)
    requires Inv(s.vault) && IsRun(s, steps) && l in s.vault.leases && !BadRequest(s.vault.leases[l].request)
    requires DoDrop(l) !in steps
    requires exists k | 0 <= k < |steps| :: Kills(steps[k], s.vault.leases[l])
    ensures IsCancelled(After(s, steps).vault.cancels, s.vault.leases[l].cancel)
    decreases |steps|
  {
    hide Inv, Apply, Enabled, IsCancelled, Kills, BadRequest;
    var lease := s.vault.leases[l];
    var k :| 0 <= k < |steps| && Kills(steps[k], lease);
    StepKeepsInv(s, steps[0]);
    if k == 0 {
      KillingCancels(s, steps[0], l);
      CancelledReadsStayCancelled(Apply(s, steps[0]), steps[1..], lease.cancel);
    } else {
      LeaseStays(s, steps[0], l);
      assert steps[1..][k - 1] == steps[k];
      KilledReadIsCancelled(Apply(s, steps[0]), steps[1..], l);
    }
  }

  /**
   A read begun under a grant gives its file only if the grant is at its end still there and
   unexpired, and nobody in the meantime locked the grant or its scope or cancelled the request.
   */
  lemma ReadsGiveDataOnlyUndisturbed(s: State, scope: Scope, token: Token, request: RequestId, begun: int, steps: seq<Step>, raced: Result<string>, now: int)
    requires Inv(s.vault)
    requires BeginRead(s, scope, token, request, begun).1.Ok?
    requires var (s1, r) := BeginRead(s, scope, token, request, begun); IsRun(s1, steps) && DoDrop(r.value) !in steps
    ensures var (s1, r) := BeginRead(s, scope, token, request, begun);
            var lease := s1.vault.leases[r.value];
            var end := After(s1, steps);
            FinishRead(end, lease, raced, now).Ok? ==>
              Valid(end, scope, token, now) && FinishRead(end, lease, raced, now) == raced &&
              forall k | 0 <= k < |steps| :: !Kills(steps[k], Lease(scope, token, request, lease.cancel, lease.expires))
  {
    var (s1, r) := BeginRead(s, scope, token, request, begun);
    BeginKeepsInv(s, scope, token, request, begun);
    if exists k | 0 <= k < |steps| :: Kills(steps[k], s1.vault.leases[r.value]) {
      KilledReadIsCancelled(s1, steps, r.value);
    }
  }

  /** The whole of `read`: refused at once, or begun, then whatever `steps` bring, then the end. */
  function Read(s: State, scope: Scope, token: Token, request: RequestId, begun: int, steps: seq<Step>, raced: Result<string>, now: int): Result<string>
  {
    var (s1, r) := BeginRead(s, scope, token, request, begun);
    match r
    case Err(error) => Err(error)
    case Ok(l) => FinishRead(After(s1, steps), s1.vault.leases[l], raced, now)
  }

  /** The race is won by the cancellation only when the lease is cancelled. */
  ghost predicate RaceIsFair(s: State, scope: Scope, token: Token, request: RequestId, begun: int, steps: seq<Step>, raced: Result<string>)
  {
    var (s1, r) := BeginRead(s, scope, token, request, begun);
    r.Ok? && raced == Err(Cancelled) ==> IsCancelled(After(s1, steps).vault.cancels, s1.vault.leases[r.value].cancel)
  }

  /** What the caller finds remembered when the read begins. */
  ghost predicate Remembered(s: State, scope: Scope, token: Token, request: RequestId, begun: int)
  {
    && s.config.enabled
    && token in s.vault.grants && s.vault.grants[token].scope == scope && s.vault.grants[token].expires > begun
    && !BadRequest(request)
    && token in s.vault.history && request in LastN(s.vault.history[token], MAX_CANCELS)
  }

  /**
   A read answers "cancelled" exactly when its request was already remembered as cancelled at the
   start.  One that is cancelled later, or whose grant is locked, answers "locked".
   */
  lemma ReadIsCancelledExactly(s: State, scope: Scope, token: Token, request: RequestId, begun: int, steps: seq<Step>, raced: Result<string>, now: int)
    requires Inv(s.vault)
    requires BeginRead(s, scope, token, request, begun).1.Ok? ==> IsRun(BeginRead(s, scope, token, request, begun).0, steps)
    requires RaceIsFair(s, scope, token, request, begun, steps, raced)
    ensures Read(s, scope, token, request, begun, steps, raced, now) == Err(Cancelled) <==> Remembered(s, scope, token, request, begun)
    ensures var (s1, r) := BeginRead(s, scope, token, request, begun);
            r.Ok? && DoDrop(r.value) !in steps && (exists k | 0 <= k < |steps| :: Kills(steps[k], s1.vault.leases[r.value])) ==>
              Read(s, scope, token, request, begun, steps, raced, now) == Err(Locked)
  {
    var (s1, r) := BeginRead(s, scope, token, request, begun);
    if token in s.vault.grants {
      assert GrantLinked(s.vault, token, s.vault.grants[token]);
    }
    BeginKeepsInv(s, scope, token, request, begun);
    hide Inv, IsRun, After, Valid, IsCancelled, Kills;
    if r.Ok? && DoDrop(r.value) !in steps && exists k | 0 <= k < |steps| :: Kills(steps[k], s1.vault.leases[r.value]) {
      KilledReadIsCancelled(s1, steps, r.value);
    }
  }

  /** A run in which the read's own cancellation is reported as "locked", and only a second try as "cancelled". */
  lemma CancelledReadSaysLocked(hash: string, scope: Scope, token: Token, request: RequestId)
    requires !BadRequest(request)
    ensures var u := UnlockCall(scope, 8, 8, false, false, Verified, 0, 0, token, token);
            var s0 := Initial(Config(true, false), Some(hash));
            var s := Apply(s0, DoUnlock(u));
            var cancel := DoCancel(scope, token, request);
            && Enabled(s0, DoUnlock(u))
            && BeginRead(s, scope, token, request, 0).1 == Ok(0)
            && IsRun(BeginRead(s, scope, token, request, 0).0, [cancel])
            && RaceIsFair(s, scope, token, request, 0, [cancel], Err(Cancelled))
            && Read(s, scope, token, request, 0, [cancel], Err(Cancelled), 1) == Err(Locked)
            && Read(Apply(s, cancel), scope, token, request, 0, [], Err(Cancelled), 1) == Err(Cancelled)
  {
    var u := UnlockCall(scope, 8, 8, false, false, Verified, 0, 0, token, token);
    var s0 := Initial(Config(true, false), Some(hash));
    var kept := s0.vault.grants - Expired(s0.vault.grants, 0);
    assert kept == map[] && InScope(kept, scope) == {};
    FirstGrant(s0, u);
    hide Unlock;
    CancelDuringRead(Apply(s0, DoUnlock(u)), scope, token, request);
  }

  lemma CancelDuringRead(s: State, scope: Scope, token: Token, request: RequestId)
    requires s.config == Config(true, false) && !BadRequest(request)
    requires s.vault == Vault(map[token := Grant(scope, GRANT_TTL, 0, map[], [])], Cancels(map[], {}, 1), map[], 0, {token}, map[token := []])
    ensures var cancel := DoCancel(scope, token, request);
            && BeginRead(s, scope, token, request, 0).1 == Ok(0)
            && IsRun(BeginRead(s, scope, token, request, 0).0, [cancel])
            && RaceIsFair(s, scope, token, request, 0, [cancel], Err(Cancelled))
            && Read(s, scope, token, request, 0, [cancel], Err(Cancelled), 1) == Err(Locked)
            && Read(Apply(s, cancel), scope, token, request, 0, [], Err(Cancelled), 1) == Err(Cancelled)
  {
    var cancel := DoCancel(scope, token, request);
    var s1 := BeginRead(s, scope, token, request, 0).0;
    assert s1.vault.leases[0] == Lease(scope, token, request, 1, GRANT_TTL);
    var s2 := Apply(s1, cancel);
    assert After(s1, [cancel]) == s2 && 1 in s2.vault.cancels.cancelled;
    assert request in Apply(s, cancel).vault.grants[token].cancelled;
  }

  lemma FirstGrant(s: State, u: UnlockCall)
    requires s.vault == Initial(s.config, s.door.hash).vault && Unlock(s, u).1.Ok?
    ensures Unlock(s, u).0.vault ==
            Vault(map[u.token := Grant(u.scope, u.later + GRANT_TTL, 0, map[], [])], Cancels(map[], {}, 1), map[], 0, {u.token}, map[u.token := []])
  {
    hide Knock;
    assert InScope(s.vault.grants, u.scope) == {};
    assert RemoveGrants(s.vault, Expired(s.vault.grants, u.later)) == s.vault;
    assert {} + {u.token} == {u.token};
  }

  /** How many cancel requests of a run name this token. */
  function CancelsOf(steps: seq<Step>, token: Token): nat
  {
    if steps == [] then 0 else (if steps[0].DoCancel? && steps[0].token == token then 1 else 0) + CancelsOf(steps[1..], token)
  }

  lemma HistoryOfStep(s: State, step: Step, token: Token)
    requires Inv(s.vault) && Enabled(s, step) && token in s.vault.history
    ensures token in Apply(s, step).vault.history
    ensures Apply(s, step).vault.history[token] == s.vault.history[token] ||
            (step.DoCancel? && step.token == token && Apply(s, step).vault.history[token] == s.vault.history[token] + [step.request])
  {
    hide Knock, InScope, Expired, LeasesLinked, FewGrants;
  }

  lemma {:induction false} HistoryOfRun(s: State, steps: seq<Step>, token: Token)
    requires Inv(s.vault) && IsRun(s, steps) && token in s.vault.history
    ensures token in After(s, steps).vault.history
    ensures s.vault.history[token] <= After(s, steps).vault.history[token]
    ensures |After(s, steps).vault.history[token]| <= |s.vault.history[token]| + CancelsOf(steps, token)
    decreases |steps|
  {
    hide Inv, Apply, Enabled;
    if steps != [] {
      StepKeepsInv(s, steps[0]);
      HistoryOfStep(s, steps[0], token);
      HistoryOfRun(Apply(s, steps[0]), steps[1..], token);
    }
  }

  /** A request is refused as cancelled exactly when it is among the last sixty-four cancelled under the grant. */
  lemma RefusedExactlyWhenRemembered(s: State, scope: Scope, token: Token, request: RequestId, now: int)
    requires Inv(s.vault) && s.config.enabled && !BadRequest(request)
    requires token in s.vault.grants && s.vault.grants[token].scope == scope && s.vault.grants[token].expires > now
    ensures token in s.vault.history
    ensures BeginRead(s, scope, token, request, now).1 == Err(Cancelled) <==> request in LastN(s.vault.history[token], MAX_CANCELS)
  {
    assert GrantLinked(s.vault, token, s.vault.grants[token]);
  }

  /** A cancellation that overtakes its read stops it, unless sixty-four others on the grant come in between. */
  lemma CancelBeforeReadStopsIt(s: State, scope: Scope, token: Token, request: RequestId, steps: seq<Step>, now: int)
    requires Inv(s.vault) && !BadRequest(request)
    requires token in s.vault.grants && s.vault.grants[token].scope == scope
    requires IsRun(Apply(s, DoCancel(scope, token, request)), steps) && CancelsOf(steps, token) < MAX_CANCELS
    ensures BeginRead(After(Apply(s, DoCancel(scope, token, request)), steps), scope, token, request, now).1.Err?
  {
    var s1 := Apply(s, DoCancel(scope, token, request));
    assert GrantLinked(s.vault, token, s.vault.grants[token]);
    CancelKeepsInv(s.vault, scope, token, request);
    RunKeepsInv(s1, steps);
    HistoryOfRun(s1, steps, token);
    hide Inv, IsRun, Apply;
    var end := After(s1, steps);
    var h0, h := s1.vault.history[token], end.vault.history[token];
    assert h0[|h0| - 1] == request == h[|h0| - 1];
    assert |h| <= |h0| + 63;
    RecentlyAdded(h0, h, MAX_CANCELS);
    if BeginRead(end, scope, token, request, now).1.Ok? {
      RefusedExactlyWhenRemembered(end, scope, token, request, now);
    }
  }

  lemma RecentlyAdded(h0: seq<RequestId>, h: seq<RequestId>, n: nat)
    requires h0 != [] && h0 <= h && |h| < |h0| + n
    ensures h0[|h0| - 1] in LastN(h, n)
  {
    if |h| > n {
      assert LastN(h, n)[|h0| - 1 - (|h| - n)] == h[|h0| - 1];
    } else {
      assert h[|h0| - 1] == h0[|h0| - 1];
    }
  }

  // ---- The lockout ----

  predicate FailsToVerify(s: State, step: Step)
  {
    step.DoUnlock? && Unlock(s, step.u).1 == Err(WrongPassphrase)
  }

  predicate Succeeds(s: State, step: Step)
  {
    step.DoUnlock? && Unlock(s, step.u).1.Ok?
  }

  function Failures(s: State, steps: seq<Step>): nat
    decreases |steps|
  {
    if steps == [] then 0 else (if FailsToVerify(s, steps[0]) then 1 else 0) + Failures(Apply(s, steps[0]), steps[1..])
  }

  ghost predicate NoSuccess(s: State, steps: seq<Step>)
    decreases |steps|
  {
    steps == [] || (!Succeeds(s, steps[0]) && NoSuccess(Apply(s, steps[0]), steps[1..]))
  }

  /** Every unlock call read its clock between `t0` and `t1`. */
  ghost predicate Within(steps: seq<Step>, t0: int, t1: int)
  {
    forall k | 0 <= k < |steps| && steps[k].DoUnlock? :: t0 <= steps[k].u.now <= t1
  }

  /** The failures so far: five for each of `locks` completed lockouts and those counted since. */
  ghost predicate Counted(d: Door, n: nat, locks: nat, t0: int)
  {
    && d.failures < MAX_FAILURES
    && n <= MAX_FAILURES * locks + d.failures
    && (locks > 0 ==> d.retryAt.Some? && d.retryAt.value >= t0 + LOCKOUT * locks)
  }

  function Bound(t0: int, t1: int): int
    requires t0 <= t1
  {
    MAX_FAILURES * ((t1 - t0) / LOCKOUT + 1)
  }

  /** A failure that gets through finds the lockouts before it over, so that many times thirty seconds have passed. */
  lemma FailureIsBounded(d: Door, n: nat, locks: nat, t0: int, now: int, t1: int)
    requires Counted(d, n, locks, t0) && t0 <= now <= t1
    requires d.retryAt.Some? ==> d.retryAt.value <= now
    ensures n + 1 <= Bound(t0, t1)
  {
    assert locks > 0 ==> LOCKOUT * locks <= now - t0;
    assert locks <= (t1 - t0) / LOCKOUT;
  }

  lemma {:induction false} LockoutHolds(s: State, steps: seq<Step>, t0: int, t1: int, n: nat, locks: nat)
    requires IsRun(s, steps) && NoSuccess(s, steps) && Within(steps, t0, t1) && t0 <= t1
    requires Counted(s.door, n, locks, t0) && n <= Bound(t0, t1)
    ensures n + Failures(s, steps) <= Bound(t0, t1)
    ensures After(s, steps).door.failures < MAX_FAILURES
    decreases |steps|
  {
    hide Bound;
    if steps != [] {
      var step, s1 := steps[0], Apply(s, steps[0]);
      assert Within(steps[1..], t0, t1);
      if FailsToVerify(s, step) {
        FailureIsBounded(s.door, n, locks, t0, step.u.now, t1);
        LockoutHolds(s1, steps[1..], t0, t1, n + 1, if s.door.failures + 1 >= MAX_FAILURES then locks + 1 else locks);
      } else {
        DoorStays(s, step);
        LockoutHolds(s1, steps[1..], t0, t1, n, locks);
      }
    }
  }

  lemma DoorStays(s: State, step: Step)
    requires !FailsToVerify(s, step) && !Succeeds(s, step)
    ensures Apply(s, step).door == s.door
  {
  }

  /** From any state of the counter, and over any span without a success, failed verifications are rationed: five for each thirty seconds begun. */
  lemma FailuresAreRationed(s: State, steps: seq<Step>, t0: int, t1: int)
    requires IsRun(s, steps) && NoSuccess(s, steps) && Within(steps, t0, t1) && t0 <= t1
    requires s.door.failures < MAX_FAILURES
    ensures Failures(s, steps) <= 5 * ((t1 - t0) / 30_000 + 1)
  {
    LockoutHolds(s, steps, t0, t1, 0, 0);
  }

  /** Between calls the counter is at most four, and a configured hash stays. */
  lemma {:induction false} CounterAndHash(s: State, steps: seq<Step>)
    requires IsRun(s, steps) && s.door.failures < MAX_FAILURES
    ensures After(s, steps).door.failures < MAX_FAILURES
    ensures s.door.hash.Some? ==> After(s, steps).door.hash == s.door.hash
    decreases |steps|
  {
    if steps != [] {
      DoorStep(s, steps[0]);
      hide Apply;
      CounterAndHash(Apply(s, steps[0]), steps[1..]);
    }
  }

  lemma DoorStep(s: State, step: Step)
    requires s.door.failures < MAX_FAILURES && Enabled(s, step)
    ensures Apply(s, step).door.failures < MAX_FAILURES
    ensures s.door.hash.Some? ==> Apply(s, step).door.hash == s.door.hash
  {
  }

  // ---- Unlocking ----

  /** What a call must satisfy before its passphrase is looked at. */
  predicate LetIn(s: State, u: UnlockCall)
  {
    && s.config.enabled && !s.config.configError
    && u.bytes <= 1024 && u.chars >= 8
    && (s.door.retryAt.Some? ==> s.door.retryAt.value <= u.now)
    && (u.setup ==> u.canConfigure) && (u.setup <==> s.door.hash.None?)
  }

  /** An unlock succeeds exactly when it is let in and its passphrase is stored or verified; success ends counting and lockout. */
  lemma UnlockSucceedsExactly(s: State, u: UnlockCall)
    requires Enabled(s, DoUnlock(u))
    ensures Unlock(s, u).1.Ok? <==> LetIn(s, u) && (u.outcome.Stored? || u.outcome.Verified?)
    ensures Unlock(s, u).1 == Err(WrongPassphrase) <==> LetIn(s, u) && u.outcome.Wrong?
    ensures Unlock(s, u).1.Ok? ==>
              Unlock(s, u).0.door == Door(if u.setup then Some(u.outcome.hash) else s.door.hash, 0, None)
    ensures Unlock(s, u).1.Err? ==> Unlock(s, u).0.vault == s.vault
  {
    hide MakeRoom, AddGrant;
  }

  /** The grant given is good for eight hours, in its scope only. */
  lemma NewGrantLastsEightHours(s: State, u: UnlockCall, scope: Scope, now: int)
    requires Inv(s.vault) && Enabled(s, DoUnlock(u)) && Unlock(s, u).1.Ok?
    ensures Valid(Unlock(s, u).0, scope, u.token, now) <==> scope == u.scope && now < u.later + 8 * 3_600_000
  {
    UnlockKeepsInv(s, u);
    var s1 := Unlock(s, u).0;
    assert u.token in s1.vault.grants && GrantLinked(s1.vault, u.token, s1.vault.grants[u.token]);
    assert s.config.enabled by { UnlockSucceedsExactly(s, u); }
    assert s1.vault.grants[u.token] == Grant(u.scope, u.later + GRANT_TTL, s1.vault.grants[u.token].cancel, map[], []) by {
      hide MakeRoom, Knock;
    }
    hide Unlock, GrantsLinked;
  }

  /**
   A successful unlock takes away only what has expired and, when the scope is full, one grant of the
   scope that expires no later than those it keeps.
   */
  lemma UnlockRemovesOnlyTheOldest(s: State, u: UnlockCall, t: Token)
    requires Inv(s.vault) && Enabled(s, DoUnlock(u)) && Unlock(s, u).1.Ok? && t in s.vault.grants
    ensures var v := Unlock(s, u).0.vault;
            var g := s.vault.grants[t];
            && (t in v.grants ==> v.grants[t] == g && g.expires > u.later)
            && (t !in v.grants && g.expires > u.later ==>
                  && g.scope == u.scope
                  && forall k | k in v.grants && k != u.token && v.grants[k].scope == u.scope :: g.expires <= v.grants[k].expires)
  {
    hide Knock, IsCancelled;
    var v := Unlock(s, u).0.vault;
    assert GrantLinked(s.vault, t, s.vault.grants[t]);
    var kept := s.vault.grants - Expired(s.vault.grants, u.later);
    assert RemoveGrants(s.vault, Expired(s.vault.grants, u.later)).grants == kept;
    if |InScope(kept, u.scope)| >= MAX_GRANTS {
      assert v.grants == (kept - {u.oldest})[u.token := v.grants[u.token]];
      assert IsOldest(kept, u.scope, u.oldest);
      forall k | k in v.grants && k != u.token && v.grants[k].scope == u.scope
        ensures kept[u.oldest].expires <= v.grants[k].expires
      {
        assert k in InScope(kept, u.scope);
      }
    } else {
      assert v.grants == kept[u.token := v.grants[u.token]];
    }
  }
}
