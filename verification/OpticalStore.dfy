/**
 The optical grants on mutable fields, as the server holds them behind one mutex.  Each method is
 one critical section and is proved against the function of the same operation in `Optical`.
 */
module OpticalStore {
  import opened Prelude
  import opened Optical

  /** The cancellation tokens given out so far. */
  class CancelTree {
    var parents: map<Cancel, Cancel>
    var cancelled: set<Cancel>
    var next: Cancel

    ghost function Abs(): Cancels
      reads this
    {
      Cancels(parents, cancelled, next)
    }

    constructor ()
      ensures Abs() == Cancels(map[], {}, 0)
    {
      parents, cancelled, next := map[], {}, 0;
    }

    method NewRoot() returns (c: Cancel)
      modifies this`next
      ensures c == old(next) && next == c + 1
    {
      c := next;
      next := next + 1;
    }

    method Child(parent: Cancel) returns (c: Cancel)
      modifies this`next, this`parents
      ensures c == old(next) && next == c + 1 && parents == old(parents)[c := parent]
    {
      c := next;
      next := next + 1;
      parents := parents[c := parent];
    }

    method CancelToken(c: Cancel)
      modifies this`cancelled
      ensures cancelled == old(cancelled) + {c}
    {
      cancelled := cancelled + {c};
    }

    predicate Cancelled(c: Cancel)
      reads this
      ensures Cancelled(c) == IsCancelled(Abs(), c)
    {
      c in cancelled || (c in parents && parents[c] in cancelled)
    }
  }

  /** The passphrase: hash, failure counter and lockout. */
  class Passphrase {
    var hash: Option<string>
    var failures: nat
    var retryAt: Option<int>

    ghost function Abs(): Door
      reads this
    {
      Door(hash, failures, retryAt)
    }

    constructor (h: Option<string>)
      ensures Abs() == Door(h, 0, None)
    {
      hash, failures, retryAt := h, 0, None;
    }

    /** The part of `unlock_sync` before any grant is touched. */
    method Check(config: Config, u: UnlockCall) returns (r: Result<Token>)
      modifies this
      ensures (Abs(), r) == Knock(config, old(Abs()), u)
    {
      if !config.enabled { return Err(Disabled); }
      if u.bytes > 1024 || u.chars < 8 { return Err(PassphraseLength); }
      if config.configError { return Err(ConfigError); }
      if retryAt.Some? && retryAt.value > u.now { return Err(TryLater); }
      if u.setup {
        if !u.canConfigure { return Err(AdminRequired); }
        if hash.Some? { return Err(AlreadyConfigured); }
      } else if hash.None? {
        return Err(NotConfigured);
      }
      match u.outcome {
        case Stored(h) => hash := Some(h);
        case StoreFailed => return Err(ConfigError);
        case Corrupt => return Err(ConfigError);
        case Wrong =>
          failures := failures + 1;
          if failures >= MAX_FAILURES {
            retryAt := Some(u.later + LOCKOUT);
            failures := 0;
          }
          return Err(WrongPassphrase);
        case Verified =>
      }
      failures := 0;
      retryAt := None;
      r := Ok(u.token);
    }
  }

  predicate Enables(config: Config)
  {
    config.enabled
  }

  class Grants {
    const tree: CancelTree
    var grants: map<Token, Grant>
    var leases: map<LeaseId, Lease>
    var nextLease: LeaseId
    var issued: set<Token>
    var history: map<Token, seq<RequestId>>

    ghost function Abs(): Vault
      reads this, tree
    {
      Vault(grants, tree.Abs(), leases, nextLease, issued, history)
    }

    constructor ()
      ensures Abs() == Initial(Config(true, false), None).vault && fresh(tree)
    {
      tree := new CancelTree();
      grants, leases, nextLease, issued, history := map[], map[], 0, {}, map[];
    }

    /** One grant goes, and its token is cancelled. */
    method Remove(t: Token)
      requires t in grants
      modifies this`grants, tree`cancelled
      ensures Abs() == RemoveGrants(old(Abs()), {t})
    {
      tree.CancelToken(grants[t].cancel);
      grants := grants - {t};
      assert (set u | u in {t} && u in old(grants) :: old(grants)[u].cancel) == {old(grants)[t].cancel};
    }

    /** `retain`: whatever is expired goes, the rest stays. */
    method Prune(now: int)
      modifies this`grants, tree`cancelled
      ensures Abs() == RemoveGrants(old(Abs()), Expired(old(grants), now))
    {
      var todo := grants.Keys;
      ghost var gone: set<Token> := {};
      RemoveNothing(Abs());
      while todo != {}
        invariant todo <= grants.Keys
        invariant gone == set t | t in old(grants) && t !in todo && old(grants)[t].expires <= now
        invariant Abs() == RemoveGrants(old(Abs()), gone)
        decreases todo
      {
        var t :| t in todo;
        todo := todo - {t};
        if grants[t].expires <= now {
          Remove(t);
          RemoveMore(old(Abs()), gone, t);
          gone := gone + {t};
        }
      }
      assert gone == Expired(old(grants), now);
    }

    method LockAll(scope: Scope)
      modifies this`grants, tree`cancelled
      ensures Abs() == LockScope(old(Abs()), scope)
    {
      var todo := grants.Keys;
      ghost var gone: set<Token> := {};
      RemoveNothing(Abs());
      while todo != {}
        invariant todo <= grants.Keys
        invariant gone == set t | t in old(grants) && t !in todo && old(grants)[t].scope == scope
        invariant Abs() == RemoveGrants(old(Abs()), gone)
        decreases todo
      {
        var t :| t in todo;
        todo := todo - {t};
        if grants[t].scope == scope {
          Remove(t);
          RemoveMore(old(Abs()), gone, t);
          gone := gone + {t};
        }
      }
      assert gone == InScope(old(grants), scope);
    }

    /** `min_by_key` over the scope's grants. */
    method Oldest(scope: Scope) returns (oldest: Token)
      requires InScope(grants, scope) != {}
      ensures IsOldest(grants, scope, oldest)
    {
      var own := InScope(grants, scope);
      oldest :| oldest in own;
      var todo := own - {oldest};
      while todo != {}
        invariant todo <= own && oldest in own
        invariant forall t | t in own - todo :: grants[oldest].expires <= grants[t].expires
        decreases todo
      {
        var t :| t in todo;
        todo := todo - {t};
        if grants[t].expires < grants[oldest].expires {
          oldest := t;
        }
      }
    }

    /** Which grant makes room is up to the map's order among equals. */
    method MakeRoomFor(u: UnlockCall) returns (oldest: Token)
      modifies this`grants, tree`cancelled
      ensures Abs() == MakeRoom(old(Abs()), u.(oldest := oldest))
      ensures var kept := old(grants) - Expired(old(grants), u.later);
              |InScope(kept, u.scope)| >= MAX_GRANTS ==> IsOldest(kept, u.scope, oldest)
    {
      hide Expired;
      oldest := u.oldest;
      Prune(u.later);
      assert grants == old(grants) - Expired(old(grants), u.later);
      if |InScope(grants, u.scope)| >= MAX_GRANTS {
        oldest := Oldest(u.scope);
        Remove(oldest);
      }
    }

    /** The part of `unlock_sync` after a success. */
    method Admit(u: UnlockCall) returns (oldest: Token)
      modifies this, tree
      ensures Abs() == AddGrant(MakeRoom(old(Abs()), u.(oldest := oldest)), u)
      ensures var kept := old(grants) - Expired(old(grants), u.later);
              |InScope(kept, u.scope)| >= MAX_GRANTS ==> IsOldest(kept, u.scope, oldest)
    {
      hide Expired, MakeRoom, InScope, IsOldest;
      oldest := MakeRoomFor(u);
      var c := tree.NewRoot();
      grants := grants[u.token := Grant(u.scope, u.later + GRANT_TTL, c, map[], [])];
      issued := issued + {u.token};
      history := history[u.token := []];
    }

    method LockOne(scope: Scope, token: Token)
      modifies this`grants, tree`cancelled
      ensures Abs() == Lock(old(Abs()), scope, token)
    {
      if token in grants && grants[token].scope == scope {
        Remove(token);
      }
    }

    method CancelRequest(scope: Scope, token: Token, request: RequestId)
      modifies this, tree
      ensures Abs() == CancelRead(old(Abs()), scope, token, request)
    {
      if request == "" || |request| > 128 {
        return;
      }
      if token in grants && grants[token].scope == scope {
        var g := grants[token];
        if request in g.running {
          tree.CancelToken(g.running[request]);
        } else {
          assert tree.cancelled + {} == tree.cancelled;
        }
        if |g.cancelled| == MAX_CANCELS {
          g := g.(cancelled := g.cancelled[1..]);
        }
        g := g.(cancelled := g.cancelled + [request]);
        grants := grants[token := g];
        if token in history {
          history := history[token := history[token] + [request]];
        }
      }
    }

    method Begin(scope: Scope, token: Token, request: RequestId, now: int) returns (r: Result<LeaseId>)
      modifies this, tree
      ensures forall config, door | Enables(config) ::
                (State(config, door, Abs()), r) == BeginRead(State(config, door, old(Abs())), scope, token, request, now)
    {
      if token !in grants || grants[token].scope != scope || grants[token].expires <= now { return Err(Locked); }
      if request == "" || |request| > 128 { return Err(InvalidRequest); }
      var g := grants[token];
      if request in g.cancelled { return Err(Cancelled); }
      if g.running != map[] { return Err(Busy); }
      var c := tree.Child(g.cancel);
      grants := grants[token := g.(running := g.running[request := c])];
      leases := leases[nextLease := Lease(scope, token, request, c, g.expires)];
      r := Ok(nextLease);
      nextLease := nextLease + 1;
    }

    method Drop(l: LeaseId)
      requires l in leases
      modifies this`grants, this`leases
      ensures Abs() == DropLease(old(Abs()), l)
    {
      var lease := leases[l];
      if lease.token in grants {
        var g := grants[lease.token];
        grants := grants[lease.token := g.(running := g.running - {lease.request})];
      }
      leases := leases - {l};
    }
  }

  lemma RemoveNothing(v: Vault)
    ensures RemoveGrants(v, {}) == v
  {
    assert v.grants - {} == v.grants;
    assert v.cancels.cancelled + {} == v.cancels.cancelled;
  }

  lemma RemoveMore(v: Vault, gone: set<Token>, t: Token)
    requires t !in gone
    ensures RemoveGrants(RemoveGrants(v, gone), {t}) == RemoveGrants(v, gone + {t})
  {
    assert v.grants - gone - {t} == v.grants - (gone + {t});
  }

  /** Passphrase and grants behind the mutex. */
  class OpticalState {
    const config: Config
    const door: Passphrase
    const vault: Grants

    ghost function Abs(): State
      reads this, door, vault, vault.tree
    {
      State(config, door.Abs(), vault.Abs())
    }

    constructor (c: Config, hash: Option<string>)
      ensures Abs() == Initial(c, hash)
    {
      config := c;
      door := new Passphrase(hash);
      vault := new Grants();
    }

    method UnlockSync(u: UnlockCall) returns (r: Result<Token>, ghost oldest: Token)
      modifies door, vault, vault.tree
      ensures (Abs(), r) == Unlock(old(Abs()), u.(oldest := oldest))
      ensures r.Ok? ==> var kept := old(vault.grants) - Expired(old(vault.grants), u.later);
                        |InScope(kept, u.scope)| >= MAX_GRANTS ==> IsOldest(kept, u.scope, oldest)
    {
      hide MakeRoom, AddGrant;
      oldest := u.oldest;
      r := door.Check(config, u);
      if r.Ok? {
        oldest := vault.Admit(u);
        SameRoom(u, oldest);
      }
    }

    predicate IsValid(scope: Scope, token: Token, now: int)
      reads this, vault, vault.tree
      ensures IsValid(scope, token, now) == (
              && config.enabled && token in vault.grants && vault.grants[token].scope == scope
              && vault.grants[token].expires > now && !IsCancelled(vault.tree.Abs(), vault.grants[token].cancel))
    {
      config.enabled && token in vault.grants &&
      var g := vault.grants[token]; g.scope == scope && g.expires > now && !vault.tree.Cancelled(g.cancel)
    }

    /** `begin_read` */
    method StartRead(scope: Scope, token: Token, request: RequestId, now: int) returns (r: Result<LeaseId>)
      modifies vault, vault.tree
      ensures (Abs(), r) == BeginRead(old(Abs()), scope, token, request, now)
    {
      hide BadRequest, IsCancelled;
      if !config.enabled { return Err(Disabled); }
      r := vault.Begin(scope, token, request, now);
    }

    /** The last lines of `read`. */
    method Finish(lease: Lease, raced: Result<string>, now: int) returns (r: Result<string>)
      ensures r == FinishRead(Abs(), lease, raced, now)
      ensures IsCancelled(vault.tree.Abs(), lease.cancel) ==> r == Err(Locked)
    {
      if vault.tree.Cancelled(lease.cancel) || !IsValid(lease.scope, lease.token, now) {
        return Err(Locked);
      }
      r := raced;
    }
  }

  lemma SameRoom(u: UnlockCall, oldest: Token)
    ensures forall w: Vault :: AddGrant(w, u) == AddGrant(w, u.(oldest := oldest))
  {
  }
}
