/**
 The metadata cache of the database panes: one promise per connection and key, shared while it is in
 flight, kept for a minute after it resolved, and given up when the connection is refreshed.

 A cache object and a promise are each named by a number.  `State` remembers, beyond the maps of the
 module, every invalidation, load and call of the run.
 */
module MetadataCache {
  import opened Prelude

  type Conn = string
  type Key = string
  type CacheId = nat
  type LoadId = nat

  const TTL := 60_000
  const KINDS: seq<string> := ["namespace:", "columns:", "relations:"]

  /** `expires` is `None` while the load is in flight: it never expires then. */
  datatype Entry = Entry(expires: Option<int>, load: LoadId)

  /** `seen` counts the invalidations that had happened when a load settled. */
  datatype Outcome = Pending | Resolved(at: int, seen: nat) | Superseded(seen: nat) | Failed

  datatype Load = Load(conn: Conn, key: Key, cache: CacheId, began: nat, outcome: Outcome)

  /** A call of `cached`, the load whose promise it returned, and when. */
  datatype Call = Call(conn: Conn, key: Key, load: LoadId, seen: nat, now: int)

  /** Empty strings stand for absent arguments: the source tests them for being truthy. */
  datatype Invalidation = Invalidation(conn: string, schema: string)

  datatype State = State(
    caches: map<Conn, CacheId>,
    stores: map<CacheId, map<Key, Entry>>,
    nextCache: CacheId,
    loads: seq<Load>,
    calls: seq<Call>,
    invalidations: seq<Invalidation>)

  const EMPTY := State(map[], map[], 0, [], [], [])

  predicate IsKeyOf(key: Key, schema: string)
  {
    exists k | 0 <= k < |KINDS| :: key == KINDS[k] + schema
  }

  /** Whether an invalidation is meant for a key. */
  predicate Covers(i: Invalidation, conn: Conn, key: Key)
  {
    if i.conn != "" && i.schema != "" then i.conn == conn && IsKeyOf(key, i.schema)
    else if i.conn != "" then i.conn == conn
    else true
  }

  /** No invalidation of the key from number `from` up to `to`. */
  predicate Untouched(past: seq<Invalidation>, conn: Conn, key: Key, from: nat, to: nat)
  {
    forall k | from <= k < to && k < |past| :: !Covers(past[k], conn, key)
  }

  predicate HasEntry(s: State, conn: Conn, key: Key)
  {
    conn in s.caches && s.caches[conn] in s.stores && key in s.stores[s.caches[conn]]
  }

  function EntryOf(s: State, conn: Conn, key: Key): Entry
    requires HasEntry(s, conn, key)
  {
    s.stores[s.caches[conn]][key]
  }

  /** `cacheFor`. */
  function WithCache(s: State, conn: Conn): State
  {
    if conn in s.caches then s
    else s.(caches := s.caches[conn := s.nextCache], stores := s.stores[s.nextCache := map[]], nextCache := s.nextCache + 1)
  }

  function PutEntry(s: State, c: CacheId, key: Key, e: Entry): State
  {
    if c in s.stores then s.(stores := s.stores[c := s.stores[c][key := e]]) else s
  }

  function DeleteEntry(s: State, c: CacheId, key: Key): State
  {
    if c in s.stores then s.(stores := s.stores[c := s.stores[c] - {key}]) else s
  }

  predicate Alive(e: Entry, now: int)
  {
    e.expires.None? || e.expires.value > now
  }

  /** `cached`: join the entry's promise or begin a load and make it the entry. */
  function Cached(s: State, conn: Conn, key: Key, now: int): (State, LoadId)
  {
    var s1 := WithCache(s, conn);
    var seen := |s.invalidations|;
    if HasEntry(s1, conn, key) && Alive(EntryOf(s1, conn, key), now) then
      var p := EntryOf(s1, conn, key).load;
      (s1.(calls := s.calls + [Call(conn, key, p, seen, now)]), p)
    else
      var p, c := |s.loads|, s1.caches[conn];
      (PutEntry(s1, c, key, Entry(None, p)).(
         loads := s.loads + [Load(conn, key, c, seen, Pending)],
         calls := s.calls + [Call(conn, key, p, seen, now)]), p)
  }

  /** Whether load `p` is still what its key's entry waits for, in the cache its connection has now. */
  predicate Current(s: State, p: LoadId)
    requires p < |s.loads|
  {
    var l := s.loads[p];
    HasEntry(s, l.conn, l.key) && s.caches[l.conn] == l.cache && EntryOf(s, l.conn, l.key).load == p
  }

  predicate Holds(s: State, p: LoadId)
    requires p < |s.loads|
  {
    var l := s.loads[p];
    l.cache in s.stores && l.key in s.stores[l.cache] && s.stores[l.cache][l.key].load == p
  }

  function Forget(s: State, p: LoadId): State
    requires p < |s.loads|
  {
    if Holds(s, p) then DeleteEntry(s, s.loads[p].cache, s.loads[p].key) else s
  }

  function SetOutcome(s: State, p: LoadId, o: Outcome): State
    requires p < |s.loads|
  {
    s.(loads := s.loads[p := s.loads[p].(outcome := o)])
  }

  /** The load's own promise resolved at `now`. */
  function Resolve(s: State, p: LoadId, now: int): State
    requires p < |s.loads|
  {
    var l, seen := s.loads[p], |s.invalidations|;
    if Current(s, p) then SetOutcome(PutEntry(s, l.cache, l.key, Entry(Some(now + TTL), p)), p, Resolved(now, seen))
    else SetOutcome(Forget(s, p), p, Superseded(seen))
  }

  function Reject(s: State, p: LoadId): State
    requires p < |s.loads|
  {
    SetOutcome(Forget(s, p), p, Failed)
  }

  /** `invalidateSchemaCache`. */
  function Invalidate(s: State, i: Invalidation): State
  {
    var s1 := s.(invalidations := s.invalidations + [i]);
    if i.conn != "" && i.schema != "" then
      if i.conn in s.caches && s.caches[i.conn] in s.stores then
        var store := s.stores[s.caches[i.conn]];
        s1.(stores := s.stores[s.caches[i.conn] := store - (set k | 0 <= k < |KINDS| :: KINDS[k] + i.schema)])
      else s1
    else if i.conn != "" then s1.(caches := s.caches - {i.conn})
    else s1.(caches := map[])
  }

  // ---- Runs ----

  datatype Step =
    | DoCall(conn: Conn, key: Key, now: int)
    | DoResolve(p: LoadId, now: int)
    | DoReject(p: LoadId)
    | DoInvalidate(i: Invalidation)

  predicate Enabled(s: State, step: Step)
  {
    match step
    case DoResolve(p, _) => p < |s.loads| && s.loads[p].outcome.Pending?
    case DoReject(p) => p < |s.loads| && s.loads[p].outcome.Pending?
    case _ => true
  }

  function Apply(s: State, step: Step): State
    requires Enabled(s, step)
  {
    match step
    case DoCall(conn, key, now) => Cached(s, conn, key, now).0
    case DoResolve(p, now) => Resolve(s, p, now)
    case DoReject(p) => Reject(s, p)
    case DoInvalidate(i) => Invalidate(s, i)
  }

  ghost predicate IsRun(s: State, steps: seq<Step>)
    decreases |steps|
  {
    steps == [] || (Enabled(s, steps[0]) && IsRun(Apply(s, steps[0]), steps[1..]))
  }

  function After(s: State, steps: seq<Step>): State
    requires IsRun(s, steps)
    decreases |steps|
  {
    if steps == [] then s else After(Apply(s, steps[0]), steps[1..])
  }

  // ---- Invariants ----

  ghost predicate CachesOk(s: State)
  {
    && (forall c | c in s.caches :: s.caches[c] in s.stores)
    && (forall id | id in s.stores :: id < s.nextCache)
    && (forall c, d | c in s.caches && d in s.caches && c != d :: s.caches[c] != s.caches[d])
    && (forall p | 0 <= p < |s.loads| :: s.loads[p].cache in s.stores && s.loads[p].began <= |s.invalidations|)
  }

  /** The load behind an entry: of this key and cache, untouched so far, and in flight exactly while it cannot expire. */
  ghost predicate EntryOk(s: State, conn: Conn, key: Key)
    requires HasEntry(s, conn, key)
  {
    var e := EntryOf(s, conn, key);
    && e.load < |s.loads|
    && var l := s.loads[e.load];
       && l.conn == conn && l.key == key && l.cache == s.caches[conn]
       && Untouched(s.invalidations, conn, key, l.began, |s.invalidations|)
       && (if e.expires.None? then l.outcome.Pending? else l.outcome.Resolved? && e.expires.value == l.outcome.at + TTL)
  }

  ghost predicate EntriesOk(s: State)
  {
    forall conn, key | HasEntry(s, conn, key) :: EntryOk(s, conn, key)
  }

  /** No later load of the same key has begun. */
  ghost predicate Latest(loads: seq<Load>, p: LoadId)
    requires p < |loads|
  {
    forall q | p < q < |loads| :: !(loads[q].conn == loads[p].conn && loads[q].key == loads[p].key)
  }

  /**
   A load in flight that no invalidation has touched is the one its key's entry waits for; a resolved
   one is, until another has begun.
   */
  ghost predicate LoadsOk(s: State)
  {
    forall p | 0 <= p < |s.loads| ::
      var l := s.loads[p];
      && (Current(s, p) ==> Latest(s.loads, p))
      && (l.outcome.Resolved? && Latest(s.loads, p) && Untouched(s.invalidations, l.conn, l.key, l.began, |s.invalidations|) ==> Current(s, p))
      && (l.outcome.Pending? ==> (Current(s, p) <==> Untouched(s.invalidations, l.conn, l.key, l.began, |s.invalidations|)))
      && (l.outcome.Resolved? ==> l.outcome.seen <= |s.invalidations| && Untouched(s.invalidations, l.conn, l.key, l.began, l.outcome.seen))
      && (l.outcome.Superseded? ==> l.outcome.seen <= |s.invalidations| && !Untouched(s.invalidations, l.conn, l.key, l.began, l.outcome.seen))
  }

  /** A call was given a load of its key that began after every earlier invalidation of it and has not expired. */
  ghost predicate CallOk(s: State, c: Call)
  {
    && c.load < |s.loads|
    && var l := s.loads[c.load];
       && l.conn == c.conn && l.key == c.key
       && c.seen <= |s.invalidations|
       && Untouched(s.invalidations, c.conn, c.key, l.began, c.seen)
  }

  ghost predicate CallsOk(s: State)
  {
    forall k | 0 <= k < |s.calls| :: CallOk(s, s.calls[k])
  }

  ghost predicate Inv(s: State)
  {
    CachesOk(s) && EntriesOk(s) && LoadsOk(s) && CallsOk(s)
  }

  /** Joining a promise changes nothing but the record of calls. */
  lemma JoinKeepsInv(s: State, conn: Conn, key: Key, now: int)
    requires Inv(s) && HasEntry(s, conn, key) && Alive(EntryOf(s, conn, key), now)
    ensures Inv(Cached(s, conn, key, now).0)
  {
    hide Untouched, Covers;
    var s1 := Cached(s, conn, key, now).0;
    assert EntryOk(s, conn, key);
    assert forall p | 0 <= p < |s.loads| :: Current(s1, p) <==> Current(s, p);
    forall c, k | HasEntry(s1, c, k) ensures EntryOk(s1, c, k) { assert HasEntry(s, c, k) && EntryOk(s, c, k); }
    forall k | 0 <= k < |s1.calls| ensures CallOk(s1, s1.calls[k]) { if k < |s.calls| { assert CallOk(s, s.calls[k]); } }
  }

  /** A new cache object is empty and belongs to nobody's load. */
  lemma WithCacheKeepsInv(s: State, conn: Conn)
    requires Inv(s)
    ensures Inv(WithCache(s, conn)) && conn in WithCache(s, conn).caches
  {
    hide Untouched, Covers;
    var s1 := WithCache(s, conn);
    if conn !in s.caches {
      forall c, k | HasEntry(s1, c, k) ensures EntryOk(s1, c, k) { assert c != conn && HasEntry(s, c, k) && EntryOk(s, c, k); }
      forall p | 0 <= p < |s.loads| ensures Current(s1, p) <==> Current(s, p) { }
      forall k | 0 <= k < |s1.calls| ensures CallOk(s1, s1.calls[k]) { assert CallOk(s, s.calls[k]); }
    }
  }

  lemma LatestOfMore(loads: seq<Load>, l: Load)
    ensures forall p | 0 <= p < |loads| ::
              Latest(loads + [l], p) <==> Latest(loads, p) && !(loads[p].conn == l.conn && loads[p].key == l.key)
    ensures Latest(loads + [l], |loads|)
  {
    var more := loads + [l];
    forall p | 0 <= p < |loads|
      ensures Latest(more, p) <==> Latest(loads, p) && !(loads[p].conn == l.conn && loads[p].key == l.key)
    {
      assert more[|loads|] == l && more[p] == loads[p];
      assert forall q | p < q < |loads| :: more[q] == loads[q];
    }
  }

  lemma LatestOfSame(loads: seq<Load>, p: LoadId, l: Load)
    requires p < |loads| && l.conn == loads[p].conn && l.key == loads[p].key
    ensures forall q | 0 <= q < |loads| :: Latest(loads[p := l], q) <==> Latest(loads, q)
  {
    var same := loads[p := l];
    forall q | 0 <= q < |loads|
      ensures Latest(same, q) <==> Latest(loads, q)
    {
      assert forall k | 0 <= k < |loads| :: same[k].conn == loads[k].conn && same[k].key == loads[k].key;
    }
  }

  /** Beginning a load: there was no entry, or an expired one, whose load has resolved. */
  lemma BeginKeepsInv(s: State, conn: Conn, key: Key, now: int)
    requires Inv(s) && conn in s.caches
    requires !(HasEntry(s, conn, key) && Alive(EntryOf(s, conn, key), now))
    ensures Inv(Cached(s, conn, key, now).0)
  {
    hide Covers, Untouched;
    var s1 := Cached(s, conn, key, now).0;
    var n := |s.loads|;
    assert HasEntry(s, conn, key) ==> EntryOk(s, conn, key);
    UntouchedSoFar(s.invalidations, conn, key);
    LatestOfMore(s.loads, s1.loads[n]);
    forall d, k
      ensures HasEntry(s1, d, k) <==> HasEntry(s, d, k) || (d, k) == (conn, key)
      ensures HasEntry(s1, d, k) ==> s1.caches[d] == s.caches[d]
      ensures HasEntry(s1, d, k) ==> EntryOf(s1, d, k) == if (d, k) == (conn, key) then Entry(None, n) else EntryOf(s, d, k)
    {
      BegunEntries(s, conn, key, now, d, k);
    }
    assert CachesOk(s1);
    hide Latest, CachesOk, Cached;
    forall d, k | HasEntry(s1, d, k)
      ensures EntryOk(s1, d, k)
    {
      if (d, k) != (conn, key) {
        assert EntryOk(s, d, k);
      }
    }
    forall k | 0 <= k < |s1.calls| ensures CallOk(s1, s1.calls[k]) { if k < |s.calls| { assert CallOk(s, s.calls[k]); } }
  }

  lemma UntouchedSoFar(past: seq<Invalidation>, conn: Conn, key: Key)
    ensures Untouched(past, conn, key, |past|, |past|)
  {
  }

  /** Exactly the key's entry is new. */
  lemma BegunEntries(s: State, conn: Conn, key: Key, now: int, d: Conn, k: Key)
    requires CachesOk(s) && conn in s.caches
    requires !(HasEntry(s, conn, key) && Alive(EntryOf(s, conn, key), now))
    ensures var s1 := Cached(s, conn, key, now).0;
            && (HasEntry(s1, d, k) <==> HasEntry(s, d, k) || (d, k) == (conn, key))
            && (HasEntry(s1, d, k) ==> s1.caches[d] == s.caches[d])
            && (HasEntry(s1, d, k) ==> EntryOf(s1, d, k) == if (d, k) == (conn, key) then Entry(None, |s.loads|) else EntryOf(s, d, k))
  {
  }

  lemma CallKeepsInv(s: State, conn: Conn, key: Key, now: int)
    requires Inv(s)
    ensures Inv(Cached(s, conn, key, now).0)
  {
    hide Inv, PutEntry;
    WithCacheKeepsInv(s, conn);
    var s1 := WithCache(s, conn);
    assert Cached(s, conn, key, now) == Cached(s1, conn, key, now);
    if HasEntry(s1, conn, key) && Alive(EntryOf(s1, conn, key), now) {
      JoinKeepsInv(s1, conn, key, now);
    } else {
      BeginKeepsInv(s1, conn, key, now);
    }
  }

  lemma ResolveKeepsInv(s: State, p: LoadId, now: int)
    requires Inv(s) && p < |s.loads| && s.loads[p].outcome.Pending? && Current(s, p)
    ensures Inv(Resolve(s, p, now))
  {
    hide Untouched, Covers;
    var s1 := Resolve(s, p, now);
    LatestOfSame(s.loads, p, s1.loads[p]);
    hide Latest;
    forall c, k | HasEntry(s1, c, k) ensures EntryOk(s1, c, k) { assert HasEntry(s, c, k) && EntryOk(s, c, k); }
    forall q | 0 <= q < |s.loads| ensures Current(s1, q) <==> Current(s, q) { }
    forall k | 0 <= k < |s1.calls| ensures CallOk(s1, s1.calls[k]) { assert CallOk(s, s.calls[k]); }
  }

  /** A load that is not, or no longer, to be kept leaves its key's entry alone unless the entry is its own. */
  lemma GiveUpKeepsInv(s: State, p: LoadId, o: Outcome)
    requires Inv(s) && p < |s.loads| && s.loads[p].outcome.Pending?
    requires o == Failed || (o == Superseded(|s.invalidations|) && !Current(s, p))
    ensures Inv(SetOutcome(Forget(s, p), p, o))
  {
    hide Untouched, Covers;
    var s1 := SetOutcome(Forget(s, p), p, o);
    LatestOfSame(s.loads, p, s1.loads[p]);
    forall c, k
      ensures HasEntry(s1, c, k) <==> HasEntry(s, c, k) && EntryOf(s, c, k).load != p
      ensures HasEntry(s1, c, k) ==> s1.caches[c] == s.caches[c] && EntryOf(s1, c, k) == EntryOf(s, c, k)
    {
      ForgetEntries(s, p, c, k);
    }
    hide Latest, Forget, CachesOk;
    forall c, k | HasEntry(s1, c, k) ensures EntryOk(s1, c, k) { assert EntryOk(s, c, k); }
    forall k | 0 <= k < |s1.calls| ensures CallOk(s1, s1.calls[k]) { assert CallOk(s, s.calls[k]); }
    assert CachesOk(s1) by { ForgetKeepsCaches(s, p, o); }
  }

  /** Exactly the entry of load `p` goes, if it is there. */
  lemma ForgetEntries(s: State, p: LoadId, c: Conn, k: Key)
    requires CachesOk(s) && EntriesOk(s) && p < |s.loads|
    ensures HasEntry(Forget(s, p), c, k) <==> HasEntry(s, c, k) && EntryOf(s, c, k).load != p
    ensures HasEntry(Forget(s, p), c, k) ==> Forget(s, p).caches[c] == s.caches[c] && EntryOf(Forget(s, p), c, k) == EntryOf(s, c, k)
  {
    hide Untouched;
    if HasEntry(s, c, k) {
      assert EntryOk(s, c, k);
    }
  }

  lemma ForgetKeepsCaches(s: State, p: LoadId, o: Outcome)
    requires CachesOk(s) && p < |s.loads|
    ensures CachesOk(SetOutcome(Forget(s, p), p, o))
  {
  }

  /** An invalidation removes exactly the entries it covers. */
  lemma InvalidateEntries(s: State, i: Invalidation, conn: Conn, key: Key)
    requires CachesOk(s)
    ensures HasEntry(Invalidate(s, i), conn, key) <==> HasEntry(s, conn, key) && !Covers(i, conn, key)
    ensures HasEntry(Invalidate(s, i), conn, key) ==>
              Invalidate(s, i).caches[conn] == s.caches[conn] && EntryOf(Invalidate(s, i), conn, key) == EntryOf(s, conn, key)
  {
  }

  lemma UntouchedMore(s: State, i: Invalidation, conn: Conn, key: Key, from: nat)
    requires from <= |s.invalidations|
    ensures Untouched(Invalidate(s, i).invalidations, conn, key, from, |s.invalidations| + 1) <==>
            Untouched(s.invalidations, conn, key, from, |s.invalidations|) && !Covers(i, conn, key)
    ensures forall to | 0 <= to <= |s.invalidations| :: Untouched(Invalidate(s, i).invalidations, conn, key, from, to) == Untouched(s.invalidations, conn, key, from, to)
  {
    var n := |s.invalidations|;
    assert Invalidate(s, i).invalidations == s.invalidations + [i];
    assert forall k | 0 <= k < n :: (s.invalidations + [i])[k] == s.invalidations[k];
    assert (s.invalidations + [i])[n] == i;
  }

  lemma InvalidateKeepsInv(s: State, i: Invalidation)
    requires Inv(s)
    ensures Inv(Invalidate(s, i))
  {
    var s1 := Invalidate(s, i);
    hide Covers, Untouched;
    forall c, k | HasEntry(s1, c, k)
      ensures EntryOk(s1, c, k)
    {
      InvalidateEntries(s, i, c, k);
      assert EntryOk(s, c, k);
      UntouchedMore(s, i, c, k, s.loads[EntryOf(s, c, k).load].began);
    }
    forall p | 0 <= p < |s.loads|
      ensures var l := s.loads[p];
              && (l.outcome.Pending? ==> (Current(s1, p) <==> Untouched(s1.invalidations, l.conn, l.key, l.began, |s1.invalidations|)))
              && (Current(s1, p) ==> Current(s, p))
              && (l.outcome.Resolved? && Latest(s1.loads, p) && Untouched(s1.invalidations, l.conn, l.key, l.began, |s1.invalidations|) ==> Current(s1, p))
              && (l.outcome.Resolved? ==> Untouched(s1.invalidations, l.conn, l.key, l.began, l.outcome.seen))
              && (l.outcome.Superseded? ==> !Untouched(s1.invalidations, l.conn, l.key, l.began, l.outcome.seen))
    {
      var l := s.loads[p];
      InvalidateEntries(s, i, l.conn, l.key);
      UntouchedMore(s, i, l.conn, l.key, l.began);
    }
    forall k | 0 <= k < |s1.calls|
      ensures CallOk(s1, s1.calls[k])
    {
      assert CallOk(s, s.calls[k]);
      UntouchedMore(s, i, s.calls[k].conn, s.calls[k].key, s.loads[s.calls[k].load].began);
    }
  }

  lemma StepKeepsInv(s: State, step: Step)
    requires Inv(s) && Enabled(s, step)
    ensures Inv(Apply(s, step))
  {
    hide Inv, Cached, Invalidate, PutEntry, Forget, SetOutcome, Current;
    match step
    case DoCall(conn, key, now) => CallKeepsInv(s, conn, key, now);
    case DoResolve(p, now) =>
      if Current(s, p) {
        ResolveKeepsInv(s, p, now);
      } else {
        GiveUpKeepsInv(s, p, Superseded(|s.invalidations|));
      }
    case DoReject(p) => GiveUpKeepsInv(s, p, Failed);
    case DoInvalidate(i) => InvalidateKeepsInv(s, i);
  }

  lemma {:induction false} RunKeepsInv(s: State, steps: seq<Step>)
    requires Inv(s) && IsRun(s, steps)
    ensures Inv(After(s, steps))
    decreases |steps|
  {
    hide Inv, Apply, Enabled;
    if steps != [] {
      StepKeepsInv(s, steps[0]);
      RunKeepsInv(Apply(s, steps[0]), steps[1..]);
    }
  }

  // ---- What callers get ----

  /**
   In every run, a call that ends with a value got it from a load of its own key that began after every
   invalidation of that key before the call, and that none touched until the value was there.
   */
  lemma ValuesAreFresh(steps: seq<Step>, k: nat)
    requires IsRun(EMPTY, steps) && k < |After(EMPTY, steps).calls|
    ensures var s := After(EMPTY, steps);
            var c := s.calls[k];
            c.load < |s.loads| &&
            var l := s.loads[c.load];
            && l.conn == c.conn && l.key == c.key
            && Untouched(s.invalidations, c.conn, c.key, l.began, c.seen)
            && (l.outcome.Resolved? ==> Untouched(s.invalidations, c.conn, c.key, l.began, l.outcome.seen))
  {
    RunKeepsInv(EMPTY, steps);
    assert CallOk(After(EMPTY, steps), After(EMPTY, steps).calls[k]);
  }

  /** A load that comes to its end gives its value exactly when no invalidation touched its key since it began. */
  lemma ResolvesExactlyWhenUntouched(steps: seq<Step>, p: LoadId, now: int)
    requires IsRun(EMPTY, steps) && Enabled(After(EMPTY, steps), DoResolve(p, now))
    ensures var s := After(EMPTY, steps);
            var l := s.loads[p];
            Resolve(s, p, now).loads[p].outcome.Resolved? <==> Untouched(s.invalidations, l.conn, l.key, l.began, |s.invalidations|)
  {
    RunKeepsInv(EMPTY, steps);
  }

  /** For one key at most one load is in flight that an invalidation has not already given up. */
  lemma OneLoadInFlight(steps: seq<Step>, p: LoadId, q: LoadId)
    requires IsRun(EMPTY, steps) && p < |After(EMPTY, steps).loads| && q < |After(EMPTY, steps).loads|
    requires var s := After(EMPTY, steps);
             var l, m := s.loads[p], s.loads[q];
             && l.outcome.Pending? && m.outcome.Pending? && l.conn == m.conn && l.key == m.key
             && Untouched(s.invalidations, l.conn, l.key, l.began, |s.invalidations|) && Untouched(s.invalidations, m.conn, m.key, m.began, |s.invalidations|)
    ensures p == q
  {
    RunKeepsInv(EMPTY, steps);
  }

  /** The latest load of the key, untouched, and in flight or resolved less than a minute ago. */
  ghost predicate Usable(s: State, p: LoadId, conn: Conn, key: Key, now: int)
  {
    && p < |s.loads| && s.loads[p].conn == conn && s.loads[p].key == key && Latest(s.loads, p)
    && Untouched(s.invalidations, conn, key, s.loads[p].began, |s.invalidations|)
    && (s.loads[p].outcome.Pending? || (s.loads[p].outcome.Resolved? && now < s.loads[p].outcome.at + TTL))
  }

  /** A call joins a load exactly when that load is usable; it loads anew exactly when there is none. */
  lemma JoinsExactlyTheUsable(steps: seq<Step>, conn: Conn, key: Key, now: int)
    requires IsRun(EMPTY, steps)
    ensures var s := After(EMPTY, steps);
            var p := Cached(s, conn, key, now).1;
            && (forall q | 0 <= q < |s.loads| :: p == q <==> Usable(s, q, conn, key, now))
            && (p == |s.loads| <==> forall q | 0 <= q < |s.loads| :: !Usable(s, q, conn, key, now))
  {
    RunKeepsInv(EMPTY, steps);
    var s := After(EMPTY, steps);
    hide IsRun, After;
    WhatIsJoined(s, conn, key, now);
    hide Inv, Cached, Usable;
  }

  lemma WhatIsJoined(s: State, conn: Conn, key: Key, now: int)
    requires Inv(s)
    ensures var p := Cached(s, conn, key, now).1;
            && p <= |s.loads|
            && (p < |s.loads| ==> Usable(s, p, conn, key, now))
            && (forall q | 0 <= q < |s.loads| && Usable(s, q, conn, key, now) :: p == q)
  {
    hide Untouched, Latest;
    if HasEntry(s, conn, key) {
      assert EntryOk(s, conn, key);
      assert Current(s, EntryOf(s, conn, key).load);
    }
    forall q | 0 <= q < |s.loads| && Usable(s, q, conn, key, now)
      ensures Current(s, q)
    {
    }
  }

  /** A call joins a load in flight, or a value that is at most a minute old; otherwise it begins the only new load. */
  lemma JoinedWithinTTL(steps: seq<Step>, conn: Conn, key: Key, now: int)
    requires IsRun(EMPTY, steps)
    ensures var s := After(EMPTY, steps);
            var (s1, p) := Cached(s, conn, key, now);
            if p < |s.loads| then
              s1.loads == s.loads && (s.loads[p].outcome.Pending? || (s.loads[p].outcome.Resolved? && now < s.loads[p].outcome.at + TTL))
            else
              p == |s.loads| && s1.loads == s.loads + [Load(conn, key, s1.caches[conn], |s.invalidations|, Pending)] &&
              forall q | 0 <= q < |s.loads| && s.loads[q].conn == conn && s.loads[q].key == key && s.loads[q].outcome.Pending? ::
                !Untouched(s.invalidations, conn, key, s.loads[q].began, |s.invalidations|)
  {
    RunKeepsInv(EMPTY, steps);
    var s := After(EMPTY, steps);
    hide IsRun, After;
    if HasEntry(s, conn, key) {
      assert EntryOk(s, conn, key);
    }
  }

  /** The module's maps, updated in place. */
  class MetadataRequests {
    var caches: map<Conn, CacheId>
    var stores: map<CacheId, map<Key, Entry>>
    var nextCache: CacheId
    var loads: seq<Load>
    ghost var calls: seq<Call>
    var invalidations: seq<Invalidation>

    ghost function Abs(): State
      reads this
    {
      State(caches, stores, nextCache, loads, calls, invalidations)
    }

    constructor ()
      ensures Abs() == EMPTY
    {
      caches, stores, nextCache, loads, calls, invalidations := map[], map[], 0, [], [], [];
    }

    method Request(conn: Conn, key: Key, now: int) returns (p: LoadId)
      requires conn in caches ==> caches[conn] in stores
      modifies this
      ensures (Abs(), p) == Cached(old(Abs()), conn, key, now)
    {
      if conn !in caches {
        caches := caches[conn := nextCache];
        stores := stores[nextCache := map[]];
        nextCache := nextCache + 1;
      }
      var c := caches[conn];
      if key in stores[c] {
        var existing := stores[c][key];
        if existing.expires.None? || existing.expires.value > now {
          p := existing.load;
          calls := calls + [Call(conn, key, p, |invalidations|, now)];
          return;
        }
      }
      p := |loads|;
      loads := loads + [Load(conn, key, c, |invalidations|, Pending)];
      stores := stores[c := stores[c][key := Entry(None, p)]];
      calls := calls + [Call(conn, key, p, |invalidations|, now)];
    }

    method Loaded(p: LoadId, now: int)
      requires p < |loads| && loads[p].cache in stores
      modifies this
      ensures Abs() == Resolve(old(Abs()), p, now)
    {
      var l := loads[p];
      var store := stores[l.cache];
      if l.conn !in caches || caches[l.conn] != l.cache || l.key !in store || store[l.key].load != p {
        Drop(p);
        loads := loads[p := l.(outcome := Superseded(|invalidations|))];
        return;
      }
      stores := stores[l.cache := store[l.key := Entry(Some(now + TTL), p)]];
      loads := loads[p := l.(outcome := Resolved(now, |invalidations|))];
    }

    method LoadFailed(p: LoadId)
      requires p < |loads| && loads[p].cache in stores
      modifies this
      ensures Abs() == Reject(old(Abs()), p)
    {
      Drop(p);
      loads := loads[p := loads[p].(outcome := Failed)];
    }

    method Drop(p: LoadId)
      requires p < |loads| && loads[p].cache in stores
      modifies this`stores
      ensures Abs() == Forget(old(Abs()), p)
    {
      var l := loads[p];
      var store := stores[l.cache];
      if l.key in store && store[l.key].load == p {
        stores := stores[l.cache := store - {l.key}];
      }
    }

    /** One deletion for each kind of key of the schema, or whole caches. */
    method InvalidateCache(conn: string, schema: string)
      modifies this
      ensures Abs() == Invalidate(old(Abs()), Invalidation(conn, schema))
    {
      invalidations := invalidations + [Invalidation(conn, schema)];
      if conn != "" && schema != "" {
        if conn in caches && caches[conn] in stores {
          var c := caches[conn];
          var store := stores[c];
          var i := 0;
          while i < |KINDS|
            invariant 0 <= i <= |KINDS|
            invariant store == old(stores)[c] - (set k | 0 <= k < i :: KINDS[k] + schema)
          {
            store := store - {KINDS[i] + schema};
            i := i + 1;
          }
          stores := stores[c := store];
        }
      } else if conn != "" {
        caches := caches - {conn};
      } else {
        caches := map[];
      }
    }
  }
}
