/**
 The server's WebSocket hub: per-connection topic sets, a bounded writer for every connection, and
 emits that work in two phases.  The first phase offers the frame to every addressee and collects
 those whose writer refuses it; the second, under a new lock, removes the collected connections.
 Between the two, anything else may happen, another emit included.

 A run is a list of steps.  A `Client` remembers, beyond the bounded buffer, the frames that left
 it and the numbers of the emissions that were addressed to it.
 */
module WsHub {
  import opened Prelude

  type Topic = string
  type Owner = string
  type ConnId = nat

  const MAX_TOPICS_PER_CONN := 512
  const WRITER_CAPACITY := 2048

  const MCP_LOG: string := "mcp-log://"
  const PROTECTED: seq<string> :=
    ["term://", "history://", "vnc-init://", "vnc-rect://", "vnc-closed://", "monitor://", "scan://"]

  predicate StartsWith(t: string, p: string)
  {
    |p| <= |t| && t[..|p|] == p
  }

  predicate IsProtectedTopic(t: Topic)
  {
    exists k | 0 <= k < |PROTECTED| :: StartsWith(t, PROTECTED[k])
  }

  /** The user a session token resolves to. */
  datatype Actor = Actor(id: Owner, isAdmin: bool)

  /** The gate of a client's `sub` message. */
  predicate Allowed(actor: Option<Actor>, t: Topic)
  {
    && actor.Some?
    && if StartsWith(t, MCP_LOG) then actor.value.isAdmin || t[|MCP_LOG|..] == actor.value.id
       else !IsProtectedTopic(t)
  }

  /** What a writer carries; an event is named by the number of its emission. */
  datatype Frame = Event(n: nat) | Receipt(topic: Topic, ok: bool) | Reply | Pong

  datatype Conn = Conn(topics: set<Topic>, owner: Option<Owner>)

  datatype Client = Client(
    owner: Option<Owner>,
    queued: seq<Frame>,      // in the bounded channel
    received: seq<Frame>,    // already taken out by the writer task
    closed: bool,
    due: seq<nat>)           // the emissions addressed to it

  datatype Emission = Emission(topic: Topic, owner: Option<Owner>)

  datatype Hub = Hub(
    conns: map<ConnId, Conn>,
    nextId: ConnId,
    clients: map<ConnId, Client>,   // also of connections already gone
    log: seq<Emission>)

  /** `evicting` holds the emits between their two phases, with the connections they collected. */
  datatype State = State(hub: Hub, evicting: map<nat, set<ConnId>>)

  const EMPTY := Hub(map[], 0, map[], [])
  const INITIAL := State(EMPTY, map[])

  // ---- Writers ----

  predicate Refuses(c: Client)
  {
    c.closed || |c.queued| >= WRITER_CAPACITY
  }

  /** `try_send`. */
  function Offer(c: Client, f: Frame): Client
  {
    if Refuses(c) then c else c.(queued := c.queued + [f])
  }

  function Accepted(c: Client): seq<Frame>
  {
    c.received + c.queued
  }

  /** The events of a frame sequence, by number. */
  function Events(fs: seq<Frame>): seq<nat>
  {
    if fs == [] then []
    else Events(fs[..|fs| - 1]) + (if fs[|fs| - 1].Event? then [fs[|fs| - 1].n] else [])
  }

  // ---- Operations ----

  function Register(h: Hub, owner: Option<Owner>): Hub
  {
    h.(conns := h.conns[h.nextId := Conn({}, owner)],
       nextId := h.nextId + 1,
       clients := h.clients[h.nextId := Client(owner, [], [], false, [])])
  }

  function Remove(h: Hub, ids: set<ConnId>): Hub
  {
    h.(conns := h.conns - ids)
  }

  function Subscribe(h: Hub, c: ConnId, t: Topic): Hub
  {
    if c in h.conns && (t in h.conns[c].topics || |h.conns[c].topics| < MAX_TOPICS_PER_CONN)
    then h.(conns := h.conns[c := h.conns[c].(topics := h.conns[c].topics + {t})])
    else h
  }

  function Unsubscribe(h: Hub, c: ConnId, t: Topic): Hub
  {
    if c in h.conns then h.(conns := h.conns[c := h.conns[c].(topics := h.conns[c].topics - {t})]) else h
  }

  function Send(h: Hub, c: ConnId, f: Frame): Hub
  {
    if c in h.clients then h.(clients := h.clients[c := Offer(h.clients[c], f)]) else h
  }

  predicate HasSubscriber(h: Hub, t: Topic)
  {
    exists c | c in h.conns :: t in h.conns[c].topics
  }

  /** Whether an emission is meant for a connection; without an owner it is meant for every subscriber. */
  predicate Addresses(e: Emission, conn: Conn)
  {
    e.topic in conn.topics && (e.owner.Some? ==> conn.owner == e.owner)
  }

  predicate Meant(h: Hub, e: Emission, c: ConnId)
  {
    c in h.conns && Addresses(e, h.conns[c])
  }

  function Addressed(c: Client, n: nat): Client
  {
    Offer(c.(due := c.due + [n]), Event(n))
  }

  /** The first phase of an emit. */
  function Announce(h: Hub, e: Emission): Hub
  {
    h.(clients := map c | c in h.clients ::
         if Meant(h, e, c) then Addressed(h.clients[c], |h.log|) else h.clients[c],
       log := h.log + [e])
  }

  /** The connections it collects for the second phase. */
  function Dead(h: Hub, e: Emission): set<ConnId>
  {
    set c | c in h.clients && Meant(h, e, c) && Refuses(h.clients[c])
  }

  /** The writer task takes a frame out of the channel. */
  function Drain(h: Hub, c: ConnId): Hub
  {
    if c in h.clients && h.clients[c].queued != [] then
      var k := h.clients[c];
      h.(clients := h.clients[c := k.(queued := k.queued[1..], received := k.received + [k.queued[0]])])
    else h
  }

  /** The writer task ended: nothing more is accepted. */
  function Close(h: Hub, c: ConnId): Hub
  {
    if c in h.clients then h.(clients := h.clients[c := h.clients[c].(closed := true)]) else h
  }

  /** A client's `sub` message, with the optional receipt sent after the registration. */
  function ClientSub(h: Hub, c: ConnId, t: Topic, actor: Option<Actor>, receipt: bool): Hub
  {
    var ok := Allowed(actor, t);
    var h1 := if ok then Subscribe(h, c, t) else h;
    if receipt then Send(h1, c, Receipt(t, ok)) else h1
  }

  // ---- Runs ----

  datatype Step =
    | DoRegister(owner: Option<Owner>)
    | DoUnregister(c: ConnId)
    | DoClientSub(c: ConnId, topic: Topic, actor: Option<Actor>, receipt: bool)
    | DoServerSub(c: ConnId, topic: Topic)         // by a command handler
    | DoUnsub(c: ConnId, topic: Topic)
    | DoSend(c: ConnId, frame: Frame)              // a pong or the reply of a command
    | DoEmit(topic: Topic, owner: Option<Owner>)   // first phase
    | DoEvict(n: nat)                              // second phase of emission `n`
    | DoDrain(c: ConnId)
    | DoClose(c: ConnId)

  /** A connection's session resolves to the user it was registered for, or to nobody. */
  predicate Enabled(s: State, step: Step)
  {
    match step
    case DoClientSub(c, _, actor, _) => c in s.hub.clients && (actor.Some? ==> s.hub.clients[c].owner == Some(actor.value.id))
    case DoSend(_, frame) => frame.Reply? || frame.Pong?
    case DoEvict(n) => n in s.evicting
    case _ => true
  }

  function Apply(s: State, step: Step): State
  {
    match step
    case DoRegister(owner) => s.(hub := Register(s.hub, owner))
    case DoUnregister(c) => s.(hub := Remove(s.hub, {c}))
    case DoClientSub(c, t, actor, receipt) => s.(hub := ClientSub(s.hub, c, t, actor, receipt))
    case DoServerSub(c, t) => s.(hub := Subscribe(s.hub, c, t))
    case DoUnsub(c, t) => s.(hub := Unsubscribe(s.hub, c, t))
    case DoSend(c, frame) => s.(hub := Send(s.hub, c, frame))
    case DoEmit(t, owner) =>
      var e := Emission(t, owner);
      State(Announce(s.hub, e), s.evicting[|s.hub.log| := Dead(s.hub, e)])
    case DoEvict(n) => if n in s.evicting then State(Remove(s.hub, s.evicting[n]), s.evicting - {n}) else s
    case DoDrain(c) => s.(hub := Drain(s.hub, c))
    case DoClose(c) => s.(hub := Close(s.hub, c))
  }

  function After(steps: seq<Step>): State
    decreases |steps|
  {
    if steps == [] then INITIAL else Apply(After(steps[..|steps| - 1]), steps[|steps| - 1])
  }

  ghost predicate IsRun(steps: seq<Step>)
    decreases |steps|
  {
    steps == [] || (IsRun(steps[..|steps| - 1]) && Enabled(After(steps[..|steps| - 1]), steps[|steps| - 1]))
  }

  /** A connection whose removal some emit has decided but not yet done. */
  ghost predicate Doomed(s: State, c: ConnId)
  {
    exists n | n in s.evicting :: c in s.evicting[n]
  }

  // ---- Invariants ----

  ghost predicate WellFormed(s: State)
  {
    && (forall c: ConnId :: c in s.hub.clients <==> c < s.hub.nextId)
    && (forall c | c in s.hub.conns :: c in s.hub.clients && s.hub.conns[c].owner == s.hub.clients[c].owner)
    && (forall c | c in s.hub.conns :: |s.hub.conns[c].topics| <= MAX_TOPICS_PER_CONN)
    && (forall n | n in s.evicting :: n < |s.hub.log|)
  }

  /** Every number a client knows is that of an emission so far. */
  ghost predicate Numbered(k: Client, bound: nat)
  {
    && (forall n | n in k.due :: n < bound)
    && (forall n | n in Events(Accepted(k)) :: n in k.due)
  }

  /** Collected connections did miss the frame; one that is registered and not collected missed nothing. */
  ghost predicate Accounted(s: State)
  {
    && (forall c | c in s.hub.clients :: Numbered(s.hub.clients[c], |s.hub.log|))
    && (forall n, c | n in s.evicting && c in s.evicting[n] ::
          c in s.hub.clients && n in s.hub.clients[c].due && n !in Events(Accepted(s.hub.clients[c])))
    && (forall c | c in s.hub.conns && c in s.hub.clients && !Doomed(s, c) ::
          Events(Accepted(s.hub.clients[c])) == s.hub.clients[c].due)
  }

  lemma EventsSnoc(fs: seq<Frame>, f: Frame)
    ensures Events(fs + [f]) == Events(fs) + (if f.Event? then [f.n] else [])
  {
    assert (fs + [f])[..|fs|] == fs;
  }

  lemma OfferEvents(k: Client, f: Frame)
    ensures Accepted(Offer(k, f)) == if Refuses(k) then Accepted(k) else Accepted(k) + [f]
    ensures Events(Accepted(Offer(k, f))) ==
            Events(Accepted(k)) + (if !Refuses(k) && f.Event? then [f.n] else [])
  {
    EventsSnoc(Accepted(k), f);
    assert k.received + (k.queued + [f]) == Accepted(k) + [f];
  }

  lemma DrainAccepts(k: Client)
    requires k.queued != []
    ensures (k.received + [k.queued[0]]) + k.queued[1..] == k.received + k.queued
  {
  }

  lemma StepKeepsWellFormed(s: State, step: Step)
    requires WellFormed(s)
    ensures WellFormed(Apply(s, step))
  {
    hide WellFormed, Register, Remove, Subscribe, Unsubscribe, Send, Announce, Dead, Drain, Close, Allowed;
    match step
    case DoRegister(owner) => RegisterKeepsWellFormed(s, owner);
    case DoUnregister(c) => RemoveKeepsWellFormed(s, {c});
    case DoClientSub(c, t, actor, receipt) =>
      SubscribeKeepsWellFormed(s, c, t);
      var s1 := if Allowed(actor, t) then s.(hub := Subscribe(s.hub, c, t)) else s;
      WriterKeepsWellFormed(s1, c, Receipt(t, Allowed(actor, t)));
    case DoServerSub(c, t) => SubscribeKeepsWellFormed(s, c, t);
    case DoUnsub(c, t) => UnsubscribeKeepsWellFormed(s, c, t);
    case DoSend(c, frame) => WriterKeepsWellFormed(s, c, frame);
    case DoEmit(t, owner) => EmitKeepsWellFormed(s, Emission(t, owner));
    case DoEvict(n) => if n in s.evicting { EvictKeepsWellFormed(s, n); }
    case DoDrain(c) => WriterKeepsWellFormed(s, c, Pong);
    case DoClose(c) => WriterKeepsWellFormed(s, c, Pong);
  }

  lemma RegisterKeepsWellFormed(s: State, owner: Option<Owner>)
    requires WellFormed(s)
    ensures WellFormed(s.(hub := Register(s.hub, owner)))
  {
  }

  lemma RemoveKeepsWellFormed(s: State, ids: set<ConnId>)
    requires WellFormed(s)
    ensures WellFormed(s.(hub := Remove(s.hub, ids)))
  {
  }

  lemma EvictKeepsWellFormed(s: State, n: nat)
    requires WellFormed(s) && n in s.evicting
    ensures WellFormed(State(Remove(s.hub, s.evicting[n]), s.evicting - {n}))
  {
  }

  lemma EmitKeepsWellFormed(s: State, e: Emission)
    requires WellFormed(s)
    ensures WellFormed(State(Announce(s.hub, e), s.evicting[|s.hub.log| := Dead(s.hub, e)]))
  {
    hide Meant, Refuses;
  }

  /** What happens to one writer changes no connection and no owner. */
  lemma WriterKeepsWellFormed(s: State, c: ConnId, f: Frame)
    requires WellFormed(s)
    ensures WellFormed(s.(hub := Send(s.hub, c, f)))
    ensures WellFormed(s.(hub := Drain(s.hub, c)))
    ensures WellFormed(s.(hub := Close(s.hub, c)))
  {
    hide Refuses;
  }

  lemma UnsubscribeKeepsWellFormed(s: State, c: ConnId, t: Topic)
    requires WellFormed(s)
    ensures WellFormed(s.(hub := Unsubscribe(s.hub, c, t)))
  {
    if c in s.hub.conns {
      SmallerSet(s.hub.conns[c].topics - {t}, s.hub.conns[c].topics);
    }
  }

  lemma SmallerSet(a: set<Topic>, b: set<Topic>)
    requires a <= b
    ensures |a| <= |b|
  {
    assert b == a + (b - a);
  }

  lemma SubscribeKeepsWellFormed(s: State, c: ConnId, t: Topic)
    requires WellFormed(s)
    ensures WellFormed(s.(hub := Subscribe(s.hub, c, t)))
  {
    if c in s.hub.conns && t in s.hub.conns[c].topics {
      assert s.hub.conns[c].topics + {t} == s.hub.conns[c].topics;
    }
  }

  /** Two clients to which the same was due and that were given the same events. */
  ghost predicate SameEvents(k: Client, k1: Client)
  {
    k1.owner == k.owner && k1.due == k.due && Events(Accepted(k1)) == Events(Accepted(k))
  }

  lemma SendOne(h: Hub, c: ConnId, f: Frame, d: ConnId)
    requires !f.Event? && d in h.clients
    ensures d in Send(h, c, f).clients && SameEvents(h.clients[d], Send(h, c, f).clients[d])
  {
    if c == d {
      OfferEvents(h.clients[c], f);
    }
  }

  /** Only an emit that is meant for a client changes what was due to it or which events it was given. */
  lemma StepClient(s: State, step: Step, c: ConnId)
    requires Enabled(s, step) && c in s.hub.clients && s.hub.nextId !in s.hub.clients
    requires !(step.DoEmit? && Meant(s.hub, Emission(step.topic, step.owner), c))
    ensures c in Apply(s, step).hub.clients && SameEvents(s.hub.clients[c], Apply(s, step).hub.clients[c])
  {
    hide Events, Allowed, Offer;
    match step
    case DoClientSub(d, t, actor, receipt) =>
      var h1 := if Allowed(actor, t) then Subscribe(s.hub, d, t) else s.hub;
      SendOne(h1, d, Receipt(t, Allowed(actor, t)), c);
    case DoSend(d, frame) =>
      SendOne(s.hub, d, frame, c);
    case DoDrain(d) =>
      if s.hub.clients[c].queued != [] {
        DrainAccepts(s.hub.clients[c]);
      }
    case _ =>
  }

  /** Steps that change no due list, no event, no emission and no eviction; new connections start empty. */
  lemma QuietKeepsAccounted(s: State, s1: State)
    requires Accounted(s)
    requires s1.evicting == s.evicting && |s1.hub.log| == |s.hub.log|
    requires s.hub.clients.Keys <= s1.hub.clients.Keys
    requires forall c | c in s.hub.clients :: SameEvents(s.hub.clients[c], s1.hub.clients[c])
    requires forall c | c in s1.hub.clients && c !in s.hub.clients ::
               s1.hub.clients[c].due == [] && Events(Accepted(s1.hub.clients[c])) == []
    requires forall c | c in s1.hub.conns && c !in s.hub.conns :: c !in s.hub.clients
    ensures Accounted(s1)
  {
    hide Accepted, Events;
    assert forall d :: Doomed(s1, d) <==> Doomed(s, d);
  }

  /** What the first phase does to one client. */
  lemma AnnounceOne(k: Client, n: nat)
    requires Numbered(k, n)
    ensures Numbered(Addressed(k, n), n + 1)
    ensures Addressed(k, n).due == k.due + [n]
    ensures Events(Accepted(Addressed(k, n))) == Events(Accepted(k)) + (if Refuses(k) then [] else [n])
    ensures Refuses(k) ==> n !in Events(Accepted(Addressed(k, n)))
  {
    OfferEvents(k.(due := k.due + [n]), Event(n));
  }

  /** What the first phase does to the account of one client. */
  lemma EmitKeepsOne(s: State, e: Emission, c: ConnId)
    requires WellFormed(s) && Accounted(s) && c in s.hub.clients
    ensures var n, k1 := |s.hub.log|, Announce(s.hub, e).clients[c];
            && Numbered(k1, n + 1)
            && (forall m | m in s.hub.clients[c].due :: m in k1.due)
            && (forall m | m in s.hub.clients[c].due && m !in Events(Accepted(s.hub.clients[c])) :: m !in Events(Accepted(k1)))
            && (c in Dead(s.hub, e) ==> n in k1.due && n !in Events(Accepted(k1)))
            && (c !in Dead(s.hub, e) && Events(Accepted(s.hub.clients[c])) == s.hub.clients[c].due ==> Events(Accepted(k1)) == k1.due)
  {
    AnnounceOne(s.hub.clients[c], |s.hub.log|);
    hide Events, Accepted, Offer, Refuses;
  }

  lemma EmitKeepsAccounted(s: State, e: Emission)
    requires WellFormed(s) && Accounted(s)
    ensures Accounted(State(Announce(s.hub, e), s.evicting[|s.hub.log| := Dead(s.hub, e)]))
  {
    var n := |s.hub.log|;
    var s1 := State(Announce(s.hub, e), s.evicting[n := Dead(s.hub, e)]);
    assert s1.hub.clients.Keys == s.hub.clients.Keys && s1.hub.conns == s.hub.conns && |s1.hub.log| == n + 1;
    forall c | c in s.hub.clients
      ensures Numbered(s1.hub.clients[c], n + 1)
      ensures c in Dead(s.hub, e) ==> n in s1.hub.clients[c].due && n !in Events(Accepted(s1.hub.clients[c]))
      ensures forall m | m in s.evicting && c in s.evicting[m] ::
                m in s1.hub.clients[c].due && m !in Events(Accepted(s1.hub.clients[c]))
      ensures c in s.hub.conns && !Doomed(s1, c) ==> Events(Accepted(s1.hub.clients[c])) == s1.hub.clients[c].due
    {
      EmitKeepsOne(s, e, c);
      hide Announce, Numbered, Events, Accepted;
      assert c in Dead(s.hub, e) ==> n in s1.evicting && c in s1.evicting[n];
      if Doomed(s, c) {
        var m :| m in s.evicting && c in s.evicting[m];
        assert m in s1.evicting && c in s1.evicting[m];
      }
    }
    DeadAreClients(s.hub, e);
    hide Announce, Dead, Numbered, Events, Accepted;
  }

  lemma DeadAreClients(h: Hub, e: Emission)
    ensures Dead(h, e) <= h.clients.Keys
  {
  }

  lemma EvictKeepsAccounted(s: State, n: nat)
    requires Accounted(s) && n in s.evicting
    ensures Accounted(State(Remove(s.hub, s.evicting[n]), s.evicting - {n}))
  {
    var s1 := State(Remove(s.hub, s.evicting[n]), s.evicting - {n});
    forall c | c in s1.hub.conns && Doomed(s, c)
      ensures Doomed(s1, c)
    {
      var m :| m in s.evicting && c in s.evicting[m];
      assert m in s1.evicting && c in s1.evicting[m];
    }
  }

  lemma QuietStep(s: State, step: Step)
    requires Enabled(s, step) && !step.DoEmit? && !step.DoEvict?
    ensures var s1 := Apply(s, step);
            s1.evicting == s.evicting && s1.hub.log == s.hub.log &&
            s1.hub.clients.Keys == s.hub.clients.Keys + (if step.DoRegister? then {s.hub.nextId} else {}) &&
            s1.hub.conns.Keys <= s.hub.conns.Keys + (if step.DoRegister? then {s.hub.nextId} else {})
    ensures step.DoRegister? ==> Apply(s, step).hub.clients[s.hub.nextId] == Client(step.owner, [], [], false, [])
  {
    hide Allowed, Offer;
  }

  lemma StepKeepsAccounted(s: State, step: Step)
    requires WellFormed(s) && Accounted(s) && Enabled(s, step)
    ensures Accounted(Apply(s, step))
  {
    if step.DoEmit? {
      EmitKeepsAccounted(s, Emission(step.topic, step.owner));
    } else if step.DoEvict? {
      EvictKeepsAccounted(s, step.n);
    } else {
      var s1 := Apply(s, step);
      QuietStep(s, step);
      forall c | c in s.hub.clients
        ensures SameEvents(s.hub.clients[c], s1.hub.clients[c])
      {
        StepClient(s, step, c);
      }
      hide Apply, Accounted, Enabled;
      QuietKeepsAccounted(s, s1);
    }
  }

  lemma InitialInv()
    ensures WellFormed(INITIAL) && Accounted(INITIAL)
  {
  }

  lemma {:induction false} RunKeepsInv(steps: seq<Step>)
    requires IsRun(steps)
    ensures WellFormed(After(steps)) && Accounted(After(steps))
    decreases |steps|
  {
    hide WellFormed, Accounted, Apply, Enabled;
    if steps == [] {
      InitialInv();
    } else {
      var before := steps[..|steps| - 1];
      RunKeepsInv(before);
      StepKeepsWellFormed(After(before), steps[|steps| - 1]);
      StepKeepsAccounted(After(before), steps[|steps| - 1]);
    }
  }

  // ---- Frames reach only those they are meant for ----

  /** Emission `n` of the run was step `i`, and connection `c` was then registered, subscribed and, where an owner is named, his. */
  ghost predicate WasMeantFor(steps: seq<Step>, i: nat, n: nat, c: ConnId)
    requires i < |steps|
  {
    var h := After(steps[..i]).hub;
    && steps[i].DoEmit?
    && |h.log| == n
    && c in h.conns
    && steps[i].topic in h.conns[c].topics
    && (steps[i].owner.Some? ==> h.conns[c].owner == steps[i].owner)
  }

  lemma MeantEarlier(steps: seq<Step>, last: Step, i: nat, n: nat, c: ConnId)
    requires i < |steps| && WasMeantFor(steps, i, n, c)
    ensures WasMeantFor(steps + [last], i, n, c)
  {
    assert (steps + [last])[..i] == steps[..i];
  }

  /** What a step adds to the emissions due to a client. */
  lemma StepDue(s: State, step: Step, c: ConnId)
    requires WellFormed(s) && Enabled(s, step)
    requires c in Apply(s, step).hub.clients
    ensures c !in s.hub.clients ==> Apply(s, step).hub.clients[c].due == []
    ensures c in s.hub.clients ==>
              Apply(s, step).hub.clients[c].due ==
              s.hub.clients[c].due +
              (if step.DoEmit? && Meant(s.hub, Emission(step.topic, step.owner), c) then [|s.hub.log|] else [])
  {
  }

  lemma {:induction false} DueMeansMeant(steps: seq<Step>, c: ConnId, n: nat)
    requires IsRun(steps)
    requires c in After(steps).hub.clients && n in After(steps).hub.clients[c].due
    ensures exists i | 0 <= i < |steps| :: WasMeantFor(steps, i, n, c)
    decreases |steps|
  {
    hide WellFormed, Accounted, Apply, Enabled;
    assert steps != [];
    var before, last := steps[..|steps| - 1], steps[|steps| - 1];
    var s := After(before);
    RunKeepsInv(before);
    StepDue(s, last, c);
    assert steps == before + [last];
    assert c in s.hub.clients;
    if n in s.hub.clients[c].due {
      DueMeansMeant(before, c, n);
      var i :| 0 <= i < |before| && WasMeantFor(before, i, n, c);
      MeantEarlier(before, last, i, n, c);
    } else {
      assert WasMeantFor(steps, |steps| - 1, n, c);
    }
  }

  /** Every event a connection was ever sent was, when it was emitted, for a registered subscriber and the named owner. */
  lemma FramesReachOnlySubscribers(steps: seq<Step>, c: ConnId, n: nat)
    requires IsRun(steps)
    requires c in After(steps).hub.clients && n in Events(Accepted(After(steps).hub.clients[c]))
    ensures exists i | 0 <= i < |steps| :: WasMeantFor(steps, i, n, c)
  {
    hide WellFormed, After, IsRun;
    RunKeepsInv(steps);
    DueMeansMeant(steps, c, n);
  }

  // ---- Eviction ----

  /** The second phase removes nobody but connections that were sent this very emission and refused it. */
  lemma EvictionRemovesOnlyTheFailed(steps: seq<Step>, n: nat, c: ConnId)
    requires IsRun(steps) && n in After(steps).evicting
    requires c in After(steps).hub.conns && c !in Apply(After(steps), DoEvict(n)).hub.conns
    ensures c in After(steps).hub.clients
    ensures n in After(steps).hub.clients[c].due && n !in Events(Accepted(After(steps).hub.clients[c]))
    ensures exists i | 0 <= i < |steps| :: WasMeantFor(steps, i, n, c)
  {
    RunKeepsInv(steps);
    CollectedHaveFailed(After(steps), n, c);
    hide WellFormed, Accounted, After, IsRun, Apply;
    DueMeansMeant(steps, c, n);
  }

  lemma CollectedHaveFailed(s: State, n: nat, c: ConnId)
    requires Accounted(s) && n in s.evicting
    requires c in s.hub.conns && c !in Apply(s, DoEvict(n)).hub.conns
    ensures c in s.hub.clients && n in s.hub.clients[c].due && n !in Events(Accepted(s.hub.clients[c]))
  {
    hide Events, Accepted;
  }

  lemma StepKeepsIdentity(s: State, step: Step, c: ConnId)
    requires WellFormed(s) && Enabled(s, step) && c in s.hub.clients
    ensures c in Apply(s, step).hub.clients && Apply(s, step).hub.clients[c].owner == s.hub.clients[c].owner
    ensures c !in s.hub.conns ==> c !in Apply(s, step).hub.conns
  {
  }

  /** An id once given out stays with its owner: it is never given out again. */
  lemma {:induction false} IdsAreNeverReused(steps: seq<Step>, more: seq<Step>, c: ConnId)
    requires IsRun(steps + more) && c in After(steps).hub.clients
    ensures c in After(steps + more).hub.clients
    ensures After(steps + more).hub.clients[c].owner == After(steps).hub.clients[c].owner
    ensures c !in After(steps).hub.conns ==> c !in After(steps + more).hub.conns
    decreases |more|
  {
    hide WellFormed, Accounted, Apply, Enabled;
    if more == [] {
      assert steps + more == steps;
    } else {
      var front, last := more[..|more| - 1], more[|more| - 1];
      assert (steps + more)[..|steps + more| - 1] == steps + front && (steps + more)[|steps + more| - 1] == last;
      IdsAreNeverReused(steps, front, c);
      RunKeepsInv(steps + front);
      StepKeepsIdentity(After(steps + front), last, c);
    }
  }

  // ---- Streams without gaps ----

  /** In every run, overlapping emits included: who is registered and not collected by an unfinished emit missed nothing. */
  lemma RegisteredMissesNothing(steps: seq<Step>, c: ConnId)
    requires IsRun(steps)
    requires c in After(steps).hub.conns && !Doomed(After(steps), c)
    ensures c in After(steps).hub.clients
    ensures Events(Accepted(After(steps).hub.clients[c])) == After(steps).hub.clients[c].due
    ensures |After(steps).hub.conns[c].topics| <= MAX_TOPICS_PER_CONN
  {
    hide After, IsRun;
    RunKeepsInv(steps);
  }

  /** Every emit is carried out to the end before the next one begins. */
  ghost predicate OneAtATime(steps: seq<Step>)
  {
    forall i | 0 <= i < |steps| && steps[i].DoEmit? :: After(steps[..i]).evicting == map[]
  }

  /** Nothing is missing in `k`'s events except possibly the latest one due. */
  ghost predicate GapFree(k: Client)
  {
    Events(Accepted(k)) <= k.due && |k.due| <= |Events(Accepted(k))| + 1
  }

  lemma OneAtATimeEarlier(steps: seq<Step>, last: Step)
    requires OneAtATime(steps + [last])
    ensures OneAtATime(steps)
    ensures last.DoEmit? ==> After(steps).evicting == map[]
  {
    forall i | 0 <= i < |steps| && steps[i].DoEmit?
      ensures After(steps[..i]).evicting == map[]
    {
      assert (steps + [last])[..i] == steps[..i] && (steps + [last])[i] == steps[i];
    }
    assert (steps + [last])[..|steps|] == steps && (steps + [last])[|steps|] == last;
  }

  lemma StepKeepsGapFree(s: State, step: Step, c: ConnId)
    requires WellFormed(s) && Accounted(s) && Enabled(s, step)
    requires step.DoEmit? ==> s.evicting == map[]
    requires c in s.hub.clients && GapFree(s.hub.clients[c])
    ensures c in Apply(s, step).hub.clients && GapFree(Apply(s, step).hub.clients[c])
  {
    hide Enabled;
    if step.DoEmit? && Meant(s.hub, Emission(step.topic, step.owner), c) {
      assert !Doomed(s, c);
      AnnounceOne(s.hub.clients[c], |s.hub.log|);
    } else {
      StepClient(s, step, c);
      hide Apply;
    }
  }

  /** Without overlapping emits the events of a connection, evicted or not, have no gap. */
  lemma {:induction false} StreamsHaveNoGaps(steps: seq<Step>, c: ConnId)
    requires IsRun(steps) && OneAtATime(steps)
    requires c in After(steps).hub.clients
    ensures GapFree(After(steps).hub.clients[c])
    decreases |steps|
  {
    hide WellFormed, Accounted, Apply, Enabled, GapFree, OneAtATime;
    assert steps != [];
    var before, last := steps[..|steps| - 1], steps[|steps| - 1];
    assert steps == before + [last];
    OneAtATimeEarlier(before, last);
    RunKeepsInv(before);
    if c in After(before).hub.clients {
      StreamsHaveNoGaps(before, c);
      StepKeepsGapFree(After(before), last, c);
    } else {
      NewClient(After(before), last, c);
    }
  }

  lemma NewClient(s: State, step: Step, c: ConnId)
    requires Enabled(s, step) && c !in s.hub.clients && c in Apply(s, step).hub.clients
    ensures GapFree(Apply(s, step).hub.clients[c])
  {
  }

  /**
   Step `i` emitted to connection `c` although an unfinished emit had already given it up, and the
   writer, which had made room since, took the frame.
   */
  ghost predicate SlippedIn(steps: seq<Step>, i: nat, c: ConnId)
    requires i < |steps|
  {
    steps[i].DoEmit? && SlipsIn(After(steps[..i]), Emission(steps[i].topic, steps[i].owner), c)
  }

  ghost predicate SlipsIn(s: State, e: Emission, c: ConnId)
  {
    Meant(s.hub, e, c) && Doomed(s, c) && c in s.hub.clients && !Refuses(s.hub.clients[c])
  }

  ghost predicate EverSlippedIn(steps: seq<Step>, c: ConnId)
  {
    exists i | 0 <= i < |steps| :: SlippedIn(steps, i, c)
  }

  /** The events are the due ones from the first on: only an end may be missing. */
  ghost predicate Unbroken(k: Client)
  {
    Events(Accepted(k)) <= k.due
  }

  lemma SlippedEarlier(steps: seq<Step>, last: Step, c: ConnId)
    ensures EverSlippedIn(steps + [last], c) <==>
              EverSlippedIn(steps, c) || (last.DoEmit? && SlipsIn(After(steps), Emission(last.topic, last.owner), c))
  {
    hide After, SlipsIn;
    var all := steps + [last];
    assert all[..|steps|] == steps && all[|steps|] == last;
    forall i | 0 <= i < |steps|
      ensures SlippedIn(all, i, c) <==> SlippedIn(steps, i, c)
    {
      assert all[..i] == steps[..i] && all[i] == steps[i];
    }
    if last.DoEmit? && SlipsIn(After(steps), Emission(last.topic, last.owner), c) {
      assert SlippedIn(all, |steps|, c);
    }
    if EverSlippedIn(all, c) {
      var i :| 0 <= i < |all| && SlippedIn(all, i, c);
      assert i < |steps| || i == |steps|;
    }
  }

  lemma PrefixOrNot(events: seq<nat>, due: seq<nat>, n: nat, taken: bool)
    requires |events| <= |due| && n !in due
    ensures events + (if taken then [n] else []) <= due + [n] <==> events <= due && (taken ==> |events| == |due|)
  {
    var events1, due1 := events + (if taken then [n] else []), due + [n];
    assert taken ==> events1[|events|] == n;
    assert |events| < |due| ==> due1[|events|] == due[|events|] && due[|events|] in due;
    if events <= due && (taken ==> |events| == |due|) {
      assert taken ==> events == due;
    }
    if events1 <= due1 {
      assert forall k | 0 <= k < |events| :: events[k] == events1[k] == due1[k] == due[k];
    }
  }

  /** A doomed client's stream lacks something due. */
  lemma DoomedLacks(s: State, c: ConnId)
    requires Accounted(s) && Doomed(s, c)
    ensures c in s.hub.clients && Events(Accepted(s.hub.clients[c])) != s.hub.clients[c].due
  {
    var n :| n in s.evicting && c in s.evicting[n];
    assert n in s.hub.clients[c].due && n !in Events(Accepted(s.hub.clients[c]));
  }

  ghost predicate NoMoreThanDue(k: Client)
  {
    |Events(Accepted(k))| <= |k.due|
  }

  lemma StepUnbroken(s: State, step: Step, c: ConnId)
    requires WellFormed(s) && Accounted(s) && Enabled(s, step)
    requires c in s.hub.clients && NoMoreThanDue(s.hub.clients[c])
    ensures c in Apply(s, step).hub.clients && NoMoreThanDue(Apply(s, step).hub.clients[c])
    ensures Unbroken(Apply(s, step).hub.clients[c]) <==>
              Unbroken(s.hub.clients[c]) && !(step.DoEmit? && SlipsIn(s, Emission(step.topic, step.owner), c))
  {
    hide Enabled;
    var k := s.hub.clients[c];
    if step.DoEmit? && Meant(s.hub, Emission(step.topic, step.owner), c) {
      var n := |s.hub.log|;
      AnnounceOne(k, n);
      assert Apply(s, step).hub.clients[c] == Addressed(k, n);
      PrefixOrNot(Events(Accepted(k)), k.due, n, !Refuses(k));
      if Doomed(s, c) {
        DoomedLacks(s, c);
      }
    } else {
      StepClient(s, step, c);
      hide Apply;
    }
  }

  /**
   In every run, whatever overlaps: a connection's stream, evicted or not, is its due events without
   a gap exactly when no emission slipped in behind one that had already given the connection up.
   */
  lemma {:induction false} StreamIsUnbrokenExactly(steps: seq<Step>, c: ConnId)
    requires IsRun(steps) && c in After(steps).hub.clients
    ensures Unbroken(After(steps).hub.clients[c]) <==> !EverSlippedIn(steps, c)
    ensures NoMoreThanDue(After(steps).hub.clients[c])
    decreases |steps|
  {
    hide WellFormed, Accounted, Apply, Enabled, Unbroken, NoMoreThanDue, EverSlippedIn, SlipsIn;
    assert steps != [];
    var before, last := steps[..|steps| - 1], steps[|steps| - 1];
    assert steps == before + [last];
    SlippedEarlier(before, last, c);
    RunKeepsInv(before);
    if c in After(before).hub.clients {
      StreamIsUnbrokenExactly(before, c);
      StepUnbroken(After(before), last, c);
    } else {
      UnknownHasNotSlipped(before, c);
      NewClientIsUnbroken(After(before), last, c);
    }
  }

  lemma NewClientIsUnbroken(s: State, step: Step, c: ConnId)
    requires Enabled(s, step) && c !in s.hub.clients && c in Apply(s, step).hub.clients
    ensures Unbroken(Apply(s, step).hub.clients[c]) && NoMoreThanDue(Apply(s, step).hub.clients[c])
    ensures !(step.DoEmit? && SlipsIn(s, Emission(step.topic, step.owner), c))
  {
  }

  lemma UnknownHasNotSlipped(steps: seq<Step>, c: ConnId)
    requires IsRun(steps) && c !in After(steps).hub.clients
    ensures !EverSlippedIn(steps, c)
  {
    hide WellFormed, Accounted, Enabled, Apply;
    forall i | 0 <= i < |steps|
      ensures !SlippedIn(steps, i, c)
    {
      if SlippedIn(steps, i, c) {
        assert steps == steps[..i] + steps[i..];
        IdsAreNeverReused(steps[..i], steps[i..], c);
      }
    }
  }

  /** One client subscribed by the server, whose writer is given `n` pongs. */
  function Ponged(t: Topic, n: nat): seq<Step>
  {
    if n == 0 then [DoRegister(None), DoServerSub(0, t)] else Ponged(t, n - 1) + [DoSend(0, Pong)]
  }

  function Pongs(n: nat): seq<Frame>
  {
    seq(n, _ => Pong)
  }

  lemma ExtendRun(steps: seq<Step>, step: Step)
    requires IsRun(steps) && Enabled(After(steps), step)
    ensures IsRun(steps + [step]) && After(steps + [step]) == Apply(After(steps), step)
  {
    assert (steps + [step])[..|steps|] == steps;
  }

  function PongedState(t: Topic, n: nat): State
  {
    State(Hub(map[0 := Conn({t}, None)], 1, map[0 := Client(None, Pongs(n), [], false, [])], []), map[])
  }

  lemma PongedStart(t: Topic)
    ensures Apply(Apply(INITIAL, DoRegister(None)), DoServerSub(0, t)) == PongedState(t, 0)
  {
    assert {} + {t} == {t};
    assert Pongs(0) == [];
  }

  lemma PongedMore(t: Topic, n: nat)
    requires n < WRITER_CAPACITY
    ensures Apply(PongedState(t, n), DoSend(0, Pong)) == PongedState(t, n + 1)
  {
    assert Pongs(n) + [Pong] == Pongs(n + 1);
  }

  lemma {:induction false} PongedFills(t: Topic, n: nat)
    requires n <= WRITER_CAPACITY
    ensures IsRun(Ponged(t, n)) && After(Ponged(t, n)) == PongedState(t, n)
  {
    hide Apply, IsRun, After, PongedState;
    if n == 0 {
      PongedBegins(t);
    } else {
      PongedFills(t, n - 1);
      PongedMore(t, n - 1);
      ExtendRun(Ponged(t, n - 1), DoSend(0, Pong));
    }
  }

  lemma PongedBegins(t: Topic)
    ensures IsRun(Ponged(t, 0)) && After(Ponged(t, 0)) == PongedState(t, 0)
  {
    PongedStart(t);
    assert IsRun([]) && After([]) == INITIAL;
    hide Apply, IsRun, After, PongedState;
    ExtendRun([], DoRegister(None));
    assert [] + [DoRegister(None)] == [DoRegister(None)];
    ExtendRun([DoRegister(None)], DoServerSub(0, t));
    assert [DoRegister(None)] + [DoServerSub(0, t)] == Ponged(t, 0);
  }

  /**
   Such a run: the writer is full when the first emit refuses the client, takes one frame off before
   the second phase, and the second emit gets through.  The client, still registered, lacks the first event.
   */
  lemma OverlappingEmitsLeaveAGap(t: Topic)
    ensures var steps := Ponged(t, WRITER_CAPACITY) + [DoEmit(t, None)] + [DoDrain(0)] + [DoEmit(t, None)];
            && IsRun(steps)
            && 0 in After(steps).hub.conns && 0 in After(steps).hub.clients
            && After(steps).hub.clients[0].due == [0, 1]
            && Events(Accepted(After(steps).hub.clients[0])) == [1]
            && EverSlippedIn(steps, 0)
  {
    hide Ponged, PongedState, EverSlippedIn;
    var emit, drain := DoEmit(t, None), DoDrain(0);
    var full := Ponged(t, WRITER_CAPACITY);
    PongedFills(t, WRITER_CAPACITY);
    FullThenDrained(t);
    hide Apply, Enabled;
    ExtendRun(full, emit);
    ExtendRun(full + [emit], drain);
    ExtendRun(full + [emit] + [drain], emit);
    var steps := full + [emit] + [drain] + [emit];
    StreamIsUnbrokenExactly(steps, 0);
    assert [1][0] != [0, 1][0];
  }

  lemma NoEventInPongs(n: nat)
    ensures Events(Pongs(n)) == []
  {
    if n > 0 {
      NoEventInPongs(n - 1);
      assert Pongs(n)[..n - 1] == Pongs(n - 1) && Pongs(n)[n - 1] == Pong;
    }
  }

  /** A hub with one client, subscribed to `t`. */
  function OneClient(t: Topic, k: Client, log: seq<Emission>): Hub
  {
    Hub(map[0 := Conn({t}, None)], 1, map[0 := k], log)
  }

  function Drained(k: Client): Client
    requires k.queued != []
  {
    k.(queued := k.queued[1..], received := k.received + [k.queued[0]])
  }

  lemma EmitToOne(s: State, t: Topic, k: Client, log: seq<Emission>)
    requires s.hub == OneClient(t, k, log)
    ensures Apply(s, DoEmit(t, None)).hub == OneClient(t, Addressed(k, |log|), log + [Emission(t, None)])
  {
    hide Addressed;
    assert Meant(s.hub, Emission(t, None), 0);
  }

  lemma DrainOne(s: State, t: Topic, k: Client, log: seq<Emission>)
    requires s.hub == OneClient(t, k, log) && k.queued != []
    ensures Apply(s, DoDrain(0)).hub == OneClient(t, Drained(k), log)
  {
  }

  lemma FullThenDrained(t: Topic)
    ensures var s0 := PongedState(t, WRITER_CAPACITY);
            var s3 := Apply(Apply(Apply(s0, DoEmit(t, None)), DoDrain(0)), DoEmit(t, None));
            && 0 in s3.hub.conns && 0 in s3.hub.clients
            && s3.hub.clients[0].due == [0, 1] && Events(Accepted(s3.hub.clients[0])) == [1]
  {
    var s0, e := PongedState(t, WRITER_CAPACITY), Emission(t, None);
    var k0 := s0.hub.clients[0];
    var k1 := Addressed(k0, 0);
    assert s0.hub == OneClient(t, k0, []) && |k0.queued| == WRITER_CAPACITY;
    assert k1 == k0.(due := [0]);
    NoEventInPongs(WRITER_CAPACITY);
    assert Accepted(k0) == Pongs(WRITER_CAPACITY);
    DroppedThenTaken(k1);
    var s1 := Apply(s0, DoEmit(t, None));
    var s2 := Apply(s1, DoDrain(0));
    hide Apply, PongedState, Pongs, Addressed, Accepted, Events;
    EmitToOne(s0, t, k0, []);
    assert [] + [e] == [e];
    DrainOne(s1, t, k1, [e]);
    EmitToOne(s2, t, Drained(k1), [e]);
  }

  /** A full writer that has refused emission 0 and drained a frame takes emission 1. */
  lemma DroppedThenTaken(k: Client)
    requires |k.queued| == WRITER_CAPACITY && !k.closed && k.due == [0] && Events(Accepted(k)) == []
    ensures Addressed(Drained(k), 1).due == [0, 1] && Events(Accepted(Addressed(Drained(k), 1))) == [1]
  {
    DrainAccepts(k);
    assert Accepted(Drained(k)) == Accepted(k);
    OfferEvents(Drained(k).(due := [0] + [1]), Event(1));
    DueIsNotSent(Drained(k), 1);
    hide Events;
  }

  lemma FullWriterMisses(h: Hub, c: ConnId, e: Emission)
    requires c in h.clients && Meant(h, e, c) && Refuses(h.clients[c])
    ensures Announce(h, e).clients[c] == h.clients[c].(due := h.clients[c].due + [|h.log|])
  {
  }

  lemma FreeWriterGets(h: Hub, c: ConnId, e: Emission)
    requires c in h.clients && Meant(h, e, c) && !Refuses(h.clients[c])
    ensures var k := Announce(h, e).clients[c];
            k.due == h.clients[c].due + [|h.log|] && Events(Accepted(k)) == Events(Accepted(h.clients[c])) + [|h.log|]
  {
    OfferEvents(h.clients[c].(due := h.clients[c].due + [|h.log|]), Event(|h.log|));
  }

  // ---- Subscriptions, receipts and authorization ----

  /** After an accepted `sub` the topic is registered exactly when the hub still knows the connection and the cap allows it. */
  lemma AcceptedSubRegisters(h: Hub, c: ConnId, t: Topic, actor: Option<Actor>, receipt: bool)
    requires Allowed(actor, t)
    ensures var h1 := ClientSub(h, c, t, actor, receipt);
            (c in h1.conns && t in h1.conns[c].topics) <==>
            (c in h.conns && (t in h.conns[c].topics || |h.conns[c].topics| < MAX_TOPICS_PER_CONN))
    ensures !receipt ==> ClientSub(h, c, t, actor, receipt).clients == h.clients
  {
  }

  /** Until it is unsubscribed or its connection leaves the hub, a subscription stays. */
  lemma {:induction false} SubscriptionsLast(steps: seq<Step>, more: seq<Step>, c: ConnId, t: Topic)
    requires IsRun(steps + more)
    requires c in After(steps).hub.conns && t in After(steps).hub.conns[c].topics
    requires DoUnsub(c, t) !in more
    ensures c in After(steps + more).hub.conns ==> t in After(steps + more).hub.conns[c].topics
    decreases |more|
  {
    hide WellFormed, Accounted, Apply, Enabled;
    if more == [] {
      assert steps + more == steps;
    } else {
      var front, last := more[..|more| - 1], more[|more| - 1];
      assert (steps + more)[..|steps + more| - 1] == steps + front && (steps + more)[|steps + more| - 1] == last;
      assert more == front + [last];
      SubscriptionsLast(steps, front, c, t);
      IsRunPrefix(steps, front);
      RunKeepsInv(steps);
      RunKeepsInv(steps + front);
      KnownClient(After(steps), c);
      IdsAreNeverReused(steps, front, c);
      StepKeepsTopic(After(steps + front), last, c, t);
    }
  }

  lemma KnownClient(s: State, c: ConnId)
    requires WellFormed(s) && c in s.hub.conns
    ensures c in s.hub.clients
  {
  }

  lemma StepKeepsTopic(s: State, step: Step, c: ConnId, t: Topic)
    requires WellFormed(s) && Enabled(s, step) && c in s.hub.clients && step != DoUnsub(c, t)
    requires c in s.hub.conns ==> t in s.hub.conns[c].topics
    ensures c in Apply(s, step).hub.conns ==> t in Apply(s, step).hub.conns[c].topics
  {
    hide Offer, Allowed, Meant, Refuses;
  }

  lemma IsRunPrefix(steps: seq<Step>, more: seq<Step>)
    requires IsRun(steps + more)
    ensures IsRun(steps)
    decreases |more|
  {
    if more == [] {
      assert steps + more == steps;
    } else {
      assert (steps + more)[..|steps + more| - 1] == steps + more[..|more| - 1];
      IsRunPrefix(steps, more[..|more| - 1]);
    }
  }

  /** Every accepting receipt in a client's stream was sent by an allowed subscription of that client. */
  lemma {:induction false} ReceiptsAreOfAllowedSubs(steps: seq<Step>, c: ConnId, t: Topic)
    requires IsRun(steps)
    requires c in After(steps).hub.clients && Receipt(t, true) in Accepted(After(steps).hub.clients[c])
    ensures exists i | 0 <= i < |steps| :: AcceptsSub(steps[i], c, t)
    decreases |steps|
  {
    hide WellFormed, Accounted, Apply, Enabled, AcceptsSub;
    assert steps != [];
    var before, last := steps[..|steps| - 1], steps[|steps| - 1];
    assert steps == before + [last];
    RunKeepsInv(before);
    StepReceipts(After(before), last, c, t);
    if !AcceptsSub(last, c, t) {
      ReceiptsAreOfAllowedSubs(before, c, t);
      var i :| 0 <= i < |before| && AcceptsSub(before[i], c, t);
      assert steps[i] == before[i];
    }
  }

  /** An allowed `sub` message that asks for a receipt. */
  predicate AcceptsSub(step: Step, c: ConnId, t: Topic)
  {
    step.DoClientSub? && step.c == c && step.topic == t && step.receipt && Allowed(step.actor, t)
  }

  lemma OfferedFrames(k: Client, f: Frame)
    ensures Accepted(k) <= Accepted(Offer(k, f)) <= Accepted(k) + [f]
  {
    OfferEvents(k, f);
  }

  lemma StepReceipts(s: State, step: Step, c: ConnId, t: Topic)
    requires WellFormed(s) && Enabled(s, step)
    requires c in Apply(s, step).hub.clients && Receipt(t, true) in Accepted(Apply(s, step).hub.clients[c])
    ensures AcceptsSub(step, c, t) || (c in s.hub.clients && Receipt(t, true) in Accepted(s.hub.clients[c]))
  {
    hide Allowed, Offer, Accepted;
    if step.DoRegister? && c == s.hub.nextId {
      assert Accepted(Client(step.owner, [], [], false, [])) == [] by { NothingAccepted(step.owner); }
    } else {
      var k := s.hub.clients[c];
      match step
      case DoClientSub(_, topic, actor, _) => OfferedFrames(k, Receipt(topic, Allowed(actor, topic)));
      case DoSend(_, frame) => OfferedFrames(k, frame);
      case DoEmit(topic, owner) =>
        var n := |s.hub.log|;
        OfferedFrames(k.(due := k.due + [n]), Event(n));
        DueIsNotSent(k, n);
      case DoDrain(_) => if k.queued != [] { DrainedFrames(k); }
      case DoClose(_) => ClosedFrames(k);
      case _ =>
    }
  }

  lemma NothingAccepted(owner: Option<Owner>)
    ensures Accepted(Client(owner, [], [], false, [])) == []
  {
  }

  lemma DueIsNotSent(k: Client, n: nat)
    ensures Accepted(k.(due := k.due + [n])) == Accepted(k)
  {
  }

  lemma DrainedFrames(k: Client)
    requires k.queued != []
    ensures Accepted(k.(queued := k.queued[1..], received := k.received + [k.queued[0]])) == Accepted(k)
  {
    DrainAccepts(k);
  }

  lemma ClosedFrames(k: Client)
    ensures Accepted(k.(closed := true)) == Accepted(k)
  {
  }

  /** The hub takes the subscription on: it knows the connection, and the topic is there or below the cap. */
  predicate CanRegister(h: Hub, c: ConnId, t: Topic)
  {
    c in h.conns && (t in h.conns[c].topics || |h.conns[c].topics| < MAX_TOPICS_PER_CONN)
  }

  /**
   From an accepting receipt on, given while the hub could register the topic: every later emission on
   the topic, for everybody or for the connection's owner, reaches the client, or it is being evicted.
   */
  lemma ReceiptGuaranteesDelivery(steps: seq<Step>, actor: Option<Actor>, more: seq<Step>, owner: Option<Owner>, c: ConnId, t: Topic)
    requires var sub := DoClientSub(c, t, actor, true); IsRun(steps + [sub] + more + [DoEmit(t, owner)])
    requires c in After(steps).hub.clients && c in After(steps + [DoClientSub(c, t, actor, true)]).hub.clients
    requires Accepted(After(steps + [DoClientSub(c, t, actor, true)]).hub.clients[c]) ==
             Accepted(After(steps).hub.clients[c]) + [Receipt(t, true)]
    requires CanRegister(After(steps).hub, c, t) && DoUnsub(c, t) !in more
    requires owner.Some? ==> After(steps).hub.clients[c].owner == owner
    ensures var before := steps + [DoClientSub(c, t, actor, true)] + more;
            var n := |After(before).hub.log|;
            var s := After(before + [DoEmit(t, owner)]);
            c in s.hub.conns && !Doomed(s, c) ==> c in s.hub.clients && n in Events(Accepted(s.hub.clients[c]))
  {
    hide WellFormed, Accounted, Enabled;
    var sub := DoClientSub(c, t, actor, true);
    var start := steps + [sub];
    IsRunPrefix(start + more, [DoEmit(t, owner)]);
    IsRunPrefix(start, more);
    IsRunPrefix(steps, [sub]);
    assert start[..|start| - 1] == steps;
    RunKeepsInv(steps);
    ReceiptTells(After(steps), c, t, actor);
    IdsAreNeverReused(steps, [sub], c);
    SubscribedIsDelivered(start, more, owner, c, t);
  }

  /** A receipt that says yes was sent by an allowed subscription, which registered the topic if that was possible. */
  lemma ReceiptTells(s: State, c: ConnId, t: Topic, actor: Option<Actor>)
    requires c in s.hub.clients
    requires var s1 := Apply(s, DoClientSub(c, t, actor, true));
             c in s1.hub.clients && Accepted(s1.hub.clients[c]) == Accepted(s.hub.clients[c]) + [Receipt(t, true)]
    ensures Allowed(actor, t)
    ensures CanRegister(s.hub, c, t) ==>
              var s1 := Apply(s, DoClientSub(c, t, actor, true)); c in s1.hub.conns && t in s1.hub.conns[c].topics
  {
    SubSendsReceipt(s.hub, c, t, actor);
    hide ClientSub, Allowed, Offer;
    ReceiptIsLast(s.hub.clients[c], t, Allowed(actor, t));
  }

  lemma SubSendsReceipt(h: Hub, c: ConnId, t: Topic, actor: Option<Actor>)
    requires c in h.clients
    ensures var h1 := ClientSub(h, c, t, actor, true);
            && c in h1.clients && h1.clients[c] == Offer(h.clients[c], Receipt(t, Allowed(actor, t)))
            && (Allowed(actor, t) && CanRegister(h, c, t) ==> c in h1.conns && t in h1.conns[c].topics)
  {
    hide Allowed, Offer;
  }

  lemma ReceiptIsLast(k: Client, t: Topic, ok: bool)
    requires Accepted(Offer(k, Receipt(t, ok))) == Accepted(k) + [Receipt(t, true)]
    ensures ok
  {
    OfferEvents(k, Receipt(t, ok));
    assert (Accepted(k) + [Receipt(t, ok)])[|Accepted(k)|] == Receipt(t, ok);
    assert (Accepted(k) + [Receipt(t, true)])[|Accepted(k)|] == Receipt(t, true);
  }

  /** From a registered subscription on, every later emission meant for the connection reaches it, or it is being evicted. */
  lemma SubscribedIsDelivered(steps: seq<Step>, more: seq<Step>, owner: Option<Owner>, c: ConnId, t: Topic)
    requires IsRun(steps + more + [DoEmit(t, owner)])
    requires c in After(steps).hub.conns && t in After(steps).hub.conns[c].topics
    requires DoUnsub(c, t) !in more
    requires c in After(steps).hub.clients && (owner.Some? ==> After(steps).hub.clients[c].owner == owner)
    ensures var n := |After(steps + more).hub.log|;
            var s := After(steps + more + [DoEmit(t, owner)]);
            c in s.hub.conns && !Doomed(s, c) ==> c in s.hub.clients && n in Events(Accepted(s.hub.clients[c]))
  {
    hide Accounted, Enabled;
    var emit := DoEmit(t, owner);
    var all := steps + more + [emit];
    assert all[..|all| - 1] == steps + more;
    var before := After(steps + more);
    var s := After(all);
    assert s == Apply(before, emit);
    RunKeepsInv(steps + more);
    SubscriptionsLast(steps, more, c, t);
    IdsAreNeverReused(steps, more, c);
    hide IsRun, After;
    if c in s.hub.conns && !Doomed(s, c) {
      assert s.hub.conns == before.hub.conns;
      assert Meant(before.hub, Emission(t, owner), c);
      hide WellFormed, Meant;
      RegisteredMissesNothing(all, c);
      EmissionIsDue(before, Emission(t, owner), c);
    }
  }

  lemma EmissionIsDue(s: State, e: Emission, c: ConnId)
    requires Meant(s.hub, e, c) && c in s.hub.clients
    ensures c in Announce(s.hub, e).clients && |s.hub.log| in Announce(s.hub, e).clients[c].due
  {
  }

  /** The steps that could put topic `t` on connection `c`. */
  predicate CouldAdd(step: Step, c: ConnId, t: Topic)
  {
    step == DoServerSub(c, t) || (step.DoClientSub? && step.c == c && step.topic == t)
  }

  lemma StepAddsNothingElse(s: State, step: Step, c: ConnId, t: Topic)
    requires WellFormed(s) && Enabled(s, step) && c in s.hub.clients && !CouldAdd(step, c, t)
    requires c in s.hub.conns ==> t !in s.hub.conns[c].topics
    ensures c in Apply(s, step).hub.conns ==> t !in Apply(s, step).hub.conns[c].topics
    ensures step == DoEmit(t, None) ==> c in Apply(s, step).hub.clients && Apply(s, step).hub.clients[c].due == s.hub.clients[c].due
  {
    hide Offer, Allowed, Refuses;
  }

  /** After an `unsub`, and until a new subscription, nothing emitted on the topic is meant for the connection. */
  lemma {:induction false} UnsubscribedGetsNothing(steps: seq<Step>, more: seq<Step>, c: ConnId, t: Topic)
    requires IsRun(steps + [DoUnsub(c, t)] + more)
    requires c in After(steps).hub.clients
    requires forall k | 0 <= k < |more| :: !CouldAdd(more[k], c, t)
    ensures IsRun(steps) && WellFormed(After(steps + [DoUnsub(c, t)] + more))
    ensures var s := After(steps + [DoUnsub(c, t)] + more);
            && c in s.hub.clients
            && (c in s.hub.conns ==> t !in s.hub.conns[c].topics)
            && forall owner :: !Meant(s.hub, Emission(t, owner), c)
    decreases |more|
  {
    hide WellFormed, Accounted, Enabled;
    var unsub := [DoUnsub(c, t)];
    RunKeepsInv(steps + unsub + more);
    if more == [] {
      assert steps + unsub + more == steps + unsub;
      assert (steps + unsub)[..|steps + unsub| - 1] == steps;
      IdsAreNeverReused(steps, unsub, c);
    } else {
      var front, last := more[..|more| - 1], more[|more| - 1];
      var before := steps + unsub + front;
      assert steps + unsub + more == before + [last] && (before + [last])[..|before|] == before;
      UnsubscribedGetsNothing(steps, front, c, t);
      assert c in After(before).hub.clients;
      RunKeepsInv(before);
      StepAddsNothingElse(After(before), last, c, t);
      StepKeepsIdentity(After(before), last, c);
      hide Apply;
    }
  }

  /** Who put topic `t` on connection `c` at step `i`. */
  ghost predicate Granted(steps: seq<Step>, i: nat, c: ConnId, t: Topic)
    requires i < |steps|
  {
    || steps[i] == DoServerSub(c, t)
    || (steps[i].DoClientSub? && steps[i].c == c && steps[i].topic == t && Allowed(steps[i].actor, t) &&
        c in After(steps[..i]).hub.clients && After(steps[..i]).hub.clients[c].owner == Some(steps[i].actor.value.id))
  }

  lemma GrantedEarlier(steps: seq<Step>, last: Step, i: nat, c: ConnId, t: Topic)
    requires i < |steps| && Granted(steps, i, c, t)
    ensures Granted(steps + [last], i, c, t)
  {
    assert (steps + [last])[..i] == steps[..i];
  }

  /** A step adds a topic only as a command handler's or as an allowed client's. */
  lemma StepTopics(s: State, step: Step, c: ConnId, t: Topic)
    requires Enabled(s, step)
    requires c in Apply(s, step).hub.conns && t in Apply(s, step).hub.conns[c].topics
    ensures (c in s.hub.conns && t in s.hub.conns[c].topics) || step == DoServerSub(c, t) ||
            (step.DoClientSub? && step.c == c && step.topic == t && Allowed(step.actor, t) && c in s.hub.clients && s.hub.clients[c].owner == Some(step.actor.value.id))
  {
  }

  lemma {:induction false} TopicsAreGranted(steps: seq<Step>, c: ConnId, t: Topic)
    requires IsRun(steps)
    requires c in After(steps).hub.conns && t in After(steps).hub.conns[c].topics
    ensures exists i | 0 <= i < |steps| :: Granted(steps, i, c, t)
    decreases |steps|
  {
    hide Apply, Enabled, Allowed;
    assert steps != [];
    var before, last := steps[..|steps| - 1], steps[|steps| - 1];
    var s := After(before);
    assert steps == before + [last];
    StepTopics(s, last, c, t);
    if c in s.hub.conns && t in s.hub.conns[c].topics {
      TopicsAreGranted(before, c, t);
      var i :| 0 <= i < |before| && Granted(before, i, c, t);
      GrantedEarlier(before, last, i, c, t);
    } else {
      assert Granted(steps, |steps| - 1, c, t);
    }
  }

  /** A protected stream is on a connection only because the server put it there. */
  lemma ProtectedTopicsComeFromTheServer(steps: seq<Step>, c: ConnId, t: Topic)
    requires IsRun(steps)
    requires c in After(steps).hub.conns && t in After(steps).hub.conns[c].topics && IsProtectedTopic(t)
    ensures DoServerSub(c, t) in steps
  {
    hide After, IsRun;
    TopicsAreGranted(steps, c, t);
    if StartsWith(t, MCP_LOG) {
      LogTopicsAreNotProtected(t);
    }
  }

  /** The log streams are authorized by their scope; none of them is a protected stream. */
  lemma LogTopicsAreNotProtected(t: Topic)
    requires StartsWith(t, MCP_LOG)
    ensures !IsProtectedTopic(t)
  {
    assert t[0] == t[..|MCP_LOG|][0] == 'm' && t[1] == t[..|MCP_LOG|][1] == 'c';
    forall k | 0 <= k < |PROTECTED|
      ensures !StartsWith(t, PROTECTED[k])
    {
      var p := PROTECTED[k];
      assert p[0] != 'm' || p[1] != 'c';
      if |p| <= |t| {
        assert t[..|p|][0] == t[0] && t[..|p|][1] == t[1];
      }
    }
  }

  /** A log stream of another user is only on the connections of admins, unless a command handler put it there. */
  lemma LogStreamsAreOwnOrAdmin(steps: seq<Step>, c: ConnId, scope: string)
    requires IsRun(steps)
    requires c in After(steps).hub.conns && (MCP_LOG + scope) in After(steps).hub.conns[c].topics
    requires DoServerSub(c, MCP_LOG + scope) !in steps
    ensures After(steps).hub.conns[c].owner == Some(scope) ||
            exists i | 0 <= i < |steps| :: steps[i].DoClientSub? && steps[i].c == c && steps[i].actor.Some? && steps[i].actor.value.isAdmin
  {
    var t := MCP_LOG + scope;
    TopicsAreGranted(steps, c, t);
    var i :| 0 <= i < |steps| && Granted(steps, i, c, t);
    assert StartsWith(t, MCP_LOG) && t[|MCP_LOG|..] == scope;
    assert steps == steps[..i] + steps[i..];
    IdsAreNeverReused(steps[..i], steps[i..], c);
    RunKeepsInv(steps);
  }

  // ---- The shared object ----

  /** The hub: each method holds the lock for its whole body, an emit takes it twice. */
  class SharedHub {
    var conns: map<ConnId, Conn>
    var nextId: ConnId
    var clients: map<ConnId, Client>
    var log: seq<Emission>

    ghost function Abs(): Hub
      reads this
    {
      Hub(conns, nextId, clients, log)
    }

    ghost predicate Valid()
      reads this
    {
      conns.Keys <= clients.Keys
    }

    constructor ()
      ensures Abs() == EMPTY
    {
      conns, nextId, clients, log := map[], 0, map[], [];
    }

    method RegisterConn(owner: Option<Owner>) returns (id: ConnId)
      modifies this
      ensures id == old(nextId) && Abs() == Register(old(Abs()), owner)
    {
      id := nextId;
      nextId := nextId + 1;
      conns := conns[id := Conn({}, owner)];
      clients := clients[id := Client(owner, [], [], false, [])];
    }

    method Unregister(id: ConnId)
      modifies this
      ensures Abs() == Remove(old(Abs()), {id})
    {
      conns := conns - {id};
    }

    method SubscribeConn(id: ConnId, t: Topic)
      modifies this
      ensures Abs() == Subscribe(old(Abs()), id, t)
    {
      if id in conns {
        var topics := conns[id].topics;
        if t in topics || |topics| < MAX_TOPICS_PER_CONN {
          conns := conns[id := conns[id].(topics := topics + {t})];
        }
      }
    }

    method UnsubscribeConn(id: ConnId, t: Topic)
      modifies this
      ensures Abs() == Unsubscribe(old(Abs()), id, t)
    {
      if id in conns {
        conns := conns[id := conns[id].(topics := conns[id].topics - {t})];
      }
    }

    method AnySubscriber(t: Topic) returns (found: bool)
      ensures found == HasSubscriber(Abs(), t)
    {
      var todo := conns.Keys;
      found := false;
      while todo != {} && !found
        invariant todo <= conns.Keys
        invariant found ==> HasSubscriber(Abs(), t)
        invariant !found ==> forall c | c in conns && c !in todo :: t !in conns[c].topics
        decreases todo
      {
        var c :| c in todo;
        todo := todo - {c};
        found := t in conns[c].topics;
      }
    }

    method TrySend(id: ConnId, f: Frame) returns (ok: bool)
      requires id in clients
      modifies this`clients
      ensures ok == !Refuses(old(clients)[id])
      ensures clients == old(clients)[id := Offer(old(clients)[id], f)]
    {
      ok := !clients[id].closed && |clients[id].queued| < WRITER_CAPACITY;
      if ok {
        clients := clients[id := clients[id].(queued := clients[id].queued + [f])];
      }
    }

    /** The first phase: offer the frame to every addressee, in whatever order the map yields them. */
    method Collect(e: Emission) returns (dead: set<ConnId>)
      requires Valid()
      modifies this
      ensures Valid() && Abs() == Announce(old(Abs()), e)
      ensures dead == Dead(old(Abs()), e)
    {
      hide Addressed, Refuses;
      var todo := conns.Keys;
      var n := |log|;
      ghost var done: set<ConnId> := {};
      dead := {};
      while todo != {}
        invariant todo + done == conns.Keys && todo !! done
        invariant Valid() && conns == old(conns) && nextId == old(nextId) && log == old(log)
        invariant clients.Keys == old(clients).Keys
        invariant forall c | c in clients ::
            clients[c] == if c in done && Addresses(e, conns[c]) then Addressed(old(clients)[c], n) else old(clients)[c]
        invariant dead == set c | c in done && Addresses(e, conns[c]) && Refuses(old(clients)[c])
        decreases todo
      {
        var c :| c in todo;
        todo := todo - {c};
        if e.topic in conns[c].topics && (e.owner.None? || conns[c].owner == e.owner) {
          var ok := OfferTo(c, n);
          if !ok {
            dead := dead + {c};
          }
        }
        done := done + {c};
      }
      log := log + [e];
      assert clients == Announce(old(Abs()), e).clients;
    }

    /** One addressee's share of the first phase. */
    method OfferTo(c: ConnId, n: nat) returns (ok: bool)
      requires c in clients
      modifies this`clients
      ensures clients == old(clients)[c := Addressed(old(clients)[c], n)]
      ensures ok == !Refuses(old(clients)[c])
    {
      RefusalIgnoresDue(clients[c], n);
      clients := clients[c := clients[c].(due := clients[c].due + [n])];
      ok := TrySend(c, Event(n));
    }

    /** The second phase. */
    method Evict(dead: set<ConnId>)
      modifies this
      ensures Abs() == Remove(old(Abs()), dead)
    {
      var todo := dead;
      ghost var done: set<ConnId> := {};
      while todo != {}
        invariant todo + done == dead
        invariant conns == old(conns) - done
        invariant nextId == old(nextId) && clients == old(clients) && log == old(log)
        decreases todo
      {
        var c :| c in todo;
        conns := conns - {c};
        todo, done := todo - {c}, done + {c};
      }
      assert done == dead;
    }

    /** An emit that nothing interrupts between its phases. */
    method Emit(e: Emission)
      requires Valid()
      modifies this
      ensures Valid() && Abs() == Remove(Announce(old(Abs()), e), Dead(old(Abs()), e))
    {
      var dead := Collect(e);
      if dead != {} {
        Evict(dead);
      } else {
        assert conns - {} == conns;
      }
    }

    /** The connection loop on a `sub` message. */
    method HandleSub(id: ConnId, t: Topic, actor: Option<Actor>, receipt: bool)
      requires id in clients
      modifies this
      ensures Abs() == ClientSub(old(Abs()), id, t, actor, receipt)
    {
      var allowed := Allowed(actor, t);
      if allowed {
        SubscribeConn(id, t);
      }
      if receipt {
        var _ := TrySend(id, Receipt(t, allowed));
      }
    }
  }

  lemma RefusalIgnoresDue(k: Client, n: nat)
    ensures Refuses(k.(due := k.due + [n])) == Refuses(k)
  {
  }
}
