/**
 The shared WebSocket of the browser client: a singleton that reconnects, requests owned by the
 socket they were sent on, topic resubscription and a short buffer for events without a handler.

 `State` is the module's variables together with what can be observed of them: the settlements of
 requests, the deliveries to handlers and, for every socket, the topics a server that processes its
 frames in order has subscribed it to.  Every callback is a function on `State`; class `Channel`
 implements the callbacks on mutable fields.
 */
module Transport {
  import opened Prelude

  type Topic = string
  type Handler = nat
  type Sock = nat
  type Ticket = nat

  const EARLY_EVENT_TTL_MS := 3000
  const AGENT_TOPIC: Topic := "agent://events"

  /** The ready states of a WebSocket. */
  datatype Phase = Connecting | Open | Closing | Closed

  /** What a continuation of `ensureSocket()` does with the socket. */
  datatype Job =
    | SendSub(topic: Topic)
    | Request(ticket: Ticket, sub: Option<Topic>, throws: bool)

  datatype Task = Task(socket: Sock, job: Job)

  datatype Pending = Pending(id: nat, ticket: Ticket, socket: Sock)

  datatype Outcome =
    | Replied(socket: Sock, ok: bool)
    | SocketClosed(socket: Sock)
    | ConnectionFailed
    | TimedOut
    | SendFailed

  datatype Settled = Settled(ticket: Ticket, outcome: Outcome)

  /** A buffered event: the number of its arrival and its time. */
  datatype Early = Early(arrival: nat, t: int)

  /** What is remembered of event number `n`; `buffered` when no handler was there to take it. */
  datatype Arrival = Arrival(topic: Topic, t: int, buffered: bool)

  /** An event handed to a handler, `late` when it came out of the buffer. */
  datatype Delivery = Delivery(topic: Topic, arrival: nat, handler: Handler, late: bool, age: int)

  datatype Envelope = Event(topic: Topic) | Reply(id: nat, ok: bool) | Pong | Malformed

  /** The sockets: which one is current, which one is being opened, and what each is subscribed to. */
  datatype Net = Net(
    phases: map<Sock, Phase>,
    nextSock: Sock,
    sock: Option<Sock>,
    opening: Option<Sock>,
    connecting: Option<Sock>,        // the promise under way, named by the socket it is for
    heartbeat: bool,
    missedPongs: nat,
    reconnects: nat,                 // reconnect timers set
    subs: map<Sock, set<Topic>>)

  /** Topic handlers, the early-event buffer and what handlers were given. */
  datatype Bus = Bus(
    handlers: map<Topic, seq<Handler>>,
    early: map<Topic, seq<Early>>,
    log: seq<Arrival>,
    clock: int,                      // the last reading of `Date.now()`
    delivered: seq<Delivery>)

  /** Calls: those with a pending reply, in insertion order as a JavaScript Map keeps it, and settled ones. */
  datatype Rpc = Rpc(
    pending: seq<Pending>,
    cmdSeq: nat,
    calls: Ticket,
    sentOn: map<Ticket, Sock>,
    settled: seq<Settled>)

  datatype State = State(
    net: Net,
    bus: Bus,
    rpc: Rpc,
    waiting: seq<Task>,              // continuations of promises not yet settled
    tasks: seq<Task>)                // continuations that will run with a socket

  const INITIAL := State(Net(map[], 0, None, None, None, false, 0, 0, map[]),
                         Bus(map[], map[], [], 0, []), Rpc([], 0, 0, map[], []), [], [])

  // ---- Helpers on the queues ----

  function OnSocket(ts: seq<Task>, s: Sock): seq<Task>
  {
    if ts == [] then [] else (if ts[0].socket == s then [ts[0]] else []) + OnSocket(ts[1..], s)
  }

  function OffSocket(ts: seq<Task>, s: Sock): seq<Task>
  {
    if ts == [] then [] else (if ts[0].socket == s then [] else [ts[0]]) + OffSocket(ts[1..], s)
  }

  /** Pending requests of other sockets, in order. */
  function Others(ps: seq<Pending>, s: Sock): seq<Pending>
  {
    if ps == [] then [] else (if ps[0].socket == s then [] else [ps[0]]) + Others(ps[1..], s)
  }

  /** The settlements of the pending requests of `s`, in order. */
  function ClosedBy(ps: seq<Pending>, s: Sock): seq<Settled>
  {
    if ps == [] then []
    else (if ps[0].socket == s then [Settled(ps[0].ticket, SocketClosed(s))] else []) + ClosedBy(ps[1..], s)
  }

  /** Calls waiting for a connection that failed are rejected; a best-effort `sub` is dropped. */
  function FailedCalls(ts: seq<Task>): seq<Settled>
  {
    if ts == [] then []
    else (if ts[0].job.Request? then [Settled(ts[0].job.ticket, ConnectionFailed)] else []) + FailedCalls(ts[1..])
  }

  function FindPending(ps: seq<Pending>, id: nat): Option<nat>
  {
    if ps == [] then None
    else if ps[0].id == id then Some(0)
    else match FindPending(ps[1..], id) case None => None case Some(i) => Some(i + 1)
  }

  lemma FindPendingFinds(ps: seq<Pending>, id: nat)
    ensures match FindPending(ps, id)
            case Some(i) => i < |ps| && ps[i].id == id
            case None => forall p | p in ps :: p.id != id
  {
  }

  function Fresh(es: seq<Early>, now: int): seq<Early>
  {
    if es == [] then []
    else (if now - es[0].t < EARLY_EVENT_TTL_MS then [es[0]] else []) + Fresh(es[1..], now)
  }

  function Flushed(topic: Topic, h: Handler, es: seq<Early>, now: int): seq<Delivery>
  {
    if es == [] then []
    else (if now - es[0].t < EARLY_EVENT_TTL_MS then [Delivery(topic, es[0].arrival, h, true, now - es[0].t)] else [])
         + Flushed(topic, h, es[1..], now)
  }

  function Direct(topic: Topic, arrival: nat, hs: seq<Handler>): seq<Delivery>
  {
    if hs == [] then [] else [Delivery(topic, arrival, hs[0], false, 0)] + Direct(topic, arrival, hs[1..])
  }

  function Remove(hs: seq<Handler>, h: Handler): seq<Handler>
  {
    if hs == [] then [] else (if hs[0] == h then [] else [hs[0]]) + Remove(hs[1..], h)
  }

  // ---- Sockets ----

  predicate IsOpen(n: Net, s: Option<Sock>)
  {
    s.Some? && s.value in n.phases && n.phases[s.value] == Open
  }

  /** `ensureSocket()`: the open socket, else the connection under way, else a new one. */
  function EnsureSocket(n: Net): Net
  {
    if IsOpen(n, n.sock) || n.connecting.Some? then n
    else
      var s := n.nextSock;
      n.(nextSock := s + 1, phases := n.phases[s := Connecting], subs := n.subs[s := {}],
         connecting := Some(s), opening := Some(s))
  }

  function SetPhase(n: Net, s: Sock, phase: Phase): Net
  {
    n.(phases := n.phases[s := phase])
  }

  function OpenNet(n: Net, s: Sock, topics: set<Topic>): Net
  {
    // A socket that has been given up while it connected is closed as soon as it opens.
    if n.opening != Some(s) then SetPhase(n, s, Closing)
    else n.(phases := n.phases[s := Open], opening := None, sock := Some(s), connecting := None,
            missedPongs := 0, heartbeat := true,
            subs := n.subs[s := (if s in n.subs then n.subs[s] else {}) + topics])
  }

  function CloseNet(n: Net, s: Sock, live: bool): Net
  {
    if n.sock != Some(s) && n.opening != Some(s) then SetPhase(n, s, Closed)
    else n.(phases := n.phases[s := Closed],
            sock := if n.sock == Some(s) then None else n.sock,
            connecting := if n.opening == Some(s) then None else n.connecting,
            opening := if n.opening == Some(s) then None else n.opening,
            heartbeat := false,
            reconnects := n.reconnects + if live then 1 else 0)
  }

  /** Frames take effect on an open socket; a closing one discards them. */
  function SendSubs(n: Net, s: Sock, add: set<Topic>, remove: set<Topic>): Net
  {
    if IsOpen(n, Some(s)) && s in n.subs then n.(subs := n.subs[s := n.subs[s] + add - remove]) else n
  }

  function Beat(n: Net): Net
  {
    if !IsOpen(n, n.sock) then n
    else if n.missedPongs >= 2 then SetPhase(n, n.sock.value, Closing)
    else n.(missedPongs := n.missedPongs + 1)
  }

  // ---- Handlers and early events ----

  predicate Handled(b: Bus, topic: Topic)
  {
    topic in b.handlers && b.handlers[topic] != []
  }

  function Buffered(b: Bus, topic: Topic): seq<Early>
  {
    if topic in b.early then b.early[topic] else []
  }

  function Arrive(b: Bus, topic: Topic, now: int): Bus
  {
    var n := |b.log|;
    var log := b.log + [Arrival(topic, now, !Handled(b, topic) && topic != AGENT_TOPIC)];
    if Handled(b, topic) then
      b.(log := log, clock := now, delivered := b.delivered + Direct(topic, n, b.handlers[topic]))
    // Orphaned agent events are never replayed into a later subscription.
    else if topic == AGENT_TOPIC then b.(log := log, clock := now)
    else b.(log := log, clock := now, early := b.early[topic := Fresh(Buffered(b, topic), now) + [Early(n, now)]])
  }

  function AddHandler(b: Bus, topic: Topic, h: Handler, now: int): Bus
  {
    var hs := if topic in b.handlers then b.handlers[topic] else [];
    b.(handlers := b.handlers[topic := if h in hs then hs else hs + [h]],
       early := b.early - {topic},
       clock := now,
       delivered := b.delivered + Flushed(topic, h, Buffered(b, topic), now))
  }

  function RemoveHandler(b: Bus, topic: Topic, h: Handler): Bus
  {
    if topic !in b.handlers then b
    else
      var hs := Remove(b.handlers[topic], h);
      b.(handlers := if hs == [] then b.handlers - {topic} else b.handlers[topic := hs])
  }

  // ---- Requests ----

  /** The entry is made first, then the frame is sent; a failing send withdraws it. */
  function Issue(r: Rpc, s: Sock, ticket: Ticket, throws: bool): Rpc
  {
    var id := r.cmdSeq + 1;
    if throws then r.(cmdSeq := id, sentOn := r.sentOn[ticket := s], settled := r.settled + [Settled(ticket, SendFailed)])
    else r.(cmdSeq := id, sentOn := r.sentOn[ticket := s], pending := r.pending + [Pending(id, ticket, s)])
  }

  function SettleAt(r: Rpc, i: nat, o: Outcome): Rpc
    requires i < |r.pending|
  {
    r.(pending := r.pending[..i] + r.pending[i + 1..], settled := r.settled + [Settled(r.pending[i].ticket, o)])
  }

  /** A reply settles a request only when it arrives on the socket the request was sent on. */
  function AcceptReply(r: Rpc, s: Sock, id: nat, ok: bool): Rpc
  {
    FindPendingFinds(r.pending, id);
    match FindPending(r.pending, id)
    case None => r
    case Some(i) => if r.pending[i].socket == s then SettleAt(r, i, Replied(s, ok)) else r
  }

  function Expire(r: Rpc, id: nat): Rpc
  {
    FindPendingFinds(r.pending, id);
    match FindPending(r.pending, id)
    case None => r
    case Some(i) => SettleAt(r, i, TimedOut)
  }

  function Fail(r: Rpc, calls: seq<Settled>): Rpc
  {
    r.(settled := r.settled + calls)
  }

  function CloseRequests(r: Rpc, s: Sock): Rpc
  {
    r.(pending := Others(r.pending, s), settled := r.settled + ClosedBy(r.pending, s))
  }

  // ---- The callbacks ----

  /** `ensureSocket().then(job)`. */
  function Then(st: State, job: Job): State
  {
    var n := EnsureSocket(st.net);
    if IsOpen(n, n.sock) then st.(net := n, tasks := st.tasks + [Task(n.sock.value, job)])
    else if n.connecting.Some? then st.(net := n, waiting := st.waiting + [Task(n.connecting.value, job)])
    else st.(net := n)
  }

  function OnOpen(st: State, s: Sock): State
  {
    var n := OpenNet(st.net, s, st.bus.handlers.Keys);
    if st.net.opening != Some(s) then st.(net := n)
    else st.(net := n, tasks := st.tasks + OnSocket(st.waiting, s), waiting := OffSocket(st.waiting, s))
  }

  function OnError(st: State, s: Sock): State
  {
    if st.net.opening != Some(s) then st
    else st.(net := st.net.(connecting := None), waiting := OffSocket(st.waiting, s),
             rpc := Fail(st.rpc, FailedCalls(OnSocket(st.waiting, s))))
  }

  function OnClose(st: State, s: Sock): State
  {
    st.(net := CloseNet(st.net, s, st.bus.handlers.Keys != {}), waiting := OffSocket(st.waiting, s),
        rpc := CloseRequests(Fail(st.rpc, FailedCalls(OnSocket(st.waiting, s))), s))
  }

  function OnMessage(st: State, s: Sock, env: Envelope, now: int): State
  {
    match env
    case Malformed => st
    case Event(topic) => st.(bus := Arrive(st.bus, topic, now))
    case Reply(id, ok) => st.(rpc := AcceptReply(st.rpc, s, id, ok))
    case Pong => if st.net.sock == Some(s) then st.(net := st.net.(missedPongs := 0)) else st
  }

  function Subscribe(st: State, topic: Topic, h: Handler, now: int): State
  {
    Then(st.(bus := AddHandler(st.bus, topic, h, now)), SendSub(topic))
  }

  function Unsubscribe(st: State, topic: Topic, h: Handler): State
  {
    var b := RemoveHandler(st.bus, topic, h);
    if topic in st.bus.handlers && topic !in b.handlers && st.net.sock.Some?
    then st.(bus := b, net := SendSubs(st.net, st.net.sock.value, {}, {topic}))
    else st.(bus := b)
  }

  /** `wsCmd`, or the request of `ensureSubscription` when `sub` names a topic. */
  function Call(st: State, sub: Option<Topic>, throws: bool): State
  {
    Then(st.(rpc := st.rpc.(calls := st.rpc.calls + 1)), Request(st.rpc.calls, sub, throws))
  }

  /** The next continuation runs. */
  function RunTask(st: State): State
    requires st.tasks != []
  {
    var s, rest := st.tasks[0].socket, st.tasks[1..];
    match st.tasks[0].job
    case SendSub(topic) => st.(tasks := rest, net := SendSubs(st.net, s, {topic}, {}))
    case Request(ticket, sub, throws) =>
      st.(tasks := rest, rpc := Issue(st.rpc, s, ticket, throws),
          net := if sub.Some? && !throws then SendSubs(st.net, s, {sub.value}, {}) else st.net)
  }

  function ReconnectTimer(st: State): State
    requires st.net.reconnects > 0
  {
    var n := st.net.(reconnects := st.net.reconnects - 1);
    st.(net := if n.sock == None && st.bus.handlers.Keys != {} then EnsureSocket(n) else n)
  }

  /** The receipt said the login has expired: its socket is closed, if it is still the current one. */
  function SessionExpired(n: Net, s: Sock): Net
  {
    if n.sock == Some(s) && IsOpen(n, Some(s)) then SetPhase(n, s, Closing) else n
  }

  // ---- Runs ----

  datatype Step =
    | Opens(s: Sock) | Errs(s: Sock) | PeerCloses(s: Sock) | Closes(s: Sock)
    | Receives(s: Sock, env: Envelope, now: int)
    | Subscribes(topic: Topic, h: Handler, now: int) | Unsubscribes(topic: Topic, h: Handler)
    | Calls(sub: Option<Topic>, throws: bool)
    | Continues | Expires(id: nat) | Beats | Reconnects | LoggedOut(s: Sock)

  predicate InPhase(n: Net, s: Sock, phases: set<Phase>)
  {
    s in n.phases && n.phases[s] in phases
  }

  /** When the environment may take a step: ready states advance in order and the clock never goes back. */
  predicate Enabled(st: State, step: Step)
  {
    match step
    case Opens(s) => InPhase(st.net, s, {Connecting})
    case Errs(s) => InPhase(st.net, s, {Connecting, Open, Closing})
    case PeerCloses(s) => InPhase(st.net, s, {Open})
    case Closes(s) => InPhase(st.net, s, {Connecting, Open, Closing})
    case Receives(s, _, now) => InPhase(st.net, s, {Open, Closing}) && st.bus.clock <= now
    case Subscribes(_, _, now) => st.bus.clock <= now
    case Continues => st.tasks != []
    case Beats => st.net.heartbeat
    case Reconnects => st.net.reconnects > 0
    case _ => true
  }

  function Next(st: State, step: Step): State
    requires Enabled(st, step)
  {
    match step
    case Opens(s) => OnOpen(st, s)
    case Errs(s) => OnError(st, s)
    case PeerCloses(s) => st.(net := SetPhase(st.net, s, Closing))
    case Closes(s) => OnClose(st, s)
    case Receives(s, env, now) => OnMessage(st, s, env, now)
    case Subscribes(topic, h, now) => Subscribe(st, topic, h, now)
    case Unsubscribes(topic, h) => Unsubscribe(st, topic, h)
    case Calls(sub, throws) => Call(st, sub, throws)
    case Continues => RunTask(st)
    case Expires(id) => st.(rpc := Expire(st.rpc, id))
    case Beats => st.(net := Beat(st.net))
    case Reconnects => ReconnectTimer(st)
    case LoggedOut(s) => st.(net := SessionExpired(st.net, s))
  }

  predicate IsRun(st: State, steps: seq<Step>)
    decreases |steps|
  {
    steps == [] || (Enabled(st, steps[0]) && IsRun(Next(st, steps[0]), steps[1..]))
  }

  function After(st: State, steps: seq<Step>): State
    requires IsRun(st, steps)
    decreases |steps|
  {
    if steps == [] then st else After(Next(st, steps[0]), steps[1..])
  }

  // ---- Sockets and heartbeat ----

  ghost predicate Connected(n: Net)
  {
    && (forall s | s in n.phases :: s < n.nextSock)
    && n.phases.Keys == n.subs.Keys
    && (n.connecting.Some? ==> n.opening == n.connecting)
    && (n.opening.Some? ==> InPhase(n, n.opening.value, {Connecting}))
    && (n.sock.Some? ==> InPhase(n, n.sock.value, {Open, Closing}))
    && (n.opening.Some? ==> !IsOpen(n, n.sock))
    && (IsOpen(n, n.sock) ==> n.heartbeat)
  }

  lemma EnsureKeepsConnected(n: Net)
    requires Connected(n)
    ensures Connected(EnsureSocket(n))
    ensures var e := EnsureSocket(n); IsOpen(e, e.sock) || e.connecting.Some?
  {
  }

  lemma OpenKeepsConnected(n: Net, s: Sock, topics: set<Topic>)
    requires Connected(n) && InPhase(n, s, {Connecting})
    ensures Connected(OpenNet(n, s, topics))
  {
  }

  lemma CloseKeepsConnected(n: Net, s: Sock, live: bool)
    requires Connected(n) && InPhase(n, s, {Connecting, Open, Closing})
    ensures Connected(CloseNet(n, s, live))
  {
  }

  lemma SendKeepsConnected(n: Net, s: Sock, add: set<Topic>, remove: set<Topic>)
    requires Connected(n)
    ensures Connected(SendSubs(n, s, add, remove))
  {
  }

  lemma ClosingKeepsConnected(n: Net, s: Sock)
    requires Connected(n)
    ensures Connected(Beat(n)) && Connected(SessionExpired(n, s))
    ensures InPhase(n, s, {Open}) ==> Connected(SetPhase(n, s, Closing))
  {
  }

  lemma CountersKeepConnected(n: Net)
    requires Connected(n)
    ensures Connected(n.(missedPongs := 0)) && Connected(n.(connecting := None))
    ensures n.reconnects > 0 ==> Connected(n.(reconnects := n.reconnects - 1))
  {
  }

  lemma StepKeepsConnected(st: State, step: Step)
    requires Connected(st.net) && Enabled(st, step)
    ensures Connected(Next(st, step).net)
  {
    hide Connected, EnsureSocket, OpenNet, CloseNet, SendSubs, Beat, SetPhase, SessionExpired;
    hide Arrive, AddHandler, RemoveHandler, Issue, AcceptReply, Expire, CloseRequests, Fail;
    var n := st.net;
    CountersKeepConnected(n);
    match step {
      case Opens(s) => OpenKeepsConnected(n, s, st.bus.handlers.Keys);
      case PeerCloses(s) => ClosingKeepsConnected(n, s);
      case Closes(s) => CloseKeepsConnected(n, s, st.bus.handlers.Keys != {});
      case Subscribes(topic, h, now) => EnsureKeepsConnected(n);
      case Unsubscribes(topic, h) =>
        if n.sock.Some? { SendKeepsConnected(n, n.sock.value, {}, {topic}); }
      case Calls(sub, throws) => EnsureKeepsConnected(n);
      case Continues =>
        var job := st.tasks[0].job;
        var topic := if job.SendSub? then job.topic else if job.sub.Some? then job.sub.value else "";
        SendKeepsConnected(n, st.tasks[0].socket, {topic}, {});
      case Beats => ClosingKeepsConnected(n, 0);
      case Reconnects => EnsureKeepsConnected(n.(reconnects := n.reconnects - 1));
      case LoggedOut(s) => ClosingKeepsConnected(n, s);
      case _ =>
    }
  }

  // ---- Subscriptions ----

  /** On an open socket every handled topic is subscribed, or its `sub` is among the queued sends. */
  ghost predicate Subscribed(st: State)
  {
    IsOpen(st.net, st.net.sock) && st.net.sock.value in st.net.subs ==>
      forall topic | topic in st.bus.handlers ::
        topic in st.net.subs[st.net.sock.value] || Task(st.net.sock.value, SendSub(topic)) in st.tasks
  }

  lemma ThenKeepsSubscribed(st: State, job: Job)
    requires Connected(st.net) && Subscribed(st)
    ensures Subscribed(Then(st, job))
  {
    var n, t := st.net, Then(st, job);
    if IsOpen(n, n.sock) {
      assert forall k | k in st.tasks :: k in t.tasks;
    }
  }

  /** The new topic of a subscription is queued for the socket, if there is an open one. */
  lemma SubscribeKeepsSubscribed(st: State, topic: Topic, h: Handler, now: int)
    requires Connected(st.net) && Subscribed(st)
    ensures Subscribed(Subscribe(st, topic, h, now))
  {
    var n := st.net;
    var t := Subscribe(st, topic, h, now);
    if IsOpen(n, n.sock) {
      assert t.tasks[|st.tasks|] == Task(n.sock.value, SendSub(topic));
      assert forall k | k in st.tasks :: k in t.tasks;
    }
  }

  lemma RunTaskKeepsSubscribed(st: State)
    requires Connected(st.net) && Subscribed(st) && st.tasks != []
    ensures Subscribed(RunTask(st))
  {
    hide Issue;
    var t := RunTask(st);
    if IsOpen(st.net, st.net.sock) {
      assert forall k | k in st.tasks :: k == st.tasks[0] || k in t.tasks;
    }
  }

  lemma StepKeepsSubscribed(st: State, step: Step)
    requires Connected(st.net) && Subscribed(st) && Enabled(st, step)
    ensures Subscribed(Next(st, step))
  {
    hide Fresh, Direct, Remove, AddHandler, Issue, AcceptReply, Expire, CloseRequests, Fail;
    match step {
      case Subscribes(topic, h, now) => hide *; SubscribeKeepsSubscribed(st, topic, h, now);
      case Calls(sub, throws) =>
        ThenKeepsSubscribed(st.(rpc := st.rpc.(calls := st.rpc.calls + 1)), Request(st.rpc.calls, sub, throws));
      case Continues => RunTaskKeepsSubscribed(st);
      case _ =>
    }
  }

  // ---- The early-event buffer ----

  function Numbers(es: seq<Early>): seq<nat>
  {
    if es == [] then [] else [es[0].arrival] + Numbers(es[1..])
  }

  /** Numbers of the events of `topic` that came out of the buffer, in the order they were handed over. */
  function Late(ds: seq<Delivery>, topic: Topic): seq<nat>
  {
    if ds == [] then []
    else (if ds[0].late && ds[0].topic == topic then [ds[0].arrival] else []) + Late(ds[1..], topic)
  }

  ghost predicate Increasing(ns: seq<nat>)
  {
    forall i, j | 0 <= i < j < |ns| :: ns[i] < ns[j]
  }

  lemma {:induction false} LateConcat(a: seq<Delivery>, b: seq<Delivery>, topic: Topic)
    ensures Late(a + b, topic) == Late(a, topic) + Late(b, topic)
  {
    if a == [] {
      assert a + b == b;
    } else {
      assert (a + b)[1..] == a[1..] + b;
      LateConcat(a[1..], b, topic);
    }
  }

  lemma {:induction false} DirectIsNotLate(topic: Topic, n: nat, hs: seq<Handler>, other: Topic)
    ensures Late(Direct(topic, n, hs), other) == []
    ensures forall d | d in Direct(topic, n, hs) :: d == Delivery(topic, n, d.handler, false, 0) && d.handler in hs
  {
    if hs != [] {
      DirectIsNotLate(topic, n, hs[1..], other);
    }
  }

  /** Flushing hands over exactly the events still fresh, in order, to the new handler. */
  lemma {:induction false} FlushedIsFresh(topic: Topic, h: Handler, es: seq<Early>, now: int, other: Topic)
    ensures Late(Flushed(topic, h, es, now), other) == if other == topic then Numbers(Fresh(es, now)) else []
    ensures forall d | d in Flushed(topic, h, es, now) :: d.late && d.age < EARLY_EVENT_TTL_MS
  {
    if es != [] {
      FlushedIsFresh(topic, h, es[1..], now, other);
      if now - es[0].t < EARLY_EVENT_TTL_MS {
        var d := Delivery(topic, es[0].arrival, h, true, now - es[0].t);
        assert ([d] + Flushed(topic, h, es[1..], now))[1..] == Flushed(topic, h, es[1..], now);
        assert ([es[0]] + Fresh(es[1..], now))[1..] == Fresh(es[1..], now);
      } else {
        assert Flushed(topic, h, es, now) == Flushed(topic, h, es[1..], now);
        assert Fresh(es, now) == Fresh(es[1..], now);
      }
    }
  }

  lemma {:induction false} FreshMembers(es: seq<Early>, now: int)
    ensures forall e :: e in Fresh(es, now) <==> e in es && now - e.t < EARLY_EVENT_TTL_MS
  {
    if es != [] {
      FreshMembers(es[1..], now);
      assert es == [es[0]] + es[1..];
    }
  }

  lemma {:induction false} NumbersMembers(es: seq<Early>)
    ensures |Numbers(es)| == |es|
    ensures forall i | 0 <= i < |es| :: Numbers(es)[i] == es[i].arrival
  {
    if es != [] {
      NumbersMembers(es[1..]);
    }
  }

  lemma NumbersAppend(es: seq<Early>, e: Early)
    ensures Numbers(es + [e]) == Numbers(es) + [e.arrival]
  {
    NumbersMembers(es);
    NumbersMembers(es + [e]);
  }

  /** Dropping stale events keeps what was increasing increasing. */
  lemma {:induction false} FreshStaysIncreasing(p: seq<nat>, es: seq<Early>, now: int)
    requires Increasing(p + Numbers(es))
    ensures Increasing(p + Numbers(Fresh(es, now)))
    ensures forall n | n in p + Numbers(Fresh(es, now)) :: n in p + Numbers(es)
    decreases |es|
  {
    if es != [] {
      var q := p + [es[0].arrival];
      assert p + Numbers(es) == q + Numbers(es[1..]);
      if now - es[0].t < EARLY_EVENT_TTL_MS {
        FreshStaysIncreasing(q, es[1..], now);
        assert p + Numbers(Fresh(es, now)) == q + Numbers(Fresh(es[1..], now));
      } else {
        SkipStaysIncreasing(p, es[0].arrival, Numbers(es[1..]));
        FreshStaysIncreasing(p, es[1..], now);
        assert Fresh(es, now) == Fresh(es[1..], now);
      }
    }
  }

  lemma SkipStaysIncreasing(p: seq<nat>, n: nat, q: seq<nat>)
    requires Increasing(p + [n] + q)
    ensures Increasing(p + q)
  {
    var all, short := p + [n] + q, p + q;
    forall i, j | 0 <= i < j < |short|
      ensures short[i] < short[j]
    {
      var i', j' := if i < |p| then i else i + 1, if j < |p| then j else j + 1;
      assert all[i'] == short[i] && all[j'] == short[j];
    }
  }

  /** What happened to the buffered events of one topic: handed over first, then still waiting. */
  function History(b: Bus, topic: Topic): seq<nat>
  {
    Late(b.delivered, topic) + Numbers(Buffered(b, topic))
  }

  /**
   * The buffer: no topic is both handled and buffered and agent events never are; every buffered
   * event is handed over at most once, in arrival order and within its lifetime; and none is lost
   * within its lifetime.
   */
  ghost predicate BufferOk(b: Bus)
  {
    && (forall topic | topic in b.handlers :: b.handlers[topic] != [])
    && b.handlers.Keys !! b.early.Keys
    && AGENT_TOPIC !in b.early
    && (forall topic :: Increasing(History(b, topic)))
    && (forall topic, n | n in History(b, topic) :: n < |b.log|)
    && (forall topic | topic in b.early :: forall e | e in b.early[topic] ::
          e.arrival < |b.log| && b.log[e.arrival] == Arrival(topic, e.t, true))
    && (forall d | d in b.delivered && d.late :: d.age < EARLY_EVENT_TTL_MS)
  }

  /** An event that found no handler and is still within its lifetime has been or will be handed over. */
  ghost predicate NothingLost(b: Bus)
  {
    forall n | 0 <= n < |b.log| && b.log[n].buffered && b.clock - b.log[n].t < EARLY_EVENT_TTL_MS ::
      n in History(b, b.log[n].topic)
  }

  lemma ArriveHistory(b: Bus, topic: Topic, now: int, other: Topic)
    requires BufferOk(b)
    ensures History(Arrive(b, topic, now), other)
         == if other == topic && !Handled(b, topic) && topic != AGENT_TOPIC
            then Late(b.delivered, topic) + Numbers(Fresh(Buffered(b, topic), now)) + [|b.log|]
            else History(b, other)
  {
    var n := |b.log|;
    if Handled(b, topic) {
      LateConcat(b.delivered, Direct(topic, n, b.handlers[topic]), other);
      DirectIsNotLate(topic, n, b.handlers[topic], other);
    } else {
      NumbersAppend(Fresh(Buffered(b, topic), now), Early(n, now));
    }
  }

  lemma ArriveKeepsHistory(b: Bus, topic: Topic, now: int, other: Topic)
    requires BufferOk(b)
    ensures Increasing(History(Arrive(b, topic, now), other))
    ensures forall n | n in History(Arrive(b, topic, now), other) :: n < |Arrive(b, topic, now).log|
  {
    hide Fresh, Late, Numbers, Direct;
    ArriveHistory(b, topic, now, other);
    assert Increasing(History(b, other)) && forall n | n in History(b, other) :: n < |b.log|;
    if other == topic && !Handled(b, topic) && topic != AGENT_TOPIC {
      var p := Late(b.delivered, topic);
      FreshStaysIncreasing(p, Buffered(b, topic), now);
      AppendStaysIncreasing(p + Numbers(Fresh(Buffered(b, topic), now)), |b.log|);
    }
  }

  lemma AppendStaysIncreasing(p: seq<nat>, n: nat)
    requires Increasing(p) && forall k | k in p :: k < n
    ensures Increasing(p + [n]) && forall k | k in p + [n] :: k < n + 1
  {
    forall i, j | 0 <= i < j < |p + [n]|
      ensures (p + [n])[i] < (p + [n])[j]
    {
      assert (p + [n])[i] == p[i] && p[i] in p;
    }
  }

  lemma ArriveKeepsBuffer(b: Bus, topic: Topic, now: int)
    requires BufferOk(b)
    ensures BufferOk(Arrive(b, topic, now))
  {
    hide Fresh, Late, Numbers, Direct, Increasing, History;
    var a := Arrive(b, topic, now);
    forall other
      ensures Increasing(History(a, other)) && forall n | n in History(a, other) :: n < |a.log|
    {
      ArriveKeepsHistory(b, topic, now, other);
    }
    FreshMembers(Buffered(b, topic), now);
    if Handled(b, topic) {
      DirectIsNotLate(topic, |b.log|, b.handlers[topic], topic);
    }
  }

  lemma ArriveLosesNothing(b: Bus, topic: Topic, now: int)
    requires BufferOk(b) && NothingLost(b) && b.clock <= now
    ensures NothingLost(Arrive(b, topic, now))
  {
    var a := Arrive(b, topic, now);
    forall n | 0 <= n < |a.log| && a.log[n].buffered && a.clock - a.log[n].t < EARLY_EVENT_TTL_MS
      ensures n in History(a, a.log[n].topic)
    {
      ArriveHistory(b, topic, now, a.log[n].topic);
      if n < |b.log| {
        StaysInHistory(b, n, now);
      }
    }
  }

  /** A number that is in the history and still fresh survives the pruning of its topic. */
  lemma StaysInHistory(b: Bus, n: nat, now: int)
    requires BufferOk(b) && NothingLost(b) && b.clock <= now
    requires n < |b.log| && b.log[n].buffered && now - b.log[n].t < EARLY_EVENT_TTL_MS
    ensures n in Late(b.delivered, b.log[n].topic) + Numbers(Fresh(Buffered(b, b.log[n].topic), now))
  {
    var es := Buffered(b, b.log[n].topic);
    assert n in History(b, b.log[n].topic);
    NumbersMembers(es);
    if n !in Late(b.delivered, b.log[n].topic) {
      var i :| 0 <= i < |es| && Numbers(es)[i] == n;
      FreshMembers(es, now);
      var kept := Fresh(es, now);
      NumbersMembers(kept);
      var k :| 0 <= k < |kept| && kept[k] == es[i];
      assert Numbers(kept)[k] == n;
    }
  }

  lemma AddHandlerHistory(b: Bus, topic: Topic, h: Handler, now: int, other: Topic)
    ensures History(AddHandler(b, topic, h, now), other)
         == if other == topic then Late(b.delivered, topic) + Numbers(Fresh(Buffered(b, topic), now))
            else History(b, other)
  {
    LateConcat(b.delivered, Flushed(topic, h, Buffered(b, topic), now), other);
    FlushedIsFresh(topic, h, Buffered(b, topic), now, other);
  }

  lemma AddHandlerKeepsHistory(b: Bus, topic: Topic, h: Handler, now: int, other: Topic)
    requires BufferOk(b)
    ensures Increasing(History(AddHandler(b, topic, h, now), other))
    ensures forall n | n in History(AddHandler(b, topic, h, now), other) :: n < |b.log|
  {
    hide Fresh, Late, Numbers, Flushed;
    AddHandlerHistory(b, topic, h, now, other);
    assert Increasing(History(b, other)) && forall n | n in History(b, other) :: n < |b.log|;
    if other == topic {
      FreshStaysIncreasing(Late(b.delivered, topic), Buffered(b, topic), now);
    }
  }

  lemma AddHandlerKeepsBuffer(b: Bus, topic: Topic, h: Handler, now: int)
    requires BufferOk(b)
    ensures BufferOk(AddHandler(b, topic, h, now))
  {
    hide Fresh, Late, Numbers, Flushed, Increasing, History;
    var a := AddHandler(b, topic, h, now);
    forall other
      ensures Increasing(History(a, other)) && forall n | n in History(a, other) :: n < |a.log|
    {
      AddHandlerKeepsHistory(b, topic, h, now, other);
    }
    FlushedIsFresh(topic, h, Buffered(b, topic), now, topic);
  }

  lemma AddHandlerLosesNothing(b: Bus, topic: Topic, h: Handler, now: int)
    requires BufferOk(b) && NothingLost(b) && b.clock <= now
    ensures NothingLost(AddHandler(b, topic, h, now))
  {
    var a := AddHandler(b, topic, h, now);
    forall n | 0 <= n < |a.log| && a.log[n].buffered && a.clock - a.log[n].t < EARLY_EVENT_TTL_MS
      ensures n in History(a, a.log[n].topic)
    {
      AddHandlerHistory(b, topic, h, now, a.log[n].topic);
      StaysInHistory(b, n, now);
    }
  }

  lemma RemoveHandlerKeepsBuffer(b: Bus, topic: Topic, h: Handler)
    requires BufferOk(b)
    ensures BufferOk(RemoveHandler(b, topic, h)) && (NothingLost(b) ==> NothingLost(RemoveHandler(b, topic, h)))
  {
    var a := RemoveHandler(b, topic, h);
    assert forall other :: History(a, other) == History(b, other);
  }

  lemma StepKeepsBuffer(st: State, step: Step)
    requires BufferOk(st.bus) && NothingLost(st.bus) && Enabled(st, step)
    ensures BufferOk(Next(st, step).bus) && NothingLost(Next(st, step).bus)
  {
    hide BufferOk, NothingLost, Arrive, AddHandler, RemoveHandler, EnsureSocket, OpenNet, CloseNet, SendSubs, Beat;
    hide Issue, AcceptReply, Expire, CloseRequests, Fail;
    match step {
      case Receives(s, env, now) =>
        if env.Event? {
          ArriveKeepsBuffer(st.bus, env.topic, now);
          ArriveLosesNothing(st.bus, env.topic, now);
        }
      case Subscribes(topic, h, now) =>
        AddHandlerKeepsBuffer(st.bus, topic, h, now);
        AddHandlerLosesNothing(st.bus, topic, h, now);
      case Unsubscribes(topic, h) => RemoveHandlerKeepsBuffer(st.bus, topic, h);
      case _ =>
    }
  }

  // ---- Calls ----

  function TaskCount(ts: seq<Task>, k: Ticket): nat
  {
    if ts == [] then 0
    else (if ts[0].job.Request? && ts[0].job.ticket == k then 1 else 0) + TaskCount(ts[1..], k)
  }

  function PendingCount(ps: seq<Pending>, k: Ticket): nat
  {
    if ps == [] then 0 else (if ps[0].ticket == k then 1 else 0) + PendingCount(ps[1..], k)
  }

  function SettledCount(ss: seq<Settled>, k: Ticket): nat
  {
    if ss == [] then 0 else (if ss[0].ticket == k then 1 else 0) + SettledCount(ss[1..], k)
  }

  /** How often call `k` waits for a connection, is about to be sent, is pending, or is settled. */
  function Places(st: State, k: Ticket): nat
  {
    TaskCount(st.waiting, k) + TaskCount(st.tasks, k) + PendingCount(st.rpc.pending, k) + SettledCount(st.rpc.settled, k)
  }

  /** Every call made is in exactly one place, once. */
  ghost predicate EachCallOnce(st: State)
  {
    forall k: Ticket :: Places(st, k) == if k < st.rpc.calls then 1 else 0
  }

  lemma {:induction false} TaskCountConcat(a: seq<Task>, b: seq<Task>, k: Ticket)
    ensures TaskCount(a + b, k) == TaskCount(a, k) + TaskCount(b, k)
  {
    if a == [] {
      assert a + b == b;
    } else {
      assert (a + b)[1..] == a[1..] + b;
      TaskCountConcat(a[1..], b, k);
    }
  }

  lemma {:induction false} PendingCountConcat(a: seq<Pending>, b: seq<Pending>, k: Ticket)
    ensures PendingCount(a + b, k) == PendingCount(a, k) + PendingCount(b, k)
  {
    if a == [] {
      assert a + b == b;
    } else {
      assert (a + b)[1..] == a[1..] + b;
      PendingCountConcat(a[1..], b, k);
    }
  }

  lemma {:induction false} SettledCountConcat(a: seq<Settled>, b: seq<Settled>, k: Ticket)
    ensures SettledCount(a + b, k) == SettledCount(a, k) + SettledCount(b, k)
  {
    if a == [] {
      assert a + b == b;
    } else {
      assert (a + b)[1..] == a[1..] + b;
      SettledCountConcat(a[1..], b, k);
    }
  }

  lemma {:induction false} SplitKeepsCount(ts: seq<Task>, s: Sock, k: Ticket)
    ensures TaskCount(OnSocket(ts, s), k) + TaskCount(OffSocket(ts, s), k) == TaskCount(ts, k)
  {
    if ts != [] {
      SplitKeepsCount(ts[1..], s, k);
      TaskCountConcat(if ts[0].socket == s then [ts[0]] else [], OnSocket(ts[1..], s), k);
      TaskCountConcat(if ts[0].socket == s then [] else [ts[0]], OffSocket(ts[1..], s), k);
    }
  }

  lemma {:induction false} FailedCallsKeepCount(ts: seq<Task>, k: Ticket)
    ensures SettledCount(FailedCalls(ts), k) == TaskCount(ts, k)
  {
    if ts != [] {
      FailedCallsKeepCount(ts[1..], k);
      SettledCountConcat(if ts[0].job.Request? then [Settled(ts[0].job.ticket, ConnectionFailed)] else [],
        FailedCalls(ts[1..]), k);
    }
  }

  lemma {:induction false} CloseKeepsCount(ps: seq<Pending>, s: Sock, k: Ticket)
    ensures PendingCount(Others(ps, s), k) + SettledCount(ClosedBy(ps, s), k) == PendingCount(ps, k)
  {
    if ps != [] {
      CloseKeepsCount(ps[1..], s, k);
      PendingCountConcat(if ps[0].socket == s then [] else [ps[0]], Others(ps[1..], s), k);
      SettledCountConcat(if ps[0].socket == s then [Settled(ps[0].ticket, SocketClosed(s))] else [],
        ClosedBy(ps[1..], s), k);
    }
  }

  /** How often call `k` is with the requests: pending or settled. */
  function RpcPlaces(r: Rpc, k: Ticket): nat
  {
    PendingCount(r.pending, k) + SettledCount(r.settled, k)
  }

  lemma SettleKeepsCount(r: Rpc, i: nat, o: Outcome, k: Ticket)
    requires i < |r.pending|
    ensures RpcPlaces(SettleAt(r, i, o), k) == RpcPlaces(r, k)
  {
    var p := r.pending;
    assert p == p[..i] + ([p[i]] + p[i + 1..]);
    PendingCountConcat(p[..i], [p[i]] + p[i + 1..], k);
    PendingCountConcat([p[i]], p[i + 1..], k);
    PendingCountConcat(p[..i], p[i + 1..], k);
    SettledCountConcat(r.settled, [Settled(p[i].ticket, o)], k);
  }

  lemma ReplyKeepsCount(r: Rpc, s: Sock, id: nat, ok: bool, k: Ticket)
    ensures RpcPlaces(AcceptReply(r, s, id, ok), k) == RpcPlaces(r, k) == RpcPlaces(Expire(r, id), k)
  {
    hide SettleAt, RpcPlaces;
    FindPendingFinds(r.pending, id);
    match FindPending(r.pending, id) {
      case None =>
      case Some(i) =>
        SettleKeepsCount(r, i, Replied(s, ok), k);
        SettleKeepsCount(r, i, TimedOut, k);
    }
  }

  lemma IssueAddsCount(r: Rpc, s: Sock, ticket: Ticket, throws: bool, k: Ticket)
    ensures RpcPlaces(Issue(r, s, ticket, throws), k) == RpcPlaces(r, k) + if k == ticket then 1 else 0
  {
    SettledCountConcat(r.settled, [Settled(ticket, SendFailed)], k);
    PendingCountConcat(r.pending, [Pending(r.cmdSeq + 1, ticket, s)], k);
  }

  lemma RejectKeepsCount(st: State, s: Sock, k: Ticket)
    ensures Places(OnError(st, s), k) == Places(st, k) == Places(OnClose(st, s), k)
  {
    hide CloseNet, OnSocket, OffSocket, Others, ClosedBy, FailedCalls;
    var failed := FailedCalls(OnSocket(st.waiting, s));
    SplitKeepsCount(st.waiting, s, k);
    FailedCallsKeepCount(OnSocket(st.waiting, s), k);
    SettledCountConcat(st.rpc.settled, failed, k);
    CloseKeepsCount(st.rpc.pending, s, k);
    SettledCountConcat(st.rpc.settled + failed, ClosedBy(st.rpc.pending, s), k);
  }

  lemma OpenKeepsCount(st: State, s: Sock, k: Ticket)
    ensures Places(OnOpen(st, s), k) == Places(st, k)
  {
    hide OpenNet, OnSocket, OffSocket;
    SplitKeepsCount(st.waiting, s, k);
    TaskCountConcat(st.tasks, OnSocket(st.waiting, s), k);
  }

  lemma ThenAddsCount(st: State, job: Job, k: Ticket)
    requires Connected(st.net)
    ensures Places(Then(st, job), k) == Places(st, k) + if job.Request? && job.ticket == k then 1 else 0
  {
    hide Connected, EnsureSocket;
    EnsureKeepsConnected(st.net);
    var n := EnsureSocket(st.net);
    if IsOpen(n, n.sock) {
      TaskCountConcat(st.tasks, [Task(n.sock.value, job)], k);
    } else {
      TaskCountConcat(st.waiting, [Task(n.connecting.value, job)], k);
    }
  }

  lemma RunTaskKeepsCount(st: State, k: Ticket)
    requires st.tasks != []
    ensures Places(RunTask(st), k) == Places(st, k)
  {
    hide SendSubs, Issue;
    var job := st.tasks[0].job;
    if job.Request? {
      IssueAddsCount(st.rpc, st.tasks[0].socket, job.ticket, job.throws, k);
    }
  }

  lemma StepKeepsCount(st: State, step: Step, k: Ticket)
    requires Connected(st.net) && Enabled(st, step)
    ensures Places(Next(st, step), k) == Places(st, k) + if step.Calls? && k == st.rpc.calls then 1 else 0
  {
    hide Connected, OnOpen, OnError, OnClose, Then, RunTask, SendSubs, Beat, EnsureSocket, AcceptReply, Expire;
    hide AddHandler, Arrive, RemoveHandler, TaskCount;
    match step {
      case Opens(s) => OpenKeepsCount(st, s, k);
      case Errs(s) => RejectKeepsCount(st, s, k);
      case Closes(s) => RejectKeepsCount(st, s, k);
      case Receives(s, env, now) =>
        if env.Reply? { ReplyKeepsCount(st.rpc, s, env.id, env.ok, k); }
      case Subscribes(topic, h, now) => ThenAddsCount(st.(bus := AddHandler(st.bus, topic, h, now)), SendSub(topic), k);
      case Calls(sub, throws) =>
        ThenAddsCount(st.(rpc := st.rpc.(calls := st.rpc.calls + 1)), Request(st.rpc.calls, sub, throws), k);
      case Continues => RunTaskKeepsCount(st, k);
      case Expires(id) => ReplyKeepsCount(st.rpc, 0, id, true, k);
      case _ =>
    }
  }

  /** The number of calls grows with each call only, and settlements are never taken back. */
  lemma SettlementsAreFinal(st: State, step: Step)
    requires Enabled(st, step)
    ensures Next(st, step).rpc.calls == st.rpc.calls + if step.Calls? then 1 else 0
    ensures st.rpc.settled <= Next(st, step).rpc.settled
  {
    hide Fresh, Direct, Flushed, OpenNet, CloseNet, SendSubs, Beat, EnsureSocket, AddHandler, Arrive, RemoveHandler;
  }

  lemma StepKeepsEachCallOnce(st: State, step: Step)
    requires Connected(st.net) && EachCallOnce(st) && Enabled(st, step)
    ensures EachCallOnce(Next(st, step))
  {
    hide Connected, Enabled, Next, Places;
    SettlementsAreFinal(st, step);
    forall k: Ticket
      ensures Places(Next(st, step), k) == if k < Next(st, step).rpc.calls then 1 else 0
    {
      StepKeepsCount(st, step, k);
    }
  }

  // ---- Requests belong to their socket ----

  /** Pending requests have increasing ids, and a settlement names the socket of its request. */
  ghost predicate Owned(r: Rpc)
  {
    && (forall i, j | 0 <= i < j < |r.pending| :: r.pending[i].id < r.pending[j].id)
    && (forall p | p in r.pending :: p.id <= r.cmdSeq && p.ticket in r.sentOn && r.sentOn[p.ticket] == p.socket)
    && (forall x | x in r.settled && (x.outcome.Replied? || x.outcome.SocketClosed?) ::
          x.ticket in r.sentOn && r.sentOn[x.ticket] == x.outcome.socket)
  }

  lemma {:induction false} PendingAbsent(ps: seq<Pending>, k: Ticket)
    requires PendingCount(ps, k) == 0
    ensures forall p | p in ps :: p.ticket != k
  {
    if ps != [] {
      PendingAbsent(ps[1..], k);
      assert ps == [ps[0]] + ps[1..];
    }
  }

  lemma {:induction false} SettledAbsent(ss: seq<Settled>, k: Ticket)
    requires SettledCount(ss, k) == 0
    ensures forall x | x in ss :: x.ticket != k
  {
    if ss != [] {
      SettledAbsent(ss[1..], k);
      assert ss == [ss[0]] + ss[1..];
    }
  }

  lemma {:induction false} OthersKeepOrder(ps: seq<Pending>, s: Sock)
    requires forall i, j | 0 <= i < j < |ps| :: ps[i].id < ps[j].id
    ensures forall p :: p in Others(ps, s) <==> p in ps && p.socket != s
    ensures forall i, j | 0 <= i < j < |Others(ps, s)| :: Others(ps, s)[i].id < Others(ps, s)[j].id
    ensures forall x | x in ClosedBy(ps, s) :: exists p :: p in ps && p.socket == s && x == Settled(p.ticket, SocketClosed(s))
  {
    if ps != [] {
      OthersKeepOrder(ps[1..], s);
      assert ps == [ps[0]] + ps[1..];
      assert forall p | p in Others(ps[1..], s) :: p in ps[1..];
    }
  }

  lemma {:induction false} FailedCallsOutcome(ts: seq<Task>)
    ensures forall x | x in FailedCalls(ts) :: x.outcome == ConnectionFailed
  {
    if ts != [] {
      FailedCallsOutcome(ts[1..]);
    }
  }

  lemma SettleKeepsOwned(r: Rpc, i: nat, o: Outcome)
    requires Owned(r) && i < |r.pending|
    requires (o.Replied? || o.SocketClosed?) ==> o.socket == r.pending[i].socket
    ensures Owned(SettleAt(r, i, o))
  {
    var t := SettleAt(r, i, o);
    assert forall p | p in t.pending :: p in r.pending;
    assert r.pending[i] in r.pending;
  }

  lemma CloseKeepsOwned(r: Rpc, s: Sock, failed: seq<Settled>)
    requires Owned(r) && forall x | x in failed :: x.outcome == ConnectionFailed
    ensures Owned(CloseRequests(Fail(r, failed), s)) && Owned(Fail(r, failed))
  {
    OthersKeepOrder(r.pending, s);
  }

  lemma IssueKeepsOwned(r: Rpc, s: Sock, ticket: Ticket, throws: bool)
    requires Owned(r) && RpcPlaces(r, ticket) == 0
    ensures Owned(Issue(r, s, ticket, throws))
  {
    PendingAbsent(r.pending, ticket);
    SettledAbsent(r.settled, ticket);
    hide RpcPlaces, Issue, Owned;
    NewTicketKeepsOwned(r, s, ticket, throws);
  }

  lemma NewTicketKeepsOwned(r: Rpc, s: Sock, ticket: Ticket, throws: bool)
    requires Owned(r)
    requires forall p | p in r.pending :: p.ticket != ticket
    requires forall x | x in r.settled :: x.ticket != ticket
    ensures Owned(Issue(r, s, ticket, throws))
  {
    var t := Issue(r, s, ticket, throws);
    assert t.sentOn == r.sentOn[ticket := s];
    if throws {
      assert t.pending == r.pending;
      assert forall x | x in t.settled :: x in r.settled || x == Settled(ticket, SendFailed);
    } else {
      assert t.settled == r.settled;
      assert forall i | 0 <= i < |r.pending| :: r.pending[i] in r.pending && t.pending[i] == r.pending[i];
    }
  }

  lemma ReplyKeepsOwned(r: Rpc, s: Sock, id: nat, ok: bool)
    requires Owned(r)
    ensures Owned(AcceptReply(r, s, id, ok)) && Owned(Expire(r, id))
  {
    hide Owned, SettleAt;
    FindPendingFinds(r.pending, id);
    match FindPending(r.pending, id) {
      case None =>
      case Some(i) =>
        if r.pending[i].socket == s { SettleKeepsOwned(r, i, Replied(s, ok)); }
        SettleKeepsOwned(r, i, TimedOut);
    }
  }

  lemma StepKeepsOwned(st: State, step: Step)
    requires EachCallOnce(st) && Owned(st.rpc) && Enabled(st, step)
    ensures Owned(Next(st, step).rpc)
  {
    hide OnOpen, Beat, EnsureSocket, AcceptReply, Expire, CloseRequests, Fail, CloseNet, Issue;
    hide AddHandler, Arrive, RemoveHandler;
    match step {
      case Opens(s) => assert OnOpen(st, s).rpc == st.rpc by { OpenKeepsRpc(st, s); }
      case Errs(s) =>
        FailedCallsOutcome(OnSocket(st.waiting, s));
        CloseKeepsOwned(st.rpc, s, FailedCalls(OnSocket(st.waiting, s)));
      case Closes(s) =>
        FailedCallsOutcome(OnSocket(st.waiting, s));
        CloseKeepsOwned(st.rpc, s, FailedCalls(OnSocket(st.waiting, s)));
      case Receives(s, env, now) => if env.Reply? { ReplyKeepsOwned(st.rpc, s, env.id, env.ok); }
      case Continues =>
        var job := st.tasks[0].job;
        if job.Request? {
          assert Places(st, job.ticket) <= 1 && TaskCount(st.tasks, job.ticket) >= 1;
          IssueKeepsOwned(st.rpc, st.tasks[0].socket, job.ticket, job.throws);
        }
      case Expires(id) => ReplyKeepsOwned(st.rpc, 0, id, true);
      case _ =>
    }
  }

  lemma OpenKeepsRpc(st: State, s: Sock)
    ensures OnOpen(st, s).rpc == st.rpc
  {
  }

  // ---- Main results: every run ----

  ghost predicate Inv(st: State)
  {
    Connected(st.net) && Subscribed(st) && BufferOk(st.bus) && NothingLost(st.bus) && EachCallOnce(st) && Owned(st.rpc)
  }

  lemma InitialInv()
    ensures Inv(INITIAL)
  {
  }

  lemma {:induction false} RunKeepsInv(st: State, steps: seq<Step>)
    requires Inv(st) && IsRun(st, steps)
    ensures Inv(After(st, steps))
    decreases |steps|
  {
    if steps != [] {
      hide Connected, Subscribed, BufferOk, NothingLost, EachCallOnce, Owned, Next, Enabled;
      StepKeepsConnected(st, steps[0]);
      StepKeepsSubscribed(st, steps[0]);
      StepKeepsBuffer(st, steps[0]);
      StepKeepsEachCallOnce(st, steps[0]);
      StepKeepsOwned(st, steps[0]);
      RunKeepsInv(Next(st, steps[0]), steps[1..]);
    }
  }

  lemma {:induction false} RunKeepsSettlements(st: State, steps: seq<Step>)
    requires IsRun(st, steps)
    ensures st.rpc.settled <= After(st, steps).rpc.settled
    decreases |steps|
  {
    if steps != [] {
      hide Next, Enabled;
      SettlementsAreFinal(st, steps[0]);
      RunKeepsSettlements(Next(st, steps[0]), steps[1..]);
    }
  }

  /**
   * In every run each call is settled at most once, for good, and exactly once when nothing is under
   * way any more; a reply, or the close of a socket, settles only requests sent on that socket.
   */
  lemma RequestsSettleExactlyOnce(steps: seq<Step>, more: seq<Step>)
    requires IsRun(INITIAL, steps) && IsRun(After(INITIAL, steps), more)
    ensures var st := After(INITIAL, steps);
            && st.rpc.settled <= After(st, more).rpc.settled
            && (forall k: Ticket :: SettledCount(st.rpc.settled, k) <= if k < st.rpc.calls then 1 else 0)
            && (st.waiting == [] && st.tasks == [] && st.rpc.pending == [] ==>
                  forall k: Ticket | k < st.rpc.calls :: SettledCount(st.rpc.settled, k) == 1)
            && (forall x | x in st.rpc.settled && (x.outcome.Replied? || x.outcome.SocketClosed?) ::
                  x.ticket in st.rpc.sentOn && st.rpc.sentOn[x.ticket] == x.outcome.socket)
  {
    hide Next, Enabled, Connected, Subscribed, BufferOk, NothingLost;
    InitialInv();
    RunKeepsInv(INITIAL, steps);
    var st := After(INITIAL, steps);
    RunKeepsSettlements(st, more);
    forall k: Ticket
      ensures SettledCount(st.rpc.settled, k) <= if k < st.rpc.calls then 1 else 0
      ensures st.waiting == [] && st.tasks == [] && st.rpc.pending == [] && k < st.rpc.calls ==>
                SettledCount(st.rpc.settled, k) == 1
    {
      assert Places(st, k) == if k < st.rpc.calls then 1 else 0;
    }
  }

  /**
   * The close of a socket that has been replaced touches nothing of its successor: not the socket,
   * the connection under way, the heartbeat or a reconnect timer, nor any request of another socket.
   */
  lemma LateCloseIsHarmless(st: State, s: Sock)
    requires Owned(st.rpc) && st.net.sock != Some(s) && st.net.opening != Some(s)
    ensures OnClose(st, s).net == st.net.(phases := st.net.phases[s := Closed])
    ensures OnClose(st, s).bus == st.bus && OnClose(st, s).tasks == st.tasks
    ensures forall p :: p in OnClose(st, s).rpc.pending <==> p in st.rpc.pending && p.socket != s
    ensures forall t :: t in OnClose(st, s).waiting <==> t in st.waiting && t.socket != s
    ensures OnClose(st, s).rpc.settled[..|st.rpc.settled|] == st.rpc.settled
    ensures forall x | x in OnClose(st, s).rpc.settled[|st.rpc.settled|..] ::
              x.outcome == SocketClosed(s) || x.outcome == ConnectionFailed
  {
    OthersKeepOrder(st.rpc.pending, s);
    OffSocketMembers(st.waiting, s);
    FailedCallsOutcome(OnSocket(st.waiting, s));
    var failed, closed := FailedCalls(OnSocket(st.waiting, s)), ClosedBy(st.rpc.pending, s);
    assert OnClose(st, s).rpc.settled == st.rpc.settled + (failed + closed);
  }

  lemma {:induction false} OffSocketMembers(ts: seq<Task>, s: Sock)
    ensures forall t :: t in OffSocket(ts, s) <==> t in ts && t.socket != s
  {
    if ts != [] {
      OffSocketMembers(ts[1..], s);
      assert ts == [ts[0]] + ts[1..];
    }
  }

  /** Once the queued sends have run, the open socket is subscribed to every topic with a handler. */
  lemma EveryHandledTopicIsSubscribed(steps: seq<Step>)
    requires IsRun(INITIAL, steps)
    ensures var st := After(INITIAL, steps);
            st.tasks == [] && IsOpen(st.net, st.net.sock) ==>
              st.net.sock.value in st.net.subs && st.bus.handlers.Keys <= st.net.subs[st.net.sock.value]
  {
    hide Next, Enabled, BufferOk, NothingLost, EachCallOnce, Owned;
    InitialInv();
    RunKeepsInv(INITIAL, steps);
  }

  /**
   * In every run: a topic is never both handled and buffered; the buffered events of a topic are
   * handed over at most once each, in arrival order and within their lifetime; and an event that
   * found no handler is handed over if a handler comes within its lifetime.
   */
  lemma EarlyEventsAreFlushedOnce(steps: seq<Step>)
    requires IsRun(INITIAL, steps)
    ensures var b := After(INITIAL, steps).bus;
            && b.handlers.Keys !! b.early.Keys && AGENT_TOPIC !in b.early
            && (forall topic :: Increasing(Late(b.delivered, topic)))
            && (forall d | d in b.delivered && d.late :: d.age < EARLY_EVENT_TTL_MS)
            && (forall n | 0 <= n < |b.log| && b.log[n].buffered && Handled(b, b.log[n].topic)
                  && b.clock - b.log[n].t < EARLY_EVENT_TTL_MS :: n in Late(b.delivered, b.log[n].topic))
  {
    hide Next, Enabled, Connected, Subscribed, EachCallOnce, Owned;
    InitialInv();
    RunKeepsInv(INITIAL, steps);
    var b := After(INITIAL, steps).bus;
    forall topic
      ensures Increasing(Late(b.delivered, topic))
    {
      assert Increasing(History(b, topic));
      var h, l := History(b, topic), Late(b.delivered, topic);
      assert h[..|l|] == l;
      assert forall i | 0 <= i < |l| :: h[i] == l[i];
    }
    forall n | 0 <= n < |b.log| && b.log[n].buffered && Handled(b, b.log[n].topic)
               && b.clock - b.log[n].t < EARLY_EVENT_TTL_MS
      ensures n in Late(b.delivered, b.log[n].topic)
    {
      assert n in History(b, b.log[n].topic);
      assert Buffered(b, b.log[n].topic) == [];
    }
  }

  // ---- Heartbeat ----

  function BeatsIn(steps: seq<Step>): nat
  {
    if steps == [] then 0 else (if steps[0].Beats? then 1 else 0) + BeatsIn(steps[1..])
  }

  /** No pong came in on `s`. */
  predicate Silent(steps: seq<Step>, s: Sock)
  {
    forall k | 0 <= k < |steps| :: !(steps[k].Receives? && steps[k].s == s && steps[k].env.Pong?)
  }

  lemma StepOnSilentSocket(st: State, step: Step, s: Sock)
    requires Connected(st.net) && Enabled(st, step) && st.net.sock == Some(s) && IsOpen(st.net, Some(s))
    requires !(step.Receives? && step.s == s && step.env.Pong?)
    ensures s in Next(st, step).net.phases
    ensures IsOpen(Next(st, step).net, Some(s)) ==>
              && Next(st, step).net.sock == Some(s)
              && (step.Beats? ==> st.net.missedPongs < 2)
              && Next(st, step).net.missedPongs == st.net.missedPongs + if step.Beats? then 1 else 0
  {
    hide OnSocket, OffSocket, FailedCalls, ClosedBy, Others, Fresh, Direct, Flushed, AddHandler, Arrive, RemoveHandler;
  }

  lemma ClosingIsFinal(st: State, step: Step, s: Sock)
    requires Connected(st.net) && Enabled(st, step) && InPhase(st.net, s, {Closing, Closed})
    ensures InPhase(Next(st, step).net, s, {Closing, Closed})
  {
    hide Issue, AcceptReply, Expire, CloseRequests, Fail, OnSocket, OffSocket, FailedCalls, ClosedBy, Others, Fresh, Direct, Flushed, AddHandler, Arrive, RemoveHandler;
  }

  lemma OpenPhaseExactly(st: State, s: Sock, step: Step)
    requires Connected(st.net) && Enabled(st, step) && st.net.sock == Some(s) && IsOpen(st.net, Some(s))
    ensures InPhase(Next(st, step).net, s, {Open, Closing, Closed})
  {
    hide OnSocket, OffSocket, FailedCalls, ClosedBy, Others, Fresh, Direct, Flushed, AddHandler, Arrive, RemoveHandler;
  }

  lemma {:induction false} ClosedForGood(st: State, steps: seq<Step>, s: Sock)
    requires Connected(st.net) && IsRun(st, steps) && InPhase(st.net, s, {Closing, Closed})
    ensures !IsOpen(After(st, steps).net, Some(s))
    decreases |steps|
  {
    hide Next, Enabled, Connected;
    if steps != [] {
      ClosingIsFinal(st, steps[0], s);
      StepKeepsConnected(st, steps[0]);
      ClosedForGood(Next(st, steps[0]), steps[1..], s);
    }
  }

  /** Whatever else happens: an open socket on which no pong comes in is no longer open after three heartbeats. */
  lemma {:induction false} SilentSocketIsClosed(st: State, steps: seq<Step>, s: Sock)
    requires Connected(st.net) && IsRun(st, steps) && st.net.sock == Some(s) && IsOpen(st.net, Some(s))
    requires Silent(steps, s) && st.net.missedPongs + BeatsIn(steps) >= 3 && st.net.missedPongs <= 2
    ensures !IsOpen(After(st, steps).net, Some(s))
    decreases |steps|
  {
    hide Next, Enabled, Connected;
    if steps != [] {
      var st1 := Next(st, steps[0]);
      StepKeepsConnected(st, steps[0]);
      assert !(steps[0].Receives? && steps[0].s == s && steps[0].env.Pong?);
      StepOnSilentSocket(st, steps[0], s);
      OpenPhaseExactly(st, s, steps[0]);
      assert forall k | 0 <= k < |steps[1..]| :: steps[1..][k] == steps[k + 1];
      if IsOpen(st1.net, Some(s)) {
        SilentSocketIsClosed(st1, steps[1..], s);
      } else {
        ClosedForGood(st1, steps[1..], s);
      }
    }
  }

  // ---- Never stuck ----

  /** While a topic is handled there is a current socket, one being opened, or a reconnect timer. */
  ghost predicate Alive(st: State)
  {
    st.bus.handlers.Keys != {} ==> st.net.sock.Some? || st.net.opening.Some? || st.net.reconnects > 0
  }

  lemma EnsureIsAlive(n: Net)
    requires Connected(n)
    ensures EnsureSocket(n).sock.Some? || EnsureSocket(n).opening.Some?
  {
  }

  lemma BusHandlers(b: Bus, topic: Topic, h: Handler, now: int)
    ensures Arrive(b, topic, now).handlers == b.handlers
    ensures RemoveHandler(b, topic, h).handlers.Keys <= b.handlers.Keys
  {
  }

  lemma SendKeepsSockets(n: Net, s: Sock, add: set<Topic>, remove: set<Topic>)
    ensures SendSubs(n, s, add, remove) == n.(subs := SendSubs(n, s, add, remove).subs)
  {
  }

  lemma ThenIsAlive(st: State, job: Job)
    requires Connected(st.net)
    ensures Alive(Then(st, job))
  {
    hide Connected;
    EnsureIsAlive(st.net);
    hide EnsureSocket;
  }

  lemma StepKeepsAlive(st: State, step: Step)
    requires Connected(st.net) && Alive(st) && Enabled(st, step)
    ensures Alive(Next(st, step))
  {
    hide Connected, EnsureSocket, SendSubs, Issue, AcceptReply, Expire, CloseRequests, Fail, OnSocket, OffSocket, Then;
    hide Arrive, AddHandler, RemoveHandler;
    match step {
      case Receives(s, env, now) => if env.Event? { BusHandlers(st.bus, env.topic, 0, now); }
      case Subscribes(topic, h, now) => ThenIsAlive(st.(bus := AddHandler(st.bus, topic, h, now)), SendSub(topic));
      case Unsubscribes(topic, h) =>
        BusHandlers(st.bus, topic, h, 0);
        if st.net.sock.Some? { SendKeepsSockets(st.net, st.net.sock.value, {}, {topic}); }
      case Calls(sub, throws) =>
        ThenIsAlive(st.(rpc := st.rpc.(calls := st.rpc.calls + 1)), Request(st.rpc.calls, sub, throws));
      case Continues =>
        var job := st.tasks[0].job;
        var topic := if job.SendSub? then job.topic else if job.sub.Some? then job.sub.value else "";
        SendKeepsSockets(st.net, st.tasks[0].socket, {topic}, {});
      case Reconnects =>
        var n := st.net.(reconnects := st.net.reconnects - 1);
        CountersKeepConnected(st.net);
        EnsureIsAlive(n);
      case _ =>
    }
  }

  lemma {:induction false} RunKeepsAlive(st: State, steps: seq<Step>)
    requires Connected(st.net) && Alive(st) && IsRun(st, steps)
    ensures Connected(After(st, steps).net) && Alive(After(st, steps))
    decreases |steps|
  {
    hide Connected, Alive, Next, Enabled;
    if steps != [] {
      StepKeepsConnected(st, steps[0]);
      StepKeepsAlive(st, steps[0]);
      RunKeepsAlive(Next(st, steps[0]), steps[1..]);
    }
  }

  /**
   In every reachable state with a handled topic the channel will move: there is a current socket that
   is open or closing, one being opened whose outcome is still to come, or an armed reconnect timer.
   */
  lemma ChannelIsNeverStuck(steps: seq<Step>)
    requires IsRun(INITIAL, steps) && After(INITIAL, steps).bus.handlers.Keys != {}
    ensures var st := After(INITIAL, steps);
            || (st.net.sock.Some? && InPhase(st.net, st.net.sock.value, {Open, Closing}))
            || (st.net.opening.Some? && Enabled(st, Opens(st.net.opening.value)) && Enabled(st, Closes(st.net.opening.value)))
            || Enabled(st, Reconnects)
  {
    hide IsRun, After;
    assert Connected(INITIAL.net) && Alive(INITIAL);
    RunKeepsAlive(INITIAL, steps);
  }
}
