/**
 The callbacks of the shared WebSocket on mutable variables, each proved to do what its function on
 `Transport.State` says.  The module variables are grouped as the state is: sockets, events, requests.
 */
module TransportChannel {
  import opened Prelude
  import opened Transport

  /** `sock`, `connecting`, `openingSocket`, the heartbeat, and the browser's sockets. */
  class Sockets {
    var phases: map<Sock, Phase>
    var nextSock: Sock
    var sock: Option<Sock>
    var openingSocket: Option<Sock>
    var connecting: Option<Sock>
    var heartbeat: bool
    var missedPongs: nat
    var reconnects: nat
    var subs: map<Sock, set<Topic>>

    ghost function Abs(): Net
      reads this
    {
      Net(phases, nextSock, sock, openingSocket, connecting, heartbeat, missedPongs, reconnects, subs)
    }

    predicate SockOpen()
      reads this
      ensures SockOpen() <==> IsOpen(Abs(), sock)
    {
      sock.Some? && sock.value in phases && phases[sock.value] == Open
    }

    constructor ()
      ensures Abs() == INITIAL.net
    {
      phases, nextSock, sock, openingSocket, connecting := map[], 0, None, None, None;
      heartbeat, missedPongs, reconnects, subs := false, 0, 0, map[];
    }

    method Ensure()
      modifies this
      ensures Abs() == EnsureSocket(old(Abs()))
    {
      if SockOpen() { return; }
      if connecting.Some? { return; }
      var s := nextSock;
      nextSock := s + 1;
      phases := phases[s := Connecting];
      subs := subs[s := {}];
      openingSocket := Some(s);
      connecting := Some(s);
    }

    method Send(s: Sock, add: set<Topic>, remove: set<Topic>)
      modifies this
      ensures Abs() == SendSubs(old(Abs()), s, add, remove)
    {
      if s in phases && phases[s] == Open && s in subs {
        subs := subs[s := subs[s] + add - remove];
      }
    }

    /** Restore every active subscription: one frame for each topic. */
    method Resubscribe(s: Sock, topics: set<Topic>)
      requires s in phases && phases[s] == Open && s in subs
      modifies this`subs
      ensures subs == old(subs)[s := old(subs)[s] + topics]
    {
      var todo := topics;
      ghost var done: set<Topic> := {};
      assert subs == subs[s := subs[s] + {}] by { assert subs[s] + {} == subs[s]; }
      while todo != {}
        invariant todo + done == topics
        invariant s in subs && subs == old(subs)[s := old(subs)[s] + done]
        decreases todo
      {
        var topic :| topic in todo;
        todo, done := todo - {topic}, done + {topic};
        subs := subs[s := subs[s] + {topic}];
        assert subs[s] == old(subs)[s] + done;
      }
      assert done == topics;
    }

    method Opened(s: Sock, topics: set<Topic>)
      requires InPhase(Abs(), s, {Connecting}) && s in subs
      modifies this
      ensures Abs() == OpenNet(old(Abs()), s, topics)
    {
      phases := phases[s := Open];
      if openingSocket != Some(s) {
        phases := phases[s := Closing];
        return;
      }
      openingSocket := None;
      sock := Some(s);
      connecting := None;
      missedPongs := 0;
      Resubscribe(s, topics);
      if !heartbeat { heartbeat := true; }
    }

    method ClosedDown(s: Sock, live: bool)
      modifies this
      ensures Abs() == CloseNet(old(Abs()), s, live)
    {
      phases := phases[s := Closed];
      if sock != Some(s) && openingSocket != Some(s) { return; }
      if sock == Some(s) { sock := None; }
      if openingSocket == Some(s) { openingSocket := None; connecting := None; }
      if heartbeat { heartbeat := false; }
      if live { reconnects := reconnects + 1; }
    }

    method Tick()
      modifies this
      ensures Abs() == Beat(old(Abs()))
    {
      if !SockOpen() { return; }
      if missedPongs >= 2 {
        phases := phases[sock.value := Closing];
        return;
      }
      missedPongs := missedPongs + 1;
    }

    method CloseExpired(readySocket: Sock)
      modifies this
      ensures Abs() == SessionExpired(old(Abs()), readySocket)
    {
      if sock == Some(readySocket) && SockOpen() {
        phases := phases[readySocket := Closing];
      }
    }
  }

  /** `topicHandlers` and `earlyEvents`. */
  class Events {
    var topicHandlers: map<Topic, seq<Handler>>
    var earlyEvents: map<Topic, seq<Early>>
    var log: seq<Arrival>
    var clock: int
    var delivered: seq<Delivery>

    ghost function Abs(): Bus
      reads this
    {
      Bus(topicHandlers, earlyEvents, log, clock, delivered)
    }

    constructor ()
      ensures Abs() == INITIAL.bus
    {
      topicHandlers, earlyEvents, log, clock, delivered := map[], map[], [], 0, [];
    }

    method Deliver(topic: Topic, n: nat, hs: seq<Handler>)
      modifies this`delivered
      ensures delivered == old(delivered) + Direct(topic, n, hs)
    {
      for i := 0 to |hs|
        invariant delivered + Direct(topic, n, hs[i..]) == old(delivered) + Direct(topic, n, hs)
      {
        assert hs[i..][0] == hs[i] && hs[i..][1..] == hs[i + 1..];
        delivered := delivered + [Delivery(topic, n, hs[i], false, 0)];
      }
      assert delivered + [] == delivered;
    }

    static method Prune(arr: seq<Early>, now: int) returns (kept: seq<Early>)
      ensures kept == Fresh(arr, now)
    {
      kept := [];
      assert arr[0..] == arr && [] + Fresh(arr, now) == Fresh(arr, now);
      for i := 0 to |arr|
        invariant kept + Fresh(arr[i..], now) == Fresh(arr, now)
      {
        assert arr[i..][0] == arr[i] && arr[i..][1..] == arr[i + 1..];
        var young := if now - arr[i].t < EARLY_EVENT_TTL_MS then [arr[i]] else [];
        Assoc(kept, young, Fresh(arr[i + 1..], now));
        kept := kept + young;
      }
      assert arr[|arr|..] == [] && kept + [] == kept;
    }

    method Receive(topic: Topic, now: int)
      modifies this
      ensures Abs() == Arrive(old(Abs()), topic, now)
    {
      var n := |log|;
      var hs := if topic in topicHandlers then topicHandlers[topic] else [];
      log := log + [Arrival(topic, now, hs == [] && topic != AGENT_TOPIC)];
      clock := now;
      if hs != [] {
        Deliver(topic, n, hs);
      } else {
        if topic == AGENT_TOPIC { return; }
        var arr := Prune(if topic in earlyEvents then earlyEvents[topic] else [], now);
        earlyEvents := earlyEvents[topic := arr + [Early(n, now)]];
      }
    }

    method Flush(topic: Topic, handler: Handler, buffered: seq<Early>, now: int)
      modifies this`delivered
      ensures delivered == old(delivered) + Flushed(topic, handler, buffered, now)
    {
      for i := 0 to |buffered|
        invariant delivered + Flushed(topic, handler, buffered[i..], now)
               == old(delivered) + Flushed(topic, handler, buffered, now)
      {
        assert buffered[i..][0] == buffered[i] && buffered[i..][1..] == buffered[i + 1..];
        if now - buffered[i].t < EARLY_EVENT_TTL_MS {
          delivered := delivered + [Delivery(topic, buffered[i].arrival, handler, true, now - buffered[i].t)];
        }
      }
      assert delivered + [] == delivered;
    }

    method Add(topic: Topic, handler: Handler, now: int)
      modifies this
      ensures Abs() == AddHandler(old(Abs()), topic, handler, now)
    {
      var handlers := if topic in topicHandlers then topicHandlers[topic] else [];
      topicHandlers := topicHandlers[topic := if handler in handlers then handlers else handlers + [handler]];
      clock := now;
      if topic in earlyEvents {
        var buffered := earlyEvents[topic];
        earlyEvents := earlyEvents - {topic};
        Flush(topic, handler, buffered, now);
      } else {
        assert earlyEvents - {topic} == earlyEvents;
        assert delivered + [] == delivered;
      }
    }

    method Drop(topic: Topic, handler: Handler) returns (last: bool)
      modifies this
      ensures Abs() == RemoveHandler(old(Abs()), topic, handler)
      ensures last <==> topic in old(topicHandlers) && topic !in topicHandlers
    {
      if topic !in topicHandlers { return false; }
      var cur := Remove(topicHandlers[topic], handler);
      if cur != [] {
        topicHandlers := topicHandlers[topic := cur];
        return false;
      }
      topicHandlers := topicHandlers - {topic};
      return true;
    }
  }

  /** `pendingReplies` and `cmdSeq`. */
  class Requests {
    var pendingReplies: seq<Pending>
    var cmdSeq: nat
    var calls: Ticket
    var sentOn: map<Ticket, Sock>
    var settled: seq<Settled>

    ghost function Abs(): Rpc
      reads this
    {
      Rpc(pendingReplies, cmdSeq, calls, sentOn, settled)
    }

    constructor ()
      ensures Abs() == INITIAL.rpc
    {
      pendingReplies, cmdSeq, calls, sentOn, settled := [], 0, 0, map[], [];
    }

    method Reject(failed: seq<Settled>)
      modifies this
      ensures Abs() == Fail(old(Abs()), failed)
    {
      settled := settled + failed;
    }

    /** `for (const [id, p] of pendingReplies) if (p.socket === s) ...` */
    method RejectOwnedBy(s: Sock)
      modifies this
      ensures Abs() == CloseRequests(old(Abs()), s)
    {
      var kept, rejected: seq<Settled> := [], [];
      for i := 0 to |pendingReplies|
        invariant Abs() == old(Abs())
        invariant kept + Others(pendingReplies[i..], s) == Others(pendingReplies, s)
        invariant rejected + ClosedBy(pendingReplies[i..], s) == ClosedBy(pendingReplies, s)
      {
        var p := pendingReplies[i];
        assert pendingReplies[i..][0] == p && pendingReplies[i..][1..] == pendingReplies[i + 1..];
        if p.socket == s {
          rejected := rejected + [Settled(p.ticket, SocketClosed(s))];
        } else {
          kept := kept + [p];
        }
      }
      assert kept + [] == kept && rejected + [] == rejected;
      pendingReplies, settled := kept, settled + rejected;
    }

    method Take(i: nat, outcome: Outcome)
      requires i < |pendingReplies|
      modifies this
      ensures Abs() == SettleAt(old(Abs()), i, outcome)
    {
      settled := settled + [Settled(pendingReplies[i].ticket, outcome)];
      pendingReplies := pendingReplies[..i] + pendingReplies[i + 1..];
    }

    method Replied(s: Sock, id: nat, ok: bool)
      modifies this
      ensures Abs() == AcceptReply(old(Abs()), s, id, ok)
    {
      FindPendingFinds(pendingReplies, id);
      var i := FindPending(pendingReplies, id);
      if i.Some? && pendingReplies[i.value].socket == s {
        Take(i.value, Outcome.Replied(s, ok));
      }
    }

    method TimedOut(id: nat)
      modifies this
      ensures Abs() == Expire(old(Abs()), id)
    {
      FindPendingFinds(pendingReplies, id);
      var i := FindPending(pendingReplies, id);
      if i.Some? {
        Take(i.value, Outcome.TimedOut);
      }
    }

    /** `socketRequest`: the entry is made before the frame is sent and withdrawn when sending throws. */
    method Request(s: Sock, ticket: Ticket, throws: bool)
      modifies this
      ensures Abs() == Issue(old(Abs()), s, ticket, throws)
    {
      cmdSeq := cmdSeq + 1;
      sentOn := sentOn[ticket := s];
      pendingReplies := pendingReplies + [Pending(cmdSeq, ticket, s)];
      if throws {
        pendingReplies := pendingReplies[..|pendingReplies| - 1];
        settled := settled + [Settled(ticket, SendFailed)];
      }
    }
  }

  /** The module: its variables and the promise continuations of the JavaScript engine. */
  class Channel {
    const net: Sockets
    const bus: Events
    const rpc: Requests
    var waiting: seq<Task>
    var tasks: seq<Task>

    ghost function Abs(): State
      reads this, net, bus, rpc
    {
      State(net.Abs(), bus.Abs(), rpc.Abs(), waiting, tasks)
    }

    constructor ()
      ensures Abs() == INITIAL && fresh(net) && fresh(bus) && fresh(rpc)
    {
      net := new Sockets();
      bus := new Events();
      rpc := new Requests();
      waiting, tasks := [], [];
    }

    method EnsureSocketThen(job: Job)
      modifies this, net
      ensures Abs() == Then(old(Abs()), job)
    {
      hide EnsureSocket;
      net.Ensure();
      if net.SockOpen() {
        tasks := tasks + [Task(net.sock.value, job)];
      } else if net.connecting.Some? {
        waiting := waiting + [Task(net.connecting.value, job)];
      }
    }

    method Opened(s: Sock)
      requires InPhase(net.Abs(), s, {Connecting}) && s in net.subs
      modifies this, net
      ensures Abs() == OnOpen(old(Abs()), s)
    {
      hide OpenNet;
      var current := net.openingSocket == Some(s);
      net.Opened(s, bus.topicHandlers.Keys);
      if current {
        tasks, waiting := tasks + OnSocket(waiting, s), OffSocket(waiting, s);
      }
    }

    method Errored(s: Sock)
      modifies this, net, rpc
      ensures Abs() == OnError(old(Abs()), s)
    {
      if net.openingSocket == Some(s) {
        net.connecting := None;
        rpc.Reject(FailedCalls(OnSocket(waiting, s)));
        waiting := OffSocket(waiting, s);
      }
    }

    method ClosedDown(s: Sock)
      modifies this, net, rpc
      ensures Abs() == OnClose(old(Abs()), s)
    {
      hide CloseNet, CloseRequests, Fail;
      rpc.Reject(FailedCalls(OnSocket(waiting, s)));
      waiting := OffSocket(waiting, s);
      rpc.RejectOwnedBy(s);
      net.ClosedDown(s, bus.topicHandlers.Keys != {});
    }

    method Message(s: Sock, env: Envelope, now: int)
      modifies net, bus, rpc
      ensures Abs() == OnMessage(old(Abs()), s, env, now)
    {
      hide Arrive, AcceptReply;
      match env {
        case Malformed =>
        case Event(topic) => bus.Receive(topic, now);
        case Reply(id, ok) => rpc.Replied(s, id, ok);
        case Pong => if net.sock == Some(s) { net.missedPongs := 0; }
      }
    }

    method Subscribe(topic: Topic, handler: Handler, now: int)
      modifies this, net, bus
      ensures Abs() == Transport.Subscribe(old(Abs()), topic, handler, now)
    {
      hide AddHandler, Then;
      bus.Add(topic, handler, now);
      EnsureSocketThen(SendSub(topic));
    }

    method Unsubscribe(topic: Topic, handler: Handler)
      modifies net, bus
      ensures Abs() == Transport.Unsubscribe(old(Abs()), topic, handler)
    {
      var last := bus.Drop(topic, handler);
      if last && net.sock.Some? {
        net.Send(net.sock.value, {}, {topic});
      }
    }

    method WsCmd(sub: Option<Topic>, throws: bool)
      modifies this, net, rpc
      ensures Abs() == Call(old(Abs()), sub, throws)
    {
      hide Then;
      var ticket := rpc.calls;
      rpc.calls := ticket + 1;
      EnsureSocketThen(Request(ticket, sub, throws));
    }

    method Continue()
      requires tasks != []
      modifies this, net, rpc
      ensures Abs() == RunTask(old(Abs()))
    {
      hide SendSubs, Issue;
      var task := tasks[0];
      tasks := tasks[1..];
      match task.job {
        case SendSub(topic) => net.Send(task.socket, {topic}, {});
        case Request(ticket, sub, throws) =>
          rpc.Request(task.socket, ticket, throws);
          if sub.Some? && !throws {
            net.Send(task.socket, {sub.value}, {});
          }
      }
    }

    method Reconnect()
      requires net.reconnects > 0
      modifies net
      ensures Abs() == ReconnectTimer(old(Abs()))
    {
      net.reconnects := net.reconnects - 1;
      if net.sock == None && bus.topicHandlers.Keys != {} {
        net.Ensure();
      }
    }
  }
}
