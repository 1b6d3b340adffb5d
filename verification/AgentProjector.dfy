/**
 The projection of Agent events into interface state and effects: a fold over an unreliable stream
 of envelopes, each with a turn and a sequence number.  Envelopes that fail the wire guard never get
 this far; `AgentWire` has the guard.

 The state's records are plain objects: looking up an id that is the name of an inherited property
 finds that property, and assigning to "__proto__" stores nothing.
 */
module AgentProjector {
  import opened Prelude

  type Turn = string
  type MessageId = string
  type ToolId = string

  datatype Event =
    | TurnStarted
    | MessageStarted(messageId: MessageId, round: nat)
    | TextDelta(messageId: MessageId, delta: string)
    | ApprovalRequested(tool: ToolId, reason: string)
    | ToolExecutionRequested(tool: ToolId, target: string, input: string)
    | TurnFinished
    | TurnCancelled
    | TurnFailed(code: string, message: string)
    | Informational

  datatype Envelope = Envelope(turn: Turn, sequence: nat, event: Event)

  /** `None` is a payload that the wire guard refuses. */
  type Input = Option<Envelope>

  datatype Active = Active(messageId: MessageId, round: nat)

  datatype State = State(
    last: map<Turn, nat>,
    approvals: seq<ToolId>,
    executions: seq<ToolId>,
    active: map<Turn, Active>,
    text: map<MessageId, string>,
    busy: map<Turn, bool>)

  const INITIAL := State(map[], [], [], map[], map[], map[])

  const PROTO := "__proto__"

  /** What every object inherits: functions, and under "__proto__" their common prototype. */
  predicate Inherited(name: string)
  {
    name in {PROTO, "constructor", "toString", "hasOwnProperty", "isPrototypeOf", "propertyIsEnumerable", "toLocaleString",
             "valueOf", "__defineGetter__", "__defineSetter__", "__lookupGetter__", "__lookupSetter__"}
  }

  /** `record[key] = value` */
  function Put<V>(record: map<string, V>, key: string, value: V): map<string, V>
  {
    if key == PROTO then record else record[key := value]
  }

  /** An inherited property put in front of a text: functions print their source. */
  function NativeText(name: string): (r: string)
    ensures r != ""
  {
    if name == PROTO then "[object Object]"
    else "function " + (if name == "constructor" then "Object" else name) + "() { [native code] }"
  }

  /** A sequence number that was looked up; comparing with an object or function is always false. */
  datatype Last = Number(n: nat) | NotANumber

  /** Every effect names the turn whose envelope caused it. */
  datatype Effect =
    | RequestApproval(turn: Turn, tool: ToolId, reason: string)
    | ExecuteTool(turn: Turn, tool: ToolId, target: string, input: string)
    | ShowWarning(turn: Turn)
    | TurnSettled(turn: Turn)

  datatype Projection = Projection(state: State, effects: seq<Effect>, accepted: bool)

  function LastOf(s: State, t: Turn): Last
  {
    if t != PROTO && t in s.last then Number(s.last[t]) else if Inherited(t) then NotANumber else Number(0)
  }

  /** `sequence <= last` */
  predicate AtMost(sequence: nat, last: Last)
  {
    last.Number? && sequence <= last.n
  }

  /** `sequence > last + 1` */
  predicate Skips(sequence: nat, last: Last)
  {
    last.Number? && sequence > last.n + 1
  }

  function TextOf(s: State, m: MessageId): string
  {
    if m != PROTO && m in s.text then s.text[m] else if Inherited(m) then NativeText(m) else ""
  }

  /** What an accepted event does to the state, beside the sequence number. */
  function Absorb(s: State, t: Turn, e: Event): State
  {
    match e
    case TurnStarted => s.(busy := Put(s.busy, t, true))
    case MessageStarted(m, round) => s.(active := Put(s.active, t, Active(m, round)))
    case TextDelta(m, delta) => s.(text := Put(s.text, m, TextOf(s, m) + delta))
    case ApprovalRequested(tool, _) => if tool in s.approvals then s else s.(approvals := s.approvals + [tool])
    case ToolExecutionRequested(tool, _, _) => if tool in s.executions then s else s.(executions := s.executions + [tool])
    case TurnFinished => s.(busy := Put(s.busy, t, false))
    case TurnCancelled => s.(busy := Put(s.busy, t, false))
    case TurnFailed(_, _) => s.(busy := Put(s.busy, t, false))
    case Informational => s
  }

  predicate IsTerminal(e: Event)
  {
    e.TurnFinished? || e.TurnCancelled? || e.TurnFailed?
  }

  function EffectsOf(s: State, t: Turn, e: Event): seq<Effect>
  {
    match e
    case ApprovalRequested(tool, reason) => if tool in s.approvals then [] else [RequestApproval(t, tool, reason)]
    case ToolExecutionRequested(tool, target, input) =>
      if tool in s.executions then [] else [ExecuteTool(t, tool, target, input)]
    case _ => if IsTerminal(e) then [TurnSettled(t)] else []
  }

  /** `projectAgentEvent`. */
  function Project(s: State, x: Input): Projection
  {
    if x.None? then Projection(s, [], false)
    else
      var e := x.value;
      var last := LastOf(s, e.turn);
      if AtMost(e.sequence, last) then Projection(s, [], false)
      else
        var next := s.(last := Put(s.last, e.turn, e.sequence));
        if Skips(e.sequence, last) then Projection(next, [ShowWarning(e.turn)], false)
        else Projection(Absorb(next, e.turn, e.event), EffectsOf(next, e.turn, e.event), true)
  }

  function StateAfter(s: State, xs: seq<Input>): State
    decreases |xs|
  {
    if xs == [] then s else StateAfter(Project(s, xs[0]).state, xs[1..])
  }

  function EffectsAfter(s: State, xs: seq<Input>): seq<Effect>
    decreases |xs|
  {
    if xs == [] then [] else Project(s, xs[0]).effects + EffectsAfter(Project(s, xs[0]).state, xs[1..])
  }

  // ---- Redelivery ----

  /** `ys` is `xs` with copies of what was already delivered, or refused payloads, put in anywhere later. */
  ghost predicate Redelivers(seen: seq<Input>, xs: seq<Input>, ys: seq<Input>)
    decreases |ys|
  {
    if ys == [] then xs == []
    else
      || (xs != [] && ys[0] == xs[0] && Redelivers(seen + [xs[0]], xs[1..], ys[1..]))
      || ((ys[0] in seen || ys[0].None?) && Redelivers(seen, xs, ys[1..]))
  }

  /** The accepted events, which callers apply to conversations. */
  function AcceptedAfter(s: State, xs: seq<Input>): seq<Event>
    decreases |xs|
  {
    if xs == [] then []
    else
      var p := Project(s, xs[0]);
      (if p.accepted then [xs[0].value.event] else []) + AcceptedAfter(p.state, xs[1..])
  }

  predicate OfProto(x: Input)
  {
    x.Some? && x.value.turn == PROTO
  }

  /** The envelopes of the turn "__proto__". */
  function Protos(xs: seq<Input>): nat
  {
    if xs == [] then 0 else (if OfProto(xs[0]) then 1 else 0) + Protos(xs[1..])
  }

  /** Whatever was delivered, of a turn that can be stored, is behind its turn's sequence number. */
  ghost predicate Behind(s: State, seen: seq<Input>)
  {
    forall x | x in seen && x.Some? && !OfProto(x) :: AtMost(x.value.sequence, LastOf(s, x.value.turn))
  }

  lemma ProjectKeepsBehind(s: State, seen: seq<Input>, x: Input)
    requires Behind(s, seen)
    ensures Behind(Project(s, x).state, seen + [x])
  {
    hide TextOf, EffectsOf, Inherited;
    forall y | y in seen + [x] && y.Some? && !OfProto(y)
      ensures AtMost(y.value.sequence, LastOf(Project(s, x).state, y.value.turn))
    {
      assert y in seen || y == x;
      LastAfter(s, x, y.value.turn);
    }
  }

  /** The number of a turn changes only by an envelope of it that is not behind it. */
  lemma LastAfter(s: State, x: Input, t: Turn)
    ensures LastOf(Project(s, x).state, t) ==
            if x.Some? && x.value.turn == t && t != PROTO && !AtMost(x.value.sequence, LastOf(s, t))
            then Number(x.value.sequence) else LastOf(s, t)
  {
    hide TextOf, EffectsOf, Inherited;
  }

  /** A copy is ignored exactly when its turn can be stored: one of "__proto__" is accepted every time. */
  lemma CopiesAreIgnoredExactly(s: State, seen: seq<Input>, x: Input)
    requires Behind(s, seen) && (x in seen || x.None?)
    ensures Project(s, x) == Projection(s, [], false) <==> !OfProto(x)
    ensures OfProto(x) ==> Project(s, x).accepted && Project(s, x).state.last == s.last
  {
    hide TextOf, EffectsOf;
  }

  lemma ProtosOnlyGrow(seen: seq<Input>, xs: seq<Input>, ys: seq<Input>)
    requires Redelivers(seen, xs, ys)
    ensures Protos(xs) <= Protos(ys)
    decreases |ys|
  {
    if ys != [] {
      if xs != [] && ys[0] == xs[0] && Redelivers(seen + [xs[0]], xs[1..], ys[1..]) {
        ProtosOnlyGrow(seen + [xs[0]], xs[1..], ys[1..]);
      } else {
        ProtosOnlyGrow(seen, xs, ys[1..]);
      }
    }
  }

  /** Acceptance depends on the sequence numbers alone. */
  lemma SameLastSameStep(s: State, r: State, x: Input)
    requires s.last == r.last
    ensures Project(s, x).accepted == Project(r, x).accepted && Project(s, x).state.last == Project(r, x).state.last
  {
    if x.Some? {
      var e := x.value;
      assert LastOf(s, e.turn) == LastOf(r, e.turn);
      var last := Put(s.last, e.turn, e.sequence);
      AbsorbKeepsLast(s.(last := last), e.turn, e.event);
      AbsorbKeepsLast(r.(last := last), e.turn, e.event);
      hide LastOf, Absorb, EffectsOf, Put;
    }
  }

  lemma AbsorbKeepsLast(s: State, t: Turn, e: Event)
    ensures Absorb(s, t, e).last == s.last
  {
    hide TextOf, Put;
  }

  /** Each inserted copy of "__proto__" is one more accepted event, and no other copy is. */
  lemma {:induction false} CopiesAccepted(s: State, r: State, seen: seq<Input>, xs: seq<Input>, ys: seq<Input>)
    requires s.last == r.last && Behind(s, seen) && Redelivers(seen, xs, ys)
    ensures |AcceptedAfter(s, ys)| == |AcceptedAfter(r, xs)| + Protos(ys) - Protos(xs)
    decreases |ys|
  {
    hide Project, Behind, OfProto;
    if ys != [] {
      if xs != [] && ys[0] == xs[0] && Redelivers(seen + [xs[0]], xs[1..], ys[1..]) {
        SameLastSameStep(s, r, xs[0]);
        ProjectKeepsBehind(s, seen, xs[0]);
        CopiesAccepted(Project(s, xs[0]).state, Project(r, xs[0]).state, seen + [xs[0]], xs[1..], ys[1..]);
      } else {
        CopiesAreIgnoredExactly(s, seen, ys[0]);
        var s1 := Project(s, ys[0]).state;
        SameLastBehind(s, s1, seen);
        CopiesAccepted(s1, r, seen, xs, ys[1..]);
      }
    }
  }

  lemma SameLastBehind(s: State, r: State, seen: seq<Input>)
    requires s.last == r.last && Behind(s, seen)
    ensures Behind(r, seen)
  {
  }

  lemma {:induction false} CleanRedelivery(s: State, seen: seq<Input>, xs: seq<Input>, ys: seq<Input>)
    requires Behind(s, seen) && Redelivers(seen, xs, ys) && Protos(ys) == Protos(xs)
    ensures StateAfter(s, ys) == StateAfter(s, xs)
    ensures EffectsAfter(s, ys) == EffectsAfter(s, xs)
    ensures AcceptedAfter(s, ys) == AcceptedAfter(s, xs)
    decreases |ys|
  {
    hide Project, Behind, OfProto;
    if ys != [] {
      if xs != [] && ys[0] == xs[0] && Redelivers(seen + [xs[0]], xs[1..], ys[1..]) {
        ProjectKeepsBehind(s, seen, xs[0]);
        CleanRedelivery(Project(s, xs[0]).state, seen + [xs[0]], xs[1..], ys[1..]);
      } else {
        ProtosOnlyGrow(seen, xs, ys[1..]);
        CopiesAreIgnoredExactly(s, seen, ys[0]);
        CleanRedelivery(s, seen, xs, ys[1..]);
        assert [] + EffectsAfter(s, ys[1..]) == EffectsAfter(s, ys[1..]);
        assert [] + AcceptedAfter(s, ys[1..]) == AcceptedAfter(s, ys[1..]);
      }
    }
  }

  /**
   Delivering copies again changes nothing, neither the state nor an effect nor what is accepted,
   exactly when none of the copies is of a turn named "__proto__".
   */
  lemma RedeliveryChangesNothing(s: State, seen: seq<Input>, xs: seq<Input>, ys: seq<Input>)
    requires Behind(s, seen) && Redelivers(seen, xs, ys)
    ensures StateAfter(s, ys) == StateAfter(s, xs) && EffectsAfter(s, ys) == EffectsAfter(s, xs) && AcceptedAfter(s, ys) == AcceptedAfter(s, xs)
            <==> Protos(ys) == Protos(xs)
    ensures Protos(xs) <= Protos(ys)
  {
    ProtosOnlyGrow(seen, xs, ys);
    if Protos(ys) == Protos(xs) {
      CleanRedelivery(s, seen, xs, ys);
    } else {
      CopiesAccepted(s, s, seen, xs, ys);
    }
  }

  /** Such a turn: the same delta, delivered twice, is appended twice. */
  lemma ProtoTurnsAreRepeated(m: MessageId, n: nat, delta: string)
    requires !Inherited(m)
    ensures var x := Some(Envelope(PROTO, n, TextDelta(m, delta)));
            && Redelivers([], [x], [x, x])
            && TextOf(StateAfter(INITIAL, [x]), m) == delta
            && TextOf(StateAfter(INITIAL, [x, x]), m) == delta + delta
  {
    var x := Some(Envelope(PROTO, n, TextDelta(m, delta)));
    assert [x, x][1..] == [x] && [x][1..] == [];
    assert [] + [x] == [x];
    assert Redelivers([x], [], [x]) by { assert x in [x] && Redelivers([x], [], []); }
    var s1 := Project(INITIAL, x).state;
    assert "" + delta == delta;
    assert s1.text == map[m := delta] && LastOf(s1, PROTO).NotANumber?;
    var s2 := Project(s1, x).state;
    assert s2.text[m] == delta + delta;
    hide Project;
    assert StateAfter(s1, [x]) == StateAfter(s2, []) == s2;
    assert StateAfter(INITIAL, [x, x]) == StateAfter(s1, [x]);
  }

  // ---- Effects happen once ----

  function ApprovalsIn(es: seq<Effect>, tool: ToolId): nat
  {
    if es == [] then 0 else (if es[0].RequestApproval? && es[0].tool == tool then 1 else 0) + ApprovalsIn(es[1..], tool)
  }

  function ExecutionsIn(es: seq<Effect>, tool: ToolId): nat
  {
    if es == [] then 0 else (if es[0].ExecuteTool? && es[0].tool == tool then 1 else 0) + ExecutionsIn(es[1..], tool)
  }

  lemma CountsOfOne(es: seq<Effect>, rest: seq<Effect>, tool: ToolId)
    requires |es| <= 1
    ensures ApprovalsIn(es + rest, tool) == ApprovalsIn(es, tool) + ApprovalsIn(rest, tool)
    ensures ExecutionsIn(es + rest, tool) == ExecutionsIn(es, tool) + ExecutionsIn(rest, tool)
  {
    if es == [] {
      assert es + rest == rest;
    } else {
      assert (es + rest)[1..] == rest && es[1..] == [];
    }
  }

  lemma ToolStep(s: State, x: Input, tool: ToolId)
    ensures var p := Project(s, x);
            && |p.effects| <= 1
            && ApprovalsIn(p.effects, tool) == (if tool !in s.approvals && tool in p.state.approvals then 1 else 0)
            && ExecutionsIn(p.effects, tool) == (if tool !in s.executions && tool in p.state.executions then 1 else 0)
            && (tool in s.approvals ==> tool in p.state.approvals)
            && (tool in s.executions ==> tool in p.state.executions)
  {
    hide TextOf, LastOf, Inherited;
  }

  /** A tool use gets an approval effect exactly when it first enters the handled list, and so for execution. */
  lemma {:induction false} OneEffectPerTool(s: State, xs: seq<Input>, tool: ToolId)
    ensures ApprovalsIn(EffectsAfter(s, xs), tool) == (if tool !in s.approvals && tool in StateAfter(s, xs).approvals then 1 else 0)
    ensures ExecutionsIn(EffectsAfter(s, xs), tool) == (if tool !in s.executions && tool in StateAfter(s, xs).executions then 1 else 0)
    ensures tool in s.approvals ==> tool in StateAfter(s, xs).approvals
    ensures tool in s.executions ==> tool in StateAfter(s, xs).executions
    decreases |xs|
  {
    hide Project;
    if xs != [] {
      var p := Project(s, xs[0]);
      ToolStep(s, xs[0], tool);
      CountsOfOne(p.effects, EffectsAfter(p.state, xs[1..]), tool);
      OneEffectPerTool(p.state, xs[1..], tool);
    }
  }

  // ---- Text ----

  /** The deltas of message `m` in the accepted envelopes, in order. */
  function AcceptedText(s: State, xs: seq<Input>, m: MessageId): string
    decreases |xs|
  {
    if xs == [] then ""
    else
      var p := Project(s, xs[0]);
      (if p.accepted && xs[0].value.event.TextDelta? && xs[0].value.event.messageId == m then xs[0].value.event.delta else "")
      + AcceptedText(p.state, xs[1..], m)
  }

  /** A message's text is what it was, followed by the accepted deltas; under "__proto__" none is stored. */
  lemma {:induction false} TextIsConcatenation(s: State, xs: seq<Input>, m: MessageId)
    ensures TextOf(StateAfter(s, xs), m) == if m == PROTO then TextOf(s, m) else TextOf(s, m) + AcceptedText(s, xs, m)
    decreases |xs|
  {
    hide Project, TextOf;
    if xs != [] {
      var p := Project(s, xs[0]);
      TextStep(s, xs[0], m);
      TextIsConcatenation(p.state, xs[1..], m);
    }
  }

  lemma TextStep(s: State, x: Input, m: MessageId)
    ensures var p := Project(s, x);
            p.accepted ==> x.Some?
    ensures var p := Project(s, x);
            TextOf(p.state, m) ==
            TextOf(s, m) + (if m != PROTO && p.accepted && x.value.event.TextDelta? && x.value.event.messageId == m then x.value.event.delta else "")
  {
    hide LastOf;
    assert TextOf(s, m) + "" == TextOf(s, m);
  }

  /** From the start, a message's text is exactly its accepted deltas if and only if its id is no inherited name. */
  lemma TextIsTheAcceptedDeltas(xs: seq<Input>, m: MessageId)
    requires m != PROTO
    ensures TextOf(StateAfter(INITIAL, xs), m) == AcceptedText(INITIAL, xs, m) <==> !Inherited(m)
  {
    TextIsConcatenation(INITIAL, xs, m);
    assert !Inherited(m) ==> "" + AcceptedText(INITIAL, xs, m) == AcceptedText(INITIAL, xs, m);
    assert |NativeText(m) + AcceptedText(INITIAL, xs, m)| > |AcceptedText(INITIAL, xs, m)|;
  }

  /** All envelopes are of turn `t`, numbered from `from` on without a gap. */
  ghost predicate InSequence(xs: seq<Input>, t: Turn, from: nat)
  {
    forall k | 0 <= k < |xs| :: xs[k].Some? && xs[k].value.turn == t && xs[k].value.sequence == from + k
  }

  /** All deltas of a message, whether accepted or not. */
  function DeltasOf(xs: seq<Input>, m: MessageId): string
  {
    if xs == [] then ""
    else (if xs[0].Some? && xs[0].value.event.TextDelta? && xs[0].value.event.messageId == m then xs[0].value.event.delta else "")
         + DeltasOf(xs[1..], m)
  }

  /** A turn that arrives complete is accepted as a whole, however often parts of it are delivered again. */
  lemma CompleteTurnsLoseNothing(t: Turn, xs: seq<Input>, ys: seq<Input>, m: MessageId)
    requires InSequence(xs, t, 1) && Redelivers([], xs, ys) && (t == PROTO ==> Protos(ys) == Protos(xs))
    requires m != PROTO
    ensures TextOf(StateAfter(INITIAL, ys), m) == TextOf(INITIAL, m) + DeltasOf(xs, m)
    ensures !Inherited(m) ==> TextOf(StateAfter(INITIAL, ys), m) == DeltasOf(xs, m)
  {
    assert Behind(INITIAL, []) && Expects(INITIAL, t, 1);
    hide Behind, Expects, Project, StateAfter, EffectsAfter, AcceptedAfter, AcceptedText, DeltasOf, Redelivers, Protos;
    if t != PROTO {
      InSequenceIsOf(xs, t);
      NoProtos(t, [], xs, ys);
    }
    RedeliveryChangesNothing(INITIAL, [], xs, ys);
    TextIsConcatenation(INITIAL, xs, m);
    SequenceIsAccepted(INITIAL, t, 1, xs, m);
    assert "" + DeltasOf(xs, m) == DeltasOf(xs, m);
  }

  lemma InSequenceIsOf(xs: seq<Input>, t: Turn)
    requires InSequence(xs, t, 1)
    ensures forall x | x in [] + xs && x.Some? :: x.value.turn == t
  {
    assert [] + xs == xs;
  }

  lemma {:induction false} NoProtos(t: Turn, seen: seq<Input>, xs: seq<Input>, ys: seq<Input>)
    requires t != PROTO && Redelivers(seen, xs, ys)
    requires forall x | x in seen + xs && x.Some? :: x.value.turn == t
    ensures Protos(xs) == Protos(ys) == 0
    decreases |ys|
  {
    if ys != [] {
      if xs != [] && ys[0] == xs[0] && Redelivers(seen + [xs[0]], xs[1..], ys[1..]) {
        assert seen + xs == seen + [xs[0]] + xs[1..] && xs[0] in seen + xs;
        NoProtos(t, seen + [xs[0]], xs[1..], ys[1..]);
      } else {
        assert ys[0] in seen ==> ys[0] in seen + xs;
        NoProtos(t, seen, xs, ys[1..]);
      }
    }
  }

  /** The next number a turn takes without a warning. */
  predicate Expects(s: State, t: Turn, n: nat)
  {
    !AtMost(n, LastOf(s, t)) && !Skips(n, LastOf(s, t))
  }

  lemma {:induction false} SequenceIsAccepted(s: State, t: Turn, from: nat, xs: seq<Input>, m: MessageId)
    requires InSequence(xs, t, from) && Expects(s, t, from)
    ensures AcceptedText(s, xs, m) == DeltasOf(xs, m)
    decreases |xs|
  {
    if xs != [] {
      assert xs[0].value.sequence == from && xs[0].value.turn == t;
      var s1 := Project(s, xs[0]).state;
      LastAfter(s, xs[0], t);
      assert Project(s, xs[0]).accepted;
      assert Expects(s1, t, from + 1);
      forall k | 0 <= k < |xs[1..]|
        ensures xs[1..][k].Some? && xs[1..][k].value.turn == t && xs[1..][k].value.sequence == from + 1 + k
      {
        assert xs[1..][k] == xs[k + 1];
      }
      hide Project;
      SequenceIsAccepted(s1, t, from + 1, xs[1..], m);
    }
  }

  // ---- Busy turns ----

  /** The last accepted start or end of turn `t`, if any. */
  function LastSign(s: State, xs: seq<Input>, t: Turn): Option<Event>
    decreases |xs|
  {
    if xs == [] then None
    else
      var p := Project(s, xs[0]);
      var later := LastSign(p.state, xs[1..], t);
      if later.Some? then later
      else if p.accepted && xs[0].value.turn == t && (xs[0].value.event.TurnStarted? || IsTerminal(xs[0].value.event))
      then Some(xs[0].value.event) else None
  }

  lemma BusyStep(s: State, x: Input, t: Turn)
    ensures var p := Project(s, x);
            if p.accepted && x.value.turn == t && (x.value.event.TurnStarted? || IsTerminal(x.value.event)) && t != PROTO
            then t in p.state.busy && p.state.busy[t] == x.value.event.TurnStarted?
            else (t in p.state.busy <==> t in s.busy) && (t in s.busy ==> p.state.busy[t] == s.busy[t])
    ensures Project(s, x).accepted ==> x.Some?
    ensures TurnSettled(t) in Project(s, x).effects <==>
              Project(s, x).accepted && x.value.turn == t && IsTerminal(x.value.event)
  {
    hide TextOf, LastOf, Inherited;
  }

  /** A turn is shown as busy exactly when the last accepted sign of it was its start; "__proto__" never is. */
  lemma {:induction false} BusyExactly(s: State, xs: seq<Input>, t: Turn)
    ensures var e := LastSign(s, xs, t);
            var end := StateAfter(s, xs);
            if e.Some? && t != PROTO then t in end.busy && end.busy[t] == e.value.TurnStarted?
            else (t in end.busy <==> t in s.busy) && (t in s.busy ==> end.busy[t] == s.busy[t])
    decreases |xs|
  {
    hide Project;
    if xs != [] {
      BusyStep(s, xs[0], t);
      BusyExactly(Project(s, xs[0]).state, xs[1..], t);
    }
  }

  // ---- Interleaving ----

  /** A group of turns with the message and tool ids that are its own. */
  datatype Group = Group(turns: set<Turn>, messages: set<MessageId>, tools: set<ToolId>)

  predicate Own(g: Group, x: Input)
  {
    x.Some? && x.value.turn in g.turns
  }

  /** Ids are not shared across the border of the group. */
  predicate Separate(g: Group, x: Input)
  {
    x.Some? ==>
      match x.value.event
      case TextDelta(m, _) => m in g.messages <==> x.value.turn in g.turns
      case ApprovalRequested(tool, _) => tool in g.tools <==> x.value.turn in g.turns
      case ToolExecutionRequested(tool, _, _) => tool in g.tools <==> x.value.turn in g.turns
      case _ => true
  }

  function OwnInputs(g: Group, xs: seq<Input>): seq<Input>
  {
    if xs == [] then [] else (if Own(g, xs[0]) then [xs[0]] else []) + OwnInputs(g, xs[1..])
  }

  function OwnEffects(g: Group, es: seq<Effect>): seq<Effect>
  {
    if es == [] then [] else (if es[0].turn in g.turns then [es[0]] else []) + OwnEffects(g, es[1..])
  }

  /** Two states agree on everything of the group. */
  ghost predicate Agree(g: Group, s: State, r: State)
  {
    && (forall t | t in g.turns :: LastOf(s, t) == LastOf(r, t))
    && (forall t | t in g.turns :: (t in s.active <==> t in r.active) && (t in s.active ==> s.active[t] == r.active[t]))
    && (forall t | t in g.turns :: (t in s.busy <==> t in r.busy) && (t in s.busy ==> s.busy[t] == r.busy[t]))
    && (forall m | m in g.messages :: TextOf(s, m) == TextOf(r, m))
    && (forall tool | tool in g.tools :: tool in s.approvals <==> tool in r.approvals)
    && (forall tool | tool in g.tools :: tool in s.executions <==> tool in r.executions)
  }

  lemma AbsorbOwn(g: Group, s: State, r: State, t: Turn, e: Event)
    requires Agree(g, s, r) && t in g.turns && Separate(g, Some(Envelope(t, 0, e)))
    ensures Agree(g, Absorb(s, t, e), Absorb(r, t, e))
    ensures EffectsOf(s, t, e) == EffectsOf(r, t, e)
    ensures OwnEffects(g, EffectsOf(s, t, e)) == EffectsOf(s, t, e)
  {
    EffectsOwn(g, s, r, t, e);
    hide Agree, EffectsOf, OwnEffects, TextOf;
    match e
    case TextDelta(m, delta) => TextOwn(g, s, r, m, delta);
    case MessageStarted(m, round) => ActiveOwn(g, s, r, t, Active(m, round));
    case ApprovalRequested(tool, _) => ToolsOwn(g, s, r, tool);
    case ToolExecutionRequested(tool, _, _) => ToolsOwn(g, s, r, tool);
    case Informational =>
    case _ => BusyOwn(g, s, r, t, e.TurnStarted?);
  }

  lemma EffectsOwn(g: Group, s: State, r: State, t: Turn, e: Event)
    requires Agree(g, s, r) && t in g.turns && Separate(g, Some(Envelope(t, 0, e)))
    ensures EffectsOf(s, t, e) == EffectsOf(r, t, e)
    ensures OwnEffects(g, EffectsOf(s, t, e)) == EffectsOf(s, t, e)
  {
    hide TextOf, LastOf, Inherited;
  }

  lemma BusyOwn(g: Group, s: State, r: State, t: Turn, busy: bool)
    requires Agree(g, s, r)
    ensures Agree(g, s.(busy := Put(s.busy, t, busy)), r.(busy := Put(r.busy, t, busy)))
  {
  }

  lemma ActiveOwn(g: Group, s: State, r: State, t: Turn, active: Active)
    requires Agree(g, s, r)
    ensures Agree(g, s.(active := Put(s.active, t, active)), r.(active := Put(r.active, t, active)))
  {
  }

  lemma ToolsOwn(g: Group, s: State, r: State, tool: ToolId)
    requires Agree(g, s, r) && tool in g.tools
    ensures tool in s.approvals <==> tool in r.approvals
    ensures tool in s.executions <==> tool in r.executions
    ensures Agree(g, s.(approvals := s.approvals + [tool]), r.(approvals := r.approvals + [tool]))
    ensures Agree(g, s.(executions := s.executions + [tool]), r.(executions := r.executions + [tool]))
  {
  }

  lemma TextOwn(g: Group, s: State, r: State, m: MessageId, delta: string)
    requires Agree(g, s, r) && m in g.messages
    ensures Agree(g, s.(text := Put(s.text, m, TextOf(s, m) + delta)), r.(text := Put(r.text, m, TextOf(r, m) + delta)))
  {
    assert TextOf(s, m) == TextOf(r, m);
  }

  lemma AbsorbForeign(g: Group, s: State, t: Turn, e: Event)
    requires t !in g.turns && Separate(g, Some(Envelope(t, 0, e)))
    ensures Agree(g, Absorb(s, t, e), s)
    ensures OwnEffects(g, EffectsOf(s, t, e)) == []
  {
    EffectsForeign(g, s, t, e);
    hide EffectsOf, OwnEffects;
    match e
    case TextDelta(m, delta) => TextForeign(g, s, m, TextOf(s, m) + delta);
    case _ => hide TextOf, Inherited; AbsorbKeepsText(s, t, e);
  }

  lemma EffectsForeign(g: Group, s: State, t: Turn, e: Event)
    requires t !in g.turns
    ensures OwnEffects(g, EffectsOf(s, t, e)) == []
  {
  }

  lemma TextForeign(g: Group, s: State, m: MessageId, text: string)
    requires m !in g.messages
    ensures Agree(g, s.(text := Put(s.text, m, text)), s)
  {
    hide Inherited;
  }

  lemma AbsorbKeepsText(s: State, t: Turn, e: Event)
    requires !e.TextDelta?
    ensures forall m :: TextOf(Absorb(s, t, e), m) == TextOf(s, m)
  {
    hide Inherited;
  }

  lemma AgreeThrough(g: Group, a: State, b: State, c: State)
    requires Agree(g, a, b) && Agree(g, b, c)
    ensures Agree(g, a, c)
  {
  }

  /** An envelope of the group does the same to two states that agree on the group. */
  lemma OwnStep(g: Group, s: State, r: State, x: Input)
    requires Agree(g, s, r) && Own(g, x) && Separate(g, x)
    ensures Agree(g, Project(s, x).state, Project(r, x).state)
    ensures Project(s, x).effects == Project(r, x).effects
    ensures OwnEffects(g, Project(s, x).effects) == Project(s, x).effects
    ensures Project(s, x).accepted == Project(r, x).accepted
  {
    var e := x.value;
    assert LastOf(s, e.turn) == LastOf(r, e.turn);
    NumberOwn(g, s, r, e.turn, e.sequence);
    hide Absorb, EffectsOf, Agree, LastOf, Put;
    AbsorbOwn(g, s.(last := Put(s.last, e.turn, e.sequence)), r.(last := Put(r.last, e.turn, e.sequence)), e.turn, e.event);
    assert OwnEffects(g, [ShowWarning(e.turn)]) == [ShowWarning(e.turn)] by { assert [ShowWarning(e.turn)][1..] == []; }
  }

  lemma NumberOwn(g: Group, s: State, r: State, t: Turn, n: nat)
    requires Agree(g, s, r)
    ensures Agree(g, s.(last := Put(s.last, t, n)), r.(last := Put(r.last, t, n)))
  {
    hide TextOf;
    TextKept(g, s, r, Put(s.last, t, n), Put(r.last, t, n));
  }

  lemma TextKept(g: Group, s: State, r: State, x: map<Turn, nat>, y: map<Turn, nat>)
    requires Agree(g, s, r)
    ensures forall m | m in g.messages :: TextOf(s.(last := x), m) == TextOf(r.(last := y), m)
  {
    forall m | m in g.messages
      ensures TextOf(s.(last := x), m) == TextOf(r.(last := y), m)
    {
      assert TextOf(s, m) == TextOf(r, m);
    }
  }

  /** An envelope of another turn does nothing to it. */
  lemma ForeignStep(g: Group, s: State, r: State, x: Input)
    requires Agree(g, s, r) && !Own(g, x) && Separate(g, x)
    ensures Agree(g, Project(s, x).state, r)
    ensures OwnEffects(g, Project(s, x).effects) == []
  {
    hide Absorb, EffectsOf;
    if x.Some? {
      var e := x.value;
      var next := s.(last := Put(s.last, e.turn, e.sequence));
      assert Agree(g, next, r);
      AbsorbForeign(g, next, e.turn, e.event);
      AgreeThrough(g, Absorb(next, e.turn, e.event), next, r);
    }
  }

  lemma OwnEffectsConcat(g: Group, a: seq<Effect>, b: seq<Effect>)
    ensures OwnEffects(g, a + b) == OwnEffects(g, a) + OwnEffects(g, b)
  {
    if a == [] {
      assert a + b == b;
    } else {
      assert (a + b)[1..] == a[1..] + b;
    }
  }

  /** Projecting all turns together gives a group the state and effects it gets from its own envelopes alone. */
  lemma {:induction false} GroupsDoNotInterfere(g: Group, s: State, r: State, xs: seq<Input>)
    requires Agree(g, s, r)
    requires forall x | x in xs :: Separate(g, x)
    ensures Agree(g, StateAfter(s, xs), StateAfter(r, OwnInputs(g, xs)))
    ensures OwnEffects(g, EffectsAfter(s, xs)) == EffectsAfter(r, OwnInputs(g, xs))
    decreases |xs|
  {
    hide Agree, Separate, Project;
    if xs != [] {
      var p := Project(s, xs[0]);
      OwnEffectsConcat(g, p.effects, EffectsAfter(p.state, xs[1..]));
      if Own(g, xs[0]) {
        OwnStep(g, s, r, xs[0]);
        GroupsDoNotInterfere(g, p.state, Project(r, xs[0]).state, xs[1..]);
        assert OwnInputs(g, xs)[1..] == OwnInputs(g, xs[1..]);
      } else {
        ForeignStep(g, s, r, xs[0]);
        GroupsDoNotInterfere(g, p.state, r, xs[1..]);
        assert OwnInputs(g, xs) == [] + OwnInputs(g, xs[1..]) == OwnInputs(g, xs[1..]);
      }
    }
  }

  /** However turns with separate ids are interleaved, each group sees the same text and the same effects. */
  lemma InterleavingDoesNotMatter(g: Group, xs: seq<Input>, ys: seq<Input>, m: MessageId)
    requires forall x | x in xs + ys :: Separate(g, x)
    requires OwnInputs(g, xs) == OwnInputs(g, ys)
    requires m in g.messages
    ensures TextOf(StateAfter(INITIAL, xs), m) == TextOf(StateAfter(INITIAL, ys), m)
    ensures OwnEffects(g, EffectsAfter(INITIAL, xs)) == OwnEffects(g, EffectsAfter(INITIAL, ys))
  {
    assert Agree(g, INITIAL, INITIAL);
    forall x | x in xs ensures Separate(g, x) { assert x in xs + ys; }
    forall x | x in ys ensures Separate(g, x) { assert x in xs + ys; }
    GroupsDoNotInterfere(g, INITIAL, INITIAL, xs);
    GroupsDoNotInterfere(g, INITIAL, INITIAL, ys);
  }
}
