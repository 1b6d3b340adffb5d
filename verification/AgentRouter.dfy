/**
 The routing of Agent envelopes in the application: those that arrive before their turn is registered
 wait for it, the others go to one queue, whose handler projects them one after the other.

 Handling an envelope is one step, its effects included; the queue is a promise chain, so no two are
 handled at once.
 */
module AgentRouter {
  import opened Prelude
  import opened AgentProjector

  datatype Router = Router(
    active: map<Turn, State>,              // registered turns with their projection
    pending: map<Turn, seq<Envelope>>,
    queue: seq<Envelope>,
    arrived: seq<Envelope>,                // what the subscription has delivered so far
    handled: seq<Envelope>,                // what has left the queue
    effects: seq<Effect>,
    registered: set<Turn>)

  const IDLE := Router(map[], map[], [], [], [], [], {})

  function PendingOf(r: Router, t: Turn): seq<Envelope>
  {
    if t in r.pending then r.pending[t] else []
  }

  /** Looking up a turn finds its entry, or a property that every object inherits. */
  predicate Found(r: Router, t: Turn)
  {
    t in r.active || Inherited(t)
  }

  /** The subscription's handler. */
  function Arrive(r: Router, e: Envelope): Router
  {
    var r1 := r.(arrived := r.arrived + [e]);
    if Found(r, e.turn) then r1.(queue := r.queue + [e])
    else r1.(pending := r.pending[e.turn := PendingOf(r, e.turn) + [e]])
  }

  /** The start of turn `t` was acknowledged: register it, then flush what has been waiting. */
  function Register(r: Router, t: Turn): Router
  {
    r.(active := r.active[t := AgentProjector.INITIAL],
       pending := r.pending - {t},
       queue := r.queue + PendingOf(r, t),
       registered := r.registered + {t})
  }

  predicate Settles(p: Projection, t: Turn)
  {
    TurnSettled(t) in p.effects
  }

  /** The handler of the envelope at the head of the queue.  With an inherited property for an entry it throws, and the envelope is lost. */
  function Handle(r: Router): Router
  {
    if r.queue == [] then r
    else
      var e := r.queue[0];
      var r1 := r.(queue := r.queue[1..], handled := r.handled + [e]);
      if e.turn !in r.active then r1
      else
        var p := Project(r.active[e.turn], Some(e));
        r1.(active := if Settles(p, e.turn) then r.active - {e.turn} else r.active[e.turn := p.state],
            effects := r.effects + p.effects)
  }

  datatype Step = Arrives(e: Envelope) | Registers(t: Turn) | Handles

  /** The backend gives every turn an id of its own, "turn-" and a number. */
  predicate Enabled(r: Router, step: Step)
  {
    step.Registers? ==> step.t !in r.registered && !Inherited(step.t)
  }

  function Apply(r: Router, step: Step): Router
  {
    match step
    case Arrives(e) => Arrive(r, e)
    case Registers(t) => Register(r, t)
    case Handles => Handle(r)
  }

  ghost predicate IsRun(r: Router, steps: seq<Step>)
    decreases |steps|
  {
    steps == [] || (Enabled(r, steps[0]) && IsRun(Apply(r, steps[0]), steps[1..]))
  }

  function After(r: Router, steps: seq<Step>): Router
    decreases |steps|
  {
    if steps == [] then r else After(Apply(r, steps[0]), steps[1..])
  }

  /** The envelopes of one turn, in order. */
  function Of(es: seq<Envelope>, t: Turn): seq<Envelope>
  {
    if es == [] then [] else (if es[0].turn == t then [es[0]] else []) + Of(es[1..], t)
  }

  function Inputs(es: seq<Envelope>): seq<Input>
  {
    if es == [] then [] else [Some(es[0])] + Inputs(es[1..])
  }

  lemma {:induction false} OfConcat(a: seq<Envelope>, b: seq<Envelope>, t: Turn)
    ensures Of(a + b, t) == Of(a, t) + Of(b, t)
  {
    if a == [] {
      assert a + b == b;
    } else {
      assert (a + b)[1..] == a[1..] + b;
      OfConcat(a[1..], b, t);
      Assoc(if a[0].turn == t then [a[0]] else [], Of(a[1..], t), Of(b, t));
    }
  }

  lemma OfOwn(es: seq<Envelope>, t: Turn)
    requires forall e | e in es :: e.turn == t
    ensures Of(es, t) == es
    ensures forall u | u != t :: Of(es, u) == []
  {
    if es != [] {
      assert es[0] in es;
      OfOwn(es[1..], t);
      assert es == [es[0]] + es[1..];
    }
  }

  /** What the router holds of one turn. */
  datatype Part = Part(
    arrived: seq<Envelope>, handled: seq<Envelope>, queued: seq<Envelope>, pending: seq<Envelope>,
    active: Option<State>, registered: bool)

  function PartOf(r: Router, t: Turn): Part
  {
    Part(Of(r.arrived, t), Of(r.handled, t), Of(r.queue, t), PendingOf(r, t),
         if t in r.active then Some(r.active[t]) else None, t in r.registered)
  }

  /**
   A turn's arrivals are those handled, those queued and those waiting, in this order and each once;
   while it is active none waits, before it is registered all do (unless its name is inherited), and its projection is the fold over
   what was handled of it.
   */
  ghost predicate Good(p: Part, t: Turn)
  {
    && p.arrived == p.handled + p.queued + p.pending
    && (forall e | e in p.pending :: e.turn == t)
    && (p.active.Some? ==> p.registered && p.pending == [] && p.active.value == StateAfter(AgentProjector.INITIAL, Inputs(p.handled)))
    && (!p.registered && !Inherited(t) ==> p.handled == [] && p.queued == [])
    && (Inherited(t) ==> !p.registered && p.pending == [])
  }

  ghost predicate Inv(r: Router)
  {
    forall t :: Good(PartOf(r, t), t)
  }

  lemma ArriveFields(r: Router, e: Envelope, t: Turn)
    ensures var r1, own := Arrive(r, e), if t == e.turn then [e] else [];
            && Of(r1.arrived, t) == Of(r.arrived, t) + own
            && Of(r1.queue, t) == Of(r.queue, t) + (if Found(r, t) then own else [])
            && PendingOf(r1, t) == PendingOf(r, t) + (if Found(r, t) then [] else own)
            && r1.handled == r.handled && r1.active == r.active && r1.registered == r.registered
  {
    hide Inherited, Of;
    OfConcat(r.arrived, [e], t);
    OfConcat(r.queue, [e], t);
    OfOne(e, t);
    assert Of(r.queue, t) + [] == Of(r.queue, t);
    assert PendingOf(r, t) + [] == PendingOf(r, t);
  }

  lemma OfOne(e: Envelope, t: Turn)
    ensures Of([e], t) == if t == e.turn then [e] else []
  {
    assert [e][1..] == [];
  }

  lemma ArrivePart(r: Router, e: Envelope, t: Turn)
    ensures PartOf(Arrive(r, e), t) ==
            if t != e.turn then PartOf(r, t)
            else if PartOf(r, t).active.Some? || Inherited(t) then PartOf(r, t).(arrived := PartOf(r, t).arrived + [e], queued := PartOf(r, t).queued + [e])
            else PartOf(r, t).(arrived := PartOf(r, t).arrived + [e], pending := PartOf(r, t).pending + [e])
  {
    ArriveFields(r, e, t);
    hide Arrive, Of, PendingOf, Inherited;
  }

  lemma ArriveKeepsInv(r: Router, e: Envelope)
    requires Inv(r)
    ensures Inv(Arrive(r, e))
  {
    hide Arrive, PartOf, StateAfter;
    forall t
      ensures Good(PartOf(Arrive(r, e), t), t)
    {
      ArrivePart(r, e, t);
      var p := PartOf(r, t);
      assert p.handled + (p.queued + [e]) + [] == p.handled + p.queued + [] + [e];
      assert p.handled + p.queued + (p.pending + [e]) == p.handled + p.queued + p.pending + [e];
    }
  }

  lemma RegisterPart(r: Router, u: Turn, t: Turn)
    requires Good(PartOf(r, u), u)
    ensures PartOf(Register(r, u), t) ==
            if t != u then PartOf(r, t)
            else Part(PartOf(r, t).arrived, PartOf(r, t).handled, PartOf(r, t).queued + PartOf(r, t).pending, [],
                      Some(AgentProjector.INITIAL), true)
  {
    hide StateAfter;
    OfConcat(r.queue, PendingOf(r, u), t);
    OfOwn(PendingOf(r, u), u);
  }

  lemma RegisterKeepsInv(r: Router, u: Turn)
    requires Inv(r) && u !in r.registered && !Inherited(u)
    ensures Inv(Register(r, u))
  {
    hide Register, Of, PendingOf;
    forall t
      ensures Good(PartOf(Register(r, u), t), t)
    {
      RegisterPart(r, u, t);
      var p := PartOf(r, t);
      assert Good(p, t);
      assert p.handled + (p.queued + p.pending) + [] == p.handled + p.queued + p.pending;
    }
  }

  lemma StateAfterSnoc(s: State, es: seq<Envelope>, e: Envelope)
    ensures StateAfter(s, Inputs(es + [e])) == Project(StateAfter(s, Inputs(es)), Some(e)).state
    decreases |es|
  {
    hide Project;
    if es == [] {
      assert Inputs([e]) == [Some(e)] && Inputs([e])[1..] == [];
      assert [] + [e] == [e];
    } else {
      assert (es + [e])[1..] == es[1..] + [e];
      assert Inputs(es + [e])[1..] == Inputs(es[1..] + [e]) && Inputs(es)[1..] == Inputs(es[1..]);
      StateAfterSnoc(Project(s, Some(es[0])).state, es[1..], e);
    }
  }

  /** What handling does to the projection of the envelope's turn. */
  function Advance(active: Option<State>, e: Envelope): Option<State>
  {
    if active.None? then None
    else
      var p := Project(active.value, Some(e));
      if Settles(p, e.turn) then None else Some(p.state)
  }

  lemma HandlePart(r: Router, t: Turn)
    requires r.queue != []
    ensures PartOf(Handle(r), t) ==
            if t != r.queue[0].turn then PartOf(r, t)
            else PartOf(r, t).(handled := PartOf(r, t).handled + [r.queue[0]],
                               queued := Of(r.queue[1..], t),
                               active := Advance(PartOf(r, t).active, r.queue[0]))
    ensures PartOf(r, t).queued == (if t == r.queue[0].turn then [r.queue[0]] else []) + Of(r.queue[1..], t)
  {
    var e := r.queue[0];
    OfConcat(r.handled, [e], t);
    OfOwn([e], e.turn);
    OfQueue(r.queue, t);
    hide Of;
    HandleActive(r, t);
    hide Project, Settles, Advance;
  }

  lemma OfQueue(queue: seq<Envelope>, t: Turn)
    requires queue != []
    ensures Of(queue, t) == (if t == queue[0].turn then [queue[0]] else []) + Of(queue[1..], t)
    ensures t != queue[0].turn ==> Of(queue, t) == Of(queue[1..], t)
  {
  }

  /** Handling advances the projection of the envelope's turn and no other. */
  lemma HandleActive(r: Router, t: Turn)
    requires r.queue != []
    ensures var r1 := Handle(r);
            && (if t in r1.active then Some(r1.active[t]) else None) ==
               (var a := if t in r.active then Some(r.active[t]) else None; if t == r.queue[0].turn then Advance(a, r.queue[0]) else a)
            && r1.queue == r.queue[1..] && r1.handled == r.handled + [r.queue[0]]
            && r1.arrived == r.arrived && r1.pending == r.pending && r1.registered == r.registered
  {
    hide Project, Settles;
  }

  lemma HandleKeepsInv(r: Router)
    requires Inv(r)
    ensures Inv(Handle(r))
  {
    hide Project, StateAfter, Handle, Of, PendingOf, Settles, Inputs;
    if r.queue == [] {
      assert Handle(r) == r by { HandleNothing(r); }
    } else {
      var e := r.queue[0];
      forall t
        ensures Good(PartOf(Handle(r), t), t)
      {
        HandlePart(r, t);
        var p := PartOf(r, t);
        assert Good(p, t);
        if t == e.turn {
          StateAfterSnoc(AgentProjector.INITIAL, p.handled, e);
          var rest := Of(r.queue[1..], t);
          assert p.handled + ([e] + rest) + p.pending == (p.handled + [e]) + rest + p.pending;
          AdvanceIsProject(p.active, e);
        }
      }
    }
  }

  lemma HandleNothing(r: Router)
    requires r.queue == []
    ensures Handle(r) == r
  {
  }

  lemma AdvanceIsProject(active: Option<State>, e: Envelope)
    ensures Advance(active, e).Some? ==> active.Some? && Advance(active, e).value == Project(active.value, Some(e)).state
  {
  }

  lemma StepKeepsInv(r: Router, step: Step)
    requires Inv(r) && Enabled(r, step)
    ensures Inv(Apply(r, step))
  {
    hide Inv, Arrive, Register, Handle;
    match step
    case Arrives(e) => ArriveKeepsInv(r, e);
    case Registers(t) => RegisterKeepsInv(r, t);
    case Handles => HandleKeepsInv(r);
  }

  lemma {:induction false} RunKeepsInv(r: Router, steps: seq<Step>)
    requires Inv(r) && IsRun(r, steps)
    ensures Inv(After(r, steps))
    decreases |steps|
  {
    hide Inv, Apply, Enabled;
    if steps != [] {
      StepKeepsInv(r, steps[0]);
      RunKeepsInv(Apply(r, steps[0]), steps[1..]);
    }
  }

  lemma IdleInv()
    ensures Inv(IDLE)
  {
  }

  /** In every run each envelope is handled, queued or waiting exactly once, in the order of its turn's arrivals. */
  lemma ArrivalsAreConserved(steps: seq<Step>, t: Turn)
    requires IsRun(IDLE, steps)
    ensures var r := After(IDLE, steps); Of(r.arrived, t) == Of(r.handled, t) + Of(r.queue, t) + PendingOf(r, t)
    ensures t in After(IDLE, steps).active ==> PendingOf(After(IDLE, steps), t) == []
    ensures Inherited(t) ==> t !in After(IDLE, steps).active && PendingOf(After(IDLE, steps), t) == []
  {
    hide IsRun, After, StateAfter;
    IdleInv();
    RunKeepsInv(IDLE, steps);
    assert Good(PartOf(After(IDLE, steps), t), t);
  }

  /** Once the queue is empty, an active turn is the projection of all that ever arrived of it, early arrivals included. */
  lemma NothingEarlyIsLost(steps: seq<Step>, t: Turn)
    requires IsRun(IDLE, steps)
    requires After(IDLE, steps).queue == [] && t in After(IDLE, steps).active
    ensures After(IDLE, steps).active[t] == StateAfter(AgentProjector.INITIAL, Inputs(Of(After(IDLE, steps).arrived, t)))
  {
    hide IsRun, After, StateAfter;
    IdleInv();
    RunKeepsInv(IDLE, steps);
    var r := After(IDLE, steps);
    var p := PartOf(r, t);
    assert Good(p, t) && p.queued == [] && p.pending == [];
    assert p.handled + [] + [] == p.handled;
    assert p.arrived == p.handled;
  }

  /** The refs of the application component. */
  class Routes {
    var active: map<Turn, State>
    var pending: map<Turn, seq<Envelope>>
    var queue: seq<Envelope>
    ghost var arrived: seq<Envelope>
    ghost var handled: seq<Envelope>
    ghost var effects: seq<Effect>
    ghost var registered: set<Turn>

    ghost function Abs(): Router
      reads this
    {
      Router(active, pending, queue, arrived, handled, effects, registered)
    }

    constructor ()
      ensures Abs() == IDLE
    {
      active, pending, queue := map[], map[], [];
      arrived, handled, effects, registered := [], [], [], {};
    }

    method OnEvent(e: Envelope)
      modifies this
      ensures Abs() == Arrive(old(Abs()), e)
    {
      arrived := arrived + [e];
      if e.turn !in active && !Inherited(e.turn) {
        var buffered := if e.turn in pending then pending[e.turn] else [];
        pending := pending[e.turn := buffered + [e]];
        return;
      }
      queue := queue + [e];
    }

    /** Registration first, then one `enqueue` for each buffered envelope. */
    method OnStarted(t: Turn)
      modifies this
      ensures Abs() == Register(old(Abs()), t)
    {
      active := active[t := AgentProjector.INITIAL];
      registered := registered + {t};
      var buffered := if t in pending then pending[t] else [];
      pending := pending - {t};
      var i := 0;
      while i < |buffered|
        invariant 0 <= i <= |buffered|
        invariant queue == old(queue) + buffered[..i]
        invariant Abs() == Register(old(Abs()), t).(queue := queue)
      {
        queue := queue + [buffered[i]];
        i := i + 1;
      }
      assert buffered[..i] == buffered;
    }

    method HandleNext() returns (run: seq<Effect>)
      requires queue != []
      modifies this
      ensures Abs() == Handle(old(Abs())) && effects == old(effects) + run
    {
      hide Project;
      var e := queue[0];
      queue, handled := queue[1..], handled + [e];
      run := [];
      if e.turn in active {
        var p := Project(active[e.turn], Some(e));
        run := p.effects;
        if TurnSettled(e.turn) in p.effects {
          active := active - {e.turn};
        } else {
          active := active[e.turn := p.state];
        }
        effects := effects + run;
      }
    }
  }
}
