/**
 The wire guard of Agent envelopes and what the projector reads from a payload that passes it.

 The table of field guards is an object literal, so a look-up also finds what the object inherits:
 the guard called for the type "constructor" or "toString" is a built-in function whose result
 counts as true, and every other inherited name makes the guard throw.
 */
module AgentWire {
  import opened Prelude
  import opened AgentProjector

  /** A JSON value; a number is either an integer or it is not. */
  datatype Json =
    | Null
    | Bool(b: bool)
    | Int(n: int)
    | Fraction
    | Str(s: string)
    | Arr(items: seq<Json>)
    | Obj(fields: map<string, Json>)

  function Field(v: Json, name: string): Option<Json>
  {
    if v.Obj? && name in v.fields then Some(v.fields[name]) else None
  }

  predicate NonEmptyString(f: Option<Json>)
  {
    f.Some? && f.value.Str? && f.value.s != ""
  }

  predicate AString(f: Option<Json>)
  {
    f.Some? && f.value.Str?
  }

  predicate NonNegativeInt(f: Option<Json>)
  {
    f.Some? && f.value.Int? && f.value.n >= 0
  }

  const RESULT_STATUSES := {"succeeded", "failed", "denied", "blocked", "cancelled", "outcomeUnknown", "unsupported"}

  predicate PairedResult(f: Option<Json>, tool: string)
  {
    && f.Some? && f.value.Obj?
    && NonEmptyString(Field(f.value, "toolUseId")) && Field(f.value, "toolUseId").value.s == tool
    && AString(Field(f.value, "content"))
    && AString(Field(f.value, "status")) && Field(f.value, "status").value.s in RESULT_STATUSES
  }

  /** The field guard of each known type. */
  predicate FieldsOk(ty: string, v: Json)
  {
    if ty in {"turnStarted", "turnFinished", "turnCancelled"} then true
    else if ty == "assistantMessageStarted" then NonEmptyString(Field(v, "messageId")) && NonNegativeInt(Field(v, "round"))
    else if ty in {"textDelta", "thinkingDelta"} then NonEmptyString(Field(v, "messageId")) && AString(Field(v, "delta"))
    else if ty == "assistantMessageFinished" then NonEmptyString(Field(v, "messageId"))
    else if ty == "toolProposed" then
      && NonEmptyString(Field(v, "toolUseId")) && NonEmptyString(Field(v, "name")) && Field(v, "input").Some?
      && Field(v, "risk").Some? && Field(v, "risk").value.Arr?
      && forall k | 0 <= k < |Field(v, "risk").value.items| :: NonEmptyString(Some(Field(v, "risk").value.items[k]))
    else if ty == "approvalRequested" then NonEmptyString(Field(v, "toolUseId")) && NonEmptyString(Field(v, "reason"))
    else if ty == "toolExecutionRequested" then
      NonEmptyString(Field(v, "toolUseId")) && NonEmptyString(Field(v, "target")) && Field(v, "input").Some?
    else if ty == "toolStarted" then NonEmptyString(Field(v, "toolUseId"))
    else if ty == "toolOutputDelta" then NonEmptyString(Field(v, "toolUseId")) && AString(Field(v, "delta"))
    else if ty == "toolFinished" then
      NonEmptyString(Field(v, "toolUseId")) && PairedResult(Field(v, "result"), Field(v, "toolUseId").value.s)
    else if ty == "usageUpdated" then NonNegativeInt(Field(v, "inputTokens")) && NonNegativeInt(Field(v, "outputTokens"))
    else if ty == "compatibilityFallbackActivated" then NonEmptyString(Field(v, "provider")) && NonEmptyString(Field(v, "reason"))
    else ty == "turnFailed" && NonEmptyString(Field(v, "code")) && NonEmptyString(Field(v, "message"))
  }

  const KNOWN := {
    "turnStarted", "assistantMessageStarted", "textDelta", "thinkingDelta", "assistantMessageFinished", "toolProposed",
    "approvalRequested", "toolExecutionRequested", "toolStarted", "toolOutputDelta", "toolFinished", "usageUpdated",
    "compatibilityFallbackActivated", "turnFinished", "turnCancelled", "turnFailed"}

  const INHERITED_FUNCTIONS := {"constructor", "toString"}

  datatype Verdict = Accept | Reject | Throws

  /** `isAgentEventEnvelope`. */
  function Guard(v: Json): Verdict
  {
    if !NonEmptyString(Field(v, "ownerId")) || !NonEmptyString(Field(v, "conversationId")) || !NonEmptyString(Field(v, "turnId")) then Reject
    else if !NonNegativeInt(Field(v, "sequence")) || Field(v, "sequence").value.n == 0 then Reject
    else if Field(v, "event").None? || !NonEmptyString(Field(Field(v, "event").value, "type")) then Reject
    else
      var event := Field(v, "event").value;
      var ty := Field(event, "type").value.s;
      TableVerdict(ty, event)
  }

  /** The look-up of the type's guard and its call. */
  function TableVerdict(ty: string, event: Json): Verdict
  {
    if ty in KNOWN then if FieldsOk(ty, event) then Accept else Reject
    else if ty in INHERITED_FUNCTIONS then Accept
    else if Inherited(ty) then Throws
    else Reject
  }

  /** What the projector's `switch` makes of an accepted event. */
  function Read(v: Json): Event
    requires Guard(v) == Accept
  {
    var event := Field(v, "event").value;
    var ty := Field(event, "type").value.s;
    if ty == "turnStarted" then TurnStarted
    else if ty == "assistantMessageStarted" then MessageStarted(Field(event, "messageId").value.s, Field(event, "round").value.n)
    else if ty == "textDelta" then TextDelta(Field(event, "messageId").value.s, Field(event, "delta").value.s)
    else if ty == "approvalRequested" then ApprovalRequested(Field(event, "toolUseId").value.s, Field(event, "reason").value.s)
    else if ty == "toolExecutionRequested" then
      ToolExecutionRequested(Field(event, "toolUseId").value.s, Field(event, "target").value.s, Shown(Field(event, "input").value))
    else if ty == "turnFinished" then TurnFinished
    else if ty == "turnCancelled" then TurnCancelled
    else if ty == "turnFailed" then TurnFailed(Field(event, "code").value.s, Field(event, "message").value.s)
    else Informational
  }

  /** A tool's input is passed on as it is; here only strings are told apart. */
  function Shown(v: Json): string
  {
    if v.Str? then v.s else ""
  }

  function Received(v: Json): Input
  {
    if Guard(v) != Accept then None
    else Some(Envelope(Field(v, "turnId").value.s, Field(v, "sequence").value.n, Read(v)))
  }

  // ---- The sender ----

  function EventJson(e: Event): Json
  {
    match e
    case TurnStarted => Obj(map["type" := Str("turnStarted")])
    case MessageStarted(m, round) => Obj(map["type" := Str("assistantMessageStarted"), "messageId" := Str(m), "round" := Int(round)])
    case TextDelta(m, delta) => Obj(map["type" := Str("textDelta"), "messageId" := Str(m), "delta" := Str(delta)])
    case ApprovalRequested(tool, reason) => Obj(map["type" := Str("approvalRequested"), "toolUseId" := Str(tool), "reason" := Str(reason)])
    case ToolExecutionRequested(tool, target, input) =>
      Obj(map["type" := Str("toolExecutionRequested"), "toolUseId" := Str(tool), "target" := Str(target), "input" := Str(input)])
    case TurnFinished => Obj(map["type" := Str("turnFinished")])
    case TurnCancelled => Obj(map["type" := Str("turnCancelled")])
    case TurnFailed(code, message) => Obj(map["type" := Str("turnFailed"), "code" := Str(code), "message" := Str(message)])
    case Informational => Obj(map["type" := Str("toolStarted"), "toolUseId" := Str("tool")])
  }

  function EnvelopeJson(owner: string, conversation: string, e: Envelope): Json
  {
    Obj(map["ownerId" := Str(owner), "conversationId" := Str(conversation), "turnId" := Str(e.turn),
            "sequence" := Int(e.sequence), "event" := EventJson(e.event)])
  }

  /** No id and no required text is empty. */
  predicate Complete(e: Event)
  {
    match e
    case MessageStarted(m, _) => m != ""
    case TextDelta(m, _) => m != ""
    case ApprovalRequested(tool, reason) => tool != "" && reason != ""
    case ToolExecutionRequested(tool, target, _) => tool != "" && target != ""
    case TurnFailed(code, message) => code != "" && message != ""
    case _ => true
  }

  /** A sent envelope is received as it was sent exactly when its ids are there and it has a positive number. */
  lemma EnvelopeRoundTrip(owner: string, conversation: string, e: Envelope)
    ensures Received(EnvelopeJson(owner, conversation, e)) == Some(e) <==>
              owner != "" && conversation != "" && e.turn != "" && e.sequence > 0 && Complete(e.event)
    ensures !(owner != "" && conversation != "" && e.turn != "" && e.sequence > 0 && Complete(e.event)) ==>
              Guard(EnvelopeJson(owner, conversation, e)) == Reject
  {
    var v := EnvelopeJson(owner, conversation, e);
    assert Field(v, "event") == Some(EventJson(e.event));
    EventFields(e.event);
    if owner != "" && conversation != "" && e.turn != "" && e.sequence > 0 && Complete(e.event) {
      assert Guard(v) == Accept by { hide EventJson, FieldsOk; }
      EventIsRead(e.event, v);
    } else {
      assert Guard(v) == Reject by { hide EventJson, FieldsOk; }
    }
    hide EventJson, Read, Guard;
  }

  lemma EventIsRead(e: Event, v: Json)
    requires Guard(v) == Accept && Field(v, "event") == Some(EventJson(e))
    ensures Read(v) == e
  {
    hide Guard;
  }

  /** The guard's answer to a sent event, and what is read back. */
  lemma EventFields(e: Event)
    ensures var v := EventJson(e);
            NonEmptyString(Field(v, "type")) && Field(v, "type").value.s in KNOWN && (FieldsOk(Field(v, "type").value.s, v) <==> Complete(e))
  {
  }

  /**
   An event that is nothing but a type passes the guard exactly when the type needs no field or is one
   of the two inherited names; with such a name it is projected as an accepted event without effect.
   */
  lemma BareTypesThatPass(owner: string, conversation: string, turn: Turn, n: nat, ty: string, s: State)
    requires owner != "" && conversation != "" && turn != "" && n > 0
    ensures var v := Obj(map["ownerId" := Str(owner), "conversationId" := Str(conversation), "turnId" := Str(turn),
                             "sequence" := Int(n), "event" := Obj(map["type" := Str(ty)])]);
            && (Guard(v) == Accept <==> ty in {"turnStarted", "turnFinished", "turnCancelled", "constructor", "toString"})
            && (ty in {"constructor", "toString"} && Expects(s, turn, n) ==>
                  Project(s, Received(v)) == Projection(s.(last := Put(s.last, turn, n)), [], true))
  {
    hide TableVerdict;
    var event := Obj(map["type" := Str(ty)]);
    BareVerdict(ty);
    var v := Obj(map["ownerId" := Str(owner), "conversationId" := Str(conversation), "turnId" := Str(turn),
                     "sequence" := Int(n), "event" := event]);
    assert Field(v, "event") == Some(event) && Field(event, "type") == Some(Str(ty));
    if ty == "" {
      assert Guard(v) == Reject;
    } else {
      assert Guard(v) == TableVerdict(ty, event);
    }
  }

  lemma BareVerdict(ty: string)
    ensures var event := Obj(map["type" := Str(ty)]);
            TableVerdict(ty, event) == Accept <==> ty in {"turnStarted", "turnFinished", "turnCancelled", "constructor", "toString"}
  {
    var event := Obj(map["type" := Str(ty)]);
    assert forall name | name != "type" :: Field(event, name) == None;
    assert "constructor" !in KNOWN && "toString" !in KNOWN;
  }
}
