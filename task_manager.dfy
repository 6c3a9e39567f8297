/** The routing agent (lib/agents/task-manager.ts): one completion request
    in JSON mode classifies the turn as `proceed` or `inquire`. Empty content
    stands for `proceed`; anything that is not exactly
    `{ object: { next: "proceed" | "inquire" } }` fails the call, and nothing
    catches the failure. */
module TaskManager {
  import opened Wrappers
  import opened JsValue
  import opened Completion

  /** The text used when the reply has no content. */
  const DEFAULT_DECISION_TEXT := "{\"object\": {\"next\": \"proceed\"}}"

  /** The two values of the `next` enumeration. */
  datatype NextAction = Proceed | Inquire

  /** Why `taskManager` throws: the request itself, JSON.parse, or the
      schema check. */
  datatype RoutingError = CompletionFailed | InvalidJson | SchemaMismatch

  function ActionName(a: NextAction): string {
    match a
    case Proceed => "proceed"
    case Inquire => "inquire"
  }

  /** The value `nextActionSchema.parse` returns for an action: unknown keys
      are stripped, so only `object.next` remains. */
  function Encode(a: NextAction): Value {
    Obj(map["object" := Obj(map["next" := Str(ActionName(a))])])
  }

  /** The `next` string inside `object`, when both are present with the
      right kinds (objects are JSON objects, not arrays or null). */
  function NextOf(v: Value): Option<string> {
    if v.Obj? && "object" in v.fields && v.fields["object"].Obj?
       && "next" in v.fields["object"].fields && v.fields["object"].fields["next"].Str?
    then Some(v.fields["object"].fields["next"].s)
    else None
  }

  /** `nextActionSchema.parse`: accepts a value exactly when its
      `object.next` is one of the two enumeration strings, and then yields
      that action. */
  function Validate(v: Value): (r: Option<NextAction>)
    ensures r.Some? <==> NextOf(v) == Some("proceed") || NextOf(v) == Some("inquire")
    ensures r.Some? ==> NextOf(v) == Some(ActionName(r.value))
  {
    match NextOf(v)
    case Some(next) =>
      if next == "proceed" then Some(Proceed)
      else if next == "inquire" then Some(Inquire)
      else None
    case None => None
  }

  /** The text handed to JSON.parse: the content, or the default when the
      content is null or empty. */
  function DecisionText(m: Message): (t: string)
    ensures t != ""
    ensures HasText(m) ==> t == m.content.value
    ensures !HasText(m) ==> t == DEFAULT_DECISION_TEXT
  {
    if HasText(m) then m.content.value else DEFAULT_DECISION_TEXT
  }

  /** `taskManager` for one completion reply. */
  function TaskManager(reply: Reply, parse: Parser): (r: Result<NextAction, RoutingError>)
    // a failing request propagates
    ensures reply.Threw? ==> r == Failure(CompletionFailed)
    // text that does not parse propagates the parse error
    ensures reply.Replied? && parse(DecisionText(reply.message)).None? ==> r == Failure(InvalidJson)
    // a parsed value is accepted exactly when it passes the schema, and the decision is its `next`
    ensures reply.Replied? && parse(DecisionText(reply.message)).Some? ==>
              var v := parse(DecisionText(reply.message)).value;
              && (r.Success? <==> Validate(v).Some?)
              && (r.Success? ==> NextOf(v) == Some(ActionName(r.value)))
              && (r.Failure? ==> r.error == SchemaMismatch)
  {
    match reply
    case Threw => Failure(CompletionFailed)
    case Replied(message) =>
      match parse(DecisionText(message))
      case None => Failure(InvalidJson)
      case Some(v) =>
        match Validate(v)
        case Some(action) => Success(action)
        case None => Failure(SchemaMismatch)
  }

  /** The schema accepts the value it returns, and gives back the action. */
  lemma ValidateEncode(a: NextAction)
    ensures Validate(Encode(a)) == Some(a)
  {
  }

  /** With no content (null or empty), and a JSON.parse that reads the
      default text as the object it spells, the decision is `proceed`. */
  lemma EmptyContentProceeds(m: Message, parse: Parser)
    requires !HasText(m)
    requires parse(DEFAULT_DECISION_TEXT) == Some(Encode(Proceed))
    ensures TaskManager(Replied(m), parse) == Success(Proceed)
  {
    ValidateEncode(Proceed);
  }

  /** A `next` outside the enumeration is never coerced: the call fails. */
  lemma OtherNextFails(m: Message, parse: Parser, next: string)
    requires parse(DecisionText(m)) == Some(Obj(map["object" := Obj(map["next" := Str(next)])]))
    requires next != "proceed" && next != "inquire"
    ensures TaskManager(Replied(m), parse) == Failure(SchemaMismatch)
  {
  }
}
