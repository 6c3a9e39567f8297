/** The inquiry agent (lib/agents/inquire.tsx): after one completion request
    it decides which clarification request to hand back. A function call in
    the reply wins; otherwise text content that parses to an object with a
    truthy `question` and an array `options`; otherwise, and on any error,
    a fixed default inquiry. */
module Inquire {
  import opened Wrappers
  import opened JsValue
  import opened Completion

  const DEFAULT_QUESTION := "Could you please provide more details about your query?"
  const DEFAULT_INPUT_LABEL := "Your response"
  const DEFAULT_INPUT_PLACEHOLDER := "Please provide more details..."

  /** The object the agent checks content against: a truthy
      `question` and an array `options`. Only objects can pass. */
  predicate IsInquiryShaped(v: Value) {
    v.Obj? && "question" in v.fields && Truthy(v.fields["question"])
    && "options" in v.fields && v.fields["options"].Arr?
  }

  /** The fallback inquiry: it asks for more details, offers no options and
      allows free-form input. */
  function DefaultInquiry(): (v: Value)
    ensures IsInquiryShaped(v)
    ensures Prop(v, "question") == Str(DEFAULT_QUESTION)
    ensures Prop(v, "options") == Arr([])
    ensures Prop(v, "allowsInput") == Bool(true)
    ensures Prop(v, "inputLabel") == Str(DEFAULT_INPUT_LABEL)
    ensures Prop(v, "inputPlaceholder") == Str(DEFAULT_INPUT_PLACEHOLDER)
    ensures v.Obj? && v.fields.Keys == {"question", "options", "allowsInput", "inputLabel", "inputPlaceholder"}
  {
    Obj(map[
      "question" := Str(DEFAULT_QUESTION),
      "options" := Arr([]),
      "allowsInput" := Bool(true),
      "inputLabel" := Str(DEFAULT_INPUT_LABEL),
      "inputPlaceholder" := Str(DEFAULT_INPUT_PLACEHOLDER)
    ])
  }

  /** The content path. A parse error, and a property read
      of a parsed `null`, throw inside the inner try and are swallowed by
      its catch; a value without the required shape is ignored. */
  function FromContent(content: Option<string>, parse: Parser): (r: Option<Value>)
    ensures r.Some? <==>
              content.Some? && content.value != ""
              && parse(content.value).Some? && IsInquiryShaped(parse(content.value).value)
    ensures r.Some? ==> r == parse(content.value)
  {
    if content.None? || content.value == "" then None
    else
      match parse(content.value)
      case None => None
      case Some(v) =>
        match Get(v, "question")
        case None => None
        case Some(question) =>
          var options := Get(v, "options");
          if Truthy(question) && options.Some? && options.value.Arr? then Some(v) else None
  }

  /** The inquiry the agent returns for a completion reply. It never
      throws: every path yields a value. */
  function Inquire(reply: Reply, parse: Parser): (r: Value)
    // a failed request gives the default
    ensures reply.Threw? ==> r == DefaultInquiry()
    // a function call wins, and its arguments are returned without any check;
    // arguments that do not parse throw inside the outer try
    ensures reply.Replied? && reply.message.functionCall.Some? ==>
              var parsed := parse(reply.message.functionCall.value.arguments);
              r == (if parsed.Some? then parsed.value else DefaultInquiry())
    // without a function call the result always has the inquiry shape: it is the
    // parsed content exactly when that content has the shape, and the default otherwise
    ensures reply.Replied? && reply.message.functionCall.None? ==>
              && IsInquiryShaped(r)
              && (FromContent(reply.message.content, parse).Some? ==> Some(r) == parse(reply.message.content.value))
              && (FromContent(reply.message.content, parse).None? ==> r == DefaultInquiry())
  {
    match reply
    case Threw => DefaultInquiry()
    case Replied(message) =>
      match message.functionCall
      case Some(call) =>
        (match parse(call.arguments)
         case Some(args) => args
         case None => DefaultInquiry())
      case None =>
        match FromContent(message.content, parse)
        case Some(inquiry) => inquiry
        case None => DefaultInquiry()
  }

  /** When a function call is present the content is not consulted. */
  lemma FunctionCallIgnoresContent(call: FunctionCall, c1: Option<string>, c2: Option<string>, parse: Parser)
    ensures Inquire(Replied(Message(Some(call), c1)), parse) == Inquire(Replied(Message(Some(call), c2)), parse)
  {
  }

  /** Whatever content parses to, a value lacking a truthy question or an
      array of options is never returned on the content path. */
  lemma MalformedContentGivesDefault(content: string, parse: Parser)
    requires parse(content).Some? && !IsInquiryShaped(parse(content).value)
    ensures Inquire(Replied(Message(None, Some(content))), parse) == DefaultInquiry()
  {
  }
}
