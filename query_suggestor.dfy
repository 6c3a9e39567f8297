/** The query suggestor (lib/agents/query-suggestor.tsx): one completion
    request may call `generate_related_queries`; its `related` argument is
    returned as it is. Every other reply, and every error, gives `[]`. */
module QuerySuggestor {
  import opened Wrappers
  import opened JsValue
  import opened Completion

  /** The related queries for one completion reply. It never throws. */
  function QuerySuggestor(reply: Reply, parse: Parser): (r: Value)
    // with parsed arguments that are not null, `related` verbatim (undefined when absent);
    // the prompt asks for three queries but nothing truncates or pads the list.
    // Arguments that do not parse, or that are null, throw and give the empty list
    ensures reply.Replied? && reply.message.functionCall.Some? ==>
              var parsed := parse(reply.message.functionCall.value.arguments);
              && (parsed.Some? && !parsed.value.Null? && !parsed.value.Undefined? ==> r == Prop(parsed.value, "related"))
              && (parsed.None? || parsed.value.Null? || parsed.value.Undefined? ==> r == Arr([]))
    // without a function call, text content included, the empty list
    ensures reply.Threw? || reply.message.functionCall.None? ==> r == Arr([])
  {
    match reply
    case Threw => Arr([])
    case Replied(message) =>
      match message.functionCall
      case None => Arr([])
      case Some(call) =>
        match parse(call.arguments)
        case None => Arr([])
        case Some(args) =>
          match Get(args, "related")
          case Some(related) => related
          case None => Arr([])
  }

  /** Any list of suggestions, of any length, comes back unchanged. */
  lemma RelatedListVerbatim(call: FunctionCall, content: Option<string>, parse: Parser, related: seq<Value>)
    requires parse(call.arguments) == Some(Obj(map["related" := Arr(related)]))
    ensures QuerySuggestor(Replied(Message(Some(call), content)), parse) == Arr(related)
  {
  }
}
