/** The reply of one chat-completion request, as the agents read it: the
    first choice's message, which may carry a function call (a named
    operation with its arguments as a JSON text) and may carry text content,
    or the error the request threw. */
module Completion {
  import opened Wrappers
  import opened JsValue

  datatype FunctionCall = FunctionCall(name: string, arguments: string)

  /** `result.choices[0].message`; a content of `null` is None. */
  datatype Message = Message(functionCall: Option<FunctionCall>, content: Option<string>)

  /** The request either returns a message or throws (transport or provider
      failure, or a reply without choices, whose `choices[0]` read throws). */
  datatype Reply = Threw | Replied(message: Message)

  /** JSON.parse: the value a text denotes, or None when parsing throws. */
  type Parser = string -> Option<Value>

  /** JSON.stringify of a value. */
  type Serializer = Value -> string

  /** `if (message.content)`: the content is present and not empty. */
  predicate HasText(m: Message) {
    m.content.Some? && m.content.value != ""
  }
}
