# Agent decision logic and chat store of a conversational research assistant

This project models, in Dafny, the deterministic layer around the AI agents
of a conversational research assistant, and its client-side chat store.

Each agent sends one chat-completion request and then decides what to return
from the shape of the reply. The model replaces the request by its reply
(`Completion.Reply`: either the error it threw, or a message with an optional
function call and optional text content). JSON.parse becomes a parameter
`parse: string -> Option<Value>`, where None means that parsing throws.
JSON.stringify becomes a parameter `stringify: Value -> string`. The Tavily
HTTP call becomes a parameter `fetch`. Values are JSON values plus
`undefined` (`JsValue.Value`). Reading a property of null or undefined throws,
exactly as in JavaScript.

- **Inquiry agent** (`Inquire`): a function call in the reply wins, and its
  parsed arguments are returned unchecked. Otherwise, content that parses to
  an object with a truthy `question` and an array `options` is returned.
  Otherwise, and on every error, a fixed default inquiry is returned.
- **Research agent** (`Researcher`): on a function call, the arguments are
  defaulted (`max_results` to 10, `search_depth` to `basic`). The Tavily
  request clamps `max_results` to at least 5. A missing key, a `max_results`
  that cannot be compared with 5, a failed fetch, a non-ok status or a
  non-JSON body throws. A successful search is reported
  as `"Based on the search results: "` followed by the serialised result.
  Without a function call, the reply's text is reported, or
  `"No response generated"`. The agent makes one request, with no retry loop
  and no parsing of the search result. Every error gives the same fixed
  apology and a null result.
- **Routing agent** (`TaskManager`): empty content stands for
  `{"object": {"next": "proceed"}}`. The parsed value must carry `object.next`
  equal to `proceed` or `inquire`. Anything else throws, and nothing catches it.
- **Query suggestor** (`QuerySuggestor`): a function call gives its `related`
  argument verbatim. Everything else, including errors, gives `[]`.
- **Chat store** (`ChatStore`): a class `Store` with the fields `chats` and
  `activeChatId`. `AddChat` takes the outcome of the server call. On success
  it appends the new chat and activates it; otherwise it leaves the state
  untouched. `SetActiveChat` changes only the active id. Pure step functions
  (`AddChatStep`, `SetActiveChatStep`, `Run`) specify the methods. Lemmas about
  them cover sequences of calls.

## Model

| member | source | states |
|---|---|---|
| `Inquire.DefaultInquiry` | lib/agents/inquire.tsx:136-142 | the default inquiry asks "Could you please provide more details about your query?", has no options, allows input, and has the label "Your response" and the placeholder "Please provide more details..."; it has exactly these five fields and passes the content check |
| `Inquire.FromContent` | lib/agents/inquire.tsx:122-133 | content is used exactly when it is non-empty, parses, and the parsed value is an object with a truthy `question` and an array `options`; a parse error or a parsed null falls through |
| `Inquire.Inquire` | lib/agents/inquire.tsx:24-152 | a thrown request gives the default; a function call gives its parsed arguments, or the default when they do not parse; without a function call the result always has the inquiry shape, and it is the parsed content when that content has the shape and the default otherwise; every path returns a value |
| `Inquire.FunctionCallIgnoresContent` | lib/agents/inquire.tsx:116-120 | when a function call is present, the content does not affect the result |
| `Inquire.MalformedContentGivesDefault` | lib/agents/inquire.tsx:123-142 | content that parses to a value without a truthy question or an array of options yields the default inquiry |
| `Researcher.SearchArgs` | lib/agents/researcher.tsx:62-63 | `query` is passed as is; a falsy `max_results` becomes 10 and a falsy `search_depth` becomes 'basic', truthy ones are kept; arguments that are null or undefined throw |
| `Researcher.ClampMaxResults` | lib/agents/researcher.tsx:98 | a number below 5 is sent as 5, a number of at least 5 unchanged, so a numeric `max_results` sent is always at least 5; the comparison throws exactly for an object with its own `toString` field |
| `Researcher.RequestFor` | lib/agents/researcher.tsx:95-102 | the request carries the key, the query and the depth unchanged, `max_results` as clamped (at least 5 when numeric), and asks for images and answers; building it throws exactly when the clamp throws |
| `Researcher.TavilySearch` | lib/agents/researcher.tsx:79-116 | a missing or empty key fails with no dependence on the network; a `max_results` that cannot be compared fails before any request; a failed fetch fails; a non-ok status fails with that status and the error body (`{}` when it is not JSON); an ok response gives its JSON body, or fails when the body is not JSON; a result is only ever the body of an ok response to the request built from the call |
| `Researcher.ApiErrorMessageNamesStatus` | lib/agents/researcher.tsx:105-108 | the message thrown for a non-ok status names the status code: the code can be read back from the message whatever the error body is |
| `Researcher.RunSearch` | lib/agents/researcher.tsx:60-63 | arguments that do not parse fail, and null or undefined arguments fail; any other parsed arguments always run the Tavily search on the defaulted arguments, and its result or failure is passed on |
| `Researcher.Researcher` | lib/agents/researcher.tsx:3-77 | the response text is never empty; a result is reported only with the reply it came from, and a null result always comes with the fixed apology; a successful search gives "Based on the search results: " plus the serialised result; any failure gives the apology; without a function call the response is the content, or "No response generated" when it is null or empty |
| `Researcher.UnconvertibleMaxResultsGivesErrorResponse` | lib/agents/researcher.tsx:98-114 | with a configured key, a `max_results` object with its own `toString` field ends in the apology with a null result, whatever the network would answer |
| `JsValue.LessThan` | lib/agents/researcher.tsx:98 | comparing a number gives the numeric comparison; the comparison throws exactly for an object with its own `toString` field |
| `Researcher.MissingKeyGivesErrorResponse` | lib/agents/researcher.tsx:85-88 | without a configured key, a function-call reply always ends in the apology, whatever the network would answer |
| `Researcher.SentMaxResults` | lib/agents/researcher.tsx:63-98 | for any arguments that are not null or undefined, a non-zero numeric `max_results` is sent as the larger of itself and 5, and a missing or falsy one is sent as 10 |
| `TaskManager.Validate` | lib/agents/task-manager.ts:5-9 | a value is accepted exactly when its `object.next` is "proceed" or "inquire", and the accepted action names that string |
| `TaskManager.DecisionText` | lib/agents/task-manager.ts:45 | the text parsed is the content when it is non-empty, and `{"object": {"next": "proceed"}}` when the content is null or empty |
| `TaskManager.TaskManager` | lib/agents/task-manager.ts:13-50 | a thrown request propagates; text that does not parse fails; a parsed value succeeds exactly when the schema accepts it, and the decision is its `next`; any other value fails with a schema error |
| `TaskManager.ValidateEncode` | lib/agents/task-manager.ts:48-50 | the schema accepts the value it returns and gives back the same action |
| `TaskManager.EmptyContentProceeds` | lib/agents/task-manager.ts:45-50 | null or empty content gives `proceed`, given a JSON.parse that reads the default text correctly |
| `TaskManager.OtherNextFails` | lib/agents/task-manager.ts:48 | a `next` outside the enumeration is not coerced: the call fails |
| `QuerySuggestor.QuerySuggestor` | lib/agents/query-suggestor.tsx:13-66 | a function call with parsed, non-null arguments gives their `related` verbatim; arguments that do not parse or are null give `[]`; no function call or a thrown request gives `[]`, even with text content; it never throws |
| `QuerySuggestor.RelatedListVerbatim` | lib/agents/query-suggestor.tsx:56-60 | a `related` list of any length is returned unchanged: nothing truncates or pads it |
| `ChatStore.Initial` | lib/store/chat-store.ts:18-19 | the store starts with no chats and no active id |
| `ChatStore.NewChat` | lib/store/chat-store.ts:22-28 | a chat is created exactly when the server returns success together with a chat, and it keeps that chat's id, name and timestamp |
| `ChatStore.AddChatStep` | lib/store/chat-store.ts:20-40 | an id is returned exactly when the server produced a chat; then the chat is appended at the end, earlier chats are unchanged and in order, the length grows by one, and the new chat is active with the returned id; otherwise null is returned and the state is unchanged |
| `ChatStore.SetActiveChatStep` | lib/store/chat-store.ts:41 | the active id becomes the given id and the chats are untouched |
| `ChatStore.RunAppendsAddedChats` | lib/store/chat-store.ts:29-32 | after any sequence of calls, the chats are the earlier ones followed by every created chat in creation order; nothing is removed or reordered |
| `ChatStore.AddsKeepLastActive` | lib/store/chat-store.ts:29-33 | `addChat` calls alone keep the last chat active, starting from the initial state or any state where that holds |
| `ChatStore.SetActiveChatIsUnchecked` | lib/store/chat-store.ts:41 | `setActiveChat` can activate an id that no chat has |
| `ChatStore.AddChatKeepsDuplicates` | lib/store/chat-store.ts:30 | a created chat whose id is already listed is appended anyway, so the id then occurs twice |
| `ChatStore.Store.constructor` | lib/store/chat-store.ts:17-19 | a new store is in the initial state |
| `ChatStore.Store.AddChat` | lib/store/chat-store.ts:20-40 | the new fields and the returned id are those of `AddChatStep` on the old fields |
| `ChatStore.Store.SetActiveChat` | lib/store/chat-store.ts:41 | only `activeChatId` changes, to the given id |

## Left out

- Network and provider calls: the OpenAI request, `fetch` to the Tavily API and `createNewChat` are parameters given as their outcomes. The prompts, model names and the token budget are not behaviour and are not modelled.
- JSON.parse, JSON.stringify and the zod library are abstract. Only the enumeration check of `nextActionSchema` is modelled.
- Promises and `await`: every call is sequential in the model. Console logging is omitted.
- `JsValue.LessThan`: JavaScript converts a string or an array to a number before `max_results < 5`. The model compares strings and arrays as NaN, so such a value is sent unchanged, and an array whose elements cannot be converted to text does not throw in the model. Numbers, booleans, null, undefined and objects are modelled as JavaScript compares them.
- `JsValue.Get`: built-in properties of strings and arrays, such as `length`, are not modelled. The agents only read `question`, `options`, `query`, `max_results`, `search_depth`, `related`, `object` and `next`.
- `Researcher.SearchErrorMessage`: the messages of a rejected fetch or of an unreadable body come from the platform and are not modelled.
- `ChatStore.NewChat`: `new Date(created_at)` is modelled as keeping the server's timestamp.
- The default parameter values of `tavilySearch` never take effect, because `researcher` always passes defaulted arguments.
- One request per call, with no retry, holds by construction: each agent function takes exactly one reply.
- `app/api/chat/stream/route.ts:2` imports `streamSubmit` from `app/actions/chat`, which does not define it. Nothing behind that import is modelled.
- The stream route's ReadableStream plumbing and line framing are I/O. The database, authentication and React UI files are I/O or rendering.
