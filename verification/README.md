# Support-chat session and history model

A Dafny model of the conversation data flow of a customer-support chat widget:

- the server's chat route: `POST /chat/message` and `GET /chat/history/:sessionId`;
- the reply generator that wraps the language-model service;
- the browser client's session and message-list state.

The model covers three files:

- **Storage** (`storage.dfy`). The two tables are `conversations` and `messages`. The model assumes
  their ids come from counters starting at 1, and a strictly increasing clock stands in for
  `created_at`. The SQL queries
  of the route are a filter over the message sequence (`WHERE conversation_id = $1`), a reverse
  (`ORDER BY created_at DESC`) and a take (`LIMIT 10`).
- **Chat route** (`chat_route.dfy`, `chat_route_props.dfy`). `Submit` is the submit handler as a
  function of the tables before the request. The class `Store` holds the tables and runs the handler
  step by step: the conversation insert, the user-row insert, the history read, the generator call and
  the ai-row insert. Its `PostMessage` is proved to end in exactly the state and response that `Submit`
  gives. The lemmas in `ChatRouteProps` state what `Submit` guarantees. Storage failures are a
  parameter that names the query that throws. A session id that names no conversation fails the user
  insert on the foreign key.
- **Reply generator** (`llm.dfy`). The language-model service is an oracle: a total function from
  the prompt list to an outcome, either `Completed(content)` or `Failed`. The adapter builds
  `[system] ++ history ++ [user]` and maps the outcome to a string that is never empty.
- **Client** (`app.dfy`). The component's state cells and the `chat_sessionId` local-storage slot are
  the fields of `ChatClient`. The list updaters are pure functions. `fetch` outcomes, `Date.now()` ids
  and ISO timestamps are parameters. `handleSendMessage` is split at its `await`:
  - `BeginSend` is the guard and the optimistic user bubble;
  - `FinishSend` runs after the fetch settles;
  - `SendMessage` composes the two.

Three behaviours of the code that the model keeps:

- **Blank messages.** The server rejects only a missing or empty `message` (`!message`); it does not
  trim. A message made only of blanks is stored and answered. Only the client drops blank input.
- **History order.** The history window reaches the generator newest first. The query orders
  `DESC`, and nothing reverses the rows before they go into the prompt. The message just inserted is
  therefore the first history entry, and it is also appended as the last prompt entry.
- **Sender name.** The stored sender of a reply is `ai`, not `assistant`. Only the prompt uses
  `assistant`.

## Model

| member | source | states |
|---|---|---|
| `Llm.PromptList` | backend/src/utils/llm.ts:24-28 | the prompt has `|history| + 2` entries: first the system role with the fixed prompt, then every history entry unchanged and in order, and last `(user, message)` |
| `Llm.ReplyText` | backend/src/utils/llm.ts:36-40 | a thrown call gives the high-traffic fallback; null or empty content gives "I'm sorry, I didn't catch that."; non-empty content is returned as is; the result is never empty |
| `Llm.GenerateReply` | backend/src/utils/llm.ts:14-42 | `generateReply` never fails and never returns an empty string: the reply is the service's own answer to this prompt list or one of the two fixed strings |
| `Storage.WithConversation` | backend/src/routes/chat.ts:22-23 | inserting a conversation adds exactly the id the sequence hands out and leaves the messages alone |
| `Storage.FreshConversationIsNew` | backend/src/routes/chat.ts:22-23 | the id handed out is not already a conversation and is not 0 |
| `Storage.WithMessage` | backend/src/routes/chat.ts:25-28 | inserting a message appends one row with the given conversation, sender and content, and keeps every earlier row |
| `Storage.WithMessageValid` | backend/src/routes/chat.ts:25-28 | an insert that passes the foreign key keeps the tables consistent: ids and `created_at` strictly increase, and every row's conversation exists |
| `Storage.ForConversation` | backend/src/routes/chat.ts:56 | the filtered rows all belong to the conversation and are no more than the table holds |
| `Storage.ForConversationMembers` | backend/src/routes/chat.ts:56 | a row is in the result if and only if it is in the table and has that `conversation_id` |
| `Storage.ForConversationChronological` | backend/src/routes/chat.ts:56 | the filtered rows are in strictly ascending `created_at` order |
| `Storage.HistoryRows` | backend/src/routes/chat.ts:31 | the window holds min(n, 10) rows of the conversation's n rows, and its i-th entry is the i-th newest row |
| `Storage.HistoryRowsNewest` | backend/src/routes/chat.ts:31 | the window is in strictly descending `created_at` order, and every row of the conversation left out of it is older than every row in it |
| `ChatRoute.IsFalsy` | backend/src/routes/chat.ts:21 | `!currentSessionId` for a numeric id: the id is absent or 0 |
| `ChatRoute.ContextFor` | backend/src/routes/chat.ts:31-36 | the generator's history for a conversation has at most 10 entries and none of them has the system role |
| `ChatRoute.Submit` | backend/src/routes/chat.ts:7-51 | the whole handler as a function of the tables before the request: a 400 exactly when validation fails, and then nothing is written; a 200 writes exactly two rows and carries a non-empty reply |
| `ChatRoute.ValidationError` | backend/src/routes/chat.ts:12-18 | a message passes if and only if it is present with length 1 to 500; missing or empty gives "Message is required"; over 500 gives the too-long error |
| `ChatRoute.ResolvedSession` | backend/src/routes/chat.ts:20-24 | a falsy session id resolves to the freshly inserted conversation; any other id is used as given |
| `ChatRoute.WithSession` | backend/src/routes/chat.ts:20-24 | a new conversation is inserted only for a falsy session id; otherwise the tables are untouched |
| `ChatRoute.RoleOf` | backend/src/routes/chat.ts:34 | sender `user` maps to role `user`, and every other sender maps to `assistant`, never `system` |
| `ChatRoute.ToChatHistory` | backend/src/routes/chat.ts:33-36 | one prompt entry per row, in the same order, with the content unchanged and the role given by `RoleOf` |
| `ChatRoute.Store.InsertConversation` | backend/src/routes/chat.ts:22-23 | the store gains exactly the conversation `WithConversation` describes, and the returned id was not in use |
| `ChatRoute.Store.InsertMessage` | backend/src/routes/chat.ts:25-28 | the store gains exactly the row `WithMessage` describes and stays consistent |
| `ChatRoute.Store.PostMessage` | backend/src/routes/chat.ts:7-51 | the handler ends in exactly the tables and response of `Submit` for this request, fault and service, and the store stays consistent |
| `ChatRoute.Store.GetHistory` | backend/src/routes/chat.ts:53-62 | a failing query gives the 500 message; otherwise the result is exactly the conversation's rows in ascending `created_at` order, and an id with no rows gives `[]` |
| `ChatRouteProps.InvalidMessageRejected` | backend/src/routes/chat.ts:12-18 | a missing or empty message gets 400 "Message is required", and one over 500 characters gets the too-long 400; nothing is written in either case |
| `ChatRouteProps.BlankAndFullLengthMessagesPass` | backend/src/routes/chat.ts:12-18 | every message of 1 to 500 blanks, and every message of exactly 500 characters, passes validation and, with a usable session and no failing query, gets a 200 |
| `ChatRouteProps.SubmitSucceedsIff` | backend/src/routes/chat.ts:7-51 | the answer is 200 if and only if the message is valid, the session resolves to an existing conversation and no query that runs fails |
| `ChatRouteProps.NewSessionCreatesOneConversation` | backend/src/routes/chat.ts:20-24 | without a session id exactly one conversation with a fresh id is created, and a 200 returns that id |
| `ChatRouteProps.ExistingSessionKeepsConversations` | backend/src/routes/chat.ts:20-24 | with a session id the set of conversations never changes, and a 200 returns that same id |
| `ChatRouteProps.UnknownSessionWritesNothing` | backend/src/routes/chat.ts:25-28 | an id that names no conversation fails the first insert: 500 "Internal server error", tables unchanged |
| `ChatRouteProps.SubmitPreservesValid` | backend/src/routes/chat.ts:7-51 | every outcome leaves the tables consistent |
| `ChatRouteProps.ContextAfterUserInsert` | backend/src/routes/chat.ts:25-36 | once the user row is inserted, the conversation's history window is that message followed by the up to nine newest earlier rows, newest first |
| `ChatRouteProps.ReplyAnswersNewestWindow` | backend/src/routes/chat.ts:25-38 | the reply of a 200 is the generator's answer to the message, with the message itself and then the up to nine newest earlier rows of the conversation, newest first, as history |
| `ChatRouteProps.SuccessAppendsTwoRows` | backend/src/routes/chat.ts:25-46 | a 200 appends exactly `(user, message)` then `(ai, reply)` to the returned conversation and keeps all earlier rows; the returned reply is the stored ai content and is not empty |
| `ChatRouteProps.NoRollbackAfterUserInsert` | backend/src/routes/chat.ts:31-50 | a failure after the user insert returns 500 and leaves the user row in place, with no ai row |
| `ChatRouteProps.GeneratorSeesJustInsertedMessageFirst` | backend/src/routes/chat.ts:31-38 | the generator's history has 1 to 10 entries, and its first entry is the user message just inserted, so the prompt carries that message both second and last |
| `ChatRouteProps.ContextIsNewestRows` | backend/src/routes/chat.ts:31-36 | the generator's history is the conversation's newest rows, newest first, mapped to roles: at most 10 entries, and all of them when there are at most 10 |
| `ChatRouteProps.ServiceDownStillReplies` | backend/src/utils/llm.ts:37-40 | when the service always fails, the request still gets a 200 whose reply is the high-traffic text, and that text is stored as the last row |
| `ChatRouteProps.FirstExchangeReadsBack` | backend/src/routes/chat.ts:7-62 | on an empty store a first submit without a session, then a history read of the new id, gives the user turn and then the reply |
| `App.NatToString` | frontend/src/App.tsx:69 | `id.toString()` is a non-empty string of decimal digits that denotes the id, with a leading `0` only for the id 0 |
| `App.NatToStringInjective` | frontend/src/App.tsx:69 | distinct numeric ids give distinct string ids |
| `App.Truthy` | frontend/src/App.tsx:49 | a string used as a condition is truthy when it is present and not empty |
| `App.IsBlank` | frontend/src/App.tsx:93 | `text.trim() === ''`: every character is ECMAScript white space or a line terminator |
| `App.Greeting` | frontend/src/App.tsx:53-60 | the greeting bubble: id `"1"`, sender `ai`, the fixed greeting text, the given timestamp, no feedback |
| `App.FromEntry` | frontend/src/App.tsx:68-73 | a history row as a bubble: its id is the decimal digits of the row id, sender, content and `created_at` are carried over, no feedback |
| `App.ToUiMessages` | frontend/src/App.tsx:68-73 | one bubble per server row, in the same order, with the id stringified, sender and content carried over, `timestamp = created_at` and no feedback |
| `App.LoadedMessages` | frontend/src/App.tsx:75-86 | an empty history gives exactly the one `ai` greeting; otherwise the list is the rows' bubbles, in order |
| `App.SetFeedback` | frontend/src/App.tsx:150-156 | feedback is set on exactly the bubbles with the given id; length, order and every other field are unchanged |
| `App.FeedbackLastWins` | frontend/src/App.tsx:150-156 | a second feedback on the same id replaces the first |
| `App.FeedbackIdempotent` | frontend/src/App.tsx:150-156 | repeating the same feedback changes nothing |
| `App.LoadedFeedbackTouchesOne` | frontend/src/App.tsx:68-73 | when the server ids are distinct, feedback on a loaded bubble changes that bubble and no other |
| `App.ReplyBubble` | frontend/src/App.tsx:121-136 | the AI bubble takes the body's `reply` field as is, whatever the HTTP status, or the connection-error text when the fetch or parse throws |
| `App.ChatClient.constructor` | frontend/src/App.tsx:16-19 | a mount starts with no messages, empty input, no typing indicator and no session, while the storage slot keeps its value |
| `App.ChatClient.Startup` | frontend/src/App.tsx:47-62 | a truthy saved id is adopted and its history loaded, and a failed load leaves the list as it was; otherwise the list is exactly the greeting |
| `App.ChatClient.LoadHistory` | frontend/src/App.tsx:64-90 | a good fetch installs `LoadedMessages` of the rows; a failed fetch or an array-less body leaves the list unchanged |
| `App.ChatClient.BeginSend` | frontend/src/App.tsx:92-103 | blank text changes nothing; otherwise exactly one user bubble is appended, the input is cleared and the typing indicator is set |
| `App.ChatClient.FinishSend` | frontend/src/App.tsx:114-139 | exactly one AI bubble, timestamped when the fetch settles, is appended and the typing indicator is cleared; the session and the storage slot change only for a truthy returned id, and then both equal it |
| `App.ChatClient.SendMessage` | frontend/src/App.tsx:92-140 | blank text changes no state; otherwise the request carries the prior session id, the list gains the user bubble (timestamped before the request) and then one AI bubble (timestamped after it), the input is cleared, typing ends, and the session and slot follow a truthy returned id |
| `App.ChatClient.SendInput` | frontend/src/App.tsx:142-144 | sending sends the input box exactly as `SendMessage` sends that text: blank input changes no state; otherwise the user bubble with the input's text and the AI bubble for the server's answer are appended, the input is cleared and the session follows a truthy returned id |
| `App.ChatClient.SuggestionClick` | frontend/src/App.tsx:146-148 | only the input value changes, and it becomes the suggestion |
| `App.ChatClient.GiveFeedback` | frontend/src/App.tsx:150-156 | the list becomes `SetFeedback` of the old list |

## Left out

- The connection pool, database creation and schema loading, and the Express/CORS bootstrap
  (backend/src/db/index.ts, backend/src/db/migrate.ts, backend/src/server.ts). They are configuration
  and I/O. backend/src/db/schema.sql is not part of this model. The model assumes its constraints: a
  foreign key from `messages.conversation_id` to `conversations.id`, and senders limited to `user`
  and `ai`.
- The language-model request itself (model name, `max_tokens: 150`) and error logging. The service is
  an oracle, and `console.error` has no observable effect.
- Concurrent submissions on one session, and client events that interleave with an awaiting send.
  These are concurrency; every operation is modelled as running to completion.
- Ties in `created_at`. The clock strictly increases, so the table order is the creation order.
- Request bodies whose `message` is not a string, such as a number or an object. The message is
  modelled as an optional string.
- ChatRoute.ValidationError: the 500-character bound counts Dafny characters (Unicode scalar values).
  JavaScript's `length` counts UTF-16 code units, so the two differ for characters outside the Basic
  Multilingual Plane.
- Id types. Server conversation ids are naturals from a counter starting at 1 (an assumption about the
  schema), and "falsy" means absent or
  0. The client holds session ids as strings, and there "falsy" means absent or empty. The conversion
  between JSON numbers, strings and local storage is not modelled.
- A non-numeric `:sessionId` path segment, which would make the query fail. The path id is a natural
  here; a failing history query is a parameter.
- JSX rendering, styling, `formatTime`, scrolling, the Enter-key handler, the input's `onChange` and
  its `maxLength` attribute, and the `MessageInput`/`MessageList` components. These are UI with no
  state logic beyond what `App.tsx` already has.
- `Date.now()` ids and `new Date().toISOString()` timestamps. They are parameters (the user bubble's
  and the AI bubble's timestamps separately), so nothing is assumed about their uniqueness or order.
