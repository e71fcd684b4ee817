# AI chat client: the message-exchange pipeline in Dafny

This project models the logic behind a single-page chat client. The client
forwards typed text to a hosted generative-language model and keeps the
conversation in one browser-storage slot. The model covers four pieces:

- **Validation** (`validation.dfy`, from `app/utils/validation.ts`). The
  message and API-key checks, as pure functions returning `{isValid, error?}`.
  `String.prototype.trim` is modelled with the exact ECMAScript whitespace and
  line-terminator set.
- **AI service** (`ai_service.dfy`, from `app/services/aiService.ts`). The
  `AIService` class with its `genAI`/`model` fields. It covers initialisation
  from the configured key, the batch call, the streaming call, and the
  classification of failures by substring (`API_KEY`, then `QUOTA`, then
  generic). The remote model is an input: a `RemoteOutcome` (text, or a thrown
  value that is or is not an `Error`), or a `StreamOutcome` (chunks, then
  completion or a thrown value). The streaming generator is a method that
  returns every result it yields, in order. It accumulates `fullText` in a
  loop whose invariant is that `fullText` is the concatenation of the chunks
  seen so far.
- **Conversation store** (`chat_storage.dfy`, from
  `app/hooks/useChatStorage.ts`). A class holding the `history` and the storage
  `slot`. It has `AddMessage` and `ClearChat`, and the hook's two effects as
  explicit calls: `Load` (on mount) and `Save` (after each history change).
  The slot's text is modelled by what `if (saved)` and `JSON.parse` make of
  it: blank, unparsable, not an array, or an array.
- **Submit controller** (`page.dfy`, from `handleSubmit` in `app/page.tsx`).
  The page state `(history, isLoading, error, message)` as a class, with
  `HandleSubmit`. It validates, appends the user turn, clears the input, sets
  the loading flag, calls the service, and appends the reply or the error as
  an assistant turn. Every exit path clears the loading flag.

Behaviour of the code worth knowing, all modelled as written:

- `clearChat` removes the slot (`useChatStorage.ts:48`). But
  `setChatHistory([])` installs a new array, so the save effect then writes
  `[]` back (`useChatStorage.ts:30-36`). The slot is absent only until that
  effect runs. `ClearThenReload` shows that a later session loads the empty
  history either way.
- A failing stream has already yielded every chunk that arrived before the
  failure. A thrown value that is not an `Error` instance yields no error
  result at all (`aiService.ts:115-132`). See `StreamFailedAfterChunks`.
- `reinitialize` with an invalid key throws before any field is assigned
  (`aiService.ts:28-29`). A model built earlier therefore stays in place.
  "Initialised iff the key is valid" holds for construction. For
  `reinitialize`, a valid key rebuilds the model and an invalid key changes
  nothing.
- An empty key string is falsy, so it is reported as "not configured", just
  like an absent key (`validation.ts:37`).

## Model

| member | source | states |
|---|---|---|
| `Validation.TrimStartSkipsWhitespace` | app/utils/validation.ts:10 | trimming at the front removes exactly the leading run of whitespace: what is left starts with a non-whitespace character or is empty |
| `Validation.TrimEndSkipsWhitespace` | app/utils/validation.ts:10 | trimming at the back removes exactly the trailing run of whitespace |
| `Validation.OccursIff` | app/utils/validation.ts:10 | the whitespace test searches the whitespace set: a character is found exactly when it belongs to the set |
| `Validation.TrimEmptyIff` | app/utils/validation.ts:10 | `message.trim()` is empty exactly when every character of the message is whitespace |
| `Validation.ValidateMessage` | app/utils/validation.ts:9-32 | a message is valid iff its trimmed form is non-empty and its untrimmed length is at most 4000; a valid result has no error, an invalid one always has one; the "Message too short" error is never produced |
| `Validation.WhitespaceOnlyIsEmpty` | app/utils/validation.ts:10-15 | a whitespace-only message gets "Message cannot be empty" whatever its length, because the emptiness check runs first |
| `Validation.TooLongIff` | app/utils/validation.ts:17-22 | a message with visible content is rejected as too long exactly when its untrimmed length is over 4000 (4000 is accepted, 4001 is not) |
| `Validation.ReachableMessageErrors` | app/utils/validation.ts:24-29 | every rejected message carries the empty or the too-long error; the minimum-length branch is unreachable |
| `Validation.ValidateApiKey` | app/utils/validation.ts:34-52 | an absent or empty key gives "not configured", a key of length 1 to 9 gives "Invalid API key format", and the key is valid exactly when its length is at least 10 |
| `AIService.Includes` | app/services/aiService.ts:62 | `message.includes(sub)` holds exactly when `sub` occurs at some position of the message |
| `AIService.Classify` | app/services/aiService.ts:57-79 | a failure is a key error exactly when it is an `Error` whose message contains API_KEY; it is a quota error exactly when it is an `Error` whose message contains QUOTA but not API_KEY; everything else is generic |
| `AIService.Response` | app/services/aiService.ts:40-81 | generateResponse always returns a well-formed result and never throws: success exactly when initialised and the remote call returned, with exactly the remote text; "not initialized" when uninitialised; otherwise the classified failure message |
| `AIService.KeyErrorWinsOverQuota` | app/services/aiService.ts:62-74 | an `Error` mentioning API_KEY is reported as a key error even if it also mentions QUOTA |
| `AIService.NonErrorIsGeneric` | app/services/aiService.ts:61-79 | a thrown value that is not an `Error` gets the generic failure message whatever it contains |
| `AIService.ConcatAppend` | app/services/aiService.ts:98 | accumulating chunk texts distributes over splitting the chunk list |
| `AIService.ChunkInFinalText` | app/services/aiService.ts:94-111 | each chunk appears in the final text right after the text of all the chunks before it |
| `AIService.StreamFailure` | app/services/aiService.ts:112-133 | the streaming catch block yields exactly one result for an `Error` and none for any other thrown value |
| `AIService.StreamUninitialized` | app/services/aiService.ts:85-91 | an uninitialised service yields exactly one failure with the "not initialized" message and stops |
| `AIService.StreamCompleted` | app/services/aiService.ts:94-111 | n chunks that complete yield n+1 successful results: chunk i with isComplete false, then the concatenation of all chunks with isComplete true |
| `AIService.StreamOfTwoChunks` | app/services/aiService.ts:94-111 | chunks "A" and "B" yield "A" and "B" as partial results, then "AB" as the complete one |
| `AIService.StreamFailedAfterChunks` | app/services/aiService.ts:94-133 | a failure after k chunks yields the k partial results, never a complete one, then one error classified as in the batch call for an `Error` and nothing for other thrown values |
| `AIService.OnlyLastIsComplete` | app/services/aiService.ts:83-134 | only the last result of a stream can be marked complete, and only when the stream completed on an initialised service |
| `AIService.AIService.constructor` | app/services/aiService.ts:21-23 | a new service is initialised exactly when the configured key is valid, and an invalid key does not throw |
| `AIService.AIService.InitializeAI` | app/services/aiService.ts:25-38 | a valid key builds a client and a "gemini-pro" model from that key; an invalid key leaves both fields as they were |
| `AIService.AIService.Reinitialize` | app/services/aiService.ts:137-139 | re-running initialisation: initialised with the new key when it is valid, unchanged otherwise |
| `AIService.AIService.GenerateResponse` | app/services/aiService.ts:40-81 | the batch call returns the uniform result described by `Response`, and sends the message to the remote model only when initialised |
| `AIService.AIService.GenerateStreamingResponse` | app/services/aiService.ts:83-134 | the generator yields exactly `StreamResults` in order (loop invariant: `fullText` is the concatenation of the chunks so far), and sends the message only when initialised |
| `ChatStorage.Restore` | app/hooks/useChatStorage.ts:15-27 | the load effect replaces the history exactly when the slot holds a JSON array, and then by that array's elements |
| `ChatStorage.RestoreSaved` | app/hooks/useChatStorage.ts:15-36 | loading what the save effect wrote gives back the same history, in the same order |
| `ChatStorage.RestoreDoesNotCheckElements` | app/hooks/useChatStorage.ts:19-21 | only the top level is checked: an array whose elements are not turns is restored as it is |
| `ChatStorage.ReloadAfterClear` | app/hooks/useChatStorage.ts:30-49 | after clearChat, whether the slot stays removed or is rewritten as `[]`, loading it gives the empty history |
| `ChatStorage.ClearThenReload` | app/hooks/useChatStorage.ts:15-49 | a session that loads, clears and runs the save effect (whose write may fail) leaves a slot from which the next session loads the empty history |
| `ChatStorage.ChatStorage.constructor` | app/hooks/useChatStorage.ts:12 | the history starts empty |
| `ChatStorage.ChatStorage.Load` | app/hooks/useChatStorage.ts:15-27 | the history becomes the stored array when there is one; absent, blank, unparsable or non-array content leaves it unchanged |
| `ChatStorage.ChatStorage.Save` | app/hooks/useChatStorage.ts:30-36 | a successful write puts the serialised history in the slot; a failed write is swallowed and leaves the slot and the history as they were |
| `ChatStorage.ChatStorage.AddMessage` | app/hooks/useChatStorage.ts:38-44 | appends exactly one turn with the given role and content and the current time; all earlier turns are unchanged |
| `ChatStorage.ChatStorage.ClearChat` | app/hooks/useChatStorage.ts:46-49 | the history is empty and the slot is removed |
| `Page.ValidationErrorText` | app/page.tsx:35 | the error shown for a rejected message is never empty: the validation error when it is a non-empty string, "Invalid message" otherwise |
| `Page.RejectedMessageShowsItsError` | app/page.tsx:33-37 | a rejected message always shows its own validation error; the "Invalid message" fallback is never used |
| `Page.ReplyContent` | app/page.tsx:50-66 | the assistant turn is never empty; it carries the response content on success with non-empty content; otherwise the response error when it is non-empty, else the apology; the apology when the call threw |
| `Page.ReplyForRemote` | app/page.tsx:48-59 | for every remote behaviour, the reply is the remote text if non-empty; the apology for an empty success; otherwise the service's not-initialised or classified failure message |
| `Page.QuotaFailureReply` | app/page.tsx:48-59 | a quota failure from the remote side becomes an assistant turn "API quota exceeded. Please try again later." |
| `Page.Home.constructor` | app/page.tsx:13-15 | the page starts with an empty input, not loading and no error |
| `Page.Home.HandleSubmit` | app/page.tsx:29-70 | an invalid message sets the error and changes nothing else; a valid one clears the error and the input, grows the history by exactly the user turn (untrimmed text) and then the reply turn, has the service send exactly the untrimmed text to the remote model when it is initialised (and nothing otherwise), and ends with the loading flag cleared |
| `Page.Home.Exchange` | app/page.tsx:39-69 | after validation: at the remote call, the history ends with the user turn, loading is set, the input and error are cleared; the text handed to the service is the one it sends to the remote model; afterwards the reply turn follows and loading is cleared |
| `Page.TwoSubmissionsInOrder` | app/page.tsx:29-70 | two successful submissions leave the turns in order: user, assistant, user, assistant |

## Left out

- The React components (`ChatMessage`, `ChatInput`, `LoadingIndicator`, `Settings`) and all markup. They are presentation only. The input box's own "non-blank and not loading" gate is left out with them.
- The generative-language SDK. It is a foreign network client. Its behaviour is an input: the `RemoteOutcome` and `StreamOutcome` parameters. The model assumes that building the client and the model handle never throws.
- `async`/`await` and the async generator. Each call is a sequential method, and the stream is the list of everything it yields. Cancellation and interleaving are not modelled. The source has no cancellation, and its busy flag is only cooperative.
- React scheduling. The two effects of the storage hook are the explicit calls `Load` and `Save`. The model does not force a `Save` after each history change, as React does. Batching and re-render order are not modelled. `setChatHistory`, which the hook also exports, is not modelled, because the page never uses it.
- JSON text and `Date`. A slot's text is represented by what parsing makes of it (`Document`). A timestamp is an opaque number taken from a clock parameter. After a reload the source holds an ISO string where a `Date` used to be. The model does not capture this.
- String lengths count Unicode scalar values. JavaScript counts UTF-16 code units, so a character outside the Basic Multilingual Plane counts as 1 here and as 2 in the source.
- `console.error` logging.
- The catch branch of `handleSubmit` (`page.tsx:60-66`). It is modelled by `ReplyContent(Rejected)`. The modelled service never throws, so `HandleSubmit` never reaches that branch.
