# Todo store and chat controller, modelled in Dafny

This project models the stateful core of a small client-side web application
with two features:

- a **todo list** (`useTodos`), an ordered list of `{id, text, completed}`
  items, newest first, that is written to the `"todos"` slot of the browser's
  local storage after every change and read back once when it mounts;
- a **chat panel** (`useChat`), a transcript of user and assistant turns plus
  a loading flag and an error slot. `sendMessage` posts the whole transcript
  to the chat endpoint and settles in one of four ways. `clearChat` empties
  the transcript and the error;
- the two **input guards** that feed them: `ChatInput.handleSend` forwards
  the *trimmed* text, and `TodoForm.handleSubmit` forwards the text
  *untrimmed*. Both refuse blank text and empty their field after forwarding;
- the **wiring** of the pages: the todo form calls `addTodo`, the page shows
  "N of M tasks remaining", and the chat panel disables its input while a
  request is loading or an error is shown.

Each list updater and each settlement path is a pure function (`Added`,
`Toggled`, `Deleted`, `Hydrated`, `Dispatched`, `Settled`, `Sent`, `Cleared`,
`Forwarded`, `Submitted`). Its properties are stated in its contract and in
lemmas. The React state slots are classes (`TodoStore`, `ChatController`,
`ChatInput`, `TodoForm`, `TodoPage`, `ChatPanel`) whose fields the methods
update step by step, in the source's order. Each method is proved against
those functions.

`String.prototype.trim` is `Trimming.Trim`. It strips ECMAScript WhiteSpace
and LineTerminator code points from both ends. A string is falsy after
trimming exactly when `Trimming.IsBlank` holds.

The network is an input. `ChatHook.Outcome` says how a request settled:
a non-ok response with the body's `error` field, an ok response with or
without `choices[0].message`, or a thrown exception. `sendMessage` is
modelled as one step (`ChatController.SendMessage`) and as its two halves
(`Dispatch` up to the `fetch`, `Settle` afterwards). The panel uses the
halves, so that a click on Clear can happen while a request is in flight.

Local storage is the field `TodoStore.storage : Option<Stored>`. A stored
value is the empty string, text that does not parse, or the JSON text of a
list (`Json(items)`, with the parsed list standing for the text). Each write
takes a flag `writeOk`. A write that throws is logged and ignored, so the
slot keeps its old value.

Ids come from the clock (`Date.now()`) and nothing checks that they are
unique. `toggleTodo` flips every item whose id matches, and `deleteTodo`
removes every such item. The model does the same.

Files: `wrappers.dfy` (Option), `trimming.dfy`, `todo_hook.dfy`,
`todo_form.dfy`, `todo_page.dfy`, `chat_hook.dfy`, `chat_input.dfy`,
`chat_panel.dfy`. One module per source file.

## Model

| member | source | states |
|---|---|---|
| `Trimming.TrimStart` | src/components/chat/ChatInput.tsx:17 | the result is the suffix of the input left after its leading whitespace; every dropped character is whitespace and the result does not start with whitespace |
| `Trimming.TrimEnd` | src/components/chat/ChatInput.tsx:17 | the result is the prefix of the input left after its trailing whitespace; every dropped character is whitespace and the result does not end with whitespace |
| `Trimming.Trim` | src/components/chat/ChatInput.tsx:17 | `trim()` returns a contiguous slice of the input; everything before and after the slice is whitespace, and the slice neither starts nor ends with whitespace |
| `Trimming.IsBlank` | src/hooks/useTodos.ts:37 | `!text.trim()` holds exactly when every character of the text is whitespace (the empty string included) |
| `Trimming.TrimIdempotent` | src/components/chat/ChatInput.tsx:16-17 | trimming a trimmed string changes nothing |
| `Trimming.TrimKeepsNonBlank` | src/components/chat/ChatInput.tsx:16-17 | a text that passes the non-blank test is still non-blank, and non-empty, after trimming |
| `TodoHook.Added` | src/hooks/useTodos.ts:36-44 | a blank text leaves the list unchanged; otherwise the list grows by one, its tail is the old list, and its head is an open todo with the fresh id and the text untrimmed |
| `TodoHook.Toggled` | src/hooks/useTodos.ts:46-52 | length, ids, texts and order are kept, and `completed` flips on exactly the items whose id matches, duplicates included |
| `TodoHook.Deleted` | src/hooks/useTodos.ts:54-56 | no item with the id is left; every other item is kept with its multiplicity; the list never grows |
| `TodoHook.ToggledTwice` | src/hooks/useTodos.ts:48-49 | toggling the same id twice gives back the original list |
| `TodoHook.ToggledAbsent` | src/hooks/useTodos.ts:48-49 | toggling an id that no item carries changes nothing |
| `TodoHook.DeletedDistributes` | src/hooks/useTodos.ts:55 | deletion keeps relative order: deleting from `a + b` is deleting from `a` followed by deleting from `b` |
| `TodoHook.DeletedAbsent` | src/hooks/useTodos.ts:55 | deleting an id that no item carries changes nothing |
| `TodoHook.DeletedIdempotent` | src/hooks/useTodos.ts:55 | deleting the same id a second time changes nothing |
| `TodoHook.Hydrated` | src/hooks/useTodos.ts:15-25 | the loaded list is the parsed list when the slot parses, and empty when the slot is absent, empty or fails to parse |
| `TodoHook.RemountRestores` | src/hooks/useTodos.ts:17-19 | mounting from the slot that persistence wrote restores the same list |
| `TodoHook.TodoStore.Mount` | src/hooks/useTodos.ts:12-34 | after mounting, the list is the hydrated list. The slot holds that list when the load set it and the second write succeeded. Otherwise it holds the empty list written on the first render when that write succeeded, and the original slot when neither write did |
| `TodoHook.TodoStore.Persist` | src/hooks/useTodos.ts:28-34 | a successful write makes the slot hold the current list; a failed write leaves the slot unchanged |
| `TodoHook.TodoStore.AddTodo` | src/hooks/useTodos.ts:36-44 | the list becomes `Added` of the old list; a blank text writes nothing; a synced slot stays synced when the write succeeds |
| `TodoHook.TodoStore.ToggleTodo` | src/hooks/useTodos.ts:46-52 | the list becomes `Toggled` of the old list and, when the write succeeds, the slot holds the new list |
| `TodoHook.TodoStore.DeleteTodo` | src/hooks/useTodos.ts:54-56 | the list becomes `Deleted` of the old list and, when the write succeeds, the slot holds the new list |
| `TodoFormField.Submitted` | src/components/todo/TodoForm.tsx:16-19 | text is handed to `onAddTodo` exactly when the field is not blank, and it is the field's contents untrimmed |
| `TodoFormField.SubmittedIsUntrimmed` | src/components/todo/TodoForm.tsx:19 | the form hands on `" hi "` as `" hi "` |
| `TodoFormField.TodoForm.constructor` | src/components/todo/TodoForm.tsx:12 | the field starts empty |
| `TodoFormField.TodoForm.OnChange` | src/components/todo/TodoForm.tsx:27 | the field takes the typed value |
| `TodoFormField.TodoForm.HandleSubmit` | src/components/todo/TodoForm.tsx:14-21 | hands on `Submitted` of the field; the field is emptied after a hand-off and unchanged otherwise |
| `TodoPageView.Remaining` | src/app/page.tsx:32 | the count of open todos is at most the list length; it is zero exactly when every todo is completed, and the full length exactly when none is |
| `TodoPageView.Banner` | src/app/page.tsx:30-34 | the line is shown exactly when the list is non-empty; it shows `Remaining` of the list out of the list length, and never more remaining than the total |
| `TodoPageView.RemainingAppend` | src/app/page.tsx:32 | the open-todo count of a concatenation is the sum of the counts of its parts |
| `TodoPageView.RemainingSingle` | src/app/page.tsx:32 | one todo counts one when it is open and nothing when it is completed; with `RemainingAppend` this fixes the count as the number of todos with `completed == false` |
| `TodoPageView.RemainingAdded` | src/app/page.tsx:32 | adding a non-blank todo raises the remaining count by one |
| `TodoPageView.RemainingToggledOnce` | src/app/page.tsx:32 | toggling the one todo with an id raises the count by one when it was completed and lowers it by one when it was open |
| `TodoPageView.RemainingDeleted` | src/app/page.tsx:32 | deleting never raises the remaining count |
| `TodoPageView.TodoPage.constructor` | src/app/page.tsx:9 | the page mounts the store from the slot, with an empty form, and the slot ends as `TodoStore.Mount` leaves it |
| `TodoPageView.TodoPage.Submit` | src/app/page.tsx:26 | a successful submission adds exactly one open todo whose text is the field's contents as typed, empties the field, and leaves the new list in the slot when the write succeeds; a blank field changes neither the list, the slot nor the field |
| `ChatHook.Reply` | src/hooks/useChat.ts:39-41 | an assistant turn arrives exactly on an ok response with a message, and it is that message, whatever its role |
| `ChatHook.Failure` | src/hooks/useChat.ts:33-47 | an error is recorded exactly when no reply arrives; it is never empty; it is the body's truthy `error` field or the fixed API error on a non-ok response, the format error on an ok response without a message, and the network error on an exception |
| `ChatHook.Dispatched` | src/hooks/useChat.ts:15-22 | a blank message changes nothing; otherwise the transcript gains the user's turn with the text untrimmed, loading is on and the error is cleared |
| `ChatHook.Settled` | src/hooks/useChat.ts:31-50 | loading is off; a reply sets the transcript to the dispatched request plus the reply and leaves the error; a failure leaves the transcript and records `Failure` of the outcome |
| `ChatHook.Sent` | src/hooks/useChat.ts:15-51 | a blank message changes none of the three slots; otherwise loading has ended, the error is `Failure` of the outcome, and the transcript is the old one, then the user's turn with the text untrimmed, then at most one more turn, present exactly when no error is recorded |
| `ChatHook.Cleared` | src/hooks/useChat.ts:53-56 | the transcript is empty, the error is cleared, and loading is untouched |
| `ChatHook.SentReply` | src/hooks/useChat.ts:39-41 | an ok response with a message ends with the old transcript, the user's turn and that message, with no error |
| `ChatHook.SentMalformed` | src/hooks/useChat.ts:42-44 | an ok response without a message keeps only the user's turn and records the invalid-format error |
| `ChatHook.SentNotOk` | src/hooks/useChat.ts:33-36 | a non-ok response keeps only the user's turn and records the body's truthy `error` field, or the fixed API error |
| `ChatHook.SentThrown` | src/hooks/useChat.ts:45-47 | an exception keeps the user's turn and records the network error |
| `ChatHook.ClearDuringFlightUndoneByReply` | src/hooks/useChat.ts:41 | a clear while a request is in flight is undone by a reply, which restores the dispatched transcript and appends the reply |
| `ChatHook.ClearDuringFlightThenFailure` | src/hooks/useChat.ts:33-47 | a clear while a request is in flight, then a failure, leaves an empty transcript with a non-empty error and nothing loading |
| `ChatHook.ChatController.constructor` | src/hooks/useChat.ts:11-13 | the transcript is empty, nothing is loading, and there is no error |
| `ChatHook.ChatController.Dispatch` | src/hooks/useChat.ts:15-29 | a blank message returns without a request and changes nothing; otherwise the request carries the old transcript plus the user's turn, the transcript becomes exactly that, loading is on, and the error is cleared |
| `ChatHook.ChatController.Settle` | src/hooks/useChat.ts:31-50 | the state becomes `Settled`: loading is off; on a failure the transcript is untouched and the error is `Failure` of the outcome |
| `ChatHook.ChatController.SendMessage` | src/hooks/useChat.ts:15-51 | the state becomes `Sent` of the old state |
| `ChatHook.ChatController.ClearChat` | src/hooks/useChat.ts:53-56 | the state becomes `Cleared` of the old state |
| `ChatInputField.Forwarded` | src/components/chat/ChatInput.tsx:15-20 | text is forwarded exactly when it is non-blank, nothing is loading and the input is not disabled; what is forwarded is the trimmed text, which is never blank |
| `ChatInputField.SendButtonDisabled` | src/components/chat/ChatInput.tsx:41 | the send button is enabled exactly when the `handleSend` guard would pass |
| `ChatInputField.InputDisabled` | src/components/chat/ChatInput.tsx:36 | while the field is disabled no message passes the guard, and while it is enabled every non-blank one does |
| `ChatInputField.ForwardedIsTrimmed` | src/components/chat/ChatInput.tsx:17 | the chat input forwards `" hi "` as `"hi"` |
| `ChatInputField.ChatInput.constructor` | src/components/chat/ChatInput.tsx:13 | the field starts empty |
| `ChatInputField.ChatInput.OnChange` | src/components/chat/ChatInput.tsx:33 | the field takes the typed value |
| `ChatInputField.ChatInput.HandleSend` | src/components/chat/ChatInput.tsx:15-20 | forwards `Forwarded` of the field; the field is emptied after a forward and unchanged when the guard fails |
| `ChatInputField.ChatInput.HandleKeyPress` | src/components/chat/ChatInput.tsx:22-27 | Enter without Shift prevents the default and acts as `handleSend`; Shift+Enter and every other key forward nothing and leave the field |
| `ChatInputField.ChatInput.ClickSend` | src/components/chat/ChatInput.tsx:39-42 | a click on the send button, enabled or not, acts as `handleSend` |
| `ChatPanelView.StrandedAsWritten` | src/components/chat/ChatContainer.tsx:36 | a send, a clear while it is in flight and a failed response leave a settled panel whose input is disabled and whose Clear button is disabled |
| `ChatPanelView.ClearAlwaysRecovers` | src/components/chat/ChatContainer.tsx:32-36 | with the corrected Clear rule, a settled panel whose input is blocked can be cleared, after which any non-blank message passes the guard |
| `ChatPanelView.ChatPanel.constructor` | src/components/chat/ChatContainer.tsx:11 | the panel starts with the initial chat state, an empty field and no request in flight |
| `ChatPanelView.ChatPanel.Type` | src/components/chat/ChatInput.tsx:33-36 | typing changes the field only while the field is enabled |
| `ChatPanelView.ChatPanel.Deliver` | src/components/chat/ChatContainer.tsx:85 | forwarded text is dispatched, and its request becomes the one in flight |
| `ChatPanelView.ChatPanel.PressKey` | src/components/chat/ChatContainer.tsx:84-88 | nothing is sent while a request is in flight or an error is set; otherwise Enter without Shift sends exactly when the guard passes. After a send the request is the one in flight, its last turn is the trimmed text, the chat state is `Dispatched` of the old one and the field is empty; otherwise the chat state, the request in flight and the field are unchanged |
| `ChatPanelView.ChatPanel.ClickSend` | src/components/chat/ChatContainer.tsx:84-88 | the same as `PressKey`, for a click on the send button |
| `ChatPanelView.ChatPanel.Respond` | src/hooks/useChat.ts:31-50 | the request in flight settles; none is left in flight, and the panel invariant (in flight exactly while loading, errors never empty) holds again |
| `ChatPanelView.ChatPanel.ClickClearAsWritten` | src/components/chat/ChatContainer.tsx:32-36 | a click on Clear clears exactly when the transcript is non-empty, as the panel has it, and changes nothing otherwise |
| `ChatPanelView.StrandPanelAsWritten` | src/components/chat/ChatContainer.tsx:36 | typing "hi", pressing Enter, clicking Clear (as written) and a thrown request leave a settled panel with nothing in flight, a blocked input and a disabled Clear button |
| `ChatPanelView.ChatPanel.ClickClear` | src/components/chat/ChatContainer.tsx:32-36 | a click on Clear clears when the corrected Clear rule enables the button and changes nothing otherwise |

## Findings

| source | as written | input that shows it | evidently intended | confidence | as-written member | corrected member |
|---|---|---|---|---|---|---|
| src/components/chat/ChatContainer.tsx:36 | the Clear button is disabled whenever the transcript is empty, also while an error is shown; the input is disabled while an error is shown (line 87), and clearing is the only way to remove an error | send "hi", click Clear while the request is in flight (the transcript is non-empty, so Clear is enabled), then let the request fail (any non-ok, malformed or thrown outcome): the transcript is empty, the error is set, nothing is loading, and both the input and Clear are disabled until the panel is remounted | Clear stays enabled while an error is shown, so that a shown error can always be cleared | medium; not executed | `ChatPanelView.StrandedAsWritten` | `ChatPanelView.ClearAlwaysRecovers` |

`ChatPanel.ClickClearAsWritten` is the rule as written, and
`StrandPanelAsWritten` reaches the stranded state through the panel's own
events. `ChatPanel.ClickClear` uses the corrected rule (`ClearEnabled`: a non-empty
transcript or a shown error). `ChatHook.ClearDuringFlightUndoneByReply`
records a second effect of the same race. A reply that arrives after a clear
restores the transcript that was cleared, because the settlement writes the
transcript it captured at dispatch. The model keeps this behaviour, because
it is not clear what was intended.

## Left out

- Rendering, styling, scrolling, icons, timestamps and the banner image's
  error handler are not modelled. They hold no state beyond what is above.
- The chat proxy route (`src/app/api/chat/route.ts`) is not part of this
  model. Its responses enter only as the `Outcome` of a request.
- `fetch`, `await` and React's scheduling are not modelled. A request is
  dispatched in one step and settled in another (`Dispatch`/`Settle`).
  State updates are applied at once, in the order the source issues them.
  A handler always sees the latest state. So the stale closure a handler
  could hold between an update and the next render is not modelled.
- JSON serialisation and parsing are abstracted. `Json(items)` stands for
  text that parses to `items`. Text that parses to something other than a
  list of todos (for example `null`) is not modelled.
- `localStorage` itself is the field `storage`. A failing `setItem` is the
  flag `writeOk`. The `console.error` logging is left out.
- Ids are not generated. `Date.now().toString()` is the parameter `freshId`,
  and ids are not assumed unique, as in the source.
- `ChatHook.Outcome`: the body's `error` field is modelled as an optional
  string; a truthy non-string value there is not modelled. The ok message is
  modelled as a turn with role user or assistant; any other truthy value is
  not modelled.
- Strings are sequences of Unicode scalar values, while JavaScript strings
  are UTF-16 code units, so lone surrogates cannot be represented. `Trim`
  still agrees with `trim()`, because every WhiteSpace and LineTerminator
  code point lies in the Basic Multilingual Plane.
- `TodoForm.handleSubmit` calls `preventDefault()` on the form event. That
  is browser navigation, so it is not modelled. `handleKeyPress`'s
  `preventDefault()` is the `defaultPrevented` result.
