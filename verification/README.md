# Per-user conversation history of the Telegram GPT bot

The bot keeps a process-wide dictionary `user_sessions` from a Telegram user
id to that user's list of `{role, content}` turns. A plain text message
appends a user turn. The bot then sends the last `MAX_HISTORY` (20) turns to
the completion provider. If the provider answers, the reply is appended as an
assistant turn and sent back. If the call raises, nothing more is appended and
a fixed apology is returned. `/reset` replaces the user's list with an empty
one.

This project models that logic as pure functions over an immutable
`map<UserId, seq<Turn>>` and proves its behaviour. The provider call is a
parameter: `Succeeded(reply)` or `Failed`.

- `turns.dfy` (module `Turns`): roles, turns, and the alternation predicate.
- `pyslice.dfy` (module `PySlice`): Python's open-ended slice `s[start:]`,
  with negative starts and clamping.
- `sessions.dfy` (module `Sessions`): the store, the window, `ChatWithGpt`
  (`chat_with_gpt`) and `Reset` (the state effect of `/reset`), and the
  one-step properties.
- `dialogue.dfy` (module `Dialogue`): runs of inbound events (messages and
  `/reset`s) handled in order. It includes the per-user projection
  `HistoryAfter` and the multi-step properties.

## Behaviour worth knowing

- The stored history is never trimmed. Only the window sent to the provider
  is bounded (`RunOnlyAppends`, `ChatExtendsHistory`).
- The provider does not always receive alternating user/assistant turns:
  - A failed call stores no assistant turn. The next message then sends
    two user turns in a row (`FailureThenMessageSendsTwoUserTurns`).
  - The window is cut by turn count, not by exchange. So even when every
    call succeeds, a long conversation's window starts with an assistant
    turn (`LongConversationWindowStartsWithAssistant`).
- A provider failure is not a typed value. `chat_with_gpt` returns the
  fallback text in place of a reply, and that is what is modelled.
- No change to `user_sessions` is interrupted by another handler.
  `chat_with_gpt` contains no `await`: the provider call at main.py:37 is
  synchronous. `reset_command` writes the store at main.py:60, before its
  only `await` at main.py:61. So any interleaving of handlers is a serial
  order of whole steps, which is what `Dialogue.Run` models, and two
  messages from one user both land (`TwoMessagesBothLand`).
- The synchronous provider call blocks the event loop. While one call is in
  flight, every other user waits.
- After 25 failed messages from a new user, the window holds messages 5 to
  24, counting from 0. The first five are no longer sent
  (`TwentyFiveMessagesScenario`).

## Model

| member | source | states |
|---|---|---|
| PySlice.SliceFrom | main.py:34 | Python `s[start:]` never fails. Its result is a suffix of `s`. For a negative start its length is `min(-start, \|s\|)`; otherwise it drops `min(start, \|s\|)` elements. |
| PySlice.NegativeSliceIsTail | main.py:34 | For `k > 0`, `s[-k:]` is the last `k` elements when `k <= \|s\|`, and the whole list when `k >= \|s\|`. |
| Sessions.Window | main.py:34 | The window `history[-MAX_HISTORY:]` is a suffix of the stored history, of length `min(20, \|history\|)`. |
| Sessions.ShortHistorySentWhole | main.py:34 | A history of at most 20 turns is sent whole. |
| Sessions.WindowDropsOldest | main.py:34 | Once the history is longer than 20 turns, the window is exactly its last 20 turns, so the oldest are never sent. |
| Sessions.WindowSlides | main.py:34 | The next window depends only on the previous window and the new turn (a sliding window of width 20). |
| Sessions.WindowIdempotent | main.py:34 | Taking the window of a window changes nothing. |
| Sessions.RecentWindow | main.py:34 | The window a user would get is the suffix of that user's history of length `min(20, \|history\|)`. It is empty for a user with no entry. |
| Sessions.ChatWithGpt | main.py:29-46 | After a message, the user has an entry and no other entry changed. The provider was sent the window of the old history plus the new user turn. On success, the user turn and the reply are appended and the reply is returned. On failure, only the user turn is appended and the fallback text is returned. |
| Sessions.FirstContactIsEmptyHistory | main.py:30-31 | A first message from an unknown user behaves exactly as if the user had an empty history. |
| Sessions.ChatExtendsHistory | main.py:33-42 | The stored history grows by 1 turn (failure) or 2 (success). The old turns keep their positions, and the user turn comes right after them. |
| Sessions.SentWindowEndsWithMessage | main.py:33-34 | The window sent is non-empty, has at most 20 turns, ends with the message just received, and is a contiguous run of the stored history ending at that message. |
| Sessions.Reset | main.py:58-60 | After `/reset` the user's entry exists and is empty, and every other entry is unchanged. |
| Sessions.ResetEmptiesWindow | main.py:58-60 | After `/reset` the user's window is empty. |
| Sessions.ResetIdempotent | main.py:60 | Resetting twice equals resetting once. |
| Sessions.ChatAfterResetStartsFresh | main.py:30-43 | After `/reset`, the next message is sent alone. It leaves a history of just that exchange. |
| Sessions.ChatKeepsOtherUsers | main.py:30-42 | A message from one user leaves every other user's history untouched, and does not add or remove their entry. |
| Sessions.ResetKeepsOtherUsers | main.py:60 | `/reset` of one user leaves every other user's history and presence untouched. |
| Sessions.ChatSeesOnlyOwnHistory | main.py:30-43 | The window sent, the reply and the resulting history depend only on the sender's own history. |
| Sessions.ChatsOfDistinctUsersCommute | main.py:29-43 | Messages from two different users give the same final store in either order. |
| Sessions.ResetAndOtherChatCommute | main.py:58-60 | A reset of one user and a message from another commute. The message sees the same window and gets the same reply either way. |
| Sessions.HelloScenario | main.py:36-43 | "hello" answered with "hi there": the reply is returned, the window sent is just the user turn, and the store holds exactly those two turns. |
| Sessions.FailedFirstMessageScenario | main.py:44-46 | On a provider failure for the first message, the fallback text is returned and only the user turn is stored. |
| Dialogue.Run | main.py:58-76 | Each event yields exactly one reply text, the one its handler passes to `reply_text`. That text is the provider's text, the fallback, or the reset confirmation. |
| Dialogue.HandleEffect | main.py:30-60 | One event changes a user's history exactly as the per-user `Effect` says. Another user's event does not add or remove the entry. |
| Dialogue.RunProjects | main.py:24-42 | After any run of events, each user's history is what that user's own events make of it. The other users' events do not matter. |
| Dialogue.RunLeavesOthersUntouched | main.py:30-42 | A user who sends nothing during a run keeps exactly their history and their presence or absence in the store. |
| Dialogue.HistoryAfterOnlyAppends | main.py:33-42 | Without a reset, a history only grows. Earlier turns stay in place, and each message adds between one and two turns. |
| Dialogue.RunOnlyAppends | main.py:33-42 | The stored history is never trimmed. Without a `/reset`, `u`'s messages add between `n` and `2n` turns, and the old turns keep their positions. |
| Dialogue.HistoryAfterFailed | main.py:44-46 | A run made only of `u`'s messages, every call failing, appends exactly their user turns in order. |
| Dialogue.FailedRunKeepsUserTurns | main.py:33-46 | The store-level form: a run made only of `u`'s messages, every call failing, appends exactly their user turns to `u`'s stored history. |
| Dialogue.HistoryAfterAllFailed | main.py:33-46 | In any run with no `/reset` from `u` where every one of `u`'s calls fails, `u`'s history gains exactly the user turns of `u`'s messages, in order. Other users' events may be interleaved. |
| Dialogue.AllFailedRunAppendsUserTurns | main.py:33-46 | The store-level form: under the same conditions, `u`'s stored history is the old one followed by the user turns of `u`'s messages, in order, and nothing else. |
| Dialogue.WindowOfUserTurns | main.py:34 | The window of a history of at least 20 user turns is the last 20 of them, in order. |
| Dialogue.ManyFailedMessagesWindow | main.py:27-34 | After at least 20 failed messages from a user with no entry, in any store, the window is exactly the last 20 messages in order. |
| Dialogue.TwentyFiveMessagesScenario | main.py:27-34 | After 25 failed messages, the window is messages 5 to 24. |
| Dialogue.ExchangeKeepsAlternation | main.py:33-42 | An answered exchange keeps an even-length alternating history alternating. |
| Dialogue.HistoryAfterAnsweredAlternates | main.py:33-42 | Starting from an alternating history of even length, any events in which every message of `u` is answered keep it alternating and of even length. |
| Dialogue.AnsweredRunAlternates | main.py:33-42 | Starting from a stored history that alternates user/assistant and has even length (an absent user qualifies), any run in which every message of `u` is answered keeps it so. The run may include `/reset`s and other users' events. |
| Dialogue.LongConversationWindowStartsWithAssistant | main.py:34 | Once an all-answered history holds 20 turns or more, the next window sent starts with an assistant turn. |
| Dialogue.FailureThenMessageSendsTwoUserTurns | main.py:33-46 | From any history, after a failed call the next window ends with the unanswered message and the new one, two user turns in a row. For a new user, that window is exactly those two turns. |
| Dialogue.TwoMessagesBothLand | main.py:29-43 | Two messages from one user both land: the old history is kept, the first user turn follows it, and the second follows the first message's turns. The length grows by 1 or 2 per message. |
| Dialogue.ResetMidConversation | main.py:58-60 | `/reset` then a message: the history holds only the new exchange, and the replies are the confirmation followed by the message's reply. |

## Left out

- Telegram transport: `send_chat_action`, `reply_text`, handler registration and `run_polling` (main.py:64-89). These are network I/O. Only the reply text per event is kept, in `Dialogue.Run`.
- The provider call `openai.ChatCompletion.create` and reading `choices[0].message["content"]` (main.py:37-41). This is a foreign API, modelled as the `Completion` parameter. A missing `"content"` key raises inside the `try` (main.py:41), so it is the modelled `Failed` path. Content that is present but `None` is not modelled: it would be appended at main.py:42 and returned at main.py:43, while the model's reply is always a string.
- The provider does not see the window in the model: its outcome is a parameter, not a function of the turns sent. The window sent is returned as `Exchange.sent`.
- `start_command` (main.py:49-55). It is a fixed greeting with no state change. Line 50 sits at column 0 right after the `async def` line, which is an `IndentationError`: `main.py` as written does not compile, so none of its behaviour can run. The model describes the program with that body indented.
- Failures of the transport calls in `handle_message`. If `send_chat_action` (main.py:71) raises, `chat_with_gpt` never runs: the history is unchanged and no reply is sent. The model's `Text` event always performs the step.
- Failures of `reply_text` (main.py:76), for example when the provider's text is not valid Markdown. The history then holds both turns, but no reply is delivered. `Dialogue.Run` records the reply text handed to the transport, not its delivery.
- Environment and `.env` loading, the API key and token, and logging (main.py:12-21, main.py:45, main.py:68). These are configuration and side effects.
- Markdown parse mode and the formatting of replies. These are presentation only.
- Sessions.RecentWindow: only the fixed bound `MAX_HISTORY` is modelled, not a caller-chosen bound `k`, because the code only ever slices with the constant.
