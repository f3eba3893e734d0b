# DRChoirBot decision core in Dafny

DRChoirBot ("Riri") is a Telegram bot that relays chat messages to a hosted
language model. This project models the three pieces of `riri.py` that decide
things, and proves what they guarantee:

- **The per-chat rate limiter** (`check_rate_limit`). The bot object holds a
  map from chat id to the instants of that chat's accepted requests. Each call
  prunes the instants that are not strictly newer than one hour ago, refuses
  when 100 or more remain, and otherwise records `now`. `Riri.ChoirBot` is a
  class with that map as a field, and `CheckRateLimit` updates it in place.
  `RateWindow.Check` specifies one call on one chat's list, and
  `RateWindow.Admit` lifts it to the whole map. The lemmas prove several
  things about them: the window bound, the limit of 100, isolation
  between chats, release as soon as the earliest stored instant is an hour
  old, and that a burst inside one hour gets
  exactly its first 100 requests accepted.
- **The respond/ignore gate** (`handle_message`, lines 216-236). Private chats
  (positive ids) are always answered. A group message is answered only if it
  replies to the bot, mentions `@<bot username>`, or its lower-cased text
  contains a keyword. An answered message then passes through the rate
  limiter. `Gate.ShouldRespond` and `Gate.Decide` are pure functions. The
  keyword `"Dead Raisers"` has upper-case letters but is compared with
  lower-cased text, so it never matches. `Gate.DeadRaisersIsInert` proves that
  the gate behaves exactly as if it were not in the list.
- **Context and prompt assembly** (`get_conversation_context`,
  `generate_response`). Stored `(message, response)` rows arrive newest first.
  They are reversed and expanded into alternating user/assistant entries. The
  system prompt goes in front and the new message at the end. A list longer
  than 16 is cut to its first entry plus its last 15.
  `Prompt.AssembledIsRecentTurns` shows the exact result: the prompt always
  holds the system prompt, the newest seven turns (at most) and the new
  message. Because 15 is odd, the cut never splits a turn. Of the ten rows the
  query fetches, the three oldest never reach the model.

`ChoirBot.HandleMessage` ties these together. It returns the list of actions
the handler performs, in order: typing indicator, completion call, save,
reply.

The instants are integers in microseconds, the resolution of Python's
`datetime`. The caller supplies `now`. These are given as parameters: the
completion service's answer (`None` when the call raises), whether the typing
indicator and the save succeed, whether the message replies to the bot, and
the chat's stored rows.

Some behaviours of the code are easy to misread, and the model follows the
code in each:

- The pruned list is written back before the limit test (`riri.py:75-78`),
  so a refused call still drops the chat's expired instants; it never adds
  one.
- The comment at `riri.py:31` says the limit is per minute. The code prunes
  with `timedelta(hours=1)`, so the window is one hour.
- Group chats are woken only by the keyword list, a reply to the bot or a
  mention. `riri.py` keeps no sleep/wake state and has no wake phrases.
- `save_conversation` and `send_chat_action` are called without a `try`. A
  failure in either propagates out of `handle_message`, so no reply is sent:
  a failed log write blocks the reply.

## Model

| member | source | states |
|---|---|---|
| Text.Lower | riri.py:227 | `text.lower()`: same length; no upper-case letter remains; other characters are unchanged; each upper-case letter becomes its lower-case letter |
| Text.LowerMissesUpper | riri.py:227 | a lower-cased text never contains a pattern that has an upper-case letter |
| Text.Contains | riri.py:225-227 | `sub in s`: the empty pattern occurs in every text; a pattern longer than the text never occurs; one as long as the text occurs only when it is the text |
| Text.ContainsIsSlice | riri.py:225-227 | `sub in s` holds iff some slice `s[i..j]` equals `sub` |
| Text.StripOccurs | riri.py:142 | the stripped text occurs in the original text |
| Text.TrimStart | riri.py:142 | leading-whitespace removal: the result is a suffix that starts with a non-space, and only whitespace was dropped |
| Text.TrimEnd | riri.py:142 | trailing-whitespace removal: the result is a prefix that ends with a non-space, and only whitespace was dropped |
| Text.Strip | riri.py:142 | `.strip()`: the result is no longer than the input and has no whitespace at either end |
| Text.StripIsSlice | riri.py:142 | the stripped text is a slice `s[i..j]` of the input, with only whitespace outside it |
| Text.StripIdempotent | riri.py:142 | stripping an already stripped reply changes nothing |
| RateWindow.Prune | riri.py:74-78 | the kept instants are all newer than the cutoff, and are no more than were stored; nothing is dropped when all are newer |
| RateWindow.PruneKeepsExactlyNewer | riri.py:74-78 | an instant is kept iff it was stored and is strictly newer than the cutoff |
| RateWindow.PruneConcat | riri.py:74-78 | pruning preserves order and multiplicity: pruning a concatenation is the concatenation of the pruned parts |
| RateWindow.PruneAllOld | riri.py:74-78 | when every instant is at or before the cutoff, nothing is kept |
| RateWindow.KeepNewer | riri.py:74-78 | the filtering loop produces exactly the pruned list |
| RateWindow.Check | riri.py:74-86 | accepted iff fewer than 100 instants survive pruning; the kept list is the pruned list, plus `now` on acceptance; every kept instant is within the last hour; a list of at most 100 stays at most 100 |
| RateWindow.Admit | riri.py:66-86 | the chat's key exists afterwards (created if missing); other chats are untouched; the answer and the chat's new list are those of `Check` on its old list (empty if missing) |
| RateWindow.AdmitKeepsWithinLimit | riri.py:80-86 | if every chat holds at most 100 instants before a call, that still holds after it |
| RateWindow.WindowExpiry | riri.py:68-86 | once every stored instant is an hour old, the next call is accepted and leaves `now` as the only instant |
| RateWindow.PruneDropsOld | riri.py:74-78 | an instant at or before the cutoff is dropped, so pruning shortens the list |
| RateWindow.SlidingRelease | riri.py:74-86 | the window slides: a chat within the limit is accepted again once any one of its stored instants, such as the earliest, is an hour old, even if the others are not |
| RateWindow.CheckInsideWindow | riri.py:74-86 | when all stored instants are inside the window, the call is accepted iff fewer than 100 are stored, and on acceptance `now` is appended |
| RateWindow.ReplayWithinHour | riri.py:66-86 | calls inside one hour, starting from instants no older than that hour, are accepted until the chat holds 100 instants and refused from then on |
| RateWindow.BurstFromIdle | riri.py:66-86 | a chat whose stored instants are all an hour or more older than the start of a burst inside one hour gets its first 100 requests accepted and all later ones refused |
| Gate.AnyKeyword | riri.py:227 | `any(...)` is true iff some keyword of the list occurs in the text |
| Gate.ShouldRespond | riri.py:216-228 | true for every private chat; in a group, true iff the message replies to the bot, mentions `@<bot username>`, or its lower-cased text contains a keyword |
| Gate.DeadRaisersNeverMatches | riri.py:227 | the keyword "Dead Raisers" never occurs in lower-cased text |
| Gate.LiveKeywords | riri.py:227 | the ten keywords other than "Dead Raisers": each is taken from the list, none is "Dead Raisers", and every other keyword of the list is among them |
| Gate.DeadRaisersIsInert | riri.py:216-228 | the decision is the same with "Dead Raisers" removed from the keyword list |
| Gate.ChoirNameAloneIgnored | riri.py:216-231 | the group message "Dead Raisers", with no reply or mention, is ignored |
| Gate.Decide | riri.py:216-236 | Ignore iff the gate says no, and then the tracker is unchanged; otherwise the tracker is as after one limiter call; RateLimited iff the gate says yes and 100 or more instants survive pruning |
| Gate.PrivateNeverIgnored | riri.py:219-220 | a private chat's message is never ignored |
| Gate.DecideIsolatesChats | riri.py:230-236 | a decision keeps every chat within 100 instants and leaves other chats' lists unchanged |
| Prompt.Fetched | riri.py:91-96 | the query returns the newest `limit` rows of the chat, or all of them when `limit` is negative |
| Prompt.Expanded | riri.py:99-105 | expanding k rows yields exactly 2k entries |
| Prompt.ExpandedAt | riri.py:99-105 | entry 2i is the user message and entry 2i+1 is the response of the i-th oldest row |
| Prompt.ExpandedConcat | riri.py:99-105 | newer rows' entries come after older rows' entries |
| Prompt.Truncate | riri.py:129-131 | the result has at most 16 entries; a list of 16 or fewer is unchanged; a longer one keeps its first entry followed by its last 15; first and last entries are preserved |
| Prompt.Assemble | riri.py:124-131 | at most 16 entries, starting with the system prompt and ending with the new user message; without a cut it is system prompt, context, user message |
| Prompt.AssembledIsRecentTurns | riri.py:88-131 | the prompt is the system prompt, the newest seven turns at most (oldest first), then the new message |
| Prompt.AssembledAlternates | riri.py:98-131 | after the system prompt, roles alternate user, assistant, user, and so on |
| Riri.RequestFor | riri.py:124-140 | model `llama3-70b-8192`, 300 tokens, temperature 0.7; the messages are the system prompt, the newest seven turns at most (oldest first) and the new message, at most 16 entries |
| Riri.ReplyText | riri.py:142-146 | the apology when the completion call fails; otherwise the completion with its surrounding whitespace stripped, which is a slice of it with no whitespace at either end and which stripping again leaves unchanged |
| Riri.DisplayName | riri.py:214 | the username falls back to the first name when the handle is empty |
| Riri.ChoirBot.constructor | riri.py:31-32 | the request tracker starts empty |
| Riri.ChoirBot.CheckRateLimit | riri.py:66-86 | the answer and the new tracker are those of `Admit` on the old tracker; the 100-instant bound is preserved |
| Riri.ChoirBot.GetConversationContext | riri.py:88-107 | the context is the expansion of the fetched rows |
| Riri.ChoirBot.GenerateResponse | riri.py:118-146 | the request carries the assembled prompt, model `llama3-70b-8192`, 300 tokens, temperature 0.7; the reply is the stripped completion, or the apology when the call fails |
| Riri.ChoirBot.AnswerMessage | riri.py:238-249 | typing indicator, completion request, save of the turn with the reply, then the reply, in that order; stops after a failed typing indicator or a failed save |
| Riri.ChoirBot.HandleMessage | riri.py:209-249 | ignored: no action, tracker unchanged; rate-limited: only the notice; answered: typing, completion, save, reply, in that order, stopping after a failed typing indicator or save; the tracker follows `Decide` |

## Left out

- Telegram transport (`reply_text`, `send_chat_action`, the Application, its handlers and polling) is not modelled. Its effects appear only as items of the action list. Whether the message replies to the bot and the bot's username are inputs.
- A failure of the final `reply_text` is not modelled. Nothing follows it in the handler.
- The Groq client is not modelled. Any exception, including missing message content, is the `None` completion.
- A failure of the context query inside `generate_response` is not modelled separately. It also ends in the apology, but without a completion call; the model always issues the request.
- SQLite persistence is not modelled: the table, `save_conversation`, and the `stats` and `clear` commands. The chat's stored rows are passed in newest first. The order of rows with equal second-resolution timestamps is whatever the caller gives.
- `datetime.now()` is a parameter. Any sequence of instants is allowed, including a clock that goes backwards.
- `async`/`await` interleaving of two handlers for the same chat is not modelled. `check_rate_limit` contains no `await`, so each call is atomic.
- Logging, `error_handler`, environment-variable configuration, and the static `/start` and `/help` texts are not modelled.
- Text.Lower: only ASCII letters are case-folded. Python's full Unicode `str.lower` (including mappings that change length) is not modelled.
- The sleep/wake phrase gate, the complexity classifier, token budgets and the truncation retry are not modelled. None of them exists in `riri.py`.
