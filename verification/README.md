# review-replier: the review-reply session machine and its backend, in Dafny

review-replier is a Telegram bot. It fetches the latest unanswered Yandex
Market review of a seller's account, shows it with a reply that a language
model suggests, and posts either that reply or one the user writes. The bot
exists twice: once split over `app/bot/` (variant `App`) and once as the
single file `bot.py` (variant `Monolith`). A FastAPI backend (`main.py`)
talks to Yandex Market and the completion model.

The project models both sides.

**Bot side.** Each user has one session record, the aiogram `MemoryStorage`
dict of that user. Every inbound update goes through one pure transition:
`Bot.Step(variant, session, event, env)`. It returns the record written
back, the chat actions in order, and the backend calls made.
- Everything the handlers learn from outside arrives in `Env`: the
  backend's answers and the message ids Telegram assigns.
- Messages are symbolic (`Messages.Body`), and `Messages.Render` gives their
  exact characters.
- Dispatch is modelled as aiogram does it: the first registered filter that
  accepts the update wins.

**Backend side.** `main.py`'s logic works with the database rows and remote
answers passed in as data:
- the review text and product probe of `get_last_review_yandex`;
- `get_item_info_yandex`;
- the `/get_review` endpoint;
- the prompt and fallback of `generate_reply_to_review`;
- the validation of `/send_reply` and the Yandex comment call;
- `/is_authorized`.

**Properties proved.**
- Session invariants over whole runs: the mode invariant, the touched
  fields, pagination chaining, and "no reply before a fetch".
- Dispatch priority, and that the callback data builders round-trip.
- The escape function.
- How backend answers reach the user (module `Pipeline`).

Files:
- `wrappers.dfy`: `Option`.
- `text.dfy`: Python `startswith`, `split`, `int`/`str` and `strip` on
  `seq<char>`.
- `markdown.dfy`: `escape_markdown_v2`.
- `sessions.dfy`: the session record, truthiness, and the frame predicate.
- `io.dfy`: keyboards, backend requests, and the `/get_review` answer.
- `accounts.dfy`: callback data, marketplace grouping, and the keyboards.
- `messages.dfy`: message bodies and their text.
- `bot.dfy`: handlers, dispatch, and `Step`.
- `store.dfy`: the storage map and keys.
- `conversation.dfy`: runs of several updates.
- `backend.dfy`: `main.py`.
- `pipeline.dfy`: bot and backend together.

Where the code and its documentation differ, the model follows the code:
- A 200 fetch without a review id only resets the mode. The old review, id
  and cursor stay.
- Selecting an account leaves the mode as it was.
- `/start` as written clears nothing (`Bot.StartAsWritten`). `Bot.Step` uses the
  clearing the code evidently means (`Bot.Start`); see Findings.

## Model

| member | source | states |
|---|---|---|
| Text.Split | app/bot/handlers/user.py:175 | `data.split(':')`: at least one part; the first part is everything before the first colon; the second part is the text between the first and the next colon |
| Text.SplitJoin | app/bot/handlers/user.py:175 | no part of a split contains the separator, and joining the parts with it gives back the input |
| Text.ParseIntRoundTrip | app/bot/handlers/user.py:191 | `int(str(n)) == n` for every integer, negative ones included |
| Text.StripProperties | main.py:659 | `strip()` is idempotent, returns a contiguous slice of its input, and is empty exactly when the input is all whitespace |
| Markdown.EscapeMarkdownV2 | bot.py:25-30 | a backslash goes before every character of the class as written and nowhere else: the length grows by the number of matches, and unescaping gives back the input |
| Markdown.EscapeRoundTrip | bot.py:25-30 | for any class without the backslash, unescaping an escaped text gives back the text |
| Markdown.EscapeCoversClass | bot.py:25-30 | after escaping, every character of the class is preceded by a backslash |
| Markdown.EscapeMarkdownV2Intended | bot.py:25-30 | the same guarantees for the reserved characters of Telegram MarkdownV2, `[` and `]` included |
| Markdown.AsWrittenMissesBrackets | bot.py:29 | the class as written leaves "[1]" unescaped and escapes the letter "a"; the intended class escapes "[1]" to "\[1\]" and leaves "a" alone |
| Accounts.ParseCallback | app/bot/handlers/user.py:168-216 | exactly `choose_marketplace` and `help` give their actions; a callback gets the kind of the prefix it starts with and only then; an account choice or marketplace carries exactly the second colon-separated field, and an account selection carries `int()` of it, a `ValueError` otherwise; unknown data matches none of the prefixes or exact values |
| Accounts.SelectAccountDataRoundTrip | app/bot/handlers/user.py:72 | the `select_account:<id>` data of every button is parsed back to exactly that id |
| Accounts.ChooseAccountDataRoundTrip | app/bot/handlers/user.py:76 | `choose_account:<mp>` is parsed back to `<mp>` exactly when the marketplace name has no colon; it is always an account choice |
| Accounts.Dedup | app/bot/handlers/user.py:62-67 | marketplaces are grouped without repeats, each listed once, in order of first appearance |
| Accounts.AccountsOnKeepsOrder | app/bot/handlers/user.py:176 | the marketplace filter keeps the accounts' order and repeats: it distributes over concatenation and keeps a single account exactly when it is on the marketplace |
| Accounts.FindAccount | app/bot/handlers/user.py:193 | the account found has the requested id; none is found exactly when no account has it |
| Accounts.MarketplaceButtons | app/bot/handlers/user.py:69-78 | one button per distinct marketplace; one with a single account selects that account, and one with several asks to choose among them |
| Accounts.AccountButtons | app/bot/handlers/user.py:179-183 | one button per account, labelled with its name, whose data selects that account |
| Messages.QuotedTextReadsBack | app/bot/handlers/review.py:54-137 | dropping the fixed heading of a rendered review, suggested reply or confirmation gives back exactly the quoted text, so two messages of one kind look alike exactly when they quote the same text |
| Bot.FirstAccepting | app/bot/handlers/review.py:13-122 | aiogram picks the first registered handler whose filter accepts the text; none when no filter accepts |
| Bot.LabelGroupsDisjoint | app/bot/handlers/review.py:13-96 | no text belongs to two of the three label groups |
| Bot.Route | app/bot/handlers/review.py:13-122 | each label group reaches its own handler, and the catch-all gets exactly the texts that are not button labels |
| Bot.ShowReview | bot.py:391-412 | app/bot sends exactly the review, the suggested reply and the choice keyboard, unescaped as Markdown; bot.py sends the escaped review as MarkdownV2, then exactly the photo action `Photos` gives (none, one photo, or one media group), then the escaped suggested reply and the keyboard |
| Bot.FetchReview | app/bot/handlers/review.py:13-67 | no account: no call and no write; one call with the account and cursor otherwise. A 200 with a truthy id replaces exactly review, reply, id and cursor and resets the mode. A 200 without an id only resets the mode and shows the menu. Any other status changes nothing |
| Bot.ReplyChoice | app/bot/handlers/review.py:69-94 | no stored suggestion: nothing is submitted and nothing changes; otherwise it is submitted, the outcome is reported, and the mode is reset either way; writing one's own reply only sets the waiting mode |
| Bot.Confirmation | app/bot/handlers/review.py:96-120 | outside confirmation nothing changes; "Да" submits the draft, resets the mode and ends with the result and the menu, and in bot.py the first message announces the sending; "Нет" returns to waiting and keeps the draft |
| Bot.WriteCustomReply | app/bot/handlers/review.py:122-139 | while waiting, the text becomes the draft verbatim and confirmation is asked; otherwise nothing changes |
| Bot.Help | app/bot/handlers/user.py:141-160 | the previous message is replaced by the help text, whose id is the only key written |
| Bot.MarketplaceSelection | app/bot/handlers/user.py:56-82 | no accounts: one notice, no keyboard, no write; otherwise the recorded previous message is deleted, the marketplace keyboard is sent as the only other output, and only its id is written |
| Bot.ChooseAccountCallback | app/bot/handlers/user.py:172-189 | the recorded previous message is deleted, then the marketplace's accounts are sent, one button each, and only the new id is written; an empty list gets a notice; the callback is acknowledged either way |
| Bot.SelectAccountCallback | app/bot/handlers/user.py:190-214 | unknown id: an error and no change; known id: account, marketplace and a dropped cursor are written, nothing else, then the menu |
| Bot.StartMessages | app/bot/handlers/user.py:97-139 | an authorized user gets the keyboard removal, then the welcome photo with inline buttons; otherwise one login prompt |
| Bot.StartAsWritten | app/bot/handlers/user.py:93-95 | as written, only the last-message id changes, and a truthy previous id is deleted |
| Bot.FirstAcceptingData | bot.py:120-319 | the first registered callback handler whose filter accepts the data |
| Bot.CallbackPrefixesDisjoint | bot.py:120-140 | the two prefix filters never both accept, and neither accepts `choose_marketplace` or `help` |
| Bot.MonolithCallbackRoute | bot.py:120-319 | the `choose_marketplace:` handler registered after the catch-all is never reached; the prefix handlers get exactly the account choices and selections |
| Bot.CallbackFrame | app/bot/handlers/user.py:162-216 | every callback keeps the mode invariant and writes only the keys its kind may touch: the last-message id for the marketplace, help and account-choice callbacks; account, marketplace and cursor for a selection; nothing otherwise |
| Bot.HandleMessage | app/bot/handlers/review.py:13-139 | a text message keeps the mode invariant, writes only the keys of the handler it reaches, and makes at most one call: a fetch only for a fetch label with a truthy account, a submission only for a sending label with both ids truthy |
| Bot.Step | app/bot/handlers/review.py:13-139 | every update keeps the mode invariant, writes no key outside those its event may touch, makes at most one call, fetches only for a fetch label with a truthy account, and submits only for a sending label with both ids truthy, carrying those ids |
| Store.Deliver | app/bot/handlers/review.py:126-132 | the handler's record is read, stepped and written back; every other record is untouched |
| Store.HelpButtonSkipsUserRecord | app/bot/handlers/user.py:170-171 | the help button leaves the user's own record unchanged |
| Store.UsersAreIndependent | app/bot/handlers/review.py:126-132 | an update from one user never changes another user's record |
| Conversation.RunFollows | app/bot/handlers/review.py:126-132 | each update of a run is handled against the record the previous update wrote back, and records what that handler sent and called |
| Conversation.RunKeepsValid | app/bot/handlers/review.py:128-132 | every record along any run keeps "confirming implies a draft is stored" |
| Conversation.StepRecordsOrKeeps | app/bot/handlers/user.py:82-186 | every update either leaves the recorded last-message id alone or records the message it has just sent |
| Conversation.HelpDeletesRecordedMessage | app/bot/handlers/user.py:47-54 | the message one update records is the one a later `/help` deletes, when only updates that leave the id alone come between; nothing is deleted for the falsy id 0 |
| Conversation.NextTap | app/bot/handlers/review.py:27-52 | one "next" tap with an account selected asks for the stored cursor when it is truthy, and a found review stores the answer's cursor and keeps the account |
| Conversation.NextTapsKeepCursor | app/bot/handlers/review.py:46-52 | along "next" taps that each find a review, the account stays selected and the stored cursor is the last answer's |
| Conversation.PaginationChains | app/bot/handlers/review.py:27-52 | the first "next" tap sends the stored cursor; each later tap sends the previous answer's cursor, for the same account |
| Conversation.StepKeepsNoReview | app/bot/handlers/review.py:46-50 | only a fetch can make the review id truthy |
| Conversation.NoReplyBeforeFetch | app/bot/services/replies.py:16-20 | without a review id, no reply is posted until a fetch label is tapped |
| Conversation.DraftScenario | app/bot/handlers/review.py:96-139 | writing, declining, rewriting and confirming posts the second draft exactly once, for the session's ids |
| Conversation.VariantsAgreeOnSession | bot.py:338-523 | both bots write the same record and make the same calls for every update except `choose_account:` |
| Conversation.MonolithChooseAccountShowsNothing | bot.py:120-137 | bot.py's account choice shows and records nothing, where app/bot lists the accounts |
| Conversation.StartAsWrittenKeepsDraftMode | app/bot/handlers/user.py:93-95 | after `/start` as written, a draft in progress continues; after a clearing start, the text is refused |
| Conversation.StartForgetsHistory | app/bot/handlers/user.py:87-139 | with the clearing the code means, `/start` writes the same record and sends the same messages whatever came before; the new record has no mode, draft, account or anything to submit, only the new message id |
| Backend.FindUser | main.py:380 | `.first()`: the first user with the Telegram id, or none when none has it |
| Backend.FindAccountOf | main.py:429-432 | the account found has the id and belongs to the user; none exactly when no account matches both |
| Backend.CampaignsOfKeepsOrder | main.py:553 | the campaign query keeps the table's order and repeats: it distributes over concatenation and keeps a single campaign exactly when it belongs to the account |
| Backend.IsAuthorized | main.py:378-392 | true only for an existing user with a non-empty name and a company; false for an unknown id |
| Backend.AuthorizedIffNamedWithCompany | main.py:380-392 | with unique Telegram ids: authorized exactly when that user has a name and a company |
| Backend.AuthorizationIgnoresAccounts | main.py:385-390 | the marketplace accounts never change the answer |
| Backend.Probe | main.py:551-566 | campaigns are asked in order, and the product comes from the first whose lookup gives both id and name; none exactly when no campaign does |
| Backend.ProbeStopsAtFirstMatch | main.py:559-566 | campaigns after the first match never affect the product |
| Backend.NoItemsNoProduct | main.py:588-613 | when every campaign's order lookup is not a 200 or lists no items, no product is found and the review text is the bare feedback text |
| Backend.FirstItemNamesProduct | main.py:551-613 | a first campaign whose lookup is a 200 with a first item carrying a non-empty offer id and name supplies the product, with that campaign's placement |
| Backend.ReviewBody | main.py:540-547 | the review text is the author-and-rating header followed by exactly the sections whose field is non-empty, in the order Плюсы, Минусы, Комментарий (an independent filter-then-concatenate layout); with no description it is the header alone, and it ends in the comment or in a blank line |
| Backend.ProductBlock | main.py:568-573 | the product line and order number, plus the placement line exactly when the placement is truthy, and nothing else (its length is pinned) |
| Backend.Assemble | main.py:525-585 | review id and cursor come from the answer; the author (with its default), pros, cons, comment, product name, photos and seller are handed to the reply generator; the text is the feedback text, followed by exactly the product block when there is a product and by nothing otherwise |
| Backend.LastReviewYandex | main.py:482-585 | early exits are passed on; a feedback without an order id raises; a feedback with one gives exactly the intended version's result |
| Backend.LastReviewYandexIntended | main.py:482-585 | past the early exits it fails only when the date cannot be formatted, and otherwise returns the first feedback with its id, the page cursor and its text opening the result; without an order there is no product name, with one it comes from the probe |
| Backend.UserPrompt | main.py:626-632 | the prompt is its header line, with the defaults for a missing author, product or seller, followed by exactly the lines whose field is non-empty, in the order Плюсы, Минусы, Комментарий (the same independent layout) |
| Backend.CompletionMessages | main.py:634-650 | the fixed system message, then a user message that is exactly the prompt, a newline and the instruction |
| Backend.GenerateReply | main.py:617-663 | the model is shown the two prompt messages; the reply is the stripped content it returns, or the fixed fallback when the call raises or returns no content; either way the reply has no surrounding whitespace |
| Backend.ReplyFollowsPrompt | main.py:634-663 | the reply depends on the review only through the prompt the model is shown |
| Backend.GetReviewAnswer | main.py:423-463 | an unknown user, a foreign account or another marketplace is a 400; for the user's own Yandex account a four-part result is answered with a 200 carrying it and its generated reply, and anything else is a 500 |
| Backend.GetReviewAnswerIntended | main.py:423-463 | the same 400s; an empty feedback list becomes a 200 without id, cursor or reply; a missing business id, a failed Yandex call or a crash stay 500s; a four-part result is answered as in the code |
| Backend.SendReply | main.py:666-696 | an incomplete body is a 400 before any lookup; a comment is posted only for the user's own Yandex account; 200 exactly when the comment call succeeded |
| Backend.ValidationPrecedesLookup | main.py:674-675 | an incomplete body gets the same answer whatever the database holds |
| Pipeline.EarlyExitSeenByUser | main.py:436-442 | as written, every early exit reaches the user as a fetch failure with no change to the session |
| Pipeline.IntendedEarlyExitSeenByUser | main.py:515-523 | with the exits handled, no feedback left shows "Больше нет отзывов." and the menu with only the mode reset; a missing business id or a failed Yandex call is still a fetch failure with no change |
| Pipeline.OrderlessFeedbackCrashes | main.py:551-583 | a feedback without an order id crashes as written, and is a review without a product once `offer_name` is bound |
| Pipeline.PostedRepliesPassValidation | main.py:674 | the bot's guard makes every posted id truthy, so the backend rejects a posted reply only when its text is empty |
| Pipeline.PostingReportsOutcome | app/bot/handlers/review.py:80-110 | when an update posts a reply, the user is told it was sent exactly when the backend answered 200 |
| Pipeline.PostedReplyBecomesComment | main.py:666-730 | a non-empty reply the bot posts for a Yandex Market account with a business id becomes exactly one comment, on that business, for the session's review, with the posted text; the user is told it was sent exactly when Yandex answers 200 |

## Left out

- Network, Telegram and database I/O are not executed. Their results are parameters:
  - the fields of `Bot.Env`;
  - `Backend.Db`;
  - `Backend.Remote`.
- Failures of the HTTP calls themselves (timeouts, refused connections) are not modelled. A handler that raises is modelled as sending nothing further.
- The completion model is a parameter: a function from the messages it is shown to a `Completion`. Its model name, token limit and temperature are not modelled.
- `format_yandex_date` is a parameter, `None` when it raises. Parsing ISO 8601 is out of scope.
- The `uuid` tokens, `/generate_token`, `/user_info` and `/get_user_marketplace_accounts` are not modelled. The bot sees their answers as `Env` fields.
- FastAPI wiring, the HTML forms (main.py:107-356), SQLAlchemy setup and the alembic migrations have no behaviour to model.
- `app/bot/bot.py`, `app/bot/services/ui.py` and `app/bot/services/marketplace.py` are wiring and are not part of this model.
- `send_main_menu` is the single `Bot.MainMenu` message.
- Command parsing (`/start@bot`, arguments) is reduced to the two command events.
- Chats are private: chat id equals user id.
- `process_marketplace_selection` (bot.py:299-315) raises `NameError` at its first line. It is modelled as doing nothing.
- `process_choose_marketplace` (bot.py:318-336) is unreachable and is not modelled beyond `Bot.MonolithCallbackRoute`.
- `send_reply_to_marketplace` (bot.py:526-541) is never called.
- Concurrent updates to one record are not modelled. The code has no per-key serialization, and interleavings are not a sequential property.
- Accounts.ParseCallback: the model's `int()` accepts an optional leading `+` or `-` followed by ASCII digits. Python's `int()` also accepts surrounding whitespace, underscores between digits and non-ASCII Unicode decimal digits; the model treats those as a `ValueError`.
- Backend.GetReviewAnswer: main.py:437 and main.py:442 both call `get_last_review_yandex`. With the remote answers as data, both calls return the same result, so they are modelled as one.
- Backend.GetReviewAnswer: the `page_token` query parameter is not an argument. The goods-feedback request forwards it when it is truthy (main.py:506-507), and `Remote.page` stands for Yandex's answer to that request, whatever cursor was forwarded. Which page a cursor selects is Yandex's behaviour and is not modelled.
- Backend.GetReviewAnswer: an error answer keeps only its status. The JSON `detail` text is dropped, because the bot reads only the status.
- Backend.Feedback: a JSON `null` in a field the code reads with a default is modelled as a missing key.
- Bot.Step: `/start` empties the record (`Bot.Start`), the corrected half of the app/bot/handlers/user.py:93-95 finding. The code as written only replaces the last-message id (`Bot.StartAsWritten`), so runs through `Bot.Step` do not show a draft surviving `/start`; `Conversation.StartAsWrittenKeepsDraftMode` shows that difference.
- Conversation.HelpDeletesRecordedMessage: only `/help` is stated as the deleting update. The marketplace keyboard, the account list and an account selection delete the recorded message through the same `Bot.DeletePrevious`.
- Backend.IsAuthorized: its ensures states one direction for any database. The full iff is `Backend.AuthorizedIffNamedWithCompany`, which assumes the unique `telegram_id` column.

## Findings

| source | as written | input that shows it | evidently intended | confidence | as-written member | corrected member |
|---|---|---|---|---|---|---|
| bot.py:29 | the regex class contains the text `$begin:math:display$$end:math:display$` where `\[\]` belongs, so brackets are not escaped and letters of that text are | a review containing "[1]" is sent unescaped as MarkdownV2, which Telegram rejects; "a" becomes "\a" | escape exactly the MarkdownV2 reserved characters | high (not executed) | Markdown.AsWrittenMissesBrackets | Markdown.EscapeMarkdownV2Intended |
| main.py:437 | the three early exits of `get_last_review_yandex` return three values, and the caller unpacks four | an empty feedback list gives a 500, and the bot says the fetch failed instead of that there are no more reviews | pass the "no feedback" exit on with no id, so the bot says there are no more reviews; the business-id and Yandex-failure exits stay errors | high (not executed) | Pipeline.EarlyExitSeenByUser | Backend.GetReviewAnswerIntended |
| main.py:575-583 | `offer_name` is assigned only inside `if order_id:`, but `short_data` reads it unconditionally | a feedback without `identifiers.orderId` raises `UnboundLocalError`, so `/get_review` answers 500 | no product name for an orderless feedback | high (not executed) | Pipeline.OrderlessFeedbackCrashes | Backend.LastReviewYandexIntended |
| bot.py:130 | `delete_previous_bot_message` is called with one argument where it takes two | any `choose_account:<mp>` callback in bot.py raises `TypeError` before the list is shown | replace the previous message with the account list, as app/bot does | high (not executed) | Conversation.MonolithChooseAccountShowsNothing | Bot.ChooseAccountCallback |
| app/bot/handlers/user.py:93-95 | `clear()` empties the copy `get_data` returns, and `update_data` merges it into the stored dict, which removes nothing | a user waiting for a custom reply sends `/start` and then "hello": "hello" is taken as a draft | `/start` empties the record | medium (not executed; depends on aiogram 2 `MemoryStorage` semantics) | Conversation.StartAsWrittenKeepsDraftMode | Bot.Start |
