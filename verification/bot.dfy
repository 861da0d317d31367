/**
 * The conversation controller of the Telegram bot, as one pure transition
 * function `Step(variant, session, event, env)`.
 *
 * The same machine is written twice: once split over app/bot/handlers/
 * (`App`) and once in the single file bot.py (`Monolith`). The two differ in
 * wording, in MarkdownV2 escaping and review photos, in which callbacks are
 * acknowledged, and in the `choose_account:` handler of bot.py, which fails
 * before it shows anything.
 *
 * Everything the handlers learn from elsewhere (the backend's answers, the
 * ids Telegram gives to sent messages) arrives in `Env`. The chat is the
 * user's private chat with the bot, so chat id and user id coincide.
 */
module Bot {
  import opened Wrappers
  import opened Text
  import opened Markdown
  import opened Sessions
  import opened Io
  import opened Accounts
  import opened Messages

  // ------------------------------------------------------------ reply-keyboard labels

  const FetchLabel: string := "Получить отзыв"
  const NextLabel: string := "Перейти к следующему"
  const SendSuggestedLabel: string := "Отправить предложенный ответ"
  const WriteOwnLabel: string := "Написать свой ответ"
  const YesLabel: string := "Да, отправить"
  const NoLabel: string := "Нет, изменить"

  const FetchLabels: seq<string> := [FetchLabel, NextLabel]
  const ChoiceLabels: seq<string> := [SendSuggestedLabel, WriteOwnLabel]
  const ConfirmLabels: seq<string> := [YesLabel, NoLabel]

  const WelcomePhoto: string := "welcome_image.jpg"

  /** Every text that some specific message handler claims. */
  predicate IsButtonLabel(text: string) {
    text in FetchLabels || text in ChoiceLabels || text in ConfirmLabels
  }

  // ------------------------------------------------------------ events and environment

  /** An inbound update: a command, a text message (button taps included) or an inline-button callback. */
  datatype Event =
    | StartCommand
    | HelpCommand
    | Message(text: string)
    | Callback(data: string)

  /**
   * What the handlers of one event learn from the outside world: the
   * backend's answers to `/is_authorized`, `/user_info`, `/generate_token`,
   * `/get_user_marketplace_accounts`, `/get_review` and `/send_reply`, and the
   * ids Telegram assigns to the loading message and to the recorded message.
   */
  datatype Env = Env(
    authorized: bool,
    userName: string,
    storedToken: string,
    generatedToken: string,
    externalBackendUrl: string,
    accounts: seq<AccountInfo>,
    fetched: ReviewResponse,
    submitStatus: int,
    loadingMessageId: int,
    sentMessageId: int)

  /**
   * The session written back, the chat actions in the order the handler
   * performs them, and the backend calls whose parameters come from the
   * session.
   */
  datatype StepResult = StepResult(session: SessionData, outputs: seq<Output>, requests: seq<Request>)

  // ------------------------------------------------------------ message dispatch

  /** The four message handlers of review.py (and their bot.py twins). */
  datatype MessageHandler =
    | HandleReviewActions | HandleReplyChoice | ProcessConfirmation | ProcessCustomReply

  datatype TextFilter = TextIn(labels: seq<string>) | AnyText

  predicate Accepts(f: TextFilter, text: string) {
    match f
    case TextIn(labels) => text in labels
    case AnyText => true
  }

  /** The text handlers in registration order; aiogram runs the first whose filter accepts. */
  const MessageRegistry: seq<(TextFilter, MessageHandler)> := [
    (TextIn(FetchLabels), HandleReviewActions),
    (TextIn(ChoiceLabels), HandleReplyChoice),
    (TextIn(ConfirmLabels), ProcessConfirmation),
    (AnyText, ProcessCustomReply)
  ]

  /** The handler of the first registered filter that accepts `text`. */
  function FirstAccepting(registry: seq<(TextFilter, MessageHandler)>, text: string): (h: Option<MessageHandler>)
    ensures h.None? <==> forall i :: 0 <= i < |registry| ==> !Accepts(registry[i].0, text)
    ensures h.Some? ==> exists i :: 0 <= i < |registry| && registry[i].1 == h.value && Accepts(registry[i].0, text)
                                    && forall j :: 0 <= j < i ==> !Accepts(registry[j].0, text)
  {
    if registry == [] then None
    else if Accepts(registry[0].0, text) then Some(registry[0].1)
    else
      var h := FirstAccepting(registry[1..], text);
      assert forall i :: 1 <= i < |registry| ==> registry[i] == registry[1..][i - 1];
      if h.Some? then
        ghost var i :| 0 <= i < |registry[1..]| && registry[1..][i].1 == h.value && Accepts(registry[1..][i].0, text)
                       && forall j :: 0 <= j < i ==> !Accepts(registry[1..][j].0, text);
        assert registry[i + 1] == registry[1..][i];
        h
      else h
  }

  /** No text is claimed by two label groups. */
  lemma LabelGroupsDisjoint(text: string)
    ensures !(text in FetchLabels && text in ChoiceLabels)
    ensures !(text in FetchLabels && text in ConfirmLabels)
    ensures !(text in ChoiceLabels && text in ConfirmLabels)
  {
    assert FetchLabel[0] != SendSuggestedLabel[0] && FetchLabel[0] != WriteOwnLabel[0];
    assert NextLabel[0] != SendSuggestedLabel[0] && NextLabel[0] != WriteOwnLabel[0];
    assert FetchLabel[0] != YesLabel[0] && FetchLabel[0] != NoLabel[0];
    assert NextLabel[0] != YesLabel[0] && NextLabel[0] != NoLabel[0];
    assert SendSuggestedLabel[0] != YesLabel[0] && SendSuggestedLabel[0] != NoLabel[0];
    assert WriteOwnLabel[0] != YesLabel[0] && |WriteOwnLabel| != |NoLabel|;
  }

  /**
   * The handler a text message reaches. A specific label always wins over
   * the catch-all, and the catch-all sees exactly the texts no label claims.
   */
  function Route(text: string): (h: MessageHandler)
    ensures h == HandleReviewActions <==> text in FetchLabels
    ensures h == HandleReplyChoice <==> text in ChoiceLabels
    ensures h == ProcessConfirmation <==> text in ConfirmLabels
    ensures h == ProcessCustomReply <==> !IsButtonLabel(text)
  {
    var reg := MessageRegistry;
    LabelGroupsDisjoint(text);
    assert Accepts(reg[3].0, text);
    var found := FirstAccepting(reg, text);
    ghost var i :| 0 <= i < |reg| && reg[i].1 == found.value && Accepts(reg[i].0, text)
                   && forall j :: 0 <= j < i ==> !Accepts(reg[j].0, text);
    assert i >= 1 ==> !Accepts(reg[0].0, text);
    assert i >= 2 ==> !Accepts(reg[1].0, text);
    assert i >= 3 ==> !Accepts(reg[2].0, text);
    found.value
  }

  // ------------------------------------------------------------ helpers shared by handlers

  /** `send_main_menu`: one reply button, "Получить отзыв". */
  const MainMenu: Output := Send(Fixed(MainMenuPrompt), NoParseMode, ReplyKeyboard([[FetchLabel]]))

  const ReviewKeyboard: Keyboard :=
    ReplyKeyboard([[SendSuggestedLabel, WriteOwnLabel], [NextLabel]])

  const ConfirmKeyboard: Keyboard := ReplyKeyboard([[YesLabel, NoLabel]])

  /**
   * `delete_previous_bot_message`: a deletion is attempted only for a truthy
   * recorded id; a failed deletion is swallowed, and the session is only read.
   */
  function DeletePrevious(s: SessionData): (outs: seq<Output>)
    ensures |outs| <= 1
    ensures outs != [] <==> Truthy(s.lastBotMessageId)
    ensures outs != [] ==> outs[0] == DeleteMessage(s.lastBotMessageId.value)
  {
    if Truthy(s.lastBotMessageId) then [DeleteMessage(s.lastBotMessageId.value)] else []
  }

  /** Records the message just sent as the one to delete next time. */
  function Remember(s: SessionData, env: Env): (t: SessionData)
    ensures SameExcept(s, t, {LastBotMessageId})
    ensures t.lastBotMessageId == Some(env.sentMessageId)
  {
    s.(lastBotMessageId := Some(env.sentMessageId))
  }

  /** The outcome of `send_user_reply`: the backend call it made (if any) and its verdict. */
  datatype Submission = Submission(requests: seq<Request>, success: bool)

  /**
   * `send_user_reply`: without a truthy account and review id it reports
   * failure and calls nothing; otherwise it posts exactly the session's ids
   * with the given reply and succeeds iff the backend answers 200.
   */
  function SendUserReply(s: SessionData, reply: Option<string>, env: Env): (sub: Submission)
    ensures !CanSubmit(s) ==> sub.requests == []
    ensures CanSubmit(s) ==>
      sub.requests == [PostReply(s.selectedAccountId.value, s.reviewId.value, reply)]
    ensures sub.success <==> CanSubmit(s) && env.submitStatus == 200
  {
    if !CanSubmit(s) then Submission([], false)
    else Submission([PostReply(s.selectedAccountId.value, s.reviewId.value, reply)],
                    env.submitStatus == 200)
  }

  function ResultText(success: bool): Phrase {
    if success then ReplySent else ReplyFailed
  }

  /** The cursor a fetch sends: the stored one for "next" when truthy, none otherwise. */
  function Cursor(s: SessionData, text: string): (c: Option<string>)
    ensures c.Some? ==> text == NextLabel && c == s.nextPageToken && c.value != ""
    ensures text == NextLabel && TruthyText(s.nextPageToken) ==> c == s.nextPageToken
  {
    if text == NextLabel && TruthyText(s.nextPageToken) then s.nextPageToken else None
  }

  /** The photos block of bot.py: none, one photo, or one media group. */
  function Photos(photos: seq<string>): (outs: seq<Output>)
    ensures |outs| <= 1
    ensures |photos| == 1 ==> outs == [ReviewPhoto(photos[0])]
    ensures |photos| > 1 ==> outs == [SendMediaGroup(photos)]
    ensures photos == [] ==> outs == []
  {
    if photos == [] then []
    else if |photos| == 1 then [ReviewPhoto(photos[0])]
    else [SendMediaGroup(photos)]
  }

  /**
   * The messages that present a fetched review: the review, bot.py's photos,
   * the suggested reply and the reply-choice keyboard. bot.py escapes both
   * texts and sends them as MarkdownV2; app/bot sends them unescaped as
   * Markdown.
   */
  function ShowReview(v: Variant, resp: ReviewResponse): (outs: seq<Output>)
    ensures |outs| >= 3 && outs[|outs| - 1] == Send(Fixed(ChooseAction), NoParseMode, ReviewKeyboard)
    ensures v == App ==> |outs| == 3 && outs[0] == Send(ReviewText(resp.review), MarkdownMode, NoKeyboard)
    ensures v == App ==> outs[1] == Send(SuggestedReplyText(resp.reply), MarkdownMode, NoKeyboard)
    ensures v == Monolith ==>
      && outs[0] == Send(ReviewText(EscapeMarkdownV2(resp.review)), MarkdownV2Mode, NoKeyboard)
      && |outs| == 3 + (if resp.photos == [] then 0 else 1)
      && outs[|outs| - 2] == Send(SuggestedReplyText(EscapeMarkdownV2(resp.reply)), MarkdownV2Mode, NoKeyboard)
      && outs[1..|outs| - 2] == Photos(resp.photos)
  {
    match v
    case App =>
      [Send(ReviewText(resp.review), MarkdownMode, NoKeyboard),
       Send(SuggestedReplyText(resp.reply), MarkdownMode, NoKeyboard),
       Send(Fixed(ChooseAction), NoParseMode, ReviewKeyboard)]
    case Monolith =>
      [Send(ReviewText(EscapeMarkdownV2(resp.review)), MarkdownV2Mode, NoKeyboard)]
      + Photos(resp.photos)
      + [Send(SuggestedReplyText(EscapeMarkdownV2(resp.reply)), MarkdownV2Mode, NoKeyboard),
         Send(Fixed(ChooseAction), NoParseMode, ReviewKeyboard)]
  }

  // ------------------------------------------------------------ review.py handlers

  /**
   * `handle_review_actions` ("Получить отзыв" / "Перейти к следующему").
   * Without a truthy account nothing is fetched and nothing is stored. With
   * one, exactly one `/get_review` call carries the account and the cursor;
   * a 200 answer with a truthy id replaces exactly the review fields and the
   * cursor and resets the mode, a 200 answer without one only resets the
   * mode, and any other status leaves the session as it was.
   */
  function FetchReview(v: Variant, s: SessionData, text: string, env: Env): (r: StepResult)
    ensures |r.outputs| >= 3 && r.outputs[0] == Say(Loading)
    ensures r.outputs[1] == DeleteMessage(env.loadingMessageId)
    ensures !Truthy(s.selectedAccountId) ==>
      r.session == s && r.requests == [] && r.outputs[2] == Say(SelectAccountFirst)
    ensures Truthy(s.selectedAccountId) ==>
      r.requests == [GetReview(s.selectedAccountId.value, Cursor(s, text))]
    ensures Truthy(s.selectedAccountId) && env.fetched.status != 200 ==>
      r.session == s && r.outputs[2] == Say(FetchFailed)
    ensures Truthy(s.selectedAccountId) && env.fetched.status == 200 && Truthy(env.fetched.reviewId) ==>
      && SameExcept(s, r.session, {Review, SuggestedReply, ReviewId, NextPageToken, CurrentMode})
      && r.session.review == Some(env.fetched.review)
      && r.session.suggestedReply == Some(env.fetched.reply)
      && r.session.reviewId == env.fetched.reviewId
      && r.session.nextPageToken == env.fetched.nextPageToken
      && r.session.mode == Idle
      && r.outputs[|r.outputs| - 1] == Send(Fixed(ChooseAction), NoParseMode, ReviewKeyboard)
    ensures Truthy(s.selectedAccountId) && env.fetched.status == 200 && !Truthy(env.fetched.reviewId) ==>
      && SameExcept(s, r.session, {CurrentMode}) && r.session.mode == Idle
      && r.outputs[2..] == [Say(NoMoreReviews), MainMenu]
  {
    var pre := [Say(Loading), DeleteMessage(env.loadingMessageId)];
    if !Truthy(s.selectedAccountId) then
      StepResult(s, pre + [Say(SelectAccountFirst)], [])
    else
      var request := GetReview(s.selectedAccountId.value, Cursor(s, text));
      var resp := env.fetched;
      if resp.status != 200 then
        StepResult(s, pre + [Say(FetchFailed)], [request])
      else if Truthy(resp.reviewId) then
        StepResult(
          s.(review := Some(resp.review), suggestedReply := Some(resp.reply),
             reviewId := resp.reviewId, nextPageToken := resp.nextPageToken, mode := Idle),
          pre + ShowReview(v, resp), [request])
      else
        StepResult(s.(mode := Idle), pre + [Say(NoMoreReviews), MainMenu], [request])
  }

  /**
   * `handle_reply_choice`. "Отправить предложенный ответ" without a stored
   * suggestion changes nothing and submits nothing; with one it submits that
   * suggestion through `send_user_reply`, reports the outcome, resets the mode
   * whatever the outcome and shows the main menu. "Написать свой ответ" only
   * switches to waiting for a custom reply.
   */
  function ReplyChoice(s: SessionData, text: string, env: Env): (r: StepResult)
    requires text in ChoiceLabels
    ensures text == SendSuggestedLabel && s.suggestedReply.None? ==>
      r == StepResult(s, [Say(NoSuggestion)], [])
    ensures text == SendSuggestedLabel && s.suggestedReply.Some? ==>
      && SameExcept(s, r.session, {CurrentMode}) && r.session.mode == Idle
      && r.requests == SendUserReply(s, s.suggestedReply, env).requests
      && r.outputs == [Say(ResultText(CanSubmit(s) && env.submitStatus == 200)), MainMenu]
    ensures text == WriteOwnLabel ==>
      && SameExcept(s, r.session, {CurrentMode}) && r.session.mode == WaitingForCustomReply
      && r.outputs == [Say(AskCustom)] && r.requests == []
  {
    if text == SendSuggestedLabel then
      if s.suggestedReply.None? then StepResult(s, [Say(NoSuggestion)], [])
      else
        var sub := SendUserReply(s, s.suggestedReply, env);
        StepResult(s.(mode := Idle), [Say(ResultText(sub.success)), MainMenu], sub.requests)
    else
      StepResult(s.(mode := WaitingForCustomReply), [Say(AskCustom)], [])
  }

  /**
   * `process_confirmation`. Outside `confirming_reply` nothing changes and
   * nothing is submitted. "Да, отправить" submits the stored custom reply,
   * resets the mode and shows the main menu (bot.py first announces the
   * sending); "Нет, изменить" goes back to waiting and keeps the draft.
   */
  function Confirmation(v: Variant, s: SessionData, text: string, env: Env): (r: StepResult)
    requires text in ConfirmLabels
    ensures s.mode != ConfirmingReply ==>
      r == StepResult(s, [Say(NotConfirming)], [])
    ensures s.mode == ConfirmingReply && text == YesLabel ==>
      && SameExcept(s, r.session, {CurrentMode}) && r.session.mode == Idle
      && r.requests == SendUserReply(s, s.customReply, env).requests
      && |r.outputs| >= 2
      && r.outputs[|r.outputs| - 2..] == [Say(ResultText(CanSubmit(s) && env.submitStatus == 200)), MainMenu]
      && (v == Monolith <==> |r.outputs| == 3)
      && (v == Monolith ==> r.outputs[0] == Say(Sending))
    ensures s.mode == ConfirmingReply && text == NoLabel ==>
      && SameExcept(s, r.session, {CurrentMode}) && r.session.mode == WaitingForCustomReply
      && r.outputs == [Say(AskCustom)] && r.requests == []
  {
    if s.mode != ConfirmingReply then StepResult(s, [Say(NotConfirming)], [])
    else if text == YesLabel then
      var sub := SendUserReply(s, s.customReply, env);
      var tail := [Say(ResultText(sub.success)), MainMenu];
      StepResult(s.(mode := Idle), (if v == Monolith then [Say(Sending)] else []) + tail, sub.requests)
    else
      StepResult(s.(mode := WaitingForCustomReply), [Say(AskCustom)], [])
  }

  /**
   * `process_custom_reply`, the catch-all. While waiting for a custom reply
   * it stores the text verbatim as the draft and asks for confirmation,
   * quoting the draft; in any other mode it changes nothing.
   */
  function WriteCustomReply(s: SessionData, text: string): (r: StepResult)
    ensures r.requests == []
    ensures s.mode == WaitingForCustomReply ==>
      && SameExcept(s, r.session, {CustomReply, CurrentMode})
      && r.session.customReply == Some(text) && r.session.mode == ConfirmingReply
      && r.outputs == [Send(ConfirmDraft(text), NoParseMode, ConfirmKeyboard)]
    ensures s.mode != WaitingForCustomReply ==>
      r.session == s && r.outputs == [Say(NotWaiting)]
  {
    if s.mode == WaitingForCustomReply then
      StepResult(s.(customReply := Some(text), mode := ConfirmingReply),
                 [Send(ConfirmDraft(text), NoParseMode, ConfirmKeyboard)], [])
    else
      StepResult(s, [Say(NotWaiting)], [])
  }

  // ------------------------------------------------------------ user.py handlers

  /**
   * `cmd_help`: replaces the previous bot message by the help text and
   * records the new message; nothing else in the session changes.
   */
  function Help(v: Variant, s: SessionData, env: Env): (r: StepResult)
    ensures SameExcept(s, r.session, {LastBotMessageId})
    ensures r.session.lastBotMessageId == Some(env.sentMessageId)
    ensures |r.outputs| == |DeletePrevious(s)| + 1
    ensures r.outputs[..|r.outputs| - 1] == DeletePrevious(s)
    ensures r.outputs[|r.outputs| - 1] == Send(HelpPage(v), MarkdownMode, NoKeyboard)
    ensures r.requests == []
  {
    StepResult(Remember(s, env), DeletePrevious(s) + [Send(HelpPage(v), MarkdownMode, NoKeyboard)], [])
  }

  /**
   * `send_marketplace_selection`. No accounts: one message, no keyboard, no
   * session write. Otherwise the previous message is replaced by the
   * marketplace keyboard and recorded; nothing else in the session changes.
   */
  function MarketplaceSelection(s: SessionData, env: Env): (r: StepResult)
    ensures r.requests == []
    ensures env.accounts == [] ==> r.session == s && r.outputs == [Say(NoAccounts)]
    ensures env.accounts != [] ==>
      && SameExcept(s, r.session, {LastBotMessageId})
      && r.session.lastBotMessageId == Some(env.sentMessageId)
      && |r.outputs| == |DeletePrevious(s)| + 1
      && r.outputs[..|r.outputs| - 1] == DeletePrevious(s)
      && r.outputs[|r.outputs| - 1] ==
         Send(Fixed(ChooseMarketplacePrompt), NoParseMode, InlineKeyboard(MarketplaceButtons(env.accounts)))
  {
    if env.accounts == [] then StepResult(s, [Say(NoAccounts)], [])
    else
      StepResult(Remember(s, env), DeletePrevious(s)
        + [Send(Fixed(ChooseMarketplacePrompt), NoParseMode, InlineKeyboard(MarketplaceButtons(env.accounts)))], [])
  }

  /**
   * The `choose_account:` branch of app/bot/handlers/user.py: the accounts of
   * that marketplace, each as a button selecting it, replace the previous
   * message; a marketplace without accounts only gets a notice. The callback
   * is acknowledged either way.
   */
  function ChooseAccountCallback(s: SessionData, marketplace: string, env: Env): (r: StepResult)
    ensures r.requests == [] && |r.outputs| >= 2 && r.outputs[|r.outputs| - 1] == AnswerCallback
    ensures AccountsOn(env.accounts, marketplace) == [] ==>
      r.session == s && r.outputs == [Say(NoAccountsOnMarketplace), AnswerCallback]
    ensures AccountsOn(env.accounts, marketplace) != [] ==>
      && SameExcept(s, r.session, {LastBotMessageId})
      && r.session.lastBotMessageId == Some(env.sentMessageId)
      && |r.outputs| == |DeletePrevious(s)| + 2
      && r.outputs[..|r.outputs| - 2] == DeletePrevious(s)
      && r.outputs[|r.outputs| - 2] ==
         Send(Fixed(ChooseAccountPrompt), NoParseMode, InlineKeyboard(AccountButtons(AccountsOn(env.accounts, marketplace))))
  {
    var accs := AccountsOn(env.accounts, marketplace);
    if accs == [] then StepResult(s, [Say(NoAccountsOnMarketplace), AnswerCallback], [])
    else
      StepResult(Remember(s, env), DeletePrevious(s)
        + [Send(Fixed(ChooseAccountPrompt), NoParseMode, InlineKeyboard(AccountButtons(accs))), AnswerCallback], [])
  }

  /**
   * The `select_account:` handlers (user.py and bot.py alike). An id missing
   * from the user's accounts gets an error and changes nothing (the callback
   * is not acknowledged). A known id becomes the selected account, its
   * marketplace is stored, the cursor is dropped, and nothing else changes.
   */
  function SelectAccountCallback(s: SessionData, id: int, env: Env): (r: StepResult)
    ensures r.requests == []
    ensures FindAccount(env.accounts, id).None? ==>
      r.session == s && r.outputs == [Say(AccountInfoFailed)]
    ensures FindAccount(env.accounts, id).Some? ==>
      && SameExcept(s, r.session, {SelectedAccountId, Marketplace, NextPageToken})
      && r.session.selectedAccountId == Some(id)
      && r.session.marketplace == Some(FindAccount(env.accounts, id).value.marketplace)
      && r.session.nextPageToken == None
      && |r.outputs| >= 2 && r.outputs[|r.outputs| - 2..] == [MainMenu, AnswerCallback]
  {
    match FindAccount(env.accounts, id)
    case None => StepResult(s, [Say(AccountInfoFailed)], [])
    case Some(account) =>
      StepResult(
        s.(selectedAccountId := Some(id), marketplace := Some(account.marketplace), nextPageToken := None),
        DeletePrevious(s) + [Send(AccountChosen(account.accountName, account.marketplace), MarkdownMode, NoKeyboard), MainMenu, AnswerCallback], [])
  }

  /** The welcome photo with its keyboard (authorized) or the login prompt. */
  function StartMessages(v: Variant, env: Env): (outs: seq<Output>)
    ensures env.authorized ==> |outs| == 2 && outs[0] == Send(Fixed(PickMarketplace), NoParseMode, RemoveKeyboard)
    ensures env.authorized ==> outs[1].SendPhoto? && outs[1].keyboard.InlineKeyboard?
    ensures !env.authorized ==> |outs| == 1 && outs[0].Send? && outs[0].body == Fixed(PleaseAuthorize)
  {
    if env.authorized then
      var token := if env.storedToken != "" then env.storedToken else env.generatedToken;
      [Send(Fixed(PickMarketplace), NoParseMode, RemoveKeyboard),
       SendPhoto(WelcomePhoto, Welcome(v, if v == Monolith then EscapeMarkdownV2(env.userName) else env.userName), MarkdownMode, InlineKeyboard([
         CallbackButton("Выбрать маркетплейс", ChooseMarketplaceData),
         UrlButton("Управление кабинетами", env.externalBackendUrl + "/add_marketplace?token=" + token),
         CallbackButton("Помощь", HelpData)]))]
    else
      [Send(Fixed(PleaseAuthorize), NoParseMode, InlineKeyboard([
         UrlButton("Авторизоваться", env.externalBackendUrl + "/auth?token=" + env.generatedToken),
         CallbackButton("Помощь", HelpData)]))]
  }

  /**
   * `cmd_start` as the code evidently means it: the session is emptied, so
   * no selection, review, draft or mode survives, and the only key written
   * afterwards is the id of the welcome (or login) message. Nothing is left
   * to delete once the record is empty. app/bot sends a probe message first.
   */
  function Start(v: Variant, s: SessionData, env: Env): (r: StepResult)
    ensures r.session == Empty.(lastBotMessageId := Some(env.sentMessageId))
    ensures r.requests == []
    ensures v == App ==> r.outputs == [Say(StartProbe)] + StartMessages(v, env)
    ensures v == Monolith ==> r.outputs == StartMessages(v, env)
  {
    var cleared := Empty;
    var pre := if v == App then [Say(StartProbe)] else [];
    StepResult(Remember(cleared, env), pre + DeletePrevious(cleared) + StartMessages(v, env), [])
  }

  /**
   * `cmd_start` as written: `user_data.clear()` empties a copy, and the
   * storage merges the empty dict into the stored record, so nothing is
   * removed; the previous message is deleted and only its id is replaced.
   */
  function StartAsWritten(v: Variant, s: SessionData, env: Env): (r: StepResult)
    ensures SameExcept(s, r.session, {LastBotMessageId})
    ensures r.session.lastBotMessageId == Some(env.sentMessageId)
    ensures r.requests == []
    ensures Truthy(s.lastBotMessageId) ==> DeleteMessage(s.lastBotMessageId.value) in r.outputs
  {
    var pre := (if v == App then [Say(StartProbe)] else []) + DeletePrevious(s);
    assert Truthy(s.lastBotMessageId) ==> pre[|pre| - 1] == DeleteMessage(s.lastBotMessageId.value);
    StepResult(Remember(s, env), pre + StartMessages(v, env), [])
  }

  // ------------------------------------------------------------ callback dispatch

  /** The callback handlers of bot.py in registration order. */
  datatype CallbackHandler =
    | ProcessChooseAccount | ProcessSelectAccount | ProcessCallback | ProcessChooseMarketplace

  datatype DataFilter = DataStartsWith(prefix: string) | AnyData

  predicate AcceptsData(f: DataFilter, data: string) {
    match f
    case DataStartsWith(prefix) => StartsWith(data, prefix)
    case AnyData => true
  }

  const MonolithCallbackRegistry: seq<(DataFilter, CallbackHandler)> := [
    (DataStartsWith(ChooseAccountPrefix), ProcessChooseAccount),
    (DataStartsWith(SelectAccountPrefix), ProcessSelectAccount),
    (AnyData, ProcessCallback),
    (DataStartsWith("choose_marketplace:"), ProcessChooseMarketplace)
  ]

  /** The handler of the first registered filter that accepts `data`. */
  function FirstAcceptingData(registry: seq<(DataFilter, CallbackHandler)>, data: string): (h: Option<CallbackHandler>)
    ensures h.None? <==> forall i :: 0 <= i < |registry| ==> !AcceptsData(registry[i].0, data)
    ensures h.Some? ==> exists i :: 0 <= i < |registry| && registry[i].1 == h.value && AcceptsData(registry[i].0, data)
                                    && forall j :: 0 <= j < i ==> !AcceptsData(registry[j].0, data)
  {
    if registry == [] then None
    else if AcceptsData(registry[0].0, data) then Some(registry[0].1)
    else
      var h := FirstAcceptingData(registry[1..], data);
      assert forall i :: 1 <= i < |registry| ==> registry[i] == registry[1..][i - 1];
      if h.Some? then
        ghost var i :| 0 <= i < |registry[1..]| && registry[1..][i].1 == h.value && AcceptsData(registry[1..][i].0, data)
                       && forall j :: 0 <= j < i ==> !AcceptsData(registry[1..][j].0, data);
        assert registry[i + 1] == registry[1..][i];
        h
      else h
  }

  /** The two bot.py prefix handlers claim disjoint callbacks, and neither claims the exact data. */
  lemma CallbackPrefixesDisjoint(data: string)
    ensures !(StartsWith(data, ChooseAccountPrefix) && StartsWith(data, SelectAccountPrefix))
    ensures !StartsWith(ChooseMarketplaceData, ChooseAccountPrefix)
    ensures !StartsWith(ChooseMarketplaceData, SelectAccountPrefix)
    ensures !StartsWith(HelpData, ChooseAccountPrefix) && !StartsWith(HelpData, SelectAccountPrefix)
  {
    assert StartsWith(data, ChooseAccountPrefix) ==> data[0] == 'c';
    assert StartsWith(data, SelectAccountPrefix) ==> data[0] == 's';
    assert ChooseMarketplaceData[7] != ChooseAccountPrefix[7];
    assert ChooseMarketplaceData[0] != SelectAccountPrefix[0];
  }

  /**
   * The bot.py callback handler an update reaches. The handler registered
   * for `choose_marketplace:` after the catch-all is never reached, and the
   * prefix handlers receive exactly the callbacks `ParseCallback` classifies
   * as account choices and account selections.
   */
  function MonolithCallbackRoute(data: string): (h: CallbackHandler)
    ensures h != ProcessChooseMarketplace
    ensures h == ProcessChooseAccount <==> ParseCallback(data).ChooseAccount?
    ensures h == ProcessSelectAccount <==>
      ParseCallback(data).SelectAccount? || ParseCallback(data).MalformedAccountId?
  {
    var reg := MonolithCallbackRegistry;
    CallbackPrefixesDisjoint(data);
    assert AcceptsData(reg[2].0, data);
    var found := FirstAcceptingData(reg, data);
    ghost var i :| 0 <= i < |reg| && reg[i].1 == found.value && AcceptsData(reg[i].0, data)
                   && forall j :: 0 <= j < i ==> !AcceptsData(reg[j].0, data);
    assert i >= 1 ==> !AcceptsData(reg[0].0, data);
    assert i >= 2 ==> !AcceptsData(reg[1].0, data);
    assert i <= 2;
    found.value
  }

  /** Appends the `callback_query.answer()` that bot.py's catch-all runs last. */
  function Acknowledged(r: StepResult): (a: StepResult)
    ensures a.session == r.session && a.requests == r.requests
    ensures |a.outputs| == |r.outputs| + 1
    ensures a.outputs[..|r.outputs|] == r.outputs && a.outputs[|r.outputs|] == AnswerCallback
  {
    StepResult(r.session, r.outputs + [AnswerCallback], r.requests)
  }

  /**
   * An inline-button callback, once its data is classified. Both bots:
   * `select_account:<id>` selects a known account, a non-integer id raises
   * before anything is shown, and unknown data is only acknowledged. app/bot
   * lists a marketplace's accounts for `choose_account:<mp>`; bot.py raises a
   * `TypeError` there (bot.py:130) and shows nothing. bot.py's
   * `select_marketplace:` branch raises a `NameError` (bot.py:301) before it
   * acknowledges; app/bot has no such branch and only acknowledges. bot.py
   * acknowledges the marketplace and help callbacks; app/bot does not.
   */
  function HandleCallback(v: Variant, s: SessionData, a: CallbackAction, env: Env): (r: StepResult)
    ensures r.requests == []
    ensures a.SelectAccount? ==> r == SelectAccountCallback(s, a.accountId, env)
    ensures a.MalformedAccountId? ==> r == StepResult(s, [], [])
    ensures a.OtherCallback? ==> r == StepResult(s, [AnswerCallback], [])
    ensures a.ChooseAccount? && v == App ==> r == ChooseAccountCallback(s, a.marketplace, env)
    ensures a.ChooseAccount? && v == Monolith ==> r == StepResult(s, [], [])
    ensures a.SelectMarketplace? ==> r.session == s && (v == App <==> r.outputs == [AnswerCallback])
    ensures a.ChooseMarketplace? && v == App ==> r == MarketplaceSelection(s, env)
    ensures a.ChooseMarketplace? && v == Monolith ==> r == Acknowledged(MarketplaceSelection(s, env))
    ensures a.ShowHelp? && v == App ==> r == Help(v, s, env)
    ensures a.ShowHelp? && v == Monolith ==> r == Acknowledged(Help(v, s, env))
  {
    match a
    case ChooseMarketplace =>
      var m := MarketplaceSelection(s, env);
      if v == App then m else Acknowledged(m)
    case ShowHelp =>
      var h := Help(v, s, env);
      if v == App then h else Acknowledged(h)
    case ChooseAccount(marketplace) =>
      if v == App then ChooseAccountCallback(s, marketplace, env) else StepResult(s, [], [])
    case SelectAccount(id) => SelectAccountCallback(s, id, env)
    case MalformedAccountId => StepResult(s, [], [])
    case SelectMarketplace(_) =>
      if v == App then StepResult(s, [AnswerCallback], []) else StepResult(s, [], [])
    case OtherCallback => StepResult(s, [AnswerCallback], [])
  }

  /** A callback keeps the mode invariant and changes no key outside `CallbackTouched(a)`. */
  lemma CallbackFrame(v: Variant, s: SessionData, a: CallbackAction, env: Env)
    ensures var r := HandleCallback(v, s, a, env);
      Valid(s) ==> Valid(r.session)
    ensures SameExcept(s, HandleCallback(v, s, a, env).session, CallbackTouched(a))
  {
  }

  // ------------------------------------------------------------ the whole machine

  /** The session keys a text message may change, by the handler it is routed to. */
  function MessageTouched(text: string): set<Field> {
    match Route(text)
    case HandleReviewActions => {Review, SuggestedReply, ReviewId, NextPageToken, CurrentMode}
    case HandleReplyChoice => {CurrentMode}
    case ProcessConfirmation => {CurrentMode}
    case ProcessCustomReply => {CustomReply, CurrentMode}
  }

  /** The session keys a callback may change, by what its data asks for. */
  function CallbackTouched(a: CallbackAction): set<Field> {
    match a
    case ChooseMarketplace => {LastBotMessageId}
    case ShowHelp => {LastBotMessageId}
    case ChooseAccount(_) => {LastBotMessageId}
    case SelectAccount(_) => {SelectedAccountId, Marketplace, NextPageToken}
    case MalformedAccountId => {}
    case SelectMarketplace(_) => {}
    case OtherCallback => {}
  }

  /** The session keys an event may change. */
  function Touched(e: Event): set<Field> {
    match e
    case StartCommand => AllFields
    case HelpCommand => {LastBotMessageId}
    case Message(text) => MessageTouched(text)
    case Callback(data) => CallbackTouched(ParseCallback(data))
  }

  /**
   * A text message, through the registry of reply-keyboard labels: it keeps
   * the mode invariant, changes no key outside `MessageTouched(text)`, and
   * makes at most one backend call, a fetch only for the fetch labels with a
   * truthy account, a submission only for the two sending labels with both
   * ids truthy.
   */
  function HandleMessage(v: Variant, s: SessionData, text: string, env: Env): (r: StepResult)
    ensures Valid(s) ==> Valid(r.session)
    ensures SameExcept(s, r.session, MessageTouched(text))
    ensures |r.requests| <= 1
    ensures r.requests != [] && r.requests[0].GetReview? ==>
      && text in FetchLabels && Truthy(s.selectedAccountId)
      && r.requests[0].accountId == s.selectedAccountId.value
    ensures r.requests != [] && r.requests[0].PostReply? ==>
      && (text == SendSuggestedLabel || text == YesLabel) && CanSubmit(s)
      && r.requests[0].accountId == s.selectedAccountId.value
      && r.requests[0].reviewId == s.reviewId.value
  {
    match Route(text)
    case HandleReviewActions => FetchReview(v, s, text, env)
    case HandleReplyChoice => ReplyChoice(s, text, env)
    case ProcessConfirmation => Confirmation(v, s, text, env)
    case ProcessCustomReply => WriteCustomReply(s, text)
  }

  /**
   * One inbound event handled against the session its handler reads. Every
   * event keeps the mode invariant and changes no key outside `Touched(e)`.
   * It makes at most one backend call: a fetch only for the two fetch labels
   * with a truthy account and for that account, a submission only for the
   * two sending labels with both ids truthy and for exactly those ids.
   */
  function Step(v: Variant, s: SessionData, e: Event, env: Env): (r: StepResult)
    ensures Valid(s) ==> Valid(r.session)
    ensures SameExcept(s, r.session, Touched(e))
    ensures |r.requests| <= 1
    ensures r.requests != [] && r.requests[0].GetReview? ==>
      && e.Message? && e.text in FetchLabels && Truthy(s.selectedAccountId)
      && r.requests[0].accountId == s.selectedAccountId.value
    ensures r.requests != [] && r.requests[0].PostReply? ==>
      && e.Message? && (e.text == SendSuggestedLabel || e.text == YesLabel) && CanSubmit(s)
      && r.requests[0].accountId == s.selectedAccountId.value
      && r.requests[0].reviewId == s.reviewId.value
  {
    match e
    case StartCommand => Start(v, s, env)
    case HelpCommand => Help(v, s, env)
    case Message(text) => HandleMessage(v, s, text, env)
    case Callback(data) =>
      CallbackFrame(v, s, ParseCallback(data), env);
      HandleCallback(v, s, ParseCallback(data), env)
  }
}
