/**
 * The bot and the backend together: what the user sees when a backend
 * answer reaches the fetch handler, and how the bot's submission guard
 * lines up with the backend's validation of `/send_reply`.
 */
module Pipeline {
  import opened Wrappers
  import opened Sessions
  import opened Io
  import opened Messages
  import opened Bot
  import opened Backend

  /**
   * As written, every early exit of `get_last_review_yandex` (no business
   * id, a failed Yandex call, no feedback left) reaches the user as a
   * fetch failure, and the session is left as it was.
   */
  lemma EarlyExitSeenByUser(v: Variant, s: SessionData, db: Db, telegramId: int, remote: Remote, env: Env)
    requires Truthy(s.selectedAccountId)
    requires ReachesYandex(db, telegramId, s.selectedAccountId.value)
    requires EarlyExitOf(AccountOf(db, telegramId, s.selectedAccountId.value), remote.page).Some?
    ensures var r := Step(v, s, Message(FetchLabel), env.(fetched := GetReviewAnswer(db, telegramId, s.selectedAccountId.value, remote)));
      r.session == s && r.outputs[2] == Say(FetchFailed)
  {
    assert Route(FetchLabel) == HandleReviewActions;
    assert GetReviewAnswer(db, telegramId, s.selectedAccountId.value, remote).status != 200;
  }

  /**
   * With the early exits handled, an empty feedback list reaches the user
   * as "Больше нет отзывов." with the main menu and only the mode reset,
   * while a missing business id or a failed Yandex call is still a fetch
   * failure that leaves the session as it was.
   */
  lemma IntendedEarlyExitSeenByUser(v: Variant, s: SessionData, db: Db, telegramId: int, remote: Remote, env: Env)
    requires Truthy(s.selectedAccountId)
    requires ReachesYandex(db, telegramId, s.selectedAccountId.value)
    requires EarlyExitOf(AccountOf(db, telegramId, s.selectedAccountId.value), remote.page).Some?
    ensures var r := Step(v, s, Message(FetchLabel), env.(fetched := GetReviewAnswerIntended(db, telegramId, s.selectedAccountId.value, remote)));
      var exit := EarlyExitOf(AccountOf(db, telegramId, s.selectedAccountId.value), remote.page);
      && (exit == Some(NoFeedbackMessage) ==> r.session == s.(mode := Idle) && r.outputs[2..] == [Say(NoMoreReviews), MainMenu])
      && (exit != Some(NoFeedbackMessage) ==> r.session == s && r.outputs[2] == Say(FetchFailed))
  {
    assert Route(FetchLabel) == HandleReviewActions;
    var intended := GetReviewAnswerIntended(db, telegramId, s.selectedAccountId.value, remote);
    if EarlyExitOf(AccountOf(db, telegramId, s.selectedAccountId.value), remote.page) == Some(NoFeedbackMessage) {
      assert intended.status == 200 && intended.reviewId == None;
    } else {
      assert intended.status == 500;
    }
  }

  /**
   * A formatted feedback without an order id crashes the backend as
   * written, and is a review with no product once `offer_name` is bound.
   */
  lemma OrderlessFeedbackCrashes(account: Account, campaigns: seq<Campaign>, remote: Remote)
    requires EarlyExitOf(account, remote.page).None?
    requires remote.formatDate(remote.page.feedbacks[0].createdAt.GetOr("")).Some?
    requires !Truthy(remote.page.feedbacks[0].orderId)
    ensures LastReviewYandex(account, campaigns, remote) == Crashed
    ensures var r := LastReviewYandexIntended(account, campaigns, remote);
      r.Found? && r.shortData.productName == None && r.reviewId == remote.page.feedbacks[0].feedbackId
  {
  }

  /** The JSON body the bot posts for a `PostReply` request from user `telegramId`. */
  function SendReplyBody(telegramId: int, q: Request): (data: SendReplyData)
    requires q.PostReply?
    ensures data.accountId == Some(q.accountId) && data.reviewId == Some(q.reviewId) && data.reply == q.reply
  {
    SendReplyData(Some(telegramId), Some(q.accountId), q.reply, Some(q.reviewId))
  }

  /**
   * The bot's guard and the backend's validation agree on the ids: every
   * reply the bot posts has a truthy account and review id, so from a
   * non-zero Telegram id it passes validation exactly when the reply text
   * is non-empty.
   */
  lemma PostedRepliesPassValidation(v: Variant, s: SessionData, e: Event, env: Env, telegramId: int)
    requires telegramId != 0
    requires Step(v, s, e, env).requests != [] && Step(v, s, e, env).requests[0].PostReply?
    ensures var q := Step(v, s, e, env).requests[0];
      Complete(SendReplyBody(telegramId, q)) <==> TruthyText(q.reply)
  {
    var q := Step(v, s, e, env).requests[0];
    assert q.accountId == s.selectedAccountId.value && q.reviewId == s.reviewId.value;
  }

  /**
   * When an update posts a reply, the bot tells the user it was sent
   * exactly when the backend answered 200.
   */
  lemma PostingReportsOutcome(v: Variant, s: SessionData, e: Event, env: Env)
    requires Step(v, s, e, env).requests != [] && Step(v, s, e, env).requests[0].PostReply?
    ensures Say(ReplySent) in Step(v, s, e, env).outputs <==> env.submitStatus == 200
  {
    var text := e.text;
    assert CanSubmit(s) && (text == SendSuggestedLabel || text == YesLabel);
    MessageStep(v, s, text, env);
    var r := HandleMessage(v, s, text, env);
    if text == SendSuggestedLabel {
      SuggestionReported(s, env);
    } else {
      ConfirmationReported(v, s, env);
    }
  }

  lemma MessageStep(v: Variant, s: SessionData, text: string, env: Env)
    ensures Step(v, s, Message(text), env) == HandleMessage(v, s, text, env)
  {
  }

  lemma SuggestionReported(s: SessionData, env: Env)
    requires CanSubmit(s)
    ensures var r := HandleMessage(Monolith, s, SendSuggestedLabel, env);
      r.requests != [] ==> (Say(ReplySent) in r.outputs <==> env.submitStatus == 200)
    ensures var r := HandleMessage(App, s, SendSuggestedLabel, env);
      r.requests != [] ==> (Say(ReplySent) in r.outputs <==> env.submitStatus == 200)
  {
    assert Route(SendSuggestedLabel) == HandleReplyChoice;
  }

  lemma ConfirmationReported(v: Variant, s: SessionData, env: Env)
    requires CanSubmit(s)
    ensures var r := HandleMessage(v, s, YesLabel, env);
      r.requests != [] ==> (Say(ReplySent) in r.outputs <==> env.submitStatus == 200)
  {
    assert Route(YesLabel) == ProcessConfirmation;
    var r := Confirmation(v, s, YesLabel, env);
    assert HandleMessage(v, s, YesLabel, env) == r;
    if s.mode == ConfirmingReply {
      var said := Say(ResultText(env.submitStatus == 200));
      assert r.outputs == (if v == Monolith then [Say(Sending)] else []) + [said, MainMenu];
    }
  }

  /**
   * A non-empty reply the bot posts for a Yandex Market account with a
   * business id becomes exactly one comment, on that business, for the
   * session's review, with the posted text; the user is told it was sent
   * exactly when Yandex answers 200.
   */
  lemma PostedReplyBecomesComment(v: Variant, s: SessionData, e: Event, env: Env, db: Db, telegramId: int, commentStatus: int)
    requires telegramId != 0
    requires Step(v, s, e, env).requests != [] && Step(v, s, e, env).requests[0].PostReply?
    requires var q := Step(v, s, e, env).requests[0];
      && TruthyText(q.reply) && ReachesYandex(db, telegramId, q.accountId)
      && TruthyText(AccountOf(db, telegramId, q.accountId).businessId)
      && env.submitStatus == SendReply(db, SendReplyBody(telegramId, q), commentStatus).status
    ensures var q := Step(v, s, e, env).requests[0];
      && SendReply(db, SendReplyBody(telegramId, q), commentStatus).call ==
         Some(CommentUpdate(AccountOf(db, telegramId, q.accountId).businessId.value, s.reviewId.value, q.reply.value))
      && (Say(ReplySent) in Step(v, s, e, env).outputs <==> commentStatus == 200)
  {
    var q := Step(v, s, e, env).requests[0];
    PostedRepliesPassValidation(v, s, e, env, telegramId);
    var data := SendReplyBody(telegramId, q);
    assert Complete(data);
    var account := AccountOf(db, telegramId, q.accountId);
    assert SendReply(db, data, commentStatus) ==
      SendReplyAnswer(if commentStatus == 200 then 200 else 500, Some(CommentUpdate(account.businessId.value, q.reviewId, q.reply.value)));
    PostingReportsOutcome(v, s, e, env);
  }
}
