/**
 * Sequences of updates from one user: the pagination chain, the guard that
 * keeps replies from being posted before a review is fetched, the draft
 * dialogue, and how the two implementations of the machine compare.
 */
module Conversation {
  import opened Wrappers
  import opened Sessions
  import opened Io
  import opened Accounts
  import opened Messages
  import opened Bot

  /** The records after each update, and what each update sent and called. */
  datatype Trace = Trace(sessions: seq<SessionData>, outputs: seq<seq<Output>>, requests: seq<seq<Request>>)

  /** Update `i` of a trace is `Step` applied to the record before it. */
  predicate Follows(v: Variant, t: Trace, events: seq<Event>, envs: seq<Env>, i: int)
    requires 0 <= i < |events| == |envs| && |t.sessions| == |events| + 1 && |t.outputs| == |events| == |t.requests|
  {
    var r := Step(v, t.sessions[i], events[i], envs[i]);
    t.sessions[i + 1] == r.session && t.outputs[i] == r.outputs && t.requests[i] == r.requests
  }

  /** `events[i]` handled with outside answers `envs[i]`, one after the other, from `s`. */
  function Run(v: Variant, s: SessionData, events: seq<Event>, envs: seq<Env>): (t: Trace)
    requires |envs| == |events|
    ensures |t.sessions| == |events| + 1 && |t.outputs| == |events| && |t.requests| == |events|
    ensures t.sessions[0] == s
    decreases |events|
  {
    if events == [] then Trace([s], [], [])
    else
      var r := Step(v, s, events[0], envs[0]);
      var rest := Run(v, r.session, events[1..], envs[1..]);
      Trace([s] + rest.sessions, [r.outputs] + rest.outputs, [r.requests] + rest.requests)
  }

  /** Every update of a run is `Step` applied to the record the previous ones left. */
  lemma {:induction false} RunFollows(v: Variant, s: SessionData, events: seq<Event>, envs: seq<Env>, i: nat)
    requires |envs| == |events| && i < |events|
    ensures Follows(v, Run(v, s, events, envs), events, envs, i)
    decreases i
  {
    var t := Run(v, s, events, envs);
    var r := Step(v, s, events[0], envs[0]);
    var rest := Run(v, r.session, events[1..], envs[1..]);
    assert t == Trace([s] + rest.sessions, [r.outputs] + rest.outputs, [r.requests] + rest.requests);
    if i > 0 {
      RunFollows(v, r.session, events[1..], envs[1..], i - 1);
      FollowsShift(v, s, r, rest, events, envs, i);
    }
  }

  /** Putting one update in front of a trace shifts its steps by one. */
  lemma FollowsShift(v: Variant, s: SessionData, r: StepResult, rest: Trace, events: seq<Event>, envs: seq<Env>, i: int)
    requires 0 < i < |events| == |envs|
    requires |rest.sessions| == |events| && |rest.outputs| == |events| - 1 == |rest.requests|
    requires Follows(v, rest, events[1..], envs[1..], i - 1)
    ensures Follows(v, Trace([s] + rest.sessions, [r.outputs] + rest.outputs, [r.requests] + rest.requests), events, envs, i)
  {
    var t := Trace([s] + rest.sessions, [r.outputs] + rest.outputs, [r.requests] + rest.requests);
    assert events[i] == events[1..][i - 1] && envs[i] == envs[1..][i - 1];
    assert t.sessions[i] == rest.sessions[i - 1] && t.sessions[i + 1] == rest.sessions[i];
    assert t.outputs[i] == rest.outputs[i - 1] && t.requests[i] == rest.requests[i - 1];
  }

  /** Every record along a run keeps the mode invariant when the first does. */
  lemma {:induction false} RunKeepsValid(v: Variant, s: SessionData, events: seq<Event>, envs: seq<Env>, i: nat)
    requires |envs| == |events| && i <= |events|
    requires Valid(s)
    ensures Valid(Run(v, s, events, envs).sessions[i])
    decreases i
  {
    if i > 0 {
      RunKeepsValid(v, s, events, envs, i - 1);
      RunFollows(v, s, events, envs, i - 1);
      FollowsKeepsValid(v, Run(v, s, events, envs), events, envs, i - 1);
    }
  }

  lemma FollowsKeepsValid(v: Variant, t: Trace, events: seq<Event>, envs: seq<Env>, i: int)
    requires 0 <= i < |events| == |envs| && |t.sessions| == |events| + 1 && |t.outputs| == |events| == |t.requests|
    requires Follows(v, t, events, envs, i) && Valid(t.sessions[i])
    ensures Valid(t.sessions[i + 1])
  {
  }

  // ------------------------------------------------------------ pagination

  /** The cursor a page token becomes when sent: kept only when truthy. */
  function Sent(token: Option<string>): (c: Option<string>)
    ensures c.Some? <==> TruthyText(token)
    ensures c.Some? ==> c == token
  {
    if TruthyText(token) then token else None
  }

  /** Each answer in `envs` is a 200 carrying a review with a truthy id. */
  predicate AllFound(envs: seq<Env>) {
    forall i :: 0 <= i < |envs| ==> envs[i].fetched.status == 200 && Truthy(envs[i].fetched.reviewId)
  }

  /**
   * One "Перейти к следующему" tap with an account selected asks for the
   * stored cursor (when truthy) and, when a review is found, stores the
   * answer's cursor and keeps the account.
   */
  lemma NextTap(v: Variant, s: SessionData, env: Env)
    requires Truthy(s.selectedAccountId)
    ensures Step(v, s, Message(NextLabel), env).requests == [GetReview(s.selectedAccountId.value, Sent(s.nextPageToken))]
    ensures env.fetched.status == 200 && Truthy(env.fetched.reviewId) ==>
      && Step(v, s, Message(NextLabel), env).session.selectedAccountId == s.selectedAccountId
      && Step(v, s, Message(NextLabel), env).session.nextPageToken == env.fetched.nextPageToken
  {
    assert Route(NextLabel) == HandleReviewActions;
    assert Step(v, s, Message(NextLabel), env) == FetchReview(v, s, NextLabel, env);
  }

  /**
   * Along a run of "Перейти к следующему" taps that each find a review, the
   * account stays selected and the stored cursor after tap `i` is the one
   * answer `i` returned.
   */
  lemma {:induction false} NextTapsKeepCursor(v: Variant, s: SessionData, envs: seq<Env>, i: nat)
    requires Truthy(s.selectedAccountId) && AllFound(envs) && 0 < i <= |envs|
    ensures var t := Run(v, s, seq(|envs|, _ => Message(NextLabel)), envs);
      t.sessions[i].selectedAccountId == s.selectedAccountId
      && t.sessions[i].nextPageToken == envs[i - 1].fetched.nextPageToken
    decreases i
  {
    var events := seq(|envs|, _ => Message(NextLabel));
    var t := Run(v, s, events, envs);
    if i > 1 {
      NextTapsKeepCursor(v, s, envs, i - 1);
    }
    RunFollows(v, s, events, envs, i - 1);
    assert events[i - 1] == Message(NextLabel);
    NextTap(v, t.sessions[i - 1], envs[i - 1]);
  }

  /**
   * Pagination chains: the first "next" tap sends the cursor stored before
   * the run, and every later tap sends exactly the cursor the previous
   * answer returned (left out when it is empty or absent), always for the
   * same account.
   */
  lemma {:induction false} PaginationChains(v: Variant, s: SessionData, envs: seq<Env>)
    requires Truthy(s.selectedAccountId) && AllFound(envs) && |envs| >= 1
    ensures var t := Run(v, s, seq(|envs|, _ => Message(NextLabel)), envs);
      && t.requests[0] == [GetReview(s.selectedAccountId.value, Sent(s.nextPageToken))]
      && forall i :: 0 < i < |envs| ==>
           t.requests[i] == [GetReview(s.selectedAccountId.value, Sent(envs[i - 1].fetched.nextPageToken))]
  {
    var events := seq(|envs|, _ => Message(NextLabel));
    var t := Run(v, s, events, envs);
    forall i | 0 < i < |envs|
      ensures t.requests[i] == [GetReview(s.selectedAccountId.value, Sent(envs[i - 1].fetched.nextPageToken))]
    {
      NextTapsKeepCursor(v, s, envs, i);
      assert events[i] == Message(NextLabel);
      RunFollows(v, s, events, envs, i);
      NextTap(v, t.sessions[i], envs[i]);
    }
    assert events[0] == Message(NextLabel);
    RunFollows(v, s, events, envs, 0);
    NextTap(v, s, envs[0]);
  }

  // ------------------------------------------------------------ the previous bot message

  /** Every update either leaves the recorded message id alone or records the message it just sent. */
  lemma StepRecordsOrKeeps(v: Variant, s: SessionData, e: Event, env: Env)
    ensures var id := Step(v, s, e, env).session.lastBotMessageId;
      id == s.lastBotMessageId || id == Some(env.sentMessageId)
  {
    match e
    case StartCommand =>
    case HelpCommand =>
    case Message(text) =>
      assert LastBotMessageId !in MessageTouched(text);
    case Callback(data) =>
      CallbackStep(v, s, data, env);
  }

  /**
   * Once update `j` has recorded the message it sent, the record keeps that
   * id through every later update that cannot touch it.
   */
  lemma RecordedIdSurvives(v: Variant, s: SessionData, events: seq<Event>, envs: seq<Env>, j: nat, k: nat)
    requires |envs| == |events| && j < k <= |events|
    requires Run(v, s, events, envs).sessions[j + 1].lastBotMessageId == Some(envs[j].sentMessageId)
    requires forall m :: j < m < k ==> LastBotMessageId !in Touched(events[m])
    ensures Run(v, s, events, envs).sessions[k].lastBotMessageId == Some(envs[j].sentMessageId)
  {
    var t := Run(v, s, events, envs);
    forall m | j < m < k
      ensures t.sessions[m + 1].lastBotMessageId == t.sessions[m].lastBotMessageId
    {
      RunKeepsUntouched(v, s, events, envs, m);
    }
    IdCarriedForward(t.sessions, j, k);
  }

  lemma {:induction false} IdCarriedForward(ss: seq<SessionData>, j: nat, k: nat)
    requires j < k < |ss|
    requires forall m :: j < m < k ==> ss[m + 1].lastBotMessageId == ss[m].lastBotMessageId
    ensures ss[k].lastBotMessageId == ss[j + 1].lastBotMessageId
    decreases k
  {
    if k > j + 1 {
      IdCarriedForward(ss, j, k - 1);
    }
  }

  lemma RunKeepsUntouched(v: Variant, s: SessionData, events: seq<Event>, envs: seq<Env>, i: nat)
    requires |envs| == |events| && i < |events| && LastBotMessageId !in Touched(events[i])
    ensures Run(v, s, events, envs).sessions[i + 1].lastBotMessageId == Run(v, s, events, envs).sessions[i].lastBotMessageId
  {
    RunFollows(v, s, events, envs, i);
    FollowsKeepsUntouched(v, Run(v, s, events, envs), events, envs, i);
  }

  lemma FollowsKeepsUntouched(v: Variant, t: Trace, events: seq<Event>, envs: seq<Env>, i: int)
    requires 0 <= i < |events| == |envs| && |t.sessions| == |events| + 1 && |t.outputs| == |events| == |t.requests|
    requires Follows(v, t, events, envs, i) && LastBotMessageId !in Touched(events[i])
    ensures t.sessions[i + 1].lastBotMessageId == t.sessions[i].lastBotMessageId
  {
  }

  /**
   * The message one screen records is the one the next `/help` deletes:
   * after update `j` records the message it sent, and only updates that
   * leave the id alone come between, a `/help` at `i` deletes exactly that
   * message (nothing when Telegram's id is the falsy 0) before sending the
   * help page.
   */
  lemma HelpDeletesRecordedMessage(v: Variant, s: SessionData, events: seq<Event>, envs: seq<Env>, j: nat, i: nat)
    requires |envs| == |events| && j < i < |events|
    requires Run(v, s, events, envs).sessions[j + 1].lastBotMessageId == Some(envs[j].sentMessageId)
    requires forall m :: j < m < i ==> LastBotMessageId !in Touched(events[m])
    requires events[i] == HelpCommand
    ensures var outs := Run(v, s, events, envs).outputs[i];
      && (envs[j].sentMessageId != 0 ==> |outs| == 2 && outs[0] == DeleteMessage(envs[j].sentMessageId))
      && (envs[j].sentMessageId == 0 ==> |outs| == 1)
  {
    RecordedIdSurvives(v, s, events, envs, j, i);
    RunFollows(v, s, events, envs, i);
  }

  // ------------------------------------------------------------ submission guard

  /** Whether an update is one of the two fetch labels. */
  predicate IsFetch(e: Event) {
    e.Message? && e.text in FetchLabels
  }

  /** One update that is not a fetch never makes a falsy review id truthy. */
  lemma StepKeepsNoReview(v: Variant, s: SessionData, e: Event, env: Env)
    requires !Truthy(s.reviewId) && !IsFetch(e)
    ensures !Truthy(Step(v, s, e, env).session.reviewId)
  {
    match e
    case StartCommand =>
    case HelpCommand =>
    case Message(text) =>
      assert ReviewId !in MessageTouched(text);
    case Callback(data) =>
      assert ReviewId !in CallbackTouched(ParseCallback(data));
  }

  /**
   * Without a truthy review id at the start, no reply is ever posted until
   * a fetch label is tapped: only a fetch sets the review id (and `/start`
   * empties it).
   */
  lemma {:induction false} NoReplyBeforeFetch(v: Variant, s: SessionData, events: seq<Event>, envs: seq<Env>, i: nat)
    requires |envs| == |events| && i < |events|
    requires !Truthy(s.reviewId)
    requires forall j :: 0 <= j <= i ==> !IsFetch(events[j])
    ensures !Truthy(Run(v, s, events, envs).sessions[i].reviewId)
    ensures forall q :: q in Run(v, s, events, envs).requests[i] ==> !q.PostReply?
    decreases i
  {
    var t := Run(v, s, events, envs);
    if i > 0 {
      NoReplyBeforeFetch(v, s, events, envs, i - 1);
      RunFollows(v, s, events, envs, i - 1);
      FollowsKeepsNoReview(v, t, events, envs, i - 1);
    }
    RunFollows(v, s, events, envs, i);
    FollowsKeepsNoReview(v, t, events, envs, i);
  }

  /** `StepKeepsNoReview` at one update of a trace; that update posts nothing either. */
  lemma FollowsKeepsNoReview(v: Variant, t: Trace, events: seq<Event>, envs: seq<Env>, i: int)
    requires 0 <= i < |events| == |envs| && |t.sessions| == |events| + 1 && |t.outputs| == |events| == |t.requests|
    requires Follows(v, t, events, envs, i) && !Truthy(t.sessions[i].reviewId) && !IsFetch(events[i])
    ensures !Truthy(t.sessions[i + 1].reviewId)
    ensures forall q :: q in t.requests[i] ==> !q.PostReply?
  {
    StepKeepsNoReview(v, t.sessions[i], events[i], envs[i]);
  }

  // ------------------------------------------------------------ the draft dialogue

  const Drafting: seq<Event> := [Message("Thanks!"), Message(NoLabel), Message("Thank you!"), Message(YesLabel)]

  /**
   * Writing "Thanks!", declining, writing "Thank you!" and confirming posts
   * "Thank you!" exactly once, for the session's account and review, and
   * ends back in no mode with the second draft kept.
   */
  lemma {:induction false} DraftScenario(v: Variant, s: SessionData, envs: seq<Env>)
    requires |envs| == 4
    requires s.mode == WaitingForCustomReply && CanSubmit(s)
    ensures var t := Run(v, s, Drafting, envs);
      && t.sessions[1].mode == ConfirmingReply && t.sessions[1].customReply == Some("Thanks!")
      && t.sessions[2].mode == WaitingForCustomReply && t.sessions[2].customReply == Some("Thanks!")
      && t.sessions[3].customReply == Some("Thank you!")
      && t.requests[0] == [] && t.requests[1] == [] && t.requests[2] == []
      && t.requests[3] == [PostReply(s.selectedAccountId.value, s.reviewId.value, Some("Thank you!"))]
      && t.sessions[4].mode == Idle
  {
    var t := Run(v, s, Drafting, envs);
    RunFollows(v, s, Drafting, envs, 0);
    DraftStep(v, s, "Thanks!", envs[0]);
    RunFollows(v, s, Drafting, envs, 1);
    ConfirmStep(v, t.sessions[1], NoLabel, envs[1]);
    RunFollows(v, s, Drafting, envs, 2);
    DraftStep(v, t.sessions[2], "Thank you!", envs[2]);
    RunFollows(v, s, Drafting, envs, 3);
    ConfirmStep(v, t.sessions[3], YesLabel, envs[3]);
  }

  /** Free text goes to `process_custom_reply`. */
  lemma DraftStep(v: Variant, s: SessionData, text: string, env: Env)
    requires !IsButtonLabel(text)
    ensures Step(v, s, Message(text), env) == WriteCustomReply(s, text)
  {
  }

  /** "Да" and "Нет" go to `process_confirmation`. */
  lemma ConfirmStep(v: Variant, s: SessionData, text: string, env: Env)
    requires text in ConfirmLabels
    ensures Step(v, s, Message(text), env) == Confirmation(v, s, text, env)
  {
  }

  // ------------------------------------------------------------ the two implementations

  /** Whether an update is a `choose_account:` callback. */
  predicate IsChooseAccount(e: Event) {
    e.Callback? && ParseCallback(e.data).ChooseAccount?
  }

  /**
   * bot.py and app/bot write the same record and make the same backend calls
   * for every update except `choose_account:` callbacks, where bot.py fails
   * before recording the list it would have shown.
   */
  lemma VariantsAgreeOnSession(s: SessionData, e: Event, env: Env)
    requires !IsChooseAccount(e)
    ensures Step(App, s, e, env).session == Step(Monolith, s, e, env).session
    ensures Step(App, s, e, env).requests == Step(Monolith, s, e, env).requests
  {
    match e
    case StartCommand =>
    case HelpCommand =>
    case Message(text) =>
    case Callback(data) =>
  }

  /**
   * The `choose_account:` callback of bot.py as written (bot.py:120-137):
   * `delete_previous_bot_message` is called with one argument, so the
   * handler raises before it sends the list; for a marketplace that has
   * accounts, app/bot shows one button per account and records the message,
   * while bot.py shows nothing and records nothing.
   */
  lemma MonolithChooseAccountShowsNothing(s: SessionData, marketplace: string, env: Env)
    requires ':' !in marketplace
    requires AccountsOn(env.accounts, marketplace) != []
    ensures Step(Monolith, s, Callback(ChooseAccountData(marketplace)), env) == StepResult(s, [], [])
    ensures var r := Step(App, s, Callback(ChooseAccountData(marketplace)), env);
      && r.session.lastBotMessageId == Some(env.sentMessageId)
      && r.outputs[|r.outputs| - 2] ==
         Send(Fixed(ChooseAccountPrompt), NoParseMode, InlineKeyboard(AccountButtons(AccountsOn(env.accounts, marketplace))))
  {
    var data := ChooseAccountData(marketplace);
    ChooseAccountDataRoundTrip(marketplace);
    CallbackStep(Monolith, s, data, env);
    CallbackStep(App, s, data, env);
    ChooseAccountHandled(s, marketplace, env);
  }

  /** The `choose_account:` action in each implementation. */
  lemma ChooseAccountHandled(s: SessionData, marketplace: string, env: Env)
    ensures HandleCallback(Monolith, s, ChooseAccount(marketplace), env) == StepResult(s, [], [])
    ensures HandleCallback(App, s, ChooseAccount(marketplace), env) == ChooseAccountCallback(s, marketplace, env)
  {
  }

  /** A callback goes to the handler its data parses to. */
  lemma CallbackStep(v: Variant, s: SessionData, data: string, env: Env)
    ensures Step(v, s, Callback(data), env) == HandleCallback(v, s, ParseCallback(data), env)
  {
  }

  // ------------------------------------------------------------ /start

  /**
   * `/start`, with the clearing the code means, forgets everything before
   * it: from any two records it writes the same record and sends the same
   * messages, and the new record has no dialogue mode, no draft, no account
   * and nothing to submit.
   */
  lemma StartForgetsHistory(v: Variant, s1: SessionData, s2: SessionData, env: Env)
    ensures Step(v, s1, StartCommand, env) == Step(v, s2, StartCommand, env)
    ensures var t := Step(v, s1, StartCommand, env).session;
      && t.mode == Idle && t.customReply == None && !Truthy(t.selectedAccountId) && !CanSubmit(t)
      && t.lastBotMessageId == Some(env.sentMessageId)
  {
  }

  /**
   * `/start` as written keeps the dialogue going: a user who was writing a
   * draft and restarts still has the next text taken as a draft, whereas a
   * start that empties the record answers that no reply is expected.
   */
  lemma StartAsWrittenKeepsDraftMode(v: Variant, s: SessionData, env: Env)
    requires s.mode == WaitingForCustomReply
    ensures var kept := StartAsWritten(v, s, env).session;
      && kept.mode == WaitingForCustomReply
      && Step(v, kept, Message("hello"), env).session.customReply == Some("hello")
    ensures var cleared := Start(v, s, env).session;
      && cleared.mode == Idle
      && Step(v, cleared, Message("hello"), env).outputs == [Say(NotWaiting)]
  {
    assert !IsButtonLabel("hello");
  }
}
