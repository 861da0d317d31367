/**
 * The chat actions of the bot. A message is described by what it says (a
 * fixed phrase, or a phrase around user or backend text), and `Render`
 * spells out the exact characters each implementation sends.
 */
module Messages {
  import opened Io

  /** app/bot/ (split into modules) or bot.py (one file). */
  datatype Variant = App | Monolith

  /** The fixed texts the handlers send. */
  datatype Phrase =
    | Loading | SelectAccountFirst | NoMoreReviews | FetchFailed | ChooseAction
    | NoSuggestion | ReplySent | ReplyFailed | AskCustom | Sending | NotConfirming | NotWaiting
    | MainMenuPrompt | NoAccounts | ChooseMarketplacePrompt | ChooseAccountPrompt
    | NoAccountsOnMarketplace | AccountInfoFailed | StartProbe | PickMarketplace | PleaseAuthorize

  /** What a message says. */
  datatype Body =
    | Fixed(phrase: Phrase)
      /** A review, under its heading. */
    | ReviewText(review: string)
      /** A suggested reply, under its heading. */
    | SuggestedReplyText(reply: string)
      /** The confirmation question quoting the draft. */
    | ConfirmDraft(draft: string)
    | AccountChosen(accountName: string, marketplace: string)
    | Welcome(variant: Variant, name: string)
    | HelpPage(variant: Variant)

  datatype Output =
    | Send(body: Body, mode: ParseMode, keyboard: Keyboard)
    | SendPhoto(photo: string, caption: Body, mode: ParseMode, keyboard: Keyboard)
      /** A review photo, sent without caption. */
    | ReviewPhoto(url: string)
    | SendMediaGroup(photos: seq<string>)
    | DeleteMessage(messageId: int)
    | AnswerCallback

  /** A plain message without keyboard. */
  function Say(p: Phrase): Output {
    Send(Fixed(p), NoParseMode, NoKeyboard)
  }

  function PhraseText(p: Phrase): string {
    match p
    case Loading => "🤖Получаем данные… \n✨Генерируем ответ… "
    case SelectAccountFirst => "Сначала выберите кабинет. Нажмите /start для выбора."
    case NoMoreReviews => "Больше нет отзывов."
    case FetchFailed => "Не удалось получить отзыв. Пожалуйста, попробуйте позже."
    case ChooseAction => "Выберите действие:"
    case NoSuggestion => "Предложенный ответ не найден. Попробуйте снова получить отзыв."
    case ReplySent => "Ответ успешно отправлен на Яндекс.Маркет."
    case ReplyFailed => "Не удалось отправить ответ. Пожалуйста, попробуйте позже."
    case AskCustom => "Пожалуйста, напишите ваш ответ на отзыв."
    case Sending => "Отправляем ваш ответ..."
    case NotConfirming => "Сейчас не ожидается подтверждение. Попробуйте снова."
    case NotWaiting => "Сейчас не ожидается пользовательский ответ."
    case MainMenuPrompt => "Вы можете выбрать действие:"
    case NoAccounts => "У вас нет доступных кабинетов. Пожалуйста, добавьте кабинеты через команду /start."
    case ChooseMarketplacePrompt => "Пожалуйста, выберите маркетплейс или кабинет:"
    case ChooseAccountPrompt => "Выберите кабинет:"
    case NoAccountsOnMarketplace => "У вас нет кабинетов на выбранном маркетплейсе."
    case AccountInfoFailed => "Не удалось получить информацию о выбранном кабинете."
    case StartProbe => "Привет! Это тестовая реакция на /start."
    case PickMarketplace => "Пожалуйста, выберите маркетплейс:"
    case PleaseAuthorize => "Здравствуйте! Пожалуйста, авторизуйтесь, чтобы начать работу."
  }

  const ReviewHeading: string := "**Отзыв:**\n\n"
  const ReplyHeading: string := "**Предлагаемый ответ:**\n\n"
  const ConfirmQuestion: string := "Вы уверены, что хотите отправить этот ответ?\n\n"

  function HelpText(v: Variant): string {
    match v
    case App =>
      "ℹ️ *Популярные вопросы:*\n\n"
      + "🔹 *Как авторизоваться?*\n"
      + "— Нажмите кнопку 'Авторизоваться' и следуйте инструкциям.\n\n"
      + "🔹 *Как добавить маркетплейс?*\n"
      + "— Нажмите кнопку 'Добавить маркетплейс' и следуйте инструкциям.\n\n"
      + "🔹 *Как получить отзыв?*\n"
      + "— Выберите маркетплейс и нажмите кнопку 'Получить отзыв'.\n\n"
      + "Если есть вопросы, обратитесь к администратору."
    case Monolith =>
      "ℹ️ *Популярные вопросы:*\n\n"
      + "🔹 *Как авторизоваться?*\n"
      + "— Нажмите кнопку 'Авторизоваться' и следуйте инструкциям.\n\n"
      + "🔹 *Как добавить маркетплейс?*\n"
      + "— Нажмите кнопку 'Добавить маркетплейс' и следуйте инструкциям.\n\n"
      + "🔹 *Как получить свежий отзыв?*\n"
      + "— Выберите маркетплейс и нажмите кнопку 'Получить свежий отзыв'.\n\n"
      + "Если у вас есть дополнительные вопросы, обратитесь к администратору."
  }

  function WelcomeText(v: Variant, name: string): string {
    match v
    case App =>
      "Здравствуйте, " + name + "! Добро пожаловать в *ReviewReplierBot*!\n\n"
      + "Этот бот поможет вам управлять отзывами. Вы можете получать отзывы и отвечать на них.\n\n"
      + "Выберите нужное действие ниже:"
    case Monolith =>
      "Здравствуйте, " + name + "! Добро пожаловать в *ReviewReplierBot*!\n\n"
      + "Этот бот поможет вам управлять отзывами на маркетплейсах. Вы можете получать свежие отзывы и быстро отвечать на них с помощью интеграции с ChatGPT.\n\n"
      + "Выберите нужное действие ниже:"
  }

  /**
   * The characters a message body is sent as. User and backend text is
   * quoted verbatim at the end of its message (the confirmation shows the
   * draft exactly as typed).
   */
  function Render(b: Body): (r: string)
    ensures b.ReviewText? ==> r == ReviewHeading + b.review
    ensures b.SuggestedReplyText? ==> r == ReplyHeading + b.reply
    ensures b.ConfirmDraft? ==> |r| >= |b.draft| && r[|r| - |b.draft|..] == b.draft
  {
    match b
    case Fixed(p) => PhraseText(p)
    case ReviewText(review) => ReviewHeading + review
    case SuggestedReplyText(reply) => ReplyHeading + reply
    case ConfirmDraft(draft) =>
      var r := ConfirmQuestion + draft;
      assert r[|r| - |draft|..] == draft;
      r
    case AccountChosen(name, marketplace) =>
      "Вы выбрали кабинет *" + name + "* на *" + marketplace + "*."
    case Welcome(v, name) => WelcomeText(v, name)
    case HelpPage(v) => HelpText(v)
  }

  /**
   * The quoted text can be read back from a rendered message: dropping the
   * fixed heading gives exactly the review, the suggested reply or the
   * draft, so two messages of the same kind look the same exactly when they
   * quote the same text.
   */
  lemma QuotedTextReadsBack(b1: Body, b2: Body)
    ensures b1.ReviewText? ==> |Render(b1)| >= |ReviewHeading| && Render(b1)[|ReviewHeading|..] == b1.review
    ensures b1.SuggestedReplyText? ==> |Render(b1)| >= |ReplyHeading| && Render(b1)[|ReplyHeading|..] == b1.reply
    ensures b1.ConfirmDraft? ==> |Render(b1)| >= |ConfirmQuestion| && Render(b1)[|ConfirmQuestion|..] == b1.draft
    ensures b1.ReviewText? && b2.ReviewText? ==> (Render(b1) == Render(b2) <==> b1 == b2)
    ensures b1.SuggestedReplyText? && b2.SuggestedReplyText? ==> (Render(b1) == Render(b2) <==> b1 == b2)
    ensures b1.ConfirmDraft? && b2.ConfirmDraft? ==> (Render(b1) == Render(b2) <==> b1 == b2)
  {
    QuotedSuffix(b1);
    QuotedSuffix(b2);
  }

  lemma QuotedSuffix(b: Body)
    ensures b.ReviewText? ==> |Render(b)| >= |ReviewHeading| && Render(b)[|ReviewHeading|..] == b.review
    ensures b.SuggestedReplyText? ==> |Render(b)| >= |ReplyHeading| && Render(b)[|ReplyHeading|..] == b.reply
    ensures b.ConfirmDraft? ==> |Render(b)| >= |ConfirmQuestion| && Render(b)[|ConfirmQuestion|..] == b.draft
  {
    match b
    case ReviewText(review) => assert (ReviewHeading + review)[|ReviewHeading|..] == review;
    case SuggestedReplyText(reply) => assert (ReplyHeading + reply)[|ReplyHeading|..] == reply;
    case ConfirmDraft(draft) => assert (ConfirmQuestion + draft)[|ConfirmQuestion|..] == draft;
    case _ =>
  }
}
