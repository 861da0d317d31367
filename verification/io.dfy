/**
 * What crosses the bot's process boundary: the keyboards it attaches to its
 * Telegram messages, the two backend requests whose parameters come from the
 * session, and the backend's `/get_review` answer.
 */
module Io {
  import opened Wrappers

  datatype ParseMode = NoParseMode | MarkdownMode | MarkdownV2Mode

  /** An inline button carries callback data or a URL. */
  datatype Button =
    | CallbackButton(text: string, callbackData: string)
    | UrlButton(text: string, url: string)

  /**
   * A reply keyboard is rows of labels the user can tap (each tap arrives as a
   * text message); an inline keyboard (`row_width=1`) is one button per row.
   */
  datatype Keyboard =
    | NoKeyboard
    | RemoveKeyboard
    | ReplyKeyboard(rows: seq<seq<string>>)
    | InlineKeyboard(buttons: seq<Button>)

  /** The two backend calls whose parameters come from the session. */
  datatype Request =
      /** GET /get_review; `pageToken` is `None` when the parameter is left out. */
    | GetReview(accountId: int, pageToken: Option<string>)
      /** POST /send_reply; the reply is JSON `null` when the session had none. */
    | PostReply(accountId: int, reviewId: int, reply: Option<string>)

  /** The `/get_review` answer as the bot reads it (status plus JSON body). */
  datatype ReviewResponse = ReviewResponse(
    status: int,
    review: string,
    reply: string,
    reviewId: Option<int>,
    nextPageToken: Option<string>,
    photos: seq<string>)
}
