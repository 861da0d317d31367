/**
 * The per-(chat, user) record the bot keeps in its in-memory storage, read with
 * `storage.get_data` and written back with `storage.update_data`.
 */
module Sessions {
  import opened Wrappers

  /** `current_mode`; an absent key and `None` both read as `Idle`. */
  datatype Mode = Idle | WaitingForCustomReply | ConfirmingReply

  /** One value per key the handlers use; `None` is an absent key or a stored `None`. */
  datatype SessionData = SessionData(
    selectedAccountId: Option<int>,
    marketplace: Option<string>,
    nextPageToken: Option<string>,
    review: Option<string>,
    reviewId: Option<int>,
    suggestedReply: Option<string>,
    customReply: Option<string>,
    mode: Mode,
    lastBotMessageId: Option<int>)

  /** The record of a user the bot has not heard from, and of a cleared one. */
  const Empty: SessionData :=
    SessionData(None, None, None, None, None, None, None, Idle, None)

  /** Python truthiness of an optional integer: present and non-zero. */
  predicate Truthy(o: Option<int>) {
    o.Some? && o.value != 0
  }

  /** Python truthiness of an optional string: present and non-empty. */
  predicate TruthyText(o: Option<string>) {
    o.Some? && o.value != ""
  }

  /** The mode invariant: a reply awaiting confirmation has a draft to confirm. */
  predicate Valid(s: SessionData) {
    s.mode == ConfirmingReply ==> s.customReply.Some?
  }

  /** The guard of `send_user_reply`: both an account and a review are known. */
  predicate CanSubmit(s: SessionData) {
    Truthy(s.selectedAccountId) && Truthy(s.reviewId)
  }

  /** The session keys, used to say which of them an event may change. */
  datatype Field =
    | SelectedAccountId | Marketplace | NextPageToken | Review | ReviewId
    | SuggestedReply | CustomReply | CurrentMode | LastBotMessageId

  const AllFields: set<Field> := {
    SelectedAccountId, Marketplace, NextPageToken, Review, ReviewId,
    SuggestedReply, CustomReply, CurrentMode, LastBotMessageId
  }

  /** `t` agrees with `s` on every key outside `fs`. */
  predicate SameExcept(s: SessionData, t: SessionData, fs: set<Field>) {
    && (SelectedAccountId !in fs ==> t.selectedAccountId == s.selectedAccountId)
    && (Marketplace !in fs ==> t.marketplace == s.marketplace)
    && (NextPageToken !in fs ==> t.nextPageToken == s.nextPageToken)
    && (Review !in fs ==> t.review == s.review)
    && (ReviewId !in fs ==> t.reviewId == s.reviewId)
    && (SuggestedReply !in fs ==> t.suggestedReply == s.suggestedReply)
    && (CustomReply !in fs ==> t.customReply == s.customReply)
    && (CurrentMode !in fs ==> t.mode == s.mode)
    && (LastBotMessageId !in fs ==> t.lastBotMessageId == s.lastBotMessageId)
  }

  /** Agreeing outside no key at all is equality. */
  lemma SameExceptNothing(s: SessionData, t: SessionData)
    requires SameExcept(s, t, {})
    ensures s == t
  {
  }
}
