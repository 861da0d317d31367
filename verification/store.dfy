/**
 * aiogram's `MemoryStorage` as the handlers use it: one record per
 * (chat, user) pair, read whole and written back whole. An absent record
 * reads as the empty one.
 */
module Store {
  import opened Sessions
  import opened Io
  import opened Accounts
  import opened Messages
  import opened Bot

  /** (chat id, user id) */
  type Key = (int, int)

  type Storage = map<Key, SessionData>

  function Get(st: Storage, k: Key): (s: SessionData)
    ensures k in st ==> s == st[k]
    ensures k !in st ==> s == Empty
  {
    if k in st then st[k] else Empty
  }

  /**
   * Whose record an event's handler uses in the private chat of `user`. The
   * help button runs `cmd_help` on the message the bot itself sent, whose
   * sender is the bot, so that handler reads and writes (chat, bot).
   */
  function HandlerKey(user: int, botId: int, e: Event): (k: Key)
    ensures k.0 == user
    ensures k.1 == (if e.Callback? && ParseCallback(e.data).ShowHelp? then botId else user)
  {
    if e.Callback? && ParseCallback(e.data).ShowHelp? then (user, botId) else (user, user)
  }

  datatype Delivery = Delivery(storage: Storage, outputs: seq<Output>, requests: seq<Request>)

  /**
   * One update from `user` handled end to end: the record of the handler's
   * key goes through `Step` and is written back; every other record,
   * present or absent, is left exactly as it was.
   */
  function Deliver(v: Variant, st: Storage, user: int, botId: int, e: Event, env: Env): (d: Delivery)
    ensures HandlerKey(user, botId, e) in d.storage
    ensures d.storage[HandlerKey(user, botId, e)] == Step(v, Get(st, HandlerKey(user, botId, e)), e, env).session
    ensures forall k :: k != HandlerKey(user, botId, e) ==> (k in d.storage <==> k in st)
    ensures forall k :: k != HandlerKey(user, botId, e) && k in st ==> d.storage[k] == st[k]
  {
    var k := HandlerKey(user, botId, e);
    var r := Step(v, Get(st, k), e, env);
    Delivery(st[k := r.session], r.outputs, r.requests)
  }

  /**
   * Tapping "Помощь" under the welcome message leaves the user's own record
   * untouched, the last-message id included, so the help text is not the
   * message the user's next screen replaces.
   */
  lemma HelpButtonSkipsUserRecord(v: Variant, st: Storage, user: int, botId: int, env: Env)
    requires botId != user
    ensures Get(Deliver(v, st, user, botId, Callback(HelpData), env).storage, (user, user)) == Get(st, (user, user))
  {
    assert ParseCallback(HelpData).ShowHelp?;
  }

  /** An update from one user never changes another user's record. */
  lemma UsersAreIndependent(v: Variant, st: Storage, user: int, other: int, botId: int, e: Event, env: Env)
    requires other != user
    ensures Get(Deliver(v, st, user, botId, e, env).storage, (other, other)) == Get(st, (other, other))
  {
  }
}
