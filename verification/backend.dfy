/**
 * The decision and text-building logic of the FastAPI backend (main.py),
 * with every database query and remote answer passed in as data: the
 * review text and the product probe of `get_last_review_yandex`, the
 * `/get_review` endpoint that wraps it, the prompt and fallback of
 * `generate_reply_to_review`, the validation of `/send_reply`, the comment
 * submission to Yandex Market, and `/is_authorized`.
 */
module Backend {
  import opened Wrappers
  import opened Text
  import opened Sessions
  import opened Io

  // ------------------------------------------------------------ database rows

  datatype User = User(id: int, telegramId: int, name: Option<string>, companyId: Option<int>)

  datatype Account = Account(
    id: int,
    userId: int,
    marketplace: string,
    accountName: string,
    apiKey: string,
    businessId: Option<string>)

  datatype Campaign = Campaign(accountId: int, campaignId: int, placementType: Option<string>)

  /** The three tables the endpoints query, each in the order the query returns it. */
  datatype Db = Db(users: seq<User>, accounts: seq<Account>, campaigns: seq<Campaign>)

  const YandexMarket: string := "Яндекс.Маркет"

  /** `query(User).filter(telegram_id == …).first()` */
  function FindUser(users: seq<User>, telegramId: int): (u: Option<User>)
    ensures u.None? <==> forall i :: 0 <= i < |users| ==> users[i].telegramId != telegramId
    ensures u.Some? ==> exists i :: 0 <= i < |users| && users[i] == u.value && users[i].telegramId == telegramId
                                    && forall j :: 0 <= j < i ==> users[j].telegramId != telegramId
  {
    if users == [] then None
    else if users[0].telegramId == telegramId then Some(users[0])
    else
      var u := FindUser(users[1..], telegramId);
      assert forall i :: 1 <= i < |users| ==> users[i] == users[1..][i - 1];
      if u.Some? then
        ghost var i :| 0 <= i < |users[1..]| && users[1..][i] == u.value && users[1..][i].telegramId == telegramId
                       && forall j :: 0 <= j < i ==> users[1..][j].telegramId != telegramId;
        assert users[i + 1] == users[1..][i];
        u
      else u
  }

  /** `query(MarketplaceAccount).filter(id == …, user_id == …).first()` */
  function FindAccountOf(accounts: seq<Account>, accountId: int, userId: int): (a: Option<Account>)
    ensures a.Some? ==> a.value in accounts && a.value.id == accountId && a.value.userId == userId
    ensures a.None? <==> forall i :: 0 <= i < |accounts| ==> !(accounts[i].id == accountId && accounts[i].userId == userId)
  {
    if accounts == [] then None
    else if accounts[0].id == accountId && accounts[0].userId == userId then Some(accounts[0])
    else
      assert forall i :: 1 <= i < |accounts| ==> accounts[i] == accounts[1..][i - 1];
      FindAccountOf(accounts[1..], accountId, userId)
  }

  /** `query(Campaign).filter(marketplace_account_id == …).all()` */
  function CampaignsOf(campaigns: seq<Campaign>, accountId: int): (r: seq<Campaign>)
    ensures forall c :: c in r <==> c in campaigns && c.accountId == accountId
  {
    if campaigns == [] then []
    else (if campaigns[0].accountId == accountId then [campaigns[0]] else []) + CampaignsOf(campaigns[1..], accountId)
  }

  /**
   * The query keeps the table's order and repeats: it distributes over
   * concatenation and keeps a single campaign exactly when it belongs to the
   * account, so the probe asks the campaigns in table order.
   */
  lemma {:induction false} CampaignsOfKeepsOrder(a: seq<Campaign>, b: seq<Campaign>, accountId: int)
    ensures CampaignsOf(a + b, accountId) == CampaignsOf(a, accountId) + CampaignsOf(b, accountId)
    ensures forall c :: CampaignsOf([c], accountId) == (if c.accountId == accountId then [c] else [])
  {
    CampaignsOfAppend(a, b, accountId);
    forall c ensures CampaignsOf([c], accountId) == (if c.accountId == accountId then [c] else []) {
      assert [c][1..] == [];
    }
  }

  lemma {:induction false} CampaignsOfAppend(a: seq<Campaign>, b: seq<Campaign>, accountId: int)
    ensures CampaignsOf(a + b, accountId) == CampaignsOf(a, accountId) + CampaignsOf(b, accountId)
  {
    if a == [] {
      assert a + b == b;
    } else {
      var x, rest := a[0], a[1..];
      assert (a + b)[0] == x && (a + b)[1..] == rest + b;
      CampaignsOfAppend(rest, b, accountId);
      var head := if x.accountId == accountId then [x] else [];
      var left, right := CampaignsOf(rest, accountId), CampaignsOf(b, accountId);
      assert CampaignsOf(a + b, accountId) == head + CampaignsOf(rest + b, accountId);
      assert head + (left + right) == (head + left) + right;
    }
  }

  // ------------------------------------------------------------ /is_authorized

  /**
   * `/is_authorized`: the first user with this Telegram id is authorized
   * when it has a non-empty name and a non-zero company. Both branches on
   * the user's accounts answer the same.
   */
  function IsAuthorized(db: Db, telegramId: int): (ok: bool)
    ensures ok ==> exists i :: 0 <= i < |db.users| && db.users[i].telegramId == telegramId
                              && TruthyText(db.users[i].name) && Truthy(db.users[i].companyId)
    ensures (forall i :: 0 <= i < |db.users| ==> db.users[i].telegramId != telegramId) ==> !ok
  {
    match FindUser(db.users, telegramId)
    case None => false
    case Some(user) =>
      if !TruthyText(user.name) || !Truthy(user.companyId) then false
      else
        var hasAccounts := exists a :: a in db.accounts && a.userId == user.id;
        if hasAccounts then true else true
  }

  /** `telegram_id` is a unique column. */
  predicate UniqueTelegramIds(users: seq<User>) {
    forall i, j :: 0 <= i < j < |users| ==> users[i].telegramId != users[j].telegramId
  }

  /**
   * With unique Telegram ids, a user is authorized exactly when the
   * database holds a user with that id, a non-empty name and a company.
   */
  lemma AuthorizedIffNamedWithCompany(db: Db, telegramId: int)
    requires UniqueTelegramIds(db.users)
    ensures IsAuthorized(db, telegramId) <==>
      exists i :: 0 <= i < |db.users| && db.users[i].telegramId == telegramId
                  && TruthyText(db.users[i].name) && Truthy(db.users[i].companyId)
  {
    if exists i :: 0 <= i < |db.users| && db.users[i].telegramId == telegramId
                   && TruthyText(db.users[i].name) && Truthy(db.users[i].companyId) {
      var i :| 0 <= i < |db.users| && db.users[i].telegramId == telegramId
               && TruthyText(db.users[i].name) && Truthy(db.users[i].companyId);
      var u := FindUser(db.users, telegramId);
      var k :| 0 <= k < |db.users| && db.users[k] == u.value && db.users[k].telegramId == telegramId
               && forall j :: 0 <= j < k ==> db.users[j].telegramId != telegramId;
      assert k == i;
    }
  }

  /** Authorization does not depend on the marketplace accounts. */
  lemma AuthorizationIgnoresAccounts(db: Db, accounts: seq<Account>, telegramId: int)
    ensures IsAuthorized(db.(accounts := accounts), telegramId) == IsAuthorized(db, telegramId)
  {
  }

  // ------------------------------------------------------------ get_item_info_yandex and the campaign probe

  datatype OrderItem = OrderItem(offerId: Option<string>, offerName: Option<string>)

  /** `GET /campaigns/{campaignId}/orders/{orderId}`: status and `order.items`. */
  datatype OrderResponse = OrderResponse(status: int, items: seq<OrderItem>)

  /**
   * `get_item_info_yandex`: the first item's offer id and name for a 200
   * answer with items, and (None, None) in every other case.
   */
  function ItemInfo(resp: OrderResponse): (r: (Option<string>, Option<string>))
    ensures resp.status == 200 && resp.items != [] ==> r == (resp.items[0].offerId, resp.items[0].offerName)
    ensures resp.status != 200 || resp.items == [] ==> r == (None, None)
  {
    if resp.status == 200 && resp.items != [] then (resp.items[0].offerId, resp.items[0].offerName)
    else (None, None)
  }

  /** The product the probe settles on, and the placement of the campaign that knew it. */
  datatype Product = Product(offerId: string, offerName: string, placementType: Option<string>)

  /** Whether a campaign's order lookup gives a truthy offer id and name. */
  predicate Knows(c: Campaign, orderId: int, orders: (int, int) -> OrderResponse) {
    var info := ItemInfo(orders(c.campaignId, orderId));
    TruthyText(info.0) && TruthyText(info.1)
  }

  function ProductFrom(c: Campaign, orderId: int, orders: (int, int) -> OrderResponse): Product
    requires Knows(c, orderId, orders)
  {
    var info := ItemInfo(orders(c.campaignId, orderId));
    Product(info.0.value, info.1.value, c.placementType)
  }

  /**
   * The campaign loop of `get_last_review_yandex`: campaigns are asked in
   * order and the first whose lookup gives both an offer id and a name
   * supplies the product and the placement; none means no product.
   */
  function Probe(campaigns: seq<Campaign>, orderId: int, orders: (int, int) -> OrderResponse): (p: Option<Product>)
    ensures p.None? <==> forall i :: 0 <= i < |campaigns| ==> !Knows(campaigns[i], orderId, orders)
    ensures p.Some? ==> exists i :: 0 <= i < |campaigns| && Knows(campaigns[i], orderId, orders)
                                    && p.value == ProductFrom(campaigns[i], orderId, orders)
                                    && forall j :: 0 <= j < i ==> !Knows(campaigns[j], orderId, orders)
  {
    if campaigns == [] then None
    else if Knows(campaigns[0], orderId, orders) then Some(ProductFrom(campaigns[0], orderId, orders))
    else
      var p := Probe(campaigns[1..], orderId, orders);
      assert forall i :: 1 <= i < |campaigns| ==> campaigns[i] == campaigns[1..][i - 1];
      if p.Some? then
        ghost var i :| 0 <= i < |campaigns[1..]| && Knows(campaigns[1..][i], orderId, orders)
                       && p.value == ProductFrom(campaigns[1..][i], orderId, orders)
                       && forall j :: 0 <= j < i ==> !Knows(campaigns[1..][j], orderId, orders);
        assert campaigns[i + 1] == campaigns[1..][i];
        p
      else p
  }

  /**
   * `get_item_info_yandex` feeds the probe: when every campaign's order
   * lookup fails or lists no items, no product is found and the review
   * text is the bare feedback text.
   */
  lemma NoItemsNoProduct(account: Account, page: FeedbackPage, f: Feedback, date: string,
                         campaigns: seq<Campaign>, orderId: int, orders: (int, int) -> OrderResponse)
    requires forall i :: 0 <= i < |campaigns| ==>
      orders(campaigns[i].campaignId, orderId).status != 200 || orders(campaigns[i].campaignId, orderId).items == []
    ensures Probe(campaigns, orderId, orders) == None
    ensures Assemble(account, page, f, date, Probe(campaigns, orderId, orders)).text == FeedbackBody(f, date)
  {
    forall i | 0 <= i < |campaigns| ensures !Knows(campaigns[i], orderId, orders) {
      assert ItemInfo(orders(campaigns[i].campaignId, orderId)) == (None, None);
    }
  }

  /**
   * A first campaign whose lookup answers 200 with a first item carrying a
   * non-empty offer id and name supplies the product, with its own placement.
   */
  lemma FirstItemNamesProduct(campaigns: seq<Campaign>, orderId: int, orders: (int, int) -> OrderResponse)
    requires campaigns != []
    requires var resp := orders(campaigns[0].campaignId, orderId);
      resp.status == 200 && resp.items != [] && TruthyText(resp.items[0].offerId) && TruthyText(resp.items[0].offerName)
    ensures var item := orders(campaigns[0].campaignId, orderId).items[0];
      Probe(campaigns, orderId, orders) == Some(Product(item.offerId.value, item.offerName.value, campaigns[0].placementType))
  {
    assert Knows(campaigns[0], orderId, orders);
  }

  /** The loop breaks at its first match: campaigns after it are never consulted. */
  lemma {:induction false} ProbeStopsAtFirstMatch(cs: seq<Campaign>, more: seq<Campaign>, orderId: int, orders: (int, int) -> OrderResponse)
    requires Probe(cs, orderId, orders).Some?
    ensures Probe(cs + more, orderId, orders) == Probe(cs, orderId, orders)
  {
    if !Knows(cs[0], orderId, orders) {
      assert (cs + more)[1..] == cs[1..] + more;
      ProbeStopsAtFirstMatch(cs[1..], more, orderId, orders);
    }
  }

  // ------------------------------------------------------------ the review text

  const ReviewPlusHeading: string := "Плюсы:\n"
  const ReviewMinusHeading: string := "Минусы:\n"
  const ReviewCommentHeading: string := "Комментарий:\n"

  /** The author-and-date line and the rating line that open every review text. */
  function ReviewHeader(author: string, date: string, rating: string): string {
    "Отзыв от " + author + " (" + date + "):\n" + "Оценка: " + rating + "/5" + "\n\n"
  }

  /** A section is present only for a non-empty field. */
  function Section(heading: string, text: string, tail: string): (r: string)
    ensures text == "" <==> r == ""
    ensures text != "" ==> r == heading + text + tail && EndsWith(r, tail)
  {
    if text == "" then "" else ConcatParts(heading + text, tail); heading + text + tail
  }

  /** One optional section of a text: a heading, a field and what follows the field. */
  datatype Part = Part(heading: string, field: string, tail: string)

  /** The parts whose field is non-empty, in their order. */
  function Present(ps: seq<Part>): seq<Part> {
    if ps == [] then [] else (if ps[0].field == "" then [] else [ps[0]]) + Present(ps[1..])
  }

  /** The parts written one after another, each as heading, field and tail. */
  function Layout(ps: seq<Part>): string {
    if ps == [] then "" else ps[0].heading + ps[0].field + ps[0].tail + Layout(ps[1..])
  }

  lemma PresentCons(p: Part, rest: seq<Part>)
    ensures Layout(Present([p] + rest)) == Section(p.heading, p.field, p.tail) + Layout(Present(rest))
  {
    assert ([p] + rest)[0] == p && ([p] + rest)[1..] == rest;
    if p.field == "" {
      assert Present([p] + rest) == [] + Present(rest) == Present(rest);
      assert Section(p.heading, p.field, p.tail) == "";
    } else {
      var q := Present(rest);
      assert Present([p] + rest) == [p] + q;
      assert ([p] + q)[0] == p && ([p] + q)[1..] == q;
    }
  }

  /** Three optional sections laid out in order are the three `Section`s concatenated. */
  lemma ThreeSections(a: Part, b: Part, c: Part)
    ensures Layout(Present([a, b, c])) ==
      Section(a.heading, a.field, a.tail) + (Section(b.heading, b.field, b.tail) + Section(c.heading, c.field, c.tail))
  {
    assert [a, b, c] == [a] + [b, c] && [b, c] == [b] + [c] && [c] == [c] + [];
    PresentCons(a, [b, c]);
    PresentCons(b, [c]);
    PresentCons(c, []);
  }

  /** The sections of a review text, in the order they are written. */
  function ReviewParts(pros: string, cons: string, comment: string): seq<Part> {
    [Part(ReviewPlusHeading, pros, "\n\n"), Part(ReviewMinusHeading, cons, "\n\n"), Part(ReviewCommentHeading, comment, "")]
  }

  /**
   * The review text without the product block: the header, then the
   * "Плюсы", "Минусы" and "Комментарий" sections, each only when its field
   * is non-empty, in that order.
   */
  function ReviewBody(author: string, date: string, rating: string, pros: string, cons: string, comment: string): (r: string)
    ensures StartsWith(r, ReviewHeader(author, date, rating))
    ensures pros == "" && cons == "" && comment == "" ==> r == ReviewHeader(author, date, rating)
    ensures pros != "" ==> StartsWith(r[|ReviewHeader(author, date, rating)|..], ReviewPlusHeading + pros + "\n\n")
    ensures pros == "" && cons != "" ==>
      StartsWith(r[|ReviewHeader(author, date, rating)|..], ReviewMinusHeading + cons + "\n\n")
    ensures pros == "" && cons == "" && comment != "" ==>
      r[|ReviewHeader(author, date, rating)|..] == ReviewCommentHeading + comment
    ensures comment != "" ==> EndsWith(r, ReviewCommentHeading + comment)
    ensures comment == "" ==> EndsWith(r, "\n\n")
    ensures r == ReviewHeader(author, date, rating) + Layout(Present(ReviewParts(pros, cons, comment)))
  {
    var header := ReviewHeader(author, date, rating);
    var plus := Section(ReviewPlusHeading, pros, "\n\n");
    var minus := Section(ReviewMinusHeading, cons, "\n\n");
    var last := Section(ReviewCommentHeading, comment, "");
    var r := header + (plus + (minus + last));
    ThreeSections(ReviewParts(pros, cons, comment)[0], ReviewParts(pros, cons, comment)[1], ReviewParts(pros, cons, comment)[2]);
    FourPartsOpening(header, plus, minus, last);
    FourPartsClosing(header, plus, minus, last);
    ConcatParts("Отзыв от " + author + " (" + date + "):\n" + "Оценка: " + rating + "/5", "\n\n");
    if comment == "" && cons != "" then EndsWithTrans(r, minus, "\n\n"); r
    else if comment == "" && pros != "" then EndsWithTrans(r, plus, "\n\n"); r
    else r
  }


  /** The product block appended after a successful probe. */
  function ProductBlock(p: Product, orderId: int): (r: string)
    ensures StartsWith(r, "\n\nТовар: " + p.offerName + " (SKU: " + p.offerId + ")\nЗаказ №" + IntToString(orderId))
    ensures TruthyText(p.placementType) <==>
      (EndsWith(r, "\nМодель работы: " + p.placementType.GetOr("")) && p.placementType.GetOr("") != "")
    ensures |r| == |"\n\nТовар: " + p.offerName + " (SKU: " + p.offerId + ")\nЗаказ №" + IntToString(orderId)|
      + (if TruthyText(p.placementType) then |"\nМодель работы: "| + |p.placementType.value| else 0)
  {
    var head := "\n\nТовар: " + p.offerName + " (SKU: " + p.offerId + ")\nЗаказ №" + IntToString(orderId);
    if TruthyText(p.placementType) then
      var r := head + "\nМодель работы: " + p.placementType.value;
      assert r[|r| - |"\nМодель работы: " + p.placementType.value|..] == "\nМодель работы: " + p.placementType.value;
      r
    else head
  }

  // ------------------------------------------------------------ get_last_review_yandex

  /** The fields of one goods-feedback entry; `None` is a key missing from the JSON. */
  datatype Feedback = Feedback(
    feedbackId: Option<int>,
    author: Option<string>,
    advantages: Option<string>,
    disadvantages: Option<string>,
    comment: Option<string>,
    createdAt: Option<string>,
    rating: Option<int>,
    photos: seq<string>,
    orderId: Option<int>)

  /** The goods-feedback answer: status, raw body, feedbacks and the paging cursor. */
  datatype FeedbackPage = FeedbackPage(status: int, body: string, feedbacks: seq<Feedback>, nextPageToken: Option<string>)

  /** What `get_last_review_yandex` hands to the reply generator. */
  datatype ShortData = ShortData(
    author: string,
    advantages: string,
    disadvantages: string,
    comment: string,
    productName: Option<string>,
    photos: seq<string>,
    sellerName: string)

  /**
   * The outcomes of `get_last_review_yandex`: one of its three early exits
   * (a message and two `None`s), an exception, or the full four-part answer.
   */
  datatype LastReview =
    | EarlyExit(message: string)
    | Crashed
    | Found(text: string, reviewId: Option<int>, nextPageToken: Option<string>, shortData: ShortData)

  /**
   * The answers `get_last_review_yandex` and `generate_reply_to_review`
   * receive: the feedback page, the order lookup per (campaign, order),
   * `format_yandex_date` (`None` when it raises), and the completion model
   * as a function of the messages it is shown.
   */
  datatype Remote = Remote(
    page: FeedbackPage,
    orders: (int, int) -> OrderResponse,
    formatDate: string -> Option<string>,
    model: seq<ChatMessage> -> Completion)

  const NoBusinessIdMessage: string := "Ошибка: business_id не найден"
  const NoFeedbackMessage: string := "Нет доступных отзывов."


  /** The three early exits, in the order the function checks them. */
  function EarlyExitOf(account: Account, page: FeedbackPage): (m: Option<string>)
    ensures !TruthyText(account.businessId) ==> m == Some(NoBusinessIdMessage)
    ensures TruthyText(account.businessId) && page.status != 200 ==>
      m == Some("Ошибка при получении отзыва: " + IntToString(page.status) + ", " + page.body)
    ensures TruthyText(account.businessId) && page.status == 200 ==> (m.Some? <==> page.feedbacks == [])
    ensures TruthyText(account.businessId) && page.status == 200 && page.feedbacks == [] ==> m == Some(NoFeedbackMessage)
    ensures m == Some(NoFeedbackMessage) <==> TruthyText(account.businessId) && page.status == 200 && page.feedbacks == []
  {
    if !TruthyText(account.businessId) then Some(NoBusinessIdMessage)
    else if page.status != 200 then
      var m := "Ошибка при получении отзыва: " + IntToString(page.status) + ", " + page.body;
      assert m[0] != NoFeedbackMessage[0];
      Some(m)
    else if page.feedbacks == [] then Some(NoFeedbackMessage)
    else None
  }

  /** The review text of feedback `f` without the product block, with the defaults for missing keys. */
  function FeedbackBody(f: Feedback, date: string): string {
    ReviewBody(f.author.GetOr("Неизвестный автор"), date,
               if f.rating.Some? then IntToString(f.rating.value) else "Нет оценки",
               f.advantages.GetOr(""), f.disadvantages.GetOr(""), f.comment.GetOr(""))
  }

  /** The four-part answer for feedback `f`, given the formatted date and the probe's product. */
  function Assemble(account: Account, page: FeedbackPage, f: Feedback, date: string, product: Option<Product>): (r: LastReview)
    ensures r.Found? && r.reviewId == f.feedbackId && r.nextPageToken == page.nextPageToken
    ensures r.shortData.productName == (if product.Some? then Some(product.value.offerName) else None)
    ensures r.shortData.sellerName == account.accountName && r.shortData.photos == f.photos
    ensures r.shortData.author == f.author.GetOr("Неизвестный автор")
    ensures r.shortData.advantages == f.advantages.GetOr("") && r.shortData.disadvantages == f.disadvantages.GetOr("")
    ensures r.shortData.comment == f.comment.GetOr("")
    ensures StartsWith(r.text, FeedbackBody(f, date)) && (product.None? <==> r.text == FeedbackBody(f, date))
    ensures product.Some? ==> r.text == FeedbackBody(f, date) + ProductBlock(product.value, f.orderId.GetOr(0))
  {
    var author := f.author.GetOr("Неизвестный автор");
    var rating := if f.rating.Some? then IntToString(f.rating.value) else "Нет оценки";
    var pros := f.advantages.GetOr("");
    var cons := f.disadvantages.GetOr("");
    var comment := f.comment.GetOr("");
    var body := FeedbackBody(f, date);
    var block := if product.Some? then ProductBlock(product.value, f.orderId.GetOr(0)) else "";
    assert product.Some? ==> |block| > 0 by {
      if product.Some? { assert StartsWith(block, "\n\nТовар: "); }
    }
    assert (body + block)[..|body|] == body;
    Found(body + block, f.feedbackId,
          page.nextPageToken,
          ShortData(author, pros, cons, comment,
                    if product.Some? then Some(product.value.offerName) else None,
                    f.photos, account.accountName))
  }

  /**
   * `get_last_review_yandex` as written. After the early exits it formats
   * the first feedback; the product probe runs only for a truthy order id,
   * and without one `offer_name` is never bound, so building `short_data`
   * raises (main.py:575-583).
   */
  function LastReviewYandex(account: Account, campaigns: seq<Campaign>, remote: Remote): (r: LastReview)
    ensures EarlyExitOf(account, remote.page).Some? ==> r == EarlyExit(EarlyExitOf(account, remote.page).value)
    ensures EarlyExitOf(account, remote.page).None? && !Truthy(remote.page.feedbacks[0].orderId) ==> r == Crashed
    ensures r.Found? ==>
      Truthy(remote.page.feedbacks[0].orderId) && r == LastReviewYandexIntended(account, campaigns, remote)
    ensures EarlyExitOf(account, remote.page).None? && Truthy(remote.page.feedbacks[0].orderId) ==>
      r == LastReviewYandexIntended(account, campaigns, remote)
  {
    match EarlyExitOf(account, remote.page)
    case Some(message) => EarlyExit(message)
    case None =>
      var f := remote.page.feedbacks[0];
      match remote.formatDate(f.createdAt.GetOr(""))
      case None => Crashed
      case Some(date) =>
        if !Truthy(f.orderId) then Crashed
        else Assemble(account, remote.page, f, date, Probe(CampaignsOf(campaigns, account.id), f.orderId.value, remote.orders))
  }

  /**
   * `get_last_review_yandex` with `offer_name` bound before the order-id
   * test: a feedback without an order gets no product block and no product
   * name.
   */
  function LastReviewYandexIntended(account: Account, campaigns: seq<Campaign>, remote: Remote): (r: LastReview)
    ensures EarlyExitOf(account, remote.page).Some? ==> r == EarlyExit(EarlyExitOf(account, remote.page).value)
    ensures EarlyExitOf(account, remote.page).None? ==>
      (r.Crashed? <==> remote.formatDate(remote.page.feedbacks[0].createdAt.GetOr("")).None?)
    ensures EarlyExitOf(account, remote.page).None? && remote.formatDate(remote.page.feedbacks[0].createdAt.GetOr("")).Some? ==>
      var f := remote.page.feedbacks[0];
      var date := remote.formatDate(f.createdAt.GetOr("")).value;
      && r.Found? && r.reviewId == f.feedbackId && r.nextPageToken == remote.page.nextPageToken
      && StartsWith(r.text, FeedbackBody(f, date))
      && r.shortData.author == f.author.GetOr("Неизвестный автор") && r.shortData.photos == f.photos
    ensures r.Found? && !Truthy(remote.page.feedbacks[0].orderId) ==> r.shortData.productName == None
    ensures r.Found? && Truthy(remote.page.feedbacks[0].orderId) ==>
      var p := Probe(CampaignsOf(campaigns, account.id), remote.page.feedbacks[0].orderId.value, remote.orders);
      r.shortData.productName == (if p.Some? then Some(p.value.offerName) else None)
  {
    match EarlyExitOf(account, remote.page)
    case Some(message) => EarlyExit(message)
    case None =>
      var f := remote.page.feedbacks[0];
      match remote.formatDate(f.createdAt.GetOr(""))
      case None => Crashed
      case Some(date) =>
        var product := if Truthy(f.orderId) then Probe(CampaignsOf(campaigns, account.id), f.orderId.value, remote.orders) else None;
        Assemble(account, remote.page, f, date, product)
  }

  // ------------------------------------------------------------ generate_reply_to_review

  /** The completion call: it raised, or it returned message content (`None` for JSON null). */
  datatype Completion = CompletionFailed | CompletionReturned(content: Option<string>)

  const ReplyFallback: string := "Не удалось сгенерировать ответ на отзыв."

  const SystemPrompt: string :=
    "Ты эксперт по управлению репутацией брендов. Ты пишешь ответы на отзывы клиентов продавца на маркетплейсах. "
    + "Ответы должны акцентировать внимание на положительных качествах товара, развивая их и минимизируя негатив, "
    + "предлагая альтернативы. Все для укрепления доверия потенциальных покупателей."

  const Instruction: string := "Сгенерируй вежливый и профессиональный ответ на отзыв клиента, не более 280 символов."

  /** Python `x or default` on an optional string. */
  function OrElse(x: Option<string>, default: string): (r: string)
    ensures TruthyText(x) ==> r == x.value
    ensures !TruthyText(x) ==> r == default
  {
    if TruthyText(x) then x.value else default
  }

  /** The first line of the prompt, with the defaults for a missing author, product or seller. */
  function PromptHeader(d: ShortData): string {
    "Отзыв от " + OrElse(Some(d.author), "Неизвестно")
    + " о товаре '" + OrElse(d.productName, "неизвестный товар")
    + "' у продавца '" + OrElse(Some(d.sellerName), "неизвестном продавце") + "':\n"
  }

  /** The lines of the prompt after its header, in the order they are written. */
  function PromptParts(d: ShortData): seq<Part> {
    [Part("Плюсы: ", d.advantages, "\n"), Part("Минусы: ", d.disadvantages, "\n"), Part("Комментарий: ", d.comment, "\n")]
  }

  /**
   * The user prompt: the header line, then one line each for pros, cons
   * and comment, only when non-empty, in that order.
   */
  function UserPrompt(d: ShortData): (r: string)
    ensures StartsWith(r, PromptHeader(d))
    ensures d.advantages == "" && d.disadvantages == "" && d.comment == "" ==> r == PromptHeader(d)
    ensures d.advantages != "" ==> StartsWith(r[|PromptHeader(d)|..], "Плюсы: " + d.advantages + "\n")
    ensures d.comment != "" ==> EndsWith(r, "Комментарий: " + d.comment + "\n")
    ensures r == PromptHeader(d) + Layout(Present(PromptParts(d)))
  {
    var header := PromptHeader(d);
    var plus := Section("Плюсы: ", d.advantages, "\n");
    var minus := Section("Минусы: ", d.disadvantages, "\n");
    var last := Section("Комментарий: ", d.comment, "\n");
    ThreeSections(PromptParts(d)[0], PromptParts(d)[1], PromptParts(d)[2]);
    FourPartsOpening(header, plus, minus, last);
    FourPartsClosing(header, plus, minus, last);
    header + (plus + (minus + last))
  }


  datatype ChatMessage = ChatMessage(role: string, content: string)

  /** The two messages sent to the completion model: the fixed system role and the prompt with the instruction. */
  function CompletionMessages(d: ShortData): (ms: seq<ChatMessage>)
    ensures |ms| == 2 && ms[0] == ChatMessage("system", SystemPrompt) && ms[1].role == "user"
    ensures StartsWith(ms[1].content, UserPrompt(d)) && EndsWith(ms[1].content, Instruction)
    ensures |ms[1].content| == |UserPrompt(d)| + 1 + |Instruction| && ms[1].content[|UserPrompt(d)|] == '\n'
  {
    var content := UserPrompt(d) + "\n" + Instruction;
    ThreeParts(UserPrompt(d), "\n", Instruction);
    [ChatMessage("system", SystemPrompt), ChatMessage("user", content)]
  }

  /**
   * `generate_reply_to_review`: the model is shown `CompletionMessages(d)`;
   * the reply is the stripped content it returns, or the fixed fallback when
   * the call raises (including `.strip()` on a null content). Either way the
   * reply has no surrounding whitespace.
   */
  function GenerateReply(d: ShortData, model: seq<ChatMessage> -> Completion): (reply: string)
    ensures var c := model(CompletionMessages(d));
      c.CompletionReturned? && c.content.Some? ==> reply == Strip(c.content.value)
    ensures var c := model(CompletionMessages(d));
      !(c.CompletionReturned? && c.content.Some?) ==> reply == ReplyFallback
    ensures Strip(reply) == reply
  {
    match model(CompletionMessages(d))
    case CompletionReturned(Some(content)) => StripIdempotent(content); Strip(content)
    case _ => FallbackIsStripped(); ReplyFallback
  }

  /** The fallback has no surrounding whitespace. */
  lemma FallbackIsStripped()
    ensures Strip(ReplyFallback) == ReplyFallback
  {
    assert ReplyFallback[0] !in PySpaces;
    assert TrimLeft(ReplyFallback) == ReplyFallback;
    assert ReplyFallback[|ReplyFallback| - 1] !in PySpaces;
  }

  /**
   * The reply depends on the review only through the messages the model is
   * shown: two reviews with the same prompt get the same reply.
   */
  lemma ReplyFollowsPrompt(d1: ShortData, d2: ShortData, model: seq<ChatMessage> -> Completion)
    requires UserPrompt(d1) == UserPrompt(d2)
    ensures GenerateReply(d1, model) == GenerateReply(d2, model)
  {
    assert CompletionMessages(d1) == CompletionMessages(d2);
  }

  // ------------------------------------------------------------ /get_review

  /** The user is known, the account is theirs and it is on Yandex Market. */
  predicate ReachesYandex(db: Db, telegramId: int, accountId: int) {
    && FindUser(db.users, telegramId).Some?
    && var account := FindAccountOf(db.accounts, accountId, FindUser(db.users, telegramId).value.id);
    && account.Some? && account.value.marketplace == YandexMarket
  }

  /** The account `/get_review` and `/send_reply` settle on when `ReachesYandex` holds. */
  function AccountOf(db: Db, telegramId: int, accountId: int): (a: Account)
    requires ReachesYandex(db, telegramId, accountId)
    ensures a.id == accountId && a.marketplace == YandexMarket
  {
    FindAccountOf(db.accounts, accountId, FindUser(db.users, telegramId).value.id).value
  }

  /** An error answer as the bot reads it: only the status matters. */
  function ErrorAnswer(status: int): (r: ReviewResponse)
    ensures r.status == status && r.reviewId == None
  {
    ReviewResponse(status, "", "", None, None, [])
  }

  /** The answer built from a four-part result: a reply is generated only for a truthy review id. */
  function Answer(found: LastReview, model: seq<ChatMessage> -> Completion): (r: ReviewResponse)
    requires found.Found?
    ensures r.status == 200 && r.review == found.text && r.reviewId == found.reviewId
    ensures r.nextPageToken == found.nextPageToken && r.photos == found.shortData.photos
    ensures Truthy(found.reviewId) ==> r.reply == GenerateReply(found.shortData, model)
    ensures !Truthy(found.reviewId) ==> r.reply == ""
  {
    ReviewResponse(200, found.text, if Truthy(found.reviewId) then GenerateReply(found.shortData, model) else "",
                   found.reviewId, found.nextPageToken, found.shortData.photos)
  }

  /**
   * `/get_review` as written. An unknown user, an account that is not the
   * user's and a marketplace other than Yandex Market are 400s. The three
   * early exits of `get_last_review_yandex` return three values where four
   * are unpacked (main.py:437,442), so they end as a 500, like any
   * exception inside it.
   */
  function GetReviewAnswer(db: Db, telegramId: int, accountId: int, remote: Remote): (r: ReviewResponse)
    ensures FindUser(db.users, telegramId).None? ==> r.status == 400
    ensures r.status == 200 ==>
      && FindUser(db.users, telegramId).Some?
      && var account := FindAccountOf(db.accounts, accountId, FindUser(db.users, telegramId).value.id);
      && account.Some? && account.value.marketplace == YandexMarket
      && var found := LastReviewYandex(account.value, db.campaigns, remote);
      && found.Found? && r == Answer(found, remote.model)
    ensures FindUser(db.users, telegramId).Some? && !ReachesYandex(db, telegramId, accountId) ==> r.status == 400
    ensures ReachesYandex(db, telegramId, accountId) ==>
      var found := LastReviewYandex(AccountOf(db, telegramId, accountId), db.campaigns, remote);
      (found.Found? ==> r == Answer(found, remote.model)) && (!found.Found? ==> r.status == 500)
  {
    match FindUser(db.users, telegramId)
    case None => ErrorAnswer(400)
    case Some(user) =>
      match FindAccountOf(db.accounts, accountId, user.id)
      case None => ErrorAnswer(400)
      case Some(account) =>
        if account.marketplace != YandexMarket then ErrorAnswer(400)
        else
          match LastReviewYandex(account, db.campaigns, remote)
          case EarlyExit(_) => ErrorAnswer(500)
          case Crashed => ErrorAnswer(500)
          case Found(text, reviewId, next, short) => Answer(Found(text, reviewId, next, short), remote.model)
  }

  /**
   * `/get_review` with the early exits handled: an empty feedback list is
   * passed on as the review text with no id and no cursor, which the bot
   * reads as "no more reviews"; a missing business id and a failed Yandex
   * call stay server errors, which the bot shows as a failed fetch.
   */
  function GetReviewAnswerIntended(db: Db, telegramId: int, accountId: int, remote: Remote): (r: ReviewResponse)
    ensures FindUser(db.users, telegramId).None? ==> r.status == 400
    ensures FindUser(db.users, telegramId).Some? && !ReachesYandex(db, telegramId, accountId) ==> r.status == 400
    ensures r.status == 200 && !Truthy(r.reviewId) ==> r.reply == ""
    ensures ReachesYandex(db, telegramId, accountId) ==>
      var account := AccountOf(db, telegramId, accountId);
      var found := LastReviewYandexIntended(account, db.campaigns, remote);
      && (EarlyExitOf(account, remote.page) == Some(NoFeedbackMessage) ==>
            r == ReviewResponse(200, NoFeedbackMessage, "", None, None, []))
      && (EarlyExitOf(account, remote.page).Some? && EarlyExitOf(account, remote.page) != Some(NoFeedbackMessage) ==>
            r.status == 500)
      && (found.Crashed? ==> r.status == 500)
      && (found.Found? ==> r == Answer(found, remote.model))
  {
    match FindUser(db.users, telegramId)
    case None => ErrorAnswer(400)
    case Some(user) =>
      match FindAccountOf(db.accounts, accountId, user.id)
      case None => ErrorAnswer(400)
      case Some(account) =>
        if account.marketplace != YandexMarket then ErrorAnswer(400)
        else
          match LastReviewYandexIntended(account, db.campaigns, remote)
          case EarlyExit(message) =>
            if message == NoFeedbackMessage then ReviewResponse(200, message, "", None, None, [])
            else ErrorAnswer(500)
          case Crashed => ErrorAnswer(500)
          case Found(text, reviewId, next, short) => Answer(Found(text, reviewId, next, short), remote.model)
  }

  // ------------------------------------------------------------ /send_reply

  /** The JSON body of `/send_reply`; `None` is a missing key. */
  datatype SendReplyData = SendReplyData(telegramId: Option<int>, accountId: Option<int>, reply: Option<string>, reviewId: Option<int>)

  /** `all([telegram_id, account_id, reply, review_id])` */
  predicate Complete(data: SendReplyData) {
    Truthy(data.telegramId) && Truthy(data.accountId) && TruthyText(data.reply) && Truthy(data.reviewId)
  }

  /** The comment update posted to Yandex Market. */
  datatype CommentUpdate = CommentUpdate(businessId: string, feedbackId: int, text: string)

  datatype YandexSubmission = YandexSubmission(call: Option<CommentUpdate>, success: bool)

  /**
   * `send_reply_to_yandex_market`: without a business id it fails without
   * calling Yandex; otherwise it posts the comment for that business and
   * succeeds iff Yandex answers 200.
   */
  function SendReplyToYandexMarket(account: Account, reviewId: int, text: string, status: int): (y: YandexSubmission)
    ensures y.call.None? <==> !TruthyText(account.businessId)
    ensures y.call.Some? ==> y.call.value == CommentUpdate(account.businessId.value, reviewId, text)
    ensures y.success <==> TruthyText(account.businessId) && status == 200
  {
    if !TruthyText(account.businessId) then YandexSubmission(None, false)
    else YandexSubmission(Some(CommentUpdate(account.businessId.value, reviewId, text)), status == 200)
  }

  /** The HTTP status of a `/send_reply` answer and the Yandex call it made, if any. */
  datatype SendReplyAnswer = SendReplyAnswer(status: int, call: Option<CommentUpdate>)

  /**
   * `/send_reply`: a body missing any of the four values is a 400 before any
   * lookup; an unknown user, an account that is not the user's and a
   * marketplace other than Yandex Market are 400s; a Yandex account is
   * submitted, 200 on success and 500 otherwise.
   */
  function SendReply(db: Db, data: SendReplyData, commentStatus: int): (r: SendReplyAnswer)
    ensures !Complete(data) ==> r == SendReplyAnswer(400, None)
    ensures r.call.Some? ==>
      && Complete(data)
      && FindUser(db.users, data.telegramId.value).Some?
      && var account := FindAccountOf(db.accounts, data.accountId.value, FindUser(db.users, data.telegramId.value).value.id);
      && account.Some? && account.value.marketplace == YandexMarket
      && r.call == SendReplyToYandexMarket(account.value, data.reviewId.value, data.reply.value, commentStatus).call
    ensures r.status == 200 <==> r.call.Some? && commentStatus == 200
  {
    if !Complete(data) then SendReplyAnswer(400, None)
    else
      match FindUser(db.users, data.telegramId.value)
      case None => SendReplyAnswer(400, None)
      case Some(user) =>
        match FindAccountOf(db.accounts, data.accountId.value, user.id)
        case None => SendReplyAnswer(400, None)
        case Some(account) =>
          if account.marketplace != YandexMarket then SendReplyAnswer(400, None)
          else
            var y := SendReplyToYandexMarket(account, data.reviewId.value, data.reply.value, commentStatus);
            SendReplyAnswer(if y.success then 200 else 500, y.call)
  }

  /** Validation comes first: an incomplete body gets the same answer whatever the database holds. */
  lemma ValidationPrecedesLookup(db1: Db, db2: Db, data: SendReplyData, s1: int, s2: int)
    requires !Complete(data)
    ensures SendReply(db1, data, s1) == SendReply(db2, data, s2)
  {
  }
}
