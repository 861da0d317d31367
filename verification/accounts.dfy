/**
 * The user's marketplace accounts as `/get_user_marketplace_accounts` lists
 * them, the inline keyboards built from them (app/bot/handlers/user.py:56-82,
 * 174-186) and the callback data those keyboards carry.
 */
module Accounts {
  import opened Wrappers
  import opened Text
  import opened Io

  datatype AccountInfo = AccountInfo(id: int, marketplace: string, accountName: string)

  // ------------------------------------------------------------ callback data

  const ChooseMarketplaceData: string := "choose_marketplace"
  const HelpData: string := "help"
  const ChooseAccountPrefix: string := "choose_account:"
  const SelectAccountPrefix: string := "select_account:"
  const SelectMarketplacePrefix: string := "select_marketplace:"

  function SelectAccountData(id: int): string {
    SelectAccountPrefix + IntToString(id)
  }

  function ChooseAccountData(marketplace: string): string {
    ChooseAccountPrefix + marketplace
  }

  /** What a callback asks for, after the handlers' prefix tests and `split(':')[1]`. */
  datatype CallbackAction =
    | ChooseMarketplace
    | ShowHelp
    | ChooseAccount(marketplace: string)
    | SelectAccount(accountId: int)
      /** `int(...)` raised `ValueError` on the id part. */
    | MalformedAccountId
    | SelectMarketplace(marketplace: string)
    | OtherCallback

  lemma PrefixHasColon(data: string, prefix: string)
    requires StartsWith(data, prefix)
    requires |prefix| >= 1 && prefix[|prefix| - 1] == ':'
    ensures ':' in data
  {
    assert data[|prefix| - 1] == prefix[|prefix| - 1];
  }

  /** No callback data carries two of the three prefixes, and neither exact value carries one. */
  lemma PrefixesExclusive(data: string)
    ensures StartsWith(data, ChooseAccountPrefix) ==>
      data != ChooseMarketplaceData && data != HelpData
      && !StartsWith(data, SelectAccountPrefix) && !StartsWith(data, SelectMarketplacePrefix)
    ensures StartsWith(data, SelectAccountPrefix) ==>
      data != ChooseMarketplaceData && data != HelpData && !StartsWith(data, SelectMarketplacePrefix)
    ensures StartsWith(data, SelectMarketplacePrefix) ==> data != ChooseMarketplaceData && data != HelpData
  {
    if StartsWith(data, ChooseAccountPrefix) {
      assert data[0] == 'c' && data[7] == 'a';
      assert ChooseMarketplaceData[7] == 'm';
    }
    if StartsWith(data, SelectAccountPrefix) {
      assert data[0] == 's' && data[7] == 'a';
    }
    if StartsWith(data, SelectMarketplacePrefix) {
      assert data[0] == 's';
    }
  }

  /**
   * The callback dispatch shared by both bots: exact data `choose_marketplace`
   * and `help`, then the `choose_account:`, `select_account:` and
   * `select_marketplace:` prefixes, each taking the second `:`-separated field.
   */
  function ParseCallback(data: string): (a: CallbackAction)
    ensures a == ChooseMarketplace <==> data == ChooseMarketplaceData
    ensures a == ShowHelp <==> data == HelpData
    ensures a.ChooseAccount? <==> StartsWith(data, ChooseAccountPrefix)
    ensures a.SelectAccount? || a.MalformedAccountId? <==> StartsWith(data, SelectAccountPrefix)
    ensures a.SelectMarketplace? <==> StartsWith(data, SelectMarketplacePrefix)
    ensures a.ChooseAccount? ==>
      |Split(data, ':')| >= 2 && a.marketplace == Split(data, ':')[1] && ':' !in a.marketplace
    ensures a.SelectAccount? ==> |Split(data, ':')| >= 2 && ParseInt(Split(data, ':')[1]) == Some(a.accountId)
    ensures a.MalformedAccountId? ==> |Split(data, ':')| >= 2 && ParseInt(Split(data, ':')[1]) == None
    ensures a.SelectMarketplace? ==> |Split(data, ':')| >= 2 && a.marketplace == Split(data, ':')[1]
    ensures a.OtherCallback? ==>
      && data != ChooseMarketplaceData && data != HelpData
      && !StartsWith(data, ChooseAccountPrefix) && !StartsWith(data, SelectAccountPrefix)
      && !StartsWith(data, SelectMarketplacePrefix)
  {
    PrefixesExclusive(data);
    if data == ChooseMarketplaceData then ChooseMarketplace
    else if data == HelpData then ShowHelp
    else if StartsWith(data, ChooseAccountPrefix) then
      PrefixHasColon(data, ChooseAccountPrefix);
      ChooseAccount(Split(data, ':')[1])
    else if StartsWith(data, SelectAccountPrefix) then
      PrefixHasColon(data, SelectAccountPrefix);
      match ParseInt(Split(data, ':')[1])
      case Some(n) => SelectAccount(n)
      case None => MalformedAccountId
    else if StartsWith(data, SelectMarketplacePrefix) then
      PrefixHasColon(data, SelectMarketplacePrefix);
      SelectMarketplace(Split(data, ':')[1])
    else OtherCallback
  }

  /** Every account id survives the trip through `select_account:<id>`. */
  lemma {:induction false} SelectAccountDataRoundTrip(id: int)
    ensures ParseCallback(SelectAccountData(id)) == SelectAccount(id)
  {
    var data, digits := SelectAccountData(id), IntToString(id);
    ConcatParts(SelectAccountPrefix, digits);
    assert !StartsWith(data, ChooseAccountPrefix) by {
      assert data[0] != ChooseAccountPrefix[0];
    }
    assert data != ChooseMarketplaceData by { assert data[0] != ChooseMarketplaceData[0]; }
    assert data != HelpData by { assert data[0] != HelpData[0]; }
    assert ':' !in SelectAccountPrefix[..|SelectAccountPrefix| - 1];
    SplitAfterPrefix(data, SelectAccountPrefix, ':');
    assert ':' !in digits;
    TakeUntilWhole(digits, ':');
    assert Split(data, ':')[1] == digits;
    ParseIntRoundTrip(id);
  }

  /**
   * `choose_account:<mp>` comes back as the same marketplace exactly when the
   * name has no `:`; otherwise `split(':')[1]` cuts it at its first colon.
   */
  lemma {:induction false} ChooseAccountDataRoundTrip(marketplace: string)
    ensures ParseCallback(ChooseAccountData(marketplace)) == ChooseAccount(marketplace)
            <==> ':' !in marketplace
    ensures ParseCallback(ChooseAccountData(marketplace)).ChooseAccount?
  {
    var data := ChooseAccountData(marketplace);
    assert StartsWith(data, ChooseAccountPrefix);
    assert data != ChooseMarketplaceData by {
      if |data| == |ChooseMarketplaceData| {
        assert data[7] != ChooseMarketplaceData[7];
      }
    }
    assert data != HelpData by { assert data[0] != HelpData[0]; }
    assert ':' !in ChooseAccountPrefix[..|ChooseAccountPrefix| - 1];
    SplitAfterPrefix(data, ChooseAccountPrefix, ':');
    assert data[|ChooseAccountPrefix|..] == marketplace;
    if ':' !in marketplace {
      TakeUntilWhole(marketplace, ':');
    } else {
      assert |TakeUntil(marketplace, ':')| < |marketplace|;
    }
  }

  // ------------------------------------------------------------ grouping

  /** The position of the first `x` in `s`. */
  function FirstIndex(s: seq<string>, x: string): (i: nat)
    requires x in s
    ensures i < |s| && s[i] == x
    ensures forall k :: 0 <= k < i ==> s[k] != x
  {
    if s[0] == x then 0 else 1 + FirstIndex(s[1..], x)
  }

  lemma FirstIndexInPrefix(s: seq<string>, n: nat, x: string)
    requires n <= |s| && x in s[..n]
    ensures FirstIndex(s, x) == FirstIndex(s[..n], x)
  {
    var i := FirstIndex(s, x);
    var j := FirstIndex(s[..n], x);
    assert s[j] == x;
    assert i <= j;
    assert i < n && s[..n][i] == x;
  }

  /**
   * The distinct elements of `s` in order of first appearance (what iterating a
   * dict filled in `s` order yields).
   */
  function Dedup(s: seq<string>): (r: seq<string>)
    ensures forall x :: x in r <==> x in s
    ensures forall i, j :: 0 <= i < j < |r| ==> r[i] != r[j]
    ensures forall i, j :: 0 <= i < j < |r| ==> FirstIndex(s, r[i]) < FirstIndex(s, r[j])
    decreases |s|
  {
    if s == [] then []
    else
      var init := s[..|s| - 1];
      var last := s[|s| - 1];
      var r0 := Dedup(init);
      assert s == init + [last];
      assert forall x :: x in r0 ==> FirstIndex(s, x) == FirstIndex(init, x) by {
        forall x | x in r0 ensures FirstIndex(s, x) == FirstIndex(init, x) {
          FirstIndexInPrefix(s, |s| - 1, x);
        }
      }
      if last in r0 then r0
      else
        assert FirstIndex(s, last) == |s| - 1;
        r0 + [last]
  }

  function MarketplaceNames(accounts: seq<AccountInfo>): (names: seq<string>)
    ensures |names| == |accounts|
    ensures forall i :: 0 <= i < |accounts| ==> names[i] == accounts[i].marketplace
  {
    seq(|accounts|, i requires 0 <= i < |accounts| => accounts[i].marketplace)
  }

  /** The marketplaces of `accounts`, each once, in order of first appearance. */
  function Marketplaces(accounts: seq<AccountInfo>): seq<string> {
    Dedup(MarketplaceNames(accounts))
  }

  /** `[acc for acc in accounts if acc['marketplace'] == marketplace]` */
  function AccountsOn(accounts: seq<AccountInfo>, marketplace: string): (r: seq<AccountInfo>)
    ensures forall a :: a in r <==> a in accounts && a.marketplace == marketplace
    ensures |r| <= |accounts|
    ensures marketplace in MarketplaceNames(accounts) ==> |r| >= 1
  {
    if accounts == [] then []
    else
      var rest := AccountsOn(accounts[1..], marketplace);
      assert forall a :: a in accounts <==> a == accounts[0] || a in accounts[1..];
      assert MarketplaceNames(accounts) == [accounts[0].marketplace] + MarketplaceNames(accounts[1..]);
      if accounts[0].marketplace == marketplace then [accounts[0]] + rest else rest
  }

  /**
   * The filter keeps the accounts' order and repeats: it distributes over
   * concatenation and keeps a single account exactly when it is on the
   * marketplace, so the account buttons follow the listing.
   */
  lemma {:induction false} AccountsOnKeepsOrder(a: seq<AccountInfo>, b: seq<AccountInfo>, marketplace: string)
    ensures AccountsOn(a + b, marketplace) == AccountsOn(a, marketplace) + AccountsOn(b, marketplace)
    ensures forall x :: AccountsOn([x], marketplace) == (if x.marketplace == marketplace then [x] else [])
  {
    AccountsOnAppend(a, b, marketplace);
    forall x ensures AccountsOn([x], marketplace) == (if x.marketplace == marketplace then [x] else []) {
      assert [x][1..] == [];
    }
  }

  lemma {:induction false} AccountsOnAppend(a: seq<AccountInfo>, b: seq<AccountInfo>, marketplace: string)
    ensures AccountsOn(a + b, marketplace) == AccountsOn(a, marketplace) + AccountsOn(b, marketplace)
  {
    if a == [] {
      assert a + b == b;
    } else {
      var x, rest := a[0], a[1..];
      assert (a + b)[0] == x && (a + b)[1..] == rest + b;
      AccountsOnAppend(rest, b, marketplace);
      var head := if x.marketplace == marketplace then [x] else [];
      var left, right := AccountsOn(rest, marketplace), AccountsOn(b, marketplace);
      assert AccountsOn(a + b, marketplace) == head + AccountsOn(rest + b, marketplace);
      assert head + (left + right) == (head + left) + right;
    }
  }

  /** `next((acc for acc in accounts if acc['id'] == id), None)` */
  function FindAccount(accounts: seq<AccountInfo>, id: int): (r: Option<AccountInfo>)
    ensures r.Some? ==> r.value in accounts && r.value.id == id
    ensures r.None? <==> forall a :: a in accounts ==> a.id != id
    ensures r.Some? ==> exists k :: 0 <= k < |accounts| && accounts[k] == r.value
                                   && forall j :: 0 <= j < k ==> accounts[j].id != id
  {
    if accounts == [] then None
    else if accounts[0].id == id then Some(accounts[0])
    else
      var r := FindAccount(accounts[1..], id);
      assert forall a :: a in accounts <==> a == accounts[0] || a in accounts[1..];
      if r.Some? then
        ghost var k :| 0 <= k < |accounts[1..]| && accounts[1..][k] == r.value
                       && forall j :: 0 <= j < k ==> accounts[1..][j].id != id;
        assert accounts[k + 1] == r.value;
        r
      else r
  }

  // ------------------------------------------------------------ keyboards

  /**
   * A marketplace with a single account selects that account at once; one
   * with several opens the account list.
   */
  function MarketplaceButton(marketplace: string, accs: seq<AccountInfo>): Button
    requires |accs| >= 1
  {
    if |accs| == 1 then
      CallbackButton(marketplace + " - " + accs[0].accountName, SelectAccountData(accs[0].id))
    else
      CallbackButton(marketplace, ChooseAccountData(marketplace))
  }

  /**
   * The marketplace keyboard of `send_marketplace_selection`: one button per
   * distinct marketplace in first-appearance order, and tapping a button asks
   * for exactly that marketplace's only account or its account list.
   */
  function MarketplaceButtons(accounts: seq<AccountInfo>): (r: seq<Button>)
    ensures |r| == |Marketplaces(accounts)|
    ensures forall i :: 0 <= i < |r| ==> r[i].CallbackButton?
    ensures forall i :: 0 <= i < |r| ==>
      var mp := Marketplaces(accounts)[i];
      var accs := AccountsOn(accounts, mp);
      && |accs| >= 1
      && (|accs| == 1 ==> ParseCallback(r[i].callbackData) == SelectAccount(accs[0].id))
      && (|accs| > 1 ==> ParseCallback(r[i].callbackData).ChooseAccount?)
      && (|accs| > 1 && ':' !in mp ==> ParseCallback(r[i].callbackData) == ChooseAccount(mp))
  {
    var mps := Marketplaces(accounts);
    var r := seq(|mps|, i requires 0 <= i < |mps| =>
      assert mps[i] in MarketplaceNames(accounts);
      MarketplaceButton(mps[i], AccountsOn(accounts, mps[i])));
    assert forall i :: 0 <= i < |r| ==>
      var mp := mps[i];
      var accs := AccountsOn(accounts, mp);
      && |accs| >= 1
      && (|accs| == 1 ==> ParseCallback(r[i].callbackData) == SelectAccount(accs[0].id))
      && (|accs| > 1 ==> ParseCallback(r[i].callbackData).ChooseAccount?)
      && (|accs| > 1 && ':' !in mp ==> ParseCallback(r[i].callbackData) == ChooseAccount(mp))
    by {
      forall i | 0 <= i < |r|
        ensures
          var mp := mps[i];
          var accs := AccountsOn(accounts, mp);
          && |accs| >= 1
          && (|accs| == 1 ==> ParseCallback(r[i].callbackData) == SelectAccount(accs[0].id))
          && (|accs| > 1 ==> ParseCallback(r[i].callbackData).ChooseAccount?)
          && (|accs| > 1 && ':' !in mp ==> ParseCallback(r[i].callbackData) == ChooseAccount(mp))
      {
        var accs := AccountsOn(accounts, mps[i]);
        assert mps[i] in MarketplaceNames(accounts);
        if |accs| == 1 {
          SelectAccountDataRoundTrip(accs[0].id);
        } else {
          ChooseAccountDataRoundTrip(mps[i]);
        }
      }
    }
    r
  }

  /** The account list of one marketplace: each button selects its own account. */
  function AccountButtons(accs: seq<AccountInfo>): (r: seq<Button>)
    ensures |r| == |accs|
    ensures forall i :: 0 <= i < |r| ==>
      r[i].CallbackButton? && r[i].text == accs[i].accountName
      && ParseCallback(r[i].callbackData) == SelectAccount(accs[i].id)
  {
    var r := seq(|accs|, i requires 0 <= i < |accs| =>
      CallbackButton(accs[i].accountName, SelectAccountData(accs[i].id)));
    assert forall i :: 0 <= i < |r| ==> ParseCallback(r[i].callbackData) == SelectAccount(accs[i].id) by {
      forall i | 0 <= i < |r| ensures ParseCallback(r[i].callbackData) == SelectAccount(accs[i].id) {
        SelectAccountDataRoundTrip(accs[i].id);
      }
    }
    r
  }
}
