/**
 * The accounts view: the total balance over all accounts (the same `reduce`
 * also stands in the dashboard view) and the icon picked by account type.
 */
module Accounts {
  import opened Common
  import opened Records
  import opened JsText

  /** `accounts.reduce((sum, account) => sum + Number(account.balance), 0)`. */
  function TotalBalance(accounts: seq<Account>): int
  {
    if accounts == [] then 0 else TotalBalance(accounts[..|accounts| - 1]) + accounts[|accounts| - 1].balance
  }

  /** No accounts, no money; one more account adds exactly its balance. */
  lemma TotalBalanceAppend(accounts: seq<Account>, a: Account)
    ensures TotalBalance([]) == 0
    ensures TotalBalance(accounts + [a]) == TotalBalance(accounts) + a.balance
  {
  }

  lemma {:induction false} TotalBalanceConcat(a: seq<Account>, b: seq<Account>)
    ensures TotalBalance(a + b) == TotalBalance(a) + TotalBalance(b)
    decreases |b|
  {
    if b != [] {
      var b', x := b[..|b| - 1], b[|b| - 1];
      TotalBalanceConcat(a, b');
      assert a + b == (a + b') + [x];
      TotalBalanceAppend(a + b', x);
      TotalBalanceAppend(b', x);
      assert b == b' + [x];
    } else {
      assert a + b == a;
    }
  }

  /** Taking the account at `j` out of the list takes its balance out of the total. */
  lemma TotalBalanceRemove(b: seq<Account>, j: int)
    requires 0 <= j < |b|
    ensures TotalBalance(b) == TotalBalance(b[..j] + b[j + 1..]) + b[j].balance
  {
    var left, x, right := b[..j], b[j], b[j + 1..];
    assert b[..j + 1] == left + [x];
    assert b == b[..j + 1] + right;
    TotalBalanceConcat(b[..j + 1], right);
    TotalBalanceAppend(left, x);
    TotalBalanceConcat(left, right);
  }

  lemma MultisetRemove(b: seq<Account>, j: int)
    requires 0 <= j < |b|
    ensures multiset(b[..j] + b[j + 1..]) == multiset(b) - multiset{b[j]}
  {
    assert b == b[..j] + [b[j]] + b[j + 1..];
  }

  /** The total does not depend on the order the accounts arrive in. */
  lemma {:induction false} TotalBalancePermutation(a: seq<Account>, b: seq<Account>)
    requires multiset(a) == multiset(b)
    ensures TotalBalance(a) == TotalBalance(b)
    decreases |a|
  {
    if a == [] {
      assert |b| == |multiset(b)| == 0;
    } else {
      var n := |a| - 1;
      assert a[n] in multiset(b);
      var j :| 0 <= j < |b| && b[j] == a[n];
      assert a == a[..n] + [a[n]];
      MultisetRemove(b, j);
      TotalBalancePermutation(a[..n], b[..j] + b[j + 1..]);
      TotalBalanceRemove(b, j);
    }
  }

  /** The icon kinds of `getAccountIcon`. */
  datatype AccountIcon = CreditCardIcon | SmartphoneIcon | CashWalletIcon | DefaultWalletIcon

  /** `getAccountIcon`: the switch over `type?.toUpperCase()`. */
  function AccountIconFor(kind: Option<string>): (r: AccountIcon)
    ensures kind.None? ==> r == DefaultWalletIcon
    ensures kind.Some? && ToUpper(kind.value) == "BANK" ==> r == CreditCardIcon
    ensures kind.Some? && ToUpper(kind.value) == "MOBILE_MONEY" ==> r == SmartphoneIcon
    ensures kind.Some? && ToUpper(kind.value) == "CASH" ==> r == CashWalletIcon
    ensures r == DefaultWalletIcon <==> kind.None? || ToUpper(kind.value) !in {"BANK", "MOBILE_MONEY", "CASH"}
  {
    match kind
    case None => DefaultWalletIcon
    case Some(t) =>
      var upper := ToUpper(t);
      if upper == "BANK" then CreditCardIcon
      else if upper == "MOBILE_MONEY" then SmartphoneIcon
      else if upper == "CASH" then CashWalletIcon
      else DefaultWalletIcon
  }

  /** The type is compared without regard to case: every spelling selects the icon its
      upper-case form selects, and the icon its lower-case form selects unless it holds a
      Kelvin sign. */
  lemma AccountIconIgnoresCase(t: string)
    ensures '\U{212A}' !in t ==> AccountIconFor(Some(ToLower(t))) == AccountIconFor(Some(t))
    ensures AccountIconFor(Some(ToUpper(t))) == AccountIconFor(Some(t))
  {
    if '\U{212A}' !in t {
      UpperOfLower(t);
    }
    assert ToUpper(ToUpper(t)) == ToUpper(t);
  }

  /** The Kelvin sign lower-cases to `k` but upper-cases to itself, so a type spelled with
      one selects the default icon while its lower-case form selects the bank icon. */
  lemma KelvinSignException()
    ensures AccountIconFor(Some("BAN\U{212A}")) == DefaultWalletIcon
    ensures AccountIconFor(Some(ToLower("BAN\U{212A}"))) == CreditCardIcon
  {
    assert ToUpper("BAN\U{212A}") != "BANK" by {
      assert ToUpper("BAN\U{212A}")[3] == '\U{212A}';
    }
    assert ToUpper("BAN\U{212A}") != "MOBILE_MONEY";
    assert ToUpper("BAN\U{212A}") != "CASH";
    assert ToLower("BAN\U{212A}") == "bank";
    assert ToUpper("bank") == "BANK";
  }
}
