/**
 * The wallet collaborator (core/adapters/wallet_adapter.py): fiat accounts with
 * a stored balance in paisa and an append-only log of provider transactions.
 * Every call first gets-or-creates the account at 0.00.
 */
module Wallet {
  import opened Models

  /** A WalletStubTx row; `providerTxId` is its position in the log, which makes it unique. */
  datatype WalletTx = WalletTx(
    account: string,
    providerTxId: TxId,
    direction: Side,
    amountPaisa: int,
    memo: string,
    occurredAt: int)

  /** The account table after adding `delta` to `a`'s balance (a missing account is created at 0 first). */
  function Adjusted(accounts: map<string, int>, a: string, delta: int): map<string, int>
  {
    accounts[a := (if a in accounts then accounts[a] else 0) + delta]
  }

  /** A credit followed by a debit of the same amount restores every account's balance; an account the credit created stays at 0. */
  lemma CreditDebitRoundTrip(accounts: map<string, int>, a: string, amount: int)
    ensures Adjusted(Adjusted(accounts, a, amount), a, -amount) == accounts[a := (if a in accounts then accounts[a] else 0)]
  {
  }

  /** The filter of list_transactions: this account, and at or after `since` when one is given. */
  predicate Selected(t: WalletTx, a: string, since: Option<int>)
  {
    t.account == a && (since.None? || t.occurredAt >= since.value)
  }

  /** The transactions `Selected` keeps, in log order. */
  function Matching(txs: seq<WalletTx>, a: string, since: Option<int>): (r: seq<WalletTx>)
    ensures forall t :: t in r <==> t in txs && Selected(t, a, since)
    ensures |r| <= |txs|
  {
    if txs == [] then []
    else
      var last := txs[|txs| - 1];
      Matching(txs[..|txs| - 1], a, since) + (if Selected(last, a, since) then [last] else [])
  }

  /** Ascending occurred_at: no transaction is later than the one after it. */
  ghost predicate SortedByTime(s: seq<WalletTx>)
  {
    forall i :: 0 < i < |s| ==> s[i - 1].occurredAt <= s[i].occurredAt
  }

  /** Inserts `t` before the first transaction not earlier than it. */
  function Insert(t: WalletTx, s: seq<WalletTx>): (r: seq<WalletTx>)
    ensures multiset(r) == multiset(s) + multiset{t}
  {
    if s == [] || t.occurredAt <= s[0].occurredAt then [t] + s
    else
      assert s == [s[0]] + s[1..];
      [s[0]] + Insert(t, s[1..])
  }

  /** Inserting into a time-sorted sequence keeps it sorted. */
  lemma {:induction false} InsertSorted(t: WalletTx, s: seq<WalletTx>)
    requires SortedByTime(s)
    ensures SortedByTime(Insert(t, s))
  {
    if s != [] && t.occurredAt > s[0].occurredAt {
      var tail := s[1..];
      assert SortedByTime(tail) by {
        forall i | 0 < i < |tail|
          ensures tail[i - 1].occurredAt <= tail[i].occurredAt
        {
          assert tail[i - 1] == s[i] && tail[i] == s[i + 1];
        }
      }
      InsertSorted(t, tail);
      var rest := Insert(t, tail);
      // the head of the rest is either `t` or the old second transaction, both no earlier than s[0]
      assert rest != [] && s[0].occurredAt <= rest[0].occurredAt;
      var r := Insert(t, s);
      assert r == [s[0]] + rest;
      forall i | 0 < i < |r|
        ensures r[i - 1].occurredAt <= r[i].occurredAt
      {
        if i > 1 {
          assert r[i - 1] == rest[i - 2] && r[i] == rest[i - 1];
        }
      }
    }
  }

  /** order_by("occurred_at"): a permutation sorted by time. The query fixes no order among equal times; the model chooses log order. */
  function SortByTime(s: seq<WalletTx>): (r: seq<WalletTx>)
    ensures SortedByTime(r)
    ensures multiset(r) == multiset(s)
  {
    if s == [] then []
    else
      assert s == [s[0]] + s[1..];
      InsertSorted(s[0], SortByTime(s[1..]));
      Insert(s[0], SortByTime(s[1..]))
  }

  /** What list_transactions returns: exactly the selected transactions, in ascending occurred_at order. */
  function Listed(txs: seq<WalletTx>, a: string, since: Option<int>): (r: seq<WalletTx>)
    ensures SortedByTime(r)
    ensures multiset(r) == multiset(Matching(txs, a, since))
    ensures forall t :: t in r <==> t in txs && Selected(t, a, since)
  {
    var r := SortByTime(Matching(txs, a, since));
    assert forall t :: t in r <==> t in multiset(r);
    r
  }

  class WalletAdapter {
    /** WalletStubAccount: account id -> balance in paisa. */
    var accounts: map<string, int>
    /** WalletStubTx, oldest first. */
    var txs: seq<WalletTx>

    ghost predicate Valid()
      reads this
    {
      forall i :: 0 <= i < |txs| ==> txs[i].providerTxId == i && txs[i].account in accounts
    }

    constructor ()
      ensures Valid() && accounts == map[] && txs == []
    {
      accounts := map[];
      txs := [];
    }

    function BalanceOf(a: string): int
      reads this
    {
      if a in accounts then accounts[a] else 0
    }

    /** Creates the account at 0.00 only if there is none; an existing account is left as it is. */
    method EnsureAccount(a: string) returns (balance: int)
      requires Valid()
      modifies this
      ensures Valid()
      ensures accounts == if a in old(accounts) then old(accounts) else old(accounts)[a := 0]
      ensures txs == old(txs)
      ensures balance == accounts[a] == old(BalanceOf(a))
    {
      if a !in accounts {
        accounts := accounts[a := 0];
      }
      balance := accounts[a];
    }

    /** Appends exactly one 'credit' transaction and raises the account's balance by `amount`. */
    method Credit(a: string, amount: int, memo: string, now: int) returns (id: TxId)
      requires Valid()
      modifies this
      ensures Valid()
      ensures id == |old(txs)|
      ensures txs == old(txs) + [WalletTx(a, id, Side.Credit, amount, memo, now)]
      ensures accounts == Adjusted(old(accounts), a, amount)
    {
      var balance := EnsureAccount(a);
      id := |txs|;
      txs := txs + [WalletTx(a, id, Side.Credit, amount, memo, now)];
      accounts := accounts[a := balance + amount];
    }

    /** Appends exactly one 'debit' transaction and lowers the balance by `amount`, with no overdraft check. */
    method Debit(a: string, amount: int, memo: string, now: int) returns (id: TxId)
      requires Valid()
      modifies this
      ensures Valid()
      ensures id == |old(txs)|
      ensures txs == old(txs) + [WalletTx(a, id, Side.Debit, amount, memo, now)]
      ensures accounts == Adjusted(old(accounts), a, -amount)
    {
      var balance := EnsureAccount(a);
      id := |txs|;
      txs := txs + [WalletTx(a, id, Side.Debit, amount, memo, now)];
      accounts := accounts[a := balance - amount];
    }

    /** Reports the stored balance; an existing account is not modified. */
    method Balance(a: string) returns (b: int)
      requires Valid()
      modifies this
      ensures Valid()
      ensures b == old(BalanceOf(a))
      ensures accounts == if a in old(accounts) then old(accounts) else old(accounts)[a := 0]
      ensures txs == old(txs)
    {
      b := EnsureAccount(a);
    }

    /** This account's transactions at or after `since` (all of them when `since` is absent), oldest first. */
    method ListTransactions(a: string, since: Option<int>) returns (feed: seq<WalletTx>)
      requires Valid()
      modifies this
      ensures Valid()
      ensures feed == Listed(txs, a, since)
      ensures accounts == if a in old(accounts) then old(accounts) else old(accounts)[a := 0]
      ensures txs == old(txs)
    {
      var _ := EnsureAccount(a);
      feed := Listed(txs, a, since);
    }
  }
}
