/**
 * The settlement engine of core/services.py: seeding the demo identity,
 * ingesting the wallet provider's feed, minting against a provider credit and
 * redeeming (burn, ledger, fiat debit).
 *
 * Each call is one atomic unit of work: a call that ends in an error leaves
 * every table, the chain stub's and the wallet stub's included, as it found it.
 * The fiat/token conversions are parameters of the model (`pkrToUnits` maps a
 * paisa amount to token units; `unitsToPaisa` maps units to the 2-place fiat
 * amount a redemption debits).
 */
module Services {
  import opened Models
  import opened Ledger
  import Chain
  import Wallet

  const DEMO_NAME: string := "Demo User"
  const DEMO_PROVIDER: string := "stub-wallet"
  const DEMO_ACCOUNT: string := "WALLET-001"
  const DEFAULT_MEMO: string := "redeem"
  /** The demo user's wallet account (seeding only ever creates user 0). */
  const DEMO_WALLET: WalletAccount := WalletAccount(0, DEMO_PROVIDER, DEMO_ACCOUNT)

  function IdsOf(items: seq<Wallet.WalletTx>): set<TxId>
  {
    set t | t in items :: t.providerTxId
  }

  /** The user with this email, if any (the lookup half of get_or_create). */
  function FindUser(users: seq<User>, email: string): (r: Option<UserId>)
    ensures r.Some? ==> r.value < |users| && users[r.value].email == email
    ensures r.None? ==> forall i :: 0 <= i < |users| ==> users[i].email != email
  {
    if users == [] then None
    else if users[|users| - 1].email == email then Some(|users| - 1)
    else FindUser(users[..|users| - 1], email)
  }

  /** The ExternalTransaction row an ingest run creates for a feed item. */
  function ToExternal(t: Wallet.WalletTx, wa: WalletAccount): ExternalTransaction
  {
    ExternalTransaction(wa, t.providerTxId, t.direction, t.amountPaisa, t.memo, t.occurredAt)
  }

  /** The table after the loop body has seen `t`: a row is added exactly when its provider id is new, and no existing row changes. */
  function AfterItem(ext: map<TxId, ExternalTransaction>, t: Wallet.WalletTx): (r: map<TxId, ExternalTransaction>)
    ensures r.Keys == ext.Keys + {t.providerTxId}
  {
    if t.providerTxId in ext then ext else ext[t.providerTxId := ToExternal(t, DEMO_WALLET)]
  }

  /** The ExternalTransaction table once an ingest run over `feed`, started on table `start`, has handled its first `n` items. */
  function Table(feed: seq<Wallet.WalletTx>, n: nat, start: map<TxId, ExternalTransaction>): map<TxId, ExternalTransaction>
    requires n <= |feed|
  {
    if n == 0 then start else AfterItem(Table(feed, n - 1, start), feed[n - 1])
  }

  /** The items such a run has recorded among the first `n`, in feed order: each one whose provider id was not in the table when the run reached it. */
  function News(feed: seq<Wallet.WalletTx>, n: nat, start: map<TxId, ExternalTransaction>): seq<Wallet.WalletTx>
    requires n <= |feed|
  {
    if n == 0 then []
    else if feed[n - 1].providerTxId in Table(feed, n - 1, start) then News(feed, n - 1, start)
    else News(feed, n - 1, start) + [feed[n - 1]]
  }

  /** After the first `n` items, the table knows exactly the ids it knew before and the ids of those items. */
  lemma {:induction false} TableKnowsFeed(feed: seq<Wallet.WalletTx>, n: nat, start: map<TxId, ExternalTransaction>)
    requires n <= |feed|
    ensures Table(feed, n, start).Keys == start.Keys + IdsOf(feed[..n])
  {
    if n > 0 {
      TableKnowsFeed(feed, n - 1, start);
      assert feed[..n] == feed[..n - 1] + [feed[n - 1]];
      assert forall x :: x in feed[..n] <==> x in feed[..n - 1] || x == feed[n - 1];
    }
  }

  /** A run never changes a row that was there before it. */
  lemma {:induction false} TableKeepsRows(feed: seq<Wallet.WalletTx>, n: nat, start: map<TxId, ExternalTransaction>)
    requires n <= |feed|
    ensures forall x :: x in start ==> x in Table(feed, n, start) && Table(feed, n, start)[x] == start[x]
  {
    if n > 0 {
      TableKeepsRows(feed, n - 1, start);
    }
  }

  /** Every item a run records comes from the feed, had an id the table did not know, and ends up as that id's row. */
  lemma {:induction false} NewsAreRecorded(feed: seq<Wallet.WalletTx>, n: nat, start: map<TxId, ExternalTransaction>)
    requires n <= |feed|
    ensures forall t :: t in News(feed, n, start) ==>
      && t in feed[..n] && t.providerTxId !in start
      && t.providerTxId in Table(feed, n, start) && Table(feed, n, start)[t.providerTxId] == ToExternal(t, DEMO_WALLET)
  {
    if n > 0 {
      var earlier := News(feed, n - 1, start);
      var last := feed[n - 1];
      NewsAreRecorded(feed, n - 1, start);
      TableKeepsRows(feed, n - 1, start);
      assert feed[..n] == feed[..n - 1] + [last];
      forall t | t in News(feed, n, start)
        ensures t in feed[..n] && t.providerTxId !in start
        ensures t.providerTxId in Table(feed, n, start) && Table(feed, n, start)[t.providerTxId] == ToExternal(t, DEMO_WALLET)
      {
        if t !in earlier {
          assert t == last && last.providerTxId !in Table(feed, n - 1, start);
        }
      }
    }
  }

  /** A provider id that occurs several times in the feed is recorded once: the recorded items have distinct ids. */
  lemma {:induction false} NewsDistinct(feed: seq<Wallet.WalletTx>, n: nat, start: map<TxId, ExternalTransaction>)
    requires n <= |feed|
    ensures forall i, j :: 0 <= i < j < |News(feed, n, start)| ==>
      News(feed, n, start)[i].providerTxId != News(feed, n, start)[j].providerTxId
  {
    if n > 0 {
      var news := News(feed, n, start);
      var earlier := News(feed, n - 1, start);
      NewsDistinct(feed, n - 1, start);
      NewsAreRecorded(feed, n - 1, start);
      forall i, j | 0 <= i < j < |news|
        ensures news[i].providerTxId != news[j].providerTxId
      {
        assert news[i] == earlier[i];
        if j < |earlier| {
          assert news[j] == earlier[j];
        } else {
          assert news == earlier + [feed[n - 1]] && feed[n - 1].providerTxId !in Table(feed, n - 1, start);
          assert earlier[i] in earlier;
        }
      }
    }
  }

  /** Items whose ids are all in the table are not recorded and leave the table as it is. */
  lemma {:induction false} NewsOfKnownFeed(feed: seq<Wallet.WalletTx>, n: nat, start: map<TxId, ExternalTransaction>)
    requires n <= |feed|
    requires forall k :: 0 <= k < n ==> feed[k].providerTxId in start
    ensures News(feed, n, start) == [] && Table(feed, n, start) == start
  {
    if n > 0 {
      NewsOfKnownFeed(feed, n - 1, start);
    }
  }

  /** Ingesting the same feed a second time records nothing and mints nothing. */
  lemma ReingestIsEmpty(feed: seq<Wallet.WalletTx>, start: map<TxId, ExternalTransaction>)
    ensures var after := Table(feed, |feed|, start);
      News(feed, |feed|, after) == [] && NewCredits(feed, |feed|, after) == 0 && Table(feed, |feed|, after) == after
  {
    var after := Table(feed, |feed|, start);
    TableKnowsFeed(feed, |feed|, start);
    assert feed[..|feed|] == feed;
    assert forall k :: 0 <= k < |feed| ==> feed[k] in feed;
    NewsOfKnownFeed(feed, |feed|, after);
    CreditsAmongNews(feed, |feed|, after);
  }

  /** How many of the first `n` items such a run mints for: the recorded items that are credits. */
  function NewCredits(feed: seq<Wallet.WalletTx>, n: nat, start: map<TxId, ExternalTransaction>): nat
    requires n <= |feed|
  {
    if n == 0 then 0
    else
      var t := feed[n - 1];
      NewCredits(feed, n - 1, start) + (if t.providerTxId !in Table(feed, n - 1, start) && t.direction == Credit then 1 else 0)
  }

  /** The token units such a run mints over the first `n` items: the converted amounts of the recorded credits. */
  function NewUnits(feed: seq<Wallet.WalletTx>, n: nat, start: map<TxId, ExternalTransaction>, toUnits: int -> int): int
    requires n <= |feed|
  {
    if n == 0 then 0
    else
      var t := feed[n - 1];
      NewUnits(feed, n - 1, start, toUnits) + (if t.providerTxId !in Table(feed, n - 1, start) && t.direction == Credit then toUnits(t.amountPaisa) else 0)
  }

  /** A run mints at most once per item it records, so it never mints more often than it records. */
  lemma {:induction false} CreditsAmongNews(feed: seq<Wallet.WalletTx>, n: nat, start: map<TxId, ExternalTransaction>)
    requires n <= |feed|
    ensures NewCredits(feed, n, start) <= |News(feed, n, start)|
  {
    if n > 0 {
      CreditsAmongNews(feed, n - 1, start);
    }
  }

  /** Table constraints on ChainJob: ids, owners, and which jobs reference a provider transaction. */
  ghost predicate JobsWellFormed(jobs: seq<ChainJob>, userCount: nat, known: set<TxId>)
  {
    forall i :: 0 <= i < |jobs| ==>
      && jobs[i].id == i
      && jobs[i].user < userCount
      && (jobs[i].jobType == MintJob <==> jobs[i].refExternalTx.Some?)
      && (jobs[i].refExternalTx.Some? ==> jobs[i].refExternalTx.value in known)
  }

  /** Appending a job that satisfies the table constraints keeps them. */
  lemma AppendKeepsWellFormed(jobs: seq<ChainJob>, job: ChainJob, userCount: nat, known: set<TxId>)
    requires JobsWellFormed(jobs, userCount, known)
    requires job.id == |jobs| && job.user < userCount
    requires job.jobType == MintJob <==> job.refExternalTx.Some?
    requires job.refExternalTx.Some? ==> job.refExternalTx.value in known
    ensures JobsWellFormed(jobs + [job], userCount, known)
  {
  }

  /** `after` is `before` with only key-less mint jobs appended: the jobs already there are kept as they are. */
  ghost predicate KeylessMintsAfter(before: seq<ChainJob>, after: seq<ChainJob>)
  {
    && before <= after
    && forall k :: |before| <= k < |after| ==> after[k].jobType == MintJob && after[k].idempotencyKey.None?
  }

  /** Appending one more key-less mint keeps `KeylessMintsAfter`. */
  lemma KeylessMintStep(before: seq<ChainJob>, mid: seq<ChainJob>, job: ChainJob)
    requires KeylessMintsAfter(before, mid)
    requires job.jobType == MintJob && job.idempotencyKey.None?
    ensures KeylessMintsAfter(before, mid + [job])
  {
  }

  /** Appending key-less jobs leaves every idempotency-key binding as it was, so a keyed replay still finds its job. */
  lemma {:induction false} KeyBindingsSurvive(before: seq<ChainJob>, after: seq<ChainJob>, key: string)
    requires KeylessMintsAfter(before, after)
    ensures FindByKey(after, key) == FindByKey(before, key)
    decreases |before|
  {
    if before == [] {
      assert forall k :: 0 <= k < |after| ==> after[k].idempotencyKey.None?;
    } else {
      assert after[0] == before[0];
      assert KeylessMintsAfter(before[1..], after[1..]) by {
        assert before[1..] <= after[1..];
        forall k | |before[1..]| <= k < |after[1..]|
          ensures after[1..][k].jobType == MintJob && after[1..][k].idempotencyKey.None?
        {
          assert after[1..][k] == after[k + 1];
        }
      }
      KeyBindingsSurvive(before[1..], after[1..], key);
    }
  }

  /** The mint or redeem call finds its key already bound to a job and returns that job. */
  predicate Replayed(jobs: seq<ChainJob>, key: Option<string>)
  {
    KeyGiven(key) && FindByKey(jobs, key.value).Some?
  }

  /** The job insert violates the uniqueness of idempotency_key: the key is already stored, or a concurrent call stored it first. */
  predicate Clashes(jobs: seq<ChainJob>, key: Option<string>, raced: Option<ChainJob>)
  {
    raced.Some? || KeyTaken(jobs, key)
  }

  datatype Snapshot = Snapshot(
    users: seq<User>,
    walletAccounts: map<UserId, WalletAccount>,
    tokenBalances: map<UserId, int>,
    externalTxs: map<TxId, ExternalTransaction>,
    jobs: seq<ChainJob>,
    ledger: seq<LedgerEntry>,
    chainBalances: map<UserId, int>,
    walletBalances: map<string, int>,
    walletTxs: seq<Wallet.WalletTx>)

  class DemoServices {
    const chain: Chain.ChainAdapter
    const wallet: Wallet.WalletAdapter
    /** settings.DEMO_USER_EMAIL */
    const demoEmail: string
    const pkrToUnits: int -> int
    const unitsToPaisa: int -> int

    var users: seq<User>
    /** WalletAccount rows by owner; only seeding creates them, one per user. */
    var walletAccounts: map<UserId, WalletAccount>
    /** TokenBalance.balance_units by user. */
    var tokenBalances: map<UserId, int>
    /** ExternalTransaction rows by provider_tx_id, which is unique. */
    var externalTxs: map<TxId, ExternalTransaction>
    var jobs: seq<ChainJob>
    var ledger: seq<LedgerEntry>

    /**
     * The invariant every call keeps. Only seeding creates users, always the
     * demo identity, so there is at most one (user 0), with one wallet account
     * and one balance row; the cached balance equals the user's mints minus
     * burns; the ledger is exactly the pairs the jobs wrote; the table
     * constraints hold.
     */
    ghost predicate Valid()
      reads this, wallet
    {
      && (users == [] || users == [User(0, demoEmail, DEMO_NAME)])
      && (users == [] ==> jobs == [])
      && walletAccounts == (if users == [] then map[] else map[0 := DEMO_WALLET])
      && tokenBalances == (if users == [] then map[] else map[0 := NetOf(jobs, 0)])
      && (forall x :: x in externalTxs ==> externalTxs[x].providerTxId == x)
      && JobsWellFormed(jobs, |users|, externalTxs.Keys)
      && IdempotencyKeysUnique(jobs)
      && ledger == Postings(jobs)
      && wallet.Valid()
    }

    /** The cached TokenBalance row of `u`; a user without a row reads as 0. */
    function TokenBalance(u: UserId): int
      reads this
    {
      if u in tokenBalances then tokenBalances[u] else 0
    }

    /** The cached balance agrees with the chain stub's balance (the debug view's "match"). */
    predicate Synced(u: UserId)
      reads this, chain
    {
      u in tokenBalances && tokenBalances[u] == chain.BalanceOf(u)
    }

    ghost function State(): Snapshot
      reads this, chain, wallet
    {
      Snapshot(users, walletAccounts, tokenBalances, externalTxs, jobs, ledger,
               chain.balances, wallet.accounts, wallet.txs)
    }

    constructor (demoEmail: string, pkrToUnits: int -> int, unitsToPaisa: int -> int)
      ensures Valid() && fresh(chain) && fresh(wallet)
      ensures this.demoEmail == demoEmail && this.pkrToUnits == pkrToUnits && this.unitsToPaisa == unitsToPaisa
      ensures users == [] && tokenBalances == map[] && jobs == [] && ledger == [] && externalTxs == map[]
      ensures chain.balances == map[] && wallet.accounts == map[] && wallet.txs == []
    {
      this.demoEmail := demoEmail;
      this.pkrToUnits := pkrToUnits;
      this.unitsToPaisa := unitsToPaisa;
      chain := new Chain.ChainAdapter();
      wallet := new Wallet.WalletAdapter();
      users := [];
      walletAccounts := map[];
      tokenBalances := map[];
      externalTxs := map[];
      jobs := [];
      ledger := [];
    }

    /** Gets or creates the demo user, its wallet account and its token balance row at 0. */
    method Seed() returns (user: UserId, wa: WalletAccount)
      requires Valid()
      modifies this
      ensures Valid()
      ensures user == 0 && users == [User(0, demoEmail, DEMO_NAME)]
      ensures wa == walletAccounts[0] == DEMO_WALLET
      ensures old(users) != [] ==> State() == old(State())
      ensures old(users) == [] ==>
        && tokenBalances == map[0 := 0]
        && walletAccounts == map[0 := DEMO_WALLET]
        && externalTxs == old(externalTxs) && jobs == old(jobs) && ledger == old(ledger)
      ensures chain.balances == old(chain.balances)
    {
      var found := FindUser(users, demoEmail);
      if found.Some? {
        user := found.value;
      } else {
        user := |users|;
        users := users + [User(user, demoEmail, DEMO_NAME)];
      }
      if user !in walletAccounts {
        walletAccounts := walletAccounts[user := WalletAccount(user, DEMO_PROVIDER, DEMO_ACCOUNT)];
      }
      wa := walletAccounts[user];
      if user !in tokenBalances {
        tokenBalances := tokenBalances[user := 0];
      }
    }

    /** A simulated deposit: seeds, then credits the demo wallet account. */
    method WalletCredit(amountPaisa: int, memo: string, now: int) returns (providerTxId: TxId)
      requires Valid()
      modifies this, wallet
      ensures Valid()
      ensures users == [User(0, demoEmail, DEMO_NAME)]
      ensures providerTxId == |old(wallet.txs)|
      ensures wallet.txs == old(wallet.txs) + [Wallet.WalletTx(DEMO_ACCOUNT, providerTxId, Credit, amountPaisa, memo, now)]
      ensures wallet.accounts == Wallet.Adjusted(old(wallet.accounts), DEMO_ACCOUNT, amountPaisa)
      ensures jobs == old(jobs) && ledger == old(ledger) && externalTxs == old(externalTxs)
    {
      var _, wa := Seed();
      providerTxId := wallet.Credit(wa.providerAcct, amountPaisa, memo, now);
    }

    /**
     * Mints for a recorded provider transaction. `raced` is the row that a
     * concurrent call holding the same key committed between this call's
     * lookup and its insert (None when calls do not overlap).
     */
    method Mint(user: UserId, et: ExternalTransaction, key: Option<string>, raced: Option<ChainJob>)
      returns (r: Result<ChainJob>)
      requires Valid()
      requires user < |users| && et.providerTxId in externalTxs
      requires raced.Some? ==> key.Some? && raced.value.idempotencyKey == key
      modifies this, chain
      ensures Valid()
      ensures users == old(users) && walletAccounts == old(walletAccounts) && externalTxs == old(externalTxs)
      // a known key: that job, with no chain call, no balance change and no ledger write
      ensures Replayed(old(jobs), key) ==>
        r == Ok(FindByKey(old(jobs), key.value).value) && State() == old(State())
      // the insert loses on the key: the winner's job when a key was given (the chain call is not undone), else the error propagates
      ensures !Replayed(old(jobs), key) && Clashes(old(jobs), key, raced) ==>
        if KeyGiven(key) then
          && r == Ok(raced.value)
          && jobs == old(jobs) && tokenBalances == old(tokenBalances) && ledger == old(ledger)
          && chain.balances == Chain.Shifted(old(chain.balances), user, pkrToUnits(et.amountPaisa))
        else
          r == Err(IntegrityError) && State() == old(State())
      // a fresh mint: one job, the balance up by its amount, two ledger rows
      ensures !Replayed(old(jobs), key) && !Clashes(old(jobs), key, raced) ==>
        var units := pkrToUnits(et.amountPaisa);
        var job := ChainJob(|old(jobs)|, user, MintJob, units, Some(et.providerTxId), Chain.MINTED.txHash, Chain.MINTED.status, key);
        && r == Ok(job)
        && jobs == old(jobs) + [job]
        && tokenBalances == old(tokenBalances)[user := old(TokenBalance(user)) + units]
        && ledger == old(ledger) + [LedgerEntry(None, Credit, IssuerToken, units, MintJob, job.id),
                                    LedgerEntry(Some(user), Debit, UserToken, units, MintJob, job.id)]
        && chain.balances == Chain.Shifted(old(chain.balances), user, units)
      ensures old(Synced(user)) && !(KeyGiven(key) && raced.Some?) ==> Synced(user)
    {
      if KeyGiven(key) {
        var existing := FindByKey(jobs, key.value);
        if existing.Some? {
          return Ok(existing.value);
        }
      }
      var created;
      r, created := Settle(user, MintJob, pkrToUnits(et.amountPaisa), Some(et.providerTxId), key, raced);
    }

    /**
     * Redeems `amount` units: checks the balance, burns, records the job and
     * its ledger pair, then debits the fiat equivalent from the user's wallet
     * account. `raced` is as for Mint; `now` is the wallet debit's timestamp.
     */
    method Redeem(user: UserId, amount: int, memo: string, key: Option<string>, raced: Option<ChainJob>, now: int)
      returns (r: Result<ChainJob>)
      requires Valid()
      requires user < |users|
      requires raced.Some? ==> key.Some? && raced.value.idempotencyKey == key
      modifies this, chain, wallet
      ensures Valid()
      ensures users == old(users) && walletAccounts == old(walletAccounts) && externalTxs == old(externalTxs)
      ensures Replayed(old(jobs), key) ==>
        r == Ok(FindByKey(old(jobs), key.value).value) && State() == old(State())
      // not enough balance: no burn, no job, no balance change, no ledger rows, no wallet debit
      ensures !Replayed(old(jobs), key) && old(TokenBalance(user)) < amount ==>
        r == Err(InsufficientBalance) && State() == old(State())
      ensures !Replayed(old(jobs), key) && old(TokenBalance(user)) >= amount && Clashes(old(jobs), key, raced) ==>
        if KeyGiven(key) then
          && r == Ok(raced.value)
          && jobs == old(jobs) && tokenBalances == old(tokenBalances) && ledger == old(ledger)
          && chain.balances == Chain.Shifted(old(chain.balances), user, -amount)
          && wallet.accounts == old(wallet.accounts) && wallet.txs == old(wallet.txs)
        else
          r == Err(IntegrityError) && State() == old(State())
      ensures !Replayed(old(jobs), key) && old(TokenBalance(user)) >= amount && !Clashes(old(jobs), key, raced) ==>
        var job := ChainJob(|old(jobs)|, user, BurnJob, amount, None, Chain.BURNED.txHash, Chain.BURNED.status, key);
        var paisa := unitsToPaisa(amount);
        && r == Ok(job)
        && jobs == old(jobs) + [job]
        && tokenBalances == old(tokenBalances)[user := old(TokenBalance(user)) - amount]
        && ledger == old(ledger) + [LedgerEntry(Some(user), Credit, UserToken, amount, BurnJob, job.id),
                                    LedgerEntry(None, Debit, IssuerToken, amount, BurnJob, job.id)]
        && chain.balances == Chain.Shifted(old(chain.balances), user, -amount)
        && wallet.txs == old(wallet.txs) + [Wallet.WalletTx(DEMO_ACCOUNT, |old(wallet.txs)|, Debit, paisa,
                                                            if memo == "" then DEFAULT_MEMO else memo, now)]
        && wallet.accounts == Wallet.Adjusted(old(wallet.accounts), DEMO_ACCOUNT, -paisa)
      ensures old(TokenBalance(user)) >= 0 ==> TokenBalance(user) >= 0
      ensures old(Synced(user)) && !(KeyGiven(key) && raced.Some?) ==> Synced(user)
    {
      if KeyGiven(key) {
        var existing := FindByKey(jobs, key.value);
        if existing.Some? {
          return Ok(existing.value);
        }
      }
      if TokenBalance(user) < amount {
        return Err(InsufficientBalance);
      }
      r := Withdraw(user, amount, memo, key, raced, now);
    }

    /** Redeem once the key and balance checks have passed: burn, job, cached balance and ledger pair, then the payout. */
    method Withdraw(user: UserId, amount: int, memo: string, key: Option<string>, raced: Option<ChainJob>, now: int)
      returns (r: Result<ChainJob>)
      requires Valid()
      requires user < |users|
      requires raced.Some? ==> key.Some? && raced.value.idempotencyKey == key
      requires !Replayed(jobs, key) && TokenBalance(user) >= amount
      modifies this, chain, wallet
      ensures Valid()
      ensures users == old(users) && walletAccounts == old(walletAccounts) && externalTxs == old(externalTxs)
      ensures Clashes(old(jobs), key, raced) ==>
        if KeyGiven(key) then
          && r == Ok(raced.value)
          && jobs == old(jobs) && tokenBalances == old(tokenBalances) && ledger == old(ledger)
          && chain.balances == Chain.Shifted(old(chain.balances), user, -amount)
          && wallet.accounts == old(wallet.accounts) && wallet.txs == old(wallet.txs)
        else
          r == Err(IntegrityError) && State() == old(State())
      ensures !Clashes(old(jobs), key, raced) ==>
        var job := ChainJob(|old(jobs)|, user, BurnJob, amount, None, Chain.BURNED.txHash, Chain.BURNED.status, key);
        var paisa := unitsToPaisa(amount);
        && r == Ok(job)
        && jobs == old(jobs) + [job]
        && tokenBalances == old(tokenBalances)[user := old(TokenBalance(user)) - amount]
        && ledger == old(ledger) + [LedgerEntry(Some(user), Credit, UserToken, amount, BurnJob, job.id),
                                    LedgerEntry(None, Debit, IssuerToken, amount, BurnJob, job.id)]
        && chain.balances == Chain.Shifted(old(chain.balances), user, -amount)
        && wallet.txs == old(wallet.txs) + [Wallet.WalletTx(DEMO_ACCOUNT, |old(wallet.txs)|, Debit, paisa,
                                                            if memo == "" then DEFAULT_MEMO else memo, now)]
        && wallet.accounts == Wallet.Adjusted(old(wallet.accounts), DEMO_ACCOUNT, -paisa)
      ensures old(Synced(user)) && !(KeyGiven(key) && raced.Some?) ==> Synced(user)
    {
      var created;
      r, created := Settle(user, BurnJob, amount, None, key, raced);
      if created {
        PayOut(user, amount, memo, now);
      }
    }

    /** The simulated payout ending a redemption: the fiat equivalent is debited from the user's wallet account. */
    method PayOut(user: UserId, amount: int, memo: string, now: int)
      requires Valid() && user < |users|
      modifies wallet
      ensures Valid()
      ensures wallet.txs == old(wallet.txs) + [Wallet.WalletTx(DEMO_ACCOUNT, |old(wallet.txs)|, Debit, unitsToPaisa(amount),
                                                              if memo == "" then DEFAULT_MEMO else memo, now)]
      ensures wallet.accounts == Wallet.Adjusted(old(wallet.accounts), DEMO_ACCOUNT, -unitsToPaisa(amount))
    {
      var wa := walletAccounts[user];
      var _ := wallet.Debit(wa.providerAcct, unitsToPaisa(amount), if memo == "" then DEFAULT_MEMO else memo, now);
    }

    /**
     * The atomic block shared by mint and redeem: the chain call, then the
     * job, the cached balance and the ledger pair. When the job insert clashes
     * on its key, a call that gave a key hands back the winner's job and keeps
     * its own chain call; otherwise the error rolls the whole block back.
     */
    method Settle(user: UserId, jobType: JobType, units: int, ref: Option<TxId>, key: Option<string>, raced: Option<ChainJob>)
      returns (r: Result<ChainJob>, created: bool)
      requires Valid()
      requires user < |users|
      requires jobType == MintJob <==> ref.Some?
      requires ref.Some? ==> ref.value in externalTxs.Keys
      requires raced.Some? ==> key.Some? && raced.value.idempotencyKey == key
      requires !Replayed(jobs, key)
      modifies this, chain
      ensures Valid()
      ensures created == !Clashes(old(jobs), key, raced)
      ensures users == old(users) && walletAccounts == old(walletAccounts) && externalTxs == old(externalTxs)
      ensures Clashes(old(jobs), key, raced) ==>
        if KeyGiven(key) then
          && r == Ok(raced.value)
          && jobs == old(jobs) && tokenBalances == old(tokenBalances) && ledger == old(ledger)
          && chain.balances == Chain.Shifted(old(chain.balances), user, if jobType == MintJob then units else -units)
        else
          r == Err(IntegrityError) && State() == old(State())
      ensures !Clashes(old(jobs), key, raced) ==>
        var job := ChainJob(|old(jobs)|, user, jobType, units, ref,
                            ReceiptFor(jobType).txHash, ReceiptFor(jobType).status, key);
        && r == Ok(job)
        && jobs == old(jobs) + [job]
        && tokenBalances == old(tokenBalances)[user := old(TokenBalance(user)) + Delta(job, user)]
        && ledger == old(ledger) + PairFor(job)
        && chain.balances == Chain.Shifted(old(chain.balances), user, Delta(job, user))
    {
      var before := chain.balances;
      var receipt := CallChain(user, jobType, units);
      if raced.Some? || KeyTaken(jobs, key) {
        if KeyGiven(key) {
          return Ok(raced.value), false;
        }
        // the IntegrityError leaves the atomic block, which rolls the chain stub back too
        chain.balances := before;
        return Err(IntegrityError), false;
      }
      var job := ChainJob(|jobs|, user, jobType, units, ref, receipt.txHash, receipt.status, key);
      Record(job);
      r, created := Ok(job), true;
    }

    /** The receipt the chain stub returns for a job of this type. */
    function ReceiptFor(jobType: JobType): Chain.Receipt
    {
      if jobType == MintJob then Chain.MINTED else Chain.BURNED
    }

    /** ChainAdapter.mint for a mint job, ChainAdapter.burn for a burn job. */
    method CallChain(user: UserId, jobType: JobType, units: int) returns (receipt: Chain.Receipt)
      modifies chain
      ensures chain.balances == Chain.Shifted(old(chain.balances), user, if jobType == MintJob then units else -units)
      ensures receipt == ReceiptFor(jobType)
    {
      if jobType == MintJob {
        receipt := chain.Mint(user, units);
      } else {
        receipt := chain.Burn(user, units);
      }
    }

    /** Inserts a new job, moves its owner's cached balance by its amount and writes its ledger pair. */
    method Record(job: ChainJob)
      requires Valid()
      requires job.id == |jobs| && job.user < |users|
      requires job.jobType == MintJob <==> job.refExternalTx.Some?
      requires job.refExternalTx.Some? ==> job.refExternalTx.value in externalTxs.Keys
      requires !KeyTaken(jobs, job.idempotencyKey)
      modifies this
      ensures Valid()
      ensures jobs == old(jobs) + [job]
      ensures tokenBalances == old(tokenBalances)[job.user := old(TokenBalance(job.user)) + Delta(job, job.user)]
      ensures ledger == old(ledger) + PairFor(job)
      ensures users == old(users) && walletAccounts == old(walletAccounts) && externalTxs == old(externalTxs)
    {
      NetOfAppend(jobs, job, 0);
      AppendKeepsWellFormed(jobs, job, |users|, externalTxs.Keys);
      AppendKeepsKeysUnique(jobs, job);
      jobs := jobs + [job];
      tokenBalances := tokenBalances[job.user := tokenBalances[job.user] + Delta(job, job.user)];
      ledger := ledger + PairFor(job);
    }

    /**
     * Seeds the demo user, lists the demo account's provider transactions
     * since `since`, records each one whose provider id is new and mints for
     * each new credit. Returns the counts (ingested, minted).
     */
    method IngestSince(since: Option<int>) returns (ingested: nat, minted: nat)
      requires Valid()
      modifies this, chain, wallet
      ensures Valid()
      ensures users == [User(0, demoEmail, DEMO_NAME)]
      ensures var feed := Wallet.Listed(old(wallet.txs), DEMO_ACCOUNT, since);
        && externalTxs == Table(feed, |feed|, old(externalTxs))
        && ingested == |News(feed, |feed|, old(externalTxs))|
        && minted == NewCredits(feed, |feed|, old(externalTxs))
        && |jobs| == |old(jobs)| + minted
        && TokenBalance(0) == old(TokenBalance(0)) + NewUnits(feed, |feed|, old(externalTxs), pkrToUnits)
      ensures minted <= ingested
      ensures KeylessMintsAfter(old(jobs), jobs) && old(ledger) <= ledger
      ensures wallet.txs == old(wallet.txs)
      ensures old(Synced(0)) ==> Synced(0)
    {
      ghost var jobs0 := jobs;
      var user, wa := Seed();
      var feed := wallet.ListTransactions(wa.providerAcct, since);
      CreditsAmongNews(feed, |feed|, externalTxs);
      ingested, minted := IngestFeed(feed);
      PostingsPrefix(jobs0, jobs);
    }

    /** The loop of ingest over the listed feed, in feed order. */
    method IngestFeed(feed: seq<Wallet.WalletTx>) returns (ingested: nat, minted: nat)
      requires Valid() && users != []
      modifies this, chain
      ensures Valid() && users == old(users)
      ensures externalTxs == Table(feed, |feed|, old(externalTxs))
      ensures ingested == |News(feed, |feed|, old(externalTxs))|
      ensures minted == NewCredits(feed, |feed|, old(externalTxs))
      ensures |jobs| == |old(jobs)| + minted && KeylessMintsAfter(old(jobs), jobs)
      ensures TokenBalance(0) == old(TokenBalance(0)) + NewUnits(feed, |feed|, old(externalTxs), pkrToUnits)
      ensures old(Synced(0)) ==> Synced(0)
    {
      ingested, minted := 0, 0;
      for i := 0 to |feed|
        invariant Valid() && users == old(users)
        invariant externalTxs == Table(feed, i, old(externalTxs))
        invariant ingested == |News(feed, i, old(externalTxs))|
        invariant minted == NewCredits(feed, i, old(externalTxs))
        invariant |jobs| == |old(jobs)| + minted && KeylessMintsAfter(old(jobs), jobs)
        invariant TokenBalance(0) == old(TokenBalance(0)) + NewUnits(feed, i, old(externalTxs), pkrToUnits)
        invariant old(Synced(0)) ==> Synced(0)
      {
        ingested, minted := IngestAt(feed, i, old(externalTxs), ingested, minted, old(jobs), old(TokenBalance(0)), old(Synced(0)));
      }
    }

    /** One turn of the ingest loop: item `i` is handled and the counts move with it. */
    method IngestAt(feed: seq<Wallet.WalletTx>, i: nat, ghost start: map<TxId, ExternalTransaction>, ingested: nat, minted: nat,
                    ghost jobs0: seq<ChainJob>, ghost balance0: int, ghost synced0: bool)
      returns (ingested': nat, minted': nat)
      requires i < |feed|
      requires Valid() && users != []
      requires externalTxs == Table(feed, i, start)
      requires ingested == |News(feed, i, start)|
      requires minted == NewCredits(feed, i, start)
      requires |jobs| == |jobs0| + minted && KeylessMintsAfter(jobs0, jobs)
      requires TokenBalance(0) == balance0 + NewUnits(feed, i, start, pkrToUnits)
      requires synced0 ==> Synced(0)
      modifies this, chain
      ensures Valid() && users == old(users)
      ensures externalTxs == Table(feed, i + 1, start)
      ensures ingested' == |News(feed, i + 1, start)|
      ensures minted' == NewCredits(feed, i + 1, start)
      ensures |jobs| == |jobs0| + minted' && KeylessMintsAfter(jobs0, jobs)
      ensures TokenBalance(0) == balance0 + NewUnits(feed, i + 1, start, pkrToUnits)
      ensures synced0 ==> Synced(0)
    {
      ghost var before := jobs;
      var recorded, mintedOne := IngestItem(feed[i]);
      if mintedOne {
        KeylessMintStep(jobs0, before, jobs[|before|]);
      }
      ingested', minted' := ingested, minted;
      if recorded {
        ingested' := ingested' + 1;
      }
      if mintedOne {
        minted' := minted' + 1;
      }
    }

    /** The job an ingest run creates when it mints for credit `t`: user 0's, with no idempotency key. */
    function IngestMint(id: JobId, t: Wallet.WalletTx): ChainJob
    {
      ChainJob(id, 0, MintJob, pkrToUnits(t.amountPaisa), Some(t.providerTxId), Chain.MINTED.txHash, Chain.MINTED.status, None)
    }

    /** The loop body of ingest for one feed item: record it when its provider id is new, and mint for it when it is also a credit. */
    method IngestItem(t: Wallet.WalletTx) returns (recorded: bool, mintedOne: bool)
      requires Valid() && users != []
      modifies this, chain
      ensures Valid() && users == old(users)
      ensures recorded == (t.providerTxId !in old(externalTxs).Keys)
      ensures mintedOne == (recorded && t.direction == Credit)
      ensures externalTxs == AfterItem(old(externalTxs), t)
      ensures jobs == old(jobs) + (if mintedOne then [IngestMint(|old(jobs)|, t)] else [])
      ensures TokenBalance(0) == old(TokenBalance(0)) + (if mintedOne then pkrToUnits(t.amountPaisa) else 0)
      ensures old(Synced(0)) ==> Synced(0)
    {
      recorded, mintedOne := false, false;
      if t.providerTxId in externalTxs.Keys {
        return;
      }
      var et := ToExternal(t, walletAccounts[0]);
      externalTxs := externalTxs[et.providerTxId := et];
      recorded := true;
      if et.direction == Credit {
        var _ := Mint(0, et, None, None);
        mintedOne := true;
      }
    }
  }

  /** The debug view's check: with the demo user seeded, mints minus burns over all jobs equal the cached balance. */
  lemma DebugViewConsistent(s: DemoServices)
    requires s.Valid() && s.users != []
    ensures SumOfType(s.jobs, MintJob) - SumOfType(s.jobs, BurnJob) == s.tokenBalances[0]
  {
    SingleUserNetIsTotal(s.jobs, 0);
  }

  /** The cached balance equals the user's ledger position, and the whole ledger is balanced. */
  lemma CacheMatchesLedger(s: DemoServices, u: UserId)
    requires s.Valid() && u in s.tokenBalances
    ensures s.tokenBalances[u] == UserNet(s.ledger, u)
    ensures SignedTotal(s.ledger) == 0
  {
    UserLedgerMatchesJobs(s.jobs, u);
    LedgerBalanced(s.jobs);
  }
}
