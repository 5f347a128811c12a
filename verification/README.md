# PKR stablecoin settlement engine — Dafny model

This project models the settlement engine of the PKR stablecoin demo. A fiat
wallet provider (a stub) holds customer deposits in Pakistani rupees. The
engine ingests the provider's transaction feed and mints tokens on a chain
(also a stub) for every new credit. It redeems tokens by checking the cached
balance, burning on the chain, recording a chain job and a pair of ledger
rows, and debiting the fiat equivalent from the wallet.

Modules:

- `Models` (models.dfy): the records of the engine's tables, the
  idempotency-key lookup, and the uniqueness constraint on keys.
- `Ledger` (ledger.dfy): the double-entry rows each chain job writes, the
  ledger a table of jobs determines, and the balances read off it.
- `Chain` (chain.dfy): the chain adapter, a class over a per-user balance map.
  Its receipts are fixed: `0xMINT`/`0xBURN`, both `confirmed`.
- `Wallet` (wallet.dfy): the wallet adapter, a class over an account map
  (balances in integer paisa) and an append-only transaction log, together
  with the listing function (filter by account and `since`, stable sort by
  `occurred_at`).
- `Services` (services.dfy): the `DemoServices` class. It holds:
  - the user list;
  - wallet accounts;
  - cached token balances;
  - the external-transaction table keyed by provider transaction id;
  - the chain-job table and the ledger;
  - references to the two adapters.

  Its invariant `Valid` ties the state together:
  - there is at most one (demo) user;
  - the cached balance equals that user's mints minus burns;
  - the ledger is exactly the row pairs the jobs wrote;
  - job ids, owners and provider references are well formed;
  - idempotency keys are unique.

  `Synced(u)` states that the cache agrees with the chain stub's balance, and
  every operation keeps it, except a mint or redeem that loses a key race as
  the handler at core/services.py:102-106 (and 150-154) is written: it returns
  the winner's job and keeps its own chain call.

Every call is one atomic, sequential step. A concurrent caller that wins the
job insert on the same idempotency key is modelled by the `raced` parameter:
the row it committed between this call's lookup and its insert.

## Model

| member | source | states |
|---|---|---|
| Models.FindByKey | core/services.py:84-87 | A found job is in the table and carries the key; when nothing is found, no job carries the key |
| Models.AppendKeepsKeysUnique | core/models.py:76 | Inserting a job whose key is absent (or NULL) keeps idempotency keys unique |
| Models.KeyIdentifiesJob | core/models.py:76 | Under key uniqueness, the lookup by a job's key returns exactly that job |
| Ledger.MintPair | core/services.py:113-116 | A mint writes an issuer_token credit with no user and a user_token debit for the user, both of the job's amount, ref_type mint, ref_id the job; the pair is balanced and moves the user by +amount |
| Ledger.BurnPair | core/services.py:161-164 | A burn writes a user_token credit for the user and an issuer_token debit with no user, both of the job's amount, ref_type burn; the pair is balanced and moves the user by -amount |
| Ledger.PairSums | core/services.py:113-116 | Every job's pair sums to zero, and moves each user's user_token position by that job's signed amount for that user |
| Ledger.SignedTotalAppend | core/services.py:113-116 | Debits minus credits over two row lists concatenated is the sum over each |
| Ledger.UserNetAppend | core/services.py:113-116 | A user's position over two row lists concatenated is the sum over each |
| Ledger.LedgerBalanced | core/services.py:161-164 | The whole ledger written by any job table is balanced: total debits equal total credits |
| Ledger.UserLedgerMatchesJobs | core/services.py:108-116 | A user's user_token debits minus credits equal that user's mint amounts minus burn amounts |
| Ledger.PostingsLength | core/services.py:113-116 | Each job writes exactly two rows |
| Ledger.PostingsPairAt | core/services.py:113-116 | Rows 2i and 2i+1 of the ledger are job i's pair, in job order |
| Ledger.PostingsPrefix | core/services.py:113-116 | The ledger is append-only: when the job table only grows, the ledger it determines only grows, and earlier rows are kept as they are |
| Ledger.IssuerRowsHaveNoUser | core/models.py:86-88 | A ledger row has no user exactly when it is an issuer_token row |
| Ledger.SingleUserNetIsTotal | api/views_read.py:76-78 | When every job belongs to one user, the debug view's mints minus burns over all jobs is that user's net |
| Chain.MintBurnRoundTrip | core/adapters/chain_adapter.py:19-32 | Minting and then burning the same amount restores every user's chain balance |
| Chain.ChainAdapter.Mint | core/adapters/chain_adapter.py:14-22 | Only the user's balance changes, up by the amount, a missing row counting as 0; the receipt is 0xMINT/confirmed |
| Chain.ChainAdapter.Burn | core/adapters/chain_adapter.py:25-33 | Only the user's balance changes, down by the amount, with no non-negativity check; the receipt is 0xBURN/confirmed |
| Chain.ChainAdapter.GetBalance | core/adapters/chain_adapter.py:36-39 | Returns the stored balance, or 0 for a user with no row, inserting that zero row; no balance reads differently afterwards |
| Chain.ChainAdapter.GetOrCreate | core/adapters/chain_adapter.py:19 | The row exists afterwards and holds the old balance, or 0 when it was missing; no other row changes |
| Wallet.CreditDebitRoundTrip | core/adapters/wallet_adapter.py:37-62 | A credit followed by a debit of the same amount restores every account balance; an account the credit created stays at 0.00 |
| Wallet.Matching | core/adapters/wallet_adapter.py:80-85 | Keeps exactly the transactions of this account that are at or after `since` (all of them without `since`) |
| Wallet.Insert | core/adapters/wallet_adapter.py:83 | Insertion adds exactly the one transaction: the result is a permutation of the input plus it |
| Wallet.InsertSorted | core/adapters/wallet_adapter.py:83 | Inserting into a list sorted by occurred_at keeps it sorted |
| Wallet.SortByTime | core/adapters/wallet_adapter.py:83 | The result is sorted by ascending occurred_at and is a permutation of the input |
| Wallet.Listed | core/adapters/wallet_adapter.py:80-95 | The listing is sorted by occurred_at, a permutation of the matching transactions, and holds exactly the transactions of the account at or after `since` |
| Wallet.WalletAdapter.EnsureAccount | core/adapters/wallet_adapter.py:22-29 | Creates the account at 0 only if absent, leaves an existing one unchanged, and returns its balance |
| Wallet.WalletAdapter.Credit | core/adapters/wallet_adapter.py:32-49 | Appends exactly one credit transaction with the amount and memo, whose id is fresh, and raises that account's balance by the amount |
| Wallet.WalletAdapter.Debit | core/adapters/wallet_adapter.py:52-64 | Appends exactly one debit transaction and lowers that account's balance by the amount, with no overdraft check |
| Wallet.WalletAdapter.Balance | core/adapters/wallet_adapter.py:67-71 | Reports the stored balance (0 for a new account) and leaves an existing account and the log unchanged |
| Wallet.WalletAdapter.ListTransactions | core/adapters/wallet_adapter.py:74-95 | Returns the listing of the log for this account and `since`, leaving the log unchanged |
| Services.FindUser | core/services.py:32 | A found user carries the email; when nothing is found, no user carries it |
| Services.AfterItem | core/services.py:60-68 | Handling one feed item adds its provider id to the table's ids and nothing else |
| Services.TableKnowsFeed | core/services.py:59-68 | After an ingest run, the table's ids are the old ids plus the ids of the listed feed |
| Services.TableKeepsRows | core/services.py:60-68 | An ingest run never changes an ExternalTransaction that was already recorded |
| Services.NewsAreRecorded | core/services.py:60-69 | Every transaction a run counts as ingested comes from the feed, had an unseen provider id, and is now recorded as its ExternalTransaction |
| Services.NewsDistinct | core/models.py:46 | The ingested transactions have pairwise distinct provider ids, even when the feed repeats one |
| Services.NewsOfKnownFeed | core/services.py:60 | A feed whose ids are all recorded ingests nothing and leaves the table as it is |
| Services.ReingestIsEmpty | core/services.py:53 | Running ingest a second time over the same feed ingests 0, mints 0 and leaves the table unchanged |
| Services.CreditsAmongNews | core/services.py:69-72 | A run mints at most once per transaction it ingests: minted <= ingested |
| Services.KeylessMintStep | core/services.py:71 | Appending one more key-less mint job keeps "only key-less mints were appended" |
| Services.KeyBindingsSurvive | core/models.py:76 | Appending only key-less jobs leaves every idempotency-key lookup as it was, so a keyed mint or redeem replayed after an ingest still returns its earlier job |
| Services.AppendKeepsWellFormed | core/models.py:63-76 | Inserting a job with a fresh id, an existing owner, and a provider reference exactly when it is a mint keeps the job table well formed |
| Services.DemoServices.Seed | core/services.py:26-35 | Gets or creates the demo user, its WalletAccount (stub-wallet, WALLET-001) and a token balance at 0; when the user exists, nothing changes |
| Services.DemoServices.WalletCredit | core/services.py:38-45 | Seeds, then appends exactly one credit to the demo wallet account and returns its provider id; jobs, ledger and ingested transactions are untouched |
| Services.DemoServices.Mint | core/services.py:75-117 | A known key returns its job with no side effects. A clash returns the winner's job when a key was given, else fails with IntegrityError and rolls back. Otherwise exactly one mint job is created, the balance rises by its units, two ledger rows are written and the chain balance moves with it |
| Services.DemoServices.Redeem | core/services.py:119-171 | A known key returns its job with no side effects. Balance below the amount fails with insufficient_balance and changes nothing. A clash is handled as for Mint. Otherwise the burn, one burn job, the balance down by the amount, its two ledger rows and one wallet debit of the fiat equivalent (memo defaulting to "redeem"). A non-negative balance stays non-negative |
| Services.DemoServices.Withdraw | core/services.py:139-171 | Redeem after its checks: on a clash the winner's job (or IntegrityError with everything rolled back); otherwise the burn, one burn job, the balance down by the amount, the user_token credit and issuer_token debit rows, and one wallet debit of the fiat equivalent |
| Services.DemoServices.PayOut | core/services.py:167-170 | Appends exactly one debit of the converted amount to the user's wallet account, memo defaulting to "redeem" |
| Services.DemoServices.Settle | core/services.py:89-116 | The chain call, then either the clash outcome (winner's job, or IntegrityError with the chain rolled back) or one new job whose amount moves the balance, the ledger and the chain balance alike |
| Services.DemoServices.CallChain | core/services.py:90 | The chain balance moves by +units for a mint and -units for a burn, and the receipt is that call's fixed receipt |
| Services.DemoServices.Record | core/services.py:108-116 | Inserts the job, moves the owner's cached balance by its signed amount, appends its ledger pair, and keeps the invariant |
| Services.DemoServices.IngestSince | core/services.py:47-73 | Seeds, lists the demo account's feed, and records exactly the unseen provider transactions. `ingested` counts them and `minted` counts the new credits, with minted <= ingested. Existing jobs and ledger rows are kept, and only key-less mint jobs are appended, one per mint; the balance rises by the converted new credits; the wallet log is unchanged |
| Services.DemoServices.IngestFeed | core/services.py:59-73 | The loop over the feed: the final table, counts and balance are those of the feed's specification functions; the old jobs are kept and only `minted` key-less mint jobs are appended; the cache stays in sync with the chain |
| Services.DemoServices.IngestAt | core/services.py:59-72 | One loop turn carries the loop invariant (table, counts, balance, kept jobs with key-less mints appended, sync) from item i to item i + 1 |
| Services.DemoServices.IngestItem | core/services.py:60-72 | An unseen provider id is recorded; when it is a credit exactly one key-less mint job of its converted amount is appended for user 0. A seen id changes neither the table, the jobs nor the balance |
| Services.DebugViewConsistent | api/views_read.py:74-106 | In every reachable state with the demo user seeded, mints minus burns over all jobs equal the cached token balance |
| Services.CacheMatchesLedger | core/models.py:54-60 | The cached balance equals the user's ledger position, and the ledger as a whole is balanced |

## Left out

- Database transactions, row locks and real concurrency. Each call is one sequential atomic step. A rollback on a propagated IntegrityError is modelled by restoring the chain stub's table. A concurrent winner of the key race is the `raced` parameter.
- Services.DemoServices.Mint: after a lost key race (a key given and `raced` present), the model follows the handler at core/services.py:102-106 as written: it returns the winner's job, the chain call stays, and the cache no longer equals the chain balance, so the `Synced` ensures excludes that case.
- Services.DemoServices.Redeem: the same holds after a lost key race, following core/services.py:150-154 as written.
- Django's rule for a broken transaction is not modelled. The IntegrityError is caught inside the function's own atomic block with no inner savepoint, so under Django the re-fetch in the handler would itself fail with TransactionManagementError and the whole call, chain call included, would roll back. The model gives the handler's evident intent instead.
- Integer widths are not modelled. `balance_units` and `amount_units` are 64-bit signed BigIntegerFields, and `amount_pkr` is a DecimalField with at most 18 digits. A `+=`/`-=` or an amount outside those ranges fails on save and rolls the call back. The model's integers are unbounded, so it has no such error path.
- The fiat/token conversions (`pkr_to_units`, `units_to_pkr` and the `.2f` formatting) use floating point. They are the abstract parameters `pkrToUnits` and `unitsToPaisa`, and no rounding property is stated.
- Services.DemoServices.IngestSince: it states that the old jobs are kept and that only key-less mint jobs are appended, how many, and the exact balance change. It does not state each added job's amount and provider reference; IngestItem states them one item at a time.
- Services.DemoServices.IngestSince: it does not state the chain stub's and the wallet account table's new contents. It states only that the cache stays in sync with the chain and that the wallet log is unchanged.
- Wallet.WalletAdapter.Balance: it returns the balance as integer paisa, not the 2-place decimal string.
- Random UUIDs and provider transaction ids are not modelled. Users and jobs are numbered by their position in their table, and provider ids by their position in the wallet log.
- ISO timestamp parsing and time zones are not modelled. Timestamps are integers. An empty or missing `since` is `None`. The clock is the `now` parameter of the wallet calls.
- The user lookup in mint and redeem takes a user id from the caller. Only seeding creates users, always the demo identity, so the model has at most one user.
- The ExternalTransaction status field and the RECEIVED→MINTED flip, and checks that amounts are positive, are not in the code. The model follows the code and has neither.
- The HTTP views, routing, settings, and the stub apps' own views and schemas are not part of this model. The debug view enters only through the aggregate it checks.
- `created_at`, `recorded_at` and `confirmed_at` timestamps are not modelled. Nothing in the engine reads them.
