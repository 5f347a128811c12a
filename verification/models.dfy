/**
 * Record shapes of the settlement engine's tables (core/models.py) and the
 * uniqueness constraints the database enforces on them.
 *
 * Ids are opaque in the source (random UUIDs); here users and chain jobs are
 * numbered by their position in their table and wallet-provider transactions by
 * their position in the provider's log, which is enough to make every id fresh.
 * Fiat amounts are exact 2-place decimals, so they are held as integer paisa;
 * token amounts are integer base units; timestamps are integers.
 */
module Models {

  datatype Option<T> = None | Some(value: T)

  type UserId = nat
  type JobId = nat
  /** A wallet provider's transaction id (ExternalTransaction.provider_tx_id). */
  type TxId = nat

  /** 'debit' | 'credit': the side of a ledger row, and the direction of a wallet transaction. */
  datatype Side = Debit | Credit

  /** 'issuer_token' | 'user_token', the two logical token accounts of the ledger. */
  datatype Account = IssuerToken | UserToken

  /** 'mint' | 'burn': ChainJob.job_type and LedgerEntry.ref_type. */
  datatype JobType = MintJob | BurnJob

  datatype User = User(id: UserId, email: string, displayName: string)

  datatype WalletAccount = WalletAccount(user: UserId, provider: string, providerAcct: string)

  datatype ExternalTransaction = ExternalTransaction(
    walletAcct: WalletAccount,
    providerTxId: TxId,
    direction: Side,
    amountPaisa: int,
    memo: string,
    occurredAt: int)

  /** The audit row of one call to the chain; `refExternalTx` names the originating provider transaction. */
  datatype ChainJob = ChainJob(
    id: JobId,
    user: UserId,
    jobType: JobType,
    amountUnits: int,
    refExternalTx: Option<TxId>,
    txHash: string,
    status: string,
    idempotencyKey: Option<string>)

  /** One double-entry row; issuer-side rows carry no user. */
  datatype LedgerEntry = LedgerEntry(
    user: Option<UserId>,
    side: Side,
    account: Account,
    amountUnits: int,
    refType: JobType,
    refId: JobId)

  /** The errors the orchestration raises: ValidationError("insufficient_balance") and a uniqueness IntegrityError. */
  datatype Error = InsufficientBalance | IntegrityError

  datatype Result<T> = Ok(value: T) | Err(error: Error)

  /** Python truthiness of an optional key: both None and "" mean "no key". */
  predicate KeyGiven(key: Option<string>)
  {
    key.Some? && key.value != ""
  }

  /** idempotency_key is nullable and, when present, unique across ChainJobs. */
  ghost predicate IdempotencyKeysUnique(jobs: seq<ChainJob>)
  {
    forall i, j :: 0 <= i < j < |jobs| && jobs[i].idempotencyKey.Some? ==>
      jobs[i].idempotencyKey != jobs[j].idempotencyKey
  }

  /** The job stored under `key`, if any (a filter on idempotency_key followed by first()). */
  function FindByKey(jobs: seq<ChainJob>, key: string): (r: Option<ChainJob>)
    ensures r.Some? ==> r.value in jobs && r.value.idempotencyKey == Some(key)
    ensures r.None? ==> forall i :: 0 <= i < |jobs| ==> jobs[i].idempotencyKey != Some(key)
  {
    if jobs == [] then None
    else if jobs[0].idempotencyKey == Some(key) then Some(jobs[0])
    else FindByKey(jobs[1..], key)
  }

  /** Would inserting a row with this key violate the uniqueness constraint? NULL never clashes. */
  predicate KeyTaken(jobs: seq<ChainJob>, key: Option<string>)
  {
    key.Some? && FindByKey(jobs, key.value).Some?
  }

  /** Inserting a job whose key does not clash keeps idempotency keys unique. */
  lemma AppendKeepsKeysUnique(jobs: seq<ChainJob>, job: ChainJob)
    requires IdempotencyKeysUnique(jobs)
    requires !KeyTaken(jobs, job.idempotencyKey)
    ensures IdempotencyKeysUnique(jobs + [job])
  {
  }

  /** Under the uniqueness constraint a key identifies one job: the lookup finds exactly the job holding it. */
  lemma KeyIdentifiesJob(jobs: seq<ChainJob>, i: nat)
    requires IdempotencyKeysUnique(jobs)
    requires i < |jobs| && jobs[i].idempotencyKey.Some?
    ensures FindByKey(jobs, jobs[i].idempotencyKey.value) == Some(jobs[i])
  {
  }
}
