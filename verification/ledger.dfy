/**
 * The double-entry ledger written by mint and redeem (core/services.py), as
 * functions of the chain-job table: the pair of rows each job writes, the
 * ledger that a table of jobs determines, and the balances read off them.
 * Sign convention: a debit counts +amount, a credit -amount, so a user's
 * user_token debits minus credits is that user's token position.
 */
module Ledger {
  import opened Models

  /** The two rows a job writes: issuer credit + user debit for a mint, user credit + issuer debit for a burn. */
  function PairFor(job: ChainJob): seq<LedgerEntry>
  {
    match job.jobType
    case MintJob =>
      [LedgerEntry(None, Credit, IssuerToken, job.amountUnits, MintJob, job.id),
       LedgerEntry(Some(job.user), Debit, UserToken, job.amountUnits, MintJob, job.id)]
    case BurnJob =>
      [LedgerEntry(Some(job.user), Credit, UserToken, job.amountUnits, BurnJob, job.id),
       LedgerEntry(None, Debit, IssuerToken, job.amountUnits, BurnJob, job.id)]
  }

  /** The ledger that a table of jobs has written, job by job, in insertion order. */
  function Postings(jobs: seq<ChainJob>): seq<LedgerEntry>
  {
    if jobs == [] then [] else Postings(jobs[..|jobs| - 1]) + PairFor(jobs[|jobs| - 1])
  }

  function Signed(e: LedgerEntry): int
  {
    if e.side == Debit then e.amountUnits else -e.amountUnits
  }

  /** Debits minus credits over all rows, both accounts. */
  function SignedTotal(rows: seq<LedgerEntry>): int
  {
    if rows == [] then 0 else SignedTotal(rows[..|rows| - 1]) + Signed(rows[|rows| - 1])
  }

  /** Debits minus credits on `u`'s user_token rows. */
  function UserNet(rows: seq<LedgerEntry>, u: UserId): int
  {
    if rows == [] then 0
    else
      UserNet(rows[..|rows| - 1], u) + UserPart(rows[|rows| - 1], u)
  }

  /** A row's contribution to `u`'s user_token position. */
  function UserPart(e: LedgerEntry, u: UserId): int
  {
    if e.account == UserToken && e.user == Some(u) then Signed(e) else 0
  }

  /** What a job adds to `u`'s token position: +amount for a mint, -amount for a burn, 0 for other users. */
  function Delta(job: ChainJob, u: UserId): int
  {
    if job.user != u then 0 else if job.jobType == MintJob then job.amountUnits else -job.amountUnits
  }

  /** Sum of `u`'s mint jobs minus sum of `u`'s burn jobs. */
  function NetOf(jobs: seq<ChainJob>, u: UserId): int
  {
    if jobs == [] then 0 else NetOf(jobs[..|jobs| - 1], u) + Delta(jobs[|jobs| - 1], u)
  }

  /** Sum of amount_units over the jobs of one type, as the debug view aggregates it. */
  function SumOfType(jobs: seq<ChainJob>, t: JobType): int
  {
    if jobs == [] then 0
    else SumOfType(jobs[..|jobs| - 1], t) + (if jobs[|jobs| - 1].jobType == t then jobs[|jobs| - 1].amountUnits else 0)
  }

  /** A mint writes exactly two rows of the job's amount, ref_type mint, ref_id the job: an issuer_token credit with no user and a user_token debit for the user. */
  lemma MintPair(job: ChainJob)
    requires job.jobType == MintJob
    ensures PairFor(job) == [LedgerEntry(None, Credit, IssuerToken, job.amountUnits, MintJob, job.id),
                             LedgerEntry(Some(job.user), Debit, UserToken, job.amountUnits, MintJob, job.id)]
    ensures SignedTotal(PairFor(job)) == 0 && UserNet(PairFor(job), job.user) == job.amountUnits
  {
    PairSums(job, job.user);
  }

  /** A burn writes the mirrored pair: a user_token credit for the user and an issuer_token debit with no user. */
  lemma BurnPair(job: ChainJob)
    requires job.jobType == BurnJob
    ensures PairFor(job) == [LedgerEntry(Some(job.user), Credit, UserToken, job.amountUnits, BurnJob, job.id),
                             LedgerEntry(None, Debit, IssuerToken, job.amountUnits, BurnJob, job.id)]
    ensures SignedTotal(PairFor(job)) == 0 && UserNet(PairFor(job), job.user) == -job.amountUnits
  {
    PairSums(job, job.user);
  }

  /** Sums over one job's pair: balanced overall, and the job's delta on each user's position. */
  lemma PairSums(job: ChainJob, u: UserId)
    ensures SignedTotal(PairFor(job)) == 0 && UserNet(PairFor(job), u) == Delta(job, u)
  {
    var p := PairFor(job);
    assert p[..|p| - 1] == [p[0]] && [p[0]][..0] == [];
    assert SignedTotal([p[0]]) == Signed(p[0]);
    assert UserNet([p[0]], u) == UserPart(p[0], u);
  }

  lemma {:induction false} SignedTotalAppend(a: seq<LedgerEntry>, b: seq<LedgerEntry>)
    ensures SignedTotal(a + b) == SignedTotal(a) + SignedTotal(b)
    decreases |b|
  {
    if b != [] {
      assert (a + b)[..|a + b| - 1] == a + b[..|b| - 1];
      SignedTotalAppend(a, b[..|b| - 1]);
    } else {
      assert a + b == a;
    }
  }

  lemma {:induction false} UserNetAppend(a: seq<LedgerEntry>, b: seq<LedgerEntry>, u: UserId)
    ensures UserNet(a + b, u) == UserNet(a, u) + UserNet(b, u)
    decreases |b|
  {
    if b != [] {
      assert (a + b)[..|a + b| - 1] == a + b[..|b| - 1];
      UserNetAppend(a, b[..|b| - 1], u);
    } else {
      assert a + b == a;
    }
  }

  /** The ledger is balanced in aggregate: over every job's rows, debits equal credits. */
  lemma {:induction false} LedgerBalanced(jobs: seq<ChainJob>)
    ensures SignedTotal(Postings(jobs)) == 0
  {
    if jobs != [] {
      var last := jobs[|jobs| - 1];
      LedgerBalanced(jobs[..|jobs| - 1]);
      SignedTotalAppend(Postings(jobs[..|jobs| - 1]), PairFor(last));
      PairSums(last, 0);
    }
  }

  /** A user's user_token debits minus credits equal the user's mints minus burns. */
  lemma {:induction false} UserLedgerMatchesJobs(jobs: seq<ChainJob>, u: UserId)
    ensures UserNet(Postings(jobs), u) == NetOf(jobs, u)
  {
    if jobs != [] {
      var last := jobs[|jobs| - 1];
      UserLedgerMatchesJobs(jobs[..|jobs| - 1], u);
      UserNetAppend(Postings(jobs[..|jobs| - 1]), PairFor(last), u);
      PairSums(last, u);
    }
  }

  /** Every job writes exactly two rows. */
  lemma {:induction false} PostingsLength(jobs: seq<ChainJob>)
    ensures |Postings(jobs)| == 2 * |jobs|
  {
    if jobs != [] {
      PostingsLength(jobs[..|jobs| - 1]);
    }
  }

  /** The rows come in job order: rows 2i and 2i+1 are job i's pair. */
  lemma {:induction false} PostingsPairAt(jobs: seq<ChainJob>, i: nat)
    requires i < |jobs|
    ensures |Postings(jobs)| == 2 * |jobs|
    ensures Postings(jobs)[2 * i] == PairFor(jobs[i])[0] && Postings(jobs)[2 * i + 1] == PairFor(jobs[i])[1]
  {
    var n := |jobs| - 1;
    var prefix := jobs[..n];
    PostingsLength(prefix);
    assert Postings(jobs) == Postings(prefix) + PairFor(jobs[n]);
    if i < n {
      PostingsPairAt(prefix, i);
      assert prefix[i] == jobs[i];
    }
  }

  /** Rows are only ever appended: extending the job table extends the ledger it determines. */
  lemma {:induction false} PostingsPrefix(before: seq<ChainJob>, after: seq<ChainJob>)
    requires before <= after
    ensures Postings(before) <= Postings(after)
    decreases |after|
  {
    if |after| > |before| {
      var prefix := after[..|after| - 1];
      assert before <= prefix;
      PostingsPrefix(before, prefix);
      assert Postings(after) == Postings(prefix) + PairFor(after[|after| - 1]);
    } else {
      assert before == after;
    }
  }

  /** Issuer-side rows are exactly the rows without a user. */
  lemma {:induction false} IssuerRowsHaveNoUser(jobs: seq<ChainJob>)
    ensures forall k :: 0 <= k < |Postings(jobs)| ==>
      (Postings(jobs)[k].user.None? <==> Postings(jobs)[k].account == IssuerToken)
  {
    if jobs != [] {
      IssuerRowsHaveNoUser(jobs[..|jobs| - 1]);
    }
  }

  /** When every job belongs to `u` (the single demo user), mints minus burns over the whole table is `u`'s net. */
  lemma {:induction false} SingleUserNetIsTotal(jobs: seq<ChainJob>, u: UserId)
    requires forall k :: 0 <= k < |jobs| ==> jobs[k].user == u
    ensures NetOf(jobs, u) == SumOfType(jobs, MintJob) - SumOfType(jobs, BurnJob)
  {
    if jobs != [] {
      SingleUserNetIsTotal(jobs[..|jobs| - 1], u);
    }
  }

  /** Appending a job changes each user's net by that job's delta (the step every orchestration proof takes). */
  lemma NetOfAppend(jobs: seq<ChainJob>, job: ChainJob, u: UserId)
    ensures NetOf(jobs + [job], u) == NetOf(jobs, u) + Delta(job, u)
    ensures Postings(jobs + [job]) == Postings(jobs) + PairFor(job)
  {
  }
}
