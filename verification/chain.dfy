/**
 * The chain collaborator (core/adapters/chain_adapter.py): a per-user balance
 * table standing in for on-chain state, with mint and burn calls that always
 * return a confirmed receipt.
 */
module Chain {
  import opened Models

  datatype Receipt = Receipt(txHash: string, status: string)

  /** The fixed receipts the stub returns for a mint and for a burn. */
  const MINTED := Receipt("0xMINT", "confirmed")
  const BURNED := Receipt("0xBURN", "confirmed")

  /** The table after adding `delta` to `u`'s row, creating the row at 0 first when there is none. */
  function Shifted(balances: map<UserId, int>, u: UserId, delta: int): map<UserId, int>
  {
    balances[u := (if u in balances then balances[u] else 0) + delta]
  }

  /** Minting and then burning the same amount leaves every user's balance where it was. */
  lemma MintBurnRoundTrip(balances: map<UserId, int>, u: UserId, amount: int, v: UserId)
    ensures var after := Shifted(Shifted(balances, u, amount), u, -amount);
      (if v in after then after[v] else 0) == (if v in balances then balances[v] else 0)
  {
  }

  class ChainAdapter {
    /** The ChainStubBalance table: user id -> balance in token units. */
    var balances: map<UserId, int>

    constructor ()
      ensures balances == map[]
    {
      balances := map[];
    }

    /** A user with no row reads as 0. */
    function BalanceOf(u: UserId): int
      reads this
    {
      if u in balances then balances[u] else 0
    }

    /** Increments only `u`'s balance, by `amount`. */
    method Mint(u: UserId, amount: int) returns (receipt: Receipt)
      modifies this
      ensures balances == Shifted(old(balances), u, amount)
      ensures BalanceOf(u) == old(BalanceOf(u)) + amount
      ensures forall v :: v != u ==> BalanceOf(v) == old(BalanceOf(v))
      ensures receipt == MINTED
    {
      var bal := GetOrCreate(u);
      balances := balances[u := bal + amount];
      receipt := MINTED;
    }

    /** Decrements only `u`'s balance, by `amount`; nothing stops it going below zero. */
    method Burn(u: UserId, amount: int) returns (receipt: Receipt)
      modifies this
      ensures balances == Shifted(old(balances), u, -amount)
      ensures BalanceOf(u) == old(BalanceOf(u)) - amount
      ensures forall v :: v != u ==> BalanceOf(v) == old(BalanceOf(v))
      ensures receipt == BURNED
    {
      var bal := GetOrCreate(u);
      balances := balances[u := bal - amount];
      receipt := BURNED;
    }

    /** Reads `u`'s balance; like the source, it inserts a zero row when there is none. */
    method GetBalance(u: UserId) returns (b: int)
      modifies this
      ensures b == old(BalanceOf(u))
      ensures balances == old(balances)[u := b]
      ensures forall v :: BalanceOf(v) == old(BalanceOf(v))
    {
      b := GetOrCreate(u);
    }

    /** get_or_create on the balance row, with default 0. */
    method GetOrCreate(u: UserId) returns (bal: int)
      modifies this
      ensures u in balances && bal == balances[u] == old(BalanceOf(u))
      ensures balances == old(balances)[u := bal]
    {
      if u !in balances {
        balances := balances[u := 0];
      }
      bal := balances[u];
    }
  }
}
