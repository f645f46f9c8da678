/**
 * The total supply of energy tokens: the sum of every stored balance, and how each
 * balance-changing operation moves it.
 */
module Supply {
  import opened LedgerState

  /** The sum of all balances in the table. */
  ghost function Total(balances: map<string, int>): int
    decreases |balances|
  {
    if balances == map[] then 0
    else
      var k :| k in balances;
      balances[k] + Total(balances - {k})
  }

  /** Total does not depend on the order of summation: any entry may be taken out first. */
  lemma {:induction false} TotalRemove(balances: map<string, int>, x: string)
    requires x in balances
    ensures Total(balances) == balances[x] + Total(balances - {x})
    decreases |balances|
  {
    var k :| k in balances && Total(balances) == balances[k] + Total(balances - {k});
    if k != x {
      var rest := balances - {k} - {x};
      assert balances - {x} - {k} == rest;
      TotalRemove(balances - {k}, x);
      TotalRemove(balances - {x}, k);
    }
  }

  /** Writing `v` for `who` changes the total by `v` minus the balance `who` had (0 if absent). */
  lemma TotalUpdate(balances: map<string, int>, who: string, v: int)
    ensures Total(balances[who := v]) == Total(balances) - BalanceOf(balances, who) + v
  {
    var updated := balances[who := v];
    TotalRemove(updated, who);
    if who in balances {
      assert updated - {who} == balances - {who};
      TotalRemove(balances, who);
    } else {
      assert updated - {who} == balances;
    }
  }

  /** A table with no negative entry has a non-negative total. */
  lemma {:induction false} TotalNonNegative(balances: map<string, int>)
    requires NonNegative(balances)
    ensures Total(balances) >= 0
    decreases |balances|
  {
    if balances != map[] {
      var k :| k in balances;
      TotalRemove(balances, k);
      TotalNonNegative(balances - {k});
    }
  }

  /** A successful mint raises the total supply by exactly the amount minted. */
  lemma MintSupply(s: State, caller: string, amount: int)
    requires Mint(s, caller, amount).outcome == Done
    ensures Total(Mint(s, caller, amount).post.balances) == Total(s.balances) + amount
  {
    TotalUpdate(s.balances, caller, BalanceOf(s.balances, caller) + amount);
  }

  /** A successful burn lowers the total supply by exactly the amount burnt. */
  lemma BurnSupply(s: State, caller: string, amount: int)
    requires Burn(s, caller, amount).outcome == Done
    ensures Total(Burn(s, caller, amount).post.balances) == Total(s.balances) - amount
  {
    TotalUpdate(s.balances, caller, BalanceOf(s.balances, caller) - amount);
  }

  /**
   * A successful transfer between distinct parties conserves the total supply;
   * a successful transfer from an account to itself raises it by the amount.
   */
  lemma TransferSupply(s: State, from: string, to: string, amount: int)
    requires Transfer(s, from, to, amount).outcome == Done
    ensures from != to ==> Total(Transfer(s, from, to, amount).post.balances) == Total(s.balances)
    ensures from == to ==> Total(Transfer(s, from, to, amount).post.balances) == Total(s.balances) + amount
  {
    var fromBal := BalanceOf(s.balances, from);
    var toBal := BalanceOf(s.balances, to);
    var debited := s.balances[from := fromBal - amount];
    TotalUpdate(s.balances, from, fromBal - amount);
    TotalUpdate(debited, to, toBal + amount);
  }
}
