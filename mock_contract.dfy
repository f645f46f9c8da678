/**
 * The ledger object itself: an admin identity and two tables updated in place.
 * Each method follows the source's sequence of guards and writes, and is proved
 * to take the object exactly as the matching transition in LedgerState prescribes.
 */
module MockContract {
  import opened LedgerState

  class Ledger {
    var admin: string
    var producers: map<string, Producer>
    var balances: map<string, int>

    /** The object's state as a value. */
    function Snapshot(): State
      reads this
    {
      State(admin, producers, balances)
    }

    /** The object invariant: no balance is negative. */
    predicate Valid()
      reads this
    {
      NonNegative(balances)
    }

    /** A fresh ledger, as the test suite resets it before each case. */
    constructor ()
      ensures Valid()
      ensures Snapshot() == Initial()
    {
      admin := "STADMIN";
      producers := map[];
      balances := map[];
    }

    /** isAdmin: whether `caller` is the current admin. */
    function IsAdmin(caller: string): (b: bool)
      reads this
      ensures b <==> caller == Snapshot().admin
    {
      caller == admin
    }

    /** registerProducer */
    method RegisterProducer(caller: string, name: string) returns (r: Outcome)
      requires Valid()
      modifies this
      ensures Valid()
      ensures Step(r, Snapshot()) == Register(old(Snapshot()), caller, name)
    {
      if caller in producers {
        return Failed(AlreadyRegistered);
      }
      producers := producers[caller := Producer(name, false)];
      return Done;
    }

    /** verifyProducer */
    method VerifyProducer(caller: string, producer: string) returns (r: Outcome)
      requires Valid()
      modifies this
      ensures Valid()
      ensures Step(r, Snapshot()) == Verify(old(Snapshot()), caller, producer)
    {
      if !IsAdmin(caller) {
        return Failed(NotAuthorized);
      }
      if producer !in producers {
        return Failed(NotFound);
      }
      var data := producers[producer];
      producers := producers[producer := data.(verified := true)];
      return Done;
    }

    /** mintEnergy */
    method MintEnergy(caller: string, amount: int) returns (r: Outcome)
      requires Valid()
      modifies this
      ensures Valid()
      ensures Step(r, Snapshot()) == Mint(old(Snapshot()), caller, amount)
    {
      if amount <= 0 {
        return Failed(InvalidAmount);
      }
      if caller !in producers {
        return Failed(NotFound);
      }
      var data := producers[caller];
      if !data.verified {
        return Failed(NotAuthorized);
      }
      var prev := BalanceOf(balances, caller);
      balances := balances[caller := prev + amount];
      return Done;
    }

    /** burnEnergy */
    method BurnEnergy(caller: string, amount: int) returns (r: Outcome)
      requires Valid()
      modifies this
      ensures Valid()
      ensures Step(r, Snapshot()) == Burn(old(Snapshot()), caller, amount)
    {
      if amount <= 0 {
        return Failed(InvalidAmount);
      }
      var prev := BalanceOf(balances, caller);
      if prev < amount {
        return Failed(InsufficientBalance);
      }
      balances := balances[caller := prev - amount];
      return Done;
    }

    /** transferEnergy: the recipient's balance is read before the sender's is written. */
    method TransferEnergy(from: string, to: string, amount: int) returns (r: Outcome)
      requires Valid()
      modifies this
      ensures Valid()
      ensures Step(r, Snapshot()) == Transfer(old(Snapshot()), from, to, amount)
    {
      if amount <= 0 {
        return Failed(InvalidAmount);
      }
      var fromBal := BalanceOf(balances, from);
      if fromBal < amount {
        return Failed(InsufficientBalance);
      }
      var toBal := BalanceOf(balances, to);
      balances := balances[from := fromBal - amount];
      balances := balances[to := toBal + amount];
      return Done;
    }

    /** transferAdmin */
    method TransferAdmin(caller: string, newAdmin: string) returns (r: Outcome)
      requires Valid()
      modifies this
      ensures Valid()
      ensures Step(r, Snapshot()) == ChangeAdmin(old(Snapshot()), caller, newAdmin)
    {
      if !IsAdmin(caller) {
        return Failed(NotAuthorized);
      }
      admin := newAdmin;
      return Done;
    }
  }
}
