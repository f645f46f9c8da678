/**
 * The test suite's cases, plus one self-transfer case for
 * tests/energy-tokenization.test.ts:48-50, each starting from a fresh ledger and proved from the methods'
 * contracts alone.
 */
module Scenarios {
  import opened LedgerState
  import opened MockContract

  /** A new identity registers as a producer. */
  method RegistersNewProducer() returns (r: Outcome)
    ensures r == Done
  {
    var ledger := new Ledger();
    r := ledger.RegisterProducer("STPROD1", "SolarCo");
  }

  /** The admin verifies a registered producer. */
  method AdminVerifiesProducer() returns (r: Outcome)
    ensures r == Done
  {
    var ledger := new Ledger();
    var _ := ledger.RegisterProducer("STPROD1", "SolarCo");
    r := ledger.VerifyProducer("STADMIN", "STPROD1");
  }

  /** A verified producer mints 100 and holds 100. */
  method MintsForVerifiedProducer() returns (r: Outcome, balance: int)
    ensures r == Done && balance == 100
  {
    var ledger := new Ledger();
    var _ := ledger.RegisterProducer("STPROD1", "SolarCo");
    var _ := ledger.VerifyProducer("STADMIN", "STPROD1");
    r := ledger.MintEnergy("STPROD1", 100);
    balance := ledger.balances["STPROD1"];
  }

  /** An unverified producer may not mint: error 100. */
  method MintFailsUnverified() returns (r: Outcome)
    ensures r.Failed? && Code(r.error) == 100
  {
    var ledger := new Ledger();
    var _ := ledger.RegisterProducer("STPROD1", "SolarCo");
    r := ledger.MintEnergy("STPROD1", 100);
  }

  /** Burning 50 of 100 leaves 50. */
  method BurnsTokens() returns (r: Outcome, balance: int)
    ensures r == Done && balance == 50
  {
    var ledger := new Ledger();
    var _ := ledger.RegisterProducer("STPROD1", "SolarCo");
    var _ := ledger.VerifyProducer("STADMIN", "STPROD1");
    var _ := ledger.MintEnergy("STPROD1", 100);
    r := ledger.BurnEnergy("STPROD1", 50);
    balance := ledger.balances["STPROD1"];
  }

  /** Transferring 60 of 100 to another user leaves 40 and 60. */
  method TransfersBetweenUsers() returns (r: Outcome, user: int, producer: int)
    ensures r == Done && user == 60 && producer == 40
  {
    var ledger := new Ledger();
    var _ := ledger.RegisterProducer("STPROD1", "SolarCo");
    var _ := ledger.VerifyProducer("STADMIN", "STPROD1");
    var _ := ledger.MintEnergy("STPROD1", 100);
    r := ledger.TransferEnergy("STPROD1", "STUSER1", 60);
    user := ledger.balances["STUSER1"];
    producer := ledger.balances["STPROD1"];
  }

  /** The admin hands the role to a new identity. */
  method TransfersAdminRole() returns (r: Outcome, admin: string)
    ensures r == Done && admin == "STNEWADMIN"
  {
    var ledger := new Ledger();
    r := ledger.TransferAdmin("STADMIN", "STNEWADMIN");
    admin := ledger.admin;
  }

  /** Transferring 60 of 100 from a producer to itself leaves 160. */
  method SelfTransferRaisesBalance() returns (r: Outcome, balance: int)
    ensures r == Done && balance == 160
  {
    var ledger := new Ledger();
    var _ := ledger.RegisterProducer("STPROD1", "SolarCo");
    var _ := ledger.VerifyProducer("STADMIN", "STPROD1");
    var _ := ledger.MintEnergy("STPROD1", 100);
    r := ledger.TransferEnergy("STPROD1", "STPROD1", 60);
    balance := ledger.balances["STPROD1"];
  }
}
