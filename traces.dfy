/**
 * Sequences of ledger calls: the properties every single call keeps, and by induction
 * the properties of any run of calls from any state.
 */
module Traces {
  import opened LedgerState
  import opened Supply

  /** One call on the ledger, with its arguments. */
  datatype Call =
    | RegisterProducer(caller: string, name: string)
    | VerifyProducer(caller: string, producer: string)
    | MintEnergy(caller: string, amount: int)
    | BurnEnergy(caller: string, amount: int)
    | TransferEnergy(from: string, to: string, amount: int)
    | TransferAdmin(caller: string, newAdmin: string)

  /** The effect of one call. */
  function Apply(s: State, c: Call): Step
  {
    match c
    case RegisterProducer(caller, name) => Register(s, caller, name)
    case VerifyProducer(caller, producer) => Verify(s, caller, producer)
    case MintEnergy(caller, amount) => Mint(s, caller, amount)
    case BurnEnergy(caller, amount) => Burn(s, caller, amount)
    case TransferEnergy(from, to, amount) => Transfer(s, from, to, amount)
    case TransferAdmin(caller, newAdmin) => ChangeAdmin(s, caller, newAdmin)
  }

  /** The state after running the calls in order. */
  function Run(s: State, calls: seq<Call>): State
    decreases |calls|
  {
    if calls == [] then s else Run(Apply(s, calls[0]).post, calls[1..])
  }

  /** By how much one call changes the total supply: a successful mint or self-transfer adds, a successful burn removes. */
  function SupplyChange(s: State, c: Call): int
  {
    match c
    case MintEnergy(caller, amount) => if Mint(s, caller, amount).outcome == Done then amount else 0
    case BurnEnergy(caller, amount) => if Burn(s, caller, amount).outcome == Done then -amount else 0
    case TransferEnergy(from, to, amount) =>
      if from == to && Transfer(s, from, to, amount).outcome == Done then amount else 0
    case _ => 0
  }

  /** The net supply change of a whole run, call by call. */
  function NetSupplyChange(s: State, calls: seq<Call>): int
    decreases |calls|
  {
    if calls == [] then 0 else SupplyChange(s, calls[0]) + NetSupplyChange(Apply(s, calls[0]).post, calls[1..])
  }

  /** Producer records are never deleted, never renamed, and once verified stay verified. */
  ghost predicate ProducersKept(p: map<string, Producer>, p': map<string, Producer>)
  {
    forall id :: id in p ==> id in p' && p'[id].name == p[id].name && (p[id].verified ==> p'[id].verified)
  }

  /** A failing call leaves the whole state unchanged. */
  lemma FailedCallChangesNothing(s: State, c: Call)
    requires Apply(s, c).outcome.Failed?
    ensures Apply(s, c).post == s
  {
  }

  /** Only a successful transferAdmin by the current admin changes the admin. */
  lemma AdminChangesOnlyByHandOver(s: State, c: Call)
    ensures Apply(s, c).post.admin != s.admin ==> c.TransferAdmin? && c.caller == s.admin
  {
  }

  /** One call keeps every balance non-negative. */
  lemma StepKeepsNonNegative(s: State, c: Call)
    requires NonNegative(s.balances)
    ensures NonNegative(Apply(s, c).post.balances)
  {
  }

  /** No run of calls from a state without negative balances produces one. */
  lemma {:induction false} RunKeepsNonNegative(s: State, calls: seq<Call>)
    requires NonNegative(s.balances)
    ensures NonNegative(Run(s, calls).balances)
    decreases |calls|
  {
    if calls != [] {
      StepKeepsNonNegative(s, calls[0]);
      RunKeepsNonNegative(Apply(s, calls[0]).post, calls[1..]);
    }
  }

  /** Every state reachable from a fresh ledger has only non-negative balances, and so a non-negative supply. */
  lemma ReachableNonNegative(calls: seq<Call>)
    ensures NonNegative(Run(Initial(), calls).balances)
    ensures Total(Run(Initial(), calls).balances) >= 0
  {
    RunKeepsNonNegative(Initial(), calls);
    TotalNonNegative(Run(Initial(), calls).balances);
  }

  /** One call keeps every producer record. */
  lemma StepKeepsProducers(s: State, c: Call)
    ensures ProducersKept(s.producers, Apply(s, c).post.producers)
  {
  }

  /** Any run of calls keeps every producer record. */
  lemma {:induction false} RunKeepsProducers(s: State, calls: seq<Call>)
    ensures ProducersKept(s.producers, Run(s, calls).producers)
    decreases |calls|
  {
    if calls != [] {
      var mid := Apply(s, calls[0]).post;
      StepKeepsProducers(s, calls[0]);
      RunKeepsProducers(mid, calls[1..]);
    }
  }

  /** One call changes the total supply by exactly SupplyChange. */
  lemma StepSupply(s: State, c: Call)
    ensures Total(Apply(s, c).post.balances) == Total(s.balances) + SupplyChange(s, c)
  {
    if Apply(s, c).outcome == Done {
      match c
      case MintEnergy(caller, amount) => MintSupply(s, caller, amount);
      case BurnEnergy(caller, amount) => BurnSupply(s, caller, amount);
      case TransferEnergy(from, to, amount) => TransferSupply(s, from, to, amount);
      case _ =>
    }
  }

  /** A run changes the total supply by exactly the net supply change of its calls. */
  lemma {:induction false} RunSupply(s: State, calls: seq<Call>)
    ensures Total(Run(s, calls).balances) == Total(s.balances) + NetSupplyChange(s, calls)
    decreases |calls|
  {
    if calls != [] {
      StepSupply(s, calls[0]);
      RunSupply(Apply(s, calls[0]).post, calls[1..]);
    }
  }

  /** A run made only of transfers between distinct parties conserves the total supply. */
  lemma {:induction false} TransfersConserveSupply(s: State, calls: seq<Call>)
    requires forall i :: 0 <= i < |calls| ==> calls[i].TransferEnergy? && calls[i].from != calls[i].to
    ensures Total(Run(s, calls).balances) == Total(s.balances)
    decreases |calls|
  {
    if calls != [] {
      StepSupply(s, calls[0]);
      TransfersConserveSupply(Apply(s, calls[0]).post, calls[1..]);
    }
  }
}
