/**
 * The state of the energy-token ledger and its six guarded operations,
 * each written as a pure transition from a state to an outcome and a new state.
 * The class in MockContract is proved to follow these transitions step by step.
 */
module LedgerState {

  /** A producer record: the name given at registration and whether the admin has verified it. */
  datatype Producer = Producer(name: string, verified: bool)

  /** The flat error taxonomy of the ledger. */
  datatype Error = NotAuthorized | AlreadyRegistered | NotFound | InvalidAmount | InsufficientBalance

  /** The numeric code the ledger returns for each error (`{ error: code }`). */
  function Code(e: Error): (c: int)
    ensures c == 100 <==> e == NotAuthorized
    ensures c == 101 <==> e == AlreadyRegistered
    ensures c == 102 <==> e == NotFound
    ensures c == 103 <==> e == InvalidAmount
    ensures c == 104 <==> e == InsufficientBalance
  {
    match e
    case NotAuthorized => 100
    case AlreadyRegistered => 101
    case NotFound => 102
    case InvalidAmount => 103
    case InsufficientBalance => 104
  }

  /** What an operation returns: `{ value: true }` or `{ error: code }`. */
  datatype Outcome = Done | Failed(error: Error)

  /** The three pieces of ledger state: the admin identity, the producer table and the balance table. */
  datatype State = State(admin: string, producers: map<string, Producer>, balances: map<string, int>)

  /** The outcome of an operation together with the state it leaves behind. */
  datatype Step = Step(outcome: Outcome, post: State)

  /** A fresh ledger: admin "STADMIN", no producers, no balances. */
  function Initial(): (s: State)
    ensures s.admin == "STADMIN" && |s.producers| == 0 && |s.balances| == 0
  {
    State("STADMIN", map[], map[])
  }

  /** The balance of `who`, an absent entry reading as 0. */
  function BalanceOf(balances: map<string, int>, who: string): (r: int)
    ensures who !in balances ==> r == 0
    ensures who in balances ==> r == balances[who]
    ensures NonNegative(balances) ==> r >= 0
  {
    if who in balances then balances[who] else 0
  }

  /** No stored balance is negative. */
  predicate NonNegative(balances: map<string, int>)
  {
    forall w :: w in balances ==> balances[w] >= 0
  }

  /** Every balance other than those of `except` is the same in `b` and `b'`, entry and absence alike. */
  ghost predicate OthersUnchanged(b: map<string, int>, b': map<string, int>, except: set<string>)
  {
    forall w :: w !in except ==> (w in b <==> w in b') && (w in b ==> b'[w] == b[w])
  }

  /** registerProducer: fails with AlreadyRegistered for a known caller, otherwise records the caller as an unverified producer. */
  function Register(s: State, caller: string, name: string): (r: Step)
    ensures r.outcome == Failed(AlreadyRegistered) <==> caller in s.producers
    ensures r.outcome == Done <==> caller !in s.producers
    ensures r.outcome.Failed? ==> r.post == s
    ensures r.outcome == Done ==>
      && caller in r.post.producers && r.post.producers[caller] == Producer(name, false)
      && r.post.producers.Keys == s.producers.Keys + {caller}
      && (forall p :: p in s.producers ==> r.post.producers[p] == s.producers[p])
      && r.post.admin == s.admin && r.post.balances == s.balances
  {
    if caller in s.producers then Step(Failed(AlreadyRegistered), s)
    else Step(Done, s.(producers := s.producers[caller := Producer(name, false)]))
  }

  /** verifyProducer: only the admin may verify, and only a registered producer. */
  function Verify(s: State, caller: string, producer: string): (r: Step)
    ensures caller != s.admin ==> r.outcome == Failed(NotAuthorized)
    ensures caller == s.admin && producer !in s.producers ==> r.outcome == Failed(NotFound)
    ensures r.outcome == Done <==> caller == s.admin && producer in s.producers
    ensures r.outcome.Failed? ==> r.post == s
    ensures r.outcome == Done ==>
      && producer in r.post.producers
      && r.post.producers[producer] == Producer(s.producers[producer].name, true)
      && r.post.producers.Keys == s.producers.Keys
      && (forall p :: p in s.producers && p != producer ==> r.post.producers[p] == s.producers[p])
      && r.post.admin == s.admin && r.post.balances == s.balances
  {
    if caller != s.admin then Step(Failed(NotAuthorized), s)
    else if producer !in s.producers then Step(Failed(NotFound), s)
    else
      var data := s.producers[producer];
      Step(Done, s.(producers := s.producers[producer := data.(verified := true)]))
  }

  /** mintEnergy: a positive amount, minted by a registered and verified producer onto its own balance. */
  function Mint(s: State, caller: string, amount: int): (r: Step)
    ensures amount <= 0 ==> r.outcome == Failed(InvalidAmount)
    ensures amount > 0 && caller !in s.producers ==> r.outcome == Failed(NotFound)
    ensures amount > 0 && caller in s.producers && !s.producers[caller].verified ==>
      r.outcome == Failed(NotAuthorized)
    ensures r.outcome == Done <==>
      amount > 0 && caller in s.producers && s.producers[caller].verified
    ensures r.outcome.Failed? ==> r.post == s
    ensures r.outcome == Done ==>
      && BalanceOf(r.post.balances, caller) == BalanceOf(s.balances, caller) + amount
      && caller in r.post.balances
      && OthersUnchanged(s.balances, r.post.balances, {caller})
      && r.post.admin == s.admin && r.post.producers == s.producers
  {
    if amount <= 0 then Step(Failed(InvalidAmount), s)
    else if caller !in s.producers then Step(Failed(NotFound), s)
    else if !s.producers[caller].verified then Step(Failed(NotAuthorized), s)
    else
      var prev := BalanceOf(s.balances, caller);
      Step(Done, s.(balances := s.balances[caller := prev + amount]))
  }

  /** burnEnergy: a positive amount no larger than the caller's balance is removed from it. */
  function Burn(s: State, caller: string, amount: int): (r: Step)
    ensures amount <= 0 ==> r.outcome == Failed(InvalidAmount)
    ensures amount > 0 && BalanceOf(s.balances, caller) < amount ==>
      r.outcome == Failed(InsufficientBalance)
    ensures r.outcome == Done <==> 0 < amount <= BalanceOf(s.balances, caller)
    ensures r.outcome.Failed? ==> r.post == s
    ensures r.outcome == Done ==>
      && BalanceOf(r.post.balances, caller) == BalanceOf(s.balances, caller) - amount
      && BalanceOf(r.post.balances, caller) >= 0
      && caller in r.post.balances
      && OthersUnchanged(s.balances, r.post.balances, {caller})
      && r.post.admin == s.admin && r.post.producers == s.producers
  {
    if amount <= 0 then Step(Failed(InvalidAmount), s)
    else
      var prev := BalanceOf(s.balances, caller);
      if prev < amount then Step(Failed(InsufficientBalance), s)
      else Step(Done, s.(balances := s.balances[caller := prev - amount]))
  }

  /**
   * transferEnergy: a positive amount no larger than the sender's balance moves to the recipient.
   * The recipient's balance is read before the sender's is written, so when sender and
   * recipient coincide the second write wins and the balance ends `amount` higher.
   */
  function Transfer(s: State, from: string, to: string, amount: int): (r: Step)
    ensures amount <= 0 ==> r.outcome == Failed(InvalidAmount)
    ensures amount > 0 && BalanceOf(s.balances, from) < amount ==>
      r.outcome == Failed(InsufficientBalance)
    ensures r.outcome == Done <==> 0 < amount <= BalanceOf(s.balances, from)
    ensures r.outcome.Failed? ==> r.post == s
    ensures r.outcome == Done && from != to ==>
      && BalanceOf(r.post.balances, from) == BalanceOf(s.balances, from) - amount
      && BalanceOf(r.post.balances, to) == BalanceOf(s.balances, to) + amount
      && BalanceOf(r.post.balances, from) + BalanceOf(r.post.balances, to)
         == BalanceOf(s.balances, from) + BalanceOf(s.balances, to)
    ensures r.outcome == Done && from == to ==>
      BalanceOf(r.post.balances, from) == BalanceOf(s.balances, from) + amount
    ensures r.outcome == Done ==>
      && from in r.post.balances && to in r.post.balances
      && OthersUnchanged(s.balances, r.post.balances, {from, to})
      && r.post.admin == s.admin && r.post.producers == s.producers
  {
    if amount <= 0 then Step(Failed(InvalidAmount), s)
    else
      var fromBal := BalanceOf(s.balances, from);
      if fromBal < amount then Step(Failed(InsufficientBalance), s)
      else
        var toBal := BalanceOf(s.balances, to);
        Step(Done, s.(balances := s.balances[from := fromBal - amount][to := toBal + amount]))
  }

  /** transferAdmin: only the current admin may hand the role to another identity. */
  function ChangeAdmin(s: State, caller: string, newAdmin: string): (r: Step)
    ensures r.outcome == Failed(NotAuthorized) <==> caller != s.admin
    ensures r.outcome == Done <==> caller == s.admin
    ensures r.outcome.Failed? ==> r.post == s
    ensures r.outcome == Done ==>
      r.post.admin == newAdmin && r.post.producers == s.producers && r.post.balances == s.balances
  {
    if caller != s.admin then Step(Failed(NotAuthorized), s)
    else Step(Done, s.(admin := newAdmin))
  }
}
