/** The older election contract as it runs: index loops over the candidate array and stores
    updated in place. */
module ValidatorElectionContract {
  import opened Ranking
  import opened ValidatorElection

  /** `insertCandidatesSorted`: two index loops that find the place of a sorted insertion. */
  method InsertSorted(c: Candidate, cs: seq<Candidate>) returns (ok: bool, r: seq<Candidate>)
    requires Ranked(cs) && c.address !in Addresses(cs)
    ensures ok <==> |cs| < 2 * VALIDATOR_SET_SIZE
    ensures ok ==> r == Insert(cs, c)
  {
    r := cs;
    if |cs| >= 2 * VALIDATOR_SET_SIZE {
      return false, cs;
    }
    ok := true;
    var applicant, amount := c.address, c.stake;
    var i := 0;
    while i < |cs| && amount < cs[i].stake
      invariant 0 <= i <= |cs| && forall k :: 0 <= k < i ==> amount < cs[k].stake
    {
      i := i + 1;
    }
    if i < |cs| && amount == cs[i].stake {
      while i < |cs| && !(LessOrEqual(applicant, cs[i].address) || amount > cs[i].stake)
        invariant 0 <= i <= |cs| && forall k :: 0 <= k < i ==> !Ahead(c, cs[k])
        invariant i < |cs| ==> amount >= cs[i].stake
      {
        NotAhead(c, cs[i], applicant);
        if i + 1 < |cs| { assert Ahead(cs[i], cs[i + 1]); }
        i := i + 1;
      }
    }
    if i < |cs| {
      AddressIn(cs, i);
      LessTotal(applicant, cs[i].address);
    }
    PlaceIs(cs, c, i);
    r := cs[..i] + [c] + cs[i..];
  }

  predicate LessOrEqual(a: string, b: string)
  {
    a == b || Less(a, b)
  }

  lemma NotAhead(c: Candidate, d: Candidate, applicant: Address)
    requires c.address == applicant && c.stake == d.stake && !LessOrEqual(applicant, d.address)
    ensures !Ahead(c, d)
  {
  }

  lemma PlaceIs(cs: seq<Candidate>, c: Candidate, i: nat)
    requires i <= |cs| && (forall k :: 0 <= k < i ==> !Ahead(c, cs[k])) && (i < |cs| ==> Ahead(c, cs[i]))
    ensures Place(cs, c) == i
  {
    hide Ahead, Place;
    var p := Place(cs, c);
  }

  /** The loop that shares a forfeit. */
  method ShareForfeit(cs: seq<Candidate>, forfeit: int, n: nat) returns (r: seq<Candidate>)
    requires 0 < n <= |cs|
    ensures r == Shared(cs, forfeit, n)
  {
    var award := forfeit % n;
    var average := forfeit / n;
    r := cs;
    if award != 0 {
      r := r[0 := r[0].(stake := r[0].stake + award)];
    }
    var i := 0;
    while i < n
      invariant 0 <= i <= n && |r| == |cs|
      invariant forall k :: 0 <= k < |cs| ==>
        r[k] == cs[k].(stake := cs[k].stake + (if k == 0 then award else 0) + (if k < i then average else 0))
    {
      r := r[i := r[i].(stake := r[i].stake + average)];
      i := i + 1;
    }
  }

  class Contract {
    var candidates: seq<Candidate>
    var applicants: map<Address, Applicant>
    var abolitions: map<Address, Abolition>
    var chain: seq<Candidate>
    var balance: int
    var received: int
    var paid: seq<Payment>

    function Stored(): State
      reads this
    {
      State(candidates, applicants, abolitions, chain, balance, received, paid)
    }

    constructor (validators: seq<Candidate>, coins: nat)
      ensures Stored() == Init(validators, coins)
    {
      candidates := Sort(validators);
      chain := Sort(validators);
      applicants, abolitions, balance, received, paid := map[], map[], coins, 0, [];
    }

    constructor Load(s: State)
      ensures Stored() == s
    {
      candidates, applicants, abolitions := s.candidates, s.applicants, s.abolitions;
      chain, balance, received, paid := s.chain, s.balance, s.received, s.paid;
    }

    method TransferCoin(dest: Address, amount: int) returns (ok: bool)
      modifies `balance, `paid
      ensures var r := Pay(old(Stored()), dest, amount);
              (ok <==> r.Some?) && (ok ==> Stored() == r.value)
    {
      if amount == 0 { return true; }
      if amount < 0 || amount > balance { return false; }
      balance := balance - amount;
      paid := paid + [Payment(dest, amount)];
      ok := true;
    }

    method SetValidatorsFromCandidate()
      modifies `chain
      ensures Stored() == Publish(old(Stored()))
    {
      chain := if |candidates| <= VALIDATOR_SET_SIZE then candidates else candidates[..VALIDATOR_SET_SIZE];
    }

    method ApplyAsValidatorCandidate(m: Msg, amount: int) returns (ok: bool)
      requires ElectionOk(Stored())
      modifies this
      ensures var r := Pledge(old(Stored()), m, amount);
              (ok <==> r.Some?) && (ok ==> Stored() == r.value)
    {
      hide Position, Insert, Without, Top;
      var p := Find(candidates, m.sender);
      if p < |candidates| {
        if amount < MIN_SUPERADDITION { return false; }
        WithoutOk(candidates, p);
        var rest := Without(candidates, p);
        var cs;
        ok, cs := InsertSorted(candidates[p].(stake := candidates[p].stake + amount), rest);
        if !ok { return; }
        candidates := cs;
        balance, received := balance + amount, received + amount;
        var q := Find(cs, m.sender);
        if q < VALIDATOR_SET_SIZE { SetValidatorsFromCandidate(); }
        return;
      }
      if m.sender in applicants {
        if amount < MIN_SUPERADDITION { return false; }
        var a := applicants[m.sender];
        applicants := applicants[m.sender := Applicant(a.pledge + amount, a.ballot, m.time + VOTE_INTERVAL)];
      } else {
        if amount < MIN_PLEDGE { return false; }
        applicants := applicants[m.sender := Applicant(amount, [], m.time + VOTE_INTERVAL)];
      }
      balance, received := balance + amount, received + amount;
      ok := true;
    }

    method VoteApplicant(m: Msg, applicant: Address, quota: nat) returns (ok: bool)
      requires ElectionOk(Stored())
      modifies this
      ensures var r := VoteForApplicant(old(Stored()), m, applicant, quota);
              (ok <==> r.Some?) && (ok ==> Stored() == r.value)
    {
      hide Position, Insert, Top;
      var p := Find(chain, m.sender);
      if !m.valid || p == |chain| { return false; }
      if applicant !in applicants { return true; }
      var a := applicants[applicant];
      if m.time > a.expiration {
        applicants := applicants - {applicant};
        ok := TransferCoin(applicant, a.pledge);
        return;
      }
      if |candidates| >= 2 * VALIDATOR_SET_SIZE { return true; }
      if m.sender in a.ballot { return false; }
      a := a.(ballot := a.ballot + [m.sender]);
      if |a.ballot| < quota {
        applicants := applicants[applicant := a];
        return true;
      }
      var cs;
      ok, cs := InsertSorted(Entry(applicant, a.pledge, ()), candidates);
      candidates := cs;
      applicants := applicants - {applicant};
      var q := Find(cs, applicant);
      if q < VALIDATOR_SET_SIZE { SetValidatorsFromCandidate(); }
    }

    method TakebackAllPledgeCoin(m: Msg) returns (ok: bool)
      modifies this
      ensures var r := Takeback(old(Stored()), m);
              (ok <==> r.Some?) && (ok ==> Stored() == r.value)
    {
      hide Position, Top;
      if m.sender in applicants {
        var pledge := applicants[m.sender].pledge;
        applicants := applicants - {m.sender};
        ok := TransferCoin(m.sender, pledge);
        return;
      }
      var p := Find(candidates, m.sender);
      ok := true;
      if p < |candidates| {
        if |candidates| <= 1 { return false; }
        var stake := candidates[p].stake;
        candidates := candidates[..p] + candidates[p + 1..];
        ok := TransferCoin(m.sender, stake);
        if ok && p < VALIDATOR_SET_SIZE { SetValidatorsFromCandidate(); }
      }
    }

    method AbolishCandidate(m: Msg, malicious: Address) returns (ok: bool)
      modifies `abolitions
      ensures var r := Abolish(old(Stored()), m, malicious);
              (ok <==> r.Some?) && (ok ==> Stored() == r.value)
    {
      hide Position;
      var p := Find(chain, m.sender);
      var q := Find(chain, malicious);
      if !m.valid || p == |chain| || q == |chain| { return false; }
      if malicious in abolitions {
        if m.time >= abolitions[malicious].expiration {
          abolitions := abolitions[malicious := abolitions[malicious].(expiration := m.time)];
        }
        return true;
      }
      abolitions := abolitions[malicious := Abolition(m.sender, [m.sender], m.time + VOTE_INTERVAL)];
      ok := true;
    }

    method QuitAbolishValidator(m: Msg, malicious: Address) returns (ok: bool)
      modifies `abolitions
      ensures var r := QuitAbolish(old(Stored()), m, malicious);
              (ok <==> r.Some?) && (ok ==> Stored() == r.value)
    {
      if !m.valid || malicious !in abolitions || abolitions[malicious].proposer != m.sender { return false; }
      abolitions := abolitions - {malicious};
      ok := true;
    }

    method VoteAbolishValidator(m: Msg, malicious: Address, quota: nat) returns (ok: bool)
      modifies this
      ensures var r := VoteAbolish(old(Stored()), m, malicious, quota);
              (ok <==> r.Some?) && (ok ==> Stored() == r.value)
    {
      hide Position, Shared, Top;
      var p := Find(chain, m.sender);
      var q := Find(chain, malicious);
      if !m.valid || |chain| <= 1 || p == |chain| || q == |chain| { return false; }
      if malicious !in abolitions { return true; }
      var b := abolitions[malicious];
      if m.time > b.expiration {
        abolitions := abolitions - {malicious};
        return true;
      }
      if m.sender in b.ballot { return false; }
      b := b.(ballot := b.ballot + [m.sender]);
      if |b.ballot| < quota {
        abolitions := abolitions[malicious := b];
        return true;
      }
      p := Find(candidates, malicious);
      if p == |candidates| || |candidates| < |chain| { return false; }
      var stake := candidates[p].stake;
      var forfeit := stake / 10;
      abolitions := abolitions - {malicious};
      var rest := candidates[..p] + candidates[p + 1..];
      candidates := ShareForfeit(rest, forfeit, |chain| - 1);
      ok := TransferCoin(malicious, stake - forfeit);
      if ok { SetValidatorsFromCandidate(); }
    }

    /** `main`. */
    method Execute(m: Msg, call: Call) returns (ok: bool)
      requires ElectionOk(Stored())
      modifies this
      ensures var r := Invoke(old(Stored()), m, call);
              (ok <==> r.Some?) && (ok ==> Stored() == r.value)
    {
      hide ElectionOk, Pledge, VoteForApplicant, Takeback, Abolish, QuitAbolish, VoteAbolish;
      match call {
        case PledgeCoin(amount) => ok := ApplyAsValidatorCandidate(m, amount);
        case VoteFor(applicant, quota) => ok := VoteApplicant(m, applicant, quota);
        case TakebackCoin => ok := TakebackAllPledgeCoin(m);
        case AbolishValidator(malicious) => ok := AbolishCandidate(m, malicious);
        case Quit(malicious) => ok := QuitAbolishValidator(m, malicious);
        case VoteForAbolish(malicious, quota) => ok := VoteAbolishValidator(m, malicious, quota);
      }
    }
  }

  /** The contract on its chain: a call that throws leaves no trace. */
  class Chain {
    var data: State

    /** Candidates in strict order and within bounds, no applicant a candidate, the chain's
        validators the first candidates, and coins for every recorded pledge. */
    ghost predicate Valid()
      reads this
    {
      ElectionOk(data) && Funded(data)
    }

    constructor (validators: seq<Candidate>, coins: nat)
      requires UniqueAddresses(validators) && |validators| <= VALIDATOR_SET_SIZE && NonNegativeStakes(validators)
      requires Total(Sort(validators)) <= coins
      ensures Valid() && data == Init(validators, coins)
    {
      data := Init(validators, coins);
      InitOk(validators, coins);
      RecordedAtStart(validators, coins);
    }

    /** Every call keeps `Valid()` and the balance of records, coins received and coins paid. */
    method Perform(ev: Event)
      requires Valid()
      modifies this
      ensures Valid() && data == Step(old(data), ev) && Balanced(old(data), data)
    {
      hide Invoke, ElectionOk;
      ghost var before := data;
      var contract := new Contract.Load(data);
      var ok := contract.Execute(ev.m, ev.call);
      if ok {
        InvokeOk(before, ev.m, ev.call);
        data := contract.Stored();
      }
    }
  }
}
