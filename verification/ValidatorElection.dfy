/** The older validator election contract: candidates ranked by pledge, the first hundred of
    them the chain's validators. */
module ValidatorElection {
  import opened Options
  import opened MapSum
  import opened Ranking

  type Address = string

  /** Address and pledge; the contract stores nothing else with a candidate. */
  type Candidate = Entry<()>

  const VALIDATOR_SET_SIZE: nat := 100
  const VOTE_INTERVAL: int := 15 * 24 * 60 * 60 * 1000 * 1000
  const MIN_PLEDGE: int := 50000 * 100000000
  const MIN_SUPERADDITION: int := 100 * 100000000

  datatype Applicant = Applicant(pledge: int, ballot: seq<Address>, expiration: int)

  datatype Abolition = Abolition(proposer: Address, ballot: seq<Address>, expiration: int)

  datatype Payment = Payment(to: Address, amount: int)

  /** `chain` is the list last handed to `setValidators`, `balance` the coins the contract has;
      `received` counts the coins pledged and `paid` lists the payments made since `init`. */
  datatype State = State(
    candidates: seq<Candidate>,
    applicants: map<Address, Applicant>,
    abolitions: map<Address, Abolition>,
    chain: seq<Candidate>,
    balance: int,
    received: int,
    paid: seq<Payment>)

  /** Who calls, when, and whether `addressCheck` accepts the address given. */
  datatype Msg = Msg(sender: Address, time: int, valid: bool)

  function Paying(paid: seq<Payment>, to: Address, amount: int): seq<Payment>
  {
    if amount == 0 then paid else paid + [Payment(to, amount)]
  }

  function PaidOut(paid: seq<Payment>): int
  {
    if paid == [] then 0 else PaidOut(paid[..|paid| - 1]) + paid[|paid| - 1].amount
  }

  lemma PayingTotal(paid: seq<Payment>, to: Address, amount: int)
    ensures PaidOut(Paying(paid, to, amount)) == PaidOut(paid) + amount
  {
    if amount != 0 { assert (paid + [Payment(to, amount)])[..|paid|] == paid; }
  }

  function Paid(s: State, to: Address, amount: int): State
  {
    s.(balance := s.balance - amount, paid := Paying(s.paid, to, amount))
  }

  /** `transferCoin`, which throws when the contract does not have the coins. */
  function Pay(s: State, to: Address, amount: int): (r: Option<State>)
    ensures r.Some? ==> r.value == Paid(s, to, amount)
  {
    if amount == 0 then Some(s)
    else if amount < 0 || amount > s.balance then None
    else Some(Paid(s, to, amount))
  }

  function Receive(s: State, amount: int): State
  {
    s.(balance := s.balance + amount, received := s.received + amount)
  }

  function Publish(s: State): State
  {
    s.(chain := Top(s.candidates, VALIDATOR_SET_SIZE))
  }

  function PublishIf(s: State, p: nat): State
  {
    if p < VALIDATOR_SET_SIZE then Publish(s) else s
  }

  /** `applyAsValidatorCandidate`. */
  function Pledge(s: State, m: Msg, amount: int): Option<State>
  {
    var p := Position(s.candidates, m.sender);
    if p < |s.candidates| then
      var rest := Without(s.candidates, p);
      if amount < MIN_SUPERADDITION || |rest| >= 2 * VALIDATOR_SET_SIZE then None
      else
        var cs := Insert(rest, s.candidates[p].(stake := s.candidates[p].stake + amount));
        Some(PublishIf(Receive(s, amount).(candidates := cs), Position(cs, m.sender)))
    else if m.sender in s.applicants then
      if amount < MIN_SUPERADDITION then None
      else
        var a := s.applicants[m.sender];
        Some(Receive(s, amount).(applicants :=
               s.applicants[m.sender := Applicant(a.pledge + amount, a.ballot, m.time + VOTE_INTERVAL)]))
    else if amount < MIN_PLEDGE then None
    else
      Some(Receive(s, amount).(applicants := s.applicants[m.sender := Applicant(amount, [], m.time + VOTE_INTERVAL)]))
  }

  /** `voteForApplicant`; `quota` is the number of ballots that carry the vote. */
  function VoteForApplicant(s: State, m: Msg, applicant: Address, quota: nat): Option<State>
  {
    if !m.valid || !Contains(s.chain, m.sender) then None
    else if applicant !in s.applicants then Some(s)
    else
      var a := s.applicants[applicant];
      var out := s.applicants - {applicant};
      if m.time > a.expiration then Pay(s.(applicants := out), applicant, a.pledge)
      else if |s.candidates| >= 2 * VALIDATOR_SET_SIZE then Some(s)
      else if m.sender in a.ballot then None
      else
        var a' := a.(ballot := a.ballot + [m.sender]);
        if |a'.ballot| < quota then Some(s.(applicants := s.applicants[applicant := a']))
        else
          var cs := Insert(s.candidates, Entry(applicant, a.pledge, ()));
          Some(PublishIf(s.(candidates := cs, applicants := out), Position(cs, applicant)))
  }

  /** `takebackAllPledgeCoin`. */
  function Takeback(s: State, m: Msg): Option<State>
  {
    var p := Position(s.candidates, m.sender);
    if m.sender in s.applicants then
      Pay(s.(applicants := s.applicants - {m.sender}), m.sender, s.applicants[m.sender].pledge)
    else if p == |s.candidates| then Some(s)
    else if |s.candidates| <= 1 then None
    else
      match Pay(s.(candidates := Without(s.candidates, p)), m.sender, s.candidates[p].stake)
      case None => None
      case Some(s1) => Some(PublishIf(s1, p))
  }

  /** `abolishValidator`. */
  function Abolish(s: State, m: Msg, malicious: Address): Option<State>
  {
    if !m.valid || !Contains(s.chain, m.sender) || !Contains(s.chain, malicious) then None
    else if malicious in s.abolitions then
      if m.time >= s.abolitions[malicious].expiration then
        Some(s.(abolitions := s.abolitions[malicious := s.abolitions[malicious].(expiration := m.time)]))
      else Some(s)
    else Some(s.(abolitions := s.abolitions[malicious := Abolition(m.sender, [m.sender], m.time + VOTE_INTERVAL)]))
  }

  /** `quitAbolishValidator`. */
  function QuitAbolish(s: State, m: Msg, malicious: Address): Option<State>
  {
    if !m.valid || malicious !in s.abolitions || s.abolitions[malicious].proposer != m.sender then None
    else Some(s.(abolitions := s.abolitions - {malicious}))
  }

  /** Each of the first n pledges raised by `average`, the first one by `award` besides. */
  function Raised(cs: seq<Candidate>, award: int, average: int, n: nat): seq<Candidate>
  {
    seq(|cs|, k requires 0 <= k < |cs| =>
      cs[k].(stake := cs[k].stake + (if k == 0 then award else 0) + (if k < n then average else 0)))
  }

  /** The forfeit shared among the remaining validators. */
  function Shared(cs: seq<Candidate>, forfeit: int, n: nat): seq<Candidate>
    requires n > 0
  {
    Raised(cs, forfeit % n, forfeit / n, n)
  }

  /** `voteAbolishValidator`. */
  function VoteAbolish(s: State, m: Msg, malicious: Address, quota: nat): Option<State>
  {
    if !m.valid || |s.chain| <= 1 || !Contains(s.chain, m.sender) || !Contains(s.chain, malicious) then None
    else if malicious !in s.abolitions then Some(s)
    else
      var b := s.abolitions[malicious];
      var out := s.abolitions - {malicious};
      if m.time > b.expiration then Some(s.(abolitions := out))
      else if m.sender in b.ballot then None
      else
        var b' := b.(ballot := b.ballot + [m.sender]);
        if |b'.ballot| < quota then Some(s.(abolitions := s.abolitions[malicious := b']))
        else
          var p := Position(s.candidates, malicious);
          // A current validator is a candidate, with at least as many candidates left as validators.
          if p == |s.candidates| || |s.candidates| < |s.chain| then None
          else
            var stake := s.candidates[p].stake;
            var forfeit := stake / 10;
            var cs := Shared(Without(s.candidates, p), forfeit, |s.chain| - 1);
            match Pay(s.(candidates := cs, abolitions := out), malicious, stake - forfeit)
            case None => None
            case Some(s1) => Some(Publish(s1))
  }

  datatype Call =
    | PledgeCoin(amount: int)
    | VoteFor(applicant: Address, quota: nat)
    | TakebackCoin
    | AbolishValidator(malicious: Address)
    | Quit(malicious: Address)
    | VoteForAbolish(malicious: Address, quota: nat)

  function Invoke(s: State, m: Msg, call: Call): Option<State>
  {
    match call
    case PledgeCoin(amount) => Pledge(s, m, amount)
    case VoteFor(applicant, quota) => VoteForApplicant(s, m, applicant, quota)
    case TakebackCoin => Takeback(s, m)
    case AbolishValidator(malicious) => Abolish(s, m, malicious)
    case Quit(malicious) => QuitAbolish(s, m, malicious)
    case VoteForAbolish(malicious, quota) => VoteAbolish(s, m, malicious, quota)
  }

  // ---- What every call keeps ----

  predicate NonNegativeStakes(cs: seq<Candidate>)
  {
    forall k :: 0 <= k < |cs| ==> cs[k].stake >= 0
  }

  predicate CandidatesOk(cs: seq<Candidate>)
  {
    Ranked(cs) && UniqueAddresses(cs) && NonNegativeStakes(cs)
  }

  predicate ApplicantsOk(s: State)
  {
    (forall a :: a in s.applicants ==> a !in Addresses(s.candidates) && s.applicants[a].pledge >= 0)
  }

  /** The chain runs on exactly the first hundred candidates, pledges included. */
  predicate ChainOk(s: State)
  {
    s.chain == Top(s.candidates, VALIDATOR_SET_SIZE)
  }

  predicate ElectionOk(s: State)
  {
    CandidatesOk(s.candidates) && |s.candidates| <= 2 * VALIDATOR_SET_SIZE && ApplicantsOk(s) && ChainOk(s)
  }

  // ---- Candidate lists ----

  lemma InsertOk(cs: seq<Candidate>, c: Candidate)
    requires CandidatesOk(cs) && c.stake >= 0 && c.address !in Addresses(cs)
    ensures var r := Insert(cs, c);
            && CandidatesOk(r) && |r| == |cs| + 1 && Addresses(r) == Addresses(cs) + {c.address}
            && (VALIDATOR_SET_SIZE <= Position(r, c.address) ==> Top(r, VALIDATOR_SET_SIZE) == Top(cs, VALIDATOR_SET_SIZE))
  {
    hide Ahead;
    InsertRanked(cs, c);
    UniqueInsert(cs, c);
    InsertContents(cs, c);
    var r := Insert(cs, c);
    forall k | 0 <= k < |r|
      ensures r[k].stake >= 0
    {
      assert r[k] in r;
    }
    PositionOfMember(r, Place(cs, c));
    if Place(cs, c) >= VALIDATOR_SET_SIZE { TopAfterInsert(cs, c, VALIDATOR_SET_SIZE); }
  }

  lemma WithoutOk(cs: seq<Candidate>, p: nat)
    requires CandidatesOk(cs) && p < |cs|
    ensures var r := Without(cs, p);
            && CandidatesOk(r) && |r| == |cs| - 1 && Addresses(r) == Addresses(cs) - {cs[p].address}
            && (VALIDATOR_SET_SIZE <= p ==> Top(r, VALIDATOR_SET_SIZE) == Top(cs, VALIDATOR_SET_SIZE))
  {
    hide Ahead;
    WithoutRanked(cs, p);
    WithoutUnique(cs, p);
    WithoutAddresses(cs, p);
    if VALIDATOR_SET_SIZE <= p { TopAfterRemove(cs, p, VALIDATOR_SET_SIZE); }
  }

  /** A candidate that adds to its pledge and stays behind the first hundred was behind them before. */
  lemma RaisedBehind(cs: seq<Candidate>, p: nat, c: Candidate)
    requires CandidatesOk(cs) && p < |cs| && c.address == cs[p].address && c.stake >= cs[p].stake
    requires Place(Without(cs, p), c) >= VALIDATOR_SET_SIZE
    ensures p >= VALIDATOR_SET_SIZE
  {
    var q := Place(Without(cs, p), c);
    if p < q {
      assert Without(cs, p)[p] == cs[p + 1] && Ahead(cs[p], cs[p + 1]);
    }
  }

  /** Sharing a forfeit keeps the order: it raises a prefix evenly, the first most. */
  lemma SharedOk(cs: seq<Candidate>, award: int, average: int, n: nat)
    requires CandidatesOk(cs) && award >= 0 && average >= 0
    ensures CandidatesOk(Raised(cs, award, average, n)) && Addresses(Raised(cs, award, average, n)) == Addresses(cs)
  {
    var r := Raised(cs, award, average, n);
    forall i, j | 0 <= i < j < |r|
      ensures Ahead(r[i], r[j]) && r[i].address != r[j].address
    {
      assert Ahead(cs[i], cs[j]);
    }
    forall a
      ensures a in Addresses(r) <==> a in Addresses(cs)
    {
      if a in Addresses(r) {
        var k :| 0 <= k < |r| && r[k].address == a;
        assert cs[k] in cs;
      }
      if a in Addresses(cs) {
        var k :| 0 <= k < |cs| && cs[k].address == a;
        assert r[k] in r;
      }
    }
  }

  // ---- Totals ----

  function Total(cs: seq<Candidate>): int
  {
    if cs == [] then 0 else Total(cs[..|cs| - 1]) + cs[|cs| - 1].stake
  }

  lemma {:induction false} TotalConcat(a: seq<Candidate>, b: seq<Candidate>)
    ensures Total(a + b) == Total(a) + Total(b)
  {
    if b == [] {
      assert a + b == a;
    } else {
      assert (a + b)[..|a + b| - 1] == a + b[..|b| - 1];
      TotalConcat(a, b[..|b| - 1]);
    }
  }

  /** A list around one entry. */
  lemma TotalAround(a: seq<Candidate>, c: Candidate, b: seq<Candidate>)
    ensures Total(a + [c] + b) == Total(a) + c.stake + Total(b)
    ensures Total(a + b) == Total(a) + Total(b)
  {
    TotalConcat(a + [c], b);
    TotalConcat(a, b);
    assert (a + [c])[..|a|] == a;
  }

  lemma TotalInsert(cs: seq<Candidate>, c: Candidate)
    ensures Total(Insert(cs, c)) == Total(cs) + c.stake
  {
    hide Total;
    var p := Place(cs, c);
    TotalAround(cs[..p], c, cs[p..]);
    assert cs[..p] + cs[p..] == cs;
  }

  lemma TotalWithout(cs: seq<Candidate>, p: nat)
    requires p < |cs|
    ensures Total(Without(cs, p)) == Total(cs) - cs[p].stake
  {
    hide Total;
    TotalAround(cs[..p], cs[p], cs[p + 1..]);
    assert cs[..p] + [cs[p]] + cs[p + 1..] == cs;
  }

  lemma {:induction false} TotalRaised(cs: seq<Candidate>, award: int, average: int, n: nat)
    ensures Total(Raised(cs, award, average, n))
            == Total(cs) + (if cs == [] then 0 else award) + (if n <= |cs| then n else |cs|) * average
  {
    if cs != [] {
      var before := cs[..|cs| - 1];
      TotalRaised(before, award, average, n);
      assert Raised(cs, award, average, n)[..|cs| - 1] == Raised(before, award, average, n);
      if |cs| <= n { assert |cs| * average == |before| * average + average; }
    }
  }

  lemma DivMod(x: int, n: nat)
    requires x >= 0 && n > 0
    ensures n * (x / n) + x % n == x && x / n >= 0 && 0 <= x % n
  {
  }

  /** No unit of the forfeit is lost to division. */
  lemma SharedTotal(cs: seq<Candidate>, forfeit: int, n: nat)
    requires forfeit >= 0 && 0 < n <= |cs|
    ensures Total(Shared(cs, forfeit, n)) == Total(cs) + forfeit
  {
    hide Total, Raised;
    DivMod(forfeit, n);
    TotalRaised(cs, forfeit % n, forfeit / n, n);
  }

  function PledgeOf(a: Applicant): int { a.pledge }

  /** Pledged coins the contract holds, as its records have them. */
  ghost function Recorded(s: State): int
  {
    Total(s.candidates) + Sum(s.applicants, PledgeOf)
  }

  /** Records and balance grew exactly by what came in and fell by what went out. */
  ghost predicate Balanced(s: State, s': State)
  {
    Recorded(s') - Recorded(s) == s'.balance - s.balance == (s'.received - s.received) - (PaidOut(s'.paid) - PaidOut(s.paid))
  }

  /** The contract has all the coins it has recorded. */
  ghost predicate Funded(s: State)
  {
    s.balance >= Recorded(s)
  }

  // ---- The calls ----

  /** What a call has to keep: the election's order and the balance of its records. */
  ghost predicate Keeps(s: State, s': State)
  {
    ElectionOk(s') && Balanced(s, s')
  }

  lemma PublishIfOk(s: State, p: nat)
    requires CandidatesOk(s.candidates) && |s.candidates| <= 2 * VALIDATOR_SET_SIZE && ApplicantsOk(s)
    requires p >= VALIDATOR_SET_SIZE ==> ChainOk(s)
    ensures ElectionOk(PublishIf(s, p)) && Recorded(PublishIf(s, p)) == Recorded(s)
    ensures var s' := PublishIf(s, p);
            s'.received == s.received && s'.balance == s.balance && s'.paid == s.paid
  {
    hide CandidatesOk, Top;
  }

  /** A candidate's entry moved to where its raised pledge belongs. */
  lemma MovedOk(cs: seq<Candidate>, p: nat, amount: int)
    requires CandidatesOk(cs) && p < |cs| && amount >= 0
    ensures var c := cs[p].(stake := cs[p].stake + amount);
            var r := Insert(Without(cs, p), c);
            && CandidatesOk(r) && |r| == |cs| && Addresses(r) == Addresses(cs) && Total(r) == Total(cs) + amount
            && (Position(r, c.address) >= VALIDATOR_SET_SIZE ==> Top(r, VALIDATOR_SET_SIZE) == Top(cs, VALIDATOR_SET_SIZE))
  {
    var rest := Without(cs, p);
    var c := cs[p].(stake := cs[p].stake + amount);
    assert c.stake >= 0;
    hide CandidatesOk, Insert, Without, Position, Total, Top, Addresses;
    WithoutOk(cs, p);
    AddressIn(cs, p);
    InsertOk(rest, c);
    TotalWithout(cs, p);
    TotalInsert(rest, c);
    PositionInserted(rest, c);
    if Place(rest, c) >= VALIDATOR_SET_SIZE {
      RaisedBehind(cs, p, c);
    }
  }

  lemma SuperadditionOk(s: State, m: Msg, amount: int)
    requires ElectionOk(s) && Pledge(s, m, amount).Some? && Contains(s.candidates, m.sender)
    ensures Keeps(s, Pledge(s, m, amount).value)
  {
    hide CandidatesOk, Insert, Without, Position, Total, Top, Addresses, PublishIf;
    var p := Position(s.candidates, m.sender);
    MovedOk(s.candidates, p, amount);
    var cs := Insert(Without(s.candidates, p), s.candidates[p].(stake := s.candidates[p].stake + amount));
    PublishIfOk(Receive(s, amount).(candidates := cs), Position(cs, m.sender));
  }

  lemma PositionInserted(cs: seq<Candidate>, c: Candidate)
    requires CandidatesOk(cs) && c.address !in Addresses(cs)
    ensures Position(Insert(cs, c), c.address) == Place(cs, c)
  {
    hide Ahead;
    UniqueInsert(cs, c);
    PositionOfMember(Insert(cs, c), Place(cs, c));
  }

  lemma PledgeOk(s: State, m: Msg, amount: int)
    requires ElectionOk(s) && Pledge(s, m, amount).Some?
    ensures Keeps(s, Pledge(s, m, amount).value)
  {
    if Contains(s.candidates, m.sender) {
      SuperadditionOk(s, m, amount);
    } else {
      ContainsIsMembership(s.candidates, m.sender);
      var a := Pledge(s, m, amount).value.applicants[m.sender];
      SumPut(s.applicants, PledgeOf, m.sender, a);
      hide CandidatesOk, Position, Top, Addresses, Total;
    }
  }

  lemma PassOk(s: State, applicant: Address)
    requires ElectionOk(s) && applicant in s.applicants && |s.candidates| < 2 * VALIDATOR_SET_SIZE
    ensures var cs := Insert(s.candidates, Entry(applicant, s.applicants[applicant].pledge, ()));
            Keeps(s, PublishIf(s.(candidates := cs, applicants := s.applicants - {applicant}), Position(cs, applicant)))
  {
    hide CandidatesOk, Insert, Position, Total, Top, Addresses, PublishIf;
    var c: Candidate := Entry(applicant, s.applicants[applicant].pledge, ());
    var cs := Insert(s.candidates, c);
    InsertOk(s.candidates, c);
    TotalInsert(s.candidates, c);
    SumDrop(s.applicants, PledgeOf, applicant);
    PublishIfOk(s.(candidates := cs, applicants := s.applicants - {applicant}), Position(cs, applicant));
  }

  /** One more ballot for an applicant. */
  lemma BallotOk(s: State, applicant: Address, ballot: seq<Address>)
    requires ElectionOk(s) && applicant in s.applicants
    ensures Keeps(s, s.(applicants := s.applicants[applicant := s.applicants[applicant].(ballot := ballot)]))
  {
    hide CandidatesOk, Total, Top, Addresses, PaidOut;
    SumPut(s.applicants, PledgeOf, applicant, s.applicants[applicant].(ballot := ballot));
  }

  /** An applicant refused or leaving is paid its pledge. */
  lemma RefundOk(s: State, applicant: Address)
    requires ElectionOk(s) && applicant in s.applicants
    ensures Keeps(s, Paid(s.(applicants := s.applicants - {applicant}), applicant, s.applicants[applicant].pledge))
  {
    hide CandidatesOk, Total, Top, Addresses, PaidOut, Paying;
    SumDrop(s.applicants, PledgeOf, applicant);
    PayingTotal(s.paid, applicant, s.applicants[applicant].pledge);
  }

  lemma VoteForOk(s: State, m: Msg, applicant: Address, quota: nat)
    requires ElectionOk(s) && VoteForApplicant(s, m, applicant, quota).Some?
    ensures Keeps(s, VoteForApplicant(s, m, applicant, quota).value)
  {
    hide ElectionOk, Keeps, Insert, Position, PublishIf, Pay;
    if applicant in s.applicants {
      BallotOk(s, applicant, s.applicants[applicant].ballot + [m.sender]);
      RefundOk(s, applicant);
      if |s.candidates| < 2 * VALIDATOR_SET_SIZE {
        PassOk(s, applicant);
      }
    }
    ProposalsOnly(s, s.abolitions);
  }

  lemma TakebackOk(s: State, m: Msg)
    requires ElectionOk(s) && Takeback(s, m).Some?
    ensures Keeps(s, Takeback(s, m).value)
  {
    hide ElectionOk, Keeps, Without, Position, PublishIf, Pay;
    var p := Position(s.candidates, m.sender);
    if m.sender in s.applicants {
      RefundOk(s, m.sender);
    } else if p < |s.candidates| {
      LeaveOk(s, p);
    }
    ProposalsOnly(s, s.abolitions);
  }

  /** A candidate leaving is paid its pledge. */
  lemma LeaveOk(s: State, p: nat)
    requires ElectionOk(s) && p < |s.candidates|
    ensures var c := s.candidates[p];
            Keeps(s, PublishIf(Paid(s.(candidates := Without(s.candidates, p)), c.address, c.stake), p))
  {
    hide CandidatesOk, Without, Total, Top, Addresses, PublishIf, Paying, PaidOut;
    WithoutOk(s.candidates, p);
    TotalWithout(s.candidates, p);
    PayingTotal(s.paid, s.candidates[p].address, s.candidates[p].stake);
    PublishIfOk(Paid(s.(candidates := Without(s.candidates, p)), s.candidates[p].address, s.candidates[p].stake), p);
  }

  // ---- Every payment can be made ----

  lemma {:induction false} TotalNonNegative(cs: seq<Candidate>)
    requires NonNegativeStakes(cs)
    ensures Total(cs) >= 0
  {
    if cs != [] { TotalNonNegative(cs[..|cs| - 1]); }
  }

  lemma ApplicantCovered(s: State, a: Address)
    requires ElectionOk(s) && Funded(s) && a in s.applicants
    ensures 0 <= s.applicants[a].pledge <= s.balance
  {
    TotalNonNegative(s.candidates);
    SumCovers(s.applicants, PledgeOf, a);
    hide Sum, Total;
  }

  lemma CandidateCovered(s: State, p: nat)
    requires ElectionOk(s) && Funded(s) && p < |s.candidates|
    ensures 0 <= s.candidates[p].stake <= s.balance
  {
    WithoutOk(s.candidates, p);
    TotalNonNegative(Without(s.candidates, p));
    TotalWithout(s.candidates, p);
    SumNonNegative(s.applicants, PledgeOf);
    hide Sum, Total, Without, Ranked, UniqueAddresses, Addresses, Top;
  }

  lemma PaySucceeds(s: State, to: Address, amount: int)
    requires 0 <= amount <= s.balance
    ensures Pay(s, to, amount) == Some(Paid(s, to, amount))
  {
    if amount == 0 { assert Paid(s, to, 0) == s; }
  }

  /** Taking back pays the whole recorded pledge to the caller, who then holds nothing. */
  lemma TakebackPays(s: State, m: Msg)
    requires ElectionOk(s) && Funded(s)
    requires m.sender in s.applicants || (Contains(s.candidates, m.sender) && |s.candidates| > 1)
    ensures Takeback(s, m).Some?
    ensures var s' := Takeback(s, m).value;
            var pledge := if m.sender in s.applicants then s.applicants[m.sender].pledge
                          else s.candidates[Position(s.candidates, m.sender)].stake;
            && s'.paid == Paying(s.paid, m.sender, pledge)
            && m.sender !in s'.applicants && m.sender !in Addresses(s'.candidates)
  {
    var p := Position(s.candidates, m.sender);
    if m.sender in s.applicants {
      ApplicantCovered(s, m.sender);
      PaySucceeds(s.(applicants := s.applicants - {m.sender}), m.sender, s.applicants[m.sender].pledge);
    } else {
      WithoutOk(s.candidates, p);
      AddressIn(s.candidates, p);
      CandidateCovered(s, p);
      PaySucceeds(s.(candidates := Without(s.candidates, p)), m.sender, s.candidates[p].stake);
    }
    hide CandidatesOk, Without, Position, Top, Addresses, Pay, Funded, Paying;
  }

  /** A vote that comes too late sends the applicant its pledge. */
  lemma ExpiryRefunds(s: State, m: Msg, applicant: Address, quota: nat)
    requires ElectionOk(s) && Funded(s) && m.valid && Contains(s.chain, m.sender)
    requires applicant in s.applicants && m.time > s.applicants[applicant].expiration
    ensures VoteForApplicant(s, m, applicant, quota).Some?
    ensures var s' := VoteForApplicant(s, m, applicant, quota).value;
            s'.paid == Paying(s.paid, applicant, s.applicants[applicant].pledge) && s'.applicants == s.applicants - {applicant}
  {
    ApplicantCovered(s, applicant);
    hide ElectionOk, Funded, Pay, Paying, Contains;
    PaySucceeds(s.(applicants := s.applicants - {applicant}), applicant, s.applicants[applicant].pledge);
  }

  lemma ForfeitList(cs: seq<Candidate>, p: nat, n: nat)
    requires CandidatesOk(cs) && p < |cs| && 0 < n < |cs|
    ensures var stake := cs[p].stake;
            var r := Shared(Without(cs, p), stake / 10, n);
            && CandidatesOk(r) && |r| == |cs| - 1 && Addresses(r) <= Addresses(cs)
            && Total(r) == Total(cs) - (stake - stake / 10)
  {
    var forfeit := cs[p].stake / 10;
    var rest := Without(cs, p);
    assert cs[p].stake >= 0 && forfeit >= 0;
    assert |Shared(rest, forfeit, n)| == |rest|;
    hide CandidatesOk, Without, Raised, Total, Addresses;
    WithoutOk(cs, p);
    TotalWithout(cs, p);
    DivMod(forfeit, n);
    SharedOk(rest, forfeit % n, forfeit / n, n);
    SharedTotal(rest, forfeit, n);
  }

  /** An abolished validator is paid nine tenths; its forfeit stays with the others. */
  lemma ForfeitOk(s: State, p: nat, n: nat, abolitions: map<Address, Abolition>, to: Address)
    requires ElectionOk(s) && p < |s.candidates| && 0 < n < |s.candidates|
    ensures var stake := s.candidates[p].stake;
            var cs := Shared(Without(s.candidates, p), stake / 10, n);
            Keeps(s, Publish(Paid(s.(candidates := cs, abolitions := abolitions), to, stake - stake / 10)))
  {
    hide CandidatesOk, Without, Shared, Total, Top, Addresses, Paying, PaidOut;
    ForfeitList(s.candidates, p, n);
    PayingTotal(s.paid, to, s.candidates[p].stake - s.candidates[p].stake / 10);
  }

  /** A validator of the chain is a candidate, so a carried vote against one always takes effect. */
  lemma CarriedVoteTakesEffect(s: State, m: Msg, malicious: Address, quota: nat)
    requires ElectionOk(s) && Funded(s) && m.valid && |s.chain| > 1
    requires Contains(s.chain, m.sender) && Contains(s.chain, malicious)
    requires malicious in s.abolitions && m.time <= s.abolitions[malicious].expiration
    requires m.sender !in s.abolitions[malicious].ballot
    requires |s.abolitions[malicious].ballot| + 1 >= quota
    ensures VoteAbolish(s, m, malicious, quota).Some? && Position(s.candidates, malicious) < |s.candidates|
    ensures var s' := VoteAbolish(s, m, malicious, quota).value;
            var stake := s.candidates[Position(s.candidates, malicious)].stake;
            && malicious !in Addresses(s'.candidates) && malicious !in Addresses(s'.chain)
            && s'.paid == Paying(s.paid, malicious, stake - stake / 10)
  {
    hide ElectionOk, Position, Shared, Without, Top, Addresses, Paying, Pay, Funded;
    ChainIsCandidates(s, malicious);
    var p := Position(s.candidates, malicious);
    var stake := s.candidates[p].stake;
    CandidateCovered(s, p);
    ForfeitRemoves(s, p, |s.chain| - 1);
    PaySucceeds(s.(candidates := Shared(Without(s.candidates, p), stake / 10, |s.chain| - 1),
                   abolitions := s.abolitions - {malicious}), malicious, stake - stake / 10);
  }

  lemma ChainIsCandidates(s: State, a: Address)
    requires ElectionOk(s) && Contains(s.chain, a)
    ensures Position(s.candidates, a) < |s.candidates| && |s.chain| <= |s.candidates|
  {
    var p := Position(s.chain, a);
    assert s.chain[p] == s.candidates[p];
    hide CandidatesOk;
  }

  lemma ForfeitRemoves(s: State, p: nat, n: nat)
    requires ElectionOk(s) && p < |s.candidates| && n > 0
    ensures var cs := Shared(Without(s.candidates, p), s.candidates[p].stake / 10, n);
            s.candidates[p].address !in Addresses(cs) && s.candidates[p].address !in Addresses(Top(cs, VALIDATOR_SET_SIZE))
  {
    var forfeit := s.candidates[p].stake / 10;
    var rest := Without(s.candidates, p);
    assert forfeit >= 0;
    hide Without, Raised, Addresses, Top, Ranked, UniqueAddresses;
    WithoutOk(s.candidates, p);
    DivMod(forfeit, n);
    SharedOk(rest, forfeit % n, forfeit / n, n);
    TopKeeps(Shared(rest, forfeit, n), VALIDATOR_SET_SIZE);
  }

  /** A vote that does not carry touches proposals only. */
  lemma ProposalsOnly(s: State, abolitions: map<Address, Abolition>)
    requires ElectionOk(s)
    ensures Keeps(s, s.(abolitions := abolitions))
  {
    hide CandidatesOk, Total, Top, Addresses, PaidOut;
  }

  lemma VoteAbolishOk(s: State, m: Msg, malicious: Address, quota: nat)
    requires ElectionOk(s) && VoteAbolish(s, m, malicious, quota).Some?
    ensures Keeps(s, VoteAbolish(s, m, malicious, quota).value)
  {
    hide ElectionOk, Keeps, Without, Shared, Publish, Pay, Position;
    var p := Position(s.candidates, malicious);
    ProposalsOnly(s, s.abolitions);
    ProposalsOnly(s, s.abolitions - {malicious});
    if malicious in s.abolitions {
      var b := s.abolitions[malicious];
      ProposalsOnly(s, s.abolitions[malicious := b.(ballot := b.ballot + [m.sender])]);
    }
    if p < |s.candidates| && 1 < |s.chain| <= |s.candidates| {
      ForfeitOk(s, p, |s.chain| - 1, s.abolitions - {malicious}, malicious);
    }
  }

  lemma InvokeOk(s: State, m: Msg, call: Call)
    requires ElectionOk(s) && Invoke(s, m, call).Some?
    ensures Keeps(s, Invoke(s, m, call).value)
  {
    match call
    case PledgeCoin(amount) => PledgeOk(s, m, amount);
    case VoteFor(applicant, quota) => VoteForOk(s, m, applicant, quota);
    case TakebackCoin => TakebackOk(s, m);
    case AbolishValidator(malicious) => hide CandidatesOk, Total, Top, Addresses, Position;
    case Quit(malicious) => hide CandidatesOk, Total, Top, Addresses;
    case VoteForAbolish(malicious, quota) => VoteAbolishOk(s, m, malicious, quota);
  }

  // ---- Who becomes a candidate, and who stops being one ----

  /** A validator's vote that brings an applicant in: in time, with room left, its first for this
      applicant, and enough ballots with it. */
  predicate Admits(s: State, m: Msg, call: Call)
  {
    && call.VoteFor? && m.valid && Contains(s.chain, m.sender) && call.applicant in s.applicants
    && m.time <= s.applicants[call.applicant].expiration && |s.candidates| < 2 * VALIDATOR_SET_SIZE
    && m.sender !in s.applicants[call.applicant].ballot && |s.applicants[call.applicant].ballot| + 1 >= call.quota
  }

  /** A candidate takes its pledge back, and is not the last. */
  predicate Leaves(s: State, m: Msg, call: Call)
  {
    call.TakebackCoin? && m.sender !in s.applicants && Contains(s.candidates, m.sender) && |s.candidates| > 1
  }

  /** A validator's vote that expels another: on a proposal still open, its first on it, and enough
      ballots with it. */
  predicate Expels(s: State, m: Msg, call: Call)
  {
    && call.VoteForAbolish? && m.valid && |s.chain| > 1 && Contains(s.chain, m.sender) && Contains(s.chain, call.malicious)
    && call.malicious in s.abolitions && m.time <= s.abolitions[call.malicious].expiration
    && m.sender !in s.abolitions[call.malicious].ballot && |s.abolitions[call.malicious].ballot| + 1 >= call.quota
  }

  /** Nothing but such a call changes who is a candidate; an admitted applicant comes in with
      exactly its pledge. */
  lemma CandidatesChange(s: State, m: Msg, call: Call)
    requires ElectionOk(s) && Funded(s)
    ensures var s' := Step(s, Event(m, call));
            && Addresses(s'.candidates)
               == Addresses(s.candidates) + (if Admits(s, m, call) then {call.applicant} else {})
                  - (if Leaves(s, m, call) then {m.sender} else {})
                  - (if Expels(s, m, call) then {call.malicious} else {})
            && (Admits(s, m, call) ==>
                  && Entry(call.applicant, s.applicants[call.applicant].pledge, ()) in s'.candidates
                  && call.applicant !in s'.applicants && s'.paid == s.paid)
  {
    hide ElectionOk, Funded, Addresses, Contains;
    match call
    case PledgeCoin(amount) =>
      if Pledge(s, m, amount).Some? { PledgeMovesNobody(s, m, amount); }
    case VoteFor(applicant, quota) => VoteForAdmits(s, m, applicant, quota);
    case TakebackCoin => TakebackLeaves(s, m);
    case AbolishValidator(malicious) => hide Position;
    case Quit(malicious) =>
    case VoteForAbolish(malicious, quota) => VoteExpels(s, m, malicious, quota);
  }

  lemma PledgeMovesNobody(s: State, m: Msg, amount: int)
    requires ElectionOk(s) && Pledge(s, m, amount).Some?
    ensures Addresses(Pledge(s, m, amount).value.candidates) == Addresses(s.candidates)
  {
    hide CandidatesOk, Insert, Without, Position, Total, Top, Addresses;
    var p := Position(s.candidates, m.sender);
    if p < |s.candidates| {
      assert amount >= 0;
      MovedOk(s.candidates, p, amount);
    }
  }

  /** A vote for an applicant that is in time and not the voter's second: the ballot is one longer,
      or the applicant is in. */
  lemma VoteForAdmits(s: State, m: Msg, applicant: Address, quota: nat)
    requires ElectionOk(s) && Funded(s)
    ensures var r := VoteForApplicant(s, m, applicant, quota);
            var call := VoteFor(applicant, quota);
            && (Admits(s, m, call) ==>
                  && r.Some? && Entry(applicant, s.applicants[applicant].pledge, ()) in r.value.candidates
                  && Addresses(r.value.candidates) == Addresses(s.candidates) + {applicant}
                  && applicant !in r.value.applicants && r.value.paid == s.paid)
            && (!Admits(s, m, call) && r.Some? ==> r.value.candidates == s.candidates && r.value.chain == s.chain)
  {
    if Admits(s, m, VoteFor(applicant, quota)) {
      InsertContents(s.candidates, Entry(applicant, s.applicants[applicant].pledge, ()));
      hide Insert, Position, Top, Addresses, ElectionOk, Funded, Contains;
    } else {
      hide Insert, Position, Top, Addresses, ElectionOk, Funded;
    }
  }

  /** Short of the quota the vote is recorded and nothing else happens. */
  lemma VoteForWaits(s: State, m: Msg, applicant: Address, quota: nat)
    requires m.valid && Contains(s.chain, m.sender) && applicant in s.applicants
    requires m.time <= s.applicants[applicant].expiration && |s.candidates| < 2 * VALIDATOR_SET_SIZE
    requires m.sender !in s.applicants[applicant].ballot
    ensures var a := s.applicants[applicant];
            VoteForApplicant(s, m, applicant, quota)
            == Some(s.(applicants := s.applicants[applicant := a.(ballot := a.ballot + [m.sender])]))
            <==> |a.ballot| + 1 < quota
  {
    var a := s.applicants[applicant];
    if |a.ballot| + 1 >= quota {
      InsertContents(s.candidates, Entry(applicant, a.pledge, ()));
      hide Insert, Position, Top, Contains;
      assert |Insert(s.candidates, Entry(applicant, a.pledge, ()))| != |s.candidates|;
    }
  }

  lemma TakebackLeaves(s: State, m: Msg)
    requires ElectionOk(s) && Funded(s)
    ensures var r := Takeback(s, m);
            && (Leaves(s, m, TakebackCoin) ==> r.Some? && Addresses(r.value.candidates) == Addresses(s.candidates) - {m.sender})
            && (!Leaves(s, m, TakebackCoin) && r.Some? ==> r.value.candidates == s.candidates)
  {
    if Leaves(s, m, TakebackCoin) {
      TakebackPays(s, m);
      WithoutOk(s.candidates, Position(s.candidates, m.sender));
      hide Without, Position, Top, Addresses, ElectionOk, Funded, Pay;
    } else {
      hide Without, Position, Top, Addresses, ElectionOk, Funded;
    }
  }

  lemma VoteExpels(s: State, m: Msg, malicious: Address, quota: nat)
    requires ElectionOk(s) && Funded(s)
    ensures var r := VoteAbolish(s, m, malicious, quota);
            var call := VoteForAbolish(malicious, quota);
            && (Expels(s, m, call) ==> r.Some? && Addresses(r.value.candidates) == Addresses(s.candidates) - {malicious})
            && (!Expels(s, m, call) && r.Some? ==> r.value.candidates == s.candidates && r.value.paid == s.paid)
  {
    if Expels(s, m, VoteForAbolish(malicious, quota)) {
      CarriedVoteTakesEffect(s, m, malicious, quota);
      ExpelledList(s, Position(s.candidates, malicious), |s.chain| - 1);
      hide Without, Shared, Position, Top, Addresses, ElectionOk, Funded, Pay, Contains;
    } else {
      hide Without, Shared, Position, Top, Addresses, ElectionOk, Funded;
    }
  }

  lemma ExpelledList(s: State, p: nat, n: nat)
    requires ElectionOk(s) && p < |s.candidates| && n > 0
    ensures Addresses(Shared(Without(s.candidates, p), s.candidates[p].stake / 10, n))
            == Addresses(s.candidates) - {s.candidates[p].address}
  {
    var forfeit := s.candidates[p].stake / 10;
    assert forfeit >= 0;
    hide Without, Raised, Addresses, Top, Ranked, UniqueAddresses;
    WithoutOk(s.candidates, p);
    DivMod(forfeit, n);
    SharedOk(Without(s.candidates, p), forfeit % n, forfeit / n, n);
  }

  /** Short of the quota a vote against a validator is recorded and nothing else happens. */
  lemma VoteAbolishWaits(s: State, m: Msg, malicious: Address, quota: nat)
    requires ElectionOk(s) && Funded(s) && m.valid && |s.chain| > 1
    requires Contains(s.chain, m.sender) && Contains(s.chain, malicious)
    requires malicious in s.abolitions && m.time <= s.abolitions[malicious].expiration
    requires m.sender !in s.abolitions[malicious].ballot
    ensures var b := s.abolitions[malicious];
            VoteAbolish(s, m, malicious, quota)
            == Some(s.(abolitions := s.abolitions[malicious := b.(ballot := b.ballot + [m.sender])]))
            <==> |b.ballot| + 1 < quota
  {
    if |s.abolitions[malicious].ballot| + 1 >= quota {
      CarriedVoteTakesEffect(s, m, malicious, quota);
      AddressIn(s.candidates, Position(s.candidates, malicious));
      hide VoteAbolish, ElectionOk, Funded, Contains, Position, Addresses;
    } else {
      hide ElectionOk, Funded, Shared, Without;
    }
  }

  // ---- Runs ----

  /** `init`, for the validators the chain starts with and the coins of the contract's account. */
  function Init(validators: seq<Candidate>, coins: nat): State
  {
    var cs := Sort(validators);
    State(cs, map[], map[], cs, coins, 0, [])
  }

  lemma InitOk(validators: seq<Candidate>, coins: nat)
    requires UniqueAddresses(validators) && |validators| <= VALIDATOR_SET_SIZE && NonNegativeStakes(validators)
    ensures ElectionOk(Init(validators, coins))
  {
    SortRanks(validators);
    SortUnique(validators);
    var cs := Sort(validators);
    forall k | 0 <= k < |cs|
      ensures cs[k].stake >= 0
    {
      assert cs[k] in multiset(validators);
    }
  }

  datatype Event = Event(m: Msg, call: Call)

  function Step(s: State, ev: Event): State
  {
    match Invoke(s, ev.m, ev.call)
    case None => s
    case Some(s') => s'
  }

  predicate IsRun(validators: seq<Candidate>, coins: nat, run: seq<State>, evs: seq<Event>)
  {
    && UniqueAddresses(validators) && |validators| <= VALIDATOR_SET_SIZE && NonNegativeStakes(validators)
    && |run| == |evs| + 1 && run[0] == Init(validators, coins)
    && forall t :: 0 <= t < |evs| ==> run[t + 1] == Step(run[t], evs[t])
  }

  /** Election order and pledge conservation: in every state of every run candidates are ranked
      without repetition, the chain's validators are the first hundred of them with their
      pledges, and recorded pledges are what `init` found plus coins in minus coins out. */
  lemma {:induction false} AlwaysElected(validators: seq<Candidate>, coins: nat, run: seq<State>, evs: seq<Event>, t: nat)
    requires IsRun(validators, coins, run, evs) && t < |run|
    ensures ElectionOk(run[t])
    ensures Recorded(run[t]) == Total(Sort(validators)) + run[t].received - PaidOut(run[t].paid)
    ensures run[t].balance == coins + run[t].received - PaidOut(run[t].paid)
  {
    hide ElectionOk, Invoke, Recorded, Sort, Total;
    if t == 0 {
      InitOk(validators, coins);
      RecordedAtStart(validators, coins);
    } else {
      AlwaysElected(validators, coins, run, evs, t - 1);
      assert run[t - 1 + 1] == Step(run[t - 1], evs[t - 1]);
      if Invoke(run[t - 1], evs[t - 1].m, evs[t - 1].call).Some? {
        InvokeOk(run[t - 1], evs[t - 1].m, evs[t - 1].call);
      }
    }
  }

  lemma RecordedAtStart(validators: seq<Candidate>, coins: nat)
    ensures Recorded(Init(validators, coins)) == Total(Sort(validators))
  {
    hide Sort, Total;
  }

  /** In every state of a run the coins reach for all recorded pledges, exactly if they did at
      the start; a chain starts its validators without pledges, so they do. */
  lemma AlwaysFunded(validators: seq<Candidate>, coins: nat, run: seq<State>, evs: seq<Event>, t: nat)
    requires IsRun(validators, coins, run, evs) && t < |run|
    ensures Funded(run[t]) <==> Total(Sort(validators)) <= coins
    ensures (forall k :: 0 <= k < |validators| ==> validators[k].stake == 0) ==> Funded(run[t])
  {
    hide Sort, Total, ElectionOk, Recorded, IsRun;
    AlwaysElected(validators, coins, run, evs, t);
    if forall k :: 0 <= k < |validators| ==> validators[k].stake == 0 {
      ZeroTotal(validators);
    }
  }

  lemma {:induction false} ZeroTotal(cs: seq<Candidate>)
    requires forall k :: 0 <= k < |cs| ==> cs[k].stake == 0
    ensures Total(Sort(cs)) == 0
  {
    if cs != [] {
      ZeroTotal(cs[..|cs| - 1]);
      TotalInsert(Sort(cs[..|cs| - 1]), cs[|cs| - 1]);
    }
  }
}
