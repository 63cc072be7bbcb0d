/** Who can change what in the validator election: every applicant, abolition proposal, candidate's
    pledge and payment after a call, from the state before it. */
module ElectionPowers {
  import opened Options
  import opened Ranking
  import opened ValidatorElection

  // ---- The conditions, from the state before the call ----

  /** Coins on top of a pledge, or enough for a first one. */
  predicate Pledges(s: State, m: Msg, call: Call)
  {
    && call.PledgeCoin?
    && call.amount >= if Contains(s.candidates, m.sender) || m.sender in s.applicants then MIN_SUPERADDITION else MIN_PLEDGE
  }

  /** A validator's vote on somebody who applied. */
  predicate VotesOn(s: State, m: Msg, call: Call, a: Address)
  {
    call.VoteFor? && call.applicant == a && m.valid && Contains(s.chain, m.sender) && a in s.applicants
  }

  /** The first vote after the time is over. */
  predicate Refuses(s: State, m: Msg, call: Call, a: Address)
  {
    VotesOn(s, m, call, a) && m.time > s.applicants[a].expiration
  }

  predicate Supports(s: State, m: Msg, call: Call, a: Address)
  {
    && VotesOn(s, m, call, a) && m.time <= s.applicants[a].expiration
    && |s.candidates| < 2 * VALIDATOR_SET_SIZE && m.sender !in s.applicants[a].ballot
  }

  /** A validator proposes to abolish another. */
  predicate Accuses(s: State, m: Msg, call: Call, a: Address)
  {
    call == AbolishValidator(a) && m.valid && Contains(s.chain, m.sender) && Contains(s.chain, a)
  }

  /** A validator's vote on a proposal against another. */
  predicate Judges(s: State, m: Msg, call: Call, a: Address)
  {
    && call.VoteForAbolish? && call.malicious == a && m.valid && |s.chain| > 1
    && Contains(s.chain, m.sender) && Contains(s.chain, a) && a in s.abolitions
  }

  /** The proposer takes a proposal back. */
  predicate Recalls(s: State, m: Msg, call: Call, a: Address)
  {
    call == Quit(a) && m.valid && a in s.abolitions && s.abolitions[a].proposer == m.sender
  }

  // ---- What a call makes of it ----

  function ApplicantAfter(s: State, m: Msg, call: Call, a: Address): Option<Applicant>
  {
    if Pledges(s, m, call) && m.sender == a && !Contains(s.candidates, a) then
      Some(if a in s.applicants
           then Applicant(s.applicants[a].pledge + call.amount, s.applicants[a].ballot, m.time + VOTE_INTERVAL)
           else Applicant(call.amount, [], m.time + VOTE_INTERVAL))
    else if a !in s.applicants || Refuses(s, m, call, a) || (call.TakebackCoin? && m.sender == a)
            || (Admits(s, m, call) && call.applicant == a) then None
    else if Supports(s, m, call, a) then Some(s.applicants[a].(ballot := s.applicants[a].ballot + [m.sender]))
    else Some(s.applicants[a])
  }

  /** A proposal renewed after it ran out ends with the call that renews it. */
  function AbolitionAfter(s: State, m: Msg, call: Call, a: Address): Option<Abolition>
  {
    if Accuses(s, m, call, a) then
      Some(if a !in s.abolitions then Abolition(m.sender, [m.sender], m.time + VOTE_INTERVAL)
           else if m.time >= s.abolitions[a].expiration then s.abolitions[a].(expiration := m.time)
           else s.abolitions[a])
    else if a !in s.abolitions || Recalls(s, m, call, a) || (Expels(s, m, call) && call.malicious == a)
            || (Judges(s, m, call, a) && m.time > s.abolitions[a].expiration) then None
    else if Judges(s, m, call, a) && m.sender !in s.abolitions[a].ballot then
      Some(s.abolitions[a].(ballot := s.abolitions[a].ballot + [m.sender]))
    else Some(s.abolitions[a])
  }

  function StakeOf(cs: seq<Candidate>, a: Address): (r: Option<int>)
    ensures r.Some? <==> Contains(cs, a)
  {
    if Contains(cs, a) then Some(cs[Position(cs, a)].stake) else None
  }

  /** A candidate's place among the others once one of them is gone. */
  function PlaceWithout(cs: seq<Candidate>, a: Address, gone: Address): nat
    requires Contains(cs, a) && a != gone
  {
    if Position(cs, a) < Position(cs, gone) then Position(cs, a) else Position(cs, a) - 1
  }

  /** A part of the forfeit for each of the other validators, what does not divide for the first. */
  function ForfeitPart(forfeit: int, n: nat, place: nat): int
    requires n > 0
  {
    (if place < n then forfeit / n else 0) + (if place == 0 then forfeit % n else 0)
  }

  function StakeAfter(s: State, m: Msg, call: Call, a: Address): Option<int>
  {
    if Admits(s, m, call) && call.applicant == a then Some(s.applicants[a].pledge)
    else if !Contains(s.candidates, a) || (Leaves(s, m, call) && m.sender == a) || (Expels(s, m, call) && call.malicious == a)
    then None
    else
      var stake := StakeOf(s.candidates, a).value;
      if Pledges(s, m, call) && m.sender == a then Some(stake + call.amount)
      else if Expels(s, m, call) && Contains(s.candidates, call.malicious) then
        var forfeit := StakeOf(s.candidates, call.malicious).value / 10;
        Some(stake + ForfeitPart(forfeit, |s.chain| - 1, PlaceWithout(s.candidates, a, call.malicious)))
      else Some(stake)
  }

  function PaymentsAfter(s: State, m: Msg, call: Call): seq<Payment>
  {
    if call.VoteFor? && Refuses(s, m, call, call.applicant) then
      Paying(s.paid, call.applicant, s.applicants[call.applicant].pledge)
    else if call.TakebackCoin? && m.sender in s.applicants then Paying(s.paid, m.sender, s.applicants[m.sender].pledge)
    else if Leaves(s, m, call) then Paying(s.paid, m.sender, StakeOf(s.candidates, m.sender).value)
    else if Expels(s, m, call) && Contains(s.candidates, call.malicious) then
      var stake := StakeOf(s.candidates, call.malicious).value;
      Paying(s.paid, call.malicious, stake - stake / 10)
    else s.paid
  }

  // ---- Pledges by address ----

  /** In a list without repetition a pledge is found under its address. */
  lemma StakeIs(cs: seq<Candidate>, k: nat)
    requires UniqueAddresses(cs) && k < |cs|
    ensures StakeOf(cs, cs[k].address) == Some(cs[k].stake)
  {
    PositionOfMember(cs, k);
  }

  lemma StakeInsert(cs: seq<Candidate>, c: Candidate, a: Address)
    requires UniqueAddresses(cs) && c.address !in Addresses(cs)
    ensures StakeOf(Insert(cs, c), a) == if a == c.address then Some(c.stake) else StakeOf(cs, a)
  {
    hide Place, Position, Ahead, UniqueAddresses, StakeOf;
    UniqueInsert(cs, c);
    var r, p := Insert(cs, c), Place(cs, c);
    if a == c.address {
      StakeIs(r, p);
    } else if Contains(cs, a) {
      var k := Position(cs, a);
      StakeIs(cs, k);
      StakeIs(r, if k < p then k else k + 1);
    }
  }

  lemma StakeWithout(cs: seq<Candidate>, p: nat, a: Address)
    requires UniqueAddresses(cs) && p < |cs|
    ensures StakeOf(Without(cs, p), a) == if a == cs[p].address then None else StakeOf(cs, a)
    ensures a != cs[p].address && Contains(cs, a) ==>
              Position(Without(cs, p), a) == PlaceWithout(cs, a, cs[p].address)
  {
    WithoutUnique(cs, p);
    PositionOfMember(cs, p);
    hide Position;
    var r := Without(cs, p);
    if Contains(r, a) {
      var j := Position(r, a);
      assert r[j] == cs[if j < p then j else j + 1];
    }
    if a != cs[p].address && Contains(cs, a) {
      var k := Position(cs, a);
      var j := if k < p then k else k - 1;
      assert r[j] == cs[k];
      PositionOfMember(r, j);
    }
  }

  lemma StakeRaised(cs: seq<Candidate>, award: int, average: int, n: nat, a: Address)
    requires UniqueAddresses(cs)
    ensures StakeOf(Raised(cs, award, average, n), a)
            == if !Contains(cs, a) then None
               else var k := Position(cs, a);
                    Some(StakeOf(cs, a).value + (if k == 0 then award else 0) + (if k < n then average else 0))
  {
    hide Position;
    var r := Raised(cs, award, average, n);
    if Contains(cs, a) {
      var k := Position(cs, a);
      assert r[k].address == a;
      StakeIs(r, k);
    }
  }

  // ---- Call by call ----

  predicate Follows(s: State, m: Msg, call: Call, s': State, a: Address)
  {
    && Lookup(s'.applicants, a) == ApplicantAfter(s, m, call, a)
    && Lookup(s'.abolitions, a) == AbolitionAfter(s, m, call, a)
    && StakeOf(s'.candidates, a) == StakeAfter(s, m, call, a)
    && s'.paid == PaymentsAfter(s, m, call)
    && s'.received == s.received + (if Pledges(s, m, call) then call.amount else 0)
  }

  lemma PledgeFollows(s: State, m: Msg, amount: int, a: Address)
    requires ElectionOk(s)
    ensures Follows(s, m, PledgeCoin(amount), After(s, Pledge(s, m, amount)), a)
  {
    hide Insert, Without, Position, Top, ElectionOk, StakeOf, Follows, Pledge;
    if Contains(s.candidates, m.sender) { RaiseFollows(s, m, amount, a); } else { ApplyFollows(s, m, amount, a); }
  }

  lemma ApplyFollows(s: State, m: Msg, amount: int, a: Address)
    requires !Contains(s.candidates, m.sender)
    ensures Follows(s, m, PledgeCoin(amount), After(s, Pledge(s, m, amount)), a)
  {
    hide Insert, Without, Position, Top, StakeOf;
  }

  lemma RaiseFollows(s: State, m: Msg, amount: int, a: Address)
    requires ElectionOk(s) && Contains(s.candidates, m.sender)
    ensures Follows(s, m, PledgeCoin(amount), After(s, Pledge(s, m, amount)), a)
  {
    hide Insert, Without, Position, Top, ElectionOk, StakeOf, UniqueAddresses;
    ListFacts(s);
    RaisedStakes(s.candidates, Position(s.candidates, m.sender), amount, a);
  }

  lemma ListFacts(s: State)
    requires ElectionOk(s)
    ensures |s.candidates| <= 2 * VALIDATOR_SET_SIZE && UniqueAddresses(s.candidates)
  {
  }

  lemma RaisedStakes(cs: seq<Candidate>, p: nat, amount: int, a: Address)
    requires UniqueAddresses(cs) && p < |cs|
    ensures var c := cs[p];
            && |Without(cs, p)| == |cs| - 1 && StakeOf(cs, c.address) == Some(c.stake)
            && StakeOf(Insert(Without(cs, p), c.(stake := c.stake + amount)), a)
               == if a == c.address then Some(c.stake + amount) else StakeOf(cs, a)
  {
    hide Insert, Position, Addresses, StakeOf, UniqueAddresses;
    StakeIs(cs, p);
    WithoutUnique(cs, p);
    WithoutAddresses(cs, p);
    StakeWithout(cs, p, a);
    StakeInsert(Without(cs, p), cs[p].(stake := cs[p].stake + amount), a);
  }

  lemma VoteForFollows(s: State, m: Msg, applicant: Address, quota: nat, a: Address)
    requires ElectionOk(s) && Funded(s)
    ensures Follows(s, m, VoteFor(applicant, quota), After(s, VoteForApplicant(s, m, applicant, quota)), a)
  {
    hide Insert, Position, Top, ElectionOk, Funded, Pay, Paying, StakeOf, Contains;
    if Admits(s, m, VoteFor(applicant, quota)) {
      JoinedStakes(s, applicant, a);
    } else if applicant in s.applicants {
      ApplicantCovered(s, applicant);
      PaySucceeds(s.(applicants := s.applicants - {applicant}), applicant, s.applicants[applicant].pledge);
    }
  }

  lemma JoinedStakes(s: State, applicant: Address, a: Address)
    requires ElectionOk(s) && applicant in s.applicants
    ensures StakeOf(Insert(s.candidates, Entry(applicant, s.applicants[applicant].pledge, ())), a)
            == if a == applicant then Some(s.applicants[applicant].pledge) else StakeOf(s.candidates, a)
    ensures !Contains(s.candidates, applicant)
  {
    hide Insert, Position, StakeOf;
    ContainsIsMembership(s.candidates, applicant);
    StakeInsert(s.candidates, Entry(applicant, s.applicants[applicant].pledge, ()), a);
  }

  lemma TakebackFollows(s: State, m: Msg, a: Address)
    requires ElectionOk(s) && Funded(s)
    ensures Follows(s, m, TakebackCoin, After(s, Takeback(s, m)), a)
  {
    hide Without, Position, Top, ElectionOk, Funded, Pay, Paying, StakeOf;
    var p := Position(s.candidates, m.sender);
    if m.sender in s.applicants {
      ApplicantCovered(s, m.sender);
      PaySucceeds(s.(applicants := s.applicants - {m.sender}), m.sender, s.applicants[m.sender].pledge);
    } else if p < |s.candidates| {
      CandidateCovered(s, p);
      PaySucceeds(s.(candidates := Without(s.candidates, p)), m.sender, s.candidates[p].stake);
      LeftStakes(s, p, a);
    }
  }

  lemma LeftStakes(s: State, p: nat, a: Address)
    requires ElectionOk(s) && p < |s.candidates|
    ensures StakeOf(Without(s.candidates, p), a) == if a == s.candidates[p].address then None else StakeOf(s.candidates, a)
    ensures StakeOf(s.candidates, s.candidates[p].address) == Some(s.candidates[p].stake)
  {
    hide Without, Position, StakeOf;
    StakeWithout(s.candidates, p, a);
    StakeIs(s.candidates, p);
  }

  lemma ProposalFollows(s: State, m: Msg, call: Call, a: Address)
    requires call.AbolishValidator? || call.Quit?
    ensures Follows(s, m, call, After(s, Invoke(s, m, call)), a)
  {
    hide Position;
  }

  lemma JudgedFollows(s: State, m: Msg, malicious: Address, quota: nat, a: Address)
    requires ElectionOk(s) && Funded(s)
    ensures Follows(s, m, VoteForAbolish(malicious, quota), After(s, VoteAbolish(s, m, malicious, quota)), a)
  {
    hide ElectionOk, Funded, Position, Without, Shared, Top;
    if Expels(s, m, VoteForAbolish(malicious, quota)) {
      ExpelledFollows(s, m, malicious, quota, a);
    }
  }

  lemma ExpelledFollows(s: State, m: Msg, malicious: Address, quota: nat, a: Address)
    requires ElectionOk(s) && Funded(s) && Expels(s, m, VoteForAbolish(malicious, quota))
    ensures Follows(s, m, VoteForAbolish(malicious, quota), After(s, VoteAbolish(s, m, malicious, quota)), a)
  {
    hide ElectionOk, Funded, Position, Without, Shared, Top, Pay, Paying, StakeOf, PlaceWithout, ForfeitPart;
    ChainIsCandidates(s, malicious);
    var p, n := Position(s.candidates, malicious), |s.chain| - 1;
    CandidateCovered(s, p);
    ForfeitStakes(s, p, n, a);
    var stake := s.candidates[p].stake;
    PaySucceeds(s.(candidates := Shared(Without(s.candidates, p), stake / 10, n), abolitions := s.abolitions - {malicious}),
                malicious, stake - stake / 10);
  }

  lemma ForfeitStakes(s: State, p: nat, n: nat, a: Address)
    requires ElectionOk(s) && p < |s.candidates| && n > 0
    ensures var gone := s.candidates[p].address;
            var stake := s.candidates[p].stake;
            var r := Shared(Without(s.candidates, p), stake / 10, n);
            && StakeOf(s.candidates, gone) == Some(stake)
            && StakeOf(r, a) == if a == gone || !Contains(s.candidates, a) then None
                                else Some(StakeOf(s.candidates, a).value
                                          + ForfeitPart(stake / 10, n, PlaceWithout(s.candidates, a, gone)))
  {
    hide Position, Without, Raised, PlaceWithout, StakeOf, Ranked, UniqueAddresses, ApplicantsOk;
    var forfeit := s.candidates[p].stake / 10;
    StakeIs(s.candidates, p);
    WithoutUnique(s.candidates, p);
    StakeWithout(s.candidates, p, a);
    StakeRaised(Without(s.candidates, p), forfeit % n, forfeit / n, n, a);
  }

  /** Applicants, proposals, pledges and payments change by the calls named above and by nothing
      else, exactly as said; a call that is refused changes none of them. With the order of the
      list (`ElectionOk`) and the coins (`Balanced`) this is all the contract stores. */
  lemma ElectionChanges(s: State, m: Msg, call: Call, a: Address)
    requires ElectionOk(s) && Funded(s)
    ensures Follows(s, m, call, Step(s, Event(m, call)), a)
  {
    hide ElectionOk, Funded, Follows, Pledge, VoteForApplicant, Takeback, Abolish, QuitAbolish, VoteAbolish;
    match call
    case PledgeCoin(amount) => PledgeFollows(s, m, amount, a);
    case VoteFor(applicant, quota) => VoteForFollows(s, m, applicant, quota, a);
    case TakebackCoin => TakebackFollows(s, m, a);
    case AbolishValidator(malicious) => ProposalFollows(s, m, call, a);
    case Quit(malicious) => ProposalFollows(s, m, call, a);
    case VoteForAbolish(malicious, quota) => JudgedFollows(s, m, malicious, quota, a);
  }
}
