/** The DPoS contract as functions on values: what every call does to the stored state and to
    the contract's balance. `None` is a call that throws and is rolled back. */
module Dpos {
  import opened Options
  import opened Ranking

  type Address = string

  datatype Role = Committee | Validator | Kol

  /** A ranked candidate; `data` is its node address, empty for a KOL. */
  type Candidate = Entry<string>

  /** The stored configuration, as far as it matters here. */
  datatype RawConfig = Config(
    validatorSize: nat,
    validatorCandidateSize: nat,
    validatorMinPledge: int,
    kolSize: nat,
    kolCandidateSize: nat,
    kolMinPledge: int,
    committeeSize: nat,
    magnification: int,
    passRate: real,
    validPeriod: int,
    voteUnit: nat,
    validatorShare: real,
    validatorCandidateShare: real,
    kolShare: real,
    kolCandidateShare: real)

  /** What `init` sets. */
  const FIRST_CONFIG: RawConfig :=
    Config(19, 100, 300000000000000, 21, 100, 300000000000000, 10, 2, 0.5, 2592000000000, 1000000000,
           50.0, 10.0, 35.0, 5.0)

  /** `cfgValid` makes the four reward shares add up to 100 and the other numbers positive. It asks
      of the shares neither that they be whole nor that they be positive. */
  predicate ConfigOk(c: RawConfig)
  {
    && c.validatorShare + c.validatorCandidateShare + c.kolShare + c.kolCandidateShare == 100.0
    && c.voteUnit > 0 && c.validatorSize > 0 && c.magnification > 0
  }

  type Config = c: RawConfig | ConfigOk(c) witness FIRST_CONFIG

  datatype Key = Key(role: Role, address: Address)

  datatype VoteKey = VoteKey(voter: Address, role: Role, candidate: Address)

  datatype Application = Application(
    pledge: int, expiration: int, passed: bool, ballot: seq<Address>, pool: Address, ratio: int, node: Address)

  datatype Exit = Exit(pledge: int, expiration: int)

  datatype Abolition = Abolition(expiration: int, ballot: seq<Address>)

  /** An entry of a reward distribution: reward received, vote reward pool and its ratio. */
  datatype Share = Share(reward: int, pool: Address, ratio: int)

  type Dist = map<Address, Share>

  datatype State = State(
    balance: int,
    allStake: int,
    applications: map<Key, Application>,
    exits: map<Key, Exit>,
    abolitions: map<Key, Abolition>,
    votes: map<VoteKey, int>,
    valCands: seq<Candidate>,
    kolCands: seq<Candidate>,
    valDist: Dist,
    kolDist: Dist,
    committee: seq<Address>,
    published: seq<Address>,
    paid: seq<Payment>)

  /** Coins that left the contract, oldest first. */
  datatype Payment = Payment(to: Address, amount: int)

  // ---- Splitting a reward ----

  function Credit(dist: Dist, address: Address, amount: int): Dist
    requires address in dist
  {
    dist[address := dist[address].(reward := dist[address].reward + amount)]
  }

  predicate Known(dist: Dist, nodes: seq<Candidate>)
  {
    forall k :: 0 <= k < |nodes| ==> nodes[k].address in dist
  }

  function CreditEach(dist: Dist, nodes: seq<Candidate>, amount: int): (r: Dist)
    requires Known(dist, nodes)
    ensures r.Keys == dist.Keys
  {
    if nodes == [] then dist
    else Credit(CreditEach(dist, nodes[..|nodes| - 1], amount), nodes[|nodes| - 1].address, amount)
  }

  /** `distribute`: equal parts, and the remainder to the first. */
  function Distribute(nodes: seq<Candidate>, reward: nat, dist: Dist): (r: Dist)
    requires nodes != [] && Known(dist, nodes)
    ensures r.Keys == dist.Keys
  {
    Credit(CreditEach(dist, nodes, reward / |nodes|), nodes[0].address, reward % |nodes|)
  }

  /** `int64Div` refuses a negative amount; an empty group is not handed any. */
  predicate Signed(nodes: seq<Candidate>, reward: int)
  {
    nodes != [] ==> reward >= 0
  }

  function Handout(nodes: seq<Candidate>, reward: int, dist: Dist): (r: Dist)
    requires Known(dist, nodes) && Signed(nodes, reward)
    ensures r.Keys == dist.Keys
  {
    if nodes == [] then dist else Distribute(nodes, reward, dist)
  }

  function Rest(cs: seq<Candidate>, k: nat): seq<Candidate>
  {
    if |cs| <= k then [] else cs[k..]
  }

  datatype Pools = Pools(val: Dist, kol: Dist)

  /** The four groups that share a reward. */
  datatype Groups = Groups(validators: seq<Candidate>, valRest: seq<Candidate>, kols: seq<Candidate>, kolRest: seq<Candidate>)

  predicate Payable(g: Groups, p: Pools)
  {
    && g.validators != [] && Known(p.val, g.validators) && Known(p.val, g.valRest)
    && Known(p.kol, g.kols) && Known(p.kol, g.kolRest)
  }

  /** The reward by whole hundredths, and what is left over. */
  datatype Parts = Parts(validators: int, valRest: int, kols: int, kolRest: int, left: nat)

  function Percent(reward: nat, share: int): int
  {
    reward / 100 * share
  }

  lemma PercentsAddUp(reward: nat, a: int, b: int, c: int, d: int)
    requires a + b + c + d == 100
    ensures Percent(reward, a) + Percent(reward, b) + Percent(reward, c) + Percent(reward, d) == reward - reward % 100
  {
    var centi := reward / 100;
    assert centi * a + centi * b + centi * c + centi * d == centi * (a + b + c + d);
  }

  predicate Whole(share: real)
  {
    share.Floor as real == share
  }

  /** `int64Mul` refuses a factor that is not a whole number. */
  predicate WholeShares(cfg: Config)
  {
    Whole(cfg.validatorShare) && Whole(cfg.validatorCandidateShare) && Whole(cfg.kolShare) && Whole(cfg.kolCandidateShare)
  }

  function Shares(cfg: Config): (p: Parts)
    ensures WholeShares(cfg) ==> p.validators + p.valRest + p.kols + p.kolRest == 100
  {
    Parts(cfg.validatorShare.Floor, cfg.validatorCandidateShare.Floor, cfg.kolShare.Floor, cfg.kolCandidateShare.Floor, 0)
  }

  function SplitReward(cfg: Config, reward: nat): (p: Parts)
    requires WholeShares(cfg)
    ensures p.validators + p.valRest + p.kols + p.kolRest + p.left == reward
  {
    var share := Shares(cfg);
    PercentsAddUp(reward, share.validators, share.valRest, share.kols, share.kolRest);
    Parts(Percent(reward, share.validators), Percent(reward, share.valRest),
          Percent(reward, share.kols), Percent(reward, share.kolRest), reward % 100)
  }

  /** The part of an empty group goes to the next group up. */
  function Folded(g: Groups, part: Parts): Parts
  {
    var forKols := part.kols + (if g.kolRest == [] then part.kolRest else 0);
    var forValidators :=
      part.validators + (if g.kols == [] then forKols else 0) + (if g.valRest == [] then part.valRest else 0);
    Parts(forValidators, part.valRest, forKols, part.kolRest, part.left)
  }

  predicate AllSigned(g: Groups, due: Parts)
  {
    && Signed(g.validators, due.validators) && Signed(g.valRest, due.valRest)
    && Signed(g.kols, due.kols) && Signed(g.kolRest, due.kolRest)
  }

  /** `calculate`. */
  function Calculate(cfg: Config, g: Groups, p: Pools, reward: nat): (r: Option<Pools>)
    ensures r.Some? <==> WholeShares(cfg) && Payable(g, p) && AllSigned(g, Folded(g, SplitReward(cfg, reward)))
    ensures r.Some? ==> r.value.val.Keys == p.val.Keys && r.value.kol.Keys == p.kol.Keys
  {
    if !WholeShares(cfg) || !Payable(g, p) || !AllSigned(g, Folded(g, SplitReward(cfg, reward))) then None
    else
      var due := Folded(g, SplitReward(cfg, reward));
      var kol := Handout(g.kols, due.kols, Handout(g.kolRest, due.kolRest, p.kol));
      var val := Handout(g.validators, due.validators, Handout(g.valRest, due.valRest, p.val));
      Some(Pools(Credit(val, g.validators[0].address, due.left), kol))
  }

  /** `rewardDistribution`. The formal groups are those of the lists as loaded; the other two
      are read off the lists as they are now. */
  function RewardDistribution(cfg: Config, s: State, validators: seq<Candidate>, kols: seq<Candidate>): Option<State>
    requires s.balance >= s.allStake
  {
    if s.balance == s.allStake then Some(s)
    else
      var g := Groups(validators, Rest(s.valCands, cfg.validatorSize), kols, Rest(s.kolCands, cfg.kolSize));
      match Calculate(cfg, g, Pools(s.valDist, s.kolDist), s.balance - s.allStake)
      case None => None
      case Some(p) => Some(s.(valDist := p.val, kolDist := p.kol, allStake := s.balance))
  }

  function Logged(paid: seq<Payment>, to: Address, amount: int): seq<Payment>
  {
    if amount == 0 then paid else paid + [Payment(to, amount)]
  }

  function Paid(s: State, to: Address, amount: int): State
  {
    s.(balance := s.balance - amount, allStake := s.allStake - amount, paid := Logged(s.paid, to, amount))
  }

  /** `transferCoin`: an atomic debit. */
  function Transfer(s: State, to: Address, amount: int): (r: Option<State>)
    ensures r.Some? ==> r.value == Paid(s, to, amount)
  {
    if amount == 0 then Some(s)
    else if amount < 0 || amount > s.balance then None
    else Some(Paid(s, to, amount))
  }

  // ---- Candidate lists ----

  function Cands(s: State, role: Role): seq<Candidate>
  {
    if role.Validator? then s.valCands else s.kolCands
  }

  function WithCands(s: State, role: Role, cs: seq<Candidate>): State
  {
    if role.Validator? then s.(valCands := cs) else s.(kolCands := cs)
  }

  function DistOf(s: State, role: Role): Dist
  {
    if role.Validator? then s.valDist else s.kolDist
  }

  function WithDist(s: State, role: Role, dist: Dist): State
  {
    if role.Validator? then s.(valDist := dist) else s.(kolDist := dist)
  }

  function FormalSize(cfg: Config, role: Role): nat
  {
    if role.Validator? then cfg.validatorSize else cfg.kolSize
  }

  function CandidateSize(cfg: Config, role: Role): nat
  {
    if role.Validator? then cfg.validatorCandidateSize else cfg.kolCandidateSize
  }

  /** `updateValidators`: hand the first places to `setValidators`. */
  function Publish(cfg: Config, s: State): State
  {
    s.(published := Data(Top(s.valCands, cfg.validatorSize)))
  }

  function Formal(cfg: Config, s: State): (seq<Candidate>, seq<Candidate>)
  {
    (Top(s.valCands, cfg.validatorSize), Top(s.kolCands, cfg.kolSize))
  }

  predicate NodeTaken(cs: seq<Candidate>, node: Address)
  {
    exists k :: 0 <= k < |cs| && cs[k].data == node
  }

  /** `addCandidates`. */
  function AddCandidate(cfg: Config, s: State, role: Role, address: Address, a: Application): Option<State>
    requires s.balance >= s.allStake
  {
    var cs := Cands(s, role);
    var stake := a.pledge * cfg.magnification;
    if |cs| >= CandidateSize(cfg, role) && (cs == [] || stake <= cs[|cs| - 1].stake) then Some(s)
    else
      var (validators, kols) := Formal(cfg, s);
      match RewardDistribution(cfg, s, validators, kols)
      case None => None
      case Some(s1) =>
        if role.Validator? && NodeTaken(cs, a.node) then None
        else
          var c := Entry(address, stake, if role.Validator? then a.node else "");
          var dist := DistOf(s1, role);
          var s2 := if address in dist then s1 else WithDist(s1, role, dist[address := Share(0, a.pool, a.ratio)]);
          var kept := Top(Sort(cs + [c]), CandidateSize(cfg, role));
          var s3 := WithCands(s2, role, kept);
          var p := Position(kept, address);
          Some(if role.Validator? && (p < cfg.validatorSize || p == |kept|) then Publish(cfg, s3) else s3)
  }

  /** `deleteCandidate`. */
  function DeleteCandidate(cfg: Config, s: State, role: Role, address: Address): Option<State>
    requires s.balance >= s.allStake
  {
    var cs := Cands(s, role);
    var p := Position(cs, address);
    if p == |cs| then Some(s)
    else
      var (validators, kols) := Formal(cfg, s);
      match RewardDistribution(cfg, s, validators, kols)
      case None => None
      case Some(s1) =>
        var s2 := WithCands(s1, role, Sort(Without(cs, p)));
        Some(if role.Validator? && p < cfg.validatorSize then Publish(cfg, s2) else s2)
  }

  /** `updateStake` for the candidate at position p: rewards are settled and validators
      published only if it crosses the boundary of the formal places. */
  function UpdateStake(cfg: Config, s: State, role: Role, p: nat, amount: int): Option<State>
    requires s.balance >= s.allStake && p < |Cands(s, role)|
  {
    var cs := Cands(s, role);
    var c := cs[p].(stake := cs[p].stake + amount);
    var sorted := Sort(cs[p := c]);
    var q := Position(sorted, c.address);
    var k := FormalSize(cfg, role);
    var s1 := WithCands(s, role, sorted);
    if p < k <==> q < k then Some(s1)
    else
      var (validators, kols) := Formal(cfg, s);
      match RewardDistribution(cfg, s1, validators, kols)
      case None => None
      case Some(s2) => Some(if role.Validator? then Publish(cfg, s2) else s2)
  }

  // ---- Rewards ----

  /** The voters' part of a reward, by whole hundredths. */
  function Dividend(share: Share): int
  {
    if share.ratio == 0 then 0 else if share.ratio == 100 then share.reward else share.reward / 100 * share.ratio
  }

  /** `award`: pay out a reward, split between the node and its voters' pool. */
  function Award(s: State, role: Role, address: Address): Option<State>
    requires address in DistOf(s, role)
  {
    var share := DistOf(s, role)[address];
    var dividend := Dividend(share);
    match Transfer(s, share.pool, dividend)
    case None => None
    case Some(s1) =>
      match Transfer(s1, address, share.reward - dividend)
      case None => None
      case Some(s2) =>
        var dist := DistOf(s2, role);
        Some(WithDist(s2, role,
                      if Contains(Cands(s2, role), address) then dist[address := share.(reward := 0)] else dist - {address}))
  }

  function AwardIfAny(s: State, role: Role, address: Address): Option<State>
  {
    if address in DistOf(s, role) then Award(s, role, address) else Some(s)
  }

  function AwardAll(s: State, list: seq<Address>): Option<State>
  {
    if list == [] then Some(s)
    else
      match AwardAll(s, list[..|list| - 1])
      case None => None
      case Some(s1) =>
        match AwardIfAny(s1, Validator, list[|list| - 1])
        case None => None
        case Some(s2) => AwardIfAny(s2, Kol, list[|list| - 1])
  }

  // ---- Calls ----

  /** Who calls, with how many coins, when; and whether `addressCheck` and the type checks on
      the parameters succeed. */
  datatype Msg = Msg(sender: Address, amount: nat, time: int, wellFormed: bool)

  datatype Motion = ToApply | ToAbolish | ToWithdraw

  datatype Call =
    | Apply(role: Role, pool: Address, ratio: int, node: Address)
    | Append(role: Role)
    | Approve(motion: Motion, role: Role, address: Address)
    | CastVote(role: Role, address: Address)
    | UnVote(role: Role, address: Address)
    | Abolish(role: Role, address: Address)
    | Withdraw(role: Role)
    | Extract(list: seq<Address>)
    | SetNodeAddress(node: Address)
    | SetVoteDividend(role: Role, newPool: Option<Address>, newRatio: Option<int>)
    | Clean(motion: Motion, role: Role, address: Address)

  predicate TakesCoins(call: Call)
  {
    call.Apply? || call.Append? || call.CastVote?
  }

  function DoApply(cfg: Config, s: State, m: Msg, role: Role, pool: Address, ratio: int, node: Address): Option<State>
  {
    var key := Key(role, m.sender);
    var pledgeOk := match role
      case Validator => m.amount >= cfg.validatorMinPledge
      case Kol => m.amount >= cfg.kolMinPledge
      case Committee => m.amount == 0;
    if key in s.applications || !pledgeOk || (!role.Committee? && !m.wellFormed) then None
    else if !role.Committee? && !(0 <= ratio <= 100) then None
    else if role.Validator? && NodeTaken(s.valCands, node) then None
    else Some(s.(applications := s.applications[key :=
           Application(m.amount, m.time + cfg.validPeriod, false, [], pool, ratio, node)]))
  }

  function DoAppend(cfg: Config, s: State, m: Msg, role: Role): Option<State>
    requires s.balance >= s.allStake
  {
    var key := Key(role, m.sender);
    if key !in s.applications then None
    else
      var a := s.applications[key];
      if !(m.time < a.expiration || a.passed) || m.amount % cfg.voteUnit != 0 then None
      else
        var a' := a.(pledge := a.pledge + m.amount);
        var s1 := s.(applications := s.applications[key := a']);
        if !a.passed then Some(s1)
        else if role.Committee? then None
        else
          var p := Position(Cands(s1, role), m.sender);
          if p == |Cands(s1, role)| then AddCandidate(cfg, s1, role, m.sender, a')
          else UpdateStake(cfg, s1, role, p, m.amount * cfg.magnification)
  }

  function DoVote(cfg: Config, s: State, m: Msg, role: Role, address: Address): Option<State>
    requires s.balance >= s.allStake
  {
    var key := VoteKey(m.sender, role, address);
    var before := if key in s.votes then s.votes[key] else 0;
    var s1 := s.(votes := s.votes[key := before + m.amount]);
    var p := Position(Cands(s, role), address);
    if role.Committee? || !m.wellFormed || m.amount % cfg.voteUnit != 0 || p == |Cands(s, role)| then None
    else UpdateStake(cfg, s1, role, p, m.amount)
  }

  function DoUnVote(cfg: Config, s: State, m: Msg, role: Role, address: Address): Option<State>
    requires s.balance >= s.allStake
  {
    var key := VoteKey(m.sender, role, address);
    if role.Committee? || !m.wellFormed || key !in s.votes then None
    else
      match Transfer(s.(votes := s.votes - {key}), m.sender, s.votes[key])
      case None => None
      case Some(s1) =>
        var p := Position(Cands(s1, role), address);
        if p == |Cands(s1, role)| then Some(s1)
        else UpdateStake(cfg, s1, role, p, -s.votes[key])
  }

  function DoWithdraw(cfg: Config, s: State, m: Msg, role: Role): Option<State>
    requires s.balance >= s.allStake
  {
    var key := Key(role, m.sender);
    if role.Committee? then
      if m.sender !in s.committee || |s.committee| < 2 then None
      else Some(s.(applications := s.applications - {key}, committee := RemoveFirst(s.committee, m.sender)))
    else if key in s.exits then
      if m.time < s.exits[key].expiration then None
      else Transfer(s.(exits := s.exits - {key}), m.sender, s.exits[key].pledge)
    else if key !in s.applications then None
    else
      var a := s.applications[key];
      var s1 := s.(applications := s.applications - {key});
      if !a.passed then Transfer(s1, m.sender, a.pledge)
      else
        match DeleteCandidate(cfg, s1, role, m.sender)
        case None => None
        case Some(s2) => Some(s2.(exits := s2.exits[key := Exit(a.pledge, m.time + cfg.validPeriod)]))
  }

  function RemoveFirst(list: seq<Address>, a: Address): seq<Address>
  {
    if list == [] then []
    else if list[0] == a then list[1..]
    else [list[0]] + RemoveFirst(list[1..], a)
  }

  /** `penalty`: a forfeited pledge is no longer refundable; its coins stay in the contract. */
  function Penalty(s: State, key: Key): Option<State>
  {
    if key in s.applications then Some(s.(applications := s.applications - {key}))
    else if key in s.exits then Some(s.(exits := s.exits - {key}))
    else None
  }

  /** `parseInt(committee.length * pass_rate)` */
  predicate Carried(cfg: Config, s: State, ballots: nat)
  {
    ballots > (|s.committee| as real * cfg.passRate).Floor
  }

  function DoApprove(cfg: Config, s: State, m: Msg, motion: Motion, role: Role, address: Address): Option<State>
    requires s.balance >= s.allStake
  {
    var key := Key(role, address);
    if !m.wellFormed || m.sender !in s.committee then None
    else
      match motion
      case ToWithdraw => None
      case ToApply =>
        if key !in s.applications then None
        else
          var a := s.applications[key];
          if a.passed then None
          else if m.time >= a.expiration then Some(s)
          else if m.sender in a.ballot then None
          else
            var a' := a.(ballot := a.ballot + [m.sender]);
            if !Carried(cfg, s, |a'.ballot|) then Some(s.(applications := s.applications[key := a']))
            else
              var s1 := s.(applications := s.applications[key := a'.(passed := true)]);
              if role.Committee? then
                Some(if |s.committee| < cfg.committeeSize then s1.(committee := s.committee + [address]) else s1)
              else AddCandidate(cfg, s1, role, address, a')
      case ToAbolish =>
        if key !in s.abolitions then None
        else
          var b := s.abolitions[key];
          if m.time >= b.expiration then Some(s)
          else if m.sender in b.ballot then None
          else
            var b' := b.(ballot := b.ballot + [m.sender]);
            if !Carried(cfg, s, |b'.ballot|) then Some(s.(abolitions := s.abolitions[key := b']))
            else
              var s1 := s.(abolitions := s.abolitions - {key});
              if role.Committee? then
                if address in s.committee then Some(s1.(committee := RemoveFirst(s.committee, address))) else None
              else
                match DeleteCandidate(cfg, s1, role, address)
                case None => None
                case Some(s2) => Penalty(s2, key)
  }

  predicate MayReport(cfg: Config, s: State, role: Role, sender: Address)
  {
    match role
    case Committee => sender in s.committee
    case Validator => Contains(Top(s.valCands, cfg.validatorSize), sender)
    case Kol => Contains(Top(s.kolCands, cfg.kolSize), sender)
  }

  function DoAbolish(cfg: Config, s: State, m: Msg, role: Role, address: Address): Option<State>
  {
    var key := Key(role, address);
    if !MayReport(cfg, s, role, m.sender) || !m.wellFormed || key !in s.applications || !s.applications[key].passed then None
    else
      var ballot := if key in s.abolitions then s.abolitions[key].ballot
                    else if role.Committee? then [m.sender] else [];
      Some(s.(abolitions := s.abolitions[key := Abolition(m.time + cfg.validPeriod, ballot)]))
  }

  function DoExtract(cfg: Config, s: State, m: Msg, list: seq<Address>): Option<State>
    requires s.balance >= s.allStake
  {
    if |list| > 100 then None
    else
      var (validators, kols) := Formal(cfg, s);
      match RewardDistribution(cfg, s, validators, kols)
      case None => None
      case Some(s1) => AwardAll(s1, list)
  }

  function DoSetNodeAddress(cfg: Config, s: State, m: Msg, node: Address): Option<State>
  {
    var key := Key(Validator, m.sender);
    if !m.wellFormed || NodeTaken(s.valCands, node) || key !in s.applications then None
    else
      var s1 := s.(applications := s.applications[key := s.applications[key].(node := node)]);
      var p := Position(s.valCands, m.sender);
      if p == |s.valCands| then Some(s1)
      else
        var s2 := s1.(valCands := s.valCands[p := s.valCands[p].(data := node)]);
        Some(if p < cfg.validatorSize then Publish(cfg, s2) else s2)
  }

  /** `setVoteDividend`; for any role but the validator the KOL distribution is the one updated. */
  function DoSetVoteDividend(s: State, m: Msg, role: Role, pool: Option<Address>, ratio: Option<int>): Option<State>
  {
    var key := Key(role, m.sender);
    if key !in s.applications || !m.wellFormed || (ratio.Some? && !(0 <= ratio.value <= 100)) then None
    else
      var a := s.applications[key];
      var a' := a.(pool := if pool.Some? then pool.value else a.pool, ratio := if ratio.Some? then ratio.value else a.ratio);
      var s1 := s.(applications := s.applications[key := a']);
      var dist := DistOf(s1, role);
      if m.sender !in dist then Some(s1)
      else
        var d := dist[m.sender];
        var d' := d.(pool := if pool.Some? then pool.value else d.pool, ratio := if ratio.Some? then ratio.value else d.ratio);
        Some(WithDist(s1, role, dist[m.sender := d']))
  }

  function DoClean(s: State, m: Msg, motion: Motion, role: Role, address: Address): Option<State>
  {
    var key := Key(role, address);
    if !m.wellFormed then None
    else
      match motion
      case ToApply =>
        if key !in s.applications || m.time < s.applications[key].expiration || s.applications[key].passed then None
        else Transfer(s.(applications := s.applications - {key}), address, s.applications[key].pledge)
      case ToWithdraw =>
        if key !in s.exits || m.time < s.exits[key].expiration then None
        else Transfer(s.(exits := s.exits - {key}), address, s.exits[key].pledge)
      case ToAbolish =>
        if key !in s.abolitions || m.time < s.abolitions[key].expiration then None
        else Some(s.(abolitions := s.abolitions - {key}))
  }

  /** `prepare`: the coins sent along are on the balance already and count as stake. */
  function Prepared(s: State, amount: nat): State
  {
    s.(balance := s.balance + amount, allStake := s.allStake + amount)
  }

  /** `main`. */
  function Dispatch(cfg: Config, before: State, m: Msg, call: Call): Option<State>
    requires before.balance >= before.allStake
  {
    var s := Prepared(before, m.amount);
    if !TakesCoins(call) && m.amount != 0 then None
    else
      match call
      case Apply(role, pool, ratio, node) => DoApply(cfg, s, m, role, pool, ratio, node)
      case Append(role) => DoAppend(cfg, s, m, role)
      case Approve(motion, role, address) => DoApprove(cfg, s, m, motion, role, address)
      case CastVote(role, address) => DoVote(cfg, s, m, role, address)
      case UnVote(role, address) => DoUnVote(cfg, s, m, role, address)
      case Abolish(role, address) => DoAbolish(cfg, s, m, role, address)
      case Withdraw(role) => DoWithdraw(cfg, s, m, role)
      case Extract(list) => DoExtract(cfg, s, m, list)
      case SetNodeAddress(node) => DoSetNodeAddress(cfg, s, m, node)
      case SetVoteDividend(role, pool, ratio) => DoSetVoteDividend(s, m, role, pool, ratio)
      case Clean(motion, role, address) => DoClean(s, m, motion, role, address)
  }

  /** What happens to the contract: a call, or coins that arrive without one (block rewards). */
  datatype Event = Called(m: Msg, call: Call) | Rewarded(amount: nat)

  function Step(cfg: Config, s: State, ev: Event): State
    requires s.balance >= s.allStake
  {
    match ev
    case Rewarded(amount) => s.(balance := s.balance + amount)
    case Called(m, call) =>
      match Dispatch(cfg, s, m, call)
      case None => s
      case Some(s') => s'
  }
}
