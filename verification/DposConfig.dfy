/** The committee's changes of the DPoS configuration, and the contract together with its
    configuration and the proposals to change it. */
module DposConfig {
  import opened Options
  import opened Ranking
  import opened Dpos
  import opened DposSolvency
  import opened DposElection

  datatype Number =
    | CommitteeSize | KolSize | KolCandidateSize | KolMinPledge | ValidatorSize | ValidatorCandidateSize
    | ValidatorMinPledge | PledgeMagnification | ValidPeriod | VoteUnit | GasPrice | BaseReserve

  datatype Item = Numeric(number: Number) | PassRate | RewardShares | LogicContract

  /** An item with a value of its type. */
  datatype RawChange =
    | SetNumber(number: Number, n: int)
    | SetPassRate(rate: real)
    | SetShares(validators: real, valRest: real, kols: real, kolRest: real)
    | SetLogicContract(contract: Address)

  function ItemOf(c: RawChange): Item
  {
    match c
    case SetNumber(number, _) => Numeric(number)
    case SetPassRate(_) => PassRate
    case SetShares(_, _, _, _) => RewardShares
    case SetLogicContract(_) => LogicContract
  }

  /** `cfgValid`. Of the shares only the sum is looked at. */
  predicate CfgValid(c: RawChange)
  {
    match c
    case SetNumber(_, n) => n > 0
    case SetPassRate(rate) => 0.0 < rate <= 1.0
    case SetShares(a, b, c, d) => a + b + c + d == 100.0
    case SetLogicContract(_) => true
  }

  type Change = c: RawChange | CfgValid(c) witness SetPassRate(1.0)

  function WithNumber(cfg: Config, number: Number, n: nat): Config
    requires n > 0
  {
    match number
    case CommitteeSize => cfg.(committeeSize := n)
    case KolSize => cfg.(kolSize := n)
    case KolCandidateSize => cfg.(kolCandidateSize := n)
    case KolMinPledge => cfg.(kolMinPledge := n)
    case ValidatorSize => cfg.(validatorSize := n)
    case ValidatorCandidateSize => cfg.(validatorCandidateSize := n)
    case ValidatorMinPledge => cfg.(validatorMinPledge := n)
    case PledgeMagnification => cfg.(magnification := n)
    case ValidPeriod => cfg.(validPeriod := n)
    case VoteUnit => cfg.(voteUnit := n)
    case GasPrice => cfg
    case BaseReserve => cfg
  }

  /** `updateCfg`. */
  function Changed(cfg: Config, c: Change): Config
  {
    match c
    case SetNumber(number, n) => WithNumber(cfg, number, n)
    case SetPassRate(rate) => cfg.(passRate := rate)
    case SetShares(a, b, c, d) =>
      cfg.(validatorShare := a, validatorCandidateShare := b, kolShare := c, kolCandidateShare := d)
    case SetLogicContract(_) => cfg
  }

  datatype ChangeKey = ChangeKey(item: Item, proposer: Address)

  datatype Proposal = Proposal(change: Change, expiration: int, ballot: seq<Address>)

  /** Everything the contract stores. */
  datatype World = World(cfg: Config, s: State, proposals: map<ChangeKey, Proposal>)

  /** `configure`. A number proposed again by the same member is left alone; a list of shares is
      compared by identity and so always proposed anew. */
  function DoConfigure(w: World, m: Msg, c: RawChange): Option<World>
  {
    var key := ChangeKey(ItemOf(c), m.sender);
    if !CfgValid(c) || !m.wellFormed || m.amount != 0 || m.sender !in w.s.committee then None
    else if key in w.proposals && w.proposals[key].change == c && !c.SetShares? then Some(w)
    else Some(w.(proposals := w.proposals[key := Proposal(c, m.time + w.cfg.validPeriod, [m.sender])]))
  }

  /** `approve` of a configuration proposal. */
  function DoApproveChange(w: World, m: Msg, key: ChangeKey): Option<World>
  {
    if !m.wellFormed || m.amount != 0 || m.sender !in w.s.committee || key !in w.proposals then None
    else
      var p := w.proposals[key];
      if m.time >= p.expiration then Some(w)
      else if m.sender in p.ballot then None
      else
        var p' := p.(ballot := p.ballot + [m.sender]);
        if !Carried(w.cfg, w.s, |p'.ballot|) then Some(w.(proposals := w.proposals[key := p']))
        else Some(w.(cfg := Changed(w.cfg, p.change), proposals := w.proposals - {key}))
  }

  /** `clean` of a configuration proposal. */
  function DoCleanChange(w: World, m: Msg, key: ChangeKey): Option<World>
  {
    if !m.wellFormed || m.amount != 0 || key !in w.proposals || m.time < w.proposals[key].expiration then None
    else Some(w.(proposals := w.proposals - {key}))
  }

  datatype Action =
    | Ordinary(ev: Event)
    | Configure(m: Msg, change: RawChange)
    | ApproveChange(m: Msg, key: ChangeKey)
    | CleanChange(m: Msg, key: ChangeKey)

  /** What an action makes of the stored data; one that throws is rolled back. */
  function Proceed(w: World, a: Action): World
    requires w.s.balance >= w.s.allStake
  {
    match a
    case Ordinary(ev) => w.(s := Step(w.cfg, w.s, ev))
    case Configure(m, c) => After(w, DoConfigure(w, m, c))
    case ApproveChange(m, key) => After(w, DoApproveChange(w, m, key))
    case CleanChange(m, key) => After(w, DoCleanChange(w, m, key))
  }

  ghost predicate WorldOk(w: World)
  {
    Solvent(w.s) && ElectionOk(w.s)
  }

  /** Every action, reconfiguring included, keeps the contract solvent and the lists in order, and
      the published nodes current under the configuration it ran with. */
  lemma ProceedOk(w: World, a: Action)
    requires WorldOk(w) && w.s.balance >= w.s.allStake
    ensures WorldOk(Proceed(w, a)) && StaysCurrent(w.cfg, w.s, Proceed(w, a).s)
  {
    hide Solvent, ElectionOk, Current, Step;
    if a.Ordinary? {
      StepSolvent(w.cfg, w.s, a.ev);
      StepOk(w.cfg, w.s, a.ev);
    }
  }

  /** The two calls by which a member of the committee proposes a change and another carries it. */
  function Carry(x: Msg, y: Msg, c: RawChange): seq<Action>
  {
    [Configure(x, c), ApproveChange(y, ChangeKey(ItemOf(c), x.sender))]
  }

  /** Both are members, and two ballots carry a proposal. */
  predicate CanCarry(w: World, x: Msg, y: Msg)
  {
    && w.cfg.validPeriod > 0 && Carried(w.cfg, w.s, 2)
    && x.sender in w.s.committee && y.sender in w.s.committee && x.sender != y.sender
    && x.wellFormed && y.wellFormed && x.amount == 0 && y.amount == 0 && y.time == x.time
  }

  /** Any change that `cfgValid` lets through, a negative share included, becomes the configuration. */
  lemma ChangeCarried(w: World, x: Msg, y: Msg, c: Change)
    requires w.s.balance >= w.s.allStake && CanCarry(w, x, y) && ChangeKey(ItemOf(c), x.sender) !in w.proposals
    ensures var w1 := Proceed(w, Carry(x, y, c)[0]);
            w1.s == w.s && Proceed(w1, Carry(x, y, c)[1]) == w.(cfg := Changed(w.cfg, c))
  {
    hide Carried, Changed;
    var key := ChangeKey(ItemOf(c), x.sender);
    var p := Proposal(c, x.time + w.cfg.validPeriod, [x.sender]);
    var w1 := w.(proposals := w.proposals[key := p]);
    assert Proceed(w, Configure(x, c)) == w1;
    assert |p.ballot + [y.sender]| == 2;
    assert w1.proposals - {key} == w.proposals;
  }

  /** A new number of validators is not published. Nodes that were those of the first places are
      so after the change exactly if both numbers cut the list at the same place. */
  lemma SizeChangeShows(s: State, k: nat, n: nat)
    requires multiset(s.published) == TopData(s.valCands, k)
    ensures multiset(s.published) == TopData(s.valCands, n) <==> |Top(s.valCands, n)| == |Top(s.valCands, k)|
  {
    assert |TopData(s.valCands, n)| == |Top(s.valCands, n)|;
    assert |TopData(s.valCands, k)| == |Top(s.valCands, k)|;
    if |Top(s.valCands, n)| == |Top(s.valCands, k)| {
      assert Top(s.valCands, n) == Top(s.valCands, k);
    }
  }

  /** Of four whole shares that add up to 100 every part of every reward lies between nothing and
      the reward exactly if no share is negative. */
  lemma PartsWithinReward(a: int, b: int, c: int, d: int)
    requires a + b + c + d == 100
    ensures (forall reward: nat, share: int :: share in {a, b, c, d} ==> 0 <= Percent(reward, share) <= reward)
            <==> a >= 0 && b >= 0 && c >= 0 && d >= 0
  {
    if a >= 0 && b >= 0 && c >= 0 && d >= 0 {
      forall reward: nat, share: int | share in {a, b, c, d}
        ensures 0 <= Percent(reward, share) <= reward
      {
        PartWithin(reward, share);
      }
    } else {
      assert Percent(100, a) == a && Percent(100, b) == b && Percent(100, c) == c && Percent(100, d) == d;
    }
  }

  lemma PartWithin(reward: nat, share: int)
    requires 0 <= share <= 100
    ensures 0 <= Percent(reward, share) <= reward
  {
    DividendWithin(reward, share);
  }
}
