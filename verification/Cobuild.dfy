/** The co-build contract: partners hold shares of one DPoS pledge and split its rewards. */
module Cobuild {
  import opened Options
  import opened MapSum

  type Address = string

  datatype Cobuilder = Cobuilder(share: int, pledged: bool, award: int)

  datatype Config = Config(initiator: Address, unit: nat, raiseShares: nat)

  /** A recorded offer of shares. */
  datatype Offer = Offer(from: Address, to: Address)

  /** The DPoS contract the pledge goes to. */
  const DPOS: Address := "buQqzdS9YSnokDjvzg4YaNatcFQfkgXqk6ss"

  datatype Payment = Payment(to: Address, amount: int)

  datatype State = State(
    balance: int,
    disabled: bool,
    applied: bool,
    allShares: int,
    pledgedShares: int,
    cobuilders: map<Address, Cobuilder>,
    offers: map<Offer, int>,
    paid: seq<Payment>)

  function ShareOf(c: Cobuilder): int { c.share }

  function PledgedShare(c: Cobuilder): int { if c.pledged then c.share else 0 }

  function AwardOf(c: Cobuilder): int { c.award }

  // ---- Operations ----

  /** One pledged partner's part of a reward. */
  function Earned(c: Cobuilder, unitReward: int): Cobuilder
  {
    if c.pledged then c.(award := c.award + unitReward * c.share) else c
  }

  function EarnedAll(cs: map<Address, Cobuilder>, unitReward: int): map<Address, Cobuilder>
  {
    map a | a in cs :: Earned(cs[a], unitReward)
  }

  /** `distribute`: per pledged share, and the remainder to the initiator. */
  function Distribute(cfg: Config, s: State, reward: nat): Option<State>
  {
    if s.pledgedShares <= 0 || cfg.initiator !in s.cobuilders then None
    else
      var cs := EarnedAll(s.cobuilders, reward / s.pledgedShares);
      var c := cs[cfg.initiator];
      Some(s.(balance := s.balance + reward,
              cobuilders := cs[cfg.initiator := c.(award := c.award + reward % s.pledgedShares)]))
  }

  /** Coins arriving with the `reward` call-back; a disbanded contract only keeps them. */
  function Reward(cfg: Config, s: State, reward: nat): Option<State>
  {
    if s.disabled then Some(s.(balance := s.balance + reward)) else Distribute(cfg, s, reward)
  }

  /** The call-backs of one `extract` call on the DPoS contract. */
  function Rewards(cfg: Config, s: State, rewards: seq<nat>): Option<State>
  {
    if rewards == [] then Some(s)
    else
      match Rewards(cfg, s, rewards[..|rewards| - 1])
      case None => None
      case Some(s1) => Reward(cfg, s1, rewards[|rewards| - 1])
  }

  function Paying(paid: seq<Payment>, to: Address, amount: int): seq<Payment>
  {
    if amount == 0 then paid else paid + [Payment(to, amount)]
  }

  function Pay(s: State, to: Address, amount: int): Option<State>
  {
    if 0 <= amount <= s.balance then Some(s.(balance := s.balance - amount, paid := Paying(s.paid, to, amount))) else None
  }

  function Subscribe(cfg: Config, s: State, sender: Address, shares: int, coins: nat): Option<State>
  {
    var c := if sender in s.cobuilders then s.cobuilders[sender] else Cobuilder(0, false, 0);
    if shares <= 0 || cfg.unit * shares != coins || c.pledged then None
    else
      Some(s.(balance := s.balance + coins, allShares := s.allShares + shares,
              cobuilders := s.cobuilders[sender := c.(share := c.share + shares)]))
  }

  function Revoke(cfg: Config, s: State, sender: Address): Option<State>
  {
    if (sender == cfg.initiator && !s.disabled) || sender !in s.cobuilders || s.cobuilders[sender].pledged then None
    else
      var c := s.cobuilders[sender];
      Pay(s.(cobuilders := s.cobuilders - {sender}, allShares := s.allShares - c.share), sender, cfg.unit * c.share + c.award)
  }

  function WithPledged(cs: map<Address, Cobuilder>, pledged: bool): map<Address, Cobuilder>
  {
    map a | a in cs :: cs[a].(pledged := pledged)
  }

  /** `setStatus`, and the payment into the DPoS contract. */
  function PledgeAll(cfg: Config, s: State): Option<State>
  {
    Pay(s.(applied := true, pledgedShares := s.allShares, cobuilders := WithPledged(s.cobuilders, true)),
        DPOS, cfg.unit * (s.allShares - s.pledgedShares))
  }

  function CoApply(cfg: Config, s: State, sender: Address): Option<State>
  {
    if s.applied || sender != cfg.initiator || s.allShares < cfg.raiseShares then None
    else PledgeAll(cfg, s.(pledgedShares := 0))
  }

  function CoAppend(cfg: Config, s: State, sender: Address): Option<State>
  {
    if !s.applied || sender != cfg.initiator then None else PledgeAll(cfg, s)
  }

  /** `transfer`: offer pledged shares, or take an offer back. */
  function Transfer(s: State, sender: Address, to: Address, shares: nat): Option<State>
  {
    var key := Offer(sender, to);
    if sender !in s.cobuilders || !s.cobuilders[sender].pledged || shares > s.cobuilders[sender].share then None
    else Some(s.(offers := if shares == 0 then s.offers - {key} else s.offers[key := shares]))
  }

  /** Hand over: the partner that gives, then the partner that takes. */
  function TakeShares(cs: map<Address, Cobuilder>, to: Address, shares: int): map<Address, Cobuilder>
  {
    if to in cs then cs[to := cs[to].(share := cs[to].share + shares)]
    else cs[to := Cobuilder(shares, true, 0)]
  }

  /** `accept`. A whole stake is paid out with its award, after the pending rewards are fetched. */
  function Accept(cfg: Config, s: State, sender: Address, from: Address, coins: nat, rewards: seq<nat>): Option<State>
  {
    var key := Offer(from, sender);
    if from !in s.cobuilders || !s.cobuilders[from].pledged || key !in s.offers then None
    else
      var shares := s.offers[key];
      if shares > s.cobuilders[from].share || cfg.unit * shares != coins then None
      else
        var s0 := s.(balance := s.balance + coins);
        if shares == s.cobuilders[from].share then
          match Rewards(cfg, s0, rewards)
          case None => None
          case Some(s1) =>
            if from !in s1.cobuilders then None
            else
              Pay(s1.(cobuilders := TakeShares(s1.cobuilders - {from}, sender, shares), offers := s1.offers - {key}),
                  from, coins + s1.cobuilders[from].award)
        else if sender in s.cobuilders && !s.cobuilders[sender].pledged then None
        else
          var c := s.cobuilders[from];
          Pay(s0.(cobuilders := TakeShares(s.cobuilders[from := c.(share := c.share - shares)], sender, shares),
                  offers := s.offers - {key}),
              from, coins)
  }

  /** `refund` of the DPoS contract: `received`. */
  function Refund(s: State, coins: nat): State
  {
    if s.disabled then s.(balance := s.balance + coins)
    else
      s.(balance := s.balance + coins, disabled := true, applied := false, pledgedShares := 0,
         cobuilders := WithPledged(s.cobuilders, false))
  }

  function Disband(cfg: Config, s: State, sender: Address): Option<State>
  {
    if s.applied || sender != cfg.initiator then None else Some(s.(disabled := true))
  }

  function PayAward(s: State, a: Address): Option<State>
  {
    if a !in s.cobuilders then None
    else
      var c := s.cobuilders[a];
      Pay(s.(cobuilders := s.cobuilders[a := c.(award := 0)]), a, c.award)
  }

  function PayAwards(s: State, list: seq<Address>): Option<State>
  {
    if list == [] then Some(s)
    else
      match PayAwards(s, list[..|list| - 1])
      case None => None
      case Some(s1) => PayAward(s1, list[|list| - 1])
  }

  function CoExtract(cfg: Config, s: State, list: seq<Address>, rewards: seq<nat>): Option<State>
  {
    match Rewards(cfg, s, rewards)
    case None => None
    case Some(s1) => if |list| > 100 then None else PayAwards(s1, list)
  }

  // ---- What is kept ----

  predicate NonNegative(cs: map<Address, Cobuilder>)
  {
    forall a :: a in cs ==> cs[a].share >= 0 && cs[a].award >= 0
  }

  /** The share counters are the sums over the partners. */
  ghost predicate Counted(s: State)
  {
    && s.allShares == Sum(s.cobuilders, ShareOf) && s.pledgedShares == Sum(s.cobuilders, PledgedShare)
    && NonNegative(s.cobuilders) && (!s.applied ==> s.pledgedShares == 0)
    && forall o :: o in s.offers ==> s.offers[o] > 0
  }

  /** What partners can take out at once: unpledged shares at their price, and awards. */
  ghost function Claims(cfg: Config, s: State): int
  {
    cfg.unit * (s.allShares - s.pledgedShares) + Sum(s.cobuilders, AwardOf)
  }

  /** Claims are covered, with `extra` coins to spare. */
  ghost predicate Holds(cfg: Config, s: State, extra: int)
  {
    Counted(s) && s.balance >= Claims(cfg, s) + extra
  }

  ghost predicate Covered(cfg: Config, s: State)
  {
    Holds(cfg, s, 0)
  }

  // ---- Sums over all partners ----

  lemma EarnedRemove(cs: map<Address, Cobuilder>, u: int, a: Address)
    requires a in cs
    ensures EarnedAll(cs, u) - {a} == EarnedAll(cs - {a}, u)
  {
  }

  lemma TimesSum(u: int, x: int, y: int)
    ensures u * (x + y) == u * x + u * y && u * 0 == 0
  {
  }

  /** Crediting every pledged partner adds the unit reward once per pledged share. */
  lemma {:induction false} EarnedSum(cs: map<Address, Cobuilder>, u: int)
    ensures Sum(EarnedAll(cs, u), AwardOf) == Sum(cs, AwardOf) + u * Sum(cs, PledgedShare)
    decreases |cs|
  {
    if cs == map[] {
      assert EarnedAll(cs, u) == map[];
    } else {
      var a :| a in cs;
      EarnedSum(cs - {a}, u);
      EarnedRemove(cs, u, a);
      SumRemove(cs, AwardOf, a);
      SumRemove(cs, PledgedShare, a);
      SumRemove(EarnedAll(cs, u), AwardOf, a);
      TimesSum(u, PledgedShare(cs[a]), Sum(cs - {a}, PledgedShare));
    }
  }

  lemma {:induction false} EarnedShares(cs: map<Address, Cobuilder>, u: int)
    ensures Sum(EarnedAll(cs, u), ShareOf) == Sum(cs, ShareOf)
    ensures Sum(EarnedAll(cs, u), PledgedShare) == Sum(cs, PledgedShare)
    decreases |cs|
  {
    if cs == map[] {
      assert EarnedAll(cs, u) == map[];
    } else {
      var a :| a in cs;
      EarnedShares(cs - {a}, u);
      EarnedRemove(cs, u, a);
      SumRemove(cs, ShareOf, a);
      SumRemove(cs, PledgedShare, a);
      SumRemove(EarnedAll(cs, u), ShareOf, a);
      SumRemove(EarnedAll(cs, u), PledgedShare, a);
    }
  }

  lemma {:induction false} PledgedSum(cs: map<Address, Cobuilder>, pledged: bool)
    ensures var r := WithPledged(cs, pledged);
            && Sum(r, ShareOf) == Sum(cs, ShareOf) && Sum(r, AwardOf) == Sum(cs, AwardOf)
            && Sum(r, PledgedShare) == (if pledged then Sum(cs, ShareOf) else 0)
    decreases |cs|
  {
    var r := WithPledged(cs, pledged);
    if cs == map[] {
      assert r == map[];
    } else {
      var a :| a in cs;
      PledgedSum(cs - {a}, pledged);
      assert r - {a} == WithPledged(cs - {a}, pledged);
      SumRemove(cs, ShareOf, a);
      SumRemove(cs, AwardOf, a);
      SumRemove(r, ShareOf, a);
      SumRemove(r, AwardOf, a);
      SumRemove(r, PledgedShare, a);
    }
  }

  lemma PutSums(cs: map<Address, Cobuilder>, a: Address, c: Cobuilder)
    ensures var r := cs[a := c];
            && Sum(r, ShareOf) == Sum(cs, ShareOf) + c.share - (if a in cs then cs[a].share else 0)
            && Sum(r, AwardOf) == Sum(cs, AwardOf) + c.award - (if a in cs then cs[a].award else 0)
            && Sum(r, PledgedShare) == Sum(cs, PledgedShare) + PledgedShare(c) - (if a in cs then PledgedShare(cs[a]) else 0)
  {
    SumPut(cs, ShareOf, a, c);
    SumPut(cs, AwardOf, a, c);
    SumPut(cs, PledgedShare, a, c);
  }

  lemma DropSums(cs: map<Address, Cobuilder>, a: Address)
    requires a in cs
    ensures var r := cs - {a};
            && Sum(r, ShareOf) == Sum(cs, ShareOf) - cs[a].share
            && Sum(r, AwardOf) == Sum(cs, AwardOf) - cs[a].award
            && Sum(r, PledgedShare) == Sum(cs, PledgedShare) - PledgedShare(cs[a])
  {
    SumDrop(cs, ShareOf, a);
    SumDrop(cs, AwardOf, a);
    SumDrop(cs, PledgedShare, a);
  }

  // ---- Rewards are credited exactly ----

  lemma UnitTimes(reward: nat, shares: int)
    requires shares > 0
    ensures reward / shares * shares + reward % shares == reward && reward / shares >= 0 && 0 <= reward % shares
  {
  }

  lemma EarnedNonNegative(cs: map<Address, Cobuilder>, u: int)
    requires NonNegative(cs) && u >= 0
    ensures NonNegative(EarnedAll(cs, u))
  {
    forall a | a in cs
      ensures Earned(cs[a], u).award >= 0
    {
      assert u * cs[a].share >= 0;
    }
  }

  /** A reward can be taken in: somebody holds pledged shares, and the initiator, who gets the
      remainder, is still a partner. */
  predicate CanTakeIn(cfg: Config, s: State)
  {
    s.pledgedShares > 0 && cfg.initiator in s.cobuilders
  }

  /** `distribute` credits exactly the reward received, unless the initiator has handed over its
      whole stake or nothing is pledged; then it throws. */
  lemma DistributeExact(cfg: Config, s: State, reward: nat)
    requires Counted(s)
    ensures Distribute(cfg, s, reward).Some? <==> CanTakeIn(cfg, s)
    ensures CanTakeIn(cfg, s) ==>
              var s' := Distribute(cfg, s, reward).value;
              && Counted(s') && Sum(s'.cobuilders, AwardOf) == Sum(s.cobuilders, AwardOf) + reward
              && s'.balance == s.balance + reward && s'.allShares == s.allShares && s'.pledgedShares == s.pledgedShares
              && s'.applied == s.applied
  {
    if CanTakeIn(cfg, s) { CreditedExact(cfg, s, reward); }
  }

  lemma CreditedExact(cfg: Config, s: State, reward: nat)
    requires Counted(s) && CanTakeIn(cfg, s)
    ensures var s' := Distribute(cfg, s, reward).value;
            && Counted(s') && Sum(s'.cobuilders, AwardOf) == Sum(s.cobuilders, AwardOf) + reward
            && s'.balance == s.balance + reward && s'.allShares == s.allShares && s'.pledgedShares == s.pledgedShares
            && s'.applied == s.applied
  {
    var u, left := reward / s.pledgedShares, reward % s.pledgedShares;
    var cs := EarnedAll(s.cobuilders, u);
    var c := cs[cfg.initiator];
    UnitTimes(reward, s.pledgedShares);
    EarnedSum(s.cobuilders, u);
    EarnedShares(s.cobuilders, u);
    EarnedNonNegative(s.cobuilders, u);
    PutSums(cs, cfg.initiator, c.(award := c.award + left));
  }

  lemma RewardHolds(cfg: Config, s: State, reward: nat, extra: int)
    requires Holds(cfg, s, extra) && Reward(cfg, s, reward).Some?
    ensures Holds(cfg, Reward(cfg, s, reward).value, extra)
  {
    hide Distribute;
    if !s.disabled { DistributeExact(cfg, s, reward); }
  }

  lemma {:induction false} RewardsHold(cfg: Config, s: State, rewards: seq<nat>, extra: int)
    requires Holds(cfg, s, extra) && Rewards(cfg, s, rewards).Some?
    ensures Holds(cfg, Rewards(cfg, s, rewards).value, extra)
  {
    hide Holds, Reward;
    if rewards != [] {
      RewardsHold(cfg, s, rewards[..|rewards| - 1], extra);
      RewardHolds(cfg, Rewards(cfg, s, rewards[..|rewards| - 1]).value, rewards[|rewards| - 1], extra);
    }
  }

  /** Rewards move no shares: only awards and the balance change. */
  predicate SameShares(s: State, s': State)
  {
    && s'.cobuilders.Keys == s.cobuilders.Keys && s'.offers == s.offers && s'.allShares == s.allShares
    && s'.pledgedShares == s.pledgedShares && s'.disabled == s.disabled && s'.paid == s.paid
    && forall a :: a in s.cobuilders ==>
         s'.cobuilders[a].share == s.cobuilders[a].share && s'.cobuilders[a].pledged == s.cobuilders[a].pledged
  }

  lemma {:induction false} RewardsKeepShares(cfg: Config, s: State, rewards: seq<nat>)
    requires Rewards(cfg, s, rewards).Some?
    ensures SameShares(s, Rewards(cfg, s, rewards).value)
  {
    if rewards != [] {
      RewardsKeepShares(cfg, s, rewards[..|rewards| - 1]);
      RewardKeepsShares(cfg, Rewards(cfg, s, rewards[..|rewards| - 1]).value, rewards[|rewards| - 1]);
      hide Reward;
    }
  }

  lemma RewardKeepsShares(cfg: Config, s: State, reward: nat)
    requires Reward(cfg, s, reward).Some?
    ensures SameShares(s, Reward(cfg, s, reward).value)
  {
  }

  /** What one holder of pledged shares gets out of a list of rewards: a part per share of each,
      and of each the remainder if it is the initiator. */
  function Gain(pledgedShares: int, share: int, initiator: bool, rewards: seq<nat>): int
    requires pledgedShares > 0
  {
    if rewards == [] then 0
    else
      var reward := rewards[|rewards| - 1];
      Gain(pledgedShares, share, initiator, rewards[..|rewards| - 1])
      + reward / pledgedShares * share + (if initiator then reward % pledgedShares else 0)
  }

  lemma RewardGain(cfg: Config, s: State, reward: nat, a: Address)
    requires Reward(cfg, s, reward).Some? && !s.disabled && a in s.cobuilders && s.cobuilders[a].pledged
    ensures var c := s.cobuilders[a];
            var s' := Reward(cfg, s, reward).value;
            && s.pledgedShares > 0 && a in s'.cobuilders
            && s'.cobuilders[a].award == c.award + reward / s.pledgedShares * c.share
                                         + (if a == cfg.initiator then reward % s.pledgedShares else 0)
  {
  }

  lemma {:induction false} RewardsGain(cfg: Config, s: State, rewards: seq<nat>, a: Address)
    requires Rewards(cfg, s, rewards).Some? && !s.disabled && s.pledgedShares > 0
    requires a in s.cobuilders && s.cobuilders[a].pledged
    ensures var c := s.cobuilders[a];
            var s' := Rewards(cfg, s, rewards).value;
            a in s'.cobuilders && s'.cobuilders[a].award == c.award + Gain(s.pledgedShares, c.share, a == cfg.initiator, rewards)
  {
    hide Reward;
    if rewards != [] {
      var before := rewards[..|rewards| - 1];
      RewardsGain(cfg, s, before, a);
      RewardsKeepShares(cfg, s, before);
      RewardGain(cfg, Rewards(cfg, s, before).value, rewards[|rewards| - 1], a);
    }
  }

  lemma {:induction false} RewardsTakenIn(cfg: Config, s: State, rewards: seq<nat>)
    requires !s.disabled
    ensures Rewards(cfg, s, rewards).Some? <==> rewards == [] || CanTakeIn(cfg, s)
  {
    if rewards != [] {
      var before := rewards[..|rewards| - 1];
      RewardsTakenIn(cfg, s, before);
      if Rewards(cfg, s, before).Some? { RewardsKeepShares(cfg, s, before); }
    }
  }

  // ---- The other calls ----

  lemma SubscribeCovered(cfg: Config, s: State, sender: Address, shares: int, coins: nat)
    requires Covered(cfg, s) && Subscribe(cfg, s, sender, shares, coins).Some?
    ensures Covered(cfg, Subscribe(cfg, s, sender, shares, coins).value)
  {
    var c := if sender in s.cobuilders then s.cobuilders[sender] else Cobuilder(0, false, 0);
    PutSums(s.cobuilders, sender, c.(share := c.share + shares));
    TimesSum(cfg.unit, s.allShares - s.pledgedShares, shares);
  }

  /** A partner with unpledged shares is always paid out in full. */
  lemma RevokeCovered(cfg: Config, s: State, sender: Address)
    requires Covered(cfg, s) && sender in s.cobuilders && !s.cobuilders[sender].pledged
    requires sender != cfg.initiator || s.disabled
    ensures var c := s.cobuilders[sender];
            var r := Revoke(cfg, s, sender);
            r.Some? && Covered(cfg, r.value) && r.value.paid == Paying(s.paid, sender, cfg.unit * c.share + c.award)
  {
    var c := s.cobuilders[sender];
    var rest := s.cobuilders - {sender};
    DropSums(s.cobuilders, sender);
    SumNonNegative(rest, AwardOf);
    OthersUnpledged(rest);
    var open := s.allShares - s.pledgedShares;
    TimesSum(cfg.unit, open - c.share, c.share);
    UnitCovers(cfg.unit, open - c.share);
    UnitCovers(cfg.unit, c.share);
    hide Sum;
  }

  lemma UnitCovers(unit: nat, x: int)
    requires x >= 0
    ensures unit * x >= 0
  {
  }

  lemma {:induction false} OthersUnpledged(cs: map<Address, Cobuilder>)
    requires NonNegative(cs)
    ensures 0 <= Sum(cs, PledgedShare) <= Sum(cs, ShareOf)
    decreases |cs|
  {
    if cs != map[] {
      var a :| a in cs;
      OthersUnpledged(cs - {a});
      SumRemove(cs, ShareOf, a);
      SumRemove(cs, PledgedShare, a);
    }
  }

  /** Paying all unpledged shares into the pledge is always possible. */
  lemma PledgeAllCovered(cfg: Config, s: State)
    requires Covered(cfg, s)
    ensures PledgeAll(cfg, s).Some? && Covered(cfg, PledgeAll(cfg, s).value)
  {
    PledgedSum(s.cobuilders, true);
    OthersUnpledged(s.cobuilders);
    SumNonNegative(s.cobuilders, AwardOf);
    UnitCovers(cfg.unit, s.allShares - s.pledgedShares);
    hide Sum;
  }

  lemma TransferCovered(cfg: Config, s: State, sender: Address, to: Address, shares: nat)
    requires Covered(cfg, s) && Transfer(s, sender, to, shares).Some?
    ensures Covered(cfg, Transfer(s, sender, to, shares).value)
  {
  }

  /** A refund of the whole pledge covers what it makes claimable again. */
  lemma RefundCovered(cfg: Config, s: State, coins: nat)
    requires Covered(cfg, s) && coins == cfg.unit * s.pledgedShares
    ensures Covered(cfg, Refund(s, coins))
  {
    PledgedSum(s.cobuilders, false);
    TimesSum(cfg.unit, s.allShares - s.pledgedShares, s.pledgedShares);
  }

  lemma PayAwardCovered(cfg: Config, s: State, a: Address)
    requires Covered(cfg, s) && a in s.cobuilders
    ensures PayAward(s, a).Some? && Covered(cfg, PayAward(s, a).value)
    ensures PayAward(s, a).value.paid == Paying(s.paid, a, s.cobuilders[a].award)
    ensures PayAward(s, a).value.cobuilders.Keys == s.cobuilders.Keys
  {
    var c := s.cobuilders[a];
    PutSums(s.cobuilders, a, c.(award := 0));
    SumCovers(s.cobuilders, AwardOf, a);
    OthersUnpledged(s.cobuilders);
    UnitCovers(cfg.unit, s.allShares - s.pledgedShares);
  }

  /** Awards of any list of partners can be paid. */
  lemma {:induction false} PayAwardsCovered(cfg: Config, s: State, list: seq<Address>)
    requires Covered(cfg, s) && forall k :: 0 <= k < |list| ==> list[k] in s.cobuilders
    ensures PayAwards(s, list).Some? && Covered(cfg, PayAwards(s, list).value)
    ensures PayAwards(s, list).value.cobuilders.Keys == s.cobuilders.Keys
  {
    hide Covered, PayAward;
    if list != [] {
      PayAwardsCovered(cfg, s, list[..|list| - 1]);
      PayAwardCovered(cfg, PayAwards(s, list[..|list| - 1]).value, list[|list| - 1]);
    }
  }

  // ---- Handing over shares ----

  /** The one case the guard of `accept` leaves open: a partner with unpledged shares accepts a whole stake. */
  predicate MixesShares(s: State, sender: Address, from: Address)
    requires from in s.cobuilders && Offer(from, sender) in s.offers
  {
    s.offers[Offer(from, sender)] == s.cobuilders[from].share && sender in s.cobuilders && !s.cobuilders[sender].pledged
  }

  lemma TakeSums(cs: map<Address, Cobuilder>, to: Address, shares: int)
    requires NonNegative(cs) && shares >= 0
    ensures var r := TakeShares(cs, to, shares);
            && NonNegative(r)
            && Sum(r, ShareOf) == Sum(cs, ShareOf) + shares && Sum(r, AwardOf) == Sum(cs, AwardOf)
            && Sum(r, PledgedShare) == Sum(cs, PledgedShare) + (if to in cs && !cs[to].pledged then 0 else shares)
  {
    if to in cs {
      PutSums(cs, to, cs[to].(share := cs[to].share + shares));
    } else {
      PutSums(cs, to, Cobuilder(shares, true, 0));
    }
    hide Sum;
  }

  /** Part of a stake changes hands between pledged partners. */
  lemma PartAccepted(cfg: Config, s: State, sender: Address, from: Address, coins: nat, rewards: seq<nat>)
    requires Covered(cfg, s) && Accept(cfg, s, sender, from, coins, rewards).Some?
    requires s.offers[Offer(from, sender)] != s.cobuilders[from].share
    ensures Covered(cfg, Accept(cfg, s, sender, from, coins, rewards).value)
  {
    hide Sum, TakeShares;
    var shares := s.offers[Offer(from, sender)];
    var c := s.cobuilders[from];
    PutSums(s.cobuilders, from, c.(share := c.share - shares));
    TakeSums(s.cobuilders[from := c.(share := c.share - shares)], sender, shares);
  }

  /** A whole stake is handed over. The counters still agree with the partners' shares exactly
      when the taker does not hold unpledged shares. */
  lemma WholeAccepted(cfg: Config, s: State, sender: Address, from: Address, coins: nat, rewards: seq<nat>)
    requires Covered(cfg, s) && Accept(cfg, s, sender, from, coins, rewards).Some?
    requires s.offers[Offer(from, sender)] == s.cobuilders[from].share
    ensures var s' := Accept(cfg, s, sender, from, coins, rewards).value;
            Covered(cfg, s') <==> !MixesShares(s, sender, from)
    ensures var s' := Accept(cfg, s, sender, from, coins, rewards).value;
            Counted(s') <==> !MixesShares(s, sender, from)
  {
    hide Sum, TakeShares, Rewards;
    var key := Offer(from, sender);
    var shares := s.offers[key];
    var s0 := s.(balance := s.balance + coins);
    assert Holds(cfg, s0, coins);
    var s1 := Rewards(cfg, s0, rewards).value;
    RewardsHold(cfg, s0, rewards, coins);
    RewardsKeepShares(cfg, s0, rewards);
    DropSums(s1.cobuilders, from);
    TakeSums(s1.cobuilders - {from}, sender, shares);
  }

  lemma SomePledged(s: State, a: Address)
    requires Counted(s) && a in s.cobuilders && s.cobuilders[a].pledged
    ensures s.pledgedShares >= s.cobuilders[a].share
  {
    SumCovers(s.cobuilders, PledgedShare, a);
  }

  /** The giver is paid the price of the shares. With a whole stake goes its award and what the
      pending rewards add to it, which is known before the call. */
  lemma AcceptPays(cfg: Config, s: State, sender: Address, from: Address, coins: nat, rewards: seq<nat>)
    requires Covered(cfg, s) && !s.disabled && Accept(cfg, s, sender, from, coins, rewards).Some?
    ensures from in s.cobuilders && Offer(from, sender) in s.offers && s.pledgedShares > 0
    ensures var c := s.cobuilders[from];
            var shares := s.offers[Offer(from, sender)];
            var gain := if shares == c.share then c.award + Gain(s.pledgedShares, c.share, from == cfg.initiator, rewards) else 0;
            Accept(cfg, s, sender, from, coins, rewards).value.paid == Paying(s.paid, from, cfg.unit * shares + gain)
  {
    SomePledged(s, from);
    hide Rewards, TakeShares, Paying, Gain, Covered;
    if s.offers[Offer(from, sender)] == s.cobuilders[from].share {
      var s0 := s.(balance := s.balance + coins);
      RewardsGain(cfg, s0, rewards, from);
      RewardsKeepShares(cfg, s0, rewards);
    }
  }

  /** The offer stands: the giver still holds that many pledged shares, and the price was sent. */
  predicate OfferStands(cfg: Config, s: State, sender: Address, from: Address, coins: nat)
  {
    && from in s.cobuilders && s.cobuilders[from].pledged && Offer(from, sender) in s.offers
    && s.offers[Offer(from, sender)] <= s.cobuilders[from].share && cfg.unit * s.offers[Offer(from, sender)] == coins
  }

  /** An offer that stands is refused in two cases only: of a whole stake if a reward is pending
      that cannot be taken in, of a part if the taker holds unpledged shares. The payment itself
      never fails. */
  lemma AcceptSucceeds(cfg: Config, s: State, sender: Address, from: Address, coins: nat, rewards: seq<nat>)
    requires Covered(cfg, s) && !s.disabled
    ensures Accept(cfg, s, sender, from, coins, rewards).Some? <==>
              && OfferStands(cfg, s, sender, from, coins)
              && if s.offers[Offer(from, sender)] == s.cobuilders[from].share then rewards == [] || CanTakeIn(cfg, s)
                 else sender in s.cobuilders ==> s.cobuilders[sender].pledged
  {
    hide Rewards, TakeShares, Holds;
    var s0 := s.(balance := s.balance + coins);
    RewardsTakenIn(cfg, s0, rewards);
    MoreHolds(cfg, s, coins);
    PriceCovered(cfg, s0, coins);
    if OfferStands(cfg, s, sender, from, coins) && Rewards(cfg, s0, rewards).Some? {
      RewardsHold(cfg, s0, rewards, coins);
      RewardsKeepShares(cfg, s0, rewards);
      AwardCovered(cfg, Rewards(cfg, s0, rewards).value, coins, from);
    }
  }

  lemma MoreHolds(cfg: Config, s: State, coins: nat)
    requires Covered(cfg, s)
    ensures Holds(cfg, s.(balance := s.balance + coins), coins)
  {
  }

  lemma PriceCovered(cfg: Config, s: State, coins: nat)
    requires Holds(cfg, s, coins)
    ensures coins <= s.balance
  {
    OthersUnpledged(s.cobuilders);
    SumNonNegative(s.cobuilders, AwardOf);
    UnitCovers(cfg.unit, s.allShares - s.pledgedShares);
    hide Sum;
  }

  lemma AwardCovered(cfg: Config, s: State, coins: nat, a: Address)
    requires Holds(cfg, s, coins) && a in s.cobuilders
    ensures 0 <= coins + s.cobuilders[a].award <= s.balance
  {
    OthersUnpledged(s.cobuilders);
    SumCovers(s.cobuilders, AwardOf, a);
    UnitCovers(cfg.unit, s.allShares - s.pledgedShares);
    hide Sum;
  }

  lemma AcceptCovered(cfg: Config, s: State, sender: Address, from: Address, coins: nat, rewards: seq<nat>)
    requires Covered(cfg, s) && Accept(cfg, s, sender, from, coins, rewards).Some? && !MixesShares(s, sender, from)
    ensures Covered(cfg, Accept(cfg, s, sender, from, coins, rewards).value)
  {
    assert from in s.cobuilders && Offer(from, sender) in s.offers;
    hide Covered, Accept;
    if s.offers[Offer(from, sender)] == s.cobuilders[from].share {
      WholeAccepted(cfg, s, sender, from, coins, rewards);
    } else {
      PartAccepted(cfg, s, sender, from, coins, rewards);
    }
  }

  // ---- Runs ----

  datatype Call =
    | DoSubscribe(shares: int, coins: nat)
    | DoRevoke
    | DoApply
    | DoAppend
    | DoTransfer(to: Address, count: nat)
    | DoAccept(from: Address, coins: nat, rewards: seq<nat>)
    | DoExtract(list: seq<Address>, rewards: seq<nat>)
    | DoDisband
    | OnReward(coins: nat)
    | OnRefund(coins: nat)

  /** Coins sent along with a call. */
  function Coins(call: Call): nat
  {
    match call
    case DoSubscribe(_, coins) => coins
    case DoAccept(_, coins, _) => coins
    case OnReward(coins) => coins
    case OnRefund(coins) => coins
    case _ => 0
  }

  /** `main`. Once disbanded the contract only serves `revoke`, and keeps coins it is sent. */
  function Invoke(cfg: Config, s: State, sender: Address, call: Call): Option<State>
  {
    if s.disabled && !call.DoRevoke? then Some(s.(balance := s.balance + Coins(call)))
    else
      match call
      case DoSubscribe(shares, coins) => Subscribe(cfg, s, sender, shares, coins)
      case DoRevoke => Revoke(cfg, s, sender)
      case DoApply => CoApply(cfg, s, sender)
      case DoAppend => CoAppend(cfg, s, sender)
      case DoTransfer(to, count) => Transfer(s, sender, to, count)
      case DoAccept(from, coins, rewards) => Accept(cfg, s, sender, from, coins, rewards)
      case DoExtract(list, rewards) => CoExtract(cfg, s, list, rewards)
      case DoDisband => Disband(cfg, s, sender)
      case OnReward(coins) => Reward(cfg, s, coins)
      case OnRefund(coins) => Some(Refund(s, coins))
  }

  /** Refunds return the pledged total, and nobody mixes pledged with unpledged shares. */
  predicate Orderly(cfg: Config, s: State, sender: Address, call: Call)
  {
    match call
    case OnRefund(coins) => !s.disabled ==> coins == cfg.unit * s.pledgedShares
    case DoAccept(from, _, _) => from in s.cobuilders && Offer(from, sender) in s.offers ==> !MixesShares(s, sender, from)
    case _ => true
  }

  /** `coExtract` succeeds exactly if the pending rewards, when there are any, can be taken in, and
      at most a hundred addresses are named, all of partners. Then the named partners have
      nothing left to take, the others have gained their parts, and the balance and the awards
      differ by as much as before. */
  lemma ExtractPays(cfg: Config, s: State, list: seq<Address>, rewards: seq<nat>)
    requires Covered(cfg, s) && !s.disabled
    ensures var r := CoExtract(cfg, s, list, rewards);
            && (r.Some? <==> (rewards == [] || CanTakeIn(cfg, s)) && |list| <= 100
                             && forall k :: 0 <= k < |list| ==> list[k] in s.cobuilders)
            && (r.Some? ==> r.value.cobuilders.Keys == s.cobuilders.Keys
                            && Left(cfg, s, r.value, list, rewards)
                            && r.value.balance - Sum(r.value.cobuilders, AwardOf) == s.balance - Sum(s.cobuilders, AwardOf))
  {
    hide Counted, Claims, Rewards, PayAwards, Gain;
    RewardsTakenIn(cfg, s, rewards);
    if Rewards(cfg, s, rewards).Some? {
      var s1 := Rewards(cfg, s, rewards).value;
      RewardsHold(cfg, s, rewards, 0);
      RewardsKeepShares(cfg, s, rewards);
      RewardsSpare(cfg, s, rewards);
      if PayAwards(s1, list).Some? { AllPartners(s1, list); }
      if forall k :: 0 <= k < |list| ==> list[k] in s.cobuilders {
        PayAwardsCovered(cfg, s1, list);
        PayAwardsClear(cfg, s1, list);
        LeftAfter(cfg, s, rewards, list);
      }
    }
  }

  /** What `coExtract` leaves: nothing for those named, all gains for the other pledged partners. */
  ghost predicate Left(cfg: Config, s: State, s': State, list: seq<Address>, rewards: seq<nat>)
    requires s'.cobuilders.Keys == s.cobuilders.Keys
  {
    && (forall a :: a in s'.cobuilders && a in list ==> s'.cobuilders[a].award == 0)
    && (forall a :: a in s.cobuilders && a !in list && s.cobuilders[a].pledged && s.pledgedShares > 0 ==>
          s'.cobuilders[a].award
          == s.cobuilders[a].award + Gain(s.pledgedShares, s.cobuilders[a].share, a == cfg.initiator, rewards))
  }

  lemma LeftAfter(cfg: Config, s: State, rewards: seq<nat>, list: seq<Address>)
    requires Rewards(cfg, s, rewards).Some? && !s.disabled && PayAwards(Rewards(cfg, s, rewards).value, list).Some?
    requires Rewards(cfg, s, rewards).value.cobuilders.Keys == s.cobuilders.Keys
    requires var s1 := Rewards(cfg, s, rewards).value;
             var s2 := PayAwards(s1, list).value;
             && s2.cobuilders.Keys == s1.cobuilders.Keys
             && (forall a :: a in s2.cobuilders && a in list ==> s2.cobuilders[a].award == 0)
             && (forall a :: a in s1.cobuilders && a !in list ==> s2.cobuilders[a] == s1.cobuilders[a])
    ensures Left(cfg, s, PayAwards(Rewards(cfg, s, rewards).value, list).value, list, rewards)
  {
    hide Rewards, PayAwards, Gain;
    forall a | a in s.cobuilders && a !in list && s.cobuilders[a].pledged && s.pledgedShares > 0
      ensures Rewards(cfg, s, rewards).value.cobuilders[a].award
              == s.cobuilders[a].award + Gain(s.pledgedShares, s.cobuilders[a].share, a == cfg.initiator, rewards)
    {
      RewardsGain(cfg, s, rewards, a);
    }
  }

  /** Rewards move balance and awards alike. */
  lemma {:induction false} RewardsSpare(cfg: Config, s: State, rewards: seq<nat>)
    requires Covered(cfg, s) && !s.disabled && Rewards(cfg, s, rewards).Some?
    ensures var s' := Rewards(cfg, s, rewards).value;
            s'.balance - Sum(s'.cobuilders, AwardOf) == s.balance - Sum(s.cobuilders, AwardOf)
  {
    hide Counted, Claims, Distribute;
    if rewards != [] {
      var before := rewards[..|rewards| - 1];
      RewardsSpare(cfg, s, before);
      RewardsHold(cfg, s, before, 0);
      RewardsKeepShares(cfg, s, before);
      DistributeExact(cfg, Rewards(cfg, s, before).value, rewards[|rewards| - 1]);
    }
  }

  lemma PayAwardClears(cfg: Config, s: State, a: Address)
    requires Covered(cfg, s) && a in s.cobuilders
    ensures PayAward(s, a).Some?
    ensures var s' := PayAward(s, a).value;
            && s'.cobuilders == s.cobuilders[a := s.cobuilders[a].(award := 0)]
            && s'.balance - Sum(s'.cobuilders, AwardOf) == s.balance - Sum(s.cobuilders, AwardOf)
  {
    PayAwardCovered(cfg, s, a);
    PutSums(s.cobuilders, a, s.cobuilders[a].(award := 0));
    hide Sum, Covered;
  }

  lemma {:induction false} PayAwardsClear(cfg: Config, s: State, list: seq<Address>)
    requires Covered(cfg, s) && forall k :: 0 <= k < |list| ==> list[k] in s.cobuilders
    ensures PayAwards(s, list).Some? && PayAwards(s, list).value.cobuilders.Keys == s.cobuilders.Keys
    ensures var s' := PayAwards(s, list).value;
            && (forall a :: a in s'.cobuilders && a in list ==> s'.cobuilders[a].award == 0)
            && (forall a :: a in s.cobuilders && a !in list ==> s'.cobuilders[a] == s.cobuilders[a])
            && s'.balance - Sum(s'.cobuilders, AwardOf) == s.balance - Sum(s.cobuilders, AwardOf)
  {
    hide Covered, PayAward;
    PayAwardsCovered(cfg, s, list);
    if list != [] {
      var before, last := list[..|list| - 1], list[|list| - 1];
      assert list == before + [last];
      PayAwardsClear(cfg, s, before);
      PayAwardsCovered(cfg, s, before);
      PayAwardClears(cfg, PayAwards(s, before).value, last);
    }
  }

  lemma ExtractCovered(cfg: Config, s: State, list: seq<Address>, rewards: seq<nat>)
    requires Covered(cfg, s) && CoExtract(cfg, s, list, rewards).Some?
    ensures Covered(cfg, CoExtract(cfg, s, list, rewards).value)
  {
    hide Holds, Rewards, PayAwards;
    RewardsHold(cfg, s, rewards, 0);
    AllPartners(Rewards(cfg, s, rewards).value, list);
    PayAwardsCovered(cfg, Rewards(cfg, s, rewards).value, list);
  }

  /** Paying awards fails on an address that is no partner. */
  lemma {:induction false} AllPartners(s: State, list: seq<Address>)
    requires PayAwards(s, list).Some?
    ensures forall k :: 0 <= k < |list| ==> list[k] in s.cobuilders
    ensures PayAwards(s, list).value.cobuilders.Keys == s.cobuilders.Keys
  {
    if list != [] {
      AllPartners(s, list[..|list| - 1]);
      forall k | 0 <= k < |list|
        ensures list[k] in s.cobuilders
      {
        if k < |list| - 1 { assert list[k] == list[..|list| - 1][k]; }
      }
    }
  }

  lemma InvokeCovered(cfg: Config, s: State, sender: Address, call: Call)
    requires Covered(cfg, s) && Orderly(cfg, s, sender, call) && Invoke(cfg, s, sender, call).Some?
    ensures Covered(cfg, Invoke(cfg, s, sender, call).value)
  {
    if s.disabled && !call.DoRevoke? {
      hide Sum;
    } else {
      hide Holds, Subscribe, PledgeAll, Accept, CoExtract, Reward, Refund;
      match call
      case DoSubscribe(shares, coins) => SubscribeCovered(cfg, s, sender, shares, coins);
      case DoRevoke => RevokeCovered(cfg, s, sender);
      case DoApply =>
        NotApplied(cfg, s);
        PledgeAllCovered(cfg, s);
      case DoAppend => PledgeAllCovered(cfg, s);
      case DoTransfer(to, count) => TransferCovered(cfg, s, sender, to, count);
      case DoAccept(from, coins, rewards) => AcceptedCovered(cfg, s, sender, from, coins, rewards);
      case DoExtract(list, rewards) => ExtractCovered(cfg, s, list, rewards);
      case DoDisband => DisbandCovered(cfg, s, sender);
      case OnReward(coins) => RewardHolds(cfg, s, coins, 0);
      case OnRefund(coins) => RefundCovered(cfg, s, coins);
    }
  }

  lemma NotApplied(cfg: Config, s: State)
    requires Covered(cfg, s) && !s.applied
    ensures s.(pledgedShares := 0) == s
  {
  }

  lemma AcceptedCovered(cfg: Config, s: State, sender: Address, from: Address, coins: nat, rewards: seq<nat>)
    requires Covered(cfg, s) && Orderly(cfg, s, sender, DoAccept(from, coins, rewards))
    requires Accept(cfg, s, sender, from, coins, rewards).Some?
    ensures Covered(cfg, Accept(cfg, s, sender, from, coins, rewards).value)
  {
    assert from in s.cobuilders && Offer(from, sender) in s.offers;
    hide Accept, Covered;
    AcceptCovered(cfg, s, sender, from, coins, rewards);
  }

  lemma DisbandCovered(cfg: Config, s: State, sender: Address)
    requires Covered(cfg, s) && Disband(cfg, s, sender).Some?
    ensures Covered(cfg, Disband(cfg, s, sender).value)
  {
  }

  /** `init`: the initiator's shares at the unit price, besides a reserve. */
  function Init(cfg: Config, shares: nat, reserve: nat): State
  {
    State(cfg.unit * shares + reserve, false, false, shares, 0,
          map[cfg.initiator := Cobuilder(shares, false, 0)], map[], [])
  }

  lemma InitCovered(cfg: Config, shares: nat, reserve: nat)
    ensures Covered(cfg, Init(cfg, shares, reserve))
  {
    var cs: map<Address, Cobuilder> := map[];
    PutSums(cs, cfg.initiator, Cobuilder(shares, false, 0));
    assert cs[cfg.initiator := Cobuilder(shares, false, 0)] == Init(cfg, shares, reserve).cobuilders;
  }

  datatype Event = Event(sender: Address, call: Call)

  function Step(cfg: Config, s: State, ev: Event): State
  {
    match Invoke(cfg, s, ev.sender, ev.call)
    case None => s
    case Some(s') => s'
  }

  predicate IsRun(cfg: Config, shares: nat, reserve: nat, run: seq<State>, evs: seq<Event>)
  {
    && |run| == |evs| + 1 && run[0] == Init(cfg, shares, reserve)
    && (forall t :: 0 <= t < |evs| ==> run[t + 1] == Step(cfg, run[t], evs[t]))
    && (forall t :: 0 <= t < |evs| ==> Orderly(cfg, run[t], evs[t].sender, evs[t].call))
  }

  /** Co-build conservation: in every state of every orderly run the counters equal the sums
      over the partners, and the balance covers unpledged shares and all awards. */
  lemma {:induction false} AlwaysCovered(cfg: Config, shares: nat, reserve: nat, run: seq<State>, evs: seq<Event>, t: nat)
    requires IsRun(cfg, shares, reserve, run, evs) && t < |run|
    ensures Covered(cfg, run[t])
  {
    hide Covered, Invoke;
    if t == 0 {
      InitCovered(cfg, shares, reserve);
    } else {
      AlwaysCovered(cfg, shares, reserve, run, evs, t - 1);
      assert run[t - 1 + 1] == Step(cfg, run[t - 1], evs[t - 1]);
      if Invoke(cfg, run[t - 1], evs[t - 1].sender, evs[t - 1].call).Some? {
        InvokeCovered(cfg, run[t - 1], evs[t - 1].sender, evs[t - 1].call);
      }
    }
  }
}
