/** Who can change what in the co-build contract: every partner, offer, counter and payment after a
    call, from the state before it. */
module CobuildPowers {
  import opened Options
  import opened Cobuild

  // ---- The conditions, from the state before the call ----

  /** New shares at their price, by a newcomer or a partner whose shares are not pledged. */
  predicate Subscribes(cfg: Config, s: State, sender: Address, call: Call)
  {
    && !s.disabled && call.DoSubscribe? && call.shares > 0 && call.coins == cfg.unit * call.shares
    && (sender in s.cobuilders ==> !s.cobuilders[sender].pledged)
  }

  /** A partner with unpledged shares leaves; the initiator only when all is over. */
  predicate Revokes(cfg: Config, s: State, sender: Address, call: Call)
  {
    && call.DoRevoke? && sender in s.cobuilders && !s.cobuilders[sender].pledged
    && (sender == cfg.initiator ==> s.disabled)
  }

  /** The initiator pledges: for the first time with enough shares raised, or once more. */
  predicate PledgesShares(cfg: Config, s: State, sender: Address, call: Call)
  {
    && !s.disabled && sender == cfg.initiator
    && ((call.DoApply? && !s.applied && s.allShares >= cfg.raiseShares) || (call.DoAppend? && s.applied))
  }

  /** A partner offers no more than the pledged shares it has. */
  predicate OffersShares(s: State, sender: Address, call: Call)
  {
    && !s.disabled && call.DoTransfer? && sender in s.cobuilders && s.cobuilders[sender].pledged
    && call.count <= s.cobuilders[sender].share
  }

  predicate Whole(s: State, sender: Address, from: Address)
    requires from in s.cobuilders && Offer(from, sender) in s.offers
  {
    s.offers[Offer(from, sender)] == s.cobuilders[from].share
  }

  predicate TakesIn(cfg: Config, s: State, rewards: seq<nat>)
  {
    rewards == [] || CanTakeIn(cfg, s)
  }

  predicate Accepts(cfg: Config, s: State, sender: Address, call: Call)
  {
    && !s.disabled && call.DoAccept? && OfferStands(cfg, s, sender, call.from, call.coins)
    && if Whole(s, sender, call.from) then TakesIn(cfg, s, call.rewards)
       else sender in s.cobuilders ==> s.cobuilders[sender].pledged
  }

  predicate Extracts(cfg: Config, s: State, call: Call)
  {
    && !s.disabled && call.DoExtract? && TakesIn(cfg, s, call.rewards) && |call.list| <= 100
    && forall k :: 0 <= k < |call.list| ==> call.list[k] in s.cobuilders
  }

  predicate Disbands(cfg: Config, s: State, sender: Address, call: Call)
  {
    !s.disabled && call.DoDisband? && sender == cfg.initiator && !s.applied
  }

  predicate Rewarded(cfg: Config, s: State, call: Call)
  {
    !s.disabled && call.OnReward? && CanTakeIn(cfg, s)
  }

  predicate Refunded(s: State, call: Call)
  {
    !s.disabled && call.OnRefund?
  }

  // ---- What a call makes of it ----

  /** What rewards add to a partner's award. */
  function Gained(cfg: Config, s: State, rewards: seq<nat>, a: Address): int
    requires a in s.cobuilders
  {
    if s.pledgedShares <= 0 then 0
    else Gain(s.pledgedShares, PledgedShare(s.cobuilders[a]), a == cfg.initiator, rewards)
  }

  /** A partner before the taker gets the shares: a whole stake's giver is gone, and the others have
      been credited with what was pending. */
  function Giving(cfg: Config, s: State, sender: Address, from: Address, rewards: seq<nat>, a: Address): Option<Cobuilder>
    requires from in s.cobuilders && Offer(from, sender) in s.offers
  {
    if a !in s.cobuilders then None
    else
      var c := s.cobuilders[a];
      if Whole(s, sender, from) then
        if a == from then None else Some(c.(award := c.award + Gained(cfg, s, rewards, a)))
      else Some(if a == from then c.(share := c.share - s.offers[Offer(from, sender)]) else c)
  }

  function PartnerAfter(cfg: Config, s: State, sender: Address, call: Call, a: Address): Option<Cobuilder>
  {
    if Subscribes(cfg, s, sender, call) && sender == a then
      Some(if a in s.cobuilders then s.cobuilders[a].(share := s.cobuilders[a].share + call.shares)
           else Cobuilder(call.shares, false, 0))
    else if Revokes(cfg, s, sender, call) && sender == a then None
    else if Accepts(cfg, s, sender, call) then
      var shares := s.offers[Offer(call.from, sender)];
      match Giving(cfg, s, sender, call.from, call.rewards, a)
      case None => if a == sender then Some(Cobuilder(shares, true, 0)) else None
      case Some(c) => Some(if a == sender then c.(share := c.share + shares) else c)
    else if a !in s.cobuilders then None
    else
      var c := s.cobuilders[a];
      Some(Cobuilder(c.share,
                     PledgesShares(cfg, s, sender, call) || (c.pledged && !Refunded(s, call)),
                     if Extracts(cfg, s, call) then
                       if a in call.list then 0 else c.award + Gained(cfg, s, call.rewards, a)
                     else if Rewarded(cfg, s, call) then c.award + Gained(cfg, s, [call.coins], a)
                     else c.award))
  }

  function OfferAfter(cfg: Config, s: State, sender: Address, call: Call, o: Offer): Option<int>
  {
    if OffersShares(s, sender, call) && o == Offer(sender, call.to) then if call.count == 0 then None else Some(call.count)
    else if Accepts(cfg, s, sender, call) && o == Offer(call.from, sender) then None
    else Lookup(s.offers, o)
  }

  /** Everybody named is paid what it has, pending rewards included; once. */
  function PaidEach(cfg: Config, s: State, rewards: seq<nat>, list: seq<Address>): seq<Payment>
    requires forall k :: 0 <= k < |list| ==> list[k] in s.cobuilders
  {
    if list == [] then s.paid
    else
      var before, a := list[..|list| - 1], list[|list| - 1];
      Paying(PaidEach(cfg, s, rewards, before), a,
             if a in before then 0 else s.cobuilders[a].award + Gained(cfg, s, rewards, a))
  }

  function PaymentsAfter(cfg: Config, s: State, sender: Address, call: Call): seq<Payment>
  {
    if Revokes(cfg, s, sender, call) then
      Paying(s.paid, sender, cfg.unit * s.cobuilders[sender].share + s.cobuilders[sender].award)
    else if PledgesShares(cfg, s, sender, call) then Paying(s.paid, DPOS, cfg.unit * (s.allShares - s.pledgedShares))
    else if Accepts(cfg, s, sender, call) then
      var c := s.cobuilders[call.from];
      Paying(s.paid, call.from,
             call.coins + if Whole(s, sender, call.from) then c.award + Gained(cfg, s, call.rewards, call.from) else 0)
    else if Extracts(cfg, s, call) then PaidEach(cfg, s, call.rewards, call.list)
    else s.paid
  }

  function Total(rewards: seq<nat>): nat
  {
    if rewards == [] then 0 else Total(rewards[..|rewards| - 1]) + rewards[|rewards| - 1]
  }

  /** Coins that came in; a disbanded contract keeps what it is sent. */
  function Income(cfg: Config, s: State, sender: Address, call: Call): nat
  {
    if s.disabled || Subscribes(cfg, s, sender, call) || Rewarded(cfg, s, call) || Refunded(s, call) then Coins(call)
    else if Accepts(cfg, s, sender, call) then
      call.coins + if Whole(s, sender, call.from) then Total(call.rewards) else 0
    else if Extracts(cfg, s, call) then Total(call.rewards)
    else 0
  }

  function PaidOut(paid: seq<Payment>): int
  {
    if paid == [] then 0 else PaidOut(paid[..|paid| - 1]) + paid[|paid| - 1].amount
  }

  lemma PayingTotal(paid: seq<Payment>, to: Address, amount: int)
    ensures PaidOut(Paying(paid, to, amount)) == PaidOut(paid) + amount
  {
    if amount != 0 { assert (paid + [Payment(to, amount)])[..|paid|] == paid; }
  }

  predicate CountersFollow(cfg: Config, s: State, sender: Address, call: Call, s': State)
  {
    && s'.disabled == (s.disabled || Disbands(cfg, s, sender, call) || Refunded(s, call))
    && s'.applied == (PledgesShares(cfg, s, sender, call) || (s.applied && !Refunded(s, call)))
    && s'.allShares == s.allShares + (if Subscribes(cfg, s, sender, call) then call.shares else 0)
                       - (if Revokes(cfg, s, sender, call) then s.cobuilders[sender].share else 0)
    && s'.pledgedShares == (if PledgesShares(cfg, s, sender, call) then s.allShares
                            else if Refunded(s, call) then 0 else s.pledgedShares)
  }

  predicate CoinsFollow(cfg: Config, s: State, sender: Address, call: Call, s': State)
  {
    && s'.paid == PaymentsAfter(cfg, s, sender, call)
    && s'.balance - s.balance == Income(cfg, s, sender, call) - (PaidOut(s'.paid) - PaidOut(s.paid))
  }

  predicate Follows(cfg: Config, s: State, sender: Address, call: Call, s': State, a: Address, o: Offer)
  {
    && Lookup(s'.cobuilders, a) == PartnerAfter(cfg, s, sender, call, a)
    && Lookup(s'.offers, o) == OfferAfter(cfg, s, sender, call, o)
    && CountersFollow(cfg, s, sender, call, s')
    && CoinsFollow(cfg, s, sender, call, s')
  }

  // ---- Rewards and awards, partner by partner ----

  /** Only the balance and the awards are different. */
  predicate OnlyAwards(s: State, s': State)
  {
    && s'.cobuilders.Keys == s.cobuilders.Keys && s'.offers == s.offers && s'.disabled == s.disabled
    && s'.applied == s.applied && s'.allShares == s.allShares && s'.pledgedShares == s.pledgedShares
  }

  lemma RewardExact(cfg: Config, s: State, reward: nat, a: Address)
    requires !s.disabled && CanTakeIn(cfg, s) && a in s.cobuilders
    ensures Reward(cfg, s, reward).Some?
    ensures var s' := Reward(cfg, s, reward).value;
            var c := s.cobuilders[a];
            && OnlyAwards(s, s') && s'.paid == s.paid && s'.balance == s.balance + reward
            && s'.cobuilders[a] == c.(award := c.award + reward / s.pledgedShares * PledgedShare(c)
                                               + (if a == cfg.initiator then reward % s.pledgedShares else 0))
  {
  }

  lemma {:induction false} RewardsExact(cfg: Config, s: State, rewards: seq<nat>, a: Address)
    requires !s.disabled && TakesIn(cfg, s, rewards) && a in s.cobuilders
    ensures Rewards(cfg, s, rewards).Some?
    ensures var s' := Rewards(cfg, s, rewards).value;
            var c := s.cobuilders[a];
            && OnlyAwards(s, s') && s'.paid == s.paid && s'.balance == s.balance + Total(rewards)
            && s'.cobuilders[a] == c.(award := c.award + Gained(cfg, s, rewards, a))
  {
    hide Reward;
    if rewards != [] {
      var before := rewards[..|rewards| - 1];
      RewardsExact(cfg, s, before, a);
      RewardExact(cfg, Rewards(cfg, s, before).value, rewards[|rewards| - 1], a);
    }
  }

  /** The same for the contract as a whole. */
  lemma RewardsFrame(cfg: Config, s: State, rewards: seq<nat>)
    requires !s.disabled && TakesIn(cfg, s, rewards)
    ensures Rewards(cfg, s, rewards).Some?
    ensures var s' := Rewards(cfg, s, rewards).value;
            OnlyAwards(s, s') && s'.paid == s.paid && s'.balance == s.balance + Total(rewards)
  {
    if rewards != [] { RewardsExact(cfg, s, rewards, cfg.initiator); }
  }

  lemma GainedAlike(cfg: Config, s: State, coins: nat, rewards: seq<nat>, a: Address)
    requires a in s.cobuilders
    ensures Gained(cfg, s.(balance := s.balance + coins), rewards, a) == Gained(cfg, s, rewards, a)
  {
  }

  lemma PayAwardExact(cfg: Config, s: State, a: Address)
    requires Covered(cfg, s) && a in s.cobuilders
    ensures PayAward(s, a).Some? && Covered(cfg, PayAward(s, a).value)
    ensures var s' := PayAward(s, a).value;
            var award := s.cobuilders[a].award;
            && OnlyAwards(s, s') && s'.cobuilders == s.cobuilders[a := s.cobuilders[a].(award := 0)]
            && s'.paid == Paying(s.paid, a, award) && s'.balance == s.balance - award
  {
    PayAwardCovered(cfg, s, a);
    hide Covered;
  }

  /** The awards of a list paid, for a partner given. */
  lemma {:induction false} PayAwardsExact(cfg: Config, s: State, list: seq<Address>, a: Address)
    requires Covered(cfg, s) && a in s.cobuilders && forall k :: 0 <= k < |list| ==> list[k] in s.cobuilders
    ensures PayAwards(s, list).Some? && Covered(cfg, PayAwards(s, list).value)
    ensures var s' := PayAwards(s, list).value;
            && OnlyAwards(s, s') && s'.balance == s.balance - (PaidOut(s'.paid) - PaidOut(s.paid))
            && s'.cobuilders[a] == if a in list then s.cobuilders[a].(award := 0) else s.cobuilders[a]
  {
    hide Covered, PayAward, Paying, PaidOut;
    if list != [] {
      var before, last := list[..|list| - 1], list[|list| - 1];
      assert list == before + [last];
      PayAwardsExact(cfg, s, before, a);
      var s1 := PayAwards(s, before).value;
      PayAwardExact(cfg, s1, last);
      PayingTotal(s1.paid, last, s1.cobuilders[last].award);
    }
  }

  lemma PayAwardsFrame(cfg: Config, s: State, list: seq<Address>)
    requires Covered(cfg, s) && forall k :: 0 <= k < |list| ==> list[k] in s.cobuilders
    ensures PayAwards(s, list).Some?
    ensures var s' := PayAwards(s, list).value;
            OnlyAwards(s, s') && s'.balance == s.balance - (PaidOut(s'.paid) - PaidOut(s.paid))
  {
    if list != [] { PayAwardsExact(cfg, s, list, list[0]); }
  }

  /** What is paid: to each named its award, to one named before nothing. */
  lemma {:induction false} PayAwardsPaid(cfg: Config, s: State, s1: State, rewards: seq<nat>, list: seq<Address>)
    requires Covered(cfg, s1) && s1.cobuilders.Keys == s.cobuilders.Keys && s1.paid == s.paid
    requires forall a :: a in s.cobuilders ==> s1.cobuilders[a].award == s.cobuilders[a].award + Gained(cfg, s, rewards, a)
    requires forall k :: 0 <= k < |list| ==> list[k] in s.cobuilders
    ensures PayAwards(s1, list).Some? && PayAwards(s1, list).value.paid == PaidEach(cfg, s, rewards, list)
  {
    hide Covered, PayAward, Paying, Gained;
    if list != [] {
      var before, last := list[..|list| - 1], list[|list| - 1];
      PayAwardsPaid(cfg, s, s1, rewards, before);
      PayAwardsExact(cfg, s1, before, last);
      PayAwardExact(cfg, PayAwards(s1, before).value, last);
    }
  }

  // ---- Call by call ----

  lemma SubscribeFollows(cfg: Config, s: State, sender: Address, call: Call, a: Address, o: Offer)
    requires !s.disabled && call.DoSubscribe?
    ensures Follows(cfg, s, sender, call, After(s, Subscribe(cfg, s, sender, call.shares, call.coins)), a, o)
  {
    hide PaidOut, Gained, PaidEach;
  }

  lemma RevokeFollows(cfg: Config, s: State, sender: Address, a: Address, o: Offer)
    requires Covered(cfg, s)
    ensures Follows(cfg, s, sender, DoRevoke, After(s, Revoke(cfg, s, sender)), a, o)
  {
    hide PaidOut, Gained, PaidEach, Covered, Paying;
    if Revokes(cfg, s, sender, DoRevoke) {
      RevokeCovered(cfg, s, sender);
      PayingTotal(s.paid, sender, cfg.unit * s.cobuilders[sender].share + s.cobuilders[sender].award);
    }
  }

  lemma PledgeFollows(cfg: Config, s: State, sender: Address, call: Call, a: Address, o: Offer)
    requires Covered(cfg, s) && !s.disabled && (call.DoApply? || call.DoAppend?)
    ensures Follows(cfg, s, sender, call, After(s, Invoke(cfg, s, sender, call)), a, o)
  {
    hide PaidOut, Gained, PaidEach, Covered, Paying;
    if !s.applied { NotApplied(cfg, s); }
    PledgeAllCovered(cfg, s);
    PayingTotal(s.paid, DPOS, cfg.unit * (s.allShares - s.pledgedShares));
  }

  lemma TransferFollows(cfg: Config, s: State, sender: Address, call: Call, a: Address, o: Offer)
    requires !s.disabled && call.DoTransfer?
    ensures Follows(cfg, s, sender, call, After(s, Transfer(s, sender, call.to, call.count)), a, o)
  {
    hide PaidOut, Gained, PaidEach;
  }

  lemma AcceptFollows(cfg: Config, s: State, sender: Address, call: Call, a: Address, o: Offer)
    requires Covered(cfg, s) && !s.disabled && call.DoAccept?
    ensures Follows(cfg, s, sender, call, After(s, Accept(cfg, s, sender, call.from, call.coins, call.rewards)), a, o)
  {
    hide PaidOut, Gained, PaidEach, Covered, Paying, Accept, Follows;
    AcceptSucceeds(cfg, s, sender, call.from, call.coins, call.rewards);
    if !Accepts(cfg, s, sender, call) {
      RefusedFollows(cfg, s, sender, call, a, o);
    } else if Whole(s, sender, call.from) {
      WholeFollows(cfg, s, sender, call, a, o);
    } else {
      PartFollows(cfg, s, sender, call, a, o);
    }
  }

  lemma RefusedFollows(cfg: Config, s: State, sender: Address, call: Call, a: Address, o: Offer)
    requires !s.disabled && call.DoAccept? && !Accepts(cfg, s, sender, call)
    ensures Follows(cfg, s, sender, call, s, a, o)
  {
    hide PaidOut, Gained, PaidEach, Accepts;
  }

  lemma PartFollows(cfg: Config, s: State, sender: Address, call: Call, a: Address, o: Offer)
    requires Covered(cfg, s) && !s.disabled && call.DoAccept? && Accepts(cfg, s, sender, call)
    requires Accept(cfg, s, sender, call.from, call.coins, call.rewards).Some?
    requires !Whole(s, sender, call.from)
    ensures Follows(cfg, s, sender, call, Accept(cfg, s, sender, call.from, call.coins, call.rewards).value, a, o)
  {
    hide PaidOut, Gained, PaidEach, Covered, Paying, Rewards;
    PayingTotal(s.paid, call.from, call.coins);
  }

  lemma WholeFollows(cfg: Config, s: State, sender: Address, call: Call, a: Address, o: Offer)
    requires Covered(cfg, s) && !s.disabled && call.DoAccept? && Accepts(cfg, s, sender, call)
    requires Accept(cfg, s, sender, call.from, call.coins, call.rewards).Some?
    requires Whole(s, sender, call.from)
    ensures Follows(cfg, s, sender, call, Accept(cfg, s, sender, call.from, call.coins, call.rewards).value, a, o)
  {
    hide PaidOut, Gained, PaidEach, Covered, Paying, Rewards, Total;
    var s0 := s.(balance := s.balance + call.coins);
    RewardsExact(cfg, s0, call.rewards, call.from);
    GainedAlike(cfg, s, call.coins, call.rewards, call.from);
    if a in s.cobuilders {
      RewardsExact(cfg, s0, call.rewards, a);
      GainedAlike(cfg, s, call.coins, call.rewards, a);
    }
    PayingTotal(s.paid, call.from, call.coins + s.cobuilders[call.from].award + Gained(cfg, s, call.rewards, call.from));
  }

  lemma ExtractFollows(cfg: Config, s: State, sender: Address, call: Call, a: Address, o: Offer)
    requires Covered(cfg, s) && !s.disabled && call.DoExtract?
    ensures Follows(cfg, s, sender, call, After(s, CoExtract(cfg, s, call.list, call.rewards)), a, o)
  {
    hide PaidOut, Gained, PaidEach, Covered, CoExtract;
    ExtractPays(cfg, s, call.list, call.rewards);
    if Extracts(cfg, s, call) { ExtractedFollows(cfg, s, sender, call, a, o); }
  }

  lemma ExtractedFollows(cfg: Config, s: State, sender: Address, call: Call, a: Address, o: Offer)
    requires Covered(cfg, s) && call.DoExtract? && Extracts(cfg, s, call)
    ensures Follows(cfg, s, sender, call, After(s, CoExtract(cfg, s, call.list, call.rewards)), a, o)
  {
    hide PaidOut, Gained, PaidEach, Covered, Rewards, PayAwards, Total;
    RewardsFrame(cfg, s, call.rewards);
    var s1 := Rewards(cfg, s, call.rewards).value;
    RewardsCovered(cfg, s, call.rewards);
    PayAwardsFrame(cfg, s1, call.list);
    forall b | b in s.cobuilders
      ensures s1.cobuilders[b].award == s.cobuilders[b].award + Gained(cfg, s, call.rewards, b)
    {
      RewardsExact(cfg, s, call.rewards, b);
    }
    PayAwardsPaid(cfg, s, s1, call.rewards, call.list);
    if a in s.cobuilders {
      RewardsExact(cfg, s, call.rewards, a);
      PayAwardsExact(cfg, s1, call.list, a);
    }
  }

  lemma RewardsCovered(cfg: Config, s: State, rewards: seq<nat>)
    requires Covered(cfg, s) && Rewards(cfg, s, rewards).Some?
    ensures Covered(cfg, Rewards(cfg, s, rewards).value)
  {
    hide Rewards, Holds;
    RewardsHold(cfg, s, rewards, 0);
  }

  /** Everything the contract stores changes by the calls named above and by nothing else, exactly
      as said; a call that is refused changes nothing. */
  lemma CobuildChanges(cfg: Config, s: State, sender: Address, call: Call, a: Address, o: Offer)
    requires Covered(cfg, s)
    ensures Follows(cfg, s, sender, call, Step(cfg, s, Event(sender, call)), a, o)
  {
    hide Covered, Follows, Subscribe, Revoke, CoApply, CoAppend, Transfer, Accept, CoExtract, Disband, Reward, Refund;
    if s.disabled && !call.DoRevoke? {
      OverFollows(cfg, s, sender, call, a, o);
    } else {
      match call
      case DoSubscribe(_, _) => SubscribeFollows(cfg, s, sender, call, a, o);
      case DoRevoke => RevokeFollows(cfg, s, sender, a, o);
      case DoApply => PledgeFollows(cfg, s, sender, call, a, o);
      case DoAppend => PledgeFollows(cfg, s, sender, call, a, o);
      case DoTransfer(_, _) => TransferFollows(cfg, s, sender, call, a, o);
      case DoAccept(_, _, _) => AcceptFollows(cfg, s, sender, call, a, o);
      case DoExtract(_, _) => ExtractFollows(cfg, s, sender, call, a, o);
      case DoDisband => DisbandFollows(cfg, s, sender, a, o);
      case OnReward(coins) => RewardFollows(cfg, s, sender, coins, a, o);
      case OnRefund(coins) => RefundFollows(cfg, s, sender, coins, a, o);
    }
  }

  /** After the end nothing but coins comes in. */
  lemma OverFollows(cfg: Config, s: State, sender: Address, call: Call, a: Address, o: Offer)
    requires s.disabled && !call.DoRevoke?
    ensures Follows(cfg, s, sender, call, s.(balance := s.balance + Coins(call)), a, o)
  {
    hide PaidOut, Gained, PaidEach, Coins;
  }

  lemma DisbandFollows(cfg: Config, s: State, sender: Address, a: Address, o: Offer)
    requires !s.disabled
    ensures Follows(cfg, s, sender, DoDisband, After(s, Disband(cfg, s, sender)), a, o)
  {
    hide PaidOut, Gained, PaidEach;
  }

  lemma RewardFollows(cfg: Config, s: State, sender: Address, coins: nat, a: Address, o: Offer)
    requires !s.disabled
    ensures Follows(cfg, s, sender, OnReward(coins), After(s, Reward(cfg, s, coins)), a, o)
  {
    hide PaidOut, PaidEach;
    if CanTakeIn(cfg, s) {
      RewardExact(cfg, s, coins, cfg.initiator);
      if a in s.cobuilders {
        RewardExact(cfg, s, coins, a);
        assert [coins][..0] == [];
        assert Gain(s.pledgedShares, PledgedShare(s.cobuilders[a]), a == cfg.initiator, []) == 0;
      }
    }
  }

  lemma RefundFollows(cfg: Config, s: State, sender: Address, coins: nat, a: Address, o: Offer)
    requires !s.disabled
    ensures Follows(cfg, s, sender, OnRefund(coins), Refund(s, coins), a, o)
  {
    hide PaidOut, Gained, PaidEach;
  }
}
