/** The co-build contract as it runs: loops over the partners, counters updated in place. */
module CobuildContract {
  import opened Options
  import opened Cobuild

  /** The loop of `distribute` over all partners. */
  method CreditPledged(cs: map<Address, Cobuilder>, unitReward: int) returns (r: map<Address, Cobuilder>)
    ensures r == EarnedAll(cs, unitReward)
  {
    r := cs;
    var todo := cs.Keys;
    while todo != {}
      invariant todo <= cs.Keys && r.Keys == cs.Keys
      invariant forall a :: a in cs ==> r[a] == if a in todo then cs[a] else Earned(cs[a], unitReward)
      decreases |todo|
    {
      var a :| a in todo;
      if r[a].pledged {
        var each := unitReward * r[a].share;
        r := r[a := r[a].(award := r[a].award + each)];
      }
      todo := todo - {a};
    }
  }

  /** The loop of `setStatus` and of `resetStatus`. */
  method MarkAll(cs: map<Address, Cobuilder>, pledged: bool) returns (r: map<Address, Cobuilder>)
    ensures r == WithPledged(cs, pledged)
  {
    r := cs;
    var todo := cs.Keys;
    while todo != {}
      invariant todo <= cs.Keys && r.Keys == cs.Keys
      invariant forall a :: a in cs ==> r[a] == if a in todo then cs[a] else cs[a].(pledged := pledged)
      decreases |todo|
    {
      var a :| a in todo;
      r := r[a := r[a].(pledged := pledged)];
      todo := todo - {a};
    }
  }

  class Contract {
    const cfg: Config
    var balance: int
    var disabled: bool
    var applied: bool
    var allShares: int
    var pledgedShares: int
    var cobuilders: map<Address, Cobuilder>
    var offers: map<Offer, int>
    var paid: seq<Payment>

    function Stored(): State
      reads this
    {
      State(balance, disabled, applied, allShares, pledgedShares, cobuilders, offers, paid)
    }

    constructor (cfg: Config, shares: nat, reserve: nat)
      ensures this.cfg == cfg && Stored() == Init(cfg, shares, reserve)
    {
      this.cfg := cfg;
      balance, disabled, applied, allShares, pledgedShares := cfg.unit * shares + reserve, false, false, shares, 0;
      cobuilders, offers, paid := map[cfg.initiator := Cobuilder(shares, false, 0)], map[], [];
    }

    constructor Load(cfg: Config, s: State)
      ensures this.cfg == cfg && Stored() == s
    {
      this.cfg := cfg;
      balance, disabled, applied, allShares, pledgedShares := s.balance, s.disabled, s.applied, s.allShares, s.pledgedShares;
      cobuilders, offers, paid := s.cobuilders, s.offers, s.paid;
    }

    method PayCoin(to: Address, amount: int) returns (ok: bool)
      modifies `balance, `paid
      ensures ok <==> Pay(old(Stored()), to, amount).Some?
      ensures ok ==> Stored() == Pay(old(Stored()), to, amount).value
    {
      ok := 0 <= amount <= balance;
      if ok && amount != 0 {
        balance := balance - amount;
        paid := paid + [Payment(to, amount)];
      }
    }

    /** The `reward` call-back: `distribute`, unless the contract is disbanded. */
    method OnReward(reward: nat) returns (ok: bool)
      modifies `balance, `cobuilders
      ensures var r := Reward(cfg, old(Stored()), reward);
              (ok <==> r.Some?) && (ok ==> Stored() == r.value)
    {
      balance := balance + reward;
      if disabled { return true; }
      if pledgedShares <= 0 { return false; }
      cobuilders := CreditPledged(cobuilders, reward / pledgedShares);
      if cfg.initiator !in cobuilders { return false; }
      var left := reward % pledgedShares;
      var c := cobuilders[cfg.initiator];
      cobuilders := cobuilders[cfg.initiator := c.(award := c.award + left)];
      ok := true;
    }

    /** `extract` on the DPoS contract, which calls `reward` back. */
    method CallExtract(rewards: seq<nat>) returns (ok: bool)
      modifies `balance, `cobuilders
      ensures var r := Rewards(cfg, old(Stored()), rewards);
              (ok <==> r.Some?) && (ok ==> Stored() == r.value)
    {
      hide Reward;
      ok := true;
      var i := 0;
      while i < |rewards|
        invariant 0 <= i <= |rewards| && ok && Rewards(cfg, old(Stored()), rewards[..i]) == Some(Stored())
      {
        assert rewards[..i + 1][..i] == rewards[..i];
        ok := OnReward(rewards[i]);
        if !ok {
          RewardsStop(cfg, old(Stored()), rewards, i + 1);
          return;
        }
        i := i + 1;
      }
      assert rewards[..i] == rewards;
    }

    method SubscribeShares(sender: Address, shares: int, coins: nat) returns (ok: bool)
      modifies this
      ensures var r := Subscribe(cfg, old(Stored()), sender, shares, coins);
              (ok <==> r.Some?) && (ok ==> Stored() == r.value)
    {
      if shares <= 0 || cfg.unit * shares != coins { return false; }
      if sender !in cobuilders {
        cobuilders := cobuilders[sender := Cobuilder(shares, false, 0)];
      } else {
        if cobuilders[sender].pledged { return false; }
        cobuilders := cobuilders[sender := cobuilders[sender].(share := cobuilders[sender].share + shares)];
      }
      balance := balance + coins;
      allShares := allShares + shares;
      ok := true;
    }

    method RevokeShares(sender: Address) returns (ok: bool)
      modifies this
      ensures var r := Revoke(cfg, old(Stored()), sender);
              (ok <==> r.Some?) && (ok ==> Stored() == r.value)
    {
      hide Pay;
      if sender == cfg.initiator && !disabled { return false; }
      if sender !in cobuilders || cobuilders[sender].pledged { return false; }
      var stake := cobuilders[sender];
      cobuilders := cobuilders - {sender};
      allShares := allShares - stake.share;
      var amount := cfg.unit * stake.share;
      if stake.award != 0 {
        amount := amount + stake.award;
      }
      ok := PayCoin(sender, amount);
    }

    method SetStatus()
      modifies `applied, `pledgedShares, `cobuilders
      ensures var s := old(Stored());
              Stored() == s.(applied := true, pledgedShares := s.allShares, cobuilders := WithPledged(s.cobuilders, true))
    {
      applied := true;
      pledgedShares := allShares;
      cobuilders := MarkAll(cobuilders, true);
    }

    method CoApplyAll(sender: Address) returns (ok: bool)
      modifies this
      ensures var r := CoApply(cfg, old(Stored()), sender);
              (ok <==> r.Some?) && (ok ==> Stored() == r.value)
    {
      hide WithPledged, Pay;
      if applied || sender != cfg.initiator || allShares < cfg.raiseShares { return false; }
      SetStatus();
      ok := PayCoin(DPOS, cfg.unit * allShares);
    }

    method CoAppendAll(sender: Address) returns (ok: bool)
      modifies this
      ensures var r := CoAppend(cfg, old(Stored()), sender);
              (ok <==> r.Some?) && (ok ==> Stored() == r.value)
    {
      hide WithPledged, Pay;
      if !applied || sender != cfg.initiator { return false; }
      var amount := cfg.unit * (allShares - pledgedShares);
      SetStatus();
      ok := PayCoin(DPOS, amount);
    }

    method OfferShares(sender: Address, to: Address, shares: nat) returns (ok: bool)
      modifies `offers
      ensures var r := Transfer(old(Stored()), sender, to, shares);
              (ok <==> r.Some?) && (ok ==> Stored() == r.value)
    {
      if sender !in cobuilders || !cobuilders[sender].pledged || shares > cobuilders[sender].share { return false; }
      if shares == 0 {
        offers := offers - {Offer(sender, to)};
      } else {
        offers := offers[Offer(sender, to) := shares];
      }
      ok := true;
    }

    method AcceptShares(sender: Address, from: Address, coins: nat, rewards: seq<nat>) returns (ok: bool)
      modifies this
      ensures var r := Accept(cfg, old(Stored()), sender, from, coins, rewards);
              (ok <==> r.Some?) && (ok ==> Stored() == r.value)
    {
      hide Rewards, Pay;
      var key := Offer(from, sender);
      if from !in cobuilders || !cobuilders[from].pledged || key !in offers { return false; }
      var shares := offers[key];
      if shares > cobuilders[from].share || cfg.unit * shares != coins { return false; }
      balance := balance + coins;
      var gain := 0;
      if cobuilders[from].share - shares == 0 {
        ok := CallExtract(rewards);
        if !ok { return; }
        if from !in cobuilders { return false; }
        gain := cobuilders[from].award;
        cobuilders := cobuilders - {from};
      } else {
        if sender in cobuilders && !cobuilders[sender].pledged { return false; }
        cobuilders := cobuilders[from := cobuilders[from].(share := cobuilders[from].share - shares)];
      }
      if sender !in cobuilders {
        cobuilders := cobuilders[sender := Cobuilder(shares, true, 0)];
      } else {
        cobuilders := cobuilders[sender := cobuilders[sender].(share := cobuilders[sender].share + shares)];
      }
      offers := offers - {key};
      ok := PayCoin(from, coins + gain);
    }

    /** The `refund` call-back: `received` and `resetStatus`. */
    method OnRefund(coins: nat)
      modifies this
      ensures Stored() == Refund(old(Stored()), coins)
    {
      balance := balance + coins;
      if disabled { return; }
      disabled, applied, pledgedShares := true, false, 0;
      cobuilders := MarkAll(cobuilders, false);
    }

    method CoExtractAwards(list: seq<Address>, rewards: seq<nat>) returns (ok: bool)
      modifies this
      ensures var r := CoExtract(cfg, old(Stored()), list, rewards);
              (ok <==> r.Some?) && (ok ==> Stored() == r.value)
    {
      hide Rewards, PayAward;
      ok := CallExtract(rewards);
      if !ok { return; }
      if |list| > 100 { return false; }
      ghost var s1 := Stored();
      var i := 0;
      while i < |list|
        invariant 0 <= i <= |list| && ok && PayAwards(s1, list[..i]) == Some(Stored())
      {
        assert list[..i + 1][..i] == list[..i];
        ok := PayAwardOf(list[i]);
        if !ok {
          AwardsStop(s1, list, i + 1);
          return;
        }
        i := i + 1;
      }
      assert list[..i] == list;
    }

    method PayAwardOf(a: Address) returns (ok: bool)
      modifies `balance, `cobuilders, `paid
      ensures var r := PayAward(old(Stored()), a);
              (ok <==> r.Some?) && (ok ==> Stored() == r.value)
    {
      if a !in cobuilders { return false; }
      var gain := cobuilders[a].award;
      cobuilders := cobuilders[a := cobuilders[a].(award := 0)];
      ok := PayCoin(a, gain);
    }

    /** `main`, with the two call-backs of the DPoS contract. */
    method Execute(sender: Address, call: Call) returns (ok: bool)
      modifies this
      ensures var r := Invoke(cfg, old(Stored()), sender, call);
              (ok <==> r.Some?) && (ok ==> Stored() == r.value)
    {
      hide Subscribe, Revoke, PledgeAll, Transfer, Accept, CoExtract, Reward, Refund;
      if disabled && !call.DoRevoke? {
        balance := balance + Coins(call);
        return true;
      }
      match call {
        case DoSubscribe(shares, coins) => ok := SubscribeShares(sender, shares, coins);
        case DoRevoke => ok := RevokeShares(sender);
        case DoApply => ok := CoApplyAll(sender);
        case DoAppend => ok := CoAppendAll(sender);
        case DoTransfer(to, count) => ok := OfferShares(sender, to, count);
        case DoAccept(from, coins, rewards) => ok := AcceptShares(sender, from, coins, rewards);
        case DoExtract(list, rewards) => ok := CoExtractAwards(list, rewards);
        case DoDisband =>
          ok := !applied && sender == cfg.initiator;
          disabled := disabled || ok;
        case OnReward(coins) => ok := OnReward(coins);
        case OnRefund(coins) =>
          OnRefund(coins);
          ok := true;
      }
    }
  }

  /** The contract on its chain: a call that throws leaves no trace. */
  class Chain {
    const cfg: Config
    var data: State

    /** The counters equal the sums over the partners, and the balance covers what they can take. */
    ghost predicate Valid()
      reads this
    {
      Covered(cfg, data)
    }

    constructor (cfg: Config, shares: nat, reserve: nat)
      ensures Valid() && this.cfg == cfg && data == Init(cfg, shares, reserve)
    {
      this.cfg, data := cfg, Init(cfg, shares, reserve);
      InitCovered(cfg, shares, reserve);
    }

    /** Every orderly call keeps `Valid()`, so that calls can follow each other without end. */
    method Perform(ev: Event)
      requires Valid()
      modifies this
      ensures data == Step(cfg, old(data), ev)
      ensures Orderly(cfg, old(data), ev.sender, ev.call) ==> Valid()
    {
      hide Invoke, Covered;
      ghost var before := data;
      var contract := new Contract.Load(cfg, data);
      var ok := contract.Execute(ev.sender, ev.call);
      if ok {
        data := contract.Stored();
        if Orderly(cfg, before, ev.sender, ev.call) { InvokeCovered(cfg, before, ev.sender, ev.call); }
      }
    }
  }

  lemma {:induction false} RewardsStop(cfg: Config, s: State, rewards: seq<nat>, i: nat)
    requires i <= |rewards| && Rewards(cfg, s, rewards[..i]).None?
    ensures Rewards(cfg, s, rewards).None?
    decreases |rewards| - i
  {
    if i == |rewards| {
      assert rewards[..i] == rewards;
    } else {
      assert rewards[..i + 1][..i] == rewards[..i];
      RewardsStop(cfg, s, rewards, i + 1);
    }
  }

  lemma {:induction false} AwardsStop(s: State, list: seq<Address>, i: nat)
    requires i <= |list| && PayAwards(s, list[..i]).None?
    ensures PayAwards(s, list).None?
    decreases |list| - i
  {
    if i == |list| {
      assert list[..i] == list;
    } else {
      assert list[..i + 1][..i] == list[..i];
      AwardsStop(s, list, i + 1);
    }
  }
}
