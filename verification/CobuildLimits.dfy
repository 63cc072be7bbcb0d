/** Two runs that show what the co-build contract does not guard against. */
module CobuildLimits {
  import opened Cobuild

  /** Carol subscribes one share, and Alice, who came with n, applies. */
  function Started(cfg: Config, n: nat, reserve: nat): State
  {
    State(reserve, false, true, n + 1, n + 1,
          map["alice" := Cobuilder(n, true, 0), "carol" := Cobuilder(1, true, 0)], map[],
          Paying([], DPOS, cfg.unit * (n + 1)))
  }

  function CarolJoins(unit: nat): Event { Event("carol", DoSubscribe(1, unit)) }

  const ALICE_APPLIES := Event("alice", DoApply)

  lemma Starts(cfg: Config, n: nat, reserve: nat)
    requires cfg.initiator == "alice" && cfg.raiseShares <= n + 1
    ensures Step(cfg, Step(cfg, Init(cfg, n, reserve), CarolJoins(cfg.unit)), ALICE_APPLIES) == Started(cfg, n, reserve)
  {
    var s0 := Init(cfg, n, reserve);
    var s1 := Step(cfg, s0, CarolJoins(cfg.unit));
    TimesSum(cfg.unit, n, 1);
    assert s1.cobuilders == map["alice" := Cobuilder(n, false, 0), "carol" := Cobuilder(1, false, 0)];
    assert WithPledged(s1.cobuilders, true) == Started(cfg, n, reserve).cobuilders;
  }

  // ---- The initiator may leave ----

  function AliceOffers(n: nat): Event { Event("alice", DoTransfer("carol", n)) }

  function CarolAccepts(coins: nat): Event { Event("carol", DoAccept("alice", coins, [])) }

  function AliceGone(cfg: Config, n: nat, reserve: nat): State
  {
    State(reserve, false, true, n + 1, n + 1, map["carol" := Cobuilder(n + 1, true, 0)], map[],
          Paying(Paying([], DPOS, cfg.unit * (n + 1)), "alice", cfg.unit * n))
  }

  lemma AliceLeaves(cfg: Config, n: nat, reserve: nat)
    requires cfg.initiator == "alice" && n > 0
    ensures var s3 := Step(cfg, Started(cfg, n, reserve), AliceOffers(n));
            && Orderly(cfg, s3, "carol", CarolAccepts(cfg.unit * n).call)
            && Step(cfg, s3, CarolAccepts(cfg.unit * n)) == AliceGone(cfg, n, reserve)
  {
    var s2 := Started(cfg, n, reserve);
    var s3 := Step(cfg, s2, AliceOffers(n));
    assert s3 == s2.(offers := map[Offer("alice", "carol") := n]);
    hide Paying;
    assert s3.cobuilders - {"alice"} == map["carol" := Cobuilder(1, true, 0)];
    assert TakeShares(s3.cobuilders - {"alice"}, "carol", n) == map["carol" := Cobuilder(n + 1, true, 0)];
    assert s3.offers - {Offer("alice", "carol")} == map[];
  }

  /** An orderly run after which rewards are refused: Alice, the initiator, hands over her whole
      stake. Every `reward` call-back throws, and with it every `coExtract` while one is pending. */
  lemma InitiatorMayLeave(cfg: Config, n: nat, reserve: nat)
    requires cfg.initiator == "alice" && n > 0 && cfg.raiseShares <= n + 1
    ensures var s0 := Init(cfg, n, reserve);
            var s1 := Step(cfg, s0, CarolJoins(cfg.unit));
            var s2 := Step(cfg, s1, ALICE_APPLIES);
            var s3 := Step(cfg, s2, AliceOffers(n));
            var s4 := Step(cfg, s3, CarolAccepts(cfg.unit * n));
            && IsRun(cfg, n, reserve, [s0, s1, s2, s3, s4],
                     [CarolJoins(cfg.unit), ALICE_APPLIES, AliceOffers(n), CarolAccepts(cfg.unit * n)])
            && s4 == AliceGone(cfg, n, reserve)
            && (forall reward :: Reward(cfg, s4, reward).None?)
            && (forall list, rewards :: rewards != [] ==> CoExtract(cfg, s4, list, rewards).None?)
  {
    Starts(cfg, n, reserve);
    AliceLeaves(cfg, n, reserve);
    hide Started, Init, Step, Rewards;
    forall list: seq<Address>, rewards: seq<nat> | rewards != []
      ensures CoExtract(cfg, AliceGone(cfg, n, reserve), list, rewards).None?
    {
      RewardsTakenIn(cfg, AliceGone(cfg, n, reserve), rewards);
    }
  }

  // ---- Mixed shares ----

  const BOB_JOINS := Event("bob", DoSubscribe(1, 1))
  const CAROL_OFFERS := Event("carol", DoTransfer("bob", 1))
  const BOB_ACCEPTS := Event("bob", DoAccept("carol", 1, []))

  /** Bob subscribed after Alice and Carol pledged, and Carol offers him her whole stake. */
  function Offered(): State
  {
    State(1, false, true, 4, 3,
          map["alice" := Cobuilder(2, true, 0), "carol" := Cobuilder(1, true, 0), "bob" := Cobuilder(1, false, 0)],
          map[Offer("carol", "bob") := 1], [Payment(DPOS, 3)])
  }

  lemma Offers(cfg: Config)
    requires cfg.initiator == "alice" && cfg.unit == 1
    ensures Step(cfg, Step(cfg, Started(cfg, 2, 0), BOB_JOINS), CAROL_OFFERS) == Offered()
  {
    var s2 := Started(cfg, 2, 0);
    assert s2.paid == [Payment(DPOS, 3)];
    hide Paying;
    var s3 := Step(cfg, s2, BOB_JOINS);
    assert s3.cobuilders == Offered().cobuilders;
    assert s3 == Offered().(offers := map[]);
  }

  lemma MixedAccepted(cfg: Config)
    requires cfg.unit == 1
    ensures var r := Accept(cfg, Offered(), "bob", "carol", 1, []);
            && r.Some? && r.value.pledgedShares == 3 && !r.value.disabled
            && r.value.cobuilders == map["alice" := Cobuilder(2, true, 0), "bob" := Cobuilder(2, false, 0)]
  {
    var r := Accept(cfg, Offered(), "bob", "carol", 1, []);
    assert r.value.cobuilders == map["alice" := Cobuilder(2, true, 0), "bob" := Cobuilder(2, false, 0)];
  }

  lemma MixedReward(cfg: Config, s: State)
    requires cfg.initiator == "alice" && !s.disabled && s.pledgedShares == 3
    requires s.cobuilders == map["alice" := Cobuilder(2, true, 0), "bob" := Cobuilder(2, false, 0)]
    ensures var r := Reward(cfg, s, 3);
            r.Some? && r.value.cobuilders == map["alice" := Cobuilder(2, true, 2), "bob" := Cobuilder(2, false, 0)]
  {
    assert EarnedAll(s.cobuilders, 1) == map["alice" := Cobuilder(2, true, 2), "bob" := Cobuilder(2, false, 0)];
  }

  /** A run from `init`, orderly up to its last call, in which Bob accepts a whole stake while he
      holds unpledged shares. The counters are wrong from then on, and the next reward of 3
      credits 2: a unit per counted share, of which only two are still held as pledged. */
  lemma MixedSharesMiscount(cfg: Config)
    requires cfg.initiator == "alice" && cfg.unit == 1 && cfg.raiseShares <= 3
    ensures var s0 := Init(cfg, 2, 0);
            var s1 := Step(cfg, s0, CarolJoins(1));
            var s2 := Step(cfg, s1, ALICE_APPLIES);
            var s3 := Step(cfg, s2, BOB_JOINS);
            var s4 := Step(cfg, s3, CAROL_OFFERS);
            var r := Invoke(cfg, s4, "bob", BOB_ACCEPTS.call);
            && IsRun(cfg, 2, 0, [s0, s1, s2, s3, s4], [CarolJoins(1), ALICE_APPLIES, BOB_JOINS, CAROL_OFFERS])
            && Covered(cfg, s4) && r.Some? && !Counted(r.value)
            && Reward(cfg, r.value, 3).Some?
            && Reward(cfg, r.value, 3).value.cobuilders
               == map["alice" := Cobuilder(2, true, 2), "bob" := Cobuilder(2, false, 0)]
  {
    hide Accept, Counted, Holds, Distribute, Step, Init, Started;
    Starts(cfg, 2, 0);
    Offers(cfg);
    var s0 := Init(cfg, 2, 0);
    var s1 := Step(cfg, s0, CarolJoins(1));
    var s2 := Step(cfg, s1, ALICE_APPLIES);
    var s3 := Step(cfg, s2, BOB_JOINS);
    AlwaysCovered(cfg, 2, 0, [s0, s1, s2, s3, Offered()], [CarolJoins(1), ALICE_APPLIES, BOB_JOINS, CAROL_OFFERS], 4);
    MixedAccepted(cfg);
    WholeAccepted(cfg, Offered(), "bob", "carol", 1, []);
    MixedReward(cfg, Accept(cfg, Offered(), "bob", "carol", 1, []).value);
  }
}
