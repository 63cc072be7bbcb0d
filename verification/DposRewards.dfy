/** Who gets what: the split of a reward among the four groups, node by node, and the payments by
    which rewards leave the contract. */
module DposRewards {
  import opened MapSum
  import opened Ranking
  import opened Dpos
  import opened DposSolvency
  import opened DposElection

  // ---- Within a group ----

  /** A node's part of what its group gets: equal parts, and the remainder to the first. */
  function Piece(nodes: seq<Candidate>, amount: int, a: Address): int
  {
    if a !in Addresses(nodes) then 0
    else amount / |nodes| + (if a == nodes[0].address then amount % |nodes| else 0)
  }

  lemma {:induction false} CreditEachAt(dist: Dist, nodes: seq<Candidate>, amount: int, a: Address)
    requires Known(dist, nodes) && UniqueAddresses(nodes) && a in dist
    ensures CreditEach(dist, nodes, amount)[a]
            == dist[a].(reward := dist[a].reward + if a in Addresses(nodes) then amount else 0)
  {
    if nodes != [] {
      var before, last := nodes[..|nodes| - 1], nodes[|nodes| - 1];
      CreditEachAt(dist, before, amount, a);
      assert nodes == before + [last];
      assert Addresses(nodes) == Addresses(before) + {last.address};
      assert last.address !in Addresses(before);
    }
  }

  lemma HandoutAt(nodes: seq<Candidate>, amount: int, dist: Dist, a: Address)
    requires Known(dist, nodes) && Signed(nodes, amount) && UniqueAddresses(nodes) && a in dist
    ensures Handout(nodes, amount, dist)[a] == dist[a].(reward := dist[a].reward + Piece(nodes, amount, a))
  {
    if nodes != [] {
      CreditEachAt(dist, nodes, amount / |nodes|, a);
      AddressIn(nodes, 0);
      hide CreditEach, Addresses;
    }
  }

  // ---- Among the groups ----

  /** What the four groups get out of a reward. The part of an empty group goes to the next group
      up: from the KOLs behind the formal places to the formal KOLs, from them to the validators,
      and from the validators behind the formal places to the validators too. */
  datatype Due = Due(validators: int, valRest: int, kols: int, kolRest: int)

  function GroupsGet(cfg: Config, g: Groups, reward: nat): Due
  {
    var centi := reward / 100;
    var kols := cfg.kolShare.Floor + (if g.kolRest == [] then cfg.kolCandidateShare.Floor else 0);
    Due(centi * (cfg.validatorShare.Floor
                 + (if g.valRest == [] then cfg.validatorCandidateShare.Floor else 0)
                 + (if g.kols == [] then kols else 0)),
        centi * cfg.validatorCandidateShare.Floor,
        centi * kols,
        centi * cfg.kolCandidateShare.Floor)
  }

  lemma TimesThree(u: int, x: int, y: int, z: int)
    ensures u * (x + y + z) == u * x + u * y + u * z && u * 0 == 0
  {
  }

  lemma DueIs(cfg: Config, g: Groups, reward: nat)
    requires WholeShares(cfg)
    ensures var due := Folded(g, SplitReward(cfg, reward));
            var get := GroupsGet(cfg, g, reward);
            && due.validators == get.validators && due.valRest == get.valRest
            && due.kols == get.kols && due.kolRest == get.kolRest && due.left == reward % 100
  {
    var centi := reward / 100;
    var rest := if g.valRest == [] then cfg.validatorCandidateShare.Floor else 0;
    var kolRest := if g.kolRest == [] then cfg.kolCandidateShare.Floor else 0;
    var kols := cfg.kolShare.Floor + kolRest;
    TimesThree(centi, cfg.kolShare.Floor, kolRest, 0);
    TimesThree(centi, cfg.validatorShare.Floor, rest, if g.kols == [] then kols else 0);
  }

  predicate UniqueGroups(g: Groups)
  {
    UniqueAddresses(g.validators) && UniqueAddresses(g.valRest) && UniqueAddresses(g.kols) && UniqueAddresses(g.kolRest)
  }

  /** `calculate`, node by node: every entry grows by its node's part of what its groups get, the
      first validator's besides by what hundredths leave over, and by nothing else. */
  lemma NodesGet(cfg: Config, g: Groups, p: Pools, reward: nat, a: Address)
    requires Calculate(cfg, g, p, reward).Some? && UniqueGroups(g)
    ensures var get := GroupsGet(cfg, g, reward);
            var r := Calculate(cfg, g, p, reward).value;
            && (a in p.val ==>
                  r.val[a] == p.val[a].(reward := p.val[a].reward
                                                  + Piece(g.validators, get.validators, a) + Piece(g.valRest, get.valRest, a)
                                                  + if a == g.validators[0].address then reward % 100 else 0))
            && (a in p.kol ==>
                  r.kol[a] == p.kol[a].(reward := p.kol[a].reward
                                                  + Piece(g.kols, get.kols, a) + Piece(g.kolRest, get.kolRest, a)))
  {
    DueIs(cfg, g, reward);
    hide SplitReward, Folded, Handout, Piece, GroupsGet, UniqueAddresses;
    var due := Folded(g, SplitReward(cfg, reward));
    var kol := Handout(g.kolRest, due.kolRest, p.kol);
    var val := Handout(g.valRest, due.valRest, p.val);
    if a in p.kol {
      HandoutAt(g.kolRest, due.kolRest, p.kol, a);
      HandoutAt(g.kols, due.kols, kol, a);
    }
    if a in p.val {
      HandoutAt(g.valRest, due.valRest, p.val, a);
      HandoutAt(g.validators, due.validators, val, a);
    }
  }

  /** In total the KOLs' distribution grows by their two shares of the whole hundreds, as far as
      there is a group of them to take it, and the validators' by all the rest. */
  lemma PoolsGet(cfg: Config, g: Groups, p: Pools, reward: nat)
    requires Calculate(cfg, g, p, reward).Some?
    ensures var centi := reward / 100;
            var forKols := if g.kols == [] && g.kolRest == [] then 0
                           else if g.kols == [] then centi * cfg.kolCandidateShare.Floor
                           else centi * (cfg.kolShare.Floor + cfg.kolCandidateShare.Floor);
            var r := Calculate(cfg, g, p, reward).value;
            && Sum(r.kol, RewardOf) == Sum(p.kol, RewardOf) + forKols
            && Sum(r.val, RewardOf) == Sum(p.val, RewardOf) + reward - forKols
  {
    CalculateExact(cfg, g, p, reward);
    DueIs(cfg, g, reward);
    TimesThree(reward / 100, cfg.kolShare.Floor, cfg.kolCandidateShare.Floor, 0);
    hide SplitReward, Folded, Handout;
    var due := Folded(g, SplitReward(cfg, reward));
    HandoutExact(g.kolRest, due.kolRest, p.kol);
    HandoutExact(g.kols, due.kols, Handout(g.kolRest, due.kolRest, p.kol));
  }

  // ---- Booking ----

  function GroupsOf(cfg: Config, s: State): Groups
  {
    Groups(Top(s.valCands, cfg.validatorSize), Rest(s.valCands, cfg.validatorSize),
           Top(s.kolCands, cfg.kolSize), Rest(s.kolCands, cfg.kolSize))
  }

  lemma ListGroups(cs: seq<Candidate>, k: nat)
    requires UniqueAddresses(cs)
    ensures UniqueAddresses(Top(cs, k)) && UniqueAddresses(Rest(cs, k))
  {
  }

  /** What a booked surplus adds to the entry of an address. */
  lemma BookedAt(cfg: Config, s: State, a: Address)
    requires s.balance > s.allStake && Shape(s)
    requires var (validators, kols) := Formal(cfg, s); RewardDistribution(cfg, s, validators, kols).Some?
    ensures var (validators, kols) := Formal(cfg, s);
            var s' := RewardDistribution(cfg, s, validators, kols).value;
            var reward := s.balance - s.allStake;
            var g := GroupsOf(cfg, s);
            var get := GroupsGet(cfg, g, reward);
            && s'.valDist.Keys == s.valDist.Keys && s'.kolDist.Keys == s.kolDist.Keys && s.valCands != []
            && (a in s.valDist ==>
                  s'.valDist[a].reward == s.valDist[a].reward
                                          + Piece(g.validators, get.validators, a) + Piece(g.valRest, get.valRest, a)
                                          + if a == s.valCands[0].address then reward % 100 else 0)
            && (a in s.kolDist ==>
                  s'.kolDist[a].reward == s.kolDist[a].reward
                                          + Piece(g.kols, get.kols, a) + Piece(g.kolRest, get.kolRest, a))
  {
    ListGroups(s.valCands, cfg.validatorSize);
    ListGroups(s.kolCands, cfg.kolSize);
    hide Shape, Calculate, Piece, GroupsGet, UniqueAddresses;
    NodesGet(cfg, GroupsOf(cfg, s), Pools(s.valDist, s.kolDist), s.balance - s.allStake, a);
  }

  // ---- Paying out ----

  /** The payments that settle one entry: at a ratio of 0 all to the node, at 100 all to the voters'
      pool, in between whole hundredths to the pool and then the rest to the node. */
  function Payouts(entry: Share, a: Address): seq<Payment>
  {
    var forPool := if entry.ratio == 100 then entry.reward else entry.reward / 100 * entry.ratio;
    (if forPool == 0 then [] else [Payment(entry.pool, forPool)])
    + (if entry.reward == forPool then [] else [Payment(a, entry.reward - forPool)])
  }

  function PayoutsAt(dist: Dist, a: Address): seq<Payment>
  {
    if a in dist then Payouts(dist[a], a) else []
  }

  lemma AwardPayments(s: State, role: Role, a: Address)
    requires Solvent(s)
    ensures AwardIfAny(s, role, a).Some?
    ensures AwardIfAny(s, role, a).value.paid == s.paid + PayoutsAt(DistOf(s, role), a)
  {
    if a in DistOf(s, role) {
      RewardCovered(s, role, a);
      OldRatioOk(s, role, a);
      AwardIs(s, role, a);
      var share := DistOf(s, role)[a];
      LoggedTwice(s.paid, share.pool, Dividend(share), a, share.reward - Dividend(share));
      hide Award, Settled, Covers;
    }
  }

  lemma LoggedTwice(paid: seq<Payment>, pool: Address, x: int, a: Address, y: int)
    ensures Logged(Logged(paid, pool, x), a, y)
            == paid + ((if x == 0 then [] else [Payment(pool, x)]) + (if y == 0 then [] else [Payment(a, y)]))
  {
  }

  /** Each listed address once, in the order of the list, first as a validator and then as a KOL. */
  function AllPayouts(val: Dist, kol: Dist, list: seq<Address>): seq<Payment>
  {
    if list == [] then []
    else
      var before, a := list[..|list| - 1], list[|list| - 1];
      AllPayouts(val, kol, before) + (if a in before then [] else PayoutsAt(val, a) + PayoutsAt(kol, a))
  }

  lemma PaidAlready(dist: Dist, a: Address)
    requires a in dist ==> dist[a].reward == 0
    ensures PayoutsAt(dist, a) == []
  {
    if a in dist { assert 0 / 100 * dist[a].ratio == 0; }
  }
}
