/** Whole runs of the DPoS contract, from `init` through any calls and block rewards. */
module DposRuns {
  import opened MapSum
  import opened Ranking
  import opened Dpos
  import opened DposSolvency
  import opened DposElection
  import opened DposStakes
  import opened DposConfig

  /** What `init` is given: the committee, the validators the chain runs on, the coins sent
      along and the balance they are part of. */
  datatype Genesis = Genesis(committee: seq<Address>, validators: seq<Candidate>, coins: nat, balance: nat, time: int)

  predicate GenesisOk(g: Genesis)
  {
    UniqueAddresses(g.validators) && g.balance >= g.coins
  }

  /** Each first validator runs a node at its own address. */
  function OwnNodes(validators: seq<Candidate>): seq<Candidate>
  {
    seq(|validators|, k requires 0 <= k < |validators| => validators[k].(data := validators[k].address))
  }

  function FirstKeys(g: Genesis): set<Key>
  {
    (set a | a in g.committee :: Key(Committee, a)) + (set a | a in Addresses(g.validators) :: Key(Validator, a))
  }

  function FirstApplication(cfg: Config, g: Genesis, key: Key): Application
  {
    var own := if key.role.Validator? then key.address else "";
    Application(0, g.time + cfg.validPeriod, true, [], own, 0, own)
  }

  /** `initialization`. */
  function Init(cfg: Config, g: Genesis): State
  {
    State(g.balance, g.coins,
          map key | key in FirstKeys(g) :: FirstApplication(cfg, g, key),
          map[], map[], map[],
          Sort(OwnNodes(g.validators)), [],
          map a | a in Addresses(g.validators) :: Share(0, a, 0), map[],
          g.committee, Data(OwnNodes(g.validators)), [])
  }

  lemma {:induction false} ZeroSum<K, V>(m: map<K, V>, f: V -> int)
    requires forall k :: k in m ==> f(m[k]) == 0
    ensures Sum(m, f) == 0
    decreases |m|
  {
    if m != map[] {
      var k :| k in m;
      SumRemove(m, f, k);
      ZeroSum(m - {k}, f);
    }
  }

  lemma InitSolvent(cfg: Config, g: Genesis)
    requires GenesisOk(g)
    ensures Solvent(Init(cfg, g))
  {
    hide Sort, OwnNodes, FirstKeys, Addresses, Data;
    var s := Init(cfg, g);
    ZeroSum(s.applications, PledgeOf);
    ZeroSum(s.valDist, RewardOf);
  }

  lemma OwnNodesAlike(vs: seq<Candidate>)
    requires UniqueAddresses(vs)
    ensures UniqueAddresses(OwnNodes(vs)) && Addresses(OwnNodes(vs)) == Addresses(vs) && |OwnNodes(vs)| == |vs|
  {
    forall a
      ensures a in Addresses(OwnNodes(vs)) <==> a in Addresses(vs)
    {
      if a in Addresses(vs) {
        var k :| 0 <= k < |vs| && vs[k].address == a;
        assert OwnNodes(vs)[k] in OwnNodes(vs);
      }
      if a in Addresses(OwnNodes(vs)) {
        var k :| 0 <= k < |vs| && OwnNodes(vs)[k].address == a;
        assert vs[k] in vs;
      }
    }
  }

  lemma SortedList(cs: seq<Candidate>, dist: Dist)
    requires UniqueAddresses(cs) && Addresses(cs) <= dist.Keys
    ensures ListOk(Sort(cs), dist) && Addresses(Sort(cs)) == Addresses(cs)
  {
    SortRanks(cs);
    SortUnique(cs);
    hide Sort, Addresses, Ranked, UniqueAddresses;
  }

  /** All first validators are on the chain's list already, so it holds those of the first places
      exactly if there are places for all. */
  lemma SortedShows(cs: seq<Candidate>, k: nat)
    requires UniqueAddresses(cs)
    ensures multiset(Data(cs)) == TopData(Sort(cs), k) <==> |cs| <= k
  {
    SortRanks(cs);
    SortData(cs);
    hide Sort, Ranked, UniqueAddresses;
    assert |multiset(Data(cs))| == |cs| && |TopData(Sort(cs), k)| == |Top(Sort(cs), k)|;
    assert |Sort(cs)| == |multiset(Sort(cs))| == |cs|;
    if |cs| <= k { assert Top(Sort(cs), k) == Sort(cs); }
  }

  lemma InitBacked(cfg: Config, g: Genesis, cs: seq<Candidate>)
    requires Addresses(cs) == Addresses(g.validators)
    ensures Backed(Init(cfg, g).applications, Validator, cs)
  {
    hide Addresses, Sort, OwnNodes, Data;
  }

  lemma NoKols(apps: map<Key, Application>, dist: Dist)
    ensures ListOk([], dist) && Backed(apps, Kol, [])
  {
  }

  lemma InitElection(cfg: Config, g: Genesis)
    requires GenesisOk(g)
    ensures ElectionOk(Init(cfg, g)) && (Current(cfg, Init(cfg, g)) <==> |g.validators| <= cfg.validatorSize)
  {
    hide OwnNodes, Sort, Data, TopData, Addresses, ListOk, Backed, FirstKeys;
    var s := Init(cfg, g);
    var own := OwnNodes(g.validators);
    OwnNodesAlike(g.validators);
    SortedList(own, s.valDist);
    SortedShows(own, cfg.validatorSize);
    InitBacked(cfg, g, s.valCands);
    NoKols(s.applications, s.kolDist);
  }

  // ---- Runs ----

  /** A run of the contract, its configuration included. A step is defined while the balance
      reaches the recorded stake; `AlwaysSolvent` shows that it always does. */
  ghost predicate IsRun(cfg: Config, g: Genesis, run: seq<World>, acts: seq<Action>)
  {
    && GenesisOk(g) && |run| == |acts| + 1 && run[0] == World(cfg, Init(cfg, g), map[])
    && forall t :: 0 <= t < |acts| && run[t].s.balance >= run[t].s.allStake ==> run[t + 1] == Proceed(run[t], acts[t])
  }

  lemma {:induction false} RunOk(cfg: Config, g: Genesis, run: seq<World>, acts: seq<Action>, t: nat)
    requires IsRun(cfg, g, run, acts) && t < |run|
    ensures WorldOk(run[t]) && run[t].s.balance >= run[t].s.allStake
    ensures t < |acts| ==> run[t + 1] == Proceed(run[t], acts[t])
  {
    hide Proceed, ElectionOk, Covers, Init, StaysCurrent;
    if t == 0 {
      InitSolvent(cfg, g);
      InitElection(cfg, g);
    } else {
      RunOk(cfg, g, run, acts, t - 1);
      ProceedOk(run[t - 1], acts[t - 1]);
    }
    CoversStake(run[t].s, 0);
  }

  /** Solvency: in every state of every run, whatever is reconfigured on the way, the balance
      covers the recorded stake, and the recorded stake covers all pledges, exits, votes and
      rewards that can still be claimed. */
  lemma AlwaysSolvent(cfg: Config, g: Genesis, run: seq<World>, acts: seq<Action>, t: nat)
    requires IsRun(cfg, g, run, acts) && t < |run|
    ensures run[t].s.balance >= run[t].s.allStake >= Owed(run[t].s) >= 0
  {
    hide Proceed, Init, ElectionOk;
    RunOk(cfg, g, run, acts, t);
    OwedNonNegative(run[t].s);
  }

  /** From t to u the number of validators is not reconfigured. */
  predicate SizeKept(run: seq<World>, t: nat, u: nat)
    requires t <= u < |run|
  {
    forall w :: t <= w <= u ==> run[w].cfg.validatorSize == run[t].cfg.validatorSize
  }

  lemma {:induction false} CurrentStays(cfg: Config, g: Genesis, run: seq<World>, acts: seq<Action>, t: nat, u: nat)
    requires IsRun(cfg, g, run, acts) && t <= u < |run| && SizeKept(run, t, u) && Current(run[t].cfg, run[t].s)
    ensures Current(run[u].cfg, run[u].s)
    decreases u - t
  {
    hide Proceed, Init, ElectionOk, Covers;
    if t < u {
      CurrentStays(cfg, g, run, acts, t, u - 1);
      RunOk(cfg, g, run, acts, u - 1);
      ProceedOk(run[u - 1], acts[u - 1]);
      assert run[u - 1].cfg.validatorSize == run[t].cfg.validatorSize == run[u].cfg.validatorSize;
    }
  }

  /** Top-k agreement. Once the nodes handed to `setValidators` are those of the first places, and
      from `init` on if it found no more validators than places, they stay so while the number of
      places is not reconfigured: they are the nodes of exactly those candidates that fewer than
      `validatorSize` others are ahead of. */
  lemma PublishedAreElected(cfg: Config, g: Genesis, run: seq<World>, acts: seq<Action>, t: nat, u: nat)
    requires IsRun(cfg, g, run, acts) && t <= u < |run| && SizeKept(run, t, u)
    requires Current(run[t].cfg, run[t].s) || (t == 0 && |g.validators| <= cfg.validatorSize)
    ensures var s, k := run[u].s, run[u].cfg.validatorSize;
            && multiset(s.published) == TopData(s.valCands, k)
            && Ranked(s.valCands) && UniqueAddresses(s.valCands)
            && forall c :: c in Top(s.valCands, k) <==> c in s.valCands && |Better(s.valCands, c)| < k
  {
    hide Proceed, Init, Covers;
    if t == 0 && |g.validators| <= cfg.validatorSize { InitElection(cfg, g); }
    RunOk(cfg, g, run, acts, u);
    CurrentStays(cfg, g, run, acts, t, u);
    var s, k := run[u].s, run[u].cfg.validatorSize;
    forall c
      ensures c in Top(s.valCands, k) <==> c in s.valCands && |Better(s.valCands, c)| < k
    {
      TopIsElected(s.valCands, k, c);
    }
  }

  // ---- Stakes ----

  /** While a candidate stays listed and the magnification is not reconfigured, its stake
      follows its pledge and the votes on it exactly. */
  lemma {:induction false} StakeFollowsRecords(
    cfg: Config, g: Genesis, run: seq<World>, acts: seq<Action>, t: nat, u: nat, role: Role, a: Address)
    requires IsRun(cfg, g, run, acts) && t <= u < |run| && !role.Committee?
    requires forall w :: t <= w <= u ==> run[w].cfg.magnification == run[t].cfg.magnification
    requires forall w :: t <= w <= u ==> Contains(Cands(run[w].s, role), a)
    ensures DriftAt(run[t].cfg, run[u].s, role, a) == DriftAt(run[t].cfg, run[t].s, role, a)
    decreases u - t
  {
    hide IsRun, DriftKept, Contains, DriftAt, Cands, UniqueAddresses;
    if t < u {
      StakeFollowsRecords(cfg, g, run, acts, t, u - 1, role, a);
      StepKeepsStakes(cfg, g, run, acts, u - 1, run[t].cfg);
      RunLists(cfg, g, run, acts, u - 1, role);
      DriftStays(run[t].cfg, run[u - 1].s, run[u].s, role, a);
    }
  }

  lemma RunLists(cfg: Config, g: Genesis, run: seq<World>, acts: seq<Action>, t: nat, role: Role)
    requires IsRun(cfg, g, run, acts) && t < |run|
    ensures UniqueAddresses(Cands(run[t].s, role))
  {
    hide IsRun, Covers;
    RunOk(cfg, g, run, acts, t);
    ListShape(run[t].s, role);
  }

  lemma StepKeepsStakes(cfg: Config, g: Genesis, run: seq<World>, acts: seq<Action>, t: nat, like: Config)
    requires IsRun(cfg, g, run, acts) && t + 1 < |run| && like.magnification == run[t].cfg.magnification
    ensures StakesKept(like, run[t].s, run[t + 1].s)
  {
    hide Proceed, Covers, Init, ElectionOk, StakesKept;
    RunOk(cfg, g, run, acts, t);
    ProceedStakes(run[t], acts[t]);
    SameMagnification(run[t].cfg, like, run[t].s, run[t + 1].s);
  }

  lemma ProceedStakes(w: World, a: Action)
    requires WorldOk(w) && w.s.balance >= w.s.allStake
    ensures StakesKept(w.cfg, w.s, Proceed(w, a).s)
  {
    hide Step, StakesKept, Covers, Shape, Carried;
    if a.Ordinary? {
      StepStakes(w.cfg, w.s, a.ev);
    } else {
      Untouched(w.cfg, w.s, w.s);
    }
  }

  /** The stakes `init` found on the chain. */
  function FirstStakes(validators: seq<Candidate>): map<Address, int>
  {
    map a | a in Addresses(validators) :: validators[Position(validators, a)].stake
  }

  lemma InitBounded(cfg: Config, g: Genesis)
    requires GenesisOk(g)
    ensures Bounded(cfg, Init(cfg, g), Validator, FirstStakes(g.validators))
  {
    var s := Init(cfg, g);
    var own := OwnNodes(g.validators);
    OwnNodesAlike(g.validators);
    SortRanks(own);
    forall c | c in s.valCands
      ensures Drift(cfg, s, Validator, c) <= FirstStakes(g.validators)[c.address] && c.address in FirstStakes(g.validators)
    {
      FirstStakeIs(g.validators, c);
      FirstBacking(cfg, g, Key(Validator, c.address));
    }
    hide Sort, OwnNodes, FirstStakes, Drift;
  }

  lemma FirstStakeIs(validators: seq<Candidate>, c: Candidate)
    requires UniqueAddresses(validators) && c in Sort(OwnNodes(validators))
    requires multiset(Sort(OwnNodes(validators))) == multiset(OwnNodes(validators))
    ensures c.address in Addresses(validators) && FirstStakes(validators)[c.address] == c.stake
  {
    hide Sort;
    assert c in multiset(OwnNodes(validators));
    var k :| 0 <= k < |validators| && OwnNodes(validators)[k] == c;
    AddressIn(validators, k);
    PositionOfMember(validators, k);
  }

  lemma FirstBacking(cfg: Config, g: Genesis, key: Key)
    ensures Backing(cfg, Init(cfg, g), key) == 0
  {
    hide Sort, OwnNodes, Data, Addresses;
    var none: map<VoteKey, int> := map[];
    assert VotesOn(none, key) == none;
  }

  /** While the magnification is not reconfigured no stake exceeds the magnified pledge plus the
      recorded votes, apart from the stakes the first validators came with. */
  lemma {:induction false} StakeBounded(cfg: Config, g: Genesis, run: seq<World>, acts: seq<Action>, t: nat)
    requires IsRun(cfg, g, run, acts) && t < |run|
    requires forall u :: 0 <= u <= t ==> run[u].cfg.magnification == cfg.magnification
    requires forall k :: 0 <= k < |g.validators| ==> g.validators[k].stake >= 0
    ensures Bounded(cfg, run[t].s, Validator, FirstStakes(g.validators)) && Bounded(cfg, run[t].s, Kol, map[])
  {
    hide Proceed, Covers, Init, Bounded, ElectionOk, FirstStakes;
    if t == 0 {
      InitBounded(cfg, g);
      NoKolsBounded(cfg, g);
    } else {
      StakeBounded(cfg, g, run, acts, t - 1);
      StepKeepsStakes(cfg, g, run, acts, t - 1, cfg);
      RunOk(cfg, g, run, acts, t);
      FirstStakesNonNegative(g.validators);
      BoundedStays(cfg, run[t - 1].s, run[t].s, Validator, FirstStakes(g.validators));
      BoundedStays(cfg, run[t - 1].s, run[t].s, Kol, map[]);
    }
  }

  lemma FirstStakesNonNegative(validators: seq<Candidate>)
    requires forall k :: 0 <= k < |validators| ==> validators[k].stake >= 0
    ensures forall a :: a in FirstStakes(validators) ==> FirstStakes(validators)[a] >= 0
  {
  }

  lemma NoKolsBounded(cfg: Config, g: Genesis)
    ensures Bounded(cfg, Init(cfg, g), Kol, map[])
  {
    hide Sort, Drift;
  }
}
