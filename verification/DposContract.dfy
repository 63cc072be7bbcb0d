/** The DPoS contract as it runs: fields updated in place, loops over the groups that share a
    reward, and every method tied to what `Dpos` says the call does. */
module DposContract {
  import opened Options
  import opened Ranking
  import opened Dpos

  /** `distribute`: credits each node in turn. Reports whether there was anyone to credit, and
      throws on a negative amount and on a node without an entry. */
  method CreditShares(nodes: seq<Candidate>, reward: int, dist: Dist) returns (thrown: bool, done: bool, r: Dist)
    ensures thrown <==> !Known(dist, nodes) || !Signed(nodes, reward)
    ensures !thrown ==> done == (nodes != []) && r == Handout(nodes, reward, dist)
  {
    thrown, done, r := false, false, dist;
    if |nodes| == 0 {
      return;
    }
    if reward < 0 {
      thrown := true;
      return;
    }
    var each := reward / |nodes|;
    var i := 0;
    while i < |nodes|
      invariant 0 <= i <= |nodes| && !thrown
      invariant Known(dist, nodes[..i]) && r == CreditEach(dist, nodes[..i], each)
    {
      if nodes[i].address !in r {
        thrown := true;
        return;
      }
      r := Credit(r, nodes[i].address, each);
      i := i + 1;
      assert nodes[..i][..|nodes[..i]| - 1] == nodes[..i - 1];
    }
    assert nodes[..i] == nodes;
    r := Credit(r, nodes[0].address, reward % |nodes|);
    done := true;
  }

  /** Candidates first, then the formal places, which also get the part of an empty candidate
      group; `left` is what nobody took. */
  method CreditGroups(rest: seq<Candidate>, restReward: int, formal: seq<Candidate>, formalReward: int, dist: Dist)
    returns (thrown: bool, left: int, r: Dist)
    ensures var total := formalReward + (if rest == [] then restReward else 0);
            && (thrown <==> !Known(dist, rest) || !Known(dist, formal) || !Signed(rest, restReward) || !Signed(formal, total))
            && (!thrown ==> left == (if formal == [] then total else 0)
                            && r == Handout(formal, total, Handout(rest, restReward, dist)))
  {
    hide Handout;
    var done, first;
    left, r := 0, dist;
    thrown, done, first := CreditShares(rest, restReward, dist);
    if thrown { return; }
    var total := if done then formalReward else formalReward + restReward;
    thrown, done, r := CreditShares(formal, total, first);
    if !thrown && !done {
      left := total;
    }
  }

  class Contract {
    const cfg: Config
    var balance: int
    var allStake: int
    var applications: map<Key, Application>
    var exits: map<Key, Exit>
    var abolitions: map<Key, Abolition>
    var votes: map<VoteKey, int>
    var valCands: seq<Candidate>
    var kolCands: seq<Candidate>
    var valDist: Dist
    var kolDist: Dist
    var committee: seq<Address>
    var published: seq<Address>
    var paid: seq<Payment>

    /** The formal places of the two lists as `electInit` found them. */
    var validators: seq<Candidate>
    var kols: seq<Candidate>

    function Stored(): State
      reads this
    {
      State(balance, allStake, applications, exits, abolitions, votes, valCands, kolCands, valDist, kolDist,
            committee, published, paid)
    }

    constructor (cfg: Config, s: State)
      ensures Stored() == s && this.cfg == cfg
    {
      this.cfg := cfg;
      balance, allStake, applications, exits := s.balance, s.allStake, s.applications, s.exits;
      abolitions, votes := s.abolitions, s.votes;
      valCands, kolCands, valDist, kolDist := s.valCands, s.kolCands, s.valDist, s.kolDist;
      committee, published, paid := s.committee, s.published, s.paid;
      validators, kols := [], [];
    }

    method TransferCoin(to: Address, amount: int) returns (ok: bool)
      modifies `balance, `allStake, `paid
      ensures ok <==> Transfer(old(Stored()), to, amount).Some?
      ensures ok ==> Stored() == Transfer(old(Stored()), to, amount).value
    {
      if amount == 0 {
        return true;
      }
      allStake := allStake - amount;
      if amount < 0 || amount > balance {
        return false;
      }
      balance := balance - amount;
      paid := paid + [Payment(to, amount)];
      ok := true;
    }

    method ElectInit()
      modifies `validators, `kols
      ensures (validators, kols) == Formal(cfg, Stored())
    {
      validators := if |valCands| <= cfg.validatorSize then valCands else valCands[..cfg.validatorSize];
      kols := if |kolCands| <= cfg.kolSize then kolCands else kolCands[..cfg.kolSize];
    }

    method CalculateShares(reward: nat) returns (ok: bool)
      modifies `valDist, `kolDist
      ensures var g := Groups(validators, Rest(valCands, cfg.validatorSize), kols, Rest(kolCands, cfg.kolSize));
              var r := Calculate(cfg, g, Pools(old(valDist), old(kolDist)), reward);
              (ok <==> r.Some?) && (ok ==> Pools(valDist, kolDist) == r.value)
    {
      hide SplitReward, Handout, Credit, Rest;
      if !WholeShares(cfg) { return false; }
      var part := SplitReward(cfg, reward);
      var thrown, kolLeft, kol := CreditGroups(Rest(kolCands, cfg.kolSize), part.kolRest, kols, part.kols, kolDist);
      if thrown { return false; }
      var valLeft, val;
      thrown, valLeft, val :=
        CreditGroups(Rest(valCands, cfg.validatorSize), part.valRest, validators, part.validators + kolLeft, valDist);
      if thrown || |validators| == 0 { return false; }
      kolDist, valDist := kol, Credit(val, validators[0].address, part.left);
      ok := true;
    }

    method SettleRewards() returns (ok: bool)
      requires balance >= allStake
      modifies `valDist, `kolDist, `allStake
      ensures var r := RewardDistribution(cfg, old(Stored()), validators, kols);
              (ok <==> r.Some?) && (ok ==> Stored() == r.value)
    {
      hide Calculate;
      var reward := balance - allStake;
      if reward == 0 {
        return true;
      }
      ok := CalculateShares(reward);
      allStake := balance;
    }

    method SaveCands(role: Role, cs: seq<Candidate>)
      modifies `valCands, `kolCands
      ensures Stored() == WithCands(old(Stored()), role, cs)
    {
      if role.Validator? { valCands := cs; } else { kolCands := cs; }
    }

    method SaveDist(role: Role, dist: Dist)
      modifies `valDist, `kolDist
      ensures Stored() == WithDist(old(Stored()), role, dist)
    {
      if role.Validator? { valDist := dist; } else { kolDist := dist; }
    }

    /** `updateValidators`: the node addresses of the first places, handed to `setValidators`. */
    method UpdateValidators()
      modifies `published
      ensures Stored() == Publish(cfg, old(Stored()))
    {
      var top := if |valCands| <= cfg.validatorSize then valCands else valCands[..cfg.validatorSize];
      var list := [];
      var i := 0;
      while i < |top|
        invariant 0 <= i <= |top| && list == Data(top[..i])
      {
        list := list + [top[i].data];
        i := i + 1;
        assert top[..i] == top[..i - 1] + [top[i - 1]];
      }
      assert top[..i] == top;
      published := list;
    }

    /** Whether a listed validator runs that node already. */
    method FindNode(node: Address) returns (taken: bool)
      ensures taken <==> NodeTaken(valCands, node)
    {
      var i := 0;
      while i < |valCands|
        invariant 0 <= i <= |valCands| && forall k :: 0 <= k < i ==> valCands[k].data != node
      {
        if valCands[i].data == node {
          return true;
        }
        i := i + 1;
      }
      taken := false;
    }

    method AddCandidates(role: Role, address: Address, a: Application) returns (ok: bool)
      requires balance >= allStake && (validators, kols) == Formal(cfg, Stored())
      modifies this
      ensures var r := AddCandidate(cfg, old(Stored()), role, address, a);
              (ok <==> r.Some?) && (ok ==> Stored() == r.value)
    {
      hide RewardDistribution, Sort, Position, Publish, NodeTaken;
      var cs := Cands(Stored(), role);
      var stake := a.pledge * cfg.magnification;
      var size := CandidateSize(cfg, role);
      if |cs| >= size && (cs == [] || stake <= cs[|cs| - 1].stake) {
        return true;
      }
      ok := SettleRewards();
      if !ok { return; }
      if role.Validator? {
        var taken := FindNode(a.node);
        if taken { return false; }
      }
      var dist := DistOf(Stored(), role);
      if address !in dist {
        SaveDist(role, dist[address := Share(0, a.pool, a.ratio)]);
      }
      var sorted := Sort(cs + [Entry(address, stake, if role.Validator? then a.node else "")]);
      if |sorted| > size {
        sorted := sorted[..size];
      }
      SaveAndPublish(role, sorted, address);
    }

    method SaveAndPublish(role: Role, sorted: seq<Candidate>, address: Address)
      modifies `valCands, `kolCands, `published
      ensures var s := WithCands(old(Stored()), role, sorted);
              var p := Position(sorted, address);
              Stored() == if role.Validator? && (p < cfg.validatorSize || p == |sorted|) then Publish(cfg, s) else s
    {
      hide Position, Publish;
      SaveCands(role, sorted);
      var p := Find(sorted, address);
      if role.Validator? && (p < cfg.validatorSize || p == |sorted|) {
        UpdateValidators();
      }
    }

    method DeleteCandidate(role: Role, address: Address) returns (ok: bool)
      requires balance >= allStake && (validators, kols) == Formal(cfg, Stored())
      modifies this
      ensures var r := Dpos.DeleteCandidate(cfg, old(Stored()), role, address);
              (ok <==> r.Some?) && (ok ==> Stored() == r.value)
    {
      hide RewardDistribution, Sort, Position, Publish;
      var cs := Cands(Stored(), role);
      var p := Find(cs, address);
      if p == |cs| {
        return true;
      }
      ok := SettleRewards();
      if !ok { return; }
      SaveCands(role, Sort(Without(cs, p)));
      if role.Validator? && p < cfg.validatorSize {
        UpdateValidators();
      }
    }

    method UpdateStake(role: Role, p: nat, amount: int) returns (ok: bool)
      requires balance >= allStake && (validators, kols) == Formal(cfg, Stored()) && p < |Cands(Stored(), role)|
      modifies this
      ensures var r := Dpos.UpdateStake(cfg, old(Stored()), role, p, amount);
              (ok <==> r.Some?) && (ok ==> Stored() == r.value)
    {
      hide RewardDistribution, Sort, Position, Publish;
      var cs := Cands(Stored(), role);
      var c := cs[p].(stake := cs[p].stake + amount);
      var sorted := Sort(cs[p := c]);
      var q := Find(sorted, c.address);
      SaveCands(role, sorted);
      var k := FormalSize(cfg, role);
      ok := true;
      if (p >= k && q < k) || (p < k && q >= k) {
        ok := SettleRewards();
        if ok && role.Validator? {
          UpdateValidators();
        }
      }
    }

    method Award(role: Role, address: Address) returns (ok: bool)
      requires address in DistOf(Stored(), role)
      modifies this
      ensures var r := Dpos.Award(old(Stored()), role, address);
              (ok <==> r.Some?) && (ok ==> Stored() == r.value)
    {
      hide Transfer, Position, Dividend, Logged;
      var share := DistOf(Stored(), role)[address];
      var dividend := Dividend(share);
      ok := TransferCoin(share.pool, dividend);
      if !ok { return; }
      ok := TransferCoin(address, share.reward - dividend);
      if !ok { return; }
      var p := Find(Cands(Stored(), role), address);
      var dist := DistOf(Stored(), role);
      SaveDist(role, if p < |Cands(Stored(), role)| then dist[address := share.(reward := 0)] else dist - {address});
    }

    method AwardEach(list: seq<Address>) returns (ok: bool)
      modifies this
      ensures var r := AwardAll(old(Stored()), list);
              (ok <==> r.Some?) && (ok ==> Stored() == r.value)
    {
      hide Dpos.Award;
      ok := true;
      var i := 0;
      while i < |list|
        invariant 0 <= i <= |list| && ok && AwardAll(old(Stored()), list[..i]) == Some(Stored())
      {
        assert list[..i + 1][..i] == list[..i];
        if list[i] in valDist {
          ok := Award(Validator, list[i]);
          if !ok { AwardStops(old(Stored()), list, i + 1); return; }
        }
        if list[i] in kolDist {
          ok := Award(Kol, list[i]);
          if !ok { AwardStops(old(Stored()), list, i + 1); return; }
        }
        i := i + 1;
      }
      assert list[..i] == list;
    }

    // ---- The calls ----

    method Extract(m: Msg, list: seq<Address>) returns (ok: bool)
      requires balance >= allStake
      modifies this
      ensures var r := DoExtract(cfg, old(Stored()), m, list);
              (ok <==> r.Some?) && (ok ==> Stored() == r.value)
    {
      hide RewardDistribution, AwardAll;
      if |list| > 100 { return false; }
      ElectInit();
      ok := SettleRewards();
      if ok {
        ok := AwardEach(list);
      }
    }

    method Apply(m: Msg, role: Role, pool: Address, ratio: int, node: Address) returns (ok: bool)
      modifies `applications
      ensures var r := DoApply(cfg, old(Stored()), m, role, pool, ratio, node);
              (ok <==> r.Some?) && (ok ==> Stored() == r.value)
    {
      hide NodeTaken;
      var key := Key(role, m.sender);
      if key in applications { return false; }
      match role {
        case Validator => if m.amount < cfg.validatorMinPledge { return false; }
        case Kol => if m.amount < cfg.kolMinPledge { return false; }
        case Committee => if m.amount != 0 { return false; }
      }
      if !role.Committee? {
        if !m.wellFormed || !(0 <= ratio <= 100) { return false; }
        if role.Validator? {
          var taken := FindNode(node);
          if taken { return false; }
        }
      }
      applications := applications[key := Application(m.amount, m.time + cfg.validPeriod, false, [], pool, ratio, node)];
      ok := true;
    }

    method Append(m: Msg, role: Role) returns (ok: bool)
      requires balance >= allStake
      modifies this
      ensures var r := DoAppend(cfg, old(Stored()), m, role);
              (ok <==> r.Some?) && (ok ==> Stored() == r.value)
    {
      hide AddCandidate, Dpos.UpdateStake, Position, Top;
      var key := Key(role, m.sender);
      if key !in applications { return false; }
      var a := applications[key];
      if !(m.time < a.expiration || a.passed) || m.amount % cfg.voteUnit != 0 { return false; }
      a := a.(pledge := a.pledge + m.amount);
      applications := applications[key := a];
      if !a.passed { return true; }
      if role.Committee? { return false; }
      ElectInit();
      var p := Find(Cands(Stored(), role), m.sender);
      if p == |Cands(Stored(), role)| {
        ok := AddCandidates(role, m.sender, a);
      } else {
        ok := UpdateStake(role, p, m.amount * cfg.magnification);
      }
    }

    method Vote(m: Msg, role: Role, address: Address) returns (ok: bool)
      requires balance >= allStake
      modifies this
      ensures var r := DoVote(cfg, old(Stored()), m, role, address);
              (ok <==> r.Some?) && (ok ==> Stored() == r.value)
    {
      hide Dpos.UpdateStake, Position, Top;
      if role.Committee? || !m.wellFormed || m.amount % cfg.voteUnit != 0 { return false; }
      var key := VoteKey(m.sender, role, address);
      if key in votes {
        votes := votes[key := votes[key] + m.amount];
      } else {
        votes := votes[key := m.amount];
      }
      ElectInit();
      var p := Find(Cands(Stored(), role), address);
      if p == |Cands(Stored(), role)| { return false; }
      ok := UpdateStake(role, p, m.amount);
    }

    method UnVote(m: Msg, role: Role, address: Address) returns (ok: bool)
      requires balance >= allStake
      modifies this
      ensures var r := DoUnVote(cfg, old(Stored()), m, role, address);
              (ok <==> r.Some?) && (ok ==> Stored() == r.value)
    {
      hide Dpos.UpdateStake, Position, Top, Transfer;
      var key := VoteKey(m.sender, role, address);
      if role.Committee? || !m.wellFormed || key !in votes { return false; }
      var amount := votes[key];
      votes := votes - {key};
      ok := TransferCoin(m.sender, amount);
      if !ok { return; }
      ElectInit();
      var p := Find(Cands(Stored(), role), address);
      if p == |Cands(Stored(), role)| { return true; }
      ok := UpdateStake(role, p, -amount);
    }

    method LeaveCommittee(m: Msg) returns (ok: bool)
      requires balance >= allStake
      modifies `applications, `committee
      ensures var r := DoWithdraw(cfg, old(Stored()), m, Committee);
              (ok <==> r.Some?) && (ok ==> Stored() == r.value)
    {
      hide RemoveFirst;
      if m.sender !in committee || |committee| < 2 { return false; }
      applications := applications - {Key(Committee, m.sender)};
      committee := RemoveFirst(committee, m.sender);
      ok := true;
    }

    method Withdraw(m: Msg, role: Role) returns (ok: bool)
      requires balance >= allStake
      modifies this
      ensures var r := DoWithdraw(cfg, old(Stored()), m, role);
              (ok <==> r.Some?) && (ok ==> Stored() == r.value)
    {
      hide Dpos.DeleteCandidate, Top, Transfer, RemoveFirst;
      var key := Key(role, m.sender);
      if role.Committee? {
        ok := LeaveCommittee(m);
        return;
      }
      if key in exits {
        var e := exits[key];
        if m.time < e.expiration { return false; }
        exits := exits - {key};
        ok := TransferCoin(m.sender, e.pledge);
        return;
      }
      if key !in applications { return false; }
      var a := applications[key];
      applications := applications - {key};
      if !a.passed {
        ok := TransferCoin(m.sender, a.pledge);
        return;
      }
      ok := LeaveList(key, Exit(a.pledge, m.time + cfg.validPeriod));
    }

    method LeaveList(key: Key, e: Exit) returns (ok: bool)
      requires balance >= allStake
      modifies this
      ensures var r := Dpos.DeleteCandidate(cfg, old(Stored()), key.role, key.address);
              (ok <==> r.Some?) && (ok ==> Stored() == r.value.(exits := r.value.exits[key := e]))
    {
      hide Dpos.DeleteCandidate, Top;
      ElectInit();
      ok := DeleteCandidate(key.role, key.address);
      exits := exits[key := e];
    }

    /** `passIn`. */
    method PassIn(key: Key, a: Application) returns (ok: bool)
      requires balance >= allStake
      modifies this
      ensures var s := old(Stored());
              var s1 := s.(applications := s.applications[key := a.(passed := true)]);
              if key.role.Committee?
              then && ok
                   && Stored() == if |s.committee| < cfg.committeeSize then s1.(committee := s.committee + [key.address])
                                  else s1
              else var r := AddCandidate(cfg, s1, key.role, key.address, a);
                   (ok <==> r.Some?) && (ok ==> Stored() == r.value)
    {
      hide AddCandidate, Top;
      applications := applications[key := a.(passed := true)];
      if key.role.Committee? {
        if |committee| < cfg.committeeSize { committee := committee + [key.address]; }
        ok := true;
      } else {
        ElectInit();
        ok := AddCandidates(key.role, key.address, a);
      }
    }

    /** `passOut`, with `penalty`. */
    method PassOut(key: Key) returns (ok: bool)
      requires balance >= allStake
      modifies this
      ensures var s := old(Stored());
              var s1 := s.(abolitions := s.abolitions - {key});
              if key.role.Committee?
              then (ok <==> key.address in s.committee)
                   && (ok ==> Stored() == s1.(committee := RemoveFirst(s.committee, key.address)))
              else var d := Dpos.DeleteCandidate(cfg, s1, key.role, key.address);
                   (ok <==> d.Some? && Penalty(d.value, key).Some?) && (ok ==> Stored() == Penalty(d.value, key).value)
    {
      hide Dpos.DeleteCandidate, Top, RemoveFirst;
      abolitions := abolitions - {key};
      if key.role.Committee? {
        if key.address !in committee { return false; }
        committee := RemoveFirst(committee, key.address);
        return true;
      }
      ElectInit();
      ok := DeleteCandidate(key.role, key.address);
      if !ok { return; }
      if key in applications {
        applications := applications - {key};
      } else if key in exits {
        exits := exits - {key};
      } else {
        ok := false;
      }
    }

    method Approve(m: Msg, motion: Motion, role: Role, address: Address) returns (ok: bool)
      requires balance >= allStake
      modifies this
      ensures var r := DoApprove(cfg, old(Stored()), m, motion, role, address);
              (ok <==> r.Some?) && (ok ==> Stored() == r.value)
    {
      hide AddCandidate, Dpos.DeleteCandidate, Penalty, RemoveFirst, Carried;
      var key := Key(role, address);
      if !m.wellFormed || m.sender !in committee || motion.ToWithdraw? { return false; }
      if motion.ToApply? {
        if key !in applications || applications[key].passed { return false; }
        var a := applications[key];
        if m.time >= a.expiration { return true; }
        if m.sender in a.ballot { return false; }
        a := a.(ballot := a.ballot + [m.sender]);
        if !Carried(cfg, Stored(), |a.ballot|) {
          applications := applications[key := a];
          return true;
        }
        ok := PassIn(key, a);
      } else {
        if key !in abolitions { return false; }
        var b := abolitions[key];
        if m.time >= b.expiration { return true; }
        if m.sender in b.ballot { return false; }
        b := b.(ballot := b.ballot + [m.sender]);
        if !Carried(cfg, Stored(), |b.ballot|) {
          abolitions := abolitions[key := b];
          return true;
        }
        ok := PassOut(key);
      }
    }

    method Abolish(m: Msg, role: Role, address: Address) returns (ok: bool)
      modifies `abolitions
      ensures var r := DoAbolish(cfg, old(Stored()), m, role, address);
              (ok <==> r.Some?) && (ok ==> Stored() == r.value)
    {
      hide MayReport;
      var key := Key(role, address);
      if !MayReport(cfg, Stored(), role, m.sender) || !m.wellFormed || key !in applications || !applications[key].passed {
        return false;
      }
      if key !in abolitions {
        abolitions := abolitions[key := Abolition(m.time + cfg.validPeriod, if role.Committee? then [m.sender] else [])];
      }
      abolitions := abolitions[key := abolitions[key].(expiration := m.time + cfg.validPeriod)];
      ok := true;
    }

    method SetNodeAddress(m: Msg, node: Address) returns (ok: bool)
      modifies `applications, `valCands, `published
      ensures var r := DoSetNodeAddress(cfg, old(Stored()), m, node);
              (ok <==> r.Some?) && (ok ==> Stored() == r.value)
    {
      hide NodeTaken, Position, Publish;
      var taken := FindNode(node);
      var key := Key(Validator, m.sender);
      if !m.wellFormed || taken || key !in applications { return false; }
      applications := applications[key := applications[key].(node := node)];
      var p := Find(valCands, m.sender);
      if p < |valCands| {
        valCands := valCands[p := valCands[p].(data := node)];
        if p < cfg.validatorSize {
          UpdateValidators();
        }
      }
      ok := true;
    }

    method SetVoteDividend(m: Msg, role: Role, pool: Option<Address>, ratio: Option<int>) returns (ok: bool)
      modifies `applications, `valDist, `kolDist
      ensures var r := DoSetVoteDividend(old(Stored()), m, role, pool, ratio);
              (ok <==> r.Some?) && (ok ==> Stored() == r.value)
    {
      var key := Key(role, m.sender);
      if key !in applications || !m.wellFormed || (ratio.Some? && !(0 <= ratio.value <= 100)) { return false; }
      var a := applications[key];
      var dist := DistOf(Stored(), role);
      if pool.Some? {
        a := a.(pool := pool.value);
        if m.sender in dist { dist := dist[m.sender := dist[m.sender].(pool := pool.value)]; }
      }
      if ratio.Some? {
        a := a.(ratio := ratio.value);
        if m.sender in dist { dist := dist[m.sender := dist[m.sender].(ratio := ratio.value)]; }
      }
      applications := applications[key := a];
      SaveDist(role, dist);
      ok := true;
    }

    method Clean(m: Msg, motion: Motion, role: Role, address: Address) returns (ok: bool)
      modifies `applications, `exits, `abolitions, `balance, `allStake, `paid
      ensures var r := DoClean(old(Stored()), m, motion, role, address);
              (ok <==> r.Some?) && (ok ==> Stored() == r.value)
    {
      hide Transfer;
      var key := Key(role, address);
      if !m.wellFormed { return false; }
      match motion {
        case ToApply =>
          if key !in applications || m.time < applications[key].expiration || applications[key].passed { return false; }
          var pledge := applications[key].pledge;
          applications := applications - {key};
          ok := TransferCoin(address, pledge);
        case ToWithdraw =>
          if key !in exits || m.time < exits[key].expiration { return false; }
          var pledge := exits[key].pledge;
          exits := exits - {key};
          ok := TransferCoin(address, pledge);
        case ToAbolish =>
          if key !in abolitions || m.time < abolitions[key].expiration { return false; }
          abolitions := abolitions - {key};
          ok := true;
      }
    }

    /** `main`. The coins sent along arrive first; a call that throws is rolled back by the chain. */
    method Execute(m: Msg, call: Call) returns (ok: bool)
      requires balance >= allStake
      modifies this
      ensures var r := Dispatch(cfg, old(Stored()), m, call);
              (ok <==> r.Some?) && (ok ==> Stored() == r.value)
    {
      hide DoApply, DoAppend, DoApprove, DoVote, DoUnVote, DoAbolish, DoWithdraw, DoExtract,
           DoSetNodeAddress, DoSetVoteDividend, DoClean;
      balance, allStake := balance + m.amount, allStake + m.amount;
      if !TakesCoins(call) && m.amount != 0 { return false; }
      match call {
        case Apply(role, pool, ratio, node) => ok := Apply(m, role, pool, ratio, node);
        case Append(role) => ok := Append(m, role);
        case Approve(motion, role, address) => ok := Approve(m, motion, role, address);
        case CastVote(role, address) => ok := Vote(m, role, address);
        case UnVote(role, address) => ok := UnVote(m, role, address);
        case Abolish(role, address) => ok := Abolish(m, role, address);
        case Withdraw(role) => ok := Withdraw(m, role);
        case Extract(list) => ok := Extract(m, list);
        case SetNodeAddress(node) => ok := SetNodeAddress(m, node);
        case SetVoteDividend(role, pool, ratio) => ok := SetVoteDividend(m, role, pool, ratio);
        case Clean(motion, role, address) => ok := Clean(m, motion, role, address);
      }
    }
  }

  /** Once a payment failed, the rest of the list does not repair it. */
  lemma {:induction false} AwardStops(s: State, list: seq<Address>, i: nat)
    requires i <= |list| && AwardAll(s, list[..i]).None?
    ensures AwardAll(s, list).None?
    decreases |list| - i
  {
    if i == |list| {
      assert list[..i] == list;
    } else {
      assert list[..i + 1][..i] == list[..i];
      AwardStops(s, list, i + 1);
    }
  }
}
