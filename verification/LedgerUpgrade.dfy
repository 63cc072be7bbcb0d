/** Counting the validators that announce a ledger upgrade. */
module LedgerUpgrade {
  import opened Quorum

  type Address = string

  datatype Upgrade = Upgrade(version: int, chainId: int)

  /** The last announcement of a node, and when it came. */
  datatype Notice = Notice(upgrade: Upgrade, time: int)

  type Notices = map<Address, Notice>

  /** 300 seconds, in microseconds. */
  const EXPIRY: int := 300 * 1000000

  /** Who among `voters` announces an upgrade. */
  function Support(notices: Notices, voters: set<Address>, u: Upgrade): set<Address>
  {
    set a | a in voters && a in notices && notices[a].upgrade == u
  }

  predicate Carried(notices: Notices, voters: set<Address>, quorum: nat, u: Upgrade)
  {
    |Support(notices, voters, u)| >= quorum
  }

  function Members(validators: seq<Address>): set<Address>
  {
    set a | a in validators
  }

  lemma {:induction false} MembersAtMost(validators: seq<Address>)
    ensures |Members(validators)| <= |validators|
  {
    if validators != [] {
      var rest := validators[..|validators| - 1];
      MembersAtMost(rest);
      assert Members(validators) == Members(rest) + {validators[|validators| - 1]};
    }
  }

  /** A node announces one upgrade at a time, so two upgrades cannot both have a majority. */
  lemma AtMostOneCarried(notices: Notices, voters: set<Address>, quorum: nat, u: Upgrade, v: Upgrade)
    requires 2 * quorum > |voters| && Carried(notices, voters, quorum, u) && Carried(notices, voters, quorum, v)
    ensures u == v
  {
    var su, sv := Support(notices, voters, u), Support(notices, voters, v);
    if u != v {
      assert su !! sv;
      assert |su + sv| == |su| + |sv|;
      SubsetSize(su + sv, voters);
    }
  }

  /** With the quorum the node uses, one above the consensus quorum, the answer is unique. */
  lemma OneUpgradeAtConsensusQuorum(notices: Notices, validators: seq<Address>, u: Upgrade, v: Upgrade)
    requires |validators| >= 1
    requires Carried(notices, Members(validators), QuorumSize(|validators|) + 1, u)
    requires Carried(notices, Members(validators), QuorumSize(|validators|) + 1, v)
    ensures u == v
  {
    MembersAtMost(validators);
    AtMostOneCarried(notices, Members(validators), QuorumSize(|validators|) + 1, u, v);
  }

  class LedgerUpgrades {
    const chainId: int
    var notices: Notices

    constructor (chainId: int)
      ensures this.chainId == chainId && notices == map[]
    {
      this.chainId := chainId;
      notices := map[];
    }

    /** `Recv`: the latest announcement of a node replaces the one before it. */
    method Recv(address: Address, upgrade: Upgrade, verified: bool, now: int)
      modifies `notices
      ensures notices == if verified && upgrade.chainId == chainId then old(notices)[address := Notice(upgrade, now)]
                         else old(notices)
    {
      if !verified || upgrade.chainId != chainId {
        return;
      }
      notices := notices[address := Notice(upgrade, now)];
    }

    /** The expiry loop of `OnTimer`. */
    method Expire(now: int)
      modifies `notices
      ensures notices == map a | a in old(notices) && old(notices)[a].time + EXPIRY >= now :: old(notices)[a]
    {
      var todo := notices.Keys;
      while todo != {}
        invariant todo <= old(notices).Keys && notices.Keys <= old(notices).Keys
        invariant forall a :: a in old(notices) ==>
          (a in notices <==> a in todo || old(notices)[a].time + EXPIRY >= now)
        invariant forall a :: a in notices ==> notices[a] == old(notices)[a]
        decreases |todo|
      {
        var a :| a in todo;
        if a in notices && notices[a].time + EXPIRY < now {
          notices := notices - {a};
        }
        todo := todo - {a};
      }
    }

    /** The counting loop of `GetValid`. */
    method Count(voters: set<Address>) returns (counter: map<Upgrade, nat>)
      ensures forall u :: u in counter <==> exists a :: a in notices && notices[a].upgrade == u
      ensures forall u :: u in counter ==> counter[u] == |Support(notices, voters, u)|
    {
      counter := map[];
      var done: set<Address> := {};
      while done != notices.Keys
        invariant done <= notices.Keys
        invariant forall u :: u in counter <==> exists a :: a in done && notices[a].upgrade == u
        invariant forall u :: u in counter ==> counter[u] == |Support(notices, voters * done, u)|
        decreases |notices.Keys - done|
      {
        var a :| a in notices.Keys - done;
        var u := notices[a].upgrade;
        NoSupport(notices, voters * done, u, counter.Keys);
        if u !in counter {
          counter := counter[u := 0];
        }
        CountOne(notices, voters, done, a);
        if a in voters {
          counter := counter[u := counter[u] + 1];
        }
        done := done + {a};
      }
      SupportAll(notices, voters);
    }

    /** `GetValid`: some upgrade with a quorum, if there is one. The upgrades are looked through
        in any order. */
    method GetValid(validators: seq<Address>, quorum: nat) returns (found: bool, upgrade: Upgrade)
      ensures found ==> Carried(notices, Members(validators), quorum, upgrade)
      ensures !found && quorum > 0 ==> forall u :: !Carried(notices, Members(validators), quorum, u)
      ensures quorum == 0 ==> found == (notices != map[])
      ensures 2 * quorum > |Members(validators)| && quorum > 0 ==>
                forall u :: Carried(notices, Members(validators), quorum, u) <==> found && u == upgrade
    {
      upgrade := Upgrade(0, 0);
      var voters := Members(validators);
      var counter := Count(voters);
      assert notices != map[] ==> exists a :: a in notices && notices[a].upgrade in counter;
      var todo := counter.Keys;
      found := false;
      while todo != {}
        invariant todo <= counter.Keys
        invariant forall u :: u in counter && u !in todo ==> counter[u] < quorum
        decreases |todo|
      {
        var u :| u in todo;
        if counter[u] >= quorum {
          found, upgrade := true, u;
          Unique(notices, voters, quorum, u);
          return;
        }
        todo := todo - {u};
      }
      forall u | quorum > 0
        ensures !Carried(notices, voters, quorum, u)
      {
        if u !in counter { NoSupport(notices, voters, u, counter.Keys); }
      }
    }
  }

  lemma Unique(notices: Notices, voters: set<Address>, quorum: nat, u: Upgrade)
    requires Carried(notices, voters, quorum, u)
    ensures 2 * quorum > |voters| ==> forall v :: Carried(notices, voters, quorum, v) <==> v == u
  {
    if 2 * quorum > |voters| {
      forall v | Carried(notices, voters, quorum, v)
        ensures v == u
      {
        AtMostOneCarried(notices, voters, quorum, u, v);
      }
    }
  }

  lemma NoSupport(notices: Notices, voters: set<Address>, u: Upgrade, counted: set<Upgrade>)
    requires u !in counted ==> forall a :: a in voters && a in notices ==> notices[a].upgrade != u
    ensures u !in counted ==> |Support(notices, voters, u)| == 0
  {
    if u !in counted { assert Support(notices, voters, u) == {}; }
  }

  /** One more node counted. */
  lemma CountOne(notices: Notices, voters: set<Address>, done: set<Address>, a: Address)
    requires a in notices && a !in done
    ensures forall u :: |Support(notices, voters * (done + {a}), u)|
                        == |Support(notices, voters * done, u)| + (if a in voters && u == notices[a].upgrade then 1 else 0)
  {
    forall u
      ensures |Support(notices, voters * (done + {a}), u)|
              == |Support(notices, voters * done, u)| + (if a in voters && u == notices[a].upgrade then 1 else 0)
    {
      var before, now := Support(notices, voters * done, u), Support(notices, voters * (done + {a}), u);
      if a in voters && u == notices[a].upgrade {
        assert now == before + {a};
      } else {
        assert now == before;
      }
    }
  }

  lemma SupportAll(notices: Notices, voters: set<Address>)
    ensures forall u :: Support(notices, voters * notices.Keys, u) == Support(notices, voters, u)
  {
    forall u
      ensures Support(notices, voters * notices.Keys, u) == Support(notices, voters, u)
    {
    }
  }
}
