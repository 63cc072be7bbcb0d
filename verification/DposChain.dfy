/** The DPoS contract on its chain: each call runs on the stored data with the configuration
    loaded, and what it changes is kept only if it does not throw. */
module DposChain {
  import opened Options
  import opened Dpos
  import opened DposSolvency
  import opened DposElection
  import opened DposConfig
  import opened DposRuns
  import opened DposContract

  class Chain {
    var cfg: Config
    var data: State
    var proposals: map<ChangeKey, Proposal>

    function Stored(): World
      reads this
    {
      World(cfg, data, proposals)
    }

    /** The contract is solvent and the lists are in order. */
    ghost predicate Valid()
      reads this
    {
      WorldOk(Stored())
    }

    /** `initialization`. */
    constructor (cfg: Config, g: Genesis)
      requires GenesisOk(g)
      ensures Valid() && Stored() == World(cfg, Init(cfg, g), map[])
    {
      this.cfg, data, proposals := cfg, Init(cfg, g), map[];
      new;
      InitSolvent(cfg, g);
      InitElection(cfg, g);
    }

    /** Every action keeps `Valid()`, so that calls can follow each other without end, and the
        published validators those of the first places if they were. */
    method Perform(a: Action)
      requires Valid()
      modifies this
      ensures Valid() && data.balance >= data.allStake && Stored() == Proceed(old(Stored()), a)
      ensures StaysCurrent(old(cfg), old(data), data)
    {
      hide Covers, ElectionOk, Current, Dispatch;
      CoversStake(data, 0);
      ghost var before := Stored();
      ProceedOk(before, a);
      match a {
        case Ordinary(ev) =>
          match ev {
            case Rewarded(amount) => data := data.(balance := data.balance + amount);
            case Called(m, call) => Call(m, call);
          }
        case Configure(m, c) => Configure(m, c);
        case ApproveChange(m, key) => ApproveChange(m, key);
        case CleanChange(m, key) => CleanChange(m, key);
      }
      CoversStake(data, 0);
    }

    method Call(m: Msg, call: Call)
      requires data.balance >= data.allStake
      modifies `data
      ensures data == Step(cfg, old(data), Called(m, call))
    {
      hide Dispatch;
      var contract := new Contract(cfg, data);
      var ok := contract.Execute(m, call);
      if ok {
        data := contract.Stored();
      }
    }

    method Configure(m: Msg, c: RawChange)
      modifies `proposals
      ensures Stored() == After(old(Stored()), DoConfigure(old(Stored()), m, c))
    {
      if !CfgValid(c) || !m.wellFormed || m.amount != 0 || m.sender !in data.committee {
        return;
      }
      var key := ChangeKey(ItemOf(c), m.sender);
      if key in proposals && proposals[key].change == c && !c.SetShares? {
        return;
      }
      proposals := proposals[key := Proposal(c, m.time + cfg.validPeriod, [m.sender])];
    }

    method ApproveChange(m: Msg, key: ChangeKey)
      modifies `cfg, `proposals
      ensures Stored() == After(old(Stored()), DoApproveChange(old(Stored()), m, key))
    {
      if !m.wellFormed || m.amount != 0 || m.sender !in data.committee || key !in proposals {
        return;
      }
      var p := proposals[key];
      if m.time >= p.expiration || m.sender in p.ballot {
        return;
      }
      p := p.(ballot := p.ballot + [m.sender]);
      if !Carried(cfg, data, |p.ballot|) {
        proposals := proposals[key := p];
      } else {
        proposals := proposals - {key};
        cfg := Changed(cfg, p.change);
      }
    }

    method CleanChange(m: Msg, key: ChangeKey)
      modifies `proposals
      ensures Stored() == After(old(Stored()), DoCleanChange(old(Stored()), m, key))
    {
      if m.wellFormed && m.amount == 0 && key in proposals && m.time >= proposals[key].expiration {
        proposals := proposals - {key};
      }
    }
  }
}
