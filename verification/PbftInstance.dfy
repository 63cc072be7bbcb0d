/** `PbftInstance`: one consensus instance, its per-phase message buffers and
    the three phase handlers. Everything here is a function on values; the
    class in PbftNode.dfy runs the same steps imperatively. */
module PbftInstance {
  import opened Options

  /** Key of the instance map, ordered by view and then by sequence. */
  datatype Index = Index(view: int, sequence: int)

  predicate Before(a: Index, b: Index)
  {
    a.view < b.view || (a.view == b.view && a.sequence < b.sequence)
  }

  datatype Proposal = Proposal(view: int, sequence: int, replica: int, value: string, digest: string)

  datatype Vote = Vote(view: int, sequence: int, replica: int, digest: string)

  datatype ViewClaim = ViewClaim(view: int, replica: int)

  /** A signed message whose signer was found to be the replica it names. */
  datatype Env =
    | PrePrepare(proposal: Proposal)
    | Prepare(vote: Vote)
    | Commit(vote: Vote)
    | ViewChange(claim: ViewClaim)
    | NewView(view: int, replica: int, changes: seq<ViewClaim>)

  function Sender(e: Env): int
  {
    match e
    case PrePrepare(p) => p.replica
    case Prepare(v) => v.replica
    case Commit(v) => v.replica
    case ViewChange(c) => c.replica
    case NewView(_, replica, _) => replica
  }

  /** The messages that belong to one instance. */
  predicate Phased(e: Env)
  {
    e.PrePrepare? || e.Prepare? || e.Commit?
  }

  /** Prepares and commits are votes for a digest. */
  predicate IsVote(e: Env)
  {
    e.Prepare? || e.Commit?
  }

  function IndexOf(e: Env): Index
    requires Phased(e)
  {
    match e
    case PrePrepare(p) => Index(p.view, p.sequence)
    case Prepare(v) => Index(v.view, v.sequence)
    case Commit(v) => Index(v.view, v.sequence)
  }

  const NONE: nat := 0
  const PREPREPARED: nat := 1
  const PREPARED: nat := 2
  const COMMITED: nat := 3

  /** The message type, which is also the number of the phase that consumes it. */
  function TypeOf(e: Env): nat
    requires Phased(e)
  {
    match e
    case PrePrepare(_) => NONE
    case Prepare(_) => PREPREPARED
    case Commit(_) => PREPARED
  }

  /** Verdict of `CheckValue` on a proposed value. */
  datatype Check = Valid | MayValid | Invalid

  datatype RawNode = RawNode(n: nat, quorum: nat, self: int, hash: string -> string)

  /** The fixed part of a replica: how many validators there are, the quorum that
      goes with that number, its own id among them and the hash function. What
      holds for one instance holds for every quorum; the system model fixes it to
      `QuorumSize(n)`. */
  type Node = c: RawNode | c.n >= 1 && 0 <= c.self < c.n witness RawNode(1, 0, 0, (s: string) => s)

  predicate Primary(c: Node, view: int)
  {
    view % c.n == c.self
  }

  /** A primary with company does not process pre-prepares. */
  predicate Leads(c: Node, view: int)
  {
    Primary(c, view) && c.n != 1
  }

  datatype Instance = Instance(
    phase: nat,
    item: nat,
    value: string,
    digest: string,
    prepares: map<int, Vote>,
    commits: map<int, Vote>,
    buf: seq<seq<Env>>,
    own: Option<Proposal>,
    check: Check,
    commitSent: bool)

  const FRESH := Instance(NONE, 0, "", "", map[], map[], [[], [], [], []], None, Valid, false)

  /** The instance a primary opens for its own proposal. */
  function Requested(p: Proposal): Instance
  {
    FRESH.(phase := PREPREPARED, value := p.value, digest := p.digest, own := Some(p), buf := [[PrePrepare(p)], [], [], []])
  }

  predicate Shaped(inst: Instance)
  {
    inst.phase <= COMMITED && |inst.buf| == 4
  }

  /** A new instance value together with the messages sent on the way. */
  datatype Effect = Effect(inst: Instance, out: seq<Env>)

  function OnPrePrepare(c: Node, leads: bool, inst: Instance, p: Proposal, check: Check): (r: Effect)
    requires Shaped(inst)
    ensures Shaped(r.inst) && r.inst.buf == inst.buf
    ensures r.inst.phase > inst.phase || (r.inst.phase == inst.phase && r.inst.item == inst.item)
  {
    if leads then Effect(inst, [])
    else if p.digest != c.hash(p.value) then Effect(inst, [])
    else if check.Invalid? then Effect(inst, [])
    else
      var answer := if check.Valid? then [Prepare(Vote(p.view, p.sequence, c.self, p.digest))] else [];
      if inst.phase != NONE then
        Effect(inst, if inst.value == p.value then answer else [])
      else
        Effect(inst.(phase := PREPREPARED, item := 0, value := p.value, digest := p.digest, check := check), answer)
  }

  /** `std::map::insert`: the first message of a replica stays. */
  function Recorded(votes: map<int, Vote>, v: Vote): (r: map<int, Vote>)
    ensures r.Keys == votes.Keys + {v.replica}
  {
    if v.replica in votes then votes else votes[v.replica := v]
  }

  function OnPrepare(c: Node, inst: Instance, v: Vote): (r: Effect)
    requires Shaped(inst)
    ensures Shaped(r.inst) && r.inst.buf == inst.buf && r.inst.commits == inst.commits && r.inst.digest == inst.digest
    ensures r.inst.phase > inst.phase || (r.inst.phase == inst.phase && r.inst.item == inst.item)
    ensures inst.phase >= PREPARED ==> r.inst.phase == inst.phase
  {
    if inst.digest != v.digest then Effect(inst, [])
    else
      var prepares := Recorded(inst.prepares, v);
      if |prepares| < c.quorum then Effect(inst.(prepares := prepares), [])
      else
        var next := if inst.phase < PREPARED
                    then inst.(prepares := prepares, phase := PREPARED, item := 0)
                    else inst.(prepares := prepares);
        if inst.check.Valid?
        then Effect(next.(commitSent := true), [Commit(Vote(v.view, v.sequence, c.self, v.digest))])
        else Effect(next, [])
  }

  function OnCommit(c: Node, inst: Instance, v: Vote): (r: Instance)
    requires Shaped(inst)
    ensures Shaped(r) && r.buf == inst.buf
    ensures r.phase > inst.phase || (r.phase == inst.phase && r.item == inst.item)
  {
    if inst.digest != v.digest || v.replica in inst.commits then inst
    else
      var commits := Recorded(inst.commits, v);
      if |commits| >= c.quorum + 1 && inst.phase < COMMITED
      then inst.(commits := commits, phase := COMMITED, item := 0)
      else inst.(commits := commits)
  }

  function Handle(c: Node, leads: bool, inst: Instance, e: Env, check: Check): (r: Effect)
    requires Shaped(inst)
    ensures Shaped(r.inst) && r.inst.buf == inst.buf
    ensures r.inst.phase > inst.phase || (r.inst.phase == inst.phase && r.inst.item == inst.item)
  {
    match e
    case PrePrepare(p) => OnPrePrepare(c, leads, inst, p, check)
    case Prepare(v) => OnPrepare(c, inst, v)
    case Commit(v) => Effect(OnCommit(c, inst, v), [])
    case _ => Effect(inst, [])
  }

  /** The loop of `Go`: consume the buffer of the current phase, which may move
      on to the buffer of a later phase. */
  function Drain(c: Node, leads: bool, inst: Instance, check: Check): (r: Effect)
    requires Shaped(inst)
    ensures Shaped(r.inst) && r.inst.buf == inst.buf
    ensures r.inst.phase >= inst.phase && |r.inst.buf[r.inst.phase]| <= r.inst.item
    decreases COMMITED - inst.phase, |inst.buf[inst.phase]| - inst.item
  {
    if |inst.buf[inst.phase]| <= inst.item then Effect(inst, [])
    else
      var e := inst.buf[inst.phase][inst.item];
      var step := Handle(c, leads, inst.(item := inst.item + 1), e, check);
      var rest := Drain(c, leads, step.inst, check);
      Effect(rest.inst, step.out + rest.out)
  }

  function Go(c: Node, leads: bool, inst: Instance, e: Env, check: Check): (r: Effect)
    requires Shaped(inst) && Phased(e)
    ensures Shaped(r.inst) && r.inst.buf == inst.buf && r.inst.phase >= inst.phase
  {
    if TypeOf(e) < inst.phase
    then Handle(c, leads, inst, e, check)
    else Drain(c, leads, inst, check)
  }

  function Buffered(inst: Instance, e: Env): (r: Instance)
    requires Shaped(inst) && Phased(e)
    ensures Shaped(r)
  {
    inst.(buf := inst.buf[TypeOf(e) := inst.buf[TypeOf(e)] + [e]])
  }

  /** Arrival of a message at an existing instance: it is buffered, then `Go` runs. */
  function Deliver(c: Node, leads: bool, inst: Instance, e: Env, check: Check): (r: Effect)
    requires Shaped(inst) && Phased(e)
    ensures Shaped(r.inst) && r.inst.phase >= inst.phase
  {
    Go(c, leads, Buffered(inst, e), e, check)
  }
}
