# Verified models of openSesame

A Dafny model of the parts of openSesame where correctness is hardest to see by reading:
the PBFT replica, the DPoS staking contract, the transaction pool, the older validator election
contract, the co-build contract, the account write-back cache, the block reward schedule and the
ledger upgrade counter. `dafny verify dfyconfig.toml` checks all of it.

Every component has two halves. Functions on values say what one operation does, branch by
branch as in the source, and lemmas prove properties of whole runs of these functions. A class
with the source's own fields and loops is proved, method by method, to compute exactly those
functions. Calls that throw are `None`; the chain rolls them back. `Options` and `MapSum` are
shared by the components.

## How the pieces fit

**PBFT** (`Quorum`, `PbftInstance`, `PbftDelivery`, `PbftProof`, `PbftReplica`, `PbftInvariant`,
`PbftGuards`, `PbftSystem`, `PbftEvidence`, `PbftProgress`, `PbftMemory`, `PbftLimits`, `PbftNode`).
`PbftInstance` is one instance with its four message
buffers and the loop of `Go`. `PbftDelivery` proves that the phase an instance reaches depends only on
which messages arrived, by comparing it with a counting definition that knows nothing of buffers.
`PbftReplica` is the whole replica: window, view changes, trace-out, in-order execution,
validator updates. `PbftInvariant` is the invariant every handler keeps, `PbftSystem` the system
of n replicas over a network that may delay, repeat and reorder, with up to (n-1)/3 faulty
replicas that send anything under their own id. `PbftEvidence` shows that nothing but a quorum
moves a correct replica's window or view, `PbftProgress` that a quorum does, `PbftMemory` what a
replica forgets and says at every event. `PbftLimits` holds three concrete runs: two
that show why two guards are needed, and one in which a value is handed over with a proof that
convinces nobody. `PbftNode` is the replica as a class.

Assumptions, stated once here and visible in the definitions: signatures cannot be forged (a
message under a correct replica's id was sent by it); hashes are injective where values, not
digests, are compared (`GoodHash`); replicas do not restart; the validator set is fixed; handlers
are atomic, as they run under one lock. A correct primary proposes only when `MayPropose` holds,
and a ledger close is applied only when `MayClose` holds. `PbftGuards` proves that both guards
are exact: genuine messages can make the replica vote twice if and only if the guard failed. The
model also gives a run from the start for each, and a condition on the replica's own fields
that implies the guard.

**DPoS** (`MapSum`, `Ranking`, `Dpos`, `DposSolvency`, `DposElection`, `DposRewards`, `DposStakes`, `DposConfig`,
`DposRuns`, `DposClaims`, `DposPowers`, `DposContract`, `DposChain`). `Dpos` is every call of the contract that does not concern its
configuration. `DposSolvency` follows coins: what is owed never exceeds the recorded stake, which
never exceeds the balance. `DposElection` follows the ranked lists: the nodes last published are
those of the first places, although most calls do not recompute them. `DposStakes` ties stakes to
records: a stake follows the magnified pledge and the votes on a candidate, except that votes left
from an earlier stay are not counted when it returns. `DposConfig` adds the committee's proposals
to change the configuration. `DposRuns` states all of this over all runs from `init`, and
`DposClaims` says exactly when a claim is paid and when the call throws instead. `DposRewards` says
who gets which part of a reward, and `DposPowers` which calls change which record, exactly when and
how. `DposContract` is
the contract as a class, `DposChain` the chain that runs it and rolls back what throws. Amounts
are exact integers; coins that arrive without a call (block rewards) are an event of their own.

The contract accepts any four reward shares that add up to 100, but its arithmetic refuses factors
that are not whole and dividends that are negative. Such shares cost no coins but can block every
call that books rewards; `DposClaims` has the exact condition and the runs that meet it.

**Transaction pool** (`TxPool`, `TxPoolRuns`, `TxPoolNonces`, `TxSelection`, `TxPoolNode`). Iterators are modelled as node
ids. The priority comparator reads account nonces that change while transactions are queued, so
an insertion takes an arbitrary position and nothing relies on that order; the time queue's order is proved.
Equal content hashes are assumed to mean equal account and nonce.

**Election contract** (`ValidatorElection`, `ElectionPowers`, `ValidatorElectionContract`), **co-build** (`Cobuild`,
`CobuildPowers`, `CobuildLimits`, `CobuildContract`), **account cache** (`AccountCache`), **emission** (`Emission`), **upgrade counter**
(`LedgerUpgrade`) follow the same plan on a smaller scale.

## Model

| member | source | states |
|---|---|---|
| Quorum.QuorumSize | consensus/bft.cpp:1424-1450 | twice the commit quorum exceeds n plus the tolerated faults, and the quorum can be met by the correct replicas alone, for every n >= 1 including the special sizes 1 to 3 |
| Quorum.QuorumsIntersect | consensus/bft.cpp:1424-1450 | any two sets of q+1 replicas share at least f+1 members |
| Quorum.CommonCorrect | consensus/bft.cpp:1424-1450 | two commit quorums have a correct replica in common |
| Quorum.QuorumHasCorrect | consensus/bft.cpp:1424-1450 | every quorum holds a correct replica, and the correct replicas form one |
| Quorum.QuorumIsLeast | consensus/bft.cpp:1424-1450 | no smaller quorum will do: for any q below it there are two sets of q+1 replicas whose common members may all be faulty |
| PbftInstance.Drain | consensus/bft_instance.cpp:72-107 | the loop of `Go` terminates, never lowers the phase, leaves all buffers as they are and the current phase's buffer fully consumed |
| PbftDelivery.DrainPrepares | consensus/bft_instance.cpp:72-107 | draining a pre-prepared instance reaches exactly the phase that counting the buffered prepares and commits for its digest gives |
| PbftDelivery.DrainCommits | consensus/bft_instance.cpp:72-107 | draining a prepared instance commits it if and only if q+1 distinct replicas have a buffered commit for its digest |
| PbftDelivery.PrepareCounts | consensus/bft.cpp:832-875 | a prepare counts once per replica and only for the accepted digest; the quorum moves the instance on and restarts the buffer position |
| PbftDelivery.CommitCounts | consensus/bft.cpp:877-906 | a commit counts once per replica and only for the accepted digest; the quorum commits |
| PbftDelivery.PhaseIsCounted | consensus/bft_instance.cpp:72-107 | after any sequence of deliveries to an instance, a backup's or the primary's own, the phase is the one obtained by counting distinct voters among all messages delivered, and the current buffer is drained |
| PbftDelivery.DeliveryOrderIrrelevant | consensus/bft_instance.cpp:72-107 | two delivery sequences with the same messages and the same proposal accepted lead to the same phase, whatever the order and repetition, at a backup and at the primary |
| PbftDelivery.QuorumCommits | consensus/bft.cpp:756-906 | once a proposal is accepted, or is the primary's own, and prepares from q and commits from q+1 replicas for its digest have arrived in any order, the instance is committed with that digest |
| PbftProof.BuildProof | consensus/bft.cpp:1198-1214 | the loop over the commit buffer collects the first message of each signer |
| PbftProof.FirstsAre | consensus/bft.cpp:1198-1214 | the collected messages are exactly the first ones, one per signer, with no signer lost |
| PbftProof.CheckProof | consensus/bft.cpp:1776-1835 | the loop that crosses validators off accepts if and only if the proof has q+1 commits for the digest from distinct validators and nothing else |
| PbftProof.BuiltProofAccepted | consensus/bft.cpp:1776-1835 | a proof built from any buffer is accepted if and only if the buffer has q+1 signers and the first buffered commit of every signer carries the digest |
| PbftProof.ProofRoundTrip | consensus/bft.cpp:1198-1214 | for any instance, a backup's or the primary's own, committed by any sequence of deliveries: building then checking succeeds exactly if the first commit of every signer carries the digest |
| PbftProof.CleanBufferConvinces | consensus/bft.cpp:1198-1214 | for the same instances: if every delivered commit carries the accepted digest, the built proof is accepted under the same validators |
| PbftProof.ProofsShareSigners | consensus/bft.cpp:1776-1835 | two accepted proofs for the same validators share at least f+1 signers |
| PbftReplica.Least | consensus/bft_instance.cpp:27-36 | iteration visits instances in the order of view, then sequence: the chosen index is before all others |
| PbftInvariant.DeliverOk | consensus/bft.cpp:756-906 | delivering any message to a live instance keeps its invariant, sends votes only for its digest, and never changes an accepted digest |
| PbftInvariant.TraceOutOk | consensus/bft.cpp:584-625 | a trace-out, even one that lowers the view, keeps the replica's invariant: every vote it forgets lies at or below the new window |
| PbftInvariant.TryExecuteOk | consensus/bft.cpp:1183-1227 | executing committed instances and erasing old ones keeps the invariant |
| PbftInvariant.ReceiveOk | consensus/bft.cpp:550-708 | a phase message, inside or outside the window, of this or another view, keeps the invariant |
| PbftInvariant.EnterViewOk | consensus/bft.cpp:1027-1066 | entering a later view keeps the invariant |
| PbftInvariant.OnViewChangeOk | consensus/bft.cpp:908-972 | collecting view changes, and entering the view at a quorum, keeps the invariant |
| PbftInvariant.RequestOk | consensus/bft.cpp:304-350 | a proposal keeps the invariant if and only if every vote the primary already cast at the next sequence of this view is for the same value |
| PbftInvariant.ProposalGuard | consensus/bft.cpp:304-350 | a guard over the replica's own fields that is enough for `RequestOk`: nothing accepted at the next sequence of this view, or the same value |
| PbftInvariant.UpdateValidatorsOk | consensus/bft.cpp:1667-1740 | a ledger close keeps the invariant if and only if, when it moves the window without raising the view, every vote of this view beyond the new window belongs to a committed instance |
| PbftInvariant.CloseGuard | consensus/bft.cpp:1667-1740 | a guard over the replica's own fields that is enough for `UpdateValidatorsOk`: what this view has accepted beyond the new window is committed |
| PbftInvariant.ResendsChangeNothing | consensus/bft.cpp:233-298 | retransmissions repeat messages already sent |
| PbftInvariant.StepOk | consensus/bft.cpp:710-754 | every permitted step keeps the invariant: messages, proposals, view changes, timeouts, retransmissions, trace-out, ledger close |
| PbftInvariant.StepInOrder | consensus/bft.cpp:1183-1227 | every step extends the log only by committed instances at exactly the next sequence, and never lowers the window |
| PbftInvariant.StepHeard | consensus/bft.cpp:877-906 | every commit a replica counts was a message on the network |
| PbftGuards.ProposalGuardExact | consensus/bft.cpp:304-350 | after a proposal no sequence of genuine messages can make the replica vote for two digests at one index, if and only if `MayPropose` held |
| PbftGuards.CloseGuardExact | consensus/bft.cpp:1667-1740 | the same for a ledger close and `MayClose`, for every hash function that is not constant |
| PbftSystem.RunOk | consensus/bft.cpp:710-754 | the invariant holds at every correct replica in every state of every run |
| PbftSystem.CertificatesAgree | consensus/bft.cpp:877-906 | two commit certificates for one view and sequence carry the same digest |
| PbftSystem.CorrectVotesOnce | consensus/bft.cpp:756-875 | in no run does a correct replica send prepares or commits for two digests at one view and sequence, across view changes, retransmission and trace-out |
| PbftSystem.InViewAgreement | consensus/bft.cpp:627-906 | at no two moments of a run do correct replicas hold committed instances for one view and sequence with different digests, with up to (n-1)/3 faulty replicas |
| PbftSystem.ExecutedAgreement | consensus/bft.cpp:1183-1227 | values executed by two correct replicas at one view and sequence are equal, even after the instances are erased |
| PbftSystem.RunsOnlyAdvance | consensus/bft.cpp:584-625 | over any run the last executed sequence never decreases and the log only grows |
| PbftSystem.LogStrictlyIncreases | consensus/bft.cpp:1183-1227 | values are handed to the ledger with strictly increasing sequences |
| PbftSystem.LoggedProof | consensus/bft.cpp:1183-1227 | in every run, a proof handed over with a value is accepted by the other nodes if and only if the commits in the instance's buffer come from q+1 signers and each signer's first one carries the digest |
| PbftEvidence.JumpHasQuorum | consensus/bft.cpp:550-625 | a message that moves a replica further than it executed is a commit, at least an interval ahead, and with it q+1 distinct replicas have committed to one digest at the view and sequence where the window then stands |
| PbftEvidence.ViewHasQuorum | consensus/bft.cpp:908-1066 | a message that changes the view is a view change that completes claims of more than q distinct replicas at the primary of that view, a new view that names more than q replicas, all for that view, at a backup, or a commit that moves the window |
| PbftEvidence.SkipsOnlyCommitted | consensus/bft.cpp:550-625 | in every run: when a message moves a correct replica further than it executed, q+1 distinct replicas have a commit for one digest at that view and sequence in the network, and a correct one sent it |
| PbftEvidence.AnnouncesOnlyClaimed | consensus/bft.cpp:908-972 | in every run: for a new view a correct replica has announced, more than q distinct replicas have asked for it, a correct one among them |
| PbftEvidence.EntersOnlyClaimed | consensus/bft.cpp:908-1066 | in every run: a view-change message raises a correct replica's view only with claims of more than q replicas for it, a correct one among them; a new-view message only if it names more than q replicas, all for that view; a commit only by moving the window |
| PbftProgress.CatchUpByCounting | consensus/bft.cpp:550-625 | a replica behind an index it does not hold is brought there if and only if commits for one digest from q+1 distinct replicas have arrived, whatever else arrived in between and however often |
| PbftProgress.ViewEntryByCounting | consensus/bft.cpp:908-972 | the primary of a later view enters it if and only if claims for it have arrived from more than q distinct replicas |
| PbftProgress.NewViewFollowed | consensus/bft.cpp:974-1066 | a backup follows a new-view message if and only if it is for a later view and names more than q replicas, all for that view; it then keeps what is committed or prepared and pending, and nothing else |
| PbftMemory.ExecutesUnlessBlocked | consensus/bft.cpp:1183-1227 | execution stops before a committed instance that is next only if an instance of an older view for a sequence still to come stands before it |
| PbftMemory.InstancesChange | consensus/bft.cpp:304-1227 | for every event and index: an instance is forgotten if and only if the window jumped past it, a newer view opened its sequence, execution is five sequences on, or a proposal, a new view or a ledger close drops what is uncommitted; all others are unchanged unless the event is about them |
| PbftMemory.RecordsChange | consensus/bft.cpp:550-1089 | for every event: the commits set aside for an index, the claims recorded for a view, which of them are kept when a view is entered, and whether the replica is active |
| PbftMemory.MessagesChange | consensus/bft.cpp:233-972 | for every event: a proposal, view change or new view is sent if and only if there is the reason named, and a vote only on a message taken in, a prepare with the verdict just given, a commit with the verdict its value was accepted with |
| PbftMemory.SaysOnlyWithReason | consensus/bft.cpp:756-875 | in every run the same of every step of a correct replica |
| PbftLimits.SecondProposalBreaksSingleVote | consensus/bft.cpp:319-344 | a concrete run: a second proposal at the same sequence makes a correct primary commit to two digests |
| PbftLimits.LedgerJumpBreaksSingleVote | consensus/bft.cpp:1687-1740 | a concrete run: a ledger close with an older proof view erases a live vote, and the replica prepares a second digest |
| PbftLimits.LateCommitsLeaveNoProof | consensus/bft.cpp:550-560 | a concrete run: commits that arrive after a view change commit and execute an instance without entering its buffer, so that the proof handed over is not accepted |
| PbftNode.Pbft.Go | consensus/bft_instance.cpp:72-107 | the loop over the buffers, in place, does what `Drain` and `Handle` say |
| PbftNode.Pbft.TryExecuteValue | consensus/bft.cpp:1183-1227 | the iteration with erasures equals ordered execution |
| PbftNode.Pbft.TryDoTraceOut | consensus/bft.cpp:584-625 | the catch-up, with its erasing loops, equals its specification, of which `PbftEvidence.JumpHasQuorum` and `PbftProgress.CatchUpByCounting` say when it moves the window |
| PbftNode.Pbft.TraceOutPbftCommit | consensus/bft.cpp:550-582 | a commit outside the window is recorded, or counted late, as specified |
| PbftNode.Pbft.CreateInstance | consensus/bft.cpp:655-707 | a message in the window is buffered in its instance, new or existing |
| PbftNode.Pbft.OnPhaseMessage | consensus/bft.cpp:710-754 | the whole path of a phase message |
| PbftNode.Pbft.Request | consensus/bft.cpp:304-350 | proposing wipes uncommitted instances and opens the new one |
| PbftNode.Pbft.OnViewChangeMessage | consensus/bft.cpp:908-972 | the in-place updates equal the specification, of which `PbftEvidence.ViewHasQuorum` and `PbftProgress.ViewEntryByCounting` say when it enters the view |
| PbftNode.Pbft.OnNewViewMessage | consensus/bft.cpp:974-1066 | entering the view a quorum of claims announces |
| PbftNode.Pbft.OnLedgerClosed | consensus/bft.cpp:1667-1740 | a ledger close with unchanged membership |
| PbftNode.Pbft.OnRecv | consensus/bft.cpp:710-754 | any received message: the new state is the specified one, the invariant and single voting hold, execution stays in order |
| Ranking.SortIsUnique | contract/dpos.js:29-37 | two ranked lists with the same contents are equal, so the result of sorting with the contracts' comparator does not depend on the algorithm |
| Ranking.TopIsElected | contract/dpos.js:264-274 | the first k places hold exactly the entries that fewer than k others are ahead of |
| Ranking.ChangeKeeps | contract/dpos.js:342-361 | re-sorting after one stake changed keeps order and addresses, and keeps who is in the first k places unless that one crossed the boundary |
| Ranking.LoweredCrosses | contract/dpos.js:342-361 | a lowered stake leaves the first k places exactly if it was in one of them and the entry right behind them is now ahead of it |
| Ranking.RaisedCrosses | contract/dpos.js:342-361 | a raised stake comes into the first k places exactly if it was behind them and is then ahead of the last entry in them |
| Ranking.PushKeeps | contract/dpos.js:299-313 | push, sort and cut keep order and uniqueness; an addition behind the first k places leaves them alone |
| Ranking.RemoveKeeps | contract/dpos.js:320-340 | removal keeps order, and the first k places if it happened behind them |
| Dpos.SplitReward | contract/dpos.js:106-124 | the four parts and the remainder add up to the reward, for shares that sum to 100; who gets which part is `DposRewards.NodesGet` |
| DposSolvency.DistributeExact | contract/dpos.js:87-105 | equal parts plus the remainder to the first credit exactly the group's reward |
| DposSolvency.CalculateExact | contract/dpos.js:106-124 | whichever of the other groups are empty and whatever the shares, a reward that is not refused makes the two distributions grow by exactly the reward and leaves no negative entry |
| DposRewards.NodesGet | contract/dpos.js:87-124 | what a reward adds to every entry, for every pattern of empty groups, from the configured shares: an equal piece of what its group gets, the remainder of the division to the first of the group, and what hundredths leave over to the first validator |
| DposRewards.PoolsGet | contract/dpos.js:106-124 | in total the KOL entries grow by the two KOL shares of the whole hundreds, as far as there is a group of them, and the validator entries by all the rest |
| DposRewards.BookedAt | contract/dpos.js:87-137 | what booking a surplus adds to the entry of any address, from the lists and shares before it |
| DposSolvency.RewardDistributionCovers | contract/dpos.js:126-137 | booking the surplus as rewards keeps every claim covered and records the whole balance as stake |
| DposSolvency.AwardIs | contract/dpos.js:147-173 | an award is two payments, to the pool and then to the node, and settles the entry; how much goes to each is `DposRewards.AwardPayments` |
| DposRewards.AwardPayments | contract/dpos.js:147-173 | the payments an award makes: at ratio 0 all to the node, at 100 all to the pool, otherwise the ratio of the whole hundreds to the pool and then the rest to the node |
| DposSolvency.AwardSolvent | contract/dpos.js:147-173 | an award always succeeds, pays exactly the recorded reward and keeps the contract solvent |
| DposSolvency.AwardAllSolvent | contract/dpos.js:175-204 | so does any list of addresses, with repetitions |
| DposSolvency.AddCandidateSolvent | contract/dpos.js:276-318 | adding a candidate keeps the contract solvent |
| DposSolvency.DeleteCandidateCovers | contract/dpos.js:320-340 | removing a candidate keeps every claim covered |
| DposSolvency.UpdateStakeSolvent | contract/dpos.js:342-361 | changing a stake keeps the contract solvent |
| DposSolvency.DoAppendSolvent | contract/dpos.js:388-421 | an additional pledge is covered by the coins sent |
| DposSolvency.DoVoteSolvent | contract/dpos.js:538-562 | a vote is covered by the coins sent |
| DposSolvency.DoUnVoteSolvent | contract/dpos.js:564-584 | taking a vote back keeps the contract solvent |
| DposSolvency.DoWithdrawSolvent | contract/dpos.js:667-703 | leaving, waiting and being refunded keep the contract solvent |
| DposSolvency.PenaltySolvent | contract/dpos.js:427-441 | a forfeited pledge stays in the contract |
| DposSolvency.DoCleanSolvent | contract/dpos.js:813-828 | cleaning expired proposals keeps the contract solvent |
| DposSolvency.DispatchSolvent | contract/dpos.js:990-1048 | every call keeps the contract solvent |
| DposElection.UpdateStakeShape | contract/dpos.js:342-361 | after a stake change the published nodes are those of the first places, although they are published only on a crossing |
| DposElection.AddCandidateShape | contract/dpos.js:276-318 | after an addition likewise, also when the newcomer itself is cut off |
| DposElection.DeleteCandidateShape | contract/dpos.js:320-340 | after a removal likewise, and the address is gone |
| DposElection.NodeChangeOk | contract/dpos.js:754-778 | a new node address is published if its validator is in the first places |
| DposElection.NotYetCandidate | contract/dpos.js:497-531 | an applicant not yet approved is not a candidate, so approval cannot list an address twice |
| DposElection.DispatchOk | contract/dpos.js:990-1048 | every call keeps both lists ranked and free of repetition, every candidate known to the distribution and backed by a passed application, and the published nodes current |
| DposStakes.VoteCast | contract/dpos.js:538-562 | a cast vote raises the total recorded for exactly that candidate |
| DposStakes.VoteTaken | contract/dpos.js:564-584 | a vote taken back lowers it by exactly what the voter had cast |
| DposStakes.StakeMoved | contract/dpos.js:342-361 | a stake changed together with the pledge or vote behind it leaves every candidate's difference between stake and records as it was |
| DposStakes.Joined | contract/dpos.js:276-318 | a newcomer weighs its magnified pledge alone |
| DposStakes.NewcomerExact | contract/dpos.js:276-279 | a newcomer's stake is magnified pledge plus recorded votes if and only if no votes on it are left from an earlier stay |
| DposStakes.DispatchStakes | contract/dpos.js:990-1048 | every call: whoever stays listed keeps the difference between stake and magnified pledge plus recorded votes; whoever joins weighs its magnified pledge |
| DposRuns.InitSolvent | contract/dpos.js:938-988 | `init` starts solvent |
| DposRuns.InitElection | contract/dpos.js:938-988 | `init` starts with the lists in order, and with the published nodes those of the first places if and only if it finds no more validators than places |
| DposRuns.AlwaysSolvent | contract/dpos.js:907-918 | in every state of every run, whatever the committee reconfigures on the way: balance >= recorded stake >= unrefunded pledges + recorded votes + unclaimed rewards >= 0 |
| DposRuns.PublishedAreElected | contract/dpos.js:264-361 | once the published nodes are those of the first places, and from `init` on if it found no more validators than places, they stay, in every run and until `validator_size` is reconfigured, exactly those of the candidates fewer than `validator_size` others are ahead of |
| DposRuns.StakeFollowsRecords | contract/dpos.js:388-421 | while a candidate stays listed and the magnification is not reconfigured, its stake changes exactly as its magnified pledge plus recorded votes, over any run |
| DposRuns.StakeBounded | contract/dpos.js:538-584 | while the magnification is not reconfigured, no stake in any run exceeds magnified pledge plus recorded votes, apart from the stakes the first validators came with |
| DposConfig.ProceedOk | contract/dpos.js:497-752 | every action, proposing, approving and cleaning configuration changes included, keeps the contract solvent and the lists in order, and the published nodes current under the configuration it ran with |
| DposConfig.ChangeCarried | contract/dpos.js:497-752 | any change that passes `cfgValid`, negative and broken shares included, becomes the configuration by one proposal and one approval where two ballots carry; nothing else changes |
| DposConfig.PartsWithinReward | contract/dpos.js:106-111 | of whole shares that add up to 100 every part of every reward lies between nothing and the reward if and only if no share is negative |
| DposConfig.SizeChangeShows | contract/dpos.js:443-455 | a new `validator_size` is not published: nodes that were current are so after the change if and only if both numbers cut the list at the same place |
| DposClaims.RewardsDistributable | contract/dpos.js:87-137 | booking rewards fails if and only if there is a reward and either no validator, or shares that are not whole, or at least 100 coins and shares that come out negative for a group with members (`CanSettle`) |
| DposClaims.SignedIsFit | contract/dpos.js:106-124 | a reward split by whole shares hands no group a negative part if and only if it is below 100 coins or the shares, with those of empty groups added to the next group up, are not negative for any group with members |
| DposClaims.FitWithoutNegative | contract/dpos.js:106-137 | while the shares are whole and not negative, rewards can be booked if and only if there is none or a validator |
| DposClaims.LoweringSucceeds | contract/dpos.js:342-361 | lowering a stake fails if and only if there is a reward that cannot be booked and the candidate would lose a formal place |
| DposClaims.UnVotePaid | contract/dpos.js:564-584 | a voter gets the whole recorded vote back and only the voter is paid, unless there is a reward that cannot be booked and the candidate voted for would lose a formal place; exactly then the call throws |
| DposClaims.RefundPaid | contract/dpos.js:667-691 | an applicant not yet approved gets the pledge back |
| DposClaims.LeavingRecorded | contract/dpos.js:683-697 | a candidate's withdrawal fails if and only if it is listed and there is a reward that cannot be booked; otherwise the whole pledge is recorded for the end of the waiting period and nothing is paid yet |
| DposClaims.ExitPaid | contract/dpos.js:667-703 | a former candidate gets the pledge back if and only if the waiting period is over, and only once |
| DposClaims.AwardAllPays | contract/dpos.js:147-204 | paying a list clears exactly the rewards of the listed addresses, each once however often it is listed, and the balance falls by exactly that much |
| DposClaims.AwardAllPayments | contract/dpos.js:175-204 | the payments for a list: each address once, in the order of the list, first as a validator and then as a KOL, split as above |
| DposClaims.ExtractPaid | contract/dpos.js:175-204 | `extract` succeeds if and only if at most 100 addresses are named and the reward, if any, can be booked; then everything that arrived is booked, exactly the listed addresses' rewards leave the contract, and the payments are those of `DposClaims.AwardAllPayments` |
| DposClaims.NobodyLeftToReward | contract/dpos.js:106-124 | a concrete run from `init` into the failing case: the only validator withdraws, a block reward arrives, and from that state every `extract` throws |
| DposClaims.BadSharesBlock | contract/dpos.js:87-124 | a run from `init` into the other failing case, for all shares that add up to 100 but are not whole or give those behind the first places a negative one: the committee leaves one place and carries them, a reward of at least 100 arrives, and from that state every `extract` and every withdrawal of a listed validator throws although there are validators |
| DposPowers.JoiningSucceeds | contract/dpos.js:276-318 | adding a candidate fails if and only if it has a place to take and either the rewards cannot be booked or, for a validator, the node is taken |
| DposPowers.RaisingSucceeds | contract/dpos.js:342-361 | raising a stake fails if and only if the rewards cannot be booked and the candidate would come into a formal place |
| DposPowers.RecordsChange | contract/dpos.js:367-828 | for every call, every address and every vote: what becomes of the application, the report, the waiting pledge, the vote and the committee, each from the state before the call; nothing else changes them |
| DposPowers.SettingsChange | contract/dpos.js:443-828 | for every action: what becomes of every proposal to reconfigure and of every setting; a carried change sets its own item to what was asked and no other |
| DposPowers.PassedOnlyByVote | contract/dpos.js:457-531 | between any two states of a run an application comes to be passed only by a member's ballot with which more than the pass rate's part of the committee support it |
| DposPowers.SetOnlyByVote | contract/dpos.js:443-531 | between any two states of a run a setting changes only by a ballot that carries a change of that item |
| DposContract.CreditShares | contract/dpos.js:87-105 | the loop over a group credits as specified and throws exactly on a negative amount or a node without an entry |
| DposContract.Contract.CalculateShares | contract/dpos.js:106-124 | the four distributions in place give exactly the specified two pools, which `DposRewards.NodesGet` describes entry by entry |
| DposContract.Contract.SettleRewards | contract/dpos.js:126-137 | the updates in place succeed exactly when `Dpos.RewardDistribution` does and leave exactly its state |
| DposContract.Contract.UpdateValidators | contract/dpos.js:264-274 | the loop hands over the node addresses of the first places |
| DposContract.Contract.AddCandidates | contract/dpos.js:276-318 | the updates in place succeed exactly when `Dpos.AddCandidate` does and leave exactly its state, with all its refusals |
| DposContract.Contract.DeleteCandidate | contract/dpos.js:320-340 | the updates in place succeed exactly when `Dpos.DeleteCandidate` does and leave exactly its state |
| DposContract.Contract.UpdateStake | contract/dpos.js:342-361 | the updates in place succeed exactly when `Dpos.UpdateStake` does and leave exactly its state, publishing only on a crossing |
| DposContract.Contract.Award | contract/dpos.js:147-173 | the updates in place succeed exactly when `Dpos.Award` does and leave exactly its state, whose payments are those of `DposRewards.AwardPayments` |
| DposContract.Contract.AwardEach | contract/dpos.js:193-203 | the loop pays each address in turn |
| DposContract.Contract.Extract | contract/dpos.js:175-204 | the updates in place succeed exactly when `Dpos.DoExtract` does and leave exactly its state |
| DposContract.Contract.Apply | contract/dpos.js:367-386 | the updates in place succeed exactly when `Dpos.DoApply` does and leave exactly its state, with all its refusals |
| DposContract.Contract.Append | contract/dpos.js:388-421 | the updates in place succeed exactly when `Dpos.DoAppend` does and leave exactly its state |
| DposContract.Contract.Vote | contract/dpos.js:538-562 | the updates in place succeed exactly when `Dpos.DoVote` does and leave exactly its state |
| DposContract.Contract.UnVote | contract/dpos.js:564-584 | the updates in place succeed exactly when `Dpos.DoUnVote` does and leave exactly its state |
| DposContract.Contract.Abolish | contract/dpos.js:636-655 | the updates in place succeed exactly when `Dpos.DoAbolish` does and leave exactly its state |
| DposContract.Contract.SetNodeAddress | contract/dpos.js:754-778 | the updates in place succeed exactly when `Dpos.DoSetNodeAddress` does and leave exactly its state |
| DposContract.Contract.SetVoteDividend | contract/dpos.js:780-811 | the updates in place succeed exactly when `Dpos.DoSetVoteDividend` does and leave exactly its state |
| DposContract.Contract.Withdraw | contract/dpos.js:667-703 | the updates in place succeed exactly when `Dpos.DoWithdraw` does and leave exactly its state |
| DposContract.Contract.Approve | contract/dpos.js:457-531 | the updates in place succeed exactly when `Dpos.DoApprove` does and leave exactly its state, for applications and abolitions |
| DposContract.Contract.Execute | contract/dpos.js:990-1048 | `main` up to configuration: every call succeeds exactly when `Dpos.Dispatch` does and leaves exactly its state |
| DposChain.Chain.Perform | contract/dpos.js:990-1048 | any action on a chain that is `Valid()` (solvent, lists in order) leaves exactly the specified data, rolled back if it throws, and a chain that is `Valid()` again, with the published nodes current if they were |
| TxPool.RemoveLinked | glue/transaction_queue.cpp:34-70 | removal through iterators keeps the four indexes in agreement |
| TxPool.RemoveQueue | glue/transaction_queue.cpp:50-70 | both queues lose exactly the transaction of that account and nonce |
| TxPool.InsertLinked | glue/transaction_queue.cpp:72-80 | insertion at any queue position keeps the indexes in agreement |
| TxPool.TrimOk | glue/transaction_queue.cpp:122-137 | shortening the queue keeps agreement, ends within the limit and loses exactly the transactions it reports |
| TxPool.ImportOk | glue/transaction_queue.cpp:82-150 | an import keeps agreement and both limits, answers true only if the transaction is queued, and loses no other one unless the queue was full |
| TxPool.ReplacementAccepted | glue/transaction_queue.cpp:97-119 | with the account and nonce occupied, an import is accepted if and only if it pays at least a tenth more |
| TxPool.NewcomerAccepted | glue/transaction_queue.cpp:120-150 | otherwise it is accepted if and only if the account has room, and the queue has room or the newcomer is not put last |
| TxPoolRuns.DropExpiredOk | glue/transaction_queue.cpp:266-279 | expiry removes exactly the transactions older than the limit, using only the front of the time queue |
| TxPoolRuns.RemoveEachOk | glue/transaction_queue.cpp:204-248 | removing a block's transactions keeps agreement and removes exactly those |
| TxPoolRuns.IndexesAgree | glue/transaction_queue.cpp:34-80 | a transaction is in one index if and only if it is in all of them |
| TxPoolRuns.OnePerAccountAndNonce | glue/transaction_queue.cpp:82-150 | no two queued transactions share account and nonce |
| TxPoolNonces.NoncesChange | glue/transaction_queue.cpp:34-279 | for every event and account: an import records the nonce given, even if it is turned down; a closed block raises it to the largest one used; it is forgotten with the account's last transaction |
| TxPoolRuns.AlwaysAgree | glue/transaction_queue.cpp:34-279 | after any sequence of imports, removals and timeouts the indexes agree, the time queue is in order and both limits hold |
| TxSelection.TopTransaction | glue/transaction_queue.cpp:152-202 | for any queue content and order: at most `limit` chosen, in queue order, none twice, sizes below the limit, every nonce above the account's with all nonces before it chosen earlier; and whatever was passed over before the scan stopped had a gap in its account |
| TxPoolNode.TransactionQueue.RemoveTx | glue/transaction_queue.cpp:50-70 | the containers after the in-place updates are exactly those of `TxPool.Remove`; the answer says whether the transaction was there |
| TxPoolNode.TransactionQueue.TrimQueue | glue/transaction_queue.cpp:122-137 | the loop that drops from the end |
| TxPoolNode.TransactionQueue.ImportTx | glue/transaction_queue.cpp:82-150 | keeps `Valid()` (the four indexes agree, limits and time order hold), leaves exactly the containers of `TxPool.Import` and gives its answer; an accepted transaction is queued |
| TxPoolNode.TransactionQueue.RemoveTxs | glue/transaction_queue.cpp:204-248 | keeps `Valid()`; the loop removes exactly the block's transactions and answers their number |
| TxPoolNode.TransactionQueue.CheckTimeoutAndDel | glue/transaction_queue.cpp:266-279 | keeps `Valid()`; the loop over the front of the time queue leaves exactly the transactions that are not older than the limit |
| TxPoolNode.TransactionQueue.Top | glue/transaction_queue.cpp:152-202 | the block's transactions are queued ones, without gaps or repetition |
| ValidatorElection.MovedOk | contract/validators_vote.js:140-156 | an added pledge moves the candidate to its place; the first hundred change only if it lands among them |
| ValidatorElection.RaisedBehind | contract/validators_vote.js:149-156 | a candidate that adds to its pledge and lands behind the first hundred was behind them before |
| ValidatorElection.SharedOk | contract/validators_vote.js:340-352 | sharing a forfeit keeps candidates strictly ranked |
| ValidatorElection.SharedTotal | contract/validators_vote.js:332-352 | the shared parts add up to the forfeit, no unit lost to division |
| ValidatorElection.CarriedVoteTakesEffect | contract/validators_vote.js:302-356 | a carried vote against a current validator never throws, removes it from candidates and chain, and pays it nine tenths |
| ValidatorElection.CandidatesChange | contract/validators_vote.js:140-356 | for every call: who is a candidate changes if and only if a vote in time, not the voter's second, brings an applicant to the quota with room left, a candidate takes its pledge back, or such a vote expels a validator; an admitted applicant comes in with exactly its pledge |
| ValidatorElection.VoteForWaits | contract/validators_vote.js:184-228 | such a vote for an applicant is recorded and changes nothing else if and only if the ballots with it are fewer than the quota |
| ValidatorElection.VoteAbolishWaits | contract/validators_vote.js:302-356 | the same of a vote against a validator |
| ElectionPowers.ElectionChanges | contract/validators_vote.js:140-356 | for every call and address: what becomes of the applicant, the proposal against a validator, the pledge of the candidate, the payments and the coins received, each from the state before the call |
| ValidatorElection.TakebackPays | contract/validators_vote.js:230-253 | where coins reach for all recorded pledges, taking back succeeds, pays the whole recorded pledge to the caller and leaves it with nothing |
| ValidatorElection.ExpiryRefunds | contract/validators_vote.js:184-228 | there, a vote that comes too late sends the applicant its whole pledge |
| ValidatorElection.InvokeOk | contract/validators_vote.js:383-407 | every call keeps the order, the chain's list and the balance of records |
| ValidatorElection.AlwaysElected | contract/validators_vote.js:97-253 | in every state of every run: candidates in strict order, the chain's validators the first hundred, recorded pledges equal to those of `init` plus coins in minus coins out, and the balance moved by as much |
| ValidatorElection.AlwaysFunded | contract/validators_vote.js:230-356 | in every state of every run the contract has the coins for all recorded pledges, if and only if it had at the start; so it does where the first validators come without pledges |
| ValidatorElectionContract.InsertSorted | contract/validators_vote.js:97-130 | the two index loops find the place of a sorted insertion |
| ValidatorElectionContract.ShareForfeit | contract/validators_vote.js:340-352 | the loop that shares a forfeit |
| ValidatorElectionContract.Contract.ApplyAsValidatorCandidate | contract/validators_vote.js:140-182 | the updates in place succeed exactly when `ValidatorElection.Pledge` does and leave exactly its state |
| ValidatorElectionContract.Contract.VoteApplicant | contract/validators_vote.js:184-228 | the updates in place succeed exactly when `ValidatorElection.VoteForApplicant` does and leave exactly its state, which admits the applicant exactly as `ValidatorElection.CandidatesChange` says |
| ValidatorElectionContract.Contract.TakebackAllPledgeCoin | contract/validators_vote.js:230-253 | the updates in place succeed exactly when `ValidatorElection.Takeback` does and leave exactly its state |
| ValidatorElectionContract.Contract.AbolishCandidate | contract/validators_vote.js:255-289 | the updates in place succeed exactly when `ValidatorElection.Abolish` does and leave exactly its state |
| ValidatorElectionContract.Contract.VoteAbolishValidator | contract/validators_vote.js:302-356 | the updates in place succeed exactly when `ValidatorElection.VoteAbolish` does and leave exactly its state |
| ValidatorElectionContract.Chain.Perform | contract/validators_vote.js:383-407 | every call keeps `Valid()` (strict order, bounds, the chain's validators the first candidates, coins for all recorded pledges) and leaves exactly the specified data, rolled back if it throws |
| Cobuild.DistributeExact | contract/cobuild.js:76-91 | a reward is refused if and only if nothing is pledged or the initiator is no longer a partner; otherwise awards grow by exactly the reward received |
| Cobuild.SubscribeCovered | contract/cobuild.js:101-116 | new shares are covered by the coins sent |
| Cobuild.RevokeCovered | contract/cobuild.js:118-137 | unpledged shares with their award can always be paid out, to their holder |
| Cobuild.PledgeAllCovered | contract/cobuild.js:159-202 | applying and appending can always be paid and pledge every share |
| Cobuild.WholeAccepted | contract/cobuild.js:257-289 | after a whole stake changes hands the counters still equal the sums if and only if the taker held no unpledged shares |
| Cobuild.AcceptPays | contract/cobuild.js:257-289 | what the giver is paid, from the state before the call: the price of the shares and, for a whole stake, its award plus its part per share of every pending reward, plus their remainders if it is the initiator |
| Cobuild.AcceptSucceeds | contract/cobuild.js:257-289 | in a covered, active state an offer that stands is refused if and only if, for a whole stake, a reward is pending that cannot be taken in, or, for a part, the taker holds unpledged shares; the payment itself never fails |
| Cobuild.AcceptCovered | contract/cobuild.js:257-289 | every other accepted transfer keeps counters and coverage |
| Cobuild.RefundCovered | contract/cobuild.js:359-386 | a refund of the pledged total covers the shares it frees |
| Cobuild.PayAwardsCovered | contract/cobuild.js:401-412 | once rewards are taken in, the awards of any list of partners can be paid |
| Cobuild.ExtractPays | contract/cobuild.js:388-413 | in a covered, active state `coExtract` succeeds if and only if no reward is pending or the initiator is a partner and something is pledged, and at most 100 addresses are named, all of partners; then those named have no award left, the others have gained their parts, and the spare balance is unchanged |
| Cobuild.AlwaysCovered | contract/cobuild.js:456-512 | in every state of every orderly run the counters equal the sums over partners and the balance covers unpledged shares and awards |
| CobuildPowers.CobuildChanges | contract/cobuild.js:76-512 | for every call, partner and offer: what becomes of the partner, the offer, the counters, the status, the payments and the balance, each from the state before the call |
| CobuildLimits.InitiatorMayLeave | contract/cobuild.js:76-91 | an orderly run from `init`: the initiator hands over its whole stake, and from then on every reward is refused, and every `coExtract` with one pending |
| CobuildLimits.MixedSharesMiscount | contract/cobuild.js:268-284 | a run from `init`: a partner with unpledged shares accepts a whole stake, the counters are wrong, and the next reward of 3 credits only 2 |
| CobuildContract.CreditPledged | contract/cobuild.js:76-85 | the loop over all partners credits the pledged ones |
| CobuildContract.Contract.OnReward | contract/cobuild.js:76-91 | the updates in place succeed exactly when `Cobuild.Reward` does and leave exactly its state |
| CobuildContract.Contract.CoApplyAll | contract/cobuild.js:168-182 | the updates in place succeed exactly when `Cobuild.CoApply` does and leave exactly its state |
| CobuildContract.Contract.CoAppendAll | contract/cobuild.js:193-202 | the updates in place succeed exactly when `Cobuild.CoAppend` does and leave exactly its state |
| CobuildContract.Contract.RevokeShares | contract/cobuild.js:118-137 | the updates in place succeed exactly when `Cobuild.Revoke` does and leave exactly its state |
| CobuildContract.Contract.AcceptShares | contract/cobuild.js:257-289 | the updates in place succeed exactly when `Cobuild.Accept` does and leave exactly its state, with the reload after the DPoS call |
| CobuildContract.Contract.CoExtractAwards | contract/cobuild.js:388-413 | the updates in place succeed exactly when `Cobuild.CoExtract` does and leave exactly its state |
| CobuildContract.Chain.Perform | contract/cobuild.js:456-512 | any call on a chain that is `Valid()` (counters right, claims covered) leaves exactly the specified data, rolled back if it throws, and `Valid()` again if the call is orderly |
| AccountCache.DoRefines | ledger/account.cpp:212-355 | each operation answers as a plain map over the stored data does and leaves the same plain map |
| AccountCache.CacheRefinesMap | ledger/account.cpp:212-355 | any interleaving of reads, writes, deletes and write-backs is answered as by plain maps |
| AccountCache.ReloadAfterFlush | ledger/account.cpp:301-355 | after a write-back a fresh object sees the same data, with zero amounts gone |
| AccountCache.Account.Copy | ledger/account.cpp:35-39 | a copy answers as the original, pending writes included |
| AccountCache.Account.GetAsset | ledger/account.cpp:212-244 | answers from the plain map; read-through changes no answer |
| AccountCache.Account.SetAsset | ledger/account.cpp:246-251 | updates the plain map, an amount of 0 included |
| AccountCache.Account.GetMetaData | ledger/account.cpp:254-284 | answers from the plain map; read-through changes no answer |
| AccountCache.Account.SetMetaData | ledger/account.cpp:286-291 | updates the plain map |
| AccountCache.Account.DeleteMetaData | ledger/account.cpp:293-299 | removes from the plain map |
| AccountCache.Account.UpdateHash | ledger/account.cpp:301-355 | the tries become the plain maps, zero amounts dropped, and no answer changes |
| Emission.GetBlockReward | common/general.cpp:358-381 | the loop with its early exit computes the schedule |
| Emission.RewardNeverRises | common/general.cpp:358-381 | the reward never increases with height |
| Emission.RewardEnds | common/general.cpp:358-381 | no block from the 94th period on has a reward |
| Emission.FourfoldTotal | common/general.cpp:358-381 | period rewards add up to four times what the reward has lost, within three a period |
| Emission.EmittedIs | common/general.cpp:358-381 | block by block emission equals full periods plus the period begun |
| Emission.EmissionBounded | common/general.h:117-118 | over any number of blocks emission is at most seven initial rewards per block of a period, which fits 64 bits |
| LedgerUpgrade.AtMostOneCarried | glue/ledger_upgrade.cpp:116-154 | two upgrades cannot both have a majority of validators |
| LedgerUpgrade.OneUpgradeAtConsensusQuorum | glue/glue_manager.cpp:126-130 | at one above the consensus quorum at most one upgrade qualifies |
| LedgerUpgrade.LedgerUpgrades.Recv | glue/ledger_upgrade.cpp:89-114 | the latest announcement of a node replaces the one before |
| LedgerUpgrade.LedgerUpgrades.Expire | glue/ledger_upgrade.cpp:40-58 | the loop drops exactly the announcements older than 300 seconds |
| LedgerUpgrade.LedgerUpgrades.Count | glue/ledger_upgrade.cpp:123-142 | counters are the numbers of announcing validators |
| LedgerUpgrade.LedgerUpgrades.GetValid | glue/ledger_upgrade.cpp:116-154 | answers with a qualifying upgrade if there is one; with a majority quorum the answer does not depend on the order of the map |

## Where code and documentation differ

- A new-view message is accepted after a check of the outer message only; the view changes inside
  it are modelled as unchecked claims, as the code treats them.
- A pre-prepare is not required to come from the primary of its view; agreement is proved without that check.

## Left out

- PbftSystem.InViewAgreement: one view only; the value carried by a view change is chosen by sequence and not compared by backups, so nothing is claimed across views.
- PbftSystem.CorrectVotesOnce: no restart, and only ledger closes with unchanged membership that satisfy `MayClose`.
- PbftNode.Pbft.Go: execution runs after the loop on values, so the lifetime of an instance that execution erases while its own loop is finishing is not captured.
- DposContract.Contract.Execute: calls that concern the configuration are in `DposChain`.
- TxPool.ImportOk: the tenth that a replacement must pay more is exact, where the source multiplies by 0.1 in floating point.
- ValidatorElection.AlwaysElected: the number of ballots that carries a vote is a parameter, so the rounding of 0.7 times the number of validators is not modelled.
- Cobuild.AlwaysCovered: withdrawal polls are not modelled; a refund may come at any time and is assumed to return the pledged total.
- PBFT liveness, timers, round numbers, the prepared sets carried by view changes, persistence and reloading, signature checks.
- 64-bit overflow in the contracts: amounts are unbounded integers, and the checked arithmetic that would abort a call is not modelled.
- The DPoS pass rate and reward shares are real numbers; rounding of the floating-point product and sum is not modelled.
- Re-entrant calls during payments, except the co-build contract's `reward` and `refund` call-backs.
- Address formats, JSON, protobuf encoding beyond the size of a transaction set, key formats in storage, Base58, hashing.
- Read-only queries of the pool (`CheckTimeout`, `IsExist`, `Query`) and of the contracts: they only read what is proved above.
- The ordering of the pool's priority queue, which changes while transactions are queued.
- Trie roots and hashes, account balances, signers and nonces: the account model is its two caches.
- Broadcasting of upgrade announcements and the local version setting.
- Network, web server, console, configuration files, the V8 bindings and the other contracts: wrappers, or easier versions of what is proved here.
