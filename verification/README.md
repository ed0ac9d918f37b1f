# Finastate node: models and proofs

Finastate is a blockchain node. This project models the state machines that its safety rests on and
proves, for every input, every run and every reachable state, what they promise.

Each component is written twice. Values and functions say what a step is, and the lemmas about them
carry the results over whole runs. Where the node updates objects in place, a class does the same, and
each of its methods is proved to take exactly the step of the specification. What an operation brings
about is stated a second time, as a relation between the fields before and after and the messages sent,
which does not mention the specification; the methods that other components call promise this relation
as well. Hash maps are iterated in an arbitrary order; what is proved holds for all of them.

| files | component |
|---|---|
| Authorities, Aggregation, HotStuff* | HotStuff consensus: leader, replica, collectors, certificates, timeouts, rotation, storage, heights |
| Raft* | Raft: vote granting, log splicing, durable writes, elections and leaders in a cluster |
| PeerManager | the slot allocator for peers |
| ChainSync, ChainSyncRequests | the block download scheduler |
| ExecuteQueue, ExecutionGap | the chain store, delayed execution, and the gap between both |
| ExecutorContext, BatchExecution, Balance | layered buffers, batches of transactions, balances |
| Overlay, ContextTree, StackedContext | nested contract calls over shared buffers |
| Connections | the per-peer connection machine |
| Governance | contract administrators, proposals and versions |

## How the models stand to the code

- A HotStuff height has a base block and fixed authorities. Each validator begins it with its own commit
  QC of that block, from which it rotates the leaders, and with the prepare QC and lock its refreshed
  storage holds, which may be above that QC. Base QCs are made by the leaders of their views; with new
  authorities their views are whole rounds apart, without which the leaders would differ. A quorum has
  reached the view of each certificate somebody begins with, and its leader has left that view.
- Validators follow the code, their storage is durable, and a signature is the fact that somebody signed
  something. A system step is one handler of one validator; packets are a growing set, so any of them may
  be lost, delivered twice or late. Registration of validators and messages kept for unregistered ones
  are delays of the network. A crash keeps what the storage persists and refreshes it; the leader of a
  view does not lead the same view again after a crash. A leader that breaks off takes no further step.
- `HotStuffHeights` joins heights: what a height leaves in the storages, refreshed, is a start of the next
  one over the same authorities, provided that a leader whose view was certified has left that view.
- The validator object has six entry points, one for each kind of step, and each is proved to keep the
  invariant behind agreement and to bring about what `HotStuffAnswers` states on packets and fields. The
  handlers they call are proved to take the step of the specification, branch by branch, and have no rows
  of their own below.
- Agreement does not follow the published proof. The leader votes without the safe node rule, NewViews
  kept from other views are drained into the leader, and the highest certificate is taken at the first
  quorum in arbitrary order. The proof splits on the leader's weight: a light leader cannot be the whole
  overlap of two quorums, and a heavy one is in every quorum of NewViews itself.
- Raft handlers are lists of separate writes, as in the code, so that a crash can fall between any two.
  The cluster model adds the candidate's side of an election and the leader's term; a response reaches
  only the life of the process that asked, and a leader may step down at any time.
- Contexts of nested calls are modelled three times: as objects that share cells (StackedContext), as the
  stack of the innermost one (Overlay), and as the tree of all contexts that are alive, any of which may
  act (ContextTree).
- Transactions are arbitrary programs that read, write and emit through the context, each step depending
  on the answers so far. A number bounds the accesses of a call; `BatchExecution.StepsDoNotMatter` shows
  that it has no influence on calls that end.
- Hashes are free of collisions. The hash of a transaction leaves out its signature, as in the code, and
  is identified with the content it covers.
- Numbers are unbounded except where width matters: u64 balances, block numbers and i8 gaps
  (ExecutionGap, Balance), u32 weights, ids and versions (Aggregation, Governance), i32 scores
  (PeerManager) wrap, saturate or overflow as in the code.

## Where the code does less than it seems to

These are stated as exact conditions, with a concrete case in brackets where there is one.

- `HotStuffStorage.PrunedExactly`: when a refresh drops proposals it writes the list of nodes back, and
  not the list of proposals (`HotStuffStorage.StaysListed`).
- `HotStuffProposeProof.BreaksOffExactly`, `HotStuffBreakOff.BreaksOffInRuns`: a leader that must propose a
  certified block again, does not store it, and holds nobody else's NewView with the certificate draws
  from an empty range. The certificate is its own (`HotStuffBreakOffRuns.OwnCertBreaksOff`) or came in a
  NewView that has been replaced (`HotStuffBreakOffRuns.ReplacedCertBreaksOff`).
- `HotStuffTypes.AcceptedExactly`: a certificate is checked by one weight per listed signature, which is the
  weight of its signers when they are distinct, and may not be otherwise (`HotStuffTypes.RepeatedSigner`).
- `HotStuffRotation.OwnLeaderExactly`: with new authorities, commit QCs of the base block whose views are
  not whole rounds apart lead to different leaders (`HotStuffRotation.LeadersDiffer`).
- `Aggregation.KeepsWeightsExactly`, `Aggregation.TotalExactly`, `Aggregation.PositiveExactly`: 32-bit sums
  of weights wrap around (`Aggregation.WrappedAway`).
- `RaftVotes.ResponseTerm`: a granted vote is answered with the term the voter had before the request
  (`RaftVotes.ResponseTermShared`).
- `RaftElection.RefreshDuringCampaign`, `RaftLeaders.PursuedTerm`: a committed block can raise the stored
  term of a candidate or leader past the term it was elected for, and two leaders can then work under one
  stored term (`RaftLeaders.TwoLeadersOneTerm`).
- `ChainSync.WithoutOne`: a commit message for a number strictly inside the download window splits it; only
  the order of the messages rules that out (`ChainSync.MiddleCommitted`).
- `ExecuteQueue.ProcessedLowers`: only the order of the queue keeps the execution number from going back
  (`ExecuteQueue.LateTaskLowers`).
- `ExecuteQueue.RebuiltAgrees`: a rebuilt task may carry another signature for the same transaction
  (`ExecuteQueue.SignedTwice`).
- `ExecutionGap.PreparesExact`: a proposer lets a true gap of 128 pass, because it becomes -128
  (`ExecutionGap.PreparesTooFar`).
- `BatchExecution.BlockContext.ExecuteTxs`: a meta batch after a payload batch is refused only after all
  its calls have been executed and settled (`BatchExecution.RefusedButSettled`).
- `Overlay.ModuleWriteSeen`: the writes of a module called by a contract land below the contract's own
  buffer (`Overlay.ModuleWriteHidden`), so they outlive a failure of the contract
  (`ContextTree.FailedCall`, `ContextTree.TransferOutlivesFailure`).
- `Connections.EventDisjoint`: the lists of a peer rest on connection ids being new
  (`Connections.EstablishedTwice`).
- `Connections.RunLinks`: connections that were refused, or whose handler closed while another was open,
  are not listed any more, so a peer can count as gone with a connection up (`Connections.GoneWithALink`).
- `Governance.PassesExactly`, `Governance.RunPositive`: votes and admin lists are added up in 32 bits
  (`Governance.WeightLost`, `Governance.RunWrapsAway`).

## Model

| member | source | states |
|---|---|---|
| `HotStuffSafety.NoTwoDecisions` | core/node/consensus/hotstuff/src/stream/state.rs:157-231 | Agreement: in every run of one height, from any start that refreshed storages can leave (each validator with its own commit QC of the base block, from which it rotates the leaders, and with prepare QC and lock for that block at or above it), with packets lost, repeated and reordered, timeouts, crashes with refreshes and block imports, two validators never decide different blocks, at whatever points of the run they decide. |
| `HotStuffSafety.OneLeaderAView` | core/node/consensus/hotstuff/src/stream.rs:243-267 | In every run: any two validators in the same view, at whatever points, work out the same leader, each from its own base QC. |
| `HotStuffSafety.VotesFollowProposal` | core/node/consensus/hotstuff/src/stream/state.rs:597-632 | In every good state: a message signed for the view its receiver leads finds the proposal of that view fixed and is a vote for it, so the leader never looks for a proposal it has not made. |
| `HotStuffSafety.CommitFixesBlock` | core/node/consensus/hotstuff/src/stream/state.rs:785-970 | From the same starts: once a commit QC for a block exists at view v, every prepare QC at v or later, formed anywhere in the run, is for that block. |
| `HotStuffSafety.RunMonotone` | core/node/consensus/hotstuff/src/stream.rs:505-616 | From any state of a run to any later one, crashes and the storage refreshes after them included: the view is above the base view, prepare QC and lock lie between the base view and the current view, and neither these three nor the set of decided blocks ever goes back. |
| `HotStuffSafety.RunInv` | core/node/consensus/hotstuff/src/stream/state.rs:333-531 | The invariant behind agreement (every signature, QC, proposal, stored value, pending NewView, ballot and packet is accounted for) holds in every state of every run. |
| `HotStuffSafety.StepInv` | core/node/consensus/hotstuff/src/stream/state.rs:289-371 | Every enabled step of every validator keeps that invariant, for its own state, for all other validators and for the packets in flight. |
| `HotStuffSafety.LoneAuthorityDecides` | core/node/consensus/hotstuff/src/stream/state.rs:499-555 | The runs are not empty: a height with one authority reaches a decision. |
| `HotStuffHeights.NextHeightStarts` | core/node/consensus/hotstuff/src/storage.rs:71-130 | The end of any run of a height, each storage refreshed on whatever commit QC its validator holds, is a start of the next height over the same authorities: the certificates kept above the base view included. |
| `HotStuffHeights.AgreementAtEveryHeight` | core/node/consensus/hotstuff/src/storage.rs:71-130 | Height after height, with only the first one assumed to begin well: no two validators decide different blocks at a height, and the next height is built on the block decided. |
| `HotStuffHeights.RefreshStorage` | core/node/consensus/hotstuff/src/storage.rs:71-130 | The refresh of the storage object is the step from one height to the next: view, prepare QC and lock raised over the new base, and none of them lowered. |
| `HotStuffHeights.LeadersAgreeAtEveryHeight` | core/node/consensus/hotstuff/src/stream.rs:243-267 | Height after height, with every validator rotating from whatever commit QC it took as its base: any two validators in the same view work out the same leader. |
| `HotStuffHeights.LateStart` | core/node/consensus/hotstuff/src/storage.rs:94-130 | Storages that keep a certificate above the base view are among the starts. |
| `HotStuffCore.AboveTop` | core/node/consensus/hotstuff/src/stream/state.rs:785-970 | Every certificate of a height is above all certificates for the base block that validators began with, because no quorum can vote in a view most of it has left. |
| `HotStuffCore.CommitExcludes` | core/node/consensus/hotstuff/src/stream/state.rs:459-497 | Over the core invariant: a commit QC excludes prepare QCs for other blocks at its view and later. |
| `HotStuffCoreSteps.LightLeader` | core/node/consensus/hotstuff/src/stream/state.rs:785-859 | A new prepare QC cannot conflict when the leader weighs at most (n-1)/3: a voter other than the leader took part in both quorums and applied the safe node rule. |
| `HotStuffCoreSteps.HeavyLeader` | core/node/consensus/hotstuff/src/stream/state.rs:333-397 | A new prepare QC cannot conflict when the leader weighs more: its own fresh NewView is in every quorum of NewViews, so its proposal starts from a certificate at least as high as its own pre-commit votes, although it votes without the safe node rule. |
| `HotStuffCoreSteps.SafeNodeSuffices` | core/node/consensus/hotstuff/src/stream/state.rs:785-859 | A replica whose lock lets a proposal pass keeps the rule that everything it committed to earlier is excluded or repeated. |
| `HotStuffProposeProof.TryWorkStep` | core/node/consensus/hotstuff/src/stream/state.rs:136-169 | The two-signal start of a proposal keeps the invariant on all paths: create, reuse a local proposal, wait for a remote one. |
| `HotStuffProposeProof.PendingSteps` | core/node/consensus/hotstuff/src/stream/state.rs:557-580 | Draining NewViews that were kept from any earlier or later view, in order, keeps the invariant. |
| `HotStuffProposeProof.NewViewStep` | core/node/consensus/hotstuff/src/stream/state.rs:333-371 | A NewView of any sender, whatever certificate it carries, keeps the leader's invariant. |
| `HotStuffProposeProof.BreaksOffExactly` | core/node/consensus/hotstuff/src/stream/state.rs:204-231 | Work breaks off (the draw from an empty range) exactly when the leader has to propose a certified block again that it does not store, and no NewView it holds of another validator carries the certificate. |
| `HotStuffBreakOff.BreaksOffInRuns` | core/node/consensus/hotstuff/src/stream/state.rs:204-231 | In every run: a validator that breaks off leads its view; its high QC is for a child of the base block that it does not store and that no NewView it holds of another carries; and this QC is its own stored prepare QC, or came in a NewView that another one of the same sender has replaced. |
| `HotStuffBreakOff.TickBreaksOff` | core/node/consensus/hotstuff/src/stream/state.rs:136-169 | In every run: the schedule signal makes a leader break off exactly when it is in that state and has neither proposed nor asked for the block. |
| `HotStuffBreakOffRuns.OwnCertBreaksOff` | core/node/consensus/hotstuff/src/stream/state.rs:861-895 | A run of three validators in which a leader breaks off on its own prepare QC, for a block it never received. |
| `HotStuffBreakOffRuns.ReplacedCertBreaksOff` | core/node/consensus/hotstuff/src/stream/state.rs:557-567 | A run of two validators in which a leader whose own prepare QC is the base QC breaks off on a certificate of the other, because a late NewView of that one took its place. |
| `HotStuffReplicaProof.ReplicaReply` | core/node/consensus/hotstuff/src/stream/state.rs:756-970 | Every message a replica accepts leads to a step that keeps the invariant and changes only this replica's own votes and storage. |
| `HotStuffReplicaProof.TimeoutStep` | core/node/consensus/hotstuff/src/stream.rs:505-608 | Timeout messages, the certificates they complete and the announced certificates only move a validator forward. |
| `HotStuffReplicaProof.RestartStep` | core/node/consensus/hotstuff/src/storage.rs:54-130 | A crash that keeps what the storage persists, and the refresh of the storage at the start after it, keep the invariant and lower nothing. |
| `Authorities.QuorumIntersection` | core/node/consensus/hotstuff/src/stream/state.rs:1171-1199 | Two sets of weight at least n-(n-1)/3 share weight at least (n-1)/3+1. |
| `Authorities.QuorumContainsHeavy` | core/node/consensus/hotstuff/src/stream/state.rs:1125-1156 | A set of quorum weight contains every member heavier than (n-1)/3. |
| `Authorities.ListWeightIsSetWeight` | core/node/consensus/hotstuff/src/stream/state.rs:1171-1199 | Adding weights one listed address at a time gives the weight of the set of addresses, when none is listed twice. |
| `Aggregation.AggregateAuthorities` | core/node/consensus/hotstuff/src/lib.rs:152-168 | For every list of u32 weights: addresses are distinct and are those listed with some weight; every set of addresses keeps its weight exactly when each address's listed sum is below 2^32; all weights are positive exactly when none of these sums is a positive multiple of 2^32; the u32 total is the true one exactly when that is below 2^32, and then the list is a valid set of authorities. |
| `Aggregation.KeepsWeightsExactly` | core/node/consensus/hotstuff/src/lib.rs:152-168 | Aggregation keeps the weight of every set of addresses exactly when each address's listed sum is below 2^32. |
| `Aggregation.TotalExactly` | core/node/consensus/hotstuff/src/stream/state.rs:1171-1199 | The 32-bit total of the aggregated weights is the true total of the raw list exactly when the latter is below 2^32. |
| `Aggregation.PositiveExactly` | core/module/contract/src/lib.rs:740-759 | Aggregated weights are all positive exactly when no address is listed with a sum that is a positive multiple of 2^32; a total below 2^32 is enough. |
| `Aggregation.AggregatedIs` | core/module/contract/src/lib.rs:740-759 | Each address listed with some weight occurs once, with the sum of its weights modulo 2^32. |
| `Aggregation.MergeMembers` | core/module/contract/src/lib.rs:740-759 | The loop computes that list. |
| `Aggregation.WrappedAway` | core/node/consensus/hotstuff/src/lib.rs:152-168 | An address listed twice with 2^31 ends up without weight. |
| `HotStuffCollectors.GetQCExact` | core/node/consensus/hotstuff/src/stream/state.rs:1171-1199 | For every iteration order of the hash map: a QC comes out exactly when the voters form a quorum, its signers are distinct collected voters of quorum weight, and the verifier accepts it. |
| `HotStuffCollectors.GetHighQCSound` | core/node/consensus/hotstuff/src/stream/state.rs:1125-1156 | For every iteration order: the certificate returned is the highest one among some quorum of senders that were walked over. |
| `HotStuffCollectors.GetTCAccepted` | core/node/consensus/hotstuff/src/stream.rs:1094-1121 | For every iteration order: a TC over admitted timeouts has distinct signers of quorum weight and the verifier accepts it. |
| `HotStuffTypes.VerifyQC` | core/node/consensus/hotstuff/src/stream.rs:960-1010 | The loop accepts exactly the certificates of view 0, and those of the expected type whose signatures all match and whose listed weights reach the quorum. |
| `HotStuffTypes.VerifyTC` | core/node/consensus/hotstuff/src/stream.rs:1012-1045 | The loop accepts exactly the certificates whose signatures all match and whose listed weights reach the quorum. |
| `HotStuffTypes.CertifiedIsAccepted` | core/node/consensus/hotstuff/src/stream.rs:960-1010 | A QC with distinct signers of quorum weight passes the verifier, with or without an expected type. |
| `HotStuffTypes.AcceptedExactly` | core/node/consensus/hotstuff/src/stream.rs:960-1010 | With distinct signers, a QC above view 0 is accepted exactly when it is of the expected type, each signature is for what the QC says, and the signers form a quorum. |
| `HotStuffTypes.AcceptedTCExactly` | core/node/consensus/hotstuff/src/stream.rs:1012-1045 | With distinct signers, a timeout certificate is accepted exactly when each signature is for its view and the signers form a quorum. |
| `HotStuffTypes.RepeatedSigner` | core/node/consensus/hotstuff/src/stream.rs:960-1010 | One signature listed three times is accepted where three members of weight 1 are the quorum. |
| `HotStuffValidator.CollectVotes` | core/node/consensus/hotstuff/src/stream/state.rs:1171-1199 | The loop over collected votes returns what the order-indexed specification returns, for the order it happens to use. |
| `HotStuffValidator.CollectNewViews` | core/node/consensus/hotstuff/src/stream/state.rs:1125-1156 | The loop over NewViews returns what the order-indexed specification returns. |
| `HotStuffValidator.CollectTimeouts` | core/node/consensus/hotstuff/src/stream.rs:1094-1121 | The loop over timeouts of a view returns what the order-indexed specification returns. |
| `HotStuffRotation.EveryAuthorityLeadsOnce` | core/node/consensus/hotstuff/src/stream.rs:243-267 | In each window of as many consecutive views as there are authorities, every authority leads exactly one view. |
| `HotStuffRotation.RebaseKeepsLeader` | core/node/consensus/hotstuff/src/stream.rs:243-267 | A commit QC made by the leader of its view, taken as the next base, changes the leader of no later view. |
| `HotStuffRotation.HeightsAgreeOnLeader` | core/node/consensus/hotstuff/src/stream.rs:243-267 | Validators at any two heights over the same authorities agree on the leader of every view above both bases. |
| `HotStuffRotation.OwnLeaderExactly` | core/node/consensus/hotstuff/src/stream.rs:243-267 | A validator with its own base QC works out the same leader as all others for every later view exactly when that QC was made by the leader of its view; with new authorities, exactly when its view is a whole number of rounds above the lowest base view. |
| `HotStuffRotation.LeadersDiffer` | core/node/consensus/hotstuff/src/stream.rs:243-267 | Two new authorities with base QCs of views 1 and 2 each take themselves for the leader of view 3. |
| `HotStuffValidator.Validator.DrainPending` | core/node/consensus/hotstuff/src/stream/state.rs:557-567 | The loop over pending NewViews equals handling them one after another in order. |
| `HotStuffValidator.Validator.SendToAll` | core/node/consensus/hotstuff/src/stream/state.rs:634-654 | The loop over members sends to everybody else, exactly once, and to nobody more. |
| `HotStuffValidator.Validator.Enter` | core/node/consensus/hotstuff/src/stream.rs:219-241 | Entering a view on the object: the invariant behind agreement is kept and nothing goes back. A replica sends its NewView to the leader the rotation gives it; a leader begins afresh with the NewViews it kept that are for this view and acceptable, the last of each sender, and its own, and has a high QC exactly when they come from a quorum. |
| `HotStuffValidator.Validator.Deliver` | core/node/consensus/hotstuff/src/stream.rs:376-411 | Any packet that is backed by facts, delivered to the object in whatever role. The invariant behind agreement is kept, view, prepare QC, lock and decided blocks do not go back, and the facts grow by the validator's own signatures and proposals alone. The outcome is the one stated on packets and fields in HotStuffAnswers: as a replica, the four answers of a round; as a leader, votes counted and quorums acted on; timeouts; proposals asked for and received; packets of others than members change nothing. |
| `HotStuffValidator.Validator.Tick` | core/node/consensus/hotstuff/src/stream/state.rs:136-155 | The schedule signal of a leader: the same invariant, and once both signals are there the leader proposes a new block, proposes the certified one again, or asks for it, by its high QC. |
| `HotStuffValidator.Validator.HandleProposal` | core/node/consensus/hotstuff/src/stream/state.rs:233-242 | A proposal that arrived for the leader: the same invariant, and exactly the block the leader is waiting for is proposed. |
| `HotStuffValidator.Validator.Expire` | core/node/consensus/hotstuff/src/stream.rs:471-503 | The view timer: the same invariant; the own timeout with its signature goes to everybody else and is counted. |
| `HotStuffValidator.Validator.Reboot` | core/node/consensus/hotstuff/src/storage.rs:54-130 | A crash and the start after it: the same invariant; view, proposals and decided blocks are what they were, prepare QC and lock are the stored ones raised onto the base, and everything else is as at a first start. |
| `HotStuffAnswers.ReplicaReceives` | core/node/consensus/hotstuff/src/stream/state.rs:756-970 | A replica's four answers, on packets and fields. A proposal is voted for exactly when its block is at hand, its certificate is accepted, and it agrees with that and with the lock unless the certificate is later. A prepare or pre-commit QC is stored and voted on. A commit QC decides the block whose proposal is stored and whose build is at hand; another build is dropped; without the proposal nothing changes. The vote is one packet to the leader; NewViews are kept; all else changes nothing. |
| `HotStuffAnswers.LeaderReceives` | core/node/consensus/hotstuff/src/stream/state.rs:289-531 | A leader counts exactly the valid votes for its proposal. On the first quorum of a phase, and only then, it stores the certificate made of these votes, sends it to everybody else and votes in the next phase, or decides. |
| `HotStuffAnswers.NewViewDoes` | core/node/consensus/hotstuff/src/stream/state.rs:333-397 | An acceptable NewView is held in place of an earlier one of its sender. The first quorum of them fixes a high QC that is the highest one among some quorum of those held, and the leader sets to work if it was scheduled. |
| `HotStuffAnswers.TickDoes` | core/node/consensus/hotstuff/src/stream/state.rs:136-231 | With both signals a leader proposes a new block on the base block, or the certified block again, or asks a validator whose NewView certified it for the block; with one of them missing it waits. |
| `HotStuffAnswers.RemoteDoes` | core/node/consensus/hotstuff/src/stream/state.rs:233-287 | A proposal that arrives is proposed exactly if it is the one waited for. |
| `HotStuffAnswers.TimeoutDoes` | core/node/consensus/hotstuff/src/stream.rs:505-608 | A timeout of a past view, badly signed, or with a refused certificate changes nothing. An accepted certificate of the current view or later moves the validator past its view. A timeout is counted under its sender, and exactly a quorum of them for a view makes a certificate, which is kept, goes to everybody else and moves the validator past that view. |
| `HotStuffAnswers.ExpireDoes` | core/node/consensus/hotstuff/src/stream.rs:471-503 | When the timer expires, the validator's signed timeout of its view goes to everybody else and is taken like any other. |
| `HotStuffAnswers.EnterDoes` | core/node/consensus/hotstuff/src/stream.rs:219-241 | Entering a view: the leader of the rotation, the NewView sent to it, or the NewViews a leader holds from the start. |
| `HotStuffAnswers.ReceiveAnswers` | core/node/consensus/hotstuff/src/stream.rs:376-411 | Any packet to a running validator: one of these answers, by its kind and the role; what an outsider sends is ignored. |
| `HotStuffAnswers.CertificateExactly` | core/node/consensus/hotstuff/src/stream/state.rs:1171-1199 | For every order that reaches all members: there is a certificate exactly when the voters are a quorum, and it is made of their votes. |
| `HotStuffAnswers.HighQCExactly` | core/node/consensus/hotstuff/src/stream/state.rs:1125-1156 | For every order that reaches all members: there is a high QC exactly when the senders are a quorum, and it is the highest certificate of some quorum of them. |
| `HotStuffAnswers.TCExactly` | core/node/consensus/hotstuff/src/stream.rs:1094-1121 | For every order that reaches all members: there is a timeout certificate exactly when the senders are a quorum, and it is made of their signatures. |
| `HotStuffDecidingRun.EverybodyDecides` | core/node/consensus/hotstuff/src/stream/state.rs:933-970 | A run of two validators, neither a quorum alone, in which both decide: the leader from the votes, the replica from the certificate. |
| `HotStuffStorage.Storage.Refresh` | core/node/consensus/hotstuff/src/storage.rs:71-200 | Rebasing raises view, prepare QC and lock just above or onto the new base, lowers none of them, persists what it changed, and keeps exactly the nodes and proposals whose parent is the base block. |
| `HotStuffStorage.Storage.constructor` | core/node/consensus/hotstuff/src/storage.rs:54-69 | Opening a fresh database, or one left by an earlier run, establishes the storage invariant. |
| `HotStuffStorage.Storage.Prune` | core/node/consensus/hotstuff/src/storage.rs:131-188 | Memory keeps the nodes and proposals of the confirmed block; the database becomes what the specification of pruning makes of it. |
| `HotStuffStorage.PrunedExactly` | core/node/consensus/hotstuff/src/storage.rs:159-188 | The persisted list of proposals is the list kept in memory exactly when no proposal was removed; if every listed proposal had its body, exactly then every listed one still has. |
| `HotStuffStorage.StaysListed` | core/node/consensus/hotstuff/src/storage.rs:159-188 | A database in which a removed proposal stays listed without its body. |
| `HotStuffStorage.Storage.RaiseStored` | core/node/consensus/hotstuff/src/storage.rs:71-130 | Each of the three values is repaired exactly when it is not above the new base, and the repair is written. |
| `HotStuffStorage.KeepChildren` | core/node/consensus/hotstuff/src/storage.rs:131-188 | The removal loop leaves exactly the entries of the given parent and reports the others. |
| `HotStuffStorage.Storage.UpdateView` | core/node/consensus/hotstuff/src/storage.rs:210-218 | Database and memory change together; a view that does not go back keeps the invariant. |
| `HotStuffStorage.Storage.UpdatePrepareQC` | core/node/consensus/hotstuff/src/storage.rs:224-232 | Database and memory change together; a QC between base and view keeps the invariant. |
| `HotStuffStorage.Storage.UpdateLockedQC` | core/node/consensus/hotstuff/src/storage.rs:238-246 | Database and memory change together; a QC between base and view keeps the invariant. |
| `HotStuffStorage.Storage.PutProposal` | core/node/consensus/hotstuff/src/storage.rs:264-292 | List and body of a proposal are persisted; a child of the base block keeps the invariant. |
| `HotStuffStorage.Reopen` | core/node/consensus/hotstuff/src/storage.rs:54-69 | Storage opened again on its own database has the same base and view; prepare QC and lock come back exactly when they are above the base or the base commit QC itself. |
| `RaftSplice.AppendSplices` | core/node/consensus/raft/src/stream.rs:420-505 | For consecutive request indices: an append succeeds exactly when it is current, well formed, its previous entry is in the log (base included) with that term, and its proposal is at hand; then the log is the old one cut after the previous entry followed by the entries, and otherwise a prefix of the old log. |
| `RaftSplice.AcceptedSplices` | core/node/consensus/raft/src/stream.rs:525-635 | A successful append also answers with the last index and term of the new log. |
| `RaftSplice.AppendAdopts` | core/node/consensus/raft/src/stream.rs:436-460 | A current append request is followed in term and commit index whatever becomes of its entries, a vote survives it exactly within its own term, and an outdated request changes nothing. |
| `RaftSplice.RefreshExact` | core/node/consensus/raft/src/storage.rs:67-176 | Term and commit index are raised to the base, a vote survives exactly when the term does, and the proposal exactly when the remaining log speaks of it. |
| `RaftSplice.RefreshDrops` | core/node/consensus/raft/src/storage.rs:121-144 | A base that has not gone back drops exactly the entries it covers. |
| `RaftSplice.LastIs` | core/node/consensus/raft/src/storage.rs:182-187 | The last index and term are those of the last entry of the log, or the base. |
| `RaftAnswers.AppendAnswers` | core/node/consensus/raft/src/stream.rs:420-505 | Every answer to an append request speaks for the node itself: its last index and term are an entry of the log the node then has, or its base; the base exactly when the previous entry is missing, the last entry otherwise. A current request without entries succeeds. |
| `RaftAnswers.AppendProposals` | core/node/consensus/raft/src/stream.rs:525-635 | The stored proposal becomes the one the entries speak of when it was that already or has been verified, and is cleared otherwise; a pending one stays exactly while it is that and has to wait; requests that stop earlier leave both. |
| `RaftAnswers.FirstProposalIs` | core/node/consensus/raft/src/stream.rs:530-533 | The proposal of a request is that of its first entry that proposes one. |
| `RaftAnswers.VoteAnswers` | core/node/consensus/raft/src/stream.rs:637-711 | For every vote request: when the vote is granted, what is stored, and that the answer carries the term from before. |
| `RaftAnswers.TermEvents` | core/node/consensus/raft/src/stream/state.rs:387-520 | A campaign takes the next term and the own vote; a later term in an answer is taken over without a vote, any other changes nothing. |
| `RaftAnswers.LeadExtends` | core/node/consensus/raft/src/stream/state.rs:337-356 | A leader's entry goes to the end of its log under its term, and nothing else changes. |
| `RaftLog.Splice` | core/node/consensus/raft/src/storage.rs:252-297 | On the keyed map: cutting after an index and inserting consecutive entries keeps the keys exactly base+1..last. |
| `RaftLog.RaiseBase` | core/node/consensus/raft/src/storage.rs:121-144 | Dropping the keys up to a new base drops a prefix of the log. |
| `RaftLog.AppendEntries` | core/node/consensus/raft/src/storage.rs:252-266 | The loop inserts each entry under its own index, later ones winning. |
| `RaftLog.DeleteFrom` | core/node/consensus/raft/src/storage.rs:268-297 | The loop removes exactly the keys from the given one on. |
| `RaftLog.DeleteTo` | core/node/consensus/raft/src/storage.rs:121-144 | The loop removes exactly the keys up to the given one. |
| `RaftVotes.VoteUniqueness` | core/node/consensus/raft/src/stream.rs:637-711 | Over every run of requests, campaigns, refreshes and crashes between any two writes, a node gives its vote to at most one address a term, its own campaign included. |
| `RaftVotes.GrantStored` | core/node/consensus/raft/src/stream.rs:637-711 | A granted vote is stored under the request's term before the answer, and only for a candidate whose last index and last term are both at least the node's own. |
| `RaftVotes.StepRemembers` | core/node/consensus/raft/src/storage.rs:75-100 | Each event, complete or cut off after any write, keeps every earlier vote on record or in a past term. |
| `RaftVotes.StepGuarded` | core/node/consensus/raft/src/storage.rs:75-100 | No event, complete or cut off after any write, takes back a term or, within its term, a vote. |
| `RaftVotes.LogsStayContiguous` | core/node/consensus/raft/src/storage.rs:121-144 | Over every run, crashes included, the stored keys are exactly base+1..last, each the index of its entry. |
| `RaftVotes.ResponseTerm` | core/node/consensus/raft/src/stream.rs:637-711 | A granting response carries the term of the vote exactly when the request brought no new term. |
| `RaftVotes.ResponseTermShared` | core/node/consensus/raft/src/stream.rs:637-711 | A concrete pair of granting responses with one term for two candidates. |
| `RaftElection.ElectionSafety` | core/node/consensus/raft/src/stream/state.rs:387-520 | In every run of a cluster with fixed authorities, messages lost, repeated and reordered and nodes crashing between any two writes, at most one candidate wins the election of a term. |
| `RaftElection.ActionKeeps` | core/node/consensus/raft/src/stream/state.rs:387-520 | Each step keeps the invariant: the votes counted come from distinct authorities that recorded them, and open requests go to authorities not yet counted. |
| `RaftElection.RefreshDuringCampaign` | core/node/consensus/raft/src/storage.rs:75-100 | A block committed during a campaign leaves the candidate under the term it is being elected for exactly when the block's proof names no later term. |
| `RaftLeaders.OneLeaderPerStoredTerm` | core/node/consensus/raft/src/stream/state.rs:86-100 | In every run of a cluster: two leaders, at whatever points, that work under the same stored term are one and the same, unless a block of a term later than its own election reached one of them since its campaign began. |
| `RaftLeaders.PursuedTerm` | core/node/consensus/raft/src/stream/state.rs:387-520 | In every run: a candidate or leader never works under a term below the one it campaigned for, and works under that very term exactly as long as no block of a later term was committed on its side since. |
| `RaftLeaders.TwoLeadersOneTerm` | core/node/consensus/raft/src/storage.rs:75-100 | A run of three nodes that ends with two leaders under one stored term. |
| `RaftFollower.Follower.OnReqAppendEntries` | core/node/consensus/raft/src/stream.rs:420-505 | The handler takes the step of the splice specification, database and memory agree after it, and it answers from the node's own log: success exactly for a current request without entries or with entries spliced in; last index and term are the node's last entry, or its base exactly when the previous entry is missing; no answer exactly when checking the proposal fails. The stored and the pending proposal are those the request leaves. |
| `RaftFollower.Follower.PerformAppendEntries` | core/node/consensus/raft/src/stream.rs:525-635 | Proposal checks and the final append: writes, pending proposal and answer, in order. |
| `RaftFollower.Follower.OnReqRequestVote` | core/node/consensus/raft/src/stream.rs:637-711 | The handler makes exactly the writes, in exactly the order, that the crash analysis assumes. It grants exactly to a candidate that is not outdated, when no leader was heard from, that reaches the node's last entry in index and term, and that nobody else's vote of the term precedes; term and vote are then stored, and otherwise what the request's term asks for. |
| `RaftFollower.Follower.Refresh` | core/node/consensus/raft/src/storage.rs:67-176 | Each of the four repairs is made exactly when needed, in order; memory ends up equal to the database. |
| `RaftFollower.Follower.constructor` | core/node/consensus/raft/src/storage.rs:52-65 | A restart on any database is a refresh of it. |
| `RaftFollower.Follower.AppendLogEntries` | core/node/consensus/raft/src/storage.rs:252-266 | Memory and database hold the extended log. |
| `RaftFollower.Follower.DeleteLogEntries` | core/node/consensus/raft/src/storage.rs:268-297 | Memory and database hold the cut log. |
| `RaftFollower.Follower.GetLastLogIndexTerm` | core/node/consensus/raft/src/storage.rs:182-187 | Last entry by key, or the base. |
| `RaftFollower.Follower.UpdateCurrentTerm` | core/node/consensus/raft/src/storage.rs:193-201 | One write, to the database and to memory. |
| `RaftFollower.Follower.UpdateCurrentVotedFor` | core/node/consensus/raft/src/storage.rs:207-218 | One write, to the database and to memory. |
| `RaftFollower.Follower.UpdateCommitLogIndex` | core/node/consensus/raft/src/storage.rs:224-235 | One write, to the database and to memory. |
| `RaftFollower.Follower.UpdateProposal` | core/node/consensus/raft/src/storage.rs:307-315 | One write, to the database and to memory. |
| `PeerManager.RunOk` | core/node/peer-manager/src/lib.rs:147-305 | Over every run of operations from any configuration: the counters equal the real counts and stay within their maxima, active and inactive peers are disjoint, reserved-only leaves reserved peers alone active, and the active peers are exactly the connections of a network that obeys the messages sent. |
| `PeerManager.ActivateOk` | core/node/peer-manager/src/lib.rs:197-220 | Activation keeps the invariant, tells the network exactly what it changed, and on return a waiting eligible peer means full outgoing slots and a waiting reserved peer means no normal peer in an outgoing slot. |
| `PeerManager.RoundProgress` | core/node/peer-manager/src/lib.rs:197-220 | Each round of activation lowers the measure (free outgoing slots, normal outgoing peers, inactive peers) lexicographically, although a replaced peer goes back to the inactive list. |
| `PeerManager.ApplyOk` | core/node/peer-manager/src/lib.rs:147-305 | Every single operation keeps the invariant and reports its changes. |
| `PeerManager.InsertActiveOk` | core/node/peer-manager/src/lib.rs:342-413 | Insertion, replacement of the first normal peer and refusal keep counters, maxima and distinctness, and say exactly which peers are active afterwards. |
| `PeerManager.RemoveActiveOk` | core/node/peer-manager/src/lib.rs:415-427 | Removal keeps counters and distinctness. |
| `PeerManager.ReportBans` | core/node/peer-manager/src/lib.rs:269-305 | A score below the minimum makes the manager forget that peer, active or waiting, and nobody else; any other report changes no peer. |
| `PeerManager.OutcomeOf` | core/node/peer-manager/src/lib.rs:147-305 | What each operation brings about, on valid states: settings, reserved set, scores, known and active peers and messages, as in the rows of the methods below. |
| `PeerManager.ActivateOnly` | core/node/peer-manager/src/lib.rs:197-220 | Activation keeps all incoming and all reserved active peers, adds only outgoing ones that waited, and takes away only normal outgoing ones. |
| `PeerManager.StartOk` | core/node/peer-manager/src/lib.rs:109-141 | The initial state satisfies the invariant and is settled. |
| `PeerManager.StartKnows` | core/node/peer-manager/src/lib.rs:109-141 | At first the manager knows exactly the reserved and the boot peers, under the given settings, and all active peers have outgoing slots. |
| `PeerManager.Manager.ActivatePeers` | core/node/peer-manager/src/lib.rs:197-220 | The loop ends for every state, valid or not, and equals its specification. |
| `PeerManager.Manager.Insert` | core/node/peer-manager/src/lib.rs:342-413 | Insertion in place equals its specification. |
| `PeerManager.Manager.Remove` | core/node/peer-manager/src/lib.rs:415-427 | Removal in place equals its specification. |
| `PeerManager.Manager.TakePeer` | core/node/peer-manager/src/lib.rs:446-473 | The first reserved waiting peer is taken, otherwise, unless reserved-only, the first other one. |
| `PeerManager.Manager.OnDiscovered` | core/node/peer-manager/src/lib.rs:147-153 | A peer not yet active is known afterwards and free slots are filled; an active one changes nothing. The manager stays valid, tells the network exactly what it changed, and only adds waiting peers to outgoing slots or takes away normal outgoing ones. |
| `PeerManager.Manager.OnDropped` | core/node/peer-manager/src/lib.rs:155-159 | The slot of a lost peer is freed, the peer stays known, and the slots are filled again; settings and scores stay. The manager stays valid and reports its changes. |
| `PeerManager.Manager.OnIncoming` | core/node/peer-manager/src/lib.rs:161-195 | Exactly one answer per incoming id, with the whole new table: refused without a trace when only reserved peers may come; accepted when the peer is active or a slot is free; accepted in place of the first normal peer, which is dropped and waits, if the peer is reserved; refused and kept waiting otherwise. |
| `PeerManager.Manager.OnAddReserved` | core/node/peer-manager/src/lib.rs:226-233 | The reserved set grows by exactly the peer, which is known afterwards; an active one changes nothing else, and otherwise the slots are settled with the reserved ahead. |
| `PeerManager.Manager.OnRemoveReserved` | core/node/peer-manager/src/lib.rs:235-243 | The reserved set shrinks by exactly the peer. Under reserved-only the peer is not active afterwards and a Drop for it goes out first; otherwise only activation changes the table. The slots are settled. |
| `PeerManager.Manager.OnSetReservedOnly` | core/node/peer-manager/src/lib.rs:245-267 | The flag is the argument; reserved peers, maxima, scores and known peers stay. With it set, no active peer is left outside the reserved ones, and a Drop went out for each of those that were active; the slots are settled. The manager stays valid and reports its changes. |
| `PeerManager.Manager.OnReport` | core/node/peer-manager/src/lib.rs:269-305 | The score is the old one plus the difference, cut to 32 bits; below the threshold the peer, and nobody else, is forgotten and the slots are settled; otherwise the score alone changes. |
| `ChainSync.RunKeeps` | core/node/coordinator/src/sync.rs:380-430 | Over every run with commit messages in block order, the pending numbers form one contiguous interval of at most 2560 numbers above everything announced. |
| `ChainSync.NextKeeps` | core/node/coordinator/src/sync.rs:500-578 | Growing, shrinking, taking the first block, commit messages and relabelling each keep the window contiguous and bounded. |
| `ChainSync.RenewedIs` | core/node/coordinator/src/sync.rs:380-430 | On a contiguous window: the numbers that renewal adds, all seen, or the entries that stay, as in the row of MaintainNew. |
| `ChainSync.ReachesBestPeer` | core/node/coordinator/src/sync.rs:394-411 | With room for all of them, the last pending number is the best peer's. |
| `ChainSync.WithoutOne` | core/node/coordinator/src/sync.rs:332-333 | Removing one number from a contiguous window leaves a contiguous one exactly when it is not strictly inside. |
| `ChainSync.MiddleCommitted` | core/node/coordinator/src/sync.rs:332-333 | A commit message for the middle one of three pending numbers splits the window. |
| `ChainSync.MakeSeenGroups` | core/node/coordinator/src/sync.rs:885-921 | The concatenation of the groups is exactly the list of seen numbers in order; sizes are 1..max; two groups touch only where the first is full. |
| `ChainSyncRequests.MaintainSeen` | core/node/coordinator/src/sync.rs:432-498 | Every request asks a different vacant peer, which holds all the blocks, for a disjoint range of seen numbers; window and peers change by exactly the requests; for a group left over no vacant peer had the blocks. |
| `ChainSyncRequests.PickPeer` | core/node/coordinator/src/sync.rs:436-449 | The peer chosen is vacant, has the blocks and has the least confirmed number of those; none is chosen only if there is none. |
| `ChainSyncRequests.AssignedIs` | core/node/coordinator/src/sync.rs:432-498 | Every number requested in a pass is downloading from the peer asked under the id of its request, and every other entry is what it was. |
| `ChainSyncRequests.EmployedExactly` | core/node/coordinator/src/sync.rs:432-498 | A peer that was asked has the job of its request, and all others have theirs. |
| `ChainSyncRequests.ServeRequest` | core/node/coordinator/src/sync.rs:144-243 | A peer answers a request of the scheduler with exactly the blocks asked for, all of them seen by the asker. |
| `ChainSyncRequests.ServeAscending` | core/node/coordinator/src/sync.rs:144-243 | The answer holds consecutive blocks from the start, as many as asked for (at least one) or up to the last confirmed one. |
| `ChainSyncRequests.Sync.MaintainNew` | core/node/coordinator/src/sync.rs:380-430 | With last the highest pending number, or the chain's, and bound the best peer's number, at most 2560 pending ones allowing: a window that grows keeps its entries and gets exactly last+1..bound, all seen; one that shrinks keeps exactly the entries up to the bound, with their states. The best peer is one of the peers and none has a higher number; without peers nothing changes. |
| `ChainSyncRequests.Sync.HandOut` | core/node/coordinator/src/sync.rs:432-498 | One pass on the scheduler's own state: the numbers requested are downloading from the peers asked, these have the jobs of their requests, all else is as it was, and the window is kept. |
| `ChainSyncRequests.Sync.Synchronise` | core/node/coordinator/src/sync.rs:361-365 | First the window is renewed against the best peer, then every group of seen numbers is requested from a vacant peer that has it, unless there is none; the window is kept. |
| `ChainSyncRequests.Sync.OnBlockCommitted` | core/node/coordinator/src/sync.rs:323-350 | A commit message of any block takes its number out of the window, which stays one contiguous interval exactly when the number is not strictly inside; a message in block order never breaks it. |
| `ChainSyncRequests.Sync.OnProtocolClose` | core/node/coordinator/src/sync.rs:106-122 | Exactly the numbers being downloaded from a lost peer are seen again, the peer is gone, and a pass over the rest follows; the window stays. |
| `ChainSyncRequests.Sync.MaintainDownloaded` | core/node/coordinator/src/sync.rs:500-578 | Downloaded blocks leave from the front only, as many as meet a verdict up to the first that is no commit. What is left is stated in full: a waiting block comes back, a bad one takes the other blocks of its peer with it, an error ends the pass at once with no peer asked for anything; the chain's number grows by the commits, and otherwise a pass follows. |
| `ChainSyncRequests.Sync.TakeVerified` | core/node/coordinator/src/sync.rs:500-578 | The loop over the verdicts: how many blocks meet one, what is left of the window, and how far the chain got. |
| `ExecuteQueue.RunGood` | core/node/chain/src/execute.rs:95-220 | Over every run of commits, executions, failures, crashes and restarts, every block up to the execution number has the execution built on its parent's execution, and that number never passes the confirmed one. |
| `ExecuteQueue.RunMonotone` | core/node/chain/src/backend.rs:1101-1133 | The execution number never decreases between two points of a run. |
| `ExecuteQueue.CatchesUp` | core/node/chain/src/execute.rs:95-113 | Whatever failed or was lost before, a task that goes through leaves every block up to its own executed. |
| `ExecuteQueue.ProcessedSound` | core/node/chain/src/execute.rs:95-113 | One task executes the missing blocks in order and then its own; it ends at its own number, or right before the first block that failed. |
| `ExecuteQueue.ProcessedLowers` | core/node/chain/src/execute.rs:95-113 | Out of order: a task lowers the execution number exactly when its block is behind it and executes. |
| `ExecuteQueue.LateTaskLowers` | core/node/chain/src/execute.rs:95-113 | A run after which the first block's task, coming once more, sets the execution number back from 2 to 1. |
| `ExecuteQueue.RebuiltAgrees` | core/node/chain/src/execute.rs:116-168 | At every point of a run the execute task rebuilt from the store agrees with the queued one in everything an execution depends on, and equals it exactly when the store files the same signed transactions. |
| `ExecuteQueue.RebuiltEquals` | core/node/chain/src/lib.rs:206-227 | When no committed block repeats a transaction, every rebuilt task equals the queued one. |
| `ExecuteQueue.SignedTwice` | core/node/chain/src/backend.rs:1045-1064 | A run of two blocks with one transaction signed twice, after which the first block's rebuilt task carries the second signature. |
| `ExecuteQueue.CommittedSound` | core/node/chain/src/backend.rs:1019-1099 | Committing the next block keeps the store linked, keeps all executions and describes the queued task. |
| `ExecuteQueue.CommitDoes` | core/node/chain/src/backend.rs:1019-1099 | The whole effect of a commit on the store and the queue, as in the row of CommitBlock. |
| `ExecuteQueue.PutTxsAre` | core/node/chain/src/backend.rs:1045-1064 | Filing transactions leaves, under each hash, the last one listed, or what was there. |
| `ExecuteQueue.ProcessDoes` | core/node/chain/src/execute.rs:79-113 | The whole effect of a task, as in the row of ProcessNext. |
| `ExecuteQueue.CrashDoes` | core/node/chain/src/backend.rs:1019-1099 | A commit before a crash leaves the same store, and a restart an empty queue. |
| `ExecuteQueue.Chain.CommitBlock` | core/node/chain/src/backend.rs:628-668 | A known hash is a duplicate and a block not right on top is not the best; neither changes anything. Any other becomes the confirmed block under its number, with header and list of payload transactions, all transactions of both kinds are filed by hash, the execution state stays, and one task is queued last. |
| `ExecuteQueue.Chain.ProcessTask` | core/node/chain/src/execute.rs:95-113 | The loop equals the catch-up specification, stops at the first failure included. |
| `ExecuteQueue.Chain.ProcessNext` | core/node/chain/src/execute.rs:79-93 | The worker takes the first task of the queue. Afterwards that block and all before it are executed, or everything up to right before the first block that failed, and none that failed is; blocks and transactions stay what they are. |
| `ExecuteQueue.Chain.ExecuteTask` | core/node/chain/src/execute.rs:170-220 | A task executes only on top of its parent's execution; nothing changes on failure. |
| `ExecuteQueue.Chain.RebuildTask` | core/node/chain/src/execute.rs:116-168 | The execute task from the store, or none when a part is missing. |
| `ExecuteQueue.Chain.LoadTxs` | core/node/chain/src/execute.rs:139-154 | All transactions of a body in order, or none when one is missing. |
| `ExecuteQueue.Chain.StoreTxs` | core/node/chain/src/backend.rs:1045-1064 | The loop files each transaction under its hash, later ones winning. |
| `ExecutionGap.ChainGaps` | core/node/coordinator/src/verifier.rs:142-193 | Along every accepted chain the i8 gap is the true difference between the number and the execution number, lies in 1..max, and execution numbers never decrease. |
| `ExecutionGap.ProposalExact` | core/node/consensus/hotstuff/src/verifier.rs:115-176 | With execution not ahead of the chain, the check on narrow, wrapping integers accepts exactly what the rule on plain integers accepts, and the gap built is the true one. |
| `ExecutionGap.HeaderExact` | core/node/coordinator/src/verifier.rs:142-193 | The same for the check of a downloaded header. |
| `ExecutionGap.VerifiersAgree` | core/node/chain/src/backend.rs:533-560 | A block built from an accepted proposal passes the header check in the same state and names the same execution number. |
| `ExecutionGap.NarrowCheckAlone` | core/node/consensus/raft/src/verifier.rs:133-167 | The range check alone sees the difference modulo 256. |
| `ExecutionGap.PreparesExact` | core/node/consensus/base/src/support.rs:132-195 | A proposer's own check equals the verifiers' rule except at a true gap of exactly 128. |
| `ExecutionGap.PreparesTooFar` | core/node/consensus/base/src/support.rs:179-187 | A concrete state in which a node prepares a block that every verifier refuses. |
| `BatchExecution.BlockContext.ExecuteTxs` | core/node/executor/src/lib.rs:516-631 | For every batch: the verdict, the settled stores, the recorded transactions and receipts are those of running the calls one after another on plain stores with failed calls as no-ops, up to the first error; buffers and events are empty afterwards unless a system error broke off. |
| `BatchExecution.Execute` | core/node/executor/src/lib.rs:135-208 | A call reads, writes and emits through the layered buffers exactly as on plain stores. |
| `BatchExecution.GoesThrough` | core/node/executor/src/lib.rs:516-548 | A batch runs to its end exactly when all modules are known and of one kind and no call breaks off. |
| `BatchExecution.StopsAt` | core/node/executor/src/lib.rs:516-600 | A batch that stops does so at the first transaction whose module is unknown, or of another kind than the first one's, or whose call breaks off; the error says which, in this order. |
| `BatchExecution.EachPerformed` | core/node/executor/src/lib.rs:561-600 | Every transaction works on the stores its predecessor left, and its receipt carries its hash, the block number, its outcome and, if it returned, its events; only then its writes stay. |
| `BatchExecution.RecordedIs` | core/node/executor/src/lib.rs:601-631 | An accepted batch extends the lists of its kind by all transactions and receipts, a refused one none; at its end a batch is refused exactly when it is one of meta calls after one of payload calls. |
| `BatchExecution.LastWriteIsRead` | core/node/executor/src/lib.rs:135-208 | A call that writes and emits in a row and then reads a key goes on with the last value written to that key of that store, or the one it began with; all keys of both stores read alike, and the events are those emitted, in order. |
| `BatchExecution.RefusedButSettled` | core/node/executor/src/lib.rs:601-631 | A meta batch after a payload batch that is refused and yet changed the settled stores. |
| `BatchExecution.StepsDoNotMatter` | core/node/executor/src/lib.rs:561-567 | The bound on accesses of a call has no influence on a call that ends within it. |
| `BatchExecution.BlockContext.ExecuteTx` | core/node/executor/src/lib.rs:561-600 | One transaction: everything it did is settled, or nothing, with one receipt that carries hash, number, outcome and, if it returned, the events. |
| `ExecutorContext.Context.Accept` | core/node/executor/src/lib.rs:568-576 | What the transaction saw becomes the settled state; buffers and events are empty. |
| `ExecutorContext.Context.Reject` | core/node/executor/src/lib.rs:577-584 | Every trace of the transaction goes. |
| `ExecutorContext.Context.PayloadGet` | core/node/executor/src/lib.rs:167-178 | The layered read finds the value of the plain store. |
| `ExecutorContext.Context.MetaGet` | core/node/executor/src/lib.rs:135-146 | The layered read finds the value of the plain store. |
| `ExecutorContext.Context.PayloadSet` | core/node/executor/src/lib.rs:179-183 | A write changes the plain store at one key. |
| `ExecutorContext.Context.MetaSet` | core/node/executor/src/lib.rs:147-151 | A write changes the plain store at one key. |
| `ExecutorContext.ExtendedByDrained` | core/node/executor/src/lib.rs:152-166 | Whatever order a map drains in, extending with its items merges the two maps. |
| `ExecutorContext.DrainMap` | core/node/executor/src/lib.rs:184-193 | Draining lists every binding exactly once, in an arbitrary order. |
| `Balance.BatchKeepsTotal` | core/module/balance/src/lib.rs:83-121 | Any batch of balance calls after genesis goes through and keeps the total of all balances, every balance staying a u64. |
| `Balance.ExecuteBalanceBatch` | core/node/executor/src/lib.rs:516-631 | The same through the buffered context: accepted, one receipt each, same total. |
| `Balance.NoOverflow` | core/module/balance/src/lib.rs:105-108 | While the total fits a u64, the overflow error is out of reach after any batch. |
| `Balance.TransferMeans` | core/module/balance/src/lib.rs:83-121 | A transfer succeeds exactly when it is signed, to another account, covered and within a u64; it moves the amount, and otherwise fails without a trace. |
| `Balance.MovedTotal` | core/module/balance/src/lib.rs:99-111 | Sender and recipient change by the amount, nothing else does, the total stays. |
| `Overlay.RunRefines` | core/module/contract/src/vm.rs:46-215 | For the innermost context of a stack, at any depth: any run of derive, set, emit, commit, discard and leave on shared buffers reads at every level what a stack of whole separate stores would. |
| `Overlay.StepRefines` | core/module/contract/src/vm.rs:98-215 | One operation: a commit leaves the child's reads alone and makes the parent's equal to them, a discard restores the parent's view, nothing else moves between levels. |
| `Overlay.FailedCall` | core/module/contract/src/vm.rs:67-90 | A failed nested call, of any body and depth, leaves every context on the stack as it was. |
| `Overlay.SuccessfulCall` | core/module/contract/src/vm.rs:67-90 | A successful nested call hands its caller exactly the world it ended with and touches no other level. |
| `Overlay.ModuleWriteSeen` | core/module/contract/src/vm.rs:452-465 | A contract reads what a module call wrote on its behalf exactly when its own buffer holds nothing, or the same, for that key. |
| `Overlay.ModuleWriteHidden` | core/module/contract/src/vm.rs:459-464 | A concrete case in which it does not. |
| `ContextTree.SetPayloadSeen` | core/module/contract/src/vm.rs:148-155 | Any context sets a key while parents, children and siblings are alive: a context reads the new value exactly when it is this one or derived from it and no cell in between holds the key; nothing else changes for anybody. |
| `ContextTree.SetMetaSeen` | core/module/contract/src/vm.rs:106-113 | The same for the other store. |
| `ContextTree.EmitSeen` | core/module/contract/src/vm.rs:182-189 | An event goes after everything its context has seen and before what derived contexts hold back; nobody else sees it. |
| `ContextTree.DeriveSeen` | core/module/contract/src/vm.rs:67-90 | A derived context reads what the one it came from reads; all others read what they read. |
| `ContextTree.ApplySeen` | core/module/contract/src/vm.rs:122-181 | Items applied through a context go over the world of the one below it: that one and all derived from it read them through the cells in between, and nobody else notices. |
| `ContextTree.DrainSeen` | core/module/contract/src/vm.rs:156-163 | A discard by any context: it and those derived from it read the parent's world in the parts discarded, each through its own cells, and nobody else notices. |
| `ContextTree.CommitSeen` | core/module/contract/src/vm.rs:156-181 | A commit by any context: it and all derived from it read what they read; the parent reads what it reads; siblings see that through their own cells; nobody else notices. |
| `ContextTree.RunInside` | core/module/contract/src/vm.rs:478-530 | Over any run of the contexts of one subtree, in any interleaving, everything outside stays as it was, but for what the root of the subtree applied below itself. |
| `ContextTree.FailedCall` | core/node/vm/src/import.rs:469-500 | A failed nested call, whatever its contexts did: every context outside reads what it read, but for the module writes the called contract applied below its own cell, which stay; with none of these nothing changes. The kept context of the call reads its caller's world again. |
| `ContextTree.SuccessfulCall` | core/node/vm/src/import.rs:434-467 | A successful nested call: in the parts committed the caller reads exactly the world the call ended with, contexts derived from the caller see it through their own cells, and nobody else notices. |
| `ContextTree.TransferOutlivesFailure` | core/node/vm/src/import.rs:358-386 | For every key and value: a nested contract whose module call went through and that fails afterwards leaves the value with its caller. |
| `StackedContext.Finish` | core/module/contract/src/vm.rs:122-215 | On the shared cells: after commit or discard parent and child objects read the same, the child's or the parent's former world. |
| `StackedContext.Stack.DeriveChild` | core/module/contract/src/vm.rs:67-90 | The child shares every cell of its parent, adds fresh ones and reads the same world; the three stacks keep one height. |
| `StackedContext.Stack.constructor` | core/module/contract/src/vm.rs:47-66 | A first context reads what the executor's context reads. |
| `StackedContext.Stack.PayloadGet` | core/module/contract/src/vm.rs:140-147 | The reverse scan finds the value of the innermost level that has one, else the executor's. |
| `StackedContext.Stack.MetaGet` | core/module/contract/src/vm.rs:98-105 | The reverse scan finds the value of the innermost level that has one, else the executor's. |
| `StackedContext.Scan` | core/module/contract/src/vm.rs:98-105 | The loop from the top returns the innermost hit. |
| `StackedContext.Stack.PayloadApply` | core/module/contract/src/vm.rs:164-181 | The items go into the level below, or one by one into the executor's context. |
| `StackedContext.Stack.MetaApply` | core/module/contract/src/vm.rs:122-139 | The level below is picked by the height of the payload stack and is the right one. |
| `StackedContext.Stack.ApplyEvents` | core/module/contract/src/vm.rs:198-215 | The events go after those of the level below, or into the executor's context, in order. |
| `StackedContext.Stack.PayloadSet` | core/module/contract/src/vm.rs:148-155 | Only the innermost cell changes; the context reads the value under the key and everything else as before. |
| `StackedContext.Stack.MetaSet` | core/module/contract/src/vm.rs:106-113 | Only the innermost cell changes; the context reads the value under the key and everything else as before. |
| `StackedContext.Stack.EmitEvent` | core/module/contract/src/vm.rs:182-189 | Only the innermost journal changes; the context has the event after all it has seen. |
| `StackedContext.Stack.PayloadDrain` | core/module/contract/src/vm.rs:156-163 | The innermost cell is emptied, its bindings listed once each. |
| `StackedContext.Stack.MetaDrain` | core/module/contract/src/vm.rs:114-121 | The innermost cell is emptied, its bindings listed once each. |
| `StackedContext.Stack.DrainEvents` | core/module/contract/src/vm.rs:190-197 | The innermost journal is emptied and returned in order. |
| `Connections.RunGood` | core/node/network/src/protocol.rs:330-896 | Over every run with connection ids new when established, answers of the peer manager included: per peer, opens and closes strictly alternate, the peer is opened exactly when its last event is an open, the lists are disjoint, neither state is without connections, every incoming id in use is below the next one, and an id is held by one connection of one peer at most. |
| `Connections.EventDisjoint` | core/node/network/src/protocol.rs:600-655 | The two lists stay apart exactly as long as no connection already open is established and taken in again. |
| `Connections.EstablishedTwice` | core/node/network/src/protocol.rs:600-655 | An open connection that is established once more is in both lists. |
| `Connections.AnsweredOnce` | core/node/network/src/protocol.rs:330-409 | An incoming id that was answered is never in use again. |
| `Connections.OneWaits` | core/node/network/src/protocol.rs:330-409 | At most one connection, of one peer, waits for an incoming id. |
| `Connections.EventPlayed` | core/node/network/src/protocol.rs:761-896 | What an event gives out leads from the view of the old state to the view of the new one. |
| `Connections.EventReacts` | core/node/network/src/protocol.rs:486-896 | Every event on every state: the lists of waiting and open connections afterwards and exactly the notifications given out, stated on the lists alone. |
| `Connections.AnswerDoes` | core/node/network/src/protocol.rs:330-409 | An answer of the peer manager: an unused id changes nothing, an accepted one opens the connection that waits for it or tells that the peer is gone, a refused one closes the whole peer; the id is spent and no list changes. |
| `Connections.EstablishedAnswered` | core/node/network/src/protocol.rs:551-655 | A further connection is kept and told to open when we dialled it or another one, and otherwise left out and told to close; what is open stays open. |
| `Connections.DroppedMeans` | core/node/network/src/protocol.rs:664-758 | A peer leaves its last listed connection exactly when the peer manager is told so. |
| `Connections.RunLinks` | core/node/network/src/protocol.rs:551-896 | Over every run with new ids: the connections listed of a peer are exactly those that are up and were neither refused as further ones nor closed by their handler while another was open; so a peer counts as gone exactly when all its connections that are up were forgotten in one of these ways. |
| `Connections.GoneWithALink` | core/node/network/src/protocol.rs:822-896 | A run after which the peer counts as gone and the peer manager has been told so, while a connection is up. |
| `Connections.SendsWhenOpen` | core/node/network/src/protocol.rs:129-146 | A message can go out exactly to peers whose last event is an open, over an open connection. |
| `Connections.Protocol.InjectConnectionEstablished` | core/node/network/src/protocol.rs:486-661 | A new connection keeps the network good; it waits, or is left out and closed, by who dialled, and exactly the notifications for that go out. When an incoming id is spent on it, that id was in nobody's hands, and this connection is the one that waits for it afterwards. |
| `Connections.Protocol.InjectConnectionClosed` | core/node/network/src/protocol.rs:664-758 | The network stays good, the connection is listed no more, exactly the notifications for what was lost go out, and the peer is left without listed connections exactly when the peer manager is told so. |
| `Connections.Protocol.InjectProtocolOpen` | core/node/network/src/protocol.rs:763-821 | The network stays good; a known connection moves to the open ones, the first of them is announced, and the outside, replaying all events, sees its peer open. |
| `Connections.Protocol.InjectProtocolClose` | core/node/network/src/protocol.rs:822-896 | The network stays good; the connection moves or goes as stated on the lists, and afterwards the outside sees the peer open exactly when another connection of it is. |
| `Connections.Protocol.FindWaiting` | core/node/network/src/protocol.rs:345-395 | The search through a peer's connections finds the one that waits for the id exactly when there is one, and no other connection of any peer waits for it. |
| `Connections.Protocol.PeerManagerAccept` | core/node/network/src/protocol.rs:330-409 | The network stays good and the id is spent; the connection told to open is the one that waits for the id, a peer that is gone is reported lost, and no list changes. |
| `Governance.RunGood` | core/module/contract/src/lib.rs:464-573 | Over every run of calls: admin lists are distinct, a stored proposal is numbered one below its counter and has distinct voters, code and code hash exist for exactly the versions 1..current, and every update that passed was carried by distinct voters whose weight in the admin list of that moment reached its threshold. |
| `Governance.HistoryIsKept` | core/module/contract/src/lib.rs:515-573 | Between any two points of a run, the code and hash of every version stay what they were. |
| `Governance.VoteTakesEffect` | core/module/contract/src/lib.rs:464-573 | With enough weight the proposed admins, or the proposed code under the next version, are in force and the proposal is gone; otherwise it is stored with the sender among its voters; nothing else of the contract changes. |
| `Governance.OutcomeOf` | core/module/contract/src/lib.rs:195-573 | What each call brings about, stated without the vote list's own rule: the voters of a new proposal are its proposer, a vote adds the sender to the earlier voters, and it passes exactly when the wrapped weight of them all reaches the threshold. |
| `Governance.VotersOverRuns` | core/module/contract/src/lib.rs:464-573 | Over every run of calls: the voters of a stored proposal are exactly the one who opened it and those who have voted for it since. |
| `Governance.PassIsRightful` | core/module/contract/src/lib.rs:464-513 | A passed update has distinct voters of enough current weight, even where the 32-bit sum wraps around. |
| `Governance.PassesExactly` | core/module/contract/src/lib.rs:464-513 | A proposal passes exactly when the weight of its voters modulo 2^32 reaches the threshold; so what passes has the weight, and what has the weight passes as long as it fits 32 bits. |
| `Governance.WeightLost` | core/module/contract/src/lib.rs:484-487 | Two admins of weight 2^31 under the highest threshold: their votes add up to zero and the proposal does not pass, although their weight reaches it. |
| `Governance.RunPositive` | core/module/contract/src/lib.rs:464-573 | Over every run whose proposed admin lists do not wrap to zero, all stored and all proposed admins have positive weight. |
| `Governance.RunWrapsAway` | core/module/contract/src/lib.rs:740-759 | A run in which a list does wrap and leaves a contract to an admin without weight. |
| `Governance.ChangeNeedsPass` | core/module/contract/src/lib.rs:464-573 | Admins and version of a contract change by a passed update alone. |
| `Governance.AggregateAdmin` | core/module/contract/src/lib.rs:740-759 | The threshold stays, addresses are distinct, and all weights are positive exactly when no address is listed with a sum that is a positive multiple of 2^32. |
| `Governance.Module.SumVotes` | core/module/contract/src/lib.rs:484-487 | The fold over the votes, wrapping, with weight zero for former admins. |
| `Governance.Module.AdminVoteAndPass` | core/module/contract/src/lib.rs:464-513 | The number after the proposal's is next. The voters carry it exactly when their weight modulo 2^32 reaches the threshold: then the proposed admins are in force and the proposal is gone, and otherwise it is stored with exactly these voters. Nothing else changes. |
| `Governance.Module.CodeVoteAndPass` | core/module/contract/src/lib.rs:515-573 | The same for code: a carried one becomes the next version with its hash, all earlier ones staying. |
| `Governance.Module.VerifySender` | core/module/contract/src/lib.rs:447-462 | On contracts in order, a sender gets through exactly when the contract exists and its admin list names the sender. |
| `Governance.Module.CreateContract` | core/module/contract/src/lib.rs:195-229 | A creation succeeds exactly when it is signed and its initialisation succeeds; then one contract at version 1 is added, of which the creator is the only admin, with weight 1; otherwise nothing changes. Good contracts stay good. |
| `Governance.Module.ProposeAdmin` | core/module/contract/src/lib.rs:243-280 | An admin opens a proposal with the aggregated list under the next number, in place of any earlier one, whose voters are the proposer alone; it passes at once exactly if their weight suffices. Errors in the order of the code, and none leaves a trace; no other contract changes. |
| `Governance.Module.VoteAdmin` | core/module/contract/src/lib.rs:282-307 | An admin votes for the stored proposal if the number matches: the voters are the earlier ones and the sender, and it passes exactly if their weight modulo 2^32 reaches the threshold. Errors in the order of the code, and none leaves a trace; no other contract changes. |
| `Governance.Module.ProposeCode` | core/module/contract/src/lib.rs:309-346 | An admin opens a code proposal under the next number, whose voters are the proposer alone; it passes at once exactly if their weight suffices. Errors in the order of the code, and none leaves a trace; no other contract changes. |
| `Governance.Module.VoteCode` | core/module/contract/src/lib.rs:348-375 | An admin votes for the stored code proposal if the number matches: the voters are the earlier ones and the sender, and it passes exactly if their weight modulo 2^32 reaches the threshold. Errors in the order of the code, and none leaves a trace; no other contract changes. |

## Left out

- Byzantine validators in HotStuff: `verify_qc` adds one weight per listed signature, so distinct signers are only known for certificates that collectors build (`HotStuffTypes.RepeatedSigner`).
- Authority changes between HotStuff heights, validators at different heights in one state, a leader that is still inside a certified view when the next height begins, and one that restarts inside the view it leads: heights are joined one after another, and a validator that leaves a height takes no further step in it.
- Blocks that a leader builds once the block of its height is on the chain: they belong to the next height, and the model builds none.
- HotStuff observers and the liveness of timeouts and rotation.
- Raft log matching between nodes, the commit index and replication by a leader: the commit rule does not look at terms, and the base of a log is the committing node's own last index.
- Writes to a database that fail while the process goes on: a failed write is a crash.
- ChainSyncRequests.Sync.MaintainDownloaded: the verdicts of the block verifier are an input.
- Overlay.RunRefines: speaks of the innermost context of a stack; ContextTree covers every context, and objects that share cells are tied to the stack alone.
- ExecutionGap.NarrowCheckAlone: states what the range check sees, not that it is enough; it is not.
- Balance.BatchKeepsTotal: speaks of balance calls; contracts that call the balance module go through the nested routing of the contract module and are not covered.
- The `latency` subtraction of the scheduler, partial block responses and request timers.
- The transaction pool, whose buffer channel is asynchronous.
- The version of a contract after 2^32 - 1 code updates, contract addresses that collide, and incoming ids after 2^64 connections.
- Hashing, signatures, address derivation, the SCALE and JSON codecs, the tries and the database itself.
- Wasm compilation and execution, transport and discovery, RPC, command line, configuration and macros.
- Timers, randomness and wall-clock time appear as steps that may happen at any time, or as inputs.
- The poa, raft and hotstuff modules, whose proposals work like those of the contract module.
