/** Replica votes, view changes, timeouts, proposals and restarts keep the invariant. */
module HotStuffReplicaProof {
  import opened Authorities
  import opened HotStuffTypes
  import opened HotStuffCollectors
  import opened HotStuffNode
  import opened HotStuffCore
  import opened HotStuffCoreSteps
  import opened HotStuffSystem
  import opened HotStuffLocal
  import opened HotStuffLeaderProof
  import opened HotStuffProposeProof

  ghost predicate LocalStep(c: Config, nodes: Nodes, l: Local, l': Local) {
    LocalInv(c, nodes, l') && Ready(c) && Progress(c, l, l')
  }

  lemma LocalStepTransitive(c: Config, nodes: Nodes, l: Local, l': Local, l'': Local)
    requires LocalStep(c, nodes, l, l') && LocalStep(c, nodes, l', l'')
    ensures LocalStep(c, nodes, l, l'')
  {
    hide LocalInv, Grows;
    GrowsTransitive(c, l.me, l.facts, l'.facts, l''.facts);
  }

  lemma Unchanged(c: Config, nodes: Nodes, l: Local)
    requires LocalInv(c, nodes, l)
    ensures LocalStep(c, nodes, l, l)
  {
    hide NodeOk, PacketsOk, CoreOf;
    ReadyHere(c, nodes, l);
  }

  lemma SendStep(c: Config, nodes: Nodes, l: Local, ps: set<Packet>)
    requires LocalInv(c, nodes, l) && PacketsOk(c, l.facts, ps)
    ensures LocalStep(c, nodes, l, SendOut(l, ps))
  {
    hide LocalInv, PacketsOk;
    ReadyHere(c, nodes, l);
    Send(c, nodes, l, ps);
  }

  ghost predicate ReplicaInv(c: Config, nodes: Nodes, l: Local) {
    LocalInv(c, nodes, l) && Running(l.st) && !l.st.isLeader
  }

  lemma ReplicaParts(c: Config, nodes: Nodes, l: Local)
    requires ReplicaInv(c, nodes, l)
    ensures ValidConfig(c) && l.st.currentLeader == LeaderOf(c, l.st.view) && l.st.currentLeader != l.me
  {
    hide CoreInv, CoreOf, PacketsOk, MemoryOk;
    LocalParts(c, nodes, l);
  }

  // ---------------------------------------------------------------- votes

  lemma VoteStep(c: Config, nodes: Nodes, l: Local, t: MessageType, node: Node)
    requires ReplicaInv(c, nodes, l) && Ready(c) && Domain(c, CoreOf(nodes, l))
    requires t in {Prepare, PreCommit, Commit}
    requires MaySign(c, CoreOf(nodes, l), Signature(l.me, t, l.st.view, node, l.st.currentLeader))
    ensures LocalStep(c, nodes, l, SendVote(l, t, node))
  {
    hide LocalInv, MaySign, CoreOf, Grows;
    var g := Signature(l.me, t, l.st.view, node, l.st.currentLeader);
    ReplicaParts(c, nodes, l);
    SignLocal(c, nodes, l, g);
    var m := ConsensusMessage(t, l.st.view, Some(node), None, Some(g));
    var ps := {Packet(l.me, l.st.currentLeader, Consensus(m))};
    assert PacketOk(c, Sign(l, g).facts, Packet(l.me, l.st.currentLeader, Consensus(m)));
    SendStep(c, nodes, Sign(l, g), ps);
    LocalStepTransitive(c, nodes, l, Sign(l, g), SendOut(Sign(l, g), ps));
  }

  lemma MaySignPrepare(c: Config, nodes: Nodes, l: Local, m: ConsensusMessage)
    requires ReplicaInv(c, nodes, l) && Ready(c) && MessageOk(c, l.facts, m) && m.messageType == Prepare
    requires m.view == l.st.view && m.justify.Some? && SafeNode(c, l.st.lockedQC, m.node.value, m.justify.value)
    ensures Domain(c, CoreOf(nodes, l))
    ensures MaySign(c, CoreOf(nodes, l), Signature(l.me, Prepare, l.st.view, m.node.value, l.st.currentLeader))
  {
    hide NodeOk, PacketsOk, CoreAt, CoreInv, BaseCert, GoodJustify;
    ReplicaParts(c, nodes, l);
    CoreHere(nodes, l);
    var k := CoreOf(nodes, l);
    ProposalJustified(c, k, m.view);
    StoredOf(c, k, l.me);
    hide CoreOf;
    forall v: nat | v < l.st.view && Voted(c, k.f, l.me, Commit, v) ensures CertifiedSince(k.f, v, m.node.value.blockHash) {
      SafeNodeSuffices(c, k, l.me, m.node.value, m.justify.value, v);
    }
  }

  lemma ProposalJustified(c: Config, k: Core, w: nat)
    requires CoreInv(c, k) && w in k.f.props
    ensures Domain(c, k) && GoodJustify(c, k.f, k.f.props[w].justify)
  {
    assert PropOk(c, k, w);
  }

  lemma PrepareReply(c: Config, nodes: Nodes, l: Local, m: ConsensusMessage)
    requires ReplicaInv(c, nodes, l) && Ready(c) && MessageOk(c, l.facts, m) && m.messageType == Prepare && m.view == l.st.view
    ensures LocalStep(c, nodes, l, ReplicaPrepare(c, l, m))
  {
    hide LocalInv, Grows, MaySign, SendVote, AcceptsQC, CoreOf;
    Unchanged(c, nodes, l);
    if m.justify.Some? {
      if SafeNode(c, l.st.lockedQC, m.node.value, m.justify.value) {
        MaySignPrepare(c, nodes, l, m);
        VoteStep(c, nodes, l, Prepare, m.node.value);
      }
    }
  }

  lemma QcOfView(c: Config, k: Core, q: QC)
    requires CoreInv(c, k) && q in k.f.qcs
    ensures Domain(c, k) && q.view in k.f.props && q.node == k.f.props[q.view].node
  {
    assert QcOk(c, k.f, q);
  }

  lemma StorePrepareStep(c: Config, nodes: Nodes, l: Local, q: QC)
    requires ReplicaInv(c, nodes, l) && q in l.facts.qcs && q.messageType == Prepare && q.view == l.st.view
    ensures LocalStep(c, nodes, l, WithPrepareQC(l, q)) && ReplicaInv(c, nodes, WithPrepareQC(l, q))
  {
    hide CoreInv, NodeOk, PacketsOk, CoreOf;
    LocalParts(c, nodes, l);
    CoreHere(nodes, l);
    StorePrepareLocal(c, nodes, l, q);
  }

  lemma MaySignPreCommit(c: Config, nodes: Nodes, l: Local)
    requires ReplicaInv(c, nodes, l) && Ready(c) && l.st.prepareQC.view == l.st.view
    requires l.st.prepareQC in l.facts.qcs && l.st.prepareQC.messageType == Prepare
    ensures Domain(c, CoreOf(nodes, l))
    ensures MaySign(c, CoreOf(nodes, l), Signature(l.me, PreCommit, l.st.view, l.st.prepareQC.node, l.st.currentLeader))
  {
    hide CoreInv, CoreAt, NodeOk, PacketsOk;
    ReplicaParts(c, nodes, l);
    CoreHere(nodes, l);
    StoredOf(c, CoreOf(nodes, l), l.me);
    QcOfView(c, CoreOf(nodes, l), l.st.prepareQC);
    hide CoreOf, GoodJustify, BaseCert;
  }

  lemma PreCommitReply(c: Config, nodes: Nodes, l: Local, m: ConsensusMessage)
    requires ReplicaInv(c, nodes, l) && Ready(c) && MessageOk(c, l.facts, m) && m.messageType == PreCommit && m.view == l.st.view
    ensures LocalStep(c, nodes, l, ReplicaPreCommit(c, l, m))
  {
    hide ReplicaInv, Grows, MaySign, SendVote, AcceptsQC, CoreOf, LocalInv;
    ReplicaLocal(c, nodes, l);
    Unchanged(c, nodes, l);
    if m.justify.Some? {
      var q := m.justify.value;
      var l1 := WithPrepareQC(l, q);
      StorePrepareStep(c, nodes, l, q);
      MaySignPreCommit(c, nodes, l1);
      VoteStep(c, nodes, l1, PreCommit, q.node);
      LocalStepTransitive(c, nodes, l, l1, SendVote(l1, PreCommit, q.node));
    }
  }

  lemma ReplicaLocal(c: Config, nodes: Nodes, l: Local)
    requires ReplicaInv(c, nodes, l)
    ensures LocalInv(c, nodes, l)
  {
    hide LocalInv;
  }

  lemma StoreLockStep(c: Config, nodes: Nodes, l: Local, q: QC)
    requires ReplicaInv(c, nodes, l) && q in l.facts.qcs && q.messageType == PreCommit && q.view == l.st.view
    ensures LocalStep(c, nodes, l, WithLock(l, q)) && ReplicaInv(c, nodes, WithLock(l, q))
  {
    hide CoreInv, NodeOk, PacketsOk, CoreOf;
    LocalParts(c, nodes, l);
    CoreHere(nodes, l);
    StoreLockLocal(c, nodes, l, q);
  }

  lemma MaySignCommit(c: Config, nodes: Nodes, l: Local)
    requires ReplicaInv(c, nodes, l) && Ready(c) && l.st.lockedQC.view == l.st.view
    requires l.st.lockedQC in l.facts.qcs && l.st.lockedQC.messageType == PreCommit
    ensures Domain(c, CoreOf(nodes, l))
    ensures MaySign(c, CoreOf(nodes, l), Signature(l.me, Commit, l.st.view, l.st.lockedQC.node, l.st.currentLeader))
  {
    hide CoreInv, CoreAt, NodeOk, PacketsOk;
    ReplicaParts(c, nodes, l);
    CoreHere(nodes, l);
    StoredOf(c, CoreOf(nodes, l), l.me);
    QcOfView(c, CoreOf(nodes, l), l.st.lockedQC);
    hide CoreOf, GoodJustify, BaseCert;
  }

  lemma CommitReply(c: Config, nodes: Nodes, l: Local, m: ConsensusMessage)
    requires ReplicaInv(c, nodes, l) && Ready(c) && MessageOk(c, l.facts, m) && m.messageType == Commit && m.view == l.st.view
    ensures LocalStep(c, nodes, l, ReplicaCommit(c, l, m))
  {
    hide ReplicaInv, Grows, MaySign, SendVote, AcceptsQC, CoreOf, LocalInv;
    ReplicaLocal(c, nodes, l);
    Unchanged(c, nodes, l);
    if m.justify.Some? {
      var q := m.justify.value;
      var l1 := WithLock(l, q);
      StoreLockStep(c, nodes, l, q);
      MaySignCommit(c, nodes, l1);
      VoteStep(c, nodes, l1, Commit, q.node);
      LocalStepTransitive(c, nodes, l, l1, SendVote(l1, Commit, q.node));
    }
  }

  lemma DecideReply(c: Config, nodes: Nodes, l: Local, m: ConsensusMessage)
    requires LocalInv(c, nodes, l) && Ready(c) && MessageOk(c, l.facts, m) && m.messageType == Decide
    ensures LocalStep(c, nodes, l, ReplicaDecide(c, l, m))
  {
    hide LocalInv, DecideBlock, AcceptsQC;
    Unchanged(c, nodes, l);
    if m.justify.Some? {
      DecideLocal(c, nodes, l, m.justify.value);
      DecideFrame(l, m.justify.value);
    }
  }

  lemma KeepMemory(c: Config, l: Local, m: ConsensusMessage, from: Address, st': NodeState)
    requires MemoryOk(c, l.facts, l.me, l.st) && from != l.me
    requires m.justify.Some? ==> GoodJustify(c, l.facts, m.justify.value)
    requires st' == l.st.(pendingNewViews := l.st.pendingNewViews + [(m, from)])
    ensures MemoryOk(c, l.facts, l.me, st')
  {
  }

  lemma KeepNewView(c: Config, nodes: Nodes, l: Local, m: ConsensusMessage, from: Address)
    requires LocalInv(c, nodes, l) && from != l.me && MessageOk(c, l.facts, m) && m.messageType.NewView?
    ensures LocalStep(c, nodes, l, l.(st := l.st.(pendingNewViews := l.st.pendingNewViews + [(m, from)])))
  {
    hide CoreInv, CoreOf, RoleOk, PacketsOk, MemoryOk;
    var l' := l.(st := l.st.(pendingNewViews := l.st.pendingNewViews + [(m, from)]));
    LocalParts(c, nodes, l);
    RoleSame(c, l.facts, l.me, l.st, l'.st);
    KeepMemory(c, l, m, from, l'.st);
    SetState(c, nodes, l, l');
  }

  lemma ReplicaReply(c: Config, nodes: Nodes, l: Local, m: ConsensusMessage, from: Address)
    requires ReplicaInv(c, nodes, l) && Ready(c) && MessageOk(c, l.facts, m) && from != l.me
    ensures LocalStep(c, nodes, l, ReplicaMessage(c, l, m, from))
  {
    hide ReplicaInv, LocalStep, MessageOk, ReplicaPrepare, ReplicaPreCommit, ReplicaCommit, ReplicaDecide;
    ReplicaLocal(c, nodes, l);
    Unchanged(c, nodes, l);
    match m.messageType
    case NewView => KeepNewView(c, nodes, l, m, from);
    case Prepare => if m.view == l.st.view { PrepareReply(c, nodes, l, m); }
    case PreCommit => if m.view == l.st.view { PreCommitReply(c, nodes, l, m); }
    case Commit => if m.view == l.st.view { CommitReply(c, nodes, l, m); }
    case Decide => if m.view == l.st.view { DecideReply(c, nodes, l, m); }
  }

  // ---------------------------------------------------------------- leader dispatch

  lemma VoteAdmitted(c: Config, nodes: Nodes, l: Local, m: ConsensusMessage, from: Address)
    requires LeaderInv(c, nodes, l) && MessageOk(c, l.facts, m) && m.view == l.st.view && AdmitsVote(l, m, from)
    ensures GoodVote(l, from, m, m.messageType)
  {
    hide LocalInv;
  }

  lemma LeaderReply(c: Config, nodes: Nodes, l: Local, m: ConsensusMessage, from: Address, env: Env)
    requires LeaderInv(c, nodes, l) && Ready(c) && ValidEnv(c, env) && MessageOk(c, l.facts, m) && from != l.me
    ensures LeaderStep(c, nodes, l, LeaderMessage(c, l, m, from, env))
  {
    hide LeaderInv, LeaderStep, ValidEnv, GoodVote, AddPrepareVote, AddPreCommitVote, AddCommitVote, LeaderNewView;
    NoChange(c, nodes, l);
    if m.view == l.st.view {
      if m.messageType.NewView? {
        NewViewStep(c, nodes, l, m, from, env);
      } else if AdmitsVote(l, m, from) {
        VoteAdmitted(c, nodes, l, m, from);
        match m.messageType
        case Prepare => PrepareVote(c, nodes, l, from, m, env);
        case PreCommit => PreCommitVote(c, nodes, l, from, m, env);
        case Commit => CommitVote(c, nodes, l, from, m, env);
        case Decide =>
      }
    }
  }

  // ---------------------------------------------------------------- entering a view

  lemma NotProposedYet(c: Config, nodes: Nodes, l: Local)
    requires LocalInv(c, nodes, l) && !Running(l.st) && Ready(c) && LeaderOf(c, l.st.view) == l.me
    ensures l.st.view !in l.facts.props
  {
    hide CoreInv, CoreOf, MemoryOk, PacketsOk;
  }

  function AsLeader(c: Config, l: Local): Local
    requires Ready(c)
  {
    l.(st := l.st.(running := Some(l.st.view), isLeader := true, currentLeader := LeaderOf(c, l.st.view),
                   leader := FRESH_LEADER, pendingNewViews := []))
  }

  lemma BecomeLeader(c: Config, nodes: Nodes, l: Local)
    requires LocalInv(c, nodes, l) && !Running(l.st) && Ready(c) && LeaderOf(c, l.st.view) == l.me
    ensures LeaderInv(c, nodes, AsLeader(c, l)) && LocalStep(c, nodes, l, AsLeader(c, l))
    ensures GoodPending(c, l.facts, l.me, l.st.pendingNewViews)
  {
    hide CoreInv, CoreOf, PacketsOk;
    LocalParts(c, nodes, l);
    NotProposedYet(c, nodes, l);
    SetState(c, nodes, l, AsLeader(c, l));
  }

  lemma LeadView(c: Config, nodes: Nodes, l: Local, envs: seq<Env>)
    requires LocalInv(c, nodes, l) && !Running(l.st) && Ready(c) && LeaderOf(c, l.st.view) == l.me
    requires |envs| > |l.st.pendingNewViews| && forall i :: 0 <= i < |envs| ==> ValidEnv(c, envs[i])
    ensures LocalStep(c, nodes, l, EnterView(c, l, envs))
    ensures LeaderInv(c, nodes, EnterView(c, l, envs)) && EnterView(c, l, envs).st.view == l.st.view && EnterView(c, l, envs).me == l.me
  {
    hide LeaderInv, Grows, ValidEnv, ProcessPending, LeaderNewView;
    OwnLeaderHere(c, nodes, l);
    BecomeLeader(c, nodes, l);
    var l1 := AsLeader(c, l);
    var l2 := ProcessPending(c, l1, l.st.pendingNewViews, envs);
    PendingSteps(c, nodes, l1, l.st.pendingNewViews, envs);
    OwnNewView(c, nodes, l2);
    var own := ConsensusMessage(NewView, l2.st.view, None, Some(l2.st.prepareQC), None);
    var l3 := LeaderNewView(c, l2, own, l.me, envs[|l.st.pendingNewViews|]);
    NewViewStep(c, nodes, l2, own, l.me, envs[|l.st.pendingNewViews|]);
    LeaderStepTransitive(c, nodes, l1, l2, l3);
    LeaderIsLocal(c, nodes, l1, l3);
    LocalStepTransitive(c, nodes, l, l1, l3);
  }

  lemma LeaderIsLocal(c: Config, nodes: Nodes, l: Local, l': Local)
    requires LeaderStep(c, nodes, l, l')
    ensures LocalStep(c, nodes, l, l')
  {
    hide LocalInv, Progress;
  }

  lemma SendOwnNewView(c: Config, nodes: Nodes, l: Local)
    requires LocalInv(c, nodes, l) && l.st.currentLeader != l.me
    ensures LocalStep(c, nodes, l, SendNewView(l))
  {
    hide CoreInv, CoreOf, NodeOk;
    LocalParts(c, nodes, l);
    CoreHere(nodes, l);
    var m := ConsensusMessage(NewView, l.st.view, None, Some(l.st.prepareQC), None);
    assert PacketOk(c, l.facts, Packet(l.me, l.st.currentLeader, Consensus(m)));
    SendStep(c, nodes, l, {Packet(l.me, l.st.currentLeader, Consensus(m))});
  }

  /** The leader a validator works out from its own base QC is the leader of the view. */
  lemma OwnLeaderHere(c: Config, nodes: Nodes, l: Local)
    requires LocalInv(c, nodes, l) && Ready(c)
    ensures OwnLeader(c, l.me, l.st.view) == LeaderOf(c, l.st.view)
  {
    hide OwnLeader, LeaderOf, NodeOk, PacketsOk, SignedOk, QcsOk, PropsOk, AllStoredOk, PhasesOk, PreCommitsStored, CommitsLocked, ReplicasSafe, HeavyLeaders, NoConflict;
    RefreshedView(c, nodes, l);
    CoreHere(nodes, l);
    assert l.me in c.bases;
  }

  lemma FollowView(c: Config, nodes: Nodes, l: Local, envs: seq<Env>)
    requires LocalInv(c, nodes, l) && !Running(l.st) && Ready(c) && LeaderOf(c, l.st.view) != l.me
    requires |envs| > |l.st.pendingNewViews|
    ensures LocalStep(c, nodes, l, EnterView(c, l, envs))
  {
    hide CoreInv, CoreOf, PacketsOk, MemoryOk, NewViewsOk, BallotsOk;
    LocalParts(c, nodes, l);
    OwnLeaderHere(c, nodes, l);
    hide OwnLeader;
    var l1 := l.(st := l.st.(running := Some(l.st.view), isLeader := false, currentLeader := LeaderOf(c, l.st.view)));
    MemorySame(c, l.facts, l.me, l.st, l1.st);
    SetState(c, nodes, l, l1);
    SendOwnNewView(c, nodes, l1);
    LocalStepTransitive(c, nodes, l, l1, SendNewView(l1));
  }

  // ---------------------------------------------------------------- timeouts

  /** A view reached by a certificate is new to its leader. */
  lemma FreshView(c: Config, k: Core, a: Address, w: nat)
    requires CoreInv(c, k) && Ready(c) && a in k.views && k.views[a] < w && LeaderOf(c, w) == a
    ensures w !in k.f.props
  {
    assert w in k.f.props ==> PropOk(c, k, w);
  }

  function WithTimeouts(l: Local, view: nat, timeouts: map<nat, map<Address, SignedTimeout>>, tc: Option<TC>): Local {
    l.(st := l.st.(view := view, timeouts := timeouts, timeoutTC := tc))
  }

  lemma LaterRole(c: Config, nodes: Nodes, l: Local, l': Local)
    requires LocalInv(c, nodes, l) && Ready(c) && l.st.running.Some? && l.st.running.value <= l.st.view < l'.st.view
    requires l'.me == l.me && l'.facts == l.facts && l'.st == l.st.(view := l'.st.view, timeouts := l'.st.timeouts, timeoutTC := l'.st.timeoutTC)
    ensures RoleOk(c, l'.facts, l'.me, l'.st) && MemoryOk(c, l'.facts, l'.me, l'.st)
  {
    hide CoreInv, CoreOf, PacketsOk;
    CoreHere(nodes, l);
    if LeaderOf(c, l'.st.view) == l.me { FreshView(c, CoreOf(nodes, l), l.me, l'.st.view); }
  }

  /** A later view, with timeouts in order, keeps the invariant. */
  lemma LaterView(c: Config, nodes: Nodes, l: Local, view: nat, timeouts: map<nat, map<Address, SignedTimeout>>, tc: Option<TC>)
    requires LocalInv(c, nodes, l) && l.st.running.Some? && l.st.running.value <= l.st.view < view
    requires tc.Some? ==> tc.value.view < view
    requires forall v :: v in timeouts ==> TimeoutsFor(timeouts[v], v)
    ensures LocalStep(c, nodes, l, WithTimeouts(l, view, timeouts, tc))
  {
    hide CoreInv, CoreOf, PacketsOk, RoleOk, MemoryOk;
    var l' := WithTimeouts(l, view, timeouts, tc);
    LocalParts(c, nodes, l);
    CoreHere(nodes, l);
    LaterRole(c, nodes, l, l');
    Advance(c, CoreOf(nodes, l), l.me, view);
    LaterCore(nodes, l, l');
  }

  lemma LaterCore(nodes: Nodes, l: Local, l': Local)
    requires l'.me == l.me && l'.facts == l.facts && l'.st.prepareQC == l.st.prepareQC && l'.st.lockedQC == l.st.lockedQC
    ensures CoreOf(nodes, l') == CoreOf(nodes, l).(views := CoreOf(nodes, l).views[l.me := l'.st.view])
  {
    CoreIs(nodes, l);
    CoreIs(nodes, l');
    hide CoreOf, ViewsOf, PrepsOf, LocksOf;
  }

  lemma TimeoutsHere(c: Config, nodes: Nodes, l: Local)
    requires LocalInv(c, nodes, l)
    ensures TimeoutsOk(l.st)
  {
    hide CoreInv, CoreOf, PacketsOk, RoleOk, MemoryOk;
  }

  lemma AdvanceLocal(c: Config, nodes: Nodes, l: Local, view: nat)
    requires LocalInv(c, nodes, l) && l.st.running.Some? && l.st.running.value <= l.st.view <= view
    ensures LocalStep(c, nodes, l, AdvanceView(l, view))
  {
    hide LocalInv, LocalStep;
    TimeoutsHere(c, nodes, l);
    LaterView(c, nodes, l, view + 1, AdvanceView(l, view).st.timeouts, l.st.timeoutTC);
  }

  lemma AddTimeoutStep(c: Config, nodes: Nodes, l: Local, from: Address, m: SignedTimeout)
    requires LocalInv(c, nodes, l) && m.sig == Some(TimeoutSignature(from, m.view))
    ensures var l' := AddTimeout(l, from, m);
      LocalStep(c, nodes, l, l') && m.view in l'.st.timeouts && TimeoutsFor(l'.st.timeouts[m.view], m.view)
  {
    hide CoreInv, CoreOf, PacketsOk, RoleOk, MemoryOk;
    var l' := AddTimeout(l, from, m);
    LocalParts(c, nodes, l);
    RoleSame(c, l.facts, l.me, l.st, l'.st);
    MemorySame(c, l.facts, l.me, l.st, l'.st);
    SetState(c, nodes, l, l');
  }

  /** A timeout certificate takes the validator past its view. */
  lemma CertifiedTimeout(c: Config, nodes: Nodes, l: Local, tc: TC)
    requires LocalInv(c, nodes, l) && l.st.running.Some? && l.st.running.value <= l.st.view <= tc.view
    ensures LocalStep(c, nodes, l, LeaveView(c, l, tc))
  {
    hide LocalInv, Grows;
    var l' := AdvanceView(l.(st := l.st.(timeoutTC := Some(tc))), tc.view);
    TimeoutsHere(c, nodes, l);
    LaterView(c, nodes, l, tc.view + 1, l'.st.timeouts, Some(tc));
    assert l' == WithTimeouts(l, tc.view + 1, l'.st.timeouts, Some(tc));
    var payload := Timeout(TimeoutMessage(TimeoutDecide, tc.view, Some(tc), None));
    BroadcastOk(c, l'.facts, l.me, payload);
    SendStep(c, nodes, l', Broadcast(c, l.me, payload));
    LocalStepTransitive(c, nodes, l, l', SendOut(l', Broadcast(c, l.me, payload)));
  }

  lemma CollectAfter(c: Config, nodes: Nodes, l: Local, m: SignedTimeout, from: Address, env: Env)
    requires LocalInv(c, nodes, l) && Ready(c) && ValidEnv(c, env) && m.sig == Some(TimeoutSignature(from, m.view))
    requires l.st.running.Some? && l.st.running.value <= l.st.view <= m.view
    ensures LocalStep(c, nodes, l, CountTimeout(c, l, m, from, env))
  {
    hide LocalInv, Grows, AddTimeout, CollectTC, LeaveView;
    ReadyHere(c, nodes, l);
    var l2 := AddTimeout(l, from, m);
    AddTimeoutStep(c, nodes, l, from, m);
    AddTimeoutFrame(l, from, m);
    GetTCAccepted(c.members, l2.st.timeouts[m.view], env.timeoutOrder, m.view);
    match CollectTC(c.members, l2.st.timeouts[m.view], env.timeoutOrder, 0, [])
    case None =>
    case Some(tc) =>
      CertifiedTimeout(c, nodes, l2, tc);
      LocalStepTransitive(c, nodes, l, l2, LeaveView(c, l2, tc));
  }

  lemma AddTimeoutFrame(l: Local, from: Address, m: SignedTimeout)
    ensures var l' := AddTimeout(l, from, m);
      && l'.me == l.me && l'.st.view == l.st.view && l'.st.running == l.st.running && m.view in l'.st.timeouts
  {
  }

  lemma NewTimeoutStep(c: Config, nodes: Nodes, l: Local, m: TimeoutMessage, from: Address, env: Env)
    requires LocalInv(c, nodes, l) && Running(l.st) && Ready(c) && ValidEnv(c, env)
    requires TimeoutOk(m) && m.messageType == NewTimeout && m.view >= l.st.view
    ensures LocalStep(c, nodes, l, OnNewTimeout(c, l, m, from, env))
  {
    hide LocalInv, LocalStep, CountTimeout, AcceptsTC;
    Unchanged(c, nodes, l);
    if m.sig == Some(TimeoutSignature(from, m.view)) {
      if m.justify.Some? && m.justify.value.view >= l.st.view {
        if AcceptsTC(m.justify.value, c.members) {
          var l1 := AdvanceView(l, m.justify.value.view);
          AdvanceLocal(c, nodes, l, m.justify.value.view);
          StepLocal(c, nodes, l, l1);
          CollectAfter(c, nodes, l1, m, from, env);
          LocalStepTransitive(c, nodes, l, l1, OnNewTimeout(c, l, m, from, env));
        }
      } else {
        CollectAfter(c, nodes, l, m, from, env);
      }
    }
  }

  lemma StepLocal(c: Config, nodes: Nodes, l: Local, l': Local)
    requires LocalStep(c, nodes, l, l')
    ensures LocalInv(c, nodes, l')
  {
    hide LocalInv;
  }

  lemma TimeoutStep(c: Config, nodes: Nodes, l: Local, m: TimeoutMessage, from: Address, env: Env)
    requires LocalInv(c, nodes, l) && Running(l.st) && Ready(c) && ValidEnv(c, env) && TimeoutOk(m)
    ensures LocalStep(c, nodes, l, OnTimeoutMessage(c, l, m, from, env))
  {
    hide LocalInv, LocalStep, OnNewTimeout, AdvanceView, AcceptsTC;
    Unchanged(c, nodes, l);
    if m.view >= l.st.view {
      match m.messageType
      case NewTimeout => NewTimeoutStep(c, nodes, l, m, from, env);
      case TimeoutDecide => AdvanceLocal(c, nodes, l, m.justify.value.view);
    }
  }

  lemma ExpireStep(c: Config, nodes: Nodes, l: Local, env: Env)
    requires LocalInv(c, nodes, l) && Running(l.st) && Ready(c) && ValidEnv(c, env)
    ensures LocalStep(c, nodes, l, OnTimeout(c, l, env))
  {
    hide LocalInv, Grows, OnTimeoutMessage;
    TimeoutsHere(c, nodes, l);
    var m := TimeoutMessage(NewTimeout, l.st.view, l.st.timeoutTC, Some(TimeoutSignature(l.me, l.st.view)));
    TimeoutStep(c, nodes, l, m, l.me, env);
    var l1 := OnTimeoutMessage(c, l, m, l.me, env);
    BroadcastOk(c, l1.facts, l.me, Timeout(m));
    SendStep(c, nodes, l1, Broadcast(c, l.me, Timeout(m)));
    LocalStepTransitive(c, nodes, l, l1, SendOut(l1, Broadcast(c, l.me, Timeout(m))));
  }

  // ---------------------------------------------------------------- proposals, restart, import

  lemma ProposalMemory(c: Config, l: Local, p: Proposal, env: Env)
    requires MemoryOk(c, l.facts, l.me, l.st) && ProposalOk(c, p)
    ensures MemoryOk(c, l.facts, l.me, OnProposalResponse(c, l, p, env).st)
  {
  }

  lemma ResponseStep(c: Config, nodes: Nodes, l: Local, p: Proposal, env: Env)
    requires LocalInv(c, nodes, l) && ProposalOk(c, p)
    ensures LocalStep(c, nodes, l, OnProposalResponse(c, l, p, env))
  {
    hide CoreInv, CoreOf, PacketsOk, RoleOk, MemoryOk;
    var l' := OnProposalResponse(c, l, p, env);
    LocalParts(c, nodes, l);
    RoleSame(c, l.facts, l.me, l.st, l'.st);
    ProposalMemory(c, l, p, env);
    SetState(c, nodes, l, l');
  }

  lemma RequestStep(c: Config, nodes: Nodes, l: Local, from: Address, hash: Hash)
    requires LocalInv(c, nodes, l) && from != l.me
    ensures LocalStep(c, nodes, l, OnProposalRequest(l, from, hash))
  {
    hide CoreInv, CoreOf, RoleOk;
    Unchanged(c, nodes, l);
    if hash in l.st.proposals {
      assert PacketOk(c, l.facts, Packet(l.me, from, ProposalResponse(l.st.proposals[hash])));
      SendStep(c, nodes, l, {Packet(l.me, from, ProposalResponse(l.st.proposals[hash]))});
    }
  }

  lemma ReceiveStep(c: Config, nodes: Nodes, l: Local, p: Packet, env: Env)
    requires LocalInv(c, nodes, l) && Running(l.st) && Ready(c) && ValidEnv(c, env)
    requires PacketOk(c, l.facts, p) && p.to == l.me
    ensures LocalStep(c, nodes, l, Receive(c, l, p, env))
  {
    hide LocalInv, LocalStep, LeaderStep, ValidEnv, MessageOk, TimeoutOk, LeaderMessage, ReplicaMessage, OnTimeoutMessage;
    Unchanged(c, nodes, l);
    match p.payload
    case Consensus(m) =>
      if IsMember(c.members, p.from) {
        if l.st.isLeader {
          LeaderReply(c, nodes, l, m, p.from, env);
          LeaderIsLocal(c, nodes, l, LeaderMessage(c, l, m, p.from, env));
        } else {
          ReplicaReply(c, nodes, l, m, p.from);
        }
      }
    case Timeout(m) => TimeoutStep(c, nodes, l, m, p.from, env);
    case ProposalRequest(hash) => RequestStep(c, nodes, l, p.from, hash);
    case ProposalResponse(proposal) => ResponseStep(c, nodes, l, proposal, env);
  }

  lemma RestartStep(c: Config, nodes: Nodes, l: Local)
    requires LocalInv(c, nodes, l) && !(Running(l.st) && l.st.isLeader)
    ensures LocalStep(c, nodes, l, Restart(c, l))
  {
    hide CoreInv, CoreOf, PacketsOk, NodeOk;
    LocalParts(c, nodes, l);
    var l1 := l.(st := Restart(c, l).st.(prepareQC := l.st.prepareQC, lockedQC := l.st.lockedQC));
    RefreshedView(c, nodes, l);
    Forgotten(c, l.facts, l.me, l.st, l1.st);
    SetState(c, nodes, l, l1);
    RefreshStep(c, nodes, l1);
    assert Restart(c, l) == l1.(st := l1.st.(prepareQC := RaisedQC(OwnBase(c, l.me), l1.st.prepareQC), lockedQC := RaisedQC(OwnBase(c, l.me), l1.st.lockedQC)));
  }

  /** A view of the height is above the own base, so that a refresh leaves it. */
  lemma RefreshedView(c: Config, nodes: Nodes, l: Local)
    requires LocalInv(c, nodes, l)
    ensures RaisedView(OwnBase(c, l.me), l.st.view) == l.st.view && BaseCert(c, OwnBase(c, l.me))
    ensures OwnBase(c, l.me).view < l.st.view
  {
    hide NodeOk, PacketsOk, SignedOk, QcsOk, PropsOk, AllStoredOk, PhasesOk, PreCommitsStored, CommitsLocked, ReplicasSafe, HeavyLeaders, NoConflict;
    CoreHere(nodes, l);
    StoredOf(c, CoreOf(nodes, l), l.me);
    assert l.me in c.starts;
  }

  lemma Forgotten(c: Config, f: Facts, a: Address, st: NodeState, st': NodeState)
    requires Ready(c) && NodeOk(c, f, a, st) && !(Running(st) && st.isLeader)
    requires st' == st.(params := None, running := None, isLeader := false, leader := FRESH_LEADER,
                        pendingNewViews := [], internalProposals := {}, timeouts := map[], timeoutTC := None)
    ensures NodeOk(c, f, a, st')
  {
    hide NewViewsOk, BallotsOk;
  }

  /** A refresh replaces certificates for the base block only, and by none lower. */
  function WithRefresh(c: Config, l: Local): Local {
    var base := OwnBase(c, l.me);
    l.(st := l.st.(prepareQC := RaisedQC(base, l.st.prepareQC), lockedQC := RaisedQC(base, l.st.lockedQC)))
  }

  lemma RefreshStep(c: Config, nodes: Nodes, l: Local)
    requires LocalInv(c, nodes, l)
    ensures LocalStep(c, nodes, l, WithRefresh(c, l))
  {
    hide CoreInv, PacketsOk, NodeOk, CoreOf, OwnBase, BaseCert;
    LocalParts(c, nodes, l);
    RefreshCoreInv(c, nodes, l);
    ReadyHere(c, nodes, l);
    NodeSameMemory(c, l.facts, l.me, l.st, WithRefresh(c, l).st);
  }

  lemma RefreshCoreInv(c: Config, nodes: Nodes, l: Local)
    requires LocalInv(c, nodes, l)
    ensures CoreInv(c, CoreOf(nodes, WithRefresh(c, l)))
  {
    hide CoreInv, PacketsOk, NodeOk, CoreOf, OwnBase, BaseCert;
    var l' := WithRefresh(c, l);
    LocalParts(c, nodes, l);
    RefreshedView(c, nodes, l);
    CoreHere(nodes, l);
    CoreHere(nodes, l');
    RefreshCore(nodes, l, l');
    var (k, k') := (CoreOf(nodes, l), CoreOf(nodes, l'));
    hide LocalInv;
    RefreshedMore(c, k, k', l.me, OwnBase(c, l.me));
    StorageChanged(c, k, k', l.me);
  }

  lemma RefreshedMore(c: Config, k: Core, k': Core, a: Address, base: QC)
    requires Domain(c, k) && a in k.views && StoredOk(c, k, a) && BaseCert(c, base) && base.view < k.views[a]
    requires k'.views == k.views && k'.f == k.f
    requires k'.preps == k.preps[a := RaisedQC(base, k.preps[a])] && k'.locks == k.locks[a := RaisedQC(base, k.locks[a])]
    ensures StoresMore(c, k, k', a)
  {
    hide BaseCert;
  }

  lemma RefreshCore(nodes: Nodes, l: Local, l': Local)
    requires l' == l.(st := l.st.(prepareQC := l'.st.prepareQC, lockedQC := l'.st.lockedQC))
    ensures var (k, k') := (CoreOf(nodes, l), CoreOf(nodes, l'));
      && k'.views == k.views && k'.f == k.f && k'.preps == k.preps[l.me := l'.st.prepareQC] && k'.locks == k.locks[l.me := l'.st.lockedQC]
  {
    CoreIs(nodes, l);
    CoreIs(nodes, l');
    hide CoreOf, ViewsOf, PrepsOf, LocksOf;
  }

  lemma ImportStep(c: Config, nodes: Nodes, l: Local, hash: Hash)
    requires LocalInv(c, nodes, l) && CommitFact(l.facts, hash)
    ensures LocalStep(c, nodes, l, l.(st := l.st.(committed := l.st.committed + {hash})))
  {
    hide CoreInv, CoreOf, PacketsOk, RoleOk;
    var l' := l.(st := l.st.(committed := l.st.committed + {hash}));
    LocalParts(c, nodes, l);
    RoleSame(c, l.facts, l.me, l.st, l'.st);
    SetState(c, nodes, l, l');
  }

  lemma LeaveStep(c: Config, nodes: Nodes, l: Local)
    requires LocalInv(c, nodes, l)
    ensures LocalStep(c, nodes, l, l.(st := l.st.(halted := true)))
  {
    hide LocalInv;
    HaltLocal(c, nodes, l);
    ReadyHere(c, nodes, l);
  }
}
