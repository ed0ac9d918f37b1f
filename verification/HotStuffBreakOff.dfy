/** When a leader breaks off in a run of the system: the high QC it must propose on again is a
    certificate that only it holds, or whose only other bearer has sent another NewView since. */
module HotStuffBreakOff {
  import opened Authorities
  import opened HotStuffTypes
  import opened HotStuffCollectors
  import opened HotStuffNode
  import opened HotStuffCore
  import opened HotStuffSystem
  import opened HotStuffLocal
  import opened HotStuffLeaderProof
  import opened HotStuffProposeProof
  import opened HotStuffReplicaProof
  import opened HotStuffSafety

  // ---------------------------------------------------------------- where NewViews come from

  predicate FromNet(net: set<Packet>, a: Address, m: ConsensusMessage, from: Address) {
    m.messageType == NewView && from != a && Packet(from, a, Consensus(m)) in net
  }

  /** A sender whose NewView the leader holds sent it one with this certificate. */
  ghost predicate BroughtBy(net: set<Packet>, a: Address, views: map<Address, Justified>, hq: QC) {
    exists b: Address, m: ConsensusMessage :: b in views && m.justify == Some(hq) && FromNet(net, a, m, b)
  }

  ghost predicate Brought(net: set<Packet>, a: Address, st: NodeState, hq: QC) {
    (a in st.leader.newViews && st.prepareQC == hq) || BroughtBy(net, a, st.leader.newViews, hq)
  }

  ghost predicate LeaderSent(net: set<Packet>, a: Address, st: NodeState) {
    var ls := st.leader;
    && (forall b :: b in ls.newViews && b != a ==> FromNet(net, a, ls.newViews[b], b))
    && (ls.prepareMessage.None? && a in ls.newViews ==> ls.newViews[a].justify == Some(st.prepareQC))
    && (ls.prepareMessage.None? && ls.newViewSignal.Some? ==> Brought(net, a, st, ls.newViewSignal.value))
  }

  ghost predicate PendingSent(net: set<Packet>, a: Address, pending: seq<(ConsensusMessage, Address)>) {
    forall i :: 0 <= i < |pending| ==> FromNet(net, a, pending[i].0, pending[i].1)
  }

  /** Every NewView a validator holds of another was sent to it; while it has not proposed, its own one
      carries its prepare QC, and the high QC was brought by one of them. */
  ghost predicate NewViewsSent(net: set<Packet>, a: Address, st: NodeState) {
    PendingSent(net, a, st.pendingNewViews) && (Running(st) && st.isLeader ==> LeaderSent(net, a, st))
  }

  ghost predicate AllSent(s: Sys) {
    forall a :: a in s.nodes ==> NewViewsSent(s.net, a, s.nodes[a])
  }

  /** The leader has to propose a certified block again that it does not store, and no NewView it holds of
      another validator carries the certificate. It came from the leader's own prepare QC, or from a
      NewView that a later one of the same sender has replaced. */
  ghost predicate Stuck(c: Config, net: set<Packet>, a: Address, st: NodeState) {
    var ls := st.leader;
    && ls.newViewSignal.Some?
    && var (hq, base) := (ls.newViewSignal.value, c.base.node.blockHash);
    && hq.node.blockHash != base && hq.node.parentHash == base && hq.node.blockHash !in st.proposals
    && (forall b :: b in ls.newViews && b != a ==> ls.newViews[b].justify != Some(hq))
    && (st.prepareQC == hq || BroughtBy(net, a, ls.newViews, hq))
  }

  // ---------------------------------------------------------------- the leader's handlers

  lemma ProposeSent(c: Config, net: set<Packet>, l: Local, p: Proposal, env: Env)
    requires Ready(c) && l.st.leader.newViewSignal.Some? && LeaderSent(net, l.me, l.st)
    ensures var l' := Propose(c, l, p, env); LeaderSent(net, l.me, l'.st) && SameRole(l, l') && l'.st.halted == l.st.halted
  {
    hide Propose;
    ProposeRunsOn(c, l, p, env);
  }

  predicate SameRole(l: Local, l': Local) {
    && l'.me == l.me && l'.st.view == l.st.view && l'.st.running == l.st.running && l'.st.isLeader == l.st.isLeader
    && l'.st.pendingNewViews == l.st.pendingNewViews
  }

  lemma KnownSent(c: Config, net: set<Packet>, l: Local, p: Proposal, env: Env)
    requires Ready(c) && l.st.leader.newViewSignal.Some? && LeaderSent(net, l.me, l.st)
    ensures var l' := ProposeKnown(c, l, p, env); LeaderSent(net, l.me, l'.st) && SameRole(l, l') && l'.st.halted == l.st.halted
  {
    hide Propose;
    ProposeSent(c, net, l, p, env);
    ProposeSent(c, net, WithBlock(l, Some(p.blockHash), l.st.proposals), p, env);
  }

  lemma ReuseSent(c: Config, net: set<Packet>, l: Local, env: Env)
    requires Ready(c) && l.st.leader.newViewSignal.Some? && l.st.leader.prepareMessage.None? && LeaderSent(net, l.me, l.st) && !l.st.halted
    requires var (hq, base) := (l.st.leader.newViewSignal.value, c.base.node.blockHash); hq.node.blockHash != base && hq.node.parentHash == base
    ensures var l' := ReuseProposal(c, l, l.st.leader.newViewSignal.value, env);
      LeaderSent(net, l.me, l'.st) && SameRole(l, l') && (l'.st.halted ==> Stuck(c, net, l.me, l'.st))
  {
    hide ProposeKnown;
    var hq := l.st.leader.newViewSignal.value;
    if hq.node.blockHash in l.st.proposals {
      KnownSent(c, net, l, l.st.proposals[hq.node.blockHash], env);
    } else if RemoteHolders(c, l, hq) == {} {
      HoldersExactly(c, l, hq);
      hide RemoteHolders, FromNet, BroughtBy;
    } else {
      hide RemoteHolders, FromNet, BroughtBy, Stuck;
    }
  }

  lemma WorkSent(c: Config, net: set<Packet>, l: Local, env: Env)
    requires Ready(c) && l.st.leader.newViewSignal.Some? && l.st.leader.prepareMessage.None? && LeaderSent(net, l.me, l.st) && !l.st.halted
    ensures var l' := Work(c, l, env);
      LeaderSent(net, l.me, l'.st) && SameRole(l, l') && (l'.st.halted ==> Stuck(c, net, l.me, l'.st))
  {
    hide Propose, ReuseProposal;
    var hq := l.st.leader.newViewSignal.value;
    if hq.node.blockHash == c.base.node.blockHash {
      if env.builtBlock.Some? {
        var p := Proposal(c.base.node.blockHash, env.builtBlock.value);
        ProposeSent(c, net, WithBlock(l, Some(p.blockHash), l.st.proposals[p.blockHash := p]), p, env);
      }
    } else if hq.node.parentHash == c.base.node.blockHash {
      ReuseSent(c, net, l, env);
    }
  }

  lemma TryWorkSent(c: Config, net: set<Packet>, l: Local, schedule: bool, hq: Option<QC>, env: Env)
    requires Ready(c) && LeaderSent(net, l.me, l.st) && !l.st.halted && (hq.Some? ==> Brought(net, l.me, l.st, hq.value))
    ensures var l' := TryWork(c, l, schedule, hq, env);
      LeaderSent(net, l.me, l'.st) && SameRole(l, l') && (l'.st.halted ==> Stuck(c, net, l.me, l'.st))
  {
    hide Work, Stuck;
    var ls := l.st.leader;
    var l1 := WithLeader(l, ls.(scheduleSignal := ls.scheduleSignal || schedule,
                                newViewSignal := if hq.Some? then hq else ls.newViewSignal));
    if l1.st.leader.newViewSignal.Some? && l1.st.leader.prepareMessage.None? { WorkSent(c, net, l1, env); }
  }

  /** The NewView is one sent by another validator, or the leader's own. */
  predicate Genuine(net: set<Packet>, l: Local, m: ConsensusMessage, from: Address) {
    if from == l.me then m.justify == Some(l.st.prepareQC) else FromNet(net, l.me, m, from)
  }

  lemma StoreSent(net: set<Packet>, l: Local, m: Justified, from: Address)
    requires LeaderSent(net, l.me, l.st) && Genuine(net, l, m, from)
    ensures LeaderSent(net, l.me, StoreNewView(l, m, from).st)
  {
    hide BroughtBy, FromNet;
    if l.st.leader.newViewSignal.Some? { BroughtStays(net, l.me, l.st.leader.newViews, l.st.leader.newViewSignal.value, m, from); }
  }

  lemma BroughtStays(net: set<Packet>, a: Address, views: map<Address, Justified>, hq: QC, m: Justified, from: Address)
    ensures BroughtBy(net, a, views, hq) ==> BroughtBy(net, a, views[from := m], hq)
  {
    hide FromNet;
    if BroughtBy(net, a, views, hq) {
      var b: Address, m': ConsensusMessage :| b in views && m'.justify == Some(hq) && FromNet(net, a, m', b);
      assert b in views[from := m];
    }
  }

  lemma HighBrought(c: Config, net: set<Packet>, l: Local, order: seq<Address>)
    requires ValidConfig(c) && LeaderSent(net, l.me, l.st) && l.st.leader.prepareMessage.None? && Distinct(order)
    ensures var hq := GetHighQC(c.members, l.st.leader.newViews, order); hq.Some? ==> Brought(net, l.me, l.st, hq.value)
  {
    hide GetHighQC, IsQuorum;
    var views := l.st.leader.newViews;
    var s := GetHighQCSound(c.members, views, order);
    var hq := GetHighQC(c.members, views, order);
    if hq.Some? {
      var b :| b in s && views[b].justify.value == hq.value;
      assert b in views && views[b].justify == Some(hq.value);
    }
  }

  lemma NewViewSent(c: Config, net: set<Packet>, l: Local, m: ConsensusMessage, from: Address, env: Env)
    requires ValidConfig(c) && Ready(c) && LeaderSent(net, l.me, l.st) && !l.st.halted && ValidEnv(c, env) && Genuine(net, l, m, from)
    ensures var l' := LeaderNewView(c, l, m, from, env);
      LeaderSent(net, l.me, l'.st) && SameRole(l, l') && (l'.st.halted ==> Stuck(c, net, l.me, l'.st))
  {
    hide TryWork, GetHighQC, AcceptsQC, Stuck, ValidConfig, Brought;
    if m.justify.Some? && AcceptsQC(m.justify.value, None, JustifyMembers(c, l.me, m.justify.value)) {
      var l1 := StoreNewView(l, m, from);
      StoreSent(net, l, m, from);
      hide LeaderSent;
      var hq := GetHighQC(c.members, l1.st.leader.newViews, env.newViewOrder);
      if hq.Some? && l1.st.leader.newViewSignal.None? {
        if l1.st.leader.prepareMessage.None? {
          HighBrought(c, net, l1, env.newViewOrder);
          TryWorkSent(c, net, l1, false, hq, env);
        } else {
          ProposedSent(c, net, l1, hq, env);
        }
      }
    }
  }

  /** A leader that has proposed does not work again. */
  lemma ProposedSent(c: Config, net: set<Packet>, l: Local, hq: Option<QC>, env: Env)
    requires Ready(c) && LeaderSent(net, l.me, l.st) && !l.st.halted && l.st.leader.prepareMessage.Some?
    ensures var l' := TryWork(c, l, false, hq, env); LeaderSent(net, l.me, l'.st) && SameRole(l, l') && !l'.st.halted
  {
  }

  /** Before the schedule signal a NewView makes no leader work. */
  lemma NewViewIdle(c: Config, l: Local, m: ConsensusMessage, from: Address, env: Env)
    requires Ready(c) && !l.st.leader.scheduleSignal
    ensures var l' := LeaderNewView(c, l, m, from, env);
      !l'.st.leader.scheduleSignal && l'.st.halted == l.st.halted && l'.st.prepareQC == l.st.prepareQC
  {
    hide GetHighQC, AcceptsQC, Work;
  }

  lemma {:induction false} DrainSent(c: Config, net: set<Packet>, l: Local, pending: seq<(ConsensusMessage, Address)>, envs: seq<Env>)
    requires ValidConfig(c) && Ready(c) && LeaderSent(net, l.me, l.st) && !l.st.halted && !l.st.leader.scheduleSignal
    requires |envs| >= |pending| && PendingSent(net, l.me, pending) && forall i :: 0 <= i < |envs| ==> ValidEnv(c, envs[i])
    ensures var l' := ProcessPending(c, l, pending, envs);
      LeaderSent(net, l.me, l'.st) && SameRole(l, l') && !l'.st.halted && !l'.st.leader.scheduleSignal
    decreases |pending|
  {
    hide LeaderSent, LeaderNewView, ValidConfig, ValidEnv, Stuck, FromNet;
    if pending != [] {
      var l1 := LeaderNewView(c, l, pending[0].0, pending[0].1, envs[0]);
      assert FromNet(net, l.me, pending[0].0, pending[0].1);
      GenuineOther(net, l, pending[0].0, pending[0].1);
      NewViewSent(c, net, l, pending[0].0, pending[0].1, envs[0]);
      NewViewIdle(c, l, pending[0].0, pending[0].1, envs[0]);
      DrainSent(c, net, l1, pending[1..], envs[1..]);
    }
  }

  lemma GenuineOther(net: set<Packet>, l: Local, m: ConsensusMessage, from: Address)
    requires FromNet(net, l.me, m, from)
    ensures Genuine(net, l, m, from)
  {
  }

  lemma EnterSent(c: Config, net: set<Packet>, l: Local, envs: seq<Env>)
    requires ValidConfig(c) && Ready(c) && PendingSent(net, l.me, l.st.pendingNewViews) && !l.st.halted
    requires |envs| > |l.st.pendingNewViews| && forall i :: 0 <= i < |envs| ==> ValidEnv(c, envs[i])
    ensures var l' := EnterView(c, l, envs); NewViewsSent(net, l.me, l'.st) && l'.me == l.me && !l'.st.halted
  {
    hide LeaderNewView, ProcessPending, OwnLeader, ValidConfig, ValidEnv, Stuck;
    if OwnLeader(c, l.me, l.st.view) == l.me {
      var l1 := l.(st := l.st.(running := Some(l.st.view), isLeader := true, currentLeader := l.me, leader := FRESH_LEADER, pendingNewViews := []));
      assert LeaderSent(net, l.me, l1.st);
      hide LeaderSent;
      DrainSent(c, net, l1, l.st.pendingNewViews, envs);
      var l2 := ProcessPending(c, l1, l.st.pendingNewViews, envs);
      var own := ConsensusMessage(NewView, l2.st.view, None, Some(l2.st.prepareQC), None);
      NewViewSent(c, net, l2, own, l.me, envs[|l.st.pendingNewViews|]);
      NewViewIdle(c, l2, own, l.me, envs[|l.st.pendingNewViews|]);
    }
  }

  // ---------------------------------------------------------------- steps that leave NewViews alone

  /** A step without a new NewView, after which the validator leads at most the view it led. */
  predicate LeavesNewViews(st: NodeState, st': NodeState) {
    && st'.pendingNewViews == st.pendingNewViews && st'.leader == st.leader && st'.prepareQC == st.prepareQC
    && (Running(st') && st'.isLeader ==> Running(st) && st.isLeader)
  }

  lemma LeftSent(net: set<Packet>, a: Address, st: NodeState, st': NodeState)
    requires NewViewsSent(net, a, st) && LeavesNewViews(st, st')
    ensures NewViewsSent(net, a, st')
  {
    hide BroughtBy, FromNet;
  }

  predicate TimeoutLeft(l: Local, l': Local) {
    l'.me == l.me && LeavesNewViews(l.st, l'.st) && l'.st.halted == l.st.halted
  }

  lemma NewTimeoutLeaves(c: Config, l: Local, m: TimeoutMessage, from: Address, env: Env)
    requires Ready(c) && l.st.running == Some(l.st.view)
    ensures TimeoutLeft(l, OnNewTimeout(c, l, m, from, env))
  {
    hide CollectTC, AcceptsTC;
  }

  lemma TimeoutDecideLeaves(c: Config, l: Local, m: TimeoutMessage)
    requires Ready(c) && l.st.running == Some(l.st.view)
    ensures TimeoutLeft(l, OnTimeoutDecide(c, l, m))
  {
    hide AcceptsTC;
  }

  lemma TimeoutLeaves(c: Config, l: Local, m: TimeoutMessage, from: Address, env: Env)
    requires Ready(c) && l.st.running == Some(l.st.view)
    ensures TimeoutLeft(l, OnTimeoutMessage(c, l, m, from, env))
  {
    hide OnNewTimeout, OnTimeoutDecide, TimeoutLeft;
    if m.view >= l.st.view && m.messageType.NewTimeout? { NewTimeoutLeaves(c, l, m, from, env); }
    if m.view >= l.st.view && m.messageType.TimeoutDecide? { TimeoutDecideLeaves(c, l, m); }
    if m.view < l.st.view { SameLeft(l); }
  }

  lemma SameLeft(l: Local)
    ensures TimeoutLeft(l, l)
  {
  }

  lemma VoteLeaves(c: Config, net: set<Packet>, l: Local, m: ConsensusMessage, from: Address, env: Env)
    requires Ready(c) && LeaderSent(net, l.me, l.st) && m.messageType in {Prepare, PreCommit, Commit} && AdmitsVote(l, m, from)
    ensures var l' := match m.messageType
                      case Prepare => AddPrepareVote(c, l, from, m, env)
                      case PreCommit => AddPreCommitVote(c, l, from, m, env)
                      case _ => AddCommitVote(c, l, from, m, env);
      LeaderSent(net, l.me, l'.st) && SameRole(l, l') && l'.st.halted == l.st.halted
  {
    hide AddPrepareVote, AddPreCommitVote, AddCommitVote, BroughtBy, FromNet;
    match m.messageType
    case Prepare => PrepareRunsOn(c, l, from, m, env);
    case PreCommit => PreCommitRunsOn(c, l, from, m, env);
    case Commit => CommitRunsOn(c, l, from, m, env);
  }

  // ---------------------------------------------------------------- one step of the system

  lemma ReplicaSent(c: Config, net: set<Packet>, l: Local, m: ConsensusMessage, from: Address)
    requires Ready(c) && NewViewsSent(net, l.me, l.st) && !l.st.isLeader
    requires Packet(from, l.me, Consensus(m)) in net && from != l.me
    ensures var l' := ReplicaMessage(c, l, m, from); NewViewsSent(net, l.me, l'.st) && l'.st.halted == l.st.halted
  {
    hide AcceptsQC, LeaderSent, SafeNode;
  }

  lemma LeaderReceives(c: Config, net: set<Packet>, l: Local, m: ConsensusMessage, from: Address, env: Env)
    requires ValidConfig(c) && Ready(c) && LeaderSent(net, l.me, l.st) && !l.st.halted && ValidEnv(c, env)
    requires Packet(from, l.me, Consensus(m)) in net && from != l.me
    ensures var l' := LeaderMessage(c, l, m, from, env);
      LeaderSent(net, l.me, l'.st) && SameRole(l, l') && (l'.st.halted ==> Stuck(c, net, l.me, l'.st))
  {
    hide LeaderNewView, AddPrepareVote, AddPreCommitVote, AddCommitVote, LeaderSent, Stuck, ValidConfig, ValidEnv, AdmitsVote;
    if m.view == l.st.view {
      if m.messageType == NewView {
        NewViewSent(c, net, l, m, from, env);
      } else if AdmitsVote(l, m, from) && m.messageType != Decide {
        VoteLeaves(c, net, l, m, from, env);
      }
    }
  }

  lemma DeliverSent(c: Config, net: set<Packet>, l: Local, p: Packet, env: Env)
    requires ValidConfig(c) && Ready(c) && NewViewsSent(net, l.me, l.st) && Running(l.st) && !l.st.halted && ValidEnv(c, env)
    requires p in net && p.to == l.me && p.from != l.me
    ensures var l' := Receive(c, l, p, env);
      NewViewsSent(net, l.me, l'.st) && (l'.st.halted ==> Running(l'.st) && l'.st.isLeader && Stuck(c, net, l.me, l'.st))
  {
    hide LeaderMessage, ReplicaMessage, OnTimeoutMessage, LeaderSent, PendingSent, Stuck, ValidConfig, ValidEnv;
    match p.payload
    case Consensus(m) =>
      assert Packet(p.from, l.me, Consensus(m)) == p;
      if l.st.isLeader { LeaderReceives(c, net, l, m, p.from, env); } else { ReplicaSent(c, net, l, m, p.from); }
    case Timeout(m) =>
      TimeoutLeaves(c, l, m, p.from, env);
      LeftSent(net, l.me, l.st, OnTimeoutMessage(c, l, m, p.from, env).st);
    case ProposalRequest(_) =>
    case ProposalResponse(proposal) => LeftSent(net, l.me, l.st, OnProposalResponse(c, l, proposal, env).st);
  }

  lemma RemoteSent(c: Config, net: set<Packet>, l: Local, p: Proposal, env: Env)
    requires Ready(c) && LeaderSent(net, l.me, l.st)
    ensures var l' := RemoteProposal(c, l, p, env); LeaderSent(net, l.me, l'.st) && SameRole(l, l') && l'.st.halted == l.st.halted
  {
    hide ProposeKnown, BroughtBy, FromNet;
    if l.st.leader.newViewSignal.Some? { KnownSent(c, net, WithLeader(l, l.st.leader.(pendingRemote := None)), p, env); }
  }

  lemma ActSent(c: Config, s: Sys, t: Action)
    requires Inv(c, s) && Enabled(c, s, t) && AllSent(s)
    ensures var l := ActLocal(c, s, t);
      NewViewsSent(s.net, t.a, l.st) && (l.st.halted && !t.Leave? ==> Running(l.st) && l.st.isLeader && Stuck(c, s.net, t.a, l.st))
  {
    hide Inv, LeaderSent, PendingSent, Stuck, EnterView, Receive, TryWork, RemoteProposal, OnTimeoutMessage, ValidConfig, ValidEnv;
    var l := LocalOf(s, t.a);
    assert NewViewsSent(s.net, t.a, l.st);
    EndValid(c, s, t.a);
    match t
    case Enter(a, envs) => EnterSent(c, s.net, l, envs);
    case Deliver(a, p, env) => InvPacket(c, s, p); DeliverSent(c, s.net, l, p, env);
    case Tick(a, env) => TryWorkSent(c, s.net, l, true, None, env);
    case Expire(a, env) =>
      var m := TimeoutMessage(NewTimeout, l.st.view, l.st.timeoutTC, Some(TimeoutSignature(l.me, l.st.view)));
      TimeoutLeaves(c, l, m, l.me, env);
      LeftSent(s.net, a, l.st, OnTimeoutMessage(c, l, m, l.me, env).st);
    case HandleProposal(a, p, env) => RemoteSent(c, s.net, l, p, env);
    case Registered(a) =>
    case Crash(a) => NonePending(s.net, a);
    case Import(a, source, hash) => LeftSent(s.net, a, l.st, ActLocal(c, s, t).st);
    case Leave(a) => LeftSent(s.net, a, l.st, ActLocal(c, s, t).st);
  }

  lemma NonePending(net: set<Packet>, a: Address)
    ensures PendingSent(net, a, [])
  {
  }

  lemma EndValid(c: Config, s: Sys, a: Address)
    requires Inv(c, s) && a in s.nodes
    ensures ValidConfig(c) && Ready(c)
  {
    hide Inv, LocalInv;
    InvLocal(c, s, a);
    ReadyHere(c, s.nodes, LocalOf(s, a));
  }

  lemma SentMore(net: set<Packet>, net': set<Packet>, a: Address, st: NodeState)
    requires NewViewsSent(net, a, st) && net <= net'
    ensures NewViewsSent(net', a, st)
  {
    var ls := st.leader;
    if ls.newViewSignal.Some? { BroughtMore(net, net', a, ls.newViews, ls.newViewSignal.value); }
    hide BroughtBy;
  }

  lemma BroughtMore(net: set<Packet>, net': set<Packet>, a: Address, views: map<Address, Justified>, hq: QC)
    requires net <= net'
    ensures BroughtBy(net, a, views, hq) ==> BroughtBy(net', a, views, hq)
  {
    if BroughtBy(net, a, views, hq) {
      var b: Address, m: ConsensusMessage :| b in views && m.justify == Some(hq) && FromNet(net, a, m, b);
      assert FromNet(net', a, m, b);
    }
  }

  lemma StepSent(c: Config, s: Sys, t: Action)
    requires Inv(c, s) && Enabled(c, s, t) && AllSent(s)
    ensures AllSent(Step(c, s, t))
    ensures var (net, st) := (Step(c, s, t).net, Step(c, s, t).nodes[t.a]);
      st.halted && !t.Leave? ==> Running(st) && st.isLeader && Stuck(c, net, t.a, st)
  {
    hide Inv, Enabled, ActLocal, NewViewsSent, BroughtBy;
    ActSent(c, s, t);
    var (l, s') := (ActLocal(c, s, t), Step(c, s, t));
    forall a | a in s'.nodes ensures NewViewsSent(s'.net, a, s'.nodes[a]) {
      SentMore(s.net, s'.net, a, s'.nodes[a]);
    }
    if l.st.halted && !t.Leave? { BroughtMore(s.net, s'.net, t.a, l.st.leader.newViews, l.st.leader.newViewSignal.value); }
  }

  // ---------------------------------------------------------------- whole runs

  lemma InitSent(c: Config, s: Sys)
    requires Init(c, s)
    ensures AllSent(s)
  {
    hide Held, LeftBehind, LeaderSent, BaseMatches, BaseCert, StoredStart, ValidConfig;
    forall a | a in s.nodes ensures NewViewsSent(s.net, a, s.nodes[a]) { assert Started(c, a, s.nodes[a]); }
  }

  lemma {:induction false} RunSent(c: Config, run: seq<Sys>, actions: seq<Action>, i: nat)
    requires IsRun(c, run, actions) && i < |run|
    ensures AllSent(run[i])
  {
    hide Init, Enabled, Step, Inv, AllSent;
    if i == 0 {
      InitSent(c, run[0]);
    } else {
      RunSent(c, run, actions, i - 1);
      RunInv(c, run, actions, i - 1);
      StepSent(c, run[i - 1], actions[i - 1]);
    }
  }

  /** In every run, a validator that breaks off, other than by leaving the height, is a leader whose high QC
      is for a child of the base block that it does not store and that no NewView it holds of another
      carries; and that QC is its own stored prepare QC, or was sent to it in a NewView that another one of
      the same sender has replaced. */
  lemma BreaksOffInRuns(c: Config, run: seq<Sys>, actions: seq<Action>, i: nat)
    requires IsRun(c, run, actions) && i < |actions| && !actions[i].Leave?
    ensures actions[i].a in run[i].nodes && !run[i].nodes[actions[i].a].halted && actions[i].a in run[i + 1].nodes
    ensures var (a, st) := (actions[i].a, run[i + 1].nodes[actions[i].a]);
      st.halted ==> Running(st) && st.isLeader && Stuck(c, run[i + 1].net, a, st)
  {
    hide Init, Inv, AllSent, Stuck;
    RunSent(c, run, actions, i);
    RunInv(c, run, actions, i);
    assert Enabled(c, run[i], actions[i]);
    StepSent(c, run[i], actions[i]);
  }

  /** The schedule signal makes a leader of a run break off exactly when it is stuck and has neither
      proposed nor asked for the block. */
  lemma TickBreaksOff(c: Config, run: seq<Sys>, actions: seq<Action>, i: nat)
    requires IsRun(c, run, actions) && i < |actions| && actions[i].Tick?
    ensures actions[i].a in run[i].nodes && actions[i].a in run[i + 1].nodes
    ensures var (a, st) := (actions[i].a, run[i].nodes[actions[i].a]);
      run[i + 1].nodes[a].halted <==>
        st.leader.prepareMessage.None? && st.leader.pendingRemote.None? && Stuck(c, run[i].net, a, st)
  {
    hide Init, Inv, AllSent, Stuck, TryWork, ValidEnv;
    RunSent(c, run, actions, i);
    assert Enabled(c, run[i], actions[i]);
    var (a, env) := (actions[i].a, actions[i].env);
    SentAt(run[i], a);
    TickExactly(c, run[i].net, LocalOf(run[i], a), env);
  }

  lemma SentAt(s: Sys, a: Address)
    requires AllSent(s) && a in s.nodes
    ensures NewViewsSent(s.net, a, s.nodes[a])
  {
  }

  lemma TickExactly(c: Config, net: set<Packet>, l: Local, env: Env)
    requires Ready(c) && LeaderSent(net, l.me, l.st) && !l.st.halted
    ensures TryWork(c, l, true, None, env).st.halted <==>
      l.st.leader.prepareMessage.None? && l.st.leader.pendingRemote.None? && Stuck(c, net, l.me, l.st)
  {
    hide Work, BroughtBy, FromNet;
    var (ls, l1) := (l.st.leader, WithLeader(l, l.st.leader.(scheduleSignal := true)));
    if ls.newViewSignal.Some? {
      BreaksOffExactly(c, l1, env);
      HoldersExactly(c, l1, ls.newViewSignal.value);
    }
  }

  lemma HoldersExactly(c: Config, l: Local, hq: QC)
    ensures RemoteHolders(c, l, hq) == {} <==> forall b :: b in l.st.leader.newViews && b != l.me ==> l.st.leader.newViews[b].justify != Some(hq)
  {
    if RemoteHolders(c, l, hq) == {} {
      forall b | b in l.st.leader.newViews && b != l.me ensures l.st.leader.newViews[b].justify != Some(hq) { assert b !in RemoteHolders(c, l, hq); }
    }
  }
}
