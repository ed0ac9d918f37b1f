/** The leader's proposals and its collection of NewViews keep the invariant. */
module HotStuffProposeProof {
  import opened Authorities
  import opened HotStuffTypes
  import opened HotStuffCollectors
  import opened HotStuffNode
  import opened HotStuffCore
  import opened HotStuffCoreSteps
  import opened HotStuffSystem
  import opened HotStuffLocal
  import opened HotStuffLeaderProof

  /** The leader is about to propose `p` on its high QC. */
  ghost predicate CanAnnounce(c: Config, l: Local, p: Proposal) {
    && l.st.leader.prepareMessage.None? && l.st.leader.newViewSignal.Some? && l.st.leader.pendingRemote.None?
    && ProposalOk(c, p)
    && var hq := l.st.leader.newViewSignal.value;
       !BaseCert(c, hq) ==> hq.node == Node(p.parentHash, p.blockHash)
  }

  lemma HeavyJustified(c: Config, nodes: Nodes, l: Local, v: nat)
    requires LeaderInv(c, nodes, l) && Ready(c) && l.st.leader.newViewSignal.Some? && Heavy(c, l.me)
    requires v < l.st.view && Voted(c, l.facts, l.me, PreCommit, v)
    ensures l.st.leader.newViewSignal.value.view >= v
  {
    hide CoreInv, CoreOf, MemoryOk, BallotsOk, PacketsOk;
    LeaderParts(c, nodes, l);
    assert Signature(l.me, PreCommit, v, l.facts.props[v].node, LeaderOf(c, v)) in l.facts.signed;
  }

  lemma AnnounceCore(c: Config, nodes: Nodes, l: Local, p: Proposal)
    requires LeaderInv(c, nodes, l) && Ready(c) && CanAnnounce(c, l, p)
    ensures var hq := l.st.leader.newViewSignal.value;
      MayPropose(c, CoreOf(nodes, l), l.st.view, PrepareMessage(Node(p.parentHash, p.blockHash), hq))
  {
    hide CoreInv, CoreOf, MemoryOk, PacketsOk, Voted, Heavy;
    LeaderParts(c, nodes, l);
    LocalParts(c, nodes, l);
    CoreHere(nodes, l);
    if Heavy(c, l.me) {
      forall v: nat | v < l.st.view && Voted(c, l.facts, l.me, PreCommit, v)
        ensures l.st.leader.newViewSignal.value.view >= v
      {
        HeavyJustified(c, nodes, l, v);
      }
    }
  }

  lemma AnnounceRole(c: Config, l: Local, l': Local, pm: PrepareMessage)
    requires Ready(c) && RoleOk(c, l.facts, l.me, l.st) && Running(l.st) && l.st.isLeader
    requires l.st.leader.prepareMessage.None? && l.st.leader.pendingRemote.None?
    requires l' == l.(st := l.st.(leader := l.st.leader.(prepareMessage := Some(pm))),
                      facts := l.facts.(props := l.facts.props[l.st.view := pm]), out := l'.out)
    ensures RoleOk(c, l'.facts, l'.me, l'.st)
  {
  }

  lemma AnnounceGrows(c: Config, l: Local, pm: PrepareMessage)
    requires Ready(c) && l.st.view !in l.facts.props && LeaderOf(c, l.st.view) == l.me
    ensures var f' := l.facts.(props := l.facts.props[l.st.view := pm]);
      Extends(l.facts, f') && Grows(c, l.me, l.facts, f')
  {
  }

  lemma AnnouncePackets(c: Config, l: Local, p: Proposal, hq: QC)
    requires ProposalOk(c, p) && PacketsOk(c, Announce(c, l, p, hq).facts, l.out)
    ensures PacketsOk(c, Announce(c, l, p, hq).facts, Announce(c, l, p, hq).out)
  {
    var l' := Announce(c, l, p, hq);
    var message := ConsensusMessage(Prepare, l.st.view, Some(Node(p.parentHash, p.blockHash)), Some(hq), None);
    BroadcastOk(c, l'.facts, l.me, ProposalResponse(p));
    BroadcastOk(c, l'.facts, l.me, Consensus(message));
    var ps := Broadcast(c, l.me, ProposalResponse(p)) + Broadcast(c, l.me, Consensus(message));
    assert l'.out == l.out + ps;
  }

  lemma AnnounceStep(c: Config, nodes: Nodes, l: Local, p: Proposal)
    requires LeaderInv(c, nodes, l) && Ready(c) && CanAnnounce(c, l, p)
    ensures var l' := Announce(c, l, p, l.st.leader.newViewSignal.value);
      LeaderStep(c, nodes, l, l') && l'.st.leader.prepareMessage.Some?
  {
    hide CoreInv, NewViewsOk, MemoryOk, PacketsOk, MayPropose, Grows, Broadcast, CoreAt;
    var hq := l.st.leader.newViewSignal.value;
    var pm := PrepareMessage(Node(p.parentHash, p.blockHash), hq);
    var l' := Announce(c, l, p, hq);
    LeaderParts(c, nodes, l);
    LocalParts(c, nodes, l);
    AnnounceCore(c, nodes, l, p);
    ProposeNode(c, CoreOf(nodes, l), l.st.view, pm);
    AnnounceGrows(c, l, pm);
    AnnounceRole(c, l, l', pm);
    MemoryGrows(c, l.facts, l'.facts, l.me, l.st);
    MemorySame(c, l'.facts, l.me, l.st, l'.st);
    PacketsGrow(c, l.facts, l'.facts, l.out);
    AnnouncePackets(c, l, p, hq);
    var l1 := l.(facts := l'.facts);
    CoreSame(nodes, l1, l');
    CoreProposed(nodes, l, l1, pm);
    AnnounceDone(c, nodes, l, l', pm);
  }

  lemma CoreProposed(nodes: Nodes, l: Local, l1: Local, pm: PrepareMessage)
    requires l1 == l.(facts := l.facts.(props := l.facts.props[l.st.view := pm]))
    ensures CoreOf(nodes, l1) == Proposed(CoreOf(nodes, l), l.st.view, pm)
  {
  }

  lemma AnnounceDone(c: Config, nodes: Nodes, l: Local, l': Local, pm: PrepareMessage)
    requires LeaderInv(c, nodes, l) && Ready(c)
    requires l'.me == l.me && Grows(c, l.me, l.facts, l'.facts)
    requires l'.st == l.st.(leader := l.st.leader.(prepareMessage := Some(pm)))
    requires CoreInv(c, CoreOf(nodes, l'))
    requires RoleOk(c, l'.facts, l'.me, l'.st) && MemoryOk(c, l'.facts, l'.me, l'.st)
    requires PacketsOk(c, l'.facts, l'.out)
    ensures LeaderStep(c, nodes, l, l')
  {
    hide CoreInv, CoreOf, RoleOk, MemoryOk, PacketsOk, Grows;
  }

  lemma MemorySame(c: Config, f: Facts, a: Address, st: NodeState, st': NodeState)
    requires MemoryOk(c, f, a, st)
    requires st'.proposals == st.proposals && st'.internalProposals == st.internalProposals
    requires st'.pendingNewViews == st.pendingNewViews && st'.committed == st.committed
    ensures MemoryOk(c, f, a, st')
  {
  }

  lemma ProposeStep(c: Config, nodes: Nodes, l: Local, p: Proposal, env: Env)
    requires LeaderInv(c, nodes, l) && Ready(c) && CanAnnounce(c, l, p) && ValidEnv(c, env)
    ensures LeaderStep(c, nodes, l, Propose(c, l, p, env))
  {
    hide LeaderInv, Grows, Announce, OwnPrepareVote;
    var l1 := Announce(c, l, p, l.st.leader.newViewSignal.value);
    AnnounceStep(c, nodes, l, p);
    OwnPrepare(c, nodes, l1, env);
    LeaderStepTransitive(c, nodes, l, l1, Propose(c, l, p, env));
  }

  function WithBlock(l: Local, params: Option<Hash>, proposals: map<Hash, Proposal>): Local {
    l.(st := l.st.(params := params, proposals := proposals))
  }

  lemma BlockStep(c: Config, nodes: Nodes, l: Local, params: Option<Hash>, proposals: map<Hash, Proposal>)
    requires LeaderInv(c, nodes, l)
    requires forall h :: h in proposals ==> ProposalOk(c, proposals[h]) && proposals[h].blockHash == h
    ensures LeaderStep(c, nodes, l, WithBlock(l, params, proposals))
  {
    hide LocalInv;
    BlockLocal(c, nodes, l, params, proposals);
    ReadyHere(c, nodes, l);
  }

  lemma BlockLocal(c: Config, nodes: Nodes, l: Local, params: Option<Hash>, proposals: map<Hash, Proposal>)
    requires LocalInv(c, nodes, l)
    requires forall h :: h in proposals ==> ProposalOk(c, proposals[h]) && proposals[h].blockHash == h
    ensures LocalInv(c, nodes, WithBlock(l, params, proposals))
  {
    hide CoreInv, CoreOf, RoleOk, PacketsOk;
    var l' := WithBlock(l, params, proposals);
    LocalParts(c, nodes, l);
    RoleSame(c, l.facts, l.me, l.st, l'.st);
    BlockMemory(c, l.facts, l.me, l.st, l'.st);
    SetState(c, nodes, l, l');
  }

  lemma BlockMemory(c: Config, f: Facts, a: Address, st: NodeState, st': NodeState)
    requires MemoryOk(c, f, a, st)
    requires forall h :: h in st'.proposals ==> ProposalOk(c, st'.proposals[h]) && st'.proposals[h].blockHash == h
    requires st'.internalProposals == st.internalProposals
    requires st'.pendingNewViews == st.pendingNewViews && st'.committed == st.committed
    ensures MemoryOk(c, f, a, st')
  {
  }

  lemma KnownProposals(c: Config, nodes: Nodes, l: Local)
    requires LeaderInv(c, nodes, l)
    ensures forall h :: h in l.st.proposals ==> ProposalOk(c, l.st.proposals[h]) && l.st.proposals[h].blockHash == h
    ensures forall p :: p in l.st.internalProposals ==> ProposalOk(c, p)
  {
    hide CoreInv, CoreOf, RoleOk, PacketsOk;
  }

  lemma CreateStep(c: Config, nodes: Nodes, l: Local, env: Env)
    requires LeaderInv(c, nodes, l) && Ready(c) && ValidEnv(c, env)
    requires l.st.leader.prepareMessage.None? && l.st.leader.pendingRemote.None? && l.st.leader.newViewSignal.Some? && BaseCert(c, l.st.leader.newViewSignal.value)
    ensures LeaderStep(c, nodes, l, CreateProposal(c, l, env))
  {
    hide LeaderInv, Grows, Propose;
    NoChange(c, nodes, l);
    if env.builtBlock.Some? {
      var hash := env.builtBlock.value;
      var p := Proposal(c.base.node.blockHash, hash);
      KnownProposals(c, nodes, l);
      var l1 := WithBlock(l, Some(hash), l.st.proposals[hash := p]);
      BlockStep(c, nodes, l, Some(hash), l.st.proposals[hash := p]);
      ProposeStep(c, nodes, l1, p, env);
      LeaderStepTransitive(c, nodes, l, l1, Propose(c, l1, p, env));
    }
  }

  lemma KnownStep(c: Config, nodes: Nodes, l: Local, p: Proposal, env: Env)
    requires LeaderInv(c, nodes, l) && Ready(c) && ValidEnv(c, env) && CanAnnounce(c, l, p)
    ensures LeaderStep(c, nodes, l, ProposeKnown(c, l, p, env))
  {
    hide LeaderInv, Grows, Propose;
    NoChange(c, nodes, l);
    if l.st.params == Some(p.blockHash) {
      ProposeStep(c, nodes, l, p, env);
    } else if env.buildOk {
      KnownProposals(c, nodes, l);
      var l1 := WithBlock(l, Some(p.blockHash), l.st.proposals);
      BlockStep(c, nodes, l, Some(p.blockHash), l.st.proposals);
      ProposeStep(c, nodes, l1, p, env);
      LeaderStepTransitive(c, nodes, l, l1, Propose(c, l1, p, env));
    }
  }

  /** The high QC is for the base block or certifies a child of the base block. */
  lemma SignalNode(c: Config, nodes: Nodes, l: Local)
    requires LeaderInv(c, nodes, l) && l.st.leader.newViewSignal.Some?
    ensures var hq := l.st.leader.newViewSignal.value;
      if BaseCert(c, hq) then hq.node.blockHash == c.base.node.blockHash
      else hq.node.blockHash != c.base.node.blockHash && hq.node.parentHash == c.base.node.blockHash
  {
    LeaderParts(c, nodes, l);
    var hq := l.st.leader.newViewSignal.value;
    if !BaseCert(c, hq) {
      NotBaseBlock(c, CoreOf(nodes, l), hq);
    }
  }

  lemma PendingStep(c: Config, nodes: Nodes, l: Local, h: Hash)
    requires LeaderInv(c, nodes, l) && l.st.leader.newViewSignal.Some? && l.st.leader.prepareMessage.None?
    requires !BaseCert(c, l.st.leader.newViewSignal.value) && l.st.leader.newViewSignal.value.node.blockHash == h
    ensures LeaderStep(c, nodes, l, WithLeader(l, l.st.leader.(pendingRemote := Some(h))))
  {
    hide LeaderInv, MemoryOk;
    LeaderParts(c, nodes, l);
    SetLeaderStep(c, nodes, l, l.st.leader.(pendingRemote := Some(h)));
  }

  lemma ReuseStep(c: Config, nodes: Nodes, l: Local, env: Env)
    requires LeaderInv(c, nodes, l) && Ready(c) && ValidEnv(c, env)
    requires l.st.leader.prepareMessage.None? && l.st.leader.pendingRemote.None? && l.st.leader.newViewSignal.Some?
    requires !BaseCert(c, l.st.leader.newViewSignal.value)
    ensures LeaderStep(c, nodes, l, ReuseProposal(c, l, l.st.leader.newViewSignal.value, env))
  {
    hide LeaderInv, Grows, ProposeKnown;
    var hq := l.st.leader.newViewSignal.value;
    NoChange(c, nodes, l);
    SignalNode(c, nodes, l);
    KnownProposals(c, nodes, l);
    var h := hq.node.blockHash;
    if h in l.st.proposals {
      KnownStep(c, nodes, l, l.st.proposals[h], env);
    } else if env.target in RemoteHolders(c, l, hq) {
      var l1 := WithLeader(l, l.st.leader.(pendingRemote := Some(h)));
      PendingStep(c, nodes, l, h);
      var ps := {Packet(l.me, env.target, ProposalRequest(h))};
      SendLeader(c, nodes, l1, ps);
      LeaderStepTransitive(c, nodes, l, l1, SendOut(l1, ps));
    } else if RemoteHolders(c, l, hq) == {} {
      HaltLeader(c, nodes, l);
    }
  }

  lemma HaltLocal(c: Config, nodes: Nodes, l: Local)
    requires LocalInv(c, nodes, l)
    ensures LocalInv(c, nodes, l.(st := l.st.(halted := true)))
  {
    hide CoreInv, CoreOf, PacketsOk, RoleOk, MemoryOk;
    var l' := l.(st := l.st.(halted := true));
    LocalParts(c, nodes, l);
    RoleSame(c, l.facts, l.me, l.st, l'.st);
    MemorySame(c, l.facts, l.me, l.st, l'.st);
    SetState(c, nodes, l, l');
  }

  lemma HaltLeader(c: Config, nodes: Nodes, l: Local)
    requires LeaderInv(c, nodes, l)
    ensures LeaderStep(c, nodes, l, l.(st := l.st.(halted := true)))
  {
    hide LocalInv;
    HaltLocal(c, nodes, l);
    ReadyHere(c, nodes, l);
  }

  lemma WorkStep(c: Config, nodes: Nodes, l: Local, env: Env)
    requires LeaderInv(c, nodes, l) && Ready(c) && ValidEnv(c, env)
    requires l.st.leader.prepareMessage.None? && l.st.leader.pendingRemote.None? && l.st.leader.newViewSignal.Some?
    ensures LeaderStep(c, nodes, l, Work(c, l, env))
  {
    hide LeaderInv, Grows, CreateProposal, ReuseProposal;
    NoChange(c, nodes, l);
    SignalNode(c, nodes, l);
    if BaseCert(c, l.st.leader.newViewSignal.value) {
      CreateStep(c, nodes, l, env);
    } else {
      ReuseStep(c, nodes, l, env);
    }
  }

  /** A high QC the leader may act on: formed, and not below its own votes if it is heavy. */
  ghost predicate GoodSignal(c: Config, l: Local, hq: QC)
    requires Ready(c)
  {
    GoodJustify(c, l.facts, hq) && (Heavy(c, l.me) ==> PreCommittedUpTo(l.facts, l.me, l.st.view, hq.view))
  }

  lemma SignalStep(c: Config, nodes: Nodes, l: Local, schedule: bool, hq: Option<QC>)
    requires LeaderInv(c, nodes, l) && Ready(c)
    requires hq.Some? ==> GoodSignal(c, l, hq.value) && l.st.leader.newViewSignal.None?
    ensures var ls := l.st.leader;
      LeaderStep(c, nodes, l, WithLeader(l, ls.(scheduleSignal := ls.scheduleSignal || schedule,
                                                 newViewSignal := if hq.Some? then hq else ls.newViewSignal)))
  {
    hide LeaderInv, MemoryOk;
    LeaderParts(c, nodes, l);
    var ls := l.st.leader;
    SetLeaderStep(c, nodes, l, ls.(scheduleSignal := ls.scheduleSignal || schedule,
                                   newViewSignal := if hq.Some? then hq else ls.newViewSignal));
  }

  lemma TryWorkStep(c: Config, nodes: Nodes, l: Local, schedule: bool, hq: Option<QC>, env: Env)
    requires LeaderInv(c, nodes, l) && Ready(c) && ValidEnv(c, env)
    requires hq.Some? ==> GoodSignal(c, l, hq.value) && l.st.leader.newViewSignal.None?
    ensures LeaderStep(c, nodes, l, TryWork(c, l, schedule, hq, env))
  {
    hide LeaderInv, Grows, Work, GoodSignal;
    var ls := l.st.leader;
    var ls1 := ls.(scheduleSignal := ls.scheduleSignal || schedule,
                   newViewSignal := if hq.Some? then hq else ls.newViewSignal);
    var l1 := WithLeader(l, ls1);
    SignalStep(c, nodes, l, schedule, hq);
    if ls1.newViewSignal.Some? && ls1.scheduleSignal && ls1.prepareMessage.None? && ls1.pendingRemote.None? {
      WorkStep(c, nodes, l1, env);
      LeaderStepTransitive(c, nodes, l, l1, Work(c, l1, env));
    }
  }

  lemma ClearPendingStep(c: Config, nodes: Nodes, l: Local)
    requires LeaderInv(c, nodes, l)
    ensures LeaderStep(c, nodes, l, WithLeader(l, l.st.leader.(pendingRemote := None)))
  {
    hide LeaderInv, MemoryOk;
    LeaderParts(c, nodes, l);
    SetLeaderStep(c, nodes, l, l.st.leader.(pendingRemote := None));
  }

  lemma PendingMeans(c: Config, nodes: Nodes, l: Local)
    requires LeaderInv(c, nodes, l) && l.st.leader.pendingRemote.Some?
    ensures var ls := l.st.leader;
      && ls.newViewSignal.Some? && !BaseCert(c, ls.newViewSignal.value)
      && ls.newViewSignal.value.node.blockHash == ls.pendingRemote.value && ls.prepareMessage.None?
  {
    hide CoreInv, CoreOf, MemoryOk, PacketsOk, BallotsOk;
    LeaderParts(c, nodes, l);
  }

  lemma RemoteStep(c: Config, nodes: Nodes, l: Local, p: Proposal, env: Env)
    requires LeaderInv(c, nodes, l) && Ready(c) && ValidEnv(c, env) && p in l.st.internalProposals
    ensures LeaderStep(c, nodes, l, RemoteProposal(c, l, p, env))
  {
    hide LeaderInv, Grows, ProposeKnown;
    NoChange(c, nodes, l);
    if l.st.leader.pendingRemote == Some(p.blockHash) {
      PendingMeans(c, nodes, l);
      SignalNode(c, nodes, l);
      KnownProposals(c, nodes, l);
      var l1 := WithLeader(l, l.st.leader.(pendingRemote := None));
      ClearPendingStep(c, nodes, l);
      KnownStep(c, nodes, l1, p, env);
      LeaderStepTransitive(c, nodes, l, l1, ProposeKnown(c, l1, p, env));
    }
  }

  // ---------------------------------------------------------------- NewViews

  /** A NewView the leader may store: its certificate was formed; its own is not below its own votes. */
  ghost predicate GoodNewView(c: Config, l: Local, m: ConsensusMessage, from: Address) {
    m.justify.Some? ==>
      && GoodJustify(c, l.facts, m.justify.value)
      && (from == l.me ==> PreCommittedUpTo(l.facts, l.me, l.st.view, m.justify.value.view))
  }

  lemma StoreNewViewStep(c: Config, nodes: Nodes, l: Local, m: Justified, from: Address)
    requires LeaderInv(c, nodes, l) && GoodNewView(c, l, m, from)
    ensures LeaderStep(c, nodes, l, StoreNewView(l, m, from))
  {
    hide LeaderInv, MemoryOk;
    LeaderParts(c, nodes, l);
    SetLeaderStep(c, nodes, l, l.st.leader.(newViews := l.st.leader.newViews[from := m]));
  }

  lemma HighSignal(c: Config, nodes: Nodes, l: Local, order: seq<Address>)
    requires LeaderInv(c, nodes, l) && Ready(c) && Distinct(order)
    requires GetHighQC(c.members, l.st.leader.newViews, order).Some?
    ensures GoodSignal(c, l, GetHighQC(c.members, l.st.leader.newViews, order).value)
  {
    hide LeaderInv, MemoryOk, BallotsOk;
    LeaderParts(c, nodes, l);
    var views := l.st.leader.newViews;
    var s := GetHighQCSound(c.members, views, order);
    var hq := GetHighQC(c.members, views, order).value;
    var b :| b in s && views[b].justify.value == hq;
    assert GoodJustify(c, l.facts, views[b].justify.value);
    if Heavy(c, l.me) {
      QuorumContainsHeavy(c.members, s, l.me);
      assert views[l.me].justify.value.view <= hq.view;
    }
  }

  lemma NewViewStep(c: Config, nodes: Nodes, l: Local, m: ConsensusMessage, from: Address, env: Env)
    requires LeaderInv(c, nodes, l) && Ready(c) && ValidEnv(c, env) && GoodNewView(c, l, m, from)
    ensures LeaderStep(c, nodes, l, LeaderNewView(c, l, m, from, env))
  {
    hide LeaderInv, Grows, TryWork, GetHighQC, AcceptsQC, GoodSignal;
    NoChange(c, nodes, l);
    if m.justify.Some? && AcceptsQC(m.justify.value, None, JustifyMembers(c, l.me, m.justify.value)) {
      var l1 := StoreNewView(l, m, from);
      StoreNewViewStep(c, nodes, l, m, from);
      var hq := GetHighQC(c.members, l1.st.leader.newViews, env.newViewOrder);
      if hq.Some? && l1.st.leader.newViewSignal.None? {
        HighSignal(c, nodes, l1, env.newViewOrder);
        TryWorkStep(c, nodes, l1, false, hq, env);
        LeaderStepTransitive(c, nodes, l, l1, TryWork(c, l1, false, hq, env));
      }
    }
  }

  ghost predicate GoodPending(c: Config, f: Facts, me: Address, pending: seq<(ConsensusMessage, Address)>) {
    forall i :: 0 <= i < |pending| ==>
      pending[i].1 != me && (pending[i].0.justify.Some? ==> GoodJustify(c, f, pending[i].0.justify.value))
  }

  lemma {:induction false} PendingSteps(c: Config, nodes: Nodes, l: Local, pending: seq<(ConsensusMessage, Address)>, envs: seq<Env>)
    requires LeaderInv(c, nodes, l) && Ready(c) && |envs| >= |pending|
    requires forall i :: 0 <= i < |envs| ==> ValidEnv(c, envs[i])
    requires GoodPending(c, l.facts, l.me, pending)
    ensures LeaderStep(c, nodes, l, ProcessPending(c, l, pending, envs))
    decreases |pending|
  {
    hide LeaderInv, LeaderNewView, ValidEnv;
    NoChange(c, nodes, l);
    if pending != [] {
      var l1 := LeaderNewView(c, l, pending[0].0, pending[0].1, envs[0]);
      NewViewStep(c, nodes, l, pending[0].0, pending[0].1, envs[0]);
      PendingSteps(c, nodes, l1, pending[1..], envs[1..]);
      LeaderStepTransitive(c, nodes, l, l1, ProcessPending(c, l, pending, envs));
    }
  }

  /** The own NewView carries a certificate at least as high as every own pre-commit vote. */
  lemma OwnNewView(c: Config, nodes: Nodes, l: Local)
    requires LeaderInv(c, nodes, l)
    ensures GoodJustify(c, l.facts, l.st.prepareQC)
    ensures PreCommittedUpTo(l.facts, l.me, l.st.view, l.st.prepareQC.view)
  {
    LocalParts(c, nodes, l);
    CoreHere(nodes, l);
    OwnVotesStored(c, CoreOf(nodes, l), l.me, l.st.view);
  }

  lemma OwnVotesStored(c: Config, k: Core, a: Address, w: nat)
    requires CoreInv(c, k) && a in k.views
    ensures Domain(c, k) && PreCommittedUpTo(k.f, a, w, k.preps[a].view)
  {
    hide NoConflict, HeavyLeaders, ReplicasSafe, CommitsLocked, QcsOk, PropsOk, AllStoredOk, PhasesOk;
    forall g | g in k.f.signed && g.signer == a && g.messageType == PreCommit && g.view < w
      ensures g.view <= k.preps[a].view
    {
      assert SigOk(c, k, g);
      assert Voted(c, k.f, a, PreCommit, g.view);
    }
  }

  // ---------------------------------------------------------------- when a leader breaks off

  /** Nothing of what a leader knows of NewViews changes, nor its role or its proposal. */
  predicate SameNewViews(l: Local, l': Local) {
    && l'.me == l.me && l'.st.view == l.st.view && l'.st.running == l.st.running && l'.st.isLeader == l.st.isLeader
    && l'.st.pendingNewViews == l.st.pendingNewViews && l'.st.halted == l.st.halted
    && l'.st.leader.newViews == l.st.leader.newViews && l'.st.leader.newViewSignal == l.st.leader.newViewSignal
    && l'.st.leader.prepareMessage == l.st.leader.prepareMessage
  }

  lemma CommitRunsOn(c: Config, l: Local, from: Address, v: Vote, env: Env)
    requires Ready(c) && l.st.leader.prepareMessage.Some?
    ensures SameNewViews(l, AddCommitVote(c, l, from, v, env))
  {
    hide GetQC, DecideAndAnnounce;
    var l1 := WithLeader(l, l.st.leader.(commits := l.st.leader.commits[from := v]));
    var q := GetQC(c.members, l1.st.leader.commits, l.me, env.commitOrder);
    if q.Some? { DecidedRunsOn(c, l1, q.value); }
  }

  lemma DecidedRunsOn(c: Config, l: Local, qc: QC)
    ensures SameNewViews(l, DecideAndAnnounce(c, l, qc))
  {
    hide Broadcast;
  }

  lemma PreCommitRunsOn(c: Config, l: Local, from: Address, v: Vote, env: Env)
    requires Ready(c) && l.st.leader.prepareMessage.Some?
    ensures SameNewViews(l, AddPreCommitVote(c, l, from, v, env))
  {
    hide GetQC, Broadcast, AddCommitVote;
    var l1 := WithLeader(l, l.st.leader.(preCommits := l.st.leader.preCommits[from := v]));
    var q := GetQC(c.members, l1.st.leader.preCommits, l.me, env.preCommitOrder);
    if q.Some? {
      var l2 := LockAndAnnounce(c, l1, q.value);
      var own := OwnVote(l2, Commit);
      CommitRunsOn(c, Sign(l2, own.sig.value), l.me, own, env);
    }
  }

  lemma PrepareRunsOn(c: Config, l: Local, from: Address, v: Vote, env: Env)
    requires Ready(c) && l.st.leader.prepareMessage.Some?
    ensures SameNewViews(l, AddPrepareVote(c, l, from, v, env))
  {
    hide GetQC, Broadcast, AddPreCommitVote;
    var l1 := WithLeader(l, l.st.leader.(prepares := l.st.leader.prepares[from := v]));
    var q := GetQC(c.members, l1.st.leader.prepares, l.me, env.prepareOrder);
    if q.Some? {
      var l2 := StoreAndAnnounce(c, l1, q.value);
      var own := OwnVote(l2, PreCommit);
      PreCommitRunsOn(c, Sign(l2, own.sig.value), l.me, own, env);
    }
  }

  lemma ProposeRunsOn(c: Config, l: Local, p: Proposal, env: Env)
    requires Ready(c) && l.st.leader.newViewSignal.Some?
    ensures var l' := Propose(c, l, p, env);
      l'.st.leader.prepareMessage.Some? && SameNewViews(WithLeader(l, l.st.leader.(prepareMessage := l'.st.leader.prepareMessage)), l')
  {
    hide Broadcast, AddPrepareVote;
    var l1 := Announce(c, l, p, l.st.leader.newViewSignal.value);
    var own := OwnVote(l1, Prepare);
    PrepareRunsOn(c, Sign(l1, own.sig.value), l.me, own, env);
  }

  /** A leader breaks off exactly when it has to propose a certified block again that it does not store
      itself, and no other validator's NewView carries the certificate. */
  lemma BreaksOffExactly(c: Config, l: Local, env: Env)
    requires Ready(c) && l.st.leader.newViewSignal.Some? && !l.st.halted
    ensures var (hq, base) := (l.st.leader.newViewSignal.value, c.base.node.blockHash);
      Work(c, l, env).st.halted <==>
        hq.node.blockHash != base && hq.node.parentHash == base && hq.node.blockHash !in l.st.proposals && RemoteHolders(c, l, hq) == {}
  {
    hide Propose;
    var hq := l.st.leader.newViewSignal.value;
    if env.builtBlock.Some? {
      var p := Proposal(c.base.node.blockHash, env.builtBlock.value);
      ProposeRunsOn(c, WithBlock(l, Some(p.blockHash), l.st.proposals[p.blockHash := p]), p, env);
    }
    if hq.node.blockHash in l.st.proposals {
      var p := l.st.proposals[hq.node.blockHash];
      ProposeRunsOn(c, l, p, env);
      ProposeRunsOn(c, WithBlock(l, Some(p.blockHash), l.st.proposals), p, env);
    }
  }
}
