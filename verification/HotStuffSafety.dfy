/** Safety of HotStuff over whole runs: the invariant holds in every reachable state, no two
    validators ever decide different blocks, and nothing a validator stores goes back. */
module HotStuffSafety {
  import opened Authorities
  import opened HotStuffTypes
  import opened HotStuffCollectors
  import opened HotStuffNode
  import opened HotStuffCore
  import opened HotStuffCoreSteps
  import opened HotStuffSystem
  import opened HotStuffLocal
  import opened HotStuffLeaderProof
  import opened HotStuffProposeProof
  import opened HotStuffReplicaProof
  import opened HotStuffRotation

  // ---------------------------------------------------------------- the invariant

  lemma InitCore(c: Config, s: Sys)
    requires Init(c, s)
    ensures CoreInv(c, CoreAt(s.nodes, s.facts))
  {
    InitStart(c, s);
    var k := CoreAt(s.nodes, s.facts);
    assert k.views.Keys == s.nodes.Keys && k.preps.Keys == s.nodes.Keys && k.locks.Keys == s.nodes.Keys;
    forall a | a in k.views ensures StoredOk(c, k, a) { assert Started(c, a, s.nodes[a]); }
  }

  lemma InitStart(c: Config, s: Sys)
    requires Init(c, s)
    ensures ValidStart(c)
  {
    InitLeaders(c, s);
    hide SameLeaders;
    var q :| Held(c, s, q) && q.view == c.top;
    assert LeftBehind(c, q);
    var a :| a in s.nodes && (q == s.nodes[a].prepareQC || q == s.nodes[a].lockedQC || q == OwnBase(c, a));
    assert Started(c, a, s.nodes[a]) && BaseCert(c, c.bases[a]);
    forall b | b in c.starts ensures BaseCert(c, c.bases[b]) && c.bases[b].view < c.starts[b] { assert Started(c, b, s.nodes[b]); }
  }

  lemma InitLeaders(c: Config, s: Sys)
    requires Init(c, s)
    ensures SameLeaders(c)
  {
    forall a: Address, v: nat | a in c.bases && v > c.bases[a].view ensures OwnLeader(c, a, v) == LeaderOf(c, v) {
      assert a in s.nodes && BaseCert(c, c.bases[a]) && BaseMatches(c, c.bases[a]);
      hide LeaderOf, Held, Started, LeftBehind;
      if c.lastMembers == c.members { assert c.members[LeaderIndex(c, c.bases[a].view)].address == c.bases[a].leader; }
      OwnLeaderExactly(c, a);
    }
  }

  lemma InitInv(c: Config, s: Sys)
    requires Init(c, s)
    ensures Inv(c, s)
  {
    hide CoreInv, CoreAt, Held, LeftBehind, Started, BaseCert, NodeOk, PacketOk;
    InitCore(c, s);
    forall a | a in s.nodes ensures NodeOk(c, s.facts, a, s.nodes[a]) { StartedNode(c, a, s.nodes[a]); }
  }

  lemma StartedNode(c: Config, a: Address, st: NodeState)
    requires Ready(c) && Started(c, a, st)
    ensures NodeOk(c, NO_FACTS, a, st)
  {
    hide StoredStart;
  }

  lemma InvReady(c: Config, s: Sys)
    requires Inv(c, s)
    ensures Ready(c)
  {
    hide ValidStart, NodesOk, PacketsOk, SignedOk, QcsOk, PropsOk, AllStoredOk, PreCommitsStored, CommitsLocked, PhasesOk, ReplicasSafe, HeavyLeaders, NoConflict;
  }

  lemma InvLocal(c: Config, s: Sys, a: Address)
    requires Inv(c, s) && a in s.nodes
    ensures LocalInv(c, s.nodes, LocalOf(s, a)) && Ready(c)
  {
    hide NodeOk, CoreInv, CoreAt, PacketOk;
    InvReady(c, s);
    assert s.nodes[a := s.nodes[a]] == s.nodes;
  }

  lemma InvCommitted(c: Config, s: Sys, a: Address, h: Hash)
    requires Inv(c, s) && a in s.nodes && h in s.nodes[a].committed
    ensures CommitFact(s.facts, h)
  {
    hide CoreInv, RoleOk, PacketsOk;
    assert Ready(c) by { InvLocal(c, s, a); }
    assert NodeOk(c, s.facts, a, s.nodes[a]);
  }

  lemma InvPacket(c: Config, s: Sys, p: Packet)
    requires Inv(c, s) && p in s.net
    ensures PacketOk(c, s.facts, p)
  {
    hide CoreInv, NodesOk;
  }

  /** No vote overtakes its proposal: a message in the net that is signed, as its sender, for the view this
      validator leads finds the proposal of the view fixed, and is a vote for it. */
  lemma VotesFollowProposal(c: Config, s: Sys, p: Packet, m: ConsensusMessage, node: Node)
    requires Inv(c, s) && p in s.net && p.to in s.nodes && p.payload == Consensus(m)
    requires var st := s.nodes[p.to]; Running(st) && st.isLeader && m.view == st.view
    requires m.sig == Some(Signature(p.from, m.messageType, m.view, node, p.to))
    ensures var pm := s.nodes[p.to].leader.prepareMessage; pm.Some? && pm.value.node == node
  {
    hide MemoryOk, TimeoutsOk, NewViewsOk, ValidStart, QcsOk, PropsOk, AllStoredOk, PreCommitsStored, CommitsLocked, PhasesOk, ReplicasSafe, HeavyLeaders, NoConflict;
    InvReady(c, s);
    InvPacket(c, s, p);
    assert m.sig.value in s.facts.signed;
    assert SigOk(c, CoreAt(s.nodes, s.facts), m.sig.value);
    assert NodeOk(c, s.facts, p.to, s.nodes[p.to]);
  }

  lemma ActStep(c: Config, s: Sys, t: Action)
    requires Inv(c, s) && Enabled(c, s, t)
    ensures LocalStep(c, s.nodes, LocalOf(s, t.a), ActLocal(c, s, t))
  {
    hide Inv, LocalInv, LocalStep, LeaderStep, ValidEnv, EnterView, Receive, TryWork, OnTimeout, RemoteProposal, SendNewView, Restart, BaseCert;
    InvLocal(c, s, t.a);
    var l := LocalOf(s, t.a);
    match t
    case Enter(a, envs) =>
      if LeaderOf(c, l.st.view) == a { LeadView(c, s.nodes, l, envs); } else { FollowView(c, s.nodes, l, envs); }
    case Deliver(a, p, env) => InvPacket(c, s, p); ReceiveStep(c, s.nodes, l, p, env);
    case Tick(a, env) =>
      TryWorkStep(c, s.nodes, l, true, None, env);
      LeaderIsLocal(c, s.nodes, l, TryWork(c, l, true, None, env));
    case Expire(a, env) => ExpireStep(c, s.nodes, l, env);
    case HandleProposal(a, p, env) =>
      RemoteStep(c, s.nodes, l, p, env);
      LeaderIsLocal(c, s.nodes, l, RemoteProposal(c, l, p, env));
    case Registered(a) => ReplicaParts(c, s.nodes, l); SendOwnNewView(c, s.nodes, l);
    case Crash(a) => RestartStep(c, s.nodes, l);
    case Import(a, source, hash) => InvCommitted(c, s, source, hash); ImportStep(c, s.nodes, l, hash);
    case Leave(a) => LeaveStep(c, s.nodes, l);
  }

  lemma GrowsQuiet(c: Config, me: Address, f: Facts, f': Facts, b: Address, w: nat)
    requires Ready(c) && Grows(c, me, f, f') && b != me
    ensures QuietFor(c, f, f', b, w)
  {
  }

  lemma OthersKeep(c: Config, s: Sys, l: Local)
    requires ValidConfig(c) && NodesOk(c, s) && l.me in s.nodes && Grows(c, l.me, s.facts, l.facts)
    requires NodeOk(c, l.facts, l.me, l.st)
    ensures NodesOk(c, Sys(s.nodes[l.me := l.st], s.net + l.out, l.facts))
  {
    hide NodeOk, Grows;
    var nodes := s.nodes[l.me := l.st];
    forall b | b in nodes ensures NodeOk(c, l.facts, b, nodes[b]) {
      if b != l.me {
        GrowsQuiet(c, l.me, s.facts, l.facts, b, s.nodes[b].view);
        assert NodeOk(c, s.facts, b, s.nodes[b]);
        NodeGrows(c, s.facts, l.facts, b, s.nodes[b]);
      }
    }
  }

  lemma NetKeeps(c: Config, s: Sys, l: Local)
    requires Ready(c) && Grows(c, l.me, s.facts, l.facts) && PacketsOk(c, s.facts, s.net) && PacketsOk(c, l.facts, l.out)
    ensures PacketsOk(c, l.facts, s.net + l.out)
  {
    PacketsGrow(c, s.facts, l.facts, s.net);
  }

  /** Every enabled step of the system keeps the invariant. */
  lemma StepInv(c: Config, s: Sys, t: Action)
    requires Inv(c, s) && Enabled(c, s, t)
    ensures Inv(c, Step(c, s, t))
  {
    hide CoreInv, NodeOk, PacketsOk, Grows, ActLocal, CoreAt;
    ActStep(c, s, t);
    var l := ActLocal(c, s, t);
    ReadyHere(c, s.nodes, l);
    OthersKeep(c, s, l);
    NetKeeps(c, s, l);
  }

  /** The invariant holds in every state of every run. */
  lemma {:induction false} RunInv(c: Config, run: seq<Sys>, actions: seq<Action>, i: nat)
    requires IsRun(c, run, actions) && i < |run|
    ensures Inv(c, run[i])
  {
    hide Inv, Init, Enabled, Step;
    if i == 0 {
      InitInv(c, run[0]);
    } else {
      RunInv(c, run, actions, i - 1);
      StepInv(c, run[i - 1], actions[i - 1]);
    }
  }

  // ---------------------------------------------------------------- nothing goes back

  /** View, prepare QC and lock of `a` are between the base view and its view, and no lower than before. */
  predicate Monotone(c: Config, st: NodeState, st': NodeState) {
    && c.base.view < st'.view
    && c.base.view <= st'.prepareQC.view <= st'.view && c.base.view <= st'.lockedQC.view <= st'.view
    && st.view <= st'.view && st.prepareQC.view <= st'.prepareQC.view && st.lockedQC.view <= st'.lockedQC.view
    && st.committed <= st'.committed
  }

  lemma StoredBounds(c: Config, s: Sys, a: Address)
    requires Inv(c, s) && a in s.nodes
    ensures Monotone(c, s.nodes[a], s.nodes[a])
  {
    hide NodesOk, PacketsOk, CoreInv;
    StoredOf(c, CoreAt(s.nodes, s.facts), a);
  }

  lemma StepMonotone(c: Config, s: Sys, t: Action, a: Address)
    requires Inv(c, s) && Enabled(c, s, t) && a in s.nodes
    ensures a in Step(c, s, t).nodes && Monotone(c, s.nodes[a], Step(c, s, t).nodes[a])
    ensures s.facts.qcs <= Step(c, s, t).facts.qcs
  {
    hide Inv, Enabled, ActLocal, LocalInv;
    ActStep(c, s, t);
    StepInv(c, s, t);
    StoredBounds(c, Step(c, s, t), a);
  }

  /** Over any run: from one state to any later one, views, prepare QCs, locks and decisions of a
      validator never go back, and stay between the base view and the validator's view. */
  lemma {:induction false} RunMonotone(c: Config, run: seq<Sys>, actions: seq<Action>, i: nat, j: nat, a: Address)
    requires IsRun(c, run, actions) && i <= j < |run| && a in run[i].nodes
    ensures a in run[j].nodes && Monotone(c, run[i].nodes[a], run[j].nodes[a])
    ensures run[i].facts.qcs <= run[j].facts.qcs
    decreases j - i
  {
    hide Inv, Init, Enabled, Step;
    if i == j {
      RunInv(c, run, actions, i);
      StoredBounds(c, run[i], a);
    } else {
      RunMonotone(c, run, actions, i, j - 1, a);
      RunInv(c, run, actions, j - 1);
      StepMonotone(c, run[j - 1], actions[j - 1], a);
    }
  }

  // ---------------------------------------------------------------- agreement

  lemma StateAgreement(c: Config, s: Sys, h: Hash, h': Hash)
    requires Inv(c, s) && CommitFact(s.facts, h) && CommitFact(s.facts, h')
    ensures h == h'
  {
    hide CoreInv, NodesOk, PacketsOk;
    var k := CoreAt(s.nodes, s.facts);
    var q :| q in k.f.qcs && q.messageType == Commit && q.node.blockHash == h;
    var q' :| q' in k.f.qcs && q'.messageType == Commit && q'.node.blockHash == h';
    Agreement(c, k, q, q');
  }

  /** Once a commit QC for a block exists at view `v`, every prepare QC at `v` or later, formed at any
      point of the run, is for that block. */
  lemma CommitFixesBlock(c: Config, run: seq<Sys>, actions: seq<Action>, i: nat, j: nat, q: QC, p: QC)
    requires IsRun(c, run, actions) && i < |run| && j < |run|
    requires q in run[i].facts.qcs && q.messageType == Commit
    requires p in run[j].facts.qcs && p.messageType == Prepare && p.view >= q.view
    ensures p.node.blockHash == q.node.blockHash
  {
    hide CoreInv, NodesOk, PacketsOk, Init, Enabled, Step;
    var m := if i <= j then j else i;
    FactsGrow(c, run, actions, i, m);
    FactsGrow(c, run, actions, j, m);
    RunInv(c, run, actions, m);
    CommitExcludes(c, CoreAt(run[m].nodes, run[m].facts), q, p);
  }

  lemma {:induction false} FactsGrow(c: Config, run: seq<Sys>, actions: seq<Action>, i: nat, j: nat)
    requires IsRun(c, run, actions) && i <= j < |run|
    ensures run[i].facts.qcs <= run[j].facts.qcs
    decreases j - i
  {
    hide Inv, Init, Enabled, Step, Monotone;
    if i < j {
      FactsGrow(c, run, actions, i, j - 1);
      RunInv(c, run, actions, j - 1);
      EnabledNode(c, run[j - 1], actions[j - 1]);
      StepMonotone(c, run[j - 1], actions[j - 1], actions[j - 1].a);
    }
  }

  lemma EnabledNode(c: Config, s: Sys, t: Action)
    requires Enabled(c, s, t)
    ensures t.a in s.nodes
  {
  }

  /** Agreement: whatever two validators decide, at whatever points of a run, is the same block. */
  lemma NoTwoDecisions(c: Config, run: seq<Sys>, actions: seq<Action>, i: nat, j: nat, a: Address, b: Address, h: Hash, h': Hash)
    requires IsRun(c, run, actions) && i < |run| && j < |run|
    requires a in run[i].nodes && h in run[i].nodes[a].committed
    requires b in run[j].nodes && h' in run[j].nodes[b].committed
    ensures h == h'
  {
    hide Inv, Init, Enabled, Step;
    var m := if i <= j then j else i;
    RunMonotone(c, run, actions, i, m, a);
    RunMonotone(c, run, actions, j, m, b);
    RunInv(c, run, actions, m);
    InvCommitted(c, run[m], a, h);
    InvCommitted(c, run[m], b, h');
    StateAgreement(c, run[m], h, h');
  }

  /** Each validator rotates from its own base QC, and yet any two of them that are in the same view, at
      whatever points of a run, work out the same leader. */
  lemma OneLeaderAView(c: Config, run: seq<Sys>, actions: seq<Action>, i: nat, j: nat, a: Address, b: Address)
    requires IsRun(c, run, actions) && i < |run| && j < |run| && a in run[i].nodes && b in run[j].nodes
    requires run[i].nodes[a].view == run[j].nodes[b].view
    ensures Ready(c) && OwnLeader(c, a, run[i].nodes[a].view) == OwnLeader(c, b, run[j].nodes[b].view)
  {
    hide Inv, Init, Enabled, Step, LocalInv, OwnLeader, LeaderOf;
    RunInv(c, run, actions, i);
    RunInv(c, run, actions, j);
    InvLocal(c, run[i], a);
    InvLocal(c, run[j], b);
    OwnLeaderHere(c, run[i].nodes, LocalOf(run[i], a));
    OwnLeaderHere(c, run[j].nodes, LocalOf(run[j], b));
  }

  // ---------------------------------------------------------------- a run that decides

  const LONE: Config := Config([Member(1, 1)], [Member(1, 1)], LONE_BASE, map[1 := LONE_BASE], map[1 := 1], 0)

  const LONE_BASE: QC := QC(Decide, 0, Node(0, 7), 1, [])

  const LONE_ENV: Env := Env([1], [1], [1], [1], [1], Some(8), true, true, 0)

  lemma LoneWeights()
    ensures Total(LONE.members) == 1 && Quorum(LONE.members) == 1 && Ready(LONE)
    ensures MemberWeights(LONE.members) == map[1 := 1]
    ensures forall v :: LeaderOf(LONE, v) == 1
  {
    assert LONE.members[..0] == [];
  }

  lemma LoneVotes(votes: map<Address, Vote>)
    requires 1 in votes && Ready(LONE)
    ensures var m := votes[1];
      GetQC(LONE.members, votes, 1, [1]) == Some(QC(m.messageType, m.view, m.node.value, 1, [] + [m.sig.value]))
  {
    LoneWeights();
  }

  lemma LoneNewViews(views: map<Address, Justified>)
    requires 1 in views && Ready(LONE)
    ensures GetHighQC(LONE.members, views, [1]) == views[1].justify
  {
    LoneWeights();
  }

  ghost predicate LoneReady(l: Local) {
    && l.me == 1 && l.st.params == Some(8) && 8 in l.st.proposals && l.st.proposals[8].blockHash == 8
    && l.st.leader.prepareMessage.Some? && l.st.leader.prepareMessage.value.node.blockHash == 8
    && !l.st.leader.decideSent
  }

  lemma LoneCommits(l: Local)
    requires LoneReady(l) && Ready(LONE)
    ensures 8 in OwnCommitVote(LONE, l, LONE_ENV).st.committed
  {
    hide GetQC, Broadcast;
    var v := OwnVote(l, Commit);
    LoneVotes(l.st.leader.commits[1 := v]);
  }

  lemma LonePreCommits(l: Local)
    requires LoneReady(l) && Ready(LONE) && !l.st.leader.commitSent
    ensures 8 in OwnPreCommitVote(LONE, l, LONE_ENV).st.committed
  {
    hide GetQC, Broadcast, OwnCommitVote;
    var v := OwnVote(l, PreCommit);
    var l1 := WithLeader(Sign(l, v.sig.value), l.st.leader.(preCommits := l.st.leader.preCommits[1 := v]));
    LoneVotes(l1.st.leader.preCommits);
    var q := GetQC(LONE.members, l1.st.leader.preCommits, 1, [1]).value;
    LoneCommits(LockAndAnnounce(LONE, l1, q));
  }

  lemma LonePrepares(l: Local)
    requires LoneReady(l) && Ready(LONE) && !l.st.leader.commitSent && !l.st.leader.preCommitSent
    ensures 8 in OwnPrepareVote(LONE, l, LONE_ENV).st.committed
  {
    hide GetQC, Broadcast, OwnPreCommitVote;
    var v := OwnVote(l, Prepare);
    var l1 := WithLeader(Sign(l, v.sig.value), l.st.leader.(prepares := l.st.leader.prepares[1 := v]));
    LoneVotes(l1.st.leader.prepares);
    var q := GetQC(LONE.members, l1.st.leader.prepares, 1, [1]).value;
    LonePreCommits(StoreAndAnnounce(LONE, l1, q));
  }

  lemma LoneEnters(l: Local)
    requires l.me == 1 && l.st.pendingNewViews == [] && l.st.prepareQC == LONE.base && Ready(LONE)
    ensures EnterView(LONE, l, [LONE_ENV]) == l.(st := l.st.(running := Some(l.st.view), isLeader := true, currentLeader := 1,
      leader := FRESH_LEADER.(newViews := map[1 := ConsensusMessage(NewView, l.st.view, None, Some(LONE.base), None)],
                              newViewSignal := Some(LONE.base)), pendingNewViews := []))
  {
    LoneWeights();
    var own := ConsensusMessage(NewView, l.st.view, None, Some(LONE.base), None);
    LoneNewViews(FRESH_LEADER.newViews[1 := own]);
    hide GetHighQC, LeaderOf, Work;
  }

  lemma LoneProposes(l: Local)
    requires l.me == 1 && Ready(LONE) && l.st.leader.newViewSignal == Some(LONE.base)
    requires l.st.leader.prepareMessage.None? && l.st.leader.pendingRemote.None?
    requires !l.st.leader.decideSent && !l.st.leader.commitSent && !l.st.leader.preCommitSent && l.st.committed == {}
    ensures 8 in TryWork(LONE, l, true, None, LONE_ENV).st.committed
  {
    hide OwnPrepareVote, Broadcast;
    var p := Proposal(7, 8);
    var l1 := WithLeader(l, l.st.leader.(scheduleSignal := true));
    var l2 := l1.(st := l1.st.(params := Some(8), proposals := l1.st.proposals[8 := p]));
    LonePrepares(Announce(LONE, l2, p, LONE.base));
  }

  /** The step relation does lead to decisions: a lone authority enters its view and, at the first
      tick of the scheduler, proposes, certifies and commits its block. */
  lemma LoneAuthorityDecides(s: Sys) returns (run: seq<Sys>, actions: seq<Action>)
    requires Init(LONE, s) && 1 in s.nodes
    ensures IsRun(LONE, run, actions) && run[0] == s
    ensures 1 in run[|run| - 1].nodes && 8 in run[|run| - 1].nodes[1].committed
  {
    hide EnterView, TryWork;
    LoneWeights();
    assert Started(LONE, 1, s.nodes[1]);
    LoneEnters(LocalOf(s, 1));
    var enter, tick := Enter(1, [LONE_ENV]), Tick(1, LONE_ENV);
    var s1 := Step(LONE, s, enter);
    LoneProposes(LocalOf(s1, 1));
    var s2 := Step(LONE, s1, tick);
    run, actions := [s, s1, s2], [enter, tick];
  }
}
