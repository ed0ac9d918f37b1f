/** Two runs in which a leader breaks off: one on its own prepare QC, one on a certificate that another
    validator's NewView brought and a late NewView of the same validator replaced. */
module HotStuffBreakOffRuns {
  import opened Authorities
  import opened HotStuffTypes
  import opened HotStuffCollectors
  import opened HotStuffNode
  import opened HotStuffCore
  import opened HotStuffSystem
  import opened HotStuffBreakOff
  import opened HotStuffProposeProof

  ghost predicate Reachable(c: Config, s: Sys) {
    exists run: seq<Sys>, actions: seq<Action> :: |run| > 0 && IsRun(c, run, actions) && run[|run| - 1] == s
  }

  lemma Take(c: Config, s: Sys, t: Action) returns (s': Sys)
    requires Reachable(c, s) && Enabled(c, s, t)
    ensures Reachable(c, s') && s' == Step(c, s, t)
  {
    hide Enabled, Step, Init, IsRun;
    s' := Step(c, s, t);
    var run: seq<Sys>, actions: seq<Action> :| |run| > 0 && IsRun(c, run, actions) && run[|run| - 1] == s;
    Longer(c, run, actions, t);
    assert (run + [s'])[|run + [s']| - 1] == s';
  }

  lemma Longer(c: Config, run: seq<Sys>, actions: seq<Action>, t: Action)
    requires IsRun(c, run, actions) && Enabled(c, run[|run| - 1], t)
    ensures IsRun(c, run + [Step(c, run[|run| - 1], t)], actions + [t])
  {
    hide Enabled, Step, Init;
    var s' := Step(c, run[|run| - 1], t);
    var (run', actions') := (run + [s'], actions + [t]);
    forall i | 0 <= i < |actions'| ensures Enabled(c, run'[i], actions'[i]) && run'[i + 1] == Step(c, run'[i], actions'[i]) {
      if i < |actions| { assert actions'[i] == actions[i] && run'[i] == run[i] && run'[i + 1] == run[i + 1]; }
    }
  }

  lemma Begin(c: Config, s: Sys)
    requires Init(c, s)
    ensures Reachable(c, s)
  {
    hide Init;
    assert IsRun(c, [s], []) && [s][|[s]| - 1] == s;
  }

  // ---------------------------------------------------------------- single steps

  lemma EnterStep(c: Config, s: Sys, a: Address, envs: seq<Env>, ps: set<Packet>) returns (s': Sys)
    requires Reachable(c, s) && Ready(c) && a in s.nodes && !s.nodes[a].halted && !Running(s.nodes[a])
    requires |envs| > |s.nodes[a].pendingNewViews| && forall i :: 0 <= i < |envs| ==> ValidEnv(c, envs[i])
    requires ps <= EnterView(c, Local(a, s.nodes[a], {}, s.facts), envs).out
    ensures Reachable(c, s') && s.net + ps <= s'.net
    ensures s'.nodes == s.nodes[a := EnterView(c, Local(a, s.nodes[a], {}, s.facts), envs).st]
  {
    hide Reachable, ValidEnv, EnterView;
    s' := Take(c, s, Enter(a, envs));
  }

  lemma DeliverStep(c: Config, s: Sys, a: Address, p: Packet, env: Env, ps: set<Packet>) returns (s': Sys)
    requires Reachable(c, s) && Ready(c) && a in s.nodes && !s.nodes[a].halted && Running(s.nodes[a]) && ValidEnv(c, env)
    requires p in s.net && p.to == a && ps <= Receive(c, Local(a, s.nodes[a], {}, s.facts), p, env).out
    ensures Reachable(c, s') && s.net + ps <= s'.net
    ensures s'.nodes == s.nodes[a := Receive(c, Local(a, s.nodes[a], {}, s.facts), p, env).st]
  {
    hide Reachable, ValidEnv, Receive;
    s' := Take(c, s, Deliver(a, p, env));
  }

  lemma TickStep(c: Config, s: Sys, a: Address, env: Env, ps: set<Packet>) returns (s': Sys)
    requires Reachable(c, s) && Ready(c) && a in s.nodes && !s.nodes[a].halted && Running(s.nodes[a]) && s.nodes[a].isLeader && ValidEnv(c, env)
    requires ps <= TryWork(c, Local(a, s.nodes[a], {}, s.facts), true, None, env).out
    ensures Reachable(c, s') && s.net + ps <= s'.net
    ensures s'.nodes == s.nodes[a := TryWork(c, Local(a, s.nodes[a], {}, s.facts), true, None, env).st]
  {
    hide Reachable, ValidEnv, TryWork;
    s' := Take(c, s, Tick(a, env));
  }

  lemma ExpireStep(c: Config, s: Sys, a: Address, env: Env, ps: set<Packet>) returns (s': Sys)
    requires Reachable(c, s) && Ready(c) && a in s.nodes && !s.nodes[a].halted && Running(s.nodes[a]) && ValidEnv(c, env)
    requires ps <= OnTimeout(c, Local(a, s.nodes[a], {}, s.facts), env).out
    ensures Reachable(c, s') && s.net + ps <= s'.net
    ensures s'.nodes == s.nodes[a := OnTimeout(c, Local(a, s.nodes[a], {}, s.facts), env).st]
  {
    hide Reachable, ValidEnv, OnTimeout;
    s' := Take(c, s, Expire(a, env));
  }

  function NewViewOf(view: nat, qc: QC): ConsensusMessage {
    ConsensusMessage(NewView, view, None, Some(qc), None)
  }

  // ---------------------------------------------------------------- three validators

  const GENESIS: QC := QC(Decide, 0, Node(0, 7), 3, [])

  const TRIO: Config := Config([Member(1, 1), Member(2, 1), Member(3, 2)], [Member(1, 1), Member(2, 1), Member(3, 2)], GENESIS,
                               map[1 := GENESIS, 2 := GENESIS, 3 := GENESIS], map[1 := 1, 2 := 1, 3 := 1], 0)

  const ORDER: seq<Address> := [2, 3, 1]

  const ENV: Env := Env(ORDER, ORDER, ORDER, ORDER, ORDER, Some(8), true, true, 0)

  const START: NodeState := NodeState(1, GENESIS, GENESIS, map[], None, None, false, 0, FRESH_LEADER, [], {}, map[], None, {}, false)

  lemma TrioWeights()
    ensures Total(TRIO.members) == 4 && Quorum(TRIO.members) == 3 && Ready(TRIO)
    ensures MemberWeights(TRIO.members) == map[1 := 1, 2 := 1, 3 := 2]
    ensures WeightIn(TRIO.members, 1) == 1 && WeightIn(TRIO.members, 2) == 1 && WeightIn(TRIO.members, 3) == 2
    ensures AddressSet(TRIO.members) == {1, 2, 3}
  {
    var ms := TRIO.members;
    assert ms[..2] == [Member(1, 1), Member(2, 1)] && ms[..2][..1] == [Member(1, 1)] && ms[..2][..1][..0] == [];
    assert Total(ms[..2][..1]) == 1 && Total(ms[..2]) == 2;
    assert MemberWeights(ms[..2][..1]) == map[1 := 1] && MemberWeights(ms[..2]) == map[1 := 1, 2 := 1];
    assert ms[0].address == 1 && ms[1].address == 2 && ms[2].address == 3;
  }

  lemma TrioLeaders(a: Address)
    requires a in TRIO.bases
    ensures OwnLeader(TRIO, a, 1) == 1 && OwnLeader(TRIO, a, 2) == 2 && LeaderOf(TRIO, 0) == 3
  {
    assert TRIO.members[1..] == [Member(2, 1), Member(3, 2)] && TRIO.members[1..][1..] == [Member(3, 2)];
    assert FirstIndex(TRIO.members, 3) == 2;
  }

  lemma TrioEnv()
    ensures ValidEnv(TRIO, ENV)
  {
    assert ORDER[0] == 2 && ORDER[1] == 3 && ORDER[2] == 1;
  }

  /** What the walks over votes, NewViews and timeouts of two of the three yield. */
  lemma VotesOfOne(votes: map<Address, Vote>)
    requires votes.Keys == {1} && Ready(TRIO)
    ensures GetQC(TRIO.members, votes, 1, ORDER) == None
  {
    TrioWeights();
    var ms := TRIO.members;
    assert ORDER[1..] == [3, 1] && ORDER[1..][1..] == [1] && ORDER[1..][1..][1..] == [];
    assert CollectQC(ms, votes, 1, [1], 0, []) == None;
  }

  lemma VotesOfTwo(votes: map<Address, Vote>)
    requires votes.Keys == {1, 3} && Ready(TRIO)
    ensures var m := votes[1];
      GetQC(TRIO.members, votes, 1, ORDER) == Some(QC(m.messageType, m.view, m.node.value, 1, [votes[3].sig.value, m.sig.value]))
  {
    TrioWeights();
    var ms := TRIO.members;
    assert ORDER[1..] == [3, 1] && ORDER[1..][1..] == [1] && ORDER[1..][1..][1..] == [];
    var sigs := [] + [votes[3].sig.value];
    assert sigs + [votes[1].sig.value] == [votes[3].sig.value, votes[1].sig.value];
    assert CollectQC(ms, votes, 1, [1], 2, sigs).Some?;
  }

  lemma NewViewsOfOne(views: map<Address, Justified>, a: Address)
    requires views.Keys == {a} && a in {1, 2} && Ready(TRIO)
    ensures GetHighQC(TRIO.members, views, ORDER) == None
  {
    TrioWeights();
    var ms := TRIO.members;
    assert ORDER[1..] == [3, 1] && ORDER[1..][1..] == [1] && ORDER[1..][1..][1..] == [];
    assert forall total: nat, high :: CollectHighQC(ms, views, [], total, high) == None;
    assert a == 2 ==> CollectHighQC(ms, views, [1], 1, Some(views[a].justify.value)) == None;
    assert a == 1 ==> CollectHighQC(ms, views, [1], 0, None) == None;
  }

  lemma NewViewsOfTwo(views: map<Address, Justified>, a: Address)
    requires views.Keys == {a, 3} && a in {1, 2} && views[3].justify == Some(GENESIS) && Ready(TRIO)
    requires a == 1 ==> views[1].justify == Some(GENESIS)
    ensures GetHighQC(TRIO.members, views, ORDER) == views[a].justify
  {
    TrioWeights();
    var ms := TRIO.members;
    assert ORDER[1..] == [3, 1] && ORDER[1..][1..] == [1] && ORDER[1..][1..][1..] == [];
    assert a == 1 ==> CollectHighQC(ms, views, [1], 2, Some(GENESIS)) == Some(GENESIS);
  }

  lemma TimeoutsOfOne(msgs: map<Address, SignedTimeout>)
    requires msgs.Keys == {3} && Ready(TRIO)
    ensures CollectTC(TRIO.members, msgs, ORDER, 0, []) == None
  {
    TrioWeights();
    var ms := TRIO.members;
    assert ORDER[1..] == [3, 1] && ORDER[1..][1..] == [1] && ORDER[1..][1..][1..] == [];
    assert CollectTC(ms, msgs, [1], 2, [] + [msgs[3].sig.value]) == None;
  }

  lemma TimeoutsOfTwo(msgs: map<Address, SignedTimeout>)
    requires msgs.Keys == {2, 3} && Ready(TRIO)
    ensures CollectTC(TRIO.members, msgs, ORDER, 0, []) == Some(TC(msgs[3].view, [msgs[2].sig.value, msgs[3].sig.value]))
  {
    TrioWeights();
    assert ORDER[1..] == [3, 1];
    assert [] + [msgs[2].sig.value] + [msgs[3].sig.value] == [msgs[2].sig.value, msgs[3].sig.value];
  }

  const X: Node := Node(7, 8)

  const PROPOSAL: Proposal := Proposal(7, 8)

  function Signed(a: Address, t: MessageType): Signature { Signature(a, t, 1, X, 1) }

  function VoteOf(a: Address, t: MessageType): ConsensusMessage { ConsensusMessage(t, 1, Some(X), None, Some(Signed(a, t))) }

  /** The certificate for the block of view 1, by validators 3 and 1. */
  const CERT: QC := QC(Prepare, 1, X, 1, [Signed(3, Prepare), Signed(1, Prepare)])

  function TimeoutOf(a: Address): TimeoutMessage { TimeoutMessage(NewTimeout, 1, None, Some(TimeoutSignature(a, 1))) }

  const PAST: TC := TC(1, [TimeoutSignature(2, 1), TimeoutSignature(3, 1)])

  const PREPARE: ConsensusMessage := ConsensusMessage(Prepare, 1, Some(X), Some(GENESIS), None)
  const PRECOMMIT: ConsensusMessage := ConsensusMessage(PreCommit, 1, None, Some(CERT), None)
  const DECIDED_PAST: TimeoutMessage := TimeoutMessage(TimeoutDecide, 1, Some(PAST), None)

  lemma CertAccepted()
    requires Ready(TRIO)
    ensures AcceptsQC(CERT, Some(Prepare), TRIO.members) && AcceptsQC(CERT, None, TRIO.members)
  {
    TrioWeights();
    var signers := Signers(CERT.sigs);
    assert signers == [3, 1] && signers[..1] == [3] && signers[..1][..0] == [];
    assert ListWeight(TRIO.members, signers[..1]) == 2;
  }

  lemma GenesisAccepted()
    requires Ready(TRIO)
    ensures AcceptsQC(GENESIS, None, TRIO.members)
  {
  }

  lemma PastAccepted()
    requires Ready(TRIO)
    ensures AcceptsTC(PAST, TRIO.members)
  {
    TrioWeights();
    var signers := TimeoutSigners(PAST.sigs);
    assert signers == [2, 3] && signers[..1] == [2] && signers[..1][..0] == [];
    assert ListWeight(TRIO.members, signers[..1]) == 1;
  }

  lemma InBroadcast(c: Config, me: Address, payload: Payload, i: nat)
    requires i < |c.members| && c.members[i].address != me
    ensures Packet(me, c.members[i].address, payload) in Broadcast(c, me, payload)
  {
  }

  // ---------------------------------------------------------------- their states

  function Follower(st: NodeState, leader: Address): NodeState {
    st.(running := Some(st.view), isLeader := false, currentLeader := leader)
  }

  function Heading(st: NodeState, a: Address, ls: LeaderState): NodeState {
    st.(running := Some(st.view), isLeader := true, currentLeader := a, leader := ls)
  }

  const ALONE: NodeState := Heading(START, 1, FRESH_LEADER.(newViews := map[1 := NewViewOf(1, GENESIS)]))
  const SIGNALLED: NodeState := Heading(START, 1, FRESH_LEADER.(
    newViews := map[1 := NewViewOf(1, GENESIS), 3 := NewViewOf(1, GENESIS)], newViewSignal := Some(GENESIS)))
  const PROPOSED: NodeState := SIGNALLED.(params := Some(8), proposals := map[8 := PROPOSAL], leader := SIGNALLED.leader.(
    scheduleSignal := true, prepareMessage := Some(PrepareMessage(X, GENESIS)), prepares := map[1 := VoteOf(1, Prepare)]))

  const VOTER: NodeState := Follower(START, 1).(params := Some(8), proposals := map[8 := PROPOSAL], internalProposals := {PROPOSAL})
  const VOTER_LATE: NodeState := VOTER.(timeouts := map[1 := map[3 := TimeoutOf(3)]])
  const VOTER_NEXT: NodeState := VOTER.(view := 2)

  const HOLDER: NodeState := Follower(START, 1).(prepareQC := CERT)
  const HOLDER_LATE: NodeState := HOLDER.(timeouts := map[1 := map[3 := TimeoutOf(3)]])
  const HOLDER_NEXT: NodeState := HOLDER.(view := 2, timeoutTC := Some(PAST))
  const HOLDER_LEADS: NodeState := Heading(HOLDER_NEXT, 2, FRESH_LEADER.(newViews := map[2 := NewViewOf(2, CERT)]))
  const HOLDER_STUCK: NodeState := Heading(HOLDER_NEXT, 2, FRESH_LEADER.(
    newViews := map[2 := NewViewOf(2, CERT), 3 := NewViewOf(2, GENESIS)], newViewSignal := Some(CERT)))

  // ---------------------------------------------------------------- their steps

  lemma FollowerEnters(a: Address, st: NodeState, leader: Address, f: Facts)
    requires Ready(TRIO) && OwnLeader(TRIO, a, st.view) == leader != a && st.pendingNewViews == []
    ensures var l := EnterView(TRIO, Local(a, st, {}, f), [ENV]);
      l.st == Follower(st, leader) && Packet(a, leader, Consensus(NewViewOf(st.view, st.prepareQC))) in l.out
  {
    hide OwnLeader;
  }

  lemma LeaderEnters(a: Address, st: NodeState, f: Facts)
    requires Ready(TRIO) && a in {1, 2} && OwnLeader(TRIO, a, st.view) == a && st.pendingNewViews == []
    requires st.prepareQC == GENESIS || st.prepareQC == CERT
    ensures EnterView(TRIO, Local(a, st, {}, f), [ENV]).st ==
      Heading(st, a, FRESH_LEADER.(newViews := map[a := NewViewOf(st.view, st.prepareQC)]))
  {
    hide OwnLeader, AcceptsQC, GetHighQC;
    CertAccepted();
    GenesisAccepted();
    NewViewsOfOne(map[a := NewViewOf(st.view, st.prepareQC)], a);
  }

  lemma SignalArrives(f: Facts)
    requires Ready(TRIO)
    ensures Receive(TRIO, Local(1, ALONE, {}, f), Packet(3, 1, Consensus(NewViewOf(1, GENESIS))), ENV).st == SIGNALLED
  {
    hide GetHighQC, AcceptsQC;
    GenesisAccepted();
    assert TRIO.members[2].address == 3;
    NewViewsOfTwo(SIGNALLED.leader.newViews, 1);
  }

  lemma BlockProposed(f: Facts)
    requires Ready(TRIO)
    ensures var l := TryWork(TRIO, Local(1, SIGNALLED, {}, f), true, None, ENV);
      l.st == PROPOSED && Packet(1, 3, ProposalResponse(PROPOSAL)) in l.out && Packet(1, 3, Consensus(PREPARE)) in l.out
  {
    hide GetQC, Broadcast;
    VotesOfOne(map[1 := VoteOf(1, Prepare)]);
    assert TRIO.members[2].address == 3;
    InBroadcast(TRIO, 1, ProposalResponse(PROPOSAL), 2);
    InBroadcast(TRIO, 1, Consensus(PREPARE), 2);
  }

  lemma BlockArrives(f: Facts)
    requires Ready(TRIO)
    ensures Receive(TRIO, Local(3, Follower(START, 1), {}, f), Packet(1, 3, ProposalResponse(PROPOSAL)), ENV).st == VOTER
  {
  }

  lemma BlockPrepared(f: Facts)
    requires Ready(TRIO)
    ensures var l := Receive(TRIO, Local(3, VOTER, {}, f), Packet(1, 3, Consensus(PREPARE)), ENV);
      l.st == VOTER && Packet(3, 1, Consensus(VoteOf(3, Prepare))) in l.out
  {
    hide AcceptsQC;
    GenesisAccepted();
    assert TRIO.members[0].address == 1;
  }

  lemma BlockCertified(f: Facts)
    requires Ready(TRIO)
    ensures Packet(1, 2, Consensus(PRECOMMIT)) in Receive(TRIO, Local(1, PROPOSED, {}, f), Packet(3, 1, Consensus(VoteOf(3, Prepare))), ENV).out
  {
    hide GetQC, Broadcast;
    assert TRIO.members[2].address == 3 && TRIO.members[1].address == 2;
    var votes := map[1 := VoteOf(1, Prepare), 3 := VoteOf(3, Prepare)];
    VotesOfTwo(votes);
    assert PROPOSED.leader.prepares[3 := VoteOf(3, Prepare)] == votes;
    VotesOfOne(map[1 := VoteOf(1, PreCommit)]);
    InBroadcast(TRIO, 1, Consensus(PRECOMMIT), 1);
  }

  lemma CertArrives(f: Facts)
    requires Ready(TRIO)
    ensures Receive(TRIO, Local(2, Follower(START, 1), {}, f), Packet(1, 2, Consensus(PRECOMMIT)), ENV).st == HOLDER
  {
    hide AcceptsQC;
    CertAccepted();
    assert TRIO.members[0].address == 1;
  }

  lemma VoterExpires(f: Facts)
    requires Ready(TRIO)
    ensures var l := OnTimeout(TRIO, Local(3, VOTER, {}, f), ENV);
      l.st == VOTER_LATE && Packet(3, 2, Timeout(TimeoutOf(3))) in l.out
  {
    hide CollectTC, Broadcast;
    TimeoutsOfOne(map[3 := TimeoutOf(3)]);
    assert TRIO.members[1].address == 2;
    InBroadcast(TRIO, 3, Timeout(TimeoutOf(3)), 1);
  }

  lemma TimeoutArrives(f: Facts)
    requires Ready(TRIO)
    ensures Receive(TRIO, Local(2, HOLDER, {}, f), Packet(3, 2, Timeout(TimeoutOf(3))), ENV).st == HOLDER_LATE
  {
    hide CollectTC, Broadcast;
    TimeoutsOfOne(map[3 := TimeoutOf(3)]);
  }

  lemma HolderExpires(f: Facts)
    requires Ready(TRIO)
    ensures var l := OnTimeout(TRIO, Local(2, HOLDER_LATE, {}, f), ENV);
      l.st == HOLDER_NEXT && Packet(2, 3, Timeout(DECIDED_PAST)) in l.out
  {
    hide CollectTC, Broadcast;
    var msgs := map[3 := TimeoutOf(3), 2 := TimeoutOf(2)];
    TimeoutsOfTwo(msgs);
    assert TRIO.members[2].address == 3;
    InBroadcast(TRIO, 2, Timeout(DECIDED_PAST), 2);
  }

  lemma PastArrives(f: Facts)
    requires Ready(TRIO)
    ensures Receive(TRIO, Local(3, VOTER_LATE, {}, f), Packet(2, 3, Timeout(DECIDED_PAST)), ENV).st == VOTER_NEXT
  {
    hide AcceptsTC;
    PastAccepted();
  }

  lemma OldCertArrives(f: Facts)
    requires Ready(TRIO)
    ensures Receive(TRIO, Local(2, HOLDER_LEADS, {}, f), Packet(3, 2, Consensus(NewViewOf(2, GENESIS))), ENV).st == HOLDER_STUCK
  {
    hide GetHighQC, AcceptsQC;
    GenesisAccepted();
    assert TRIO.members[2].address == 3;
    NewViewsOfTwo(HOLDER_STUCK.leader.newViews, 2);
  }

  lemma HolderBreaksOff(f: Facts)
    requires Ready(TRIO)
    ensures TryWork(TRIO, Local(2, HOLDER_STUCK, {}, f), true, None, ENV).st ==
      HOLDER_STUCK.(halted := true, leader := HOLDER_STUCK.leader.(scheduleSignal := true))
  {
    hide ProposeKnown, CreateProposal;
  }

  // ---------------------------------------------------------------- the run

  ghost predicate At(s: Sys, n1: NodeState, n2: NodeState, n3: NodeState, ps: set<Packet>) {
    Reachable(TRIO, s) && s.nodes == map[1 := n1, 2 := n2, 3 := n3] && ps <= s.net
  }

  lemma TrioStarts() returns (s: Sys)
    ensures At(s, START, START, START, {}) && Ready(TRIO) && ValidEnv(TRIO, ENV)
  {
    s := Sys(map[1 := START, 2 := START, 3 := START], {}, NO_FACTS);
    TrioWeights();
    TrioEnv();
    TrioInit(s);
    Begin(TRIO, s);
  }

  lemma TrioInit(s: Sys)
    requires s == Sys(map[1 := START, 2 := START, 3 := START], {}, NO_FACTS)
    ensures Init(TRIO, s)
  {
    hide Held, LeftBehind, Started, BaseCert, BaseMatches, ValidConfig;
    TrioWeights();
    TrioLeft();
    TrioValid();
    TrioHeld(s);
    assert s.nodes.Keys == {1, 2, 3};
    forall a | a in s.nodes ensures BaseCert(TRIO, TRIO.bases[a]) && BaseMatches(TRIO, TRIO.bases[a]) && Started(TRIO, a, s.nodes[a]) {
      assert TRIO.bases[a] == GENESIS;
      TrioStarted(a, s.nodes[a]);
    }
  }

  lemma TrioValid()
    ensures ValidConfig(TRIO)
  {
    TrioWeights();
    assert TRIO.members[2].address == TRIO.base.leader;
  }

  lemma TrioHeld(s: Sys)
    requires s == Sys(map[1 := START, 2 := START, 3 := START], {}, NO_FACTS)
    ensures Held(TRIO, s, GENESIS) && forall q :: Held(TRIO, s, q) ==> q == GENESIS
  {
    assert 1 in s.nodes && s.nodes[1].prepareQC == GENESIS;
  }

  lemma TrioStarted(a: Address, st: NodeState)
    requires a in TRIO.starts && st == START
    ensures Started(TRIO, a, st) && BaseCert(TRIO, GENESIS)
  {
  }

  lemma TrioLeft()
    ensures Ready(TRIO) && LeftBehind(TRIO, GENESIS) && BaseMatches(TRIO, GENESIS)
  {
    TrioWeights();
    TrioLeaders(1);
    hide OwnLeader, LeaderOf, IsQuorum;
    assert Reached(TRIO, 0) == {1, 2, 3};
    TrioQuorum();
  }

  lemma TrioQuorum()
    requires Ready(TRIO)
    ensures IsQuorum(TRIO.members, {1, 2, 3})
  {
    WeightOfAll(TRIO.members, {1, 2, 3});
  }

  lemma Phase1(s: Sys) returns (s': Sys)
    requires At(s, START, START, START, {}) && Ready(TRIO) && ValidEnv(TRIO, ENV)
    ensures At(s', PROPOSED, START, Follower(START, 1), {Packet(1, 3, ProposalResponse(PROPOSAL)), Packet(1, 3, Consensus(PREPARE))})
  {
    hide Reachable, ValidEnv, Ready, EnterView, Receive, TryWork, OwnLeader;
    TrioLeaders(1);
    TrioLeaders(3);
    var p := Packet(3, 1, Consensus(NewViewOf(1, GENESIS)));
    FollowerEnters(3, START, 1, s.facts);
    var s1 := EnterStep(TRIO, s, 3, [ENV], {p});
    LeaderEnters(1, START, s1.facts);
    var s2 := EnterStep(TRIO, s1, 1, [ENV], {});
    SignalArrives(s2.facts);
    var s3 := DeliverStep(TRIO, s2, 1, p, ENV, {});
    BlockProposed(s3.facts);
    s' := TickStep(TRIO, s3, 1, ENV, {Packet(1, 3, ProposalResponse(PROPOSAL)), Packet(1, 3, Consensus(PREPARE))});
  }

  lemma Phase2(s: Sys) returns (s': Sys)
    requires At(s, PROPOSED, START, Follower(START, 1), {Packet(1, 3, ProposalResponse(PROPOSAL)), Packet(1, 3, Consensus(PREPARE))})
    requires Ready(TRIO) && ValidEnv(TRIO, ENV)
    ensures 1 in s'.nodes && At(s', s'.nodes[1], HOLDER, VOTER, {})
  {
    hide Reachable, ValidEnv, Ready, EnterView, Receive, OwnLeader;
    TrioLeaders(2);
    BlockArrives(s.facts);
    var s1 := DeliverStep(TRIO, s, 3, Packet(1, 3, ProposalResponse(PROPOSAL)), ENV, {});
    var vote := Packet(3, 1, Consensus(VoteOf(3, Prepare)));
    BlockPrepared(s1.facts);
    var s2 := DeliverStep(TRIO, s1, 3, Packet(1, 3, Consensus(PREPARE)), ENV, {vote});
    var cert := Packet(1, 2, Consensus(PRECOMMIT));
    BlockCertified(s2.facts);
    var s3 := DeliverStep(TRIO, s2, 1, vote, ENV, {cert});
    FollowerEnters(2, START, 1, s3.facts);
    var s4 := EnterStep(TRIO, s3, 2, [ENV], {});
    CertArrives(s4.facts);
    s' := DeliverStep(TRIO, s4, 2, cert, ENV, {});
    assert s'.nodes[1] == s3.nodes[1];
  }

  lemma Phase3(s: Sys) returns (s': Sys)
    requires 1 in s.nodes && At(s, s.nodes[1], HOLDER, VOTER, {}) && Ready(TRIO) && ValidEnv(TRIO, ENV)
    ensures 1 in s'.nodes && At(s', s'.nodes[1], HOLDER_NEXT, VOTER_NEXT, {})
  {
    hide Reachable, ValidEnv, Ready, Receive, OnTimeout;
    var (late, past) := (Packet(3, 2, Timeout(TimeoutOf(3))), Packet(2, 3, Timeout(DECIDED_PAST)));
    VoterExpires(s.facts);
    var s1 := ExpireStep(TRIO, s, 3, ENV, {late});
    TimeoutArrives(s1.facts);
    var s2 := DeliverStep(TRIO, s1, 2, late, ENV, {});
    HolderExpires(s2.facts);
    var s3 := ExpireStep(TRIO, s2, 2, ENV, {past});
    PastArrives(s3.facts);
    s' := DeliverStep(TRIO, s3, 3, past, ENV, {});
  }

  lemma Phase4(s: Sys) returns (s': Sys)
    requires 1 in s.nodes && At(s, s.nodes[1], HOLDER_NEXT, VOTER_NEXT, {}) && Ready(TRIO) && ValidEnv(TRIO, ENV)
    ensures 2 in s'.nodes && Reachable(TRIO, s') && s'.nodes[2].halted && s'.nodes[2].prepareQC == CERT && 8 !in s'.nodes[2].proposals
  {
    hide Reachable, ValidEnv, Ready, EnterView, Receive, TryWork, OwnLeader;
    TrioLeaders(2);
    TrioLeaders(3);
    var p := Packet(3, 2, Consensus(NewViewOf(2, GENESIS)));
    FollowerEnters(3, VOTER_NEXT, 2, s.facts);
    var s1 := EnterStep(TRIO, s, 3, [ENV], {p});
    LeaderEnters(2, HOLDER_NEXT, s1.facts);
    var s2 := EnterStep(TRIO, s1, 2, [ENV], {});
    OldCertArrives(s2.facts);
    var s3 := DeliverStep(TRIO, s2, 2, p, ENV, {});
    HolderBreaksOff(s3.facts);
    s' := TickStep(TRIO, s3, 2, ENV, {});
  }

  /** Validator 1 leads view 1 and certifies block 8 with the vote of validator 3; the certificate reaches
      validator 2, which never saw the block. Validators 2 and 3 leave the view, and validator 2, leading
      the next one, has the highest certificate from itself alone: it breaks off. */
  lemma OwnCertBreaksOff()
    ensures exists s :: Reachable(TRIO, s) && 2 in s.nodes && s.nodes[2].halted && s.nodes[2].prepareQC == CERT && 8 !in s.nodes[2].proposals
  {
    hide Reachable, At;
    var s := TrioStarts();
    s := Phase1(s);
    s := Phase2(s);
    s := Phase3(s);
    s := Phase4(s);
  }

  // ---------------------------------------------------------------- two validators

  const FIRST: QC := QC(Decide, 0, Node(0, 7), 2, [])

  const DUO: Config := Config([Member(1, 1), Member(2, 3)], [Member(1, 1), Member(2, 3)], FIRST,
                              map[1 := FIRST, 2 := FIRST], map[1 := 2, 2 := 1], 0)

  const BOTH: seq<Address> := [2, 1]

  const ENV2: Env := Env(BOTH, BOTH, BOTH, BOTH, BOTH, Some(8), true, true, 0)

  function Fresh(view: nat): NodeState { START.(view := view, prepareQC := FIRST, lockedQC := FIRST) }

  lemma DuoWeights()
    ensures Total(DUO.members) == 4 && Quorum(DUO.members) == 3 && Ready(DUO)
    ensures MemberWeights(DUO.members) == map[1 := 1, 2 := 3] && AddressSet(DUO.members) == {1, 2}
    ensures WeightIn(DUO.members, 1) == 1 && WeightIn(DUO.members, 2) == 3
  {
    var ms := DUO.members;
    assert ms[..1] == [Member(1, 1)] && ms[..1][..0] == [];
    assert Total(ms[..1]) == 1 && MemberWeights(ms[..1]) == map[1 := 1];
    assert ms[0].address == 1 && ms[1].address == 2;
  }

  lemma DuoLeaders(a: Address)
    requires a in DUO.bases
    ensures OwnLeader(DUO, a, 1) == 1 && OwnLeader(DUO, a, 2) == 2 && OwnLeader(DUO, a, 3) == 1 && LeaderOf(DUO, 0) == 2
  {
    assert DUO.members[1..] == [Member(2, 3)];
    assert FirstIndex(DUO.members, 2) == 1;
  }

  /** Validator 2 is a quorum alone. */
  lemma HeavyVotes(votes: map<Address, Vote>)
    requires 2 in votes && Ready(DUO)
    ensures var m := votes[2]; GetQC(DUO.members, votes, 2, BOTH) == Some(QC(m.messageType, m.view, m.node.value, 2, [m.sig.value]))
  {
    DuoWeights();
    assert [] + [votes[2].sig.value] == [votes[2].sig.value];
  }

  lemma HeavyNewViews(views: map<Address, Justified>)
    requires 2 in views && Ready(DUO)
    ensures GetHighQC(DUO.members, views, BOTH) == views[2].justify
  {
    DuoWeights();
  }

  lemma HeavyTimeouts(msgs: map<Address, SignedTimeout>)
    requires 2 in msgs && Ready(DUO)
    ensures CollectTC(DUO.members, msgs, BOTH, 0, []) == Some(TC(msgs[2].view, [msgs[2].sig.value]))
  {
    DuoWeights();
    assert [] + [msgs[2].sig.value] == [msgs[2].sig.value];
  }

  const LATER: QC := QC(Prepare, 2, X, 2, [Signature(2, Prepare, 2, X, 2)])

  function Left(view: nat): TC { TC(view, [TimeoutSignature(2, view)]) }

  lemma LaterAccepted()
    requires Ready(DUO)
    ensures AcceptsQC(LATER, None, DUO.members) && AcceptsQC(FIRST, None, DUO.members) && AcceptsTC(Left(2), DUO.members)
  {
    DuoWeights();
    var (signers, late) := (Signers(LATER.sigs), TimeoutSigners(Left(2).sigs));
    assert signers == [2] && signers[..0] == [] && late == [2] && late[..0] == [];
  }

  lemma DuoFollows(a: Address, st: NodeState, leader: Address, f: Facts)
    requires Ready(DUO) && OwnLeader(DUO, a, st.view) == leader != a && st.pendingNewViews == []
    ensures var l := EnterView(DUO, Local(a, st, {}, f), [ENV2]);
      l.st == Follower(st, leader) && Packet(a, leader, Consensus(NewViewOf(st.view, st.prepareQC))) in l.out
  {
    hide OwnLeader;
  }

  /** Validator 2 leaves its view on its own timeout. */
  lemma HeavyExpires(st: NodeState, f: Facts)
    requires Ready(DUO) && st.timeouts == map[] && (st.timeoutTC.Some? ==> st.timeoutTC.value.view < st.view)
    ensures var l := OnTimeout(DUO, Local(2, st, {}, f), ENV2);
      l.st == st.(view := st.view + 1, timeoutTC := Some(Left(st.view)))
      && Packet(2, 1, Timeout(TimeoutMessage(TimeoutDecide, st.view, Some(Left(st.view)), None))) in l.out
  {
    hide CollectTC, Broadcast;
    var m := TimeoutMessage(NewTimeout, st.view, st.timeoutTC, Some(TimeoutSignature(2, st.view)));
    HeavyTimeouts(map[2 := m]);
    assert DUO.members[0].address == 1;
    InBroadcast(DUO, 2, Timeout(TimeoutMessage(TimeoutDecide, st.view, Some(Left(st.view)), None)), 0);
  }

  lemma HeavyLeads(st: NodeState, f: Facts)
    requires Ready(DUO) && OwnLeader(DUO, 2, st.view) == 2 && st.pendingNewViews == [] && st.prepareQC == FIRST
    ensures EnterView(DUO, Local(2, st, {}, f), [ENV2]).st ==
      Heading(st, 2, FRESH_LEADER.(newViews := map[2 := NewViewOf(st.view, FIRST)], newViewSignal := Some(FIRST)))
  {
    hide OwnLeader, AcceptsQC, GetHighQC;
    LaterAccepted();
    HeavyNewViews(map[2 := NewViewOf(st.view, FIRST)]);
  }

  /** The votes after the first quorum leave prepare QC and timeouts alone. */
  lemma HeavyRest(l: Local)
    requires Ready(DUO) && l.st.leader.prepareMessage.Some? && l.me == 2
    ensures var st := OwnPreCommitVote(DUO, l, ENV2).st;
      st.prepareQC == l.st.prepareQC && st.timeouts == l.st.timeouts && st.timeoutTC == l.st.timeoutTC
  {
    hide GetQC, Broadcast, OwnCommitVote;
    var v := OwnVote(l, PreCommit);
    var l1 := WithLeader(Sign(l, v.sig.value), l.st.leader.(preCommits := l.st.leader.preCommits[2 := v]));
    var q := GetQC(DUO.members, l1.st.leader.preCommits, l.me, ENV2.preCommitOrder);
    if q.Some? { HeavyEnds(LockAndAnnounce(DUO, l1, q.value)); }
  }

  lemma HeavyEnds(l: Local)
    requires Ready(DUO) && l.st.leader.prepareMessage.Some?
    ensures var st := OwnCommitVote(DUO, l, ENV2).st;
      st.prepareQC == l.st.prepareQC && st.timeouts == l.st.timeouts && st.timeoutTC == l.st.timeoutTC
  {
    hide GetQC, Broadcast;
  }

  lemma HeavyProposes(st: NodeState, f: Facts)
    requires Ready(DUO) && st.view == 2 && st.currentLeader == 2 && st.committed == {}
    requires st.leader == FRESH_LEADER.(newViews := map[2 := NewViewOf(2, FIRST)], newViewSignal := Some(FIRST))
    ensures var st' := TryWork(DUO, Local(2, st, {}, f), true, None, ENV2).st;
      && st'.prepareQC == LATER && st'.timeouts == st.timeouts && st'.timeoutTC == st.timeoutTC
      && st'.view == 2 && st'.running == st.running && st'.halted == st.halted && st'.pendingNewViews == st.pendingNewViews
  {
    hide GetQC, Broadcast, OwnPreCommitVote;
    var l1 := WithLeader(Local(2, st, {}, f), st.leader.(scheduleSignal := true));
    var l2 := WithBlock(l1, Some(8), st.proposals[8 := PROPOSAL]);
    ProposeRunsOn(DUO, l2, PROPOSAL, ENV2);
    var l3 := Announce(DUO, l2, PROPOSAL, FIRST);
    var v := OwnVote(l3, Prepare);
    var l4 := WithLeader(Sign(l3, v.sig.value), l3.st.leader.(prepares := l3.st.leader.prepares[2 := v]));
    HeavyVotes(l4.st.leader.prepares);
    HeavyRest(StoreAndAnnounce(DUO, l4, LATER));
  }

  // ---------------------------------------------------------------- the light one

  const WAITING: NodeState := Follower(Fresh(2), 2)
  const ONE_KEPT: NodeState := WAITING.(pendingNewViews := [(NewViewOf(3, LATER), 2)])
  const TWO_KEPT: NodeState := WAITING.(pendingNewViews := [(NewViewOf(3, LATER), 2), (NewViewOf(1, FIRST), 2)])
  const MOVED_ON: NodeState := TWO_KEPT.(view := 3)
  const REPLACED: NodeState := Heading(MOVED_ON.(pendingNewViews := []), 1, FRESH_LEADER.(
    newViews := map[2 := NewViewOf(1, FIRST), 1 := NewViewOf(3, FIRST)], newViewSignal := Some(LATER)))

  lemma NewViewsKept(f: Facts)
    requires Ready(DUO)
    ensures Receive(DUO, Local(1, WAITING, {}, f), Packet(2, 1, Consensus(NewViewOf(3, LATER))), ENV2).st == ONE_KEPT
    ensures Receive(DUO, Local(1, ONE_KEPT, {}, f), Packet(2, 1, Consensus(NewViewOf(1, FIRST))), ENV2).st == TWO_KEPT
  {
    assert DUO.members[1].address == 2;
  }

  lemma ViewLeft(f: Facts)
    requires Ready(DUO)
    ensures Receive(DUO, Local(1, TWO_KEPT, {}, f), Packet(2, 1, Timeout(TimeoutMessage(TimeoutDecide, 2, Some(Left(2)), None))), ENV2).st == MOVED_ON
  {
    hide AcceptsTC;
    LaterAccepted();
  }

  lemma KeptDrained(f: Facts)
    requires Ready(DUO)
    ensures EnterView(DUO, Local(1, MOVED_ON, {}, f), [ENV2, ENV2, ENV2]).st == REPLACED
  {
    DuoLeaders(1);
    LaterAccepted();
    hide OwnLeader, AcceptsQC, GetHighQC, LeaderNewView;
    var envs := [ENV2, ENV2, ENV2];
    var pending: seq<(ConsensusMessage, Address)> := MOVED_ON.pendingNewViews;
    var rest: seq<(ConsensusMessage, Address)> := pending[1..];
    assert envs[1..][1..] == [ENV2] && envs[1..][0] == ENV2 && rest[0] == pending[1] && |rest| == 1;
    assert rest[1..] == [];
    var l1 := Local(1, Heading(MOVED_ON.(pendingNewViews := []), 1, FRESH_LEADER), {}, f);
    var l2 := WithLeader(l1, FRESH_LEADER.(newViews := map[2 := NewViewOf(3, LATER)], newViewSignal := Some(LATER)));
    var l3 := WithLeader(l1, FRESH_LEADER.(newViews := map[2 := NewViewOf(1, FIRST)], newViewSignal := Some(LATER)));
    FirstDrained(l1);
    NextDrained(l2, NewViewOf(1, FIRST), 2);
    NextDrained(l3, NewViewOf(3, FIRST), 1);
    assert ProcessPending(DUO, l3, [], [ENV2]) == l3;
    assert ProcessPending(DUO, l2, rest, envs[1..]) == l3;
    assert ProcessPending(DUO, l1, pending, envs) == l3;
  }

  lemma FirstDrained(l: Local)
    requires Ready(DUO) && l.me == 1 && l.st.leader == FRESH_LEADER
    ensures LeaderNewView(DUO, l, NewViewOf(3, LATER), 2, ENV2) ==
      WithLeader(l, FRESH_LEADER.(newViews := map[2 := NewViewOf(3, LATER)], newViewSignal := Some(LATER)))
  {
    LaterAccepted();
    hide AcceptsQC, GetHighQC, Work;
    HeavyNewViews(map[2 := NewViewOf(3, LATER)]);
  }

  /** Once there is a high QC, a NewView is only stored. */
  lemma NextDrained(l: Local, m: ConsensusMessage, from: Address)
    requires Ready(DUO) && l.me == 1 && l.st.leader.newViewSignal.Some? && m.justify == Some(FIRST)
    ensures LeaderNewView(DUO, l, m, from, ENV2) == StoreNewView(l, m, from)
  {
    LaterAccepted();
    hide AcceptsQC, GetHighQC, TryWork;
  }

  lemma LightBreaksOff(f: Facts)
    requires Ready(DUO)
    ensures TryWork(DUO, Local(1, REPLACED, {}, f), true, None, ENV2).st ==
      REPLACED.(halted := true, leader := REPLACED.leader.(scheduleSignal := true))
  {
    hide ProposeKnown, CreateProposal;
  }

  lemma DuoStarts() returns (s: Sys)
    ensures Reachable(DUO, s) && s.nodes == map[1 := Fresh(2), 2 := Fresh(1)] && Ready(DUO) && ValidEnv(DUO, ENV2)
  {
    s := Sys(map[1 := Fresh(2), 2 := Fresh(1)], {}, NO_FACTS);
    DuoWeights();
    assert BOTH[0] == 2 && BOTH[1] == 1;
    DuoInit(s);
    Begin(DUO, s);
  }

  lemma DuoInit(s: Sys)
    requires s == Sys(map[1 := Fresh(2), 2 := Fresh(1)], {}, NO_FACTS)
    ensures Init(DUO, s)
  {
    hide Held, LeftBehind, Started, BaseCert, BaseMatches, ValidConfig;
    DuoWeights();
    DuoLeft();
    DuoValid();
    DuoHeld(s);
    assert s.nodes.Keys == {1, 2};
    forall a | a in s.nodes ensures BaseCert(DUO, DUO.bases[a]) && BaseMatches(DUO, DUO.bases[a]) && Started(DUO, a, s.nodes[a]) {
      assert DUO.bases[a] == FIRST;
      DuoStarted(a, s.nodes[a]);
    }
  }

  lemma DuoValid()
    ensures ValidConfig(DUO)
  {
    DuoWeights();
    assert DUO.members[1].address == DUO.base.leader;
  }

  lemma DuoHeld(s: Sys)
    requires s == Sys(map[1 := Fresh(2), 2 := Fresh(1)], {}, NO_FACTS)
    ensures Held(DUO, s, FIRST) && forall q :: Held(DUO, s, q) ==> q == FIRST
  {
    assert 1 in s.nodes && s.nodes[1].prepareQC == FIRST;
  }

  lemma DuoStarted(a: Address, st: NodeState)
    requires a in DUO.starts && st == Fresh(DUO.starts[a])
    ensures Started(DUO, a, st) && BaseCert(DUO, FIRST)
  {
  }

  lemma DuoLeft()
    ensures Ready(DUO) && LeftBehind(DUO, FIRST) && BaseMatches(DUO, FIRST)
  {
    DuoWeights();
    DuoLeaders(1);
    hide OwnLeader, LeaderOf, IsQuorum;
    assert Reached(DUO, 0) == {1, 2};
    DuoQuorum();
  }

  lemma DuoQuorum()
    requires Ready(DUO)
    ensures IsQuorum(DUO.members, {1, 2})
  {
    WeightOfAll(DUO.members, {1, 2});
  }

  function KeptPackets(): set<Packet> {
    {Packet(2, 1, Consensus(NewViewOf(1, FIRST))), Packet(2, 1, Consensus(NewViewOf(3, LATER))),
     Packet(2, 1, Timeout(TimeoutMessage(TimeoutDecide, 2, Some(Left(2)), None)))}
  }

  /** Validator 2 asks validator 1 to lead view 1, certifies its own block in view 2, and asks validator 1
      to lead view 3. */
  lemma HeavyPart(s: Sys) returns (s': Sys)
    requires Reachable(DUO, s) && s.nodes == map[1 := Fresh(2), 2 := Fresh(1)] && Ready(DUO) && ValidEnv(DUO, ENV2)
    ensures Reachable(DUO, s') && 1 in s'.nodes && s'.nodes[1] == Fresh(2) && KeptPackets() <= s'.net
  {
    hide Reachable, ValidEnv, Ready, EnterView, TryWork, OnTimeout, OwnLeader;
    DuoLeaders(2);
    DuoFollows(2, Fresh(1), 1, s.facts);
    var s1 := EnterStep(DUO, s, 2, [ENV2], {Packet(2, 1, Consensus(NewViewOf(1, FIRST)))});
    HeavyExpires(s1.nodes[2], s1.facts);
    var s2 := ExpireStep(DUO, s1, 2, ENV2, {});
    HeavyLeads(s2.nodes[2], s2.facts);
    var s3 := EnterStep(DUO, s2, 2, [ENV2], {});
    HeavyProposes(s3.nodes[2], s3.facts);
    var s4 := TickStep(DUO, s3, 2, ENV2, {});
    HeavyExpires(s4.nodes[2], s4.facts);
    var s5 := ExpireStep(DUO, s4, 2, ENV2, {Packet(2, 1, Timeout(TimeoutMessage(TimeoutDecide, 2, Some(Left(2)), None)))});
    DuoFollows(2, s5.nodes[2], 1, s5.facts);
    s' := EnterStep(DUO, s5, 2, [ENV2], {Packet(2, 1, Consensus(NewViewOf(3, LATER)))});
  }

  /** Validator 1 keeps the NewView for view 3 and then the late one for view 1, and drains both as it
      begins to lead view 3: the first makes its high QC, the second takes its bearer away. */
  lemma LightPart(s: Sys) returns (s': Sys)
    requires Reachable(DUO, s) && 1 in s.nodes && s.nodes[1] == Fresh(2) && KeptPackets() <= s.net && Ready(DUO) && ValidEnv(DUO, ENV2)
    ensures Reachable(DUO, s') && 1 in s'.nodes && s'.nodes[1] == REPLACED.(halted := true, leader := REPLACED.leader.(scheduleSignal := true))
  {
    hide Reachable, ValidEnv, Ready, EnterView, TryWork, Receive, OwnLeader;
    DuoLeaders(1);
    DuoFollows(1, Fresh(2), 2, s.facts);
    var s1 := EnterStep(DUO, s, 1, [ENV2], {});
    NewViewsKept(s1.facts);
    var s2 := DeliverStep(DUO, s1, 1, Packet(2, 1, Consensus(NewViewOf(3, LATER))), ENV2, {});
    NewViewsKept(s2.facts);
    var s3 := DeliverStep(DUO, s2, 1, Packet(2, 1, Consensus(NewViewOf(1, FIRST))), ENV2, {});
    ViewLeft(s3.facts);
    var s4 := DeliverStep(DUO, s3, 1, Packet(2, 1, Timeout(TimeoutMessage(TimeoutDecide, 2, Some(Left(2)), None))), ENV2, {});
    KeptDrained(s4.facts);
    var s5 := EnterStep(DUO, s4, 1, [ENV2, ENV2, ENV2], {});
    LightBreaksOff(s5.facts);
    s' := TickStep(DUO, s5, 1, ENV2, {});
  }

  /** So a leader also breaks off on a certificate that is not its own. */
  lemma ReplacedCertBreaksOff()
    ensures exists s :: Reachable(DUO, s) && 1 in s.nodes && s.nodes[1].halted && s.nodes[1].prepareQC == FIRST && s.nodes[1].leader.newViewSignal == Some(LATER)
  {
    hide Reachable, ValidEnv;
    var s := DuoStarts();
    s := HeavyPart(s);
    s := LightPart(s);
  }
}
