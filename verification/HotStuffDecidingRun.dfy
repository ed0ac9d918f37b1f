/** A run of two validators, neither of which is a quorum alone, in which both decide the block that the
    first one proposes. */
module HotStuffDecidingRun {
  import opened Authorities
  import opened HotStuffTypes
  import opened HotStuffCollectors
  import opened HotStuffNode
  import opened HotStuffCore
  import opened HotStuffSystem
  import opened HotStuffBreakOffRuns

  const PAIR: Config := Config([Member(1, 1), Member(2, 1)], [Member(1, 1), Member(2, 1)], FIRST,
                               map[1 := FIRST, 2 := FIRST], map[1 := 1, 2 := 1], 0)

  const ONE_TWO: seq<Address> := [1, 2]

  const CALM: Env := Env(ONE_TWO, ONE_TWO, ONE_TWO, ONE_TWO, ONE_TWO, Some(8), true, true, 0)

  lemma PairWeights()
    ensures Total(PAIR.members) == 2 && Quorum(PAIR.members) == 2 && Ready(PAIR)
    ensures MemberWeights(PAIR.members) == map[1 := 1, 2 := 1] && AddressSet(PAIR.members) == {1, 2}
    ensures WeightIn(PAIR.members, 1) == 1 && WeightIn(PAIR.members, 2) == 1
  {
    var ms := PAIR.members;
    assert ms[..1] == [Member(1, 1)] && ms[..1][..0] == [];
    assert Total(ms[..1]) == 1 && MemberWeights(ms[..1]) == map[1 := 1];
    assert ms[0].address == 1 && ms[1].address == 2;
  }

  lemma PairLeaders(a: Address)
    requires a in PAIR.bases
    ensures OwnLeader(PAIR, a, 1) == 1 && LeaderOf(PAIR, 0) == 2
  {
    assert PAIR.members[1..] == [Member(2, 1)];
    assert FirstIndex(PAIR.members, 2) == 1;
  }

  function SignedBy(a: Address, t: MessageType): Signature { Signature(a, t, 1, X, 1) }

  function VoteBy(a: Address, t: MessageType): ConsensusMessage { ConsensusMessage(t, 1, Some(X), None, Some(SignedBy(a, t))) }

  /** The certificate of each phase. */
  function CertOf(t: MessageType): QC { QC(t, 1, X, 1, [SignedBy(1, t), SignedBy(2, t)]) }

  function Carrying(t: MessageType, of: MessageType): ConsensusMessage { ConsensusMessage(t, 1, None, Some(CertOf(of)), None) }

  lemma PairCert(t: MessageType)
    requires Ready(PAIR)
    ensures AcceptsQC(CertOf(t), Some(t), PAIR.members) && AcceptsQC(FIRST, None, PAIR.members)
  {
    PairWeights();
    var signers := Signers(CertOf(t).sigs);
    assert signers == [1, 2] && signers[..1] == [1] && signers[..1][..0] == [];
    assert ListWeight(PAIR.members, signers[..1]) == 1;
  }

  lemma PairVotes(votes: map<Address, Vote>, t: MessageType)
    requires Ready(PAIR)
    ensures votes == map[1 := VoteBy(1, t)] ==> GetQC(PAIR.members, votes, 1, ONE_TWO) == None
    ensures votes == map[1 := VoteBy(1, t), 2 := VoteBy(2, t)] ==> GetQC(PAIR.members, votes, 1, ONE_TWO) == Some(CertOf(t))
  {
    PairWeights();
    var ms := PAIR.members;
    assert ONE_TWO[1..] == [2] && ONE_TWO[1..][1..] == [];
    assert CollectQC(ms, votes, 1, [], 1, [SignedBy(1, t)]) == None;
    assert [] + [SignedBy(1, t)] == [SignedBy(1, t)] && [SignedBy(1, t)] + [SignedBy(2, t)] == CertOf(t).sigs;
  }

  lemma PairNewViews(views: map<Address, Justified>)
    requires Ready(PAIR)
    ensures views == map[1 := NewViewOf(1, FIRST)] ==> GetHighQC(PAIR.members, views, ONE_TWO) == None
    ensures views == map[1 := NewViewOf(1, FIRST), 2 := NewViewOf(1, FIRST)] ==> GetHighQC(PAIR.members, views, ONE_TWO) == Some(FIRST)
  {
    PairWeights();
    assert ONE_TWO[1..] == [2] && ONE_TWO[1..][1..] == [];
    assert CollectHighQC(PAIR.members, views, [], 1, Some(FIRST)) == None;
  }

  // ---------------------------------------------------------------- the leader's states and the replica's

  const BLANK: NodeState := Fresh(1)

  const WAITS: NodeState := Heading(BLANK, 1, FRESH_LEADER.(newViews := map[1 := NewViewOf(1, FIRST)]))
  const READY: NodeState := Heading(BLANK, 1, FRESH_LEADER.(
    newViews := map[1 := NewViewOf(1, FIRST), 2 := NewViewOf(1, FIRST)], newViewSignal := Some(FIRST)))
  const ASKS: NodeState := READY.(params := Some(8), proposals := map[8 := PROPOSAL], leader := READY.leader.(
    scheduleSignal := true, prepareMessage := Some(PrepareMessage(X, FIRST)), prepares := map[1 := VoteBy(1, Prepare)]))
  const PREPARED: NodeState := ASKS.(prepareQC := CertOf(Prepare), leader := ASKS.leader.(
    prepares := map[1 := VoteBy(1, Prepare), 2 := VoteBy(2, Prepare)], preCommitSent := true, preCommits := map[1 := VoteBy(1, PreCommit)]))
  const LOCKED: NodeState := PREPARED.(lockedQC := CertOf(PreCommit), leader := PREPARED.leader.(
    preCommits := map[1 := VoteBy(1, PreCommit), 2 := VoteBy(2, PreCommit)], commitSent := true, commits := map[1 := VoteBy(1, Commit)]))
  const LED: NodeState := LOCKED.(params := None, committed := {8}, leader := LOCKED.leader.(
    commits := map[1 := VoteBy(1, Commit), 2 := VoteBy(2, Commit)], decideSent := true))

  const FOLLOWS: NodeState := Follower(BLANK, 1)
  const STORES: NodeState := FOLLOWS.(params := Some(8), proposals := map[8 := PROPOSAL], internalProposals := {PROPOSAL})
  const CERTIFIED: NodeState := STORES.(prepareQC := CertOf(Prepare))
  const BOUND: NodeState := CERTIFIED.(lockedQC := CertOf(PreCommit))
  const FOLLOWED: NodeState := BOUND.(params := None, committed := {8})

  const OFFER: ConsensusMessage := ConsensusMessage(Prepare, 1, Some(X), Some(FIRST), None)

  function FromLeader(payload: Payload): Packet { Packet(1, 2, payload) }
  function FromReplica(m: ConsensusMessage): Packet { Packet(2, 1, Consensus(m)) }

  lemma LeaderBegins(f: Facts)
    requires Ready(PAIR) && OwnLeader(PAIR, 1, 1) == 1
    ensures EnterView(PAIR, Local(1, BLANK, {}, f), [CALM]).st == WAITS
  {
    hide OwnLeader, AcceptsQC, GetHighQC;
    PairCert(Prepare);
    PairNewViews(map[1 := NewViewOf(1, FIRST)]);
  }

  lemma ReplicaBegins(f: Facts)
    requires Ready(PAIR) && OwnLeader(PAIR, 2, 1) == 1
    ensures var l := EnterView(PAIR, Local(2, BLANK, {}, f), [CALM]); l.st == FOLLOWS && FromReplica(NewViewOf(1, FIRST)) in l.out
  {
    hide OwnLeader;
  }

  lemma LeaderHears(f: Facts)
    requires Ready(PAIR)
    ensures Receive(PAIR, Local(1, WAITS, {}, f), FromReplica(NewViewOf(1, FIRST)), CALM).st == READY
  {
    hide AcceptsQC, GetHighQC;
    PairCert(Prepare);
    assert PAIR.members[1].address == 2;
    PairNewViews(READY.leader.newViews);
  }

  lemma LeaderOffers(f: Facts)
    requires Ready(PAIR)
    ensures var l := TryWork(PAIR, Local(1, READY, {}, f), true, None, CALM);
      l.st == ASKS && FromLeader(ProposalResponse(PROPOSAL)) in l.out && FromLeader(Consensus(OFFER)) in l.out
  {
    hide GetQC, Broadcast;
    PairVotes(map[1 := VoteBy(1, Prepare)], Prepare);
    assert PAIR.members[1].address == 2;
    InBroadcast(PAIR, 1, ProposalResponse(PROPOSAL), 1);
    InBroadcast(PAIR, 1, Consensus(OFFER), 1);
  }

  lemma ReplicaStores(f: Facts)
    requires Ready(PAIR)
    ensures Receive(PAIR, Local(2, FOLLOWS, {}, f), FromLeader(ProposalResponse(PROPOSAL)), CALM).st == STORES
  {
  }

  lemma ReplicaPrepares(f: Facts)
    requires Ready(PAIR)
    ensures var l := Receive(PAIR, Local(2, STORES, {}, f), FromLeader(Consensus(OFFER)), CALM);
      l.st == STORES && FromReplica(VoteBy(2, Prepare)) in l.out
  {
    hide AcceptsQC;
    PairCert(Prepare);
    assert PAIR.members[0].address == 1;
  }

  lemma LeaderPrepares(f: Facts)
    requires Ready(PAIR)
    ensures var l := Receive(PAIR, Local(1, ASKS, {}, f), FromReplica(VoteBy(2, Prepare)), CALM);
      l.st == PREPARED && FromLeader(Consensus(Carrying(PreCommit, Prepare))) in l.out
  {
    hide GetQC, Broadcast;
    assert PAIR.members[1].address == 2;
    PairVotes(PREPARED.leader.prepares, Prepare);
    assert ASKS.leader.prepares[2 := VoteBy(2, Prepare)] == PREPARED.leader.prepares;
    PairVotes(map[1 := VoteBy(1, PreCommit)], PreCommit);
    InBroadcast(PAIR, 1, Consensus(Carrying(PreCommit, Prepare)), 1);
  }

  lemma ReplicaPreCommits(f: Facts)
    requires Ready(PAIR)
    ensures var l := Receive(PAIR, Local(2, STORES, {}, f), FromLeader(Consensus(Carrying(PreCommit, Prepare))), CALM);
      l.st == CERTIFIED && FromReplica(VoteBy(2, PreCommit)) in l.out
  {
    hide AcceptsQC;
    PairCert(Prepare);
    assert PAIR.members[0].address == 1;
  }

  lemma LeaderLocks(f: Facts)
    requires Ready(PAIR)
    ensures var l := Receive(PAIR, Local(1, PREPARED, {}, f), FromReplica(VoteBy(2, PreCommit)), CALM);
      l.st == LOCKED && FromLeader(Consensus(Carrying(Commit, PreCommit))) in l.out
  {
    hide GetQC, Broadcast;
    assert PAIR.members[1].address == 2;
    PairVotes(LOCKED.leader.preCommits, PreCommit);
    assert PREPARED.leader.preCommits[2 := VoteBy(2, PreCommit)] == LOCKED.leader.preCommits;
    PairVotes(map[1 := VoteBy(1, Commit)], Commit);
    InBroadcast(PAIR, 1, Consensus(Carrying(Commit, PreCommit)), 1);
  }

  lemma ReplicaCommits(f: Facts)
    requires Ready(PAIR)
    ensures var l := Receive(PAIR, Local(2, CERTIFIED, {}, f), FromLeader(Consensus(Carrying(Commit, PreCommit))), CALM);
      l.st == BOUND && FromReplica(VoteBy(2, Commit)) in l.out
  {
    hide AcceptsQC;
    PairCert(PreCommit);
    assert PAIR.members[0].address == 1;
  }

  lemma LeaderDecides(f: Facts)
    requires Ready(PAIR)
    ensures var l := Receive(PAIR, Local(1, LOCKED, {}, f), FromReplica(VoteBy(2, Commit)), CALM);
      l.st == LED && FromLeader(Consensus(Carrying(Decide, Commit))) in l.out
  {
    hide GetQC, Broadcast;
    assert PAIR.members[1].address == 2;
    PairVotes(LED.leader.commits, Commit);
    assert LOCKED.leader.commits[2 := VoteBy(2, Commit)] == LED.leader.commits;
    InBroadcast(PAIR, 1, Consensus(Carrying(Decide, Commit)), 1);
  }

  lemma ReplicaDecides(f: Facts)
    requires Ready(PAIR)
    ensures Receive(PAIR, Local(2, BOUND, {}, f), FromLeader(Consensus(Carrying(Decide, Commit))), CALM).st == FOLLOWED
  {
    hide AcceptsQC;
    PairCert(Commit);
    assert PAIR.members[0].address == 1;
  }

  // ---------------------------------------------------------------- the run

  ghost predicate Stand(s: Sys, n1: NodeState, n2: NodeState, ps: set<Packet>) {
    Reachable(PAIR, s) && s.nodes == map[1 := n1, 2 := n2] && ps <= s.net && Ready(PAIR) && ValidEnv(PAIR, CALM)
  }

  lemma PairStarts() returns (s: Sys)
    ensures Stand(s, BLANK, BLANK, {})
  {
    hide Init, Reachable, ValidEnv, Ready;
    s := Sys(map[1 := BLANK, 2 := BLANK], {}, NO_FACTS);
    PairEnv();
    PairInit(s);
    Begin(PAIR, s);
  }

  lemma PairEnv()
    ensures ValidEnv(PAIR, CALM) && Ready(PAIR)
  {
    PairWeights();
    assert ONE_TWO[0] == 1 && ONE_TWO[1] == 2;
  }

  lemma PairInit(s: Sys)
    requires s == Sys(map[1 := BLANK, 2 := BLANK], {}, NO_FACTS)
    ensures Init(PAIR, s)
  {
    hide Held, LeftBehind, Started, BaseCert, BaseMatches, ValidConfig;
    PairWeights();
    PairLeft();
    PairValid();
    PairHeld(s);
    assert s.nodes.Keys == {1, 2};
    forall a | a in s.nodes ensures BaseCert(PAIR, PAIR.bases[a]) && BaseMatches(PAIR, PAIR.bases[a]) && Started(PAIR, a, s.nodes[a]) {
      assert PAIR.bases[a] == FIRST;
      PairStarted(a, s.nodes[a]);
    }
  }

  lemma PairValid()
    ensures ValidConfig(PAIR)
  {
    PairWeights();
    assert PAIR.members[1].address == PAIR.base.leader;
  }

  lemma PairHeld(s: Sys)
    requires s == Sys(map[1 := BLANK, 2 := BLANK], {}, NO_FACTS)
    ensures Held(PAIR, s, FIRST) && forall q :: Held(PAIR, s, q) ==> q == FIRST
  {
    assert 1 in s.nodes && s.nodes[1].prepareQC == FIRST;
  }

  lemma PairStarted(a: Address, st: NodeState)
    requires a in PAIR.starts && st == BLANK
    ensures Started(PAIR, a, st) && BaseCert(PAIR, FIRST)
  {
  }

  lemma PairLeft()
    ensures Ready(PAIR) && LeftBehind(PAIR, FIRST) && BaseMatches(PAIR, FIRST)
  {
    PairWeights();
    PairLeaders(1);
    hide OwnLeader, LeaderOf, IsQuorum;
    assert Reached(PAIR, 0) == {1, 2};
    PairQuorum();
  }

  lemma PairQuorum()
    requires Ready(PAIR)
    ensures IsQuorum(PAIR.members, {1, 2})
  {
    WeightOfAll(PAIR.members, {1, 2});
  }

  lemma FirstPart(s: Sys) returns (s': Sys)
    requires Stand(s, BLANK, BLANK, {})
    ensures Stand(s', ASKS, FOLLOWS, {FromLeader(ProposalResponse(PROPOSAL)), FromLeader(Consensus(OFFER))})
  {
    hide Reachable, ValidEnv, Ready, EnterView, Receive, TryWork, OwnLeader;
    PairLeaders(1);
    PairLeaders(2);
    var p := FromReplica(NewViewOf(1, FIRST));
    ReplicaBegins(s.facts);
    var s1 := EnterStep(PAIR, s, 2, [CALM], {p});
    LeaderBegins(s1.facts);
    var s2 := EnterStep(PAIR, s1, 1, [CALM], {});
    LeaderHears(s2.facts);
    var s3 := DeliverStep(PAIR, s2, 1, p, CALM, {});
    LeaderOffers(s3.facts);
    s' := TickStep(PAIR, s3, 1, CALM, {FromLeader(ProposalResponse(PROPOSAL)), FromLeader(Consensus(OFFER))});
  }

  lemma SecondPart(s: Sys) returns (s': Sys)
    requires Stand(s, ASKS, FOLLOWS, {FromLeader(ProposalResponse(PROPOSAL)), FromLeader(Consensus(OFFER))})
    ensures Stand(s', LOCKED, CERTIFIED, {FromLeader(Consensus(Carrying(Commit, PreCommit)))})
  {
    hide Reachable, ValidEnv, Ready, Receive;
    ReplicaStores(s.facts);
    var s1 := DeliverStep(PAIR, s, 2, FromLeader(ProposalResponse(PROPOSAL)), CALM, {});
    ReplicaPrepares(s1.facts);
    var s2 := DeliverStep(PAIR, s1, 2, FromLeader(Consensus(OFFER)), CALM, {FromReplica(VoteBy(2, Prepare))});
    LeaderPrepares(s2.facts);
    var s3 := DeliverStep(PAIR, s2, 1, FromReplica(VoteBy(2, Prepare)), CALM, {FromLeader(Consensus(Carrying(PreCommit, Prepare)))});
    ReplicaPreCommits(s3.facts);
    var s4 := DeliverStep(PAIR, s3, 2, FromLeader(Consensus(Carrying(PreCommit, Prepare))), CALM, {FromReplica(VoteBy(2, PreCommit))});
    LeaderLocks(s4.facts);
    s' := DeliverStep(PAIR, s4, 1, FromReplica(VoteBy(2, PreCommit)), CALM, {FromLeader(Consensus(Carrying(Commit, PreCommit)))});
  }

  lemma ThirdPart(s: Sys) returns (s': Sys)
    requires Stand(s, LOCKED, CERTIFIED, {FromLeader(Consensus(Carrying(Commit, PreCommit)))})
    ensures Stand(s', LED, FOLLOWED, {})
  {
    hide Reachable, ValidEnv, Ready, Receive;
    ReplicaCommits(s.facts);
    var s1 := DeliverStep(PAIR, s, 2, FromLeader(Consensus(Carrying(Commit, PreCommit))), CALM, {FromReplica(VoteBy(2, Commit))});
    LeaderDecides(s1.facts);
    var s2 := DeliverStep(PAIR, s1, 1, FromReplica(VoteBy(2, Commit)), CALM, {FromLeader(Consensus(Carrying(Decide, Commit)))});
    ReplicaDecides(s2.facts);
    s' := DeliverStep(PAIR, s2, 2, FromLeader(Consensus(Carrying(Decide, Commit))), CALM, {});
  }

  /** From its start on, the pair can come to a state in which both validators have decided block 8. */
  lemma EverybodyDecides()
    ensures exists s :: Reachable(PAIR, s) && s.nodes.Keys == {1, 2} && s.nodes[1].committed == {8} && s.nodes[2].committed == {8}
  {
    hide Reachable, ValidEnv;
    var s := PairStarts();
    s := FirstPart(s);
    s := SecondPart(s);
    s := ThirdPart(s);
  }
}
