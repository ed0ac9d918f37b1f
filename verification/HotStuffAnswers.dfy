/** What a validator answers, stated on packets and fields: to every message of a round as a replica and
    as a leader, to NewViews, to timeouts, to proposals, and to its own signals. */
module HotStuffAnswers {
  import opened Authorities
  import opened HotStuffTypes
  import opened HotStuffCollectors
  import opened HotStuffNode
  import opened HotStuffSystem
  import opened HotStuffCore
  import opened HotStuffLocal
  import opened HotStuffProposeProof

  // ---------------------------------------------------------------- a replica

  /** `l` with the state `st`, one more vote of its own, signed for the current leader and sent to it. */
  predicate VotesWith(l: Local, st: NodeState, t: MessageType, node: Node, l': Local) {
    var sig := Signature(l.me, t, l.st.view, node, l.st.currentLeader);
    var vote := ConsensusMessage(t, l.st.view, Some(node), None, Some(sig));
    && l'.me == l.me && l'.st == st && l'.facts == l.facts.(signed := l.facts.signed + {sig})
    && l'.out == l.out + {Packet(l.me, l.st.currentLeader, Consensus(vote))}
  }

  /** The node is on the base block where the certificate is for that, and the certified one otherwise. */
  predicate AgreesWith(c: Config, node: Node, qc: QC) {
    if qc.node.blockHash == c.base.node.blockHash then node.parentHash == c.base.node.blockHash
    else node.blockHash == qc.node.blockHash
  }

  /** A proposal whose block is at hand and certificate accepted, that agrees with its certificate, and
      with the lock unless the certificate is of a later view. */
  predicate MayPrepare(c: Config, l: Local, m: ConsensusMessage)
    requires Ready(c)
  {
    && m.justify.Some? && m.node.Some?
    && AcceptsQC(m.justify.value, None, if m.justify.value.view == OwnBase(c, l.me).view then c.lastMembers else c.members)
    && var (node, justify) := (m.node.value, m.justify.value);
    && node.blockHash in l.st.proposals && l.st.proposals[node.blockHash].parentHash == node.parentHash
    && AgreesWith(c, node, justify)
    && (AgreesWith(c, node, l.st.lockedQC) || justify.view > l.st.lockedQC.view)
  }

  predicate Carries(c: Config, m: ConsensusMessage, t: MessageType)
    requires Ready(c)
  {
    m.justify.Some? && AcceptsQC(m.justify.value, Some(t), c.members)
  }

  /** A commit certificate: the block is decided if its proposal is stored and its build is the one at
      hand; another build at hand is dropped; without the proposal nothing changes. */
  predicate Decides(l: Local, hash: Hash, st: NodeState) {
    if hash !in l.st.proposals then st == l.st
    else st == l.st.(params := None, committed := l.st.committed + if l.st.params == Some(hash) then {hash} else {})
  }

  predicate ReplicaAnswers(c: Config, l: Local, from: Address, m: ConsensusMessage, l': Local)
    requires Ready(c)
  {
    if m.messageType == NewView then l' == l.(st := l.st.(pendingNewViews := l.st.pendingNewViews + [(m, from)]))
    else if m.view != l.st.view then l' == l
    else if m.messageType == Prepare then
      if MayPrepare(c, l, m) then VotesWith(l, l.st, Prepare, m.node.value, l') else l' == l
    else if m.messageType == PreCommit then
      if Carries(c, m, Prepare) then VotesWith(l, l.st.(prepareQC := m.justify.value), PreCommit, m.justify.value.node, l') else l' == l
    else if m.messageType == Commit then
      if Carries(c, m, PreCommit) then VotesWith(l, l.st.(lockedQC := m.justify.value), Commit, m.justify.value.node, l') else l' == l
    else if Carries(c, m, Commit) then Decides(l, m.justify.value.node.blockHash, l'.st) && l' == l.(st := l'.st)
    else l' == l
  }

  predicate Filed(st: NodeState) {
    forall h :: h in st.proposals ==> st.proposals[h].blockHash == h
  }

  lemma ReplicaReceives(c: Config, l: Local, p: Packet, m: ConsensusMessage, env: Env)
    requires Ready(c) && !l.st.isLeader && Filed(l.st) && p.payload == Consensus(m)
    ensures var l' := Receive(c, l, p, env);
      if IsMember(c.members, p.from) then ReplicaAnswers(c, l, p.from, m, l') else l' == l
  {
    hide AcceptsQC;
  }

  // ---------------------------------------------------------------- a leader's ballots

  /** The payload goes to every other authority. */
  ghost predicate SentToAll(c: Config, me: Address, payload: Payload, out: set<Packet>) {
    forall a :: IsMember(c.members, a) && a != me ==> Packet(me, a, payload) in out
  }

  lemma BroadcastIs(c: Config, me: Address, payload: Payload)
    ensures forall p: Packet :: p in Broadcast(c, me, payload) <==> p.from == me && p.payload == payload && IsMember(c.members, p.to) && p.to != me
  {
    forall p: Packet | p.from == me && p.payload == payload && IsMember(c.members, p.to) && p.to != me ensures p in Broadcast(c, me, payload) {
      var i :| 0 <= i < |c.members| && c.members[i].address == p.to;
      assert p == Packet(me, c.members[i].address, payload);
    }
  }

  /** Only members weigh, so the walk over an order that reaches all of them decides on every set of
      voters. */
  lemma CertificateExactly(c: Config, votes: map<Address, Vote>, leader: Address, order: seq<Address>, t: MessageType, view: nat, node: Node)
    requires ValidConfig(c) && VotesFor(votes, t, view, node, leader) && IterationOrder(c, order)
    ensures var r := GetQC(c.members, votes, leader, order);
      (r.Some? <==> IsQuorum(c.members, votes.Keys)) && (r.Some? ==> QCOf(c.members, votes, r.value, t, view, node, leader))
  {
    assert Signers([]) == [];
    CollectQCSound(c.members, votes, leader, order, 0, [], t, view, node);
    var r := GetQC(c.members, votes, leader, order);
    if r.Some? {
      WeightMonotone(c.members, Elements(Signers(r.value.sigs)), votes.Keys);
    } else {
      CollectQCComplete(c.members, votes, leader, order, 0, []);
      WeightMonotone(c.members, votes.Keys, Elements(order) * votes.Keys);
    }
  }

  lemma BroadcastSent(c: Config, me: Address, payload: Payload, out: set<Packet>)
    requires Broadcast(c, me, payload) <= out
    ensures SentToAll(c, me, payload, out)
  {
    BroadcastIs(c, me, payload);
  }

  /** The vote is for the proposal of this view, signed for it and for this leader by its sender. */
  predicate Valid(l: Local, m: ConsensusMessage, from: Address)
    requires l.st.leader.prepareMessage.Some?
  {
    var node := l.st.leader.prepareMessage.value.node;
    m.node == Some(node) && m.sig == Some(Signature(from, m.messageType, m.view, node, l.me))
  }

  predicate OwnVoteSigned(l: Local, t: MessageType, f: Facts)
    requires l.st.leader.prepareMessage.Some?
  {
    Signature(l.me, t, l.st.view, l.st.leader.prepareMessage.value.node, l.st.currentLeader) in f.signed
  }

  /** The later phases of a view leave what belongs to the earlier ones. */
  predicate KeepsPrepares(l: Local, l': Local) {
    && l'.me == l.me && l'.st.prepareQC == l.st.prepareQC && l'.st.leader.prepares == l.st.leader.prepares
    && l'.st.leader.preCommitSent == l.st.leader.preCommitSent && l'.st.view == l.st.view
    && l'.st.proposals == l.st.proposals && l'.facts.props == l.facts.props
    && l.out <= l'.out && l.facts.signed <= l'.facts.signed && l.facts.qcs <= l'.facts.qcs
  }

  predicate KeepsPreCommits(l: Local, l': Local) {
    && KeepsPrepares(l, l') && l'.st.lockedQC == l.st.lockedQC && l'.st.leader.preCommits == l.st.leader.preCommits
    && l'.st.leader.commitSent == l.st.leader.commitSent
  }

  lemma DecideKeeps(c: Config, l: Local, qc: QC)
    ensures KeepsPreCommits(l, DecideAndAnnounce(c, l, qc)) && DecideAndAnnounce(c, l, qc).st.leader == l.st.leader.(decideSent := true)
    ensures Broadcast(c, l.me, Consensus(ConsensusMessage(Decide, l.st.view, None, Some(qc), None))) <= DecideAndAnnounce(c, l, qc).out
    ensures qc in DecideAndAnnounce(c, l, qc).facts.qcs
  {
    hide Broadcast;
  }

  lemma DecidedState(c: Config, l: Local, ls: LeaderState, qc: QC)
    requires Filed(l.st)
    ensures Decides(l, qc.node.blockHash, DecideAndAnnounce(c, WithLeader(l, ls), qc).st.(leader := l.st.leader))
  {
    hide Broadcast;
    var hash := qc.node.blockHash;
    assert hash in l.st.proposals ==> l.st.proposals[hash].blockHash == hash;
    hide Filed;
  }

  lemma CommitKeeps(c: Config, l: Local, from: Address, v: Vote, env: Env)
    requires Ready(c)
    ensures var l' := AddCommitVote(c, l, from, v, env); KeepsPreCommits(l, l') && l'.st.leader.commits == l.st.leader.commits[from := v]
  {
    hide GetQC, DecideAndAnnounce;
    var l1 := WithLeader(l, l.st.leader.(commits := l.st.leader.commits[from := v]));
    var qc := GetQC(c.members, l1.st.leader.commits, l.me, env.commitOrder);
    if qc.Some? { DecideKeeps(c, l1, qc.value); }
  }

  lemma PreCommitKeeps(c: Config, l: Local, from: Address, v: Vote, env: Env)
    requires Ready(c) && l.st.leader.prepareMessage.Some?
    ensures var l' := AddPreCommitVote(c, l, from, v, env); KeepsPrepares(l, l') && l'.st.leader.preCommits == l.st.leader.preCommits[from := v]
  {
    hide GetQC, AddCommitVote, Broadcast;
    var l1 := WithLeader(l, l.st.leader.(preCommits := l.st.leader.preCommits[from := v]));
    var qc := GetQC(c.members, l1.st.leader.preCommits, l.me, env.preCommitOrder);
    if qc.Some? {
      var l2 := LockAndAnnounce(c, l1, qc.value);
      var own := OwnVote(l2, Commit);
      CommitKeeps(c, Sign(l2, own.sig.value), l.me, own, env);
    }
  }

  function BallotOf(ls: LeaderState, t: MessageType): map<Address, Vote> {
    if t == Prepare then ls.prepares else if t == PreCommit then ls.preCommits else ls.commits
  }

  predicate SentOf(ls: LeaderState, t: MessageType) {
    if t == Prepare then ls.preCommitSent else if t == PreCommit then ls.commitSent else ls.decideSent
  }

  function WithBallot(ls: LeaderState, t: MessageType, votes: map<Address, Vote>): LeaderState {
    if t == Prepare then ls.(prepares := votes) else if t == PreCommit then ls.(preCommits := votes) else ls.(commits := votes)
  }

  function Following(t: MessageType): MessageType {
    if t == Prepare then PreCommit else if t == PreCommit then Commit else Decide
  }

  /** The first quorum of a phase: its certificate is stored, goes to all others, and starts the leader's
      own next vote, or decides the block. */
  ghost predicate Completes(c: Config, l: Local, votes: map<Address, Vote>, t: MessageType, qc: QC, l': Local)
    requires l.st.leader.prepareMessage.Some? && Ready(c)
  {
    && QCOf(c.members, votes, qc, t, l.st.view, l.st.leader.prepareMessage.value.node, l.me) && qc in l'.facts.qcs
    && BallotOf(l'.st.leader, t) == votes && SentOf(l'.st.leader, t)
    && SentToAll(c, l.me, Consensus(ConsensusMessage(Following(t), l.st.view, None, Some(qc), None)), l'.out)
    && (t == Prepare ==> l'.st.prepareQC == qc)
    && (t == PreCommit ==> l'.st.lockedQC == qc && l'.st.prepareQC == l.st.prepareQC)
    && (t == Commit ==> Decides(l, qc.node.blockHash, l'.st.(leader := l.st.leader)))
    && (t != Commit ==> OwnVoteSigned(l, Following(t), l'.facts) && l.me in BallotOf(l'.st.leader, Following(t)))
  }

  /** A leader counts the valid votes for its proposal, and acts on the first quorum of each phase. */
  ghost predicate Counts(c: Config, l: Local, from: Address, m: ConsensusMessage, l': Local)
    requires Ready(c) && m.messageType in {Prepare, PreCommit, Commit}
  {
    var (ls, t) := (l.st.leader, m.messageType);
    if ls.prepareMessage.None? || !Valid(l, m, from) then l' == l
    else
      var votes := BallotOf(ls, t)[from := m];
      if SentOf(ls, t) || !IsQuorum(c.members, votes.Keys) then l' == l.(st := l.st.(leader := WithBallot(ls, t, votes)))
      else exists qc :: Completes(c, l, votes, t, qc, l')
  }

  ghost predicate Ballots(l: Local) {
    var ls := l.st.leader;
    ls.prepareMessage.Some? ==>
      var node := ls.prepareMessage.value.node;
      && VotesFor(ls.prepares, Prepare, l.st.view, node, l.me)
      && VotesFor(ls.preCommits, PreCommit, l.st.view, node, l.me)
      && VotesFor(ls.commits, Commit, l.st.view, node, l.me)
  }

  lemma VoteAdded(votes: map<Address, Vote>, t: MessageType, view: nat, node: Node, leader: Address, from: Address, v: Vote)
    requires VotesFor(votes, t, view, node, leader)
    requires v.messageType == t && v.view == view && v.node == Some(node) && v.sig == Some(Signature(from, t, view, node, leader))
    ensures VotesFor(votes[from := v], t, view, node, leader)
  {
  }

  lemma BallotAdded(l: Local, from: Address, m: Vote)
    requires Ballots(l) && l.st.leader.prepareMessage.Some? && Valid(l, m, from)
    requires m.messageType in {Prepare, PreCommit, Commit} && m.view == l.st.view
    ensures VotesFor(BallotOf(l.st.leader, m.messageType)[from := m], m.messageType, l.st.view, l.st.leader.prepareMessage.value.node, l.me)
  {
    hide VotesFor;
    VoteAdded(BallotOf(l.st.leader, m.messageType), m.messageType, l.st.view, l.st.leader.prepareMessage.value.node, l.me, from, m);
  }

  lemma PrepareQuorum(c: Config, l: Local, votes: map<Address, Vote>, qc: QC, env: Env)
    requires Ready(c) && l.st.leader.prepareMessage.Some?
    requires QCOf(c.members, votes, qc, Prepare, l.st.view, l.st.leader.prepareMessage.value.node, l.me)
    ensures Completes(c, l, votes, Prepare, qc, OwnPreCommitVote(c, StoreAndAnnounce(c, WithLeader(l, l.st.leader.(prepares := votes)), qc), env))
  {
    hide Broadcast, AddPreCommitVote, QCOf, IsQuorum, SentToAll;
    var l2 := StoreAndAnnounce(c, WithLeader(l, l.st.leader.(prepares := votes)), qc);
    var own := OwnVote(l2, PreCommit);
    PreCommitKeeps(c, Sign(l2, own.sig.value), l.me, own, env);
    BroadcastSent(c, l.me, Consensus(ConsensusMessage(PreCommit, l.st.view, None, Some(qc), None)), OwnPreCommitVote(c, l2, env).out);
  }

  lemma PrepareCounted(c: Config, l: Local, from: Address, m: Vote, env: Env)
    requires ValidConfig(c) && Ready(c) && ValidEnv(c, env) && Ballots(l) && l.st.leader.prepareMessage.Some? && Valid(l, m, from)
    requires m.messageType == Prepare && m.view == l.st.view
    ensures Counts(c, l, from, m, AddPrepareVote(c, l, from, m, env))
  {
    hide GetQC, StoreAndAnnounce, OwnPreCommitVote, QCOf, IsQuorum, Completes, VotesFor, ValidConfig, IterationOrder, Ballots, Valid, DistinctAddresses;
    var (ls, node) := (l.st.leader, l.st.leader.prepareMessage.value.node);
    var votes := ls.prepares[from := m];
    BallotAdded(l, from, m);
    CertificateExactly(c, votes, l.me, env.prepareOrder, Prepare, l.st.view, node);
    var r := GetQC(c.members, votes, l.me, env.prepareOrder);
    if r.Some? && !ls.preCommitSent { PrepareQuorum(c, l, votes, r.value, env); }
  }

  lemma PreCommitQuorum(c: Config, l: Local, votes: map<Address, Vote>, qc: QC, env: Env)
    requires Ready(c) && l.st.leader.prepareMessage.Some?
    requires QCOf(c.members, votes, qc, PreCommit, l.st.view, l.st.leader.prepareMessage.value.node, l.me)
    ensures Completes(c, l, votes, PreCommit, qc, OwnCommitVote(c, LockAndAnnounce(c, WithLeader(l, l.st.leader.(preCommits := votes)), qc), env))
  {
    hide Broadcast, AddCommitVote, QCOf, IsQuorum, SentToAll;
    var l2 := LockAndAnnounce(c, WithLeader(l, l.st.leader.(preCommits := votes)), qc);
    var own := OwnVote(l2, Commit);
    CommitKeeps(c, Sign(l2, own.sig.value), l.me, own, env);
    BroadcastSent(c, l.me, Consensus(ConsensusMessage(Commit, l.st.view, None, Some(qc), None)), OwnCommitVote(c, l2, env).out);
  }

  lemma PreCommitCounted(c: Config, l: Local, from: Address, m: Vote, env: Env)
    requires ValidConfig(c) && Ready(c) && ValidEnv(c, env) && Ballots(l) && l.st.leader.prepareMessage.Some? && Valid(l, m, from)
    requires m.messageType == PreCommit && m.view == l.st.view
    ensures Counts(c, l, from, m, AddPreCommitVote(c, l, from, m, env))
  {
    hide GetQC, LockAndAnnounce, OwnCommitVote, QCOf, IsQuorum, Completes, VotesFor, ValidConfig, IterationOrder, Ballots, Valid, DistinctAddresses;
    var (ls, node) := (l.st.leader, l.st.leader.prepareMessage.value.node);
    var votes := ls.preCommits[from := m];
    BallotAdded(l, from, m);
    CertificateExactly(c, votes, l.me, env.preCommitOrder, PreCommit, l.st.view, node);
    var r := GetQC(c.members, votes, l.me, env.preCommitOrder);
    if r.Some? && !ls.commitSent { PreCommitQuorum(c, l, votes, r.value, env); }
  }

  lemma CommitCounted(c: Config, l: Local, from: Address, m: Vote, env: Env)
    requires ValidConfig(c) && Ready(c) && ValidEnv(c, env) && Ballots(l) && l.st.leader.prepareMessage.Some? && Valid(l, m, from)
    requires m.messageType == Commit && m.view == l.st.view && Filed(l.st)
    ensures Counts(c, l, from, m, AddCommitVote(c, l, from, m, env))
  {
    hide GetQC, Broadcast, QCOf, IsQuorum, SentToAll, VotesFor, DecideAndAnnounce, DecideBlock, Filed;
    var (ls, node) := (l.st.leader, l.st.leader.prepareMessage.value.node);
    var votes := ls.commits[from := m];
    BallotAdded(l, from, m);
    CertificateExactly(c, votes, l.me, env.commitOrder, Commit, l.st.view, node);
    var r := GetQC(c.members, votes, l.me, env.commitOrder);
    if r.Some? && !ls.decideSent {
      var l1 := WithLeader(l, ls.(commits := votes));
      var l' := AddCommitVote(c, l, from, m, env);
      assert l' == DecideAndAnnounce(c, l1, r.value);
      DecideKeeps(c, l1, r.value);
      DecidedState(c, l, ls.(commits := votes), r.value);
      BroadcastSent(c, l.me, Consensus(ConsensusMessage(Decide, l.st.view, None, Some(r.value), None)), l'.out);
      assert Completes(c, l, votes, Commit, r.value, l');
    }
  }

  lemma PrepareKeeps(c: Config, l: Local, from: Address, v: Vote, env: Env)
    requires Ready(c) && l.st.leader.prepareMessage.Some?
    ensures var l' := AddPrepareVote(c, l, from, v, env);
      && l'.st.leader.prepares == l.st.leader.prepares[from := v] && l'.st.proposals == l.st.proposals
      && l'.facts.props == l.facts.props && l.out <= l'.out && l.facts.signed <= l'.facts.signed
  {
    hide GetQC, AddPreCommitVote, Broadcast;
    var l1 := WithLeader(l, l.st.leader.(prepares := l.st.leader.prepares[from := v]));
    var qc := GetQC(c.members, l1.st.leader.prepares, l.me, env.prepareOrder);
    if qc.Some? {
      var l2 := StoreAndAnnounce(c, l1, qc.value);
      var own := OwnVote(l2, PreCommit);
      PreCommitKeeps(c, Sign(l2, own.sig.value), l.me, own, env);
    }
  }

  // ---------------------------------------------------------------- a leader's proposal

  /** The proposal of the view is fixed on the certificate, goes to all others with its block, and gets the
      leader's own vote; `stored` are the proposals at hand. */
  ghost predicate Proposes(c: Config, l: Local, p: Proposal, hq: QC, stored: map<Hash, Proposal>, l': Local) {
    var (node, ls) := (Node(p.parentHash, p.blockHash), l'.st.leader);
    && ls.prepareMessage == Some(PrepareMessage(node, hq))
    && l'.facts.props == l.facts.props[l.st.view := PrepareMessage(node, hq)]
    && l'.st.proposals == stored
    && SentToAll(c, l.me, ProposalResponse(p), l'.out)
    && SentToAll(c, l.me, Consensus(ConsensusMessage(Prepare, l.st.view, Some(node), Some(hq), None)), l'.out)
    && Signature(l.me, Prepare, l.st.view, node, l.st.currentLeader) in l'.facts.signed && l.me in ls.prepares
    && l'.me == l.me && l'.st.view == l.st.view && ls.newViews == l.st.leader.newViews && ls.newViewSignal == l.st.leader.newViewSignal
  }

  lemma ProposeDoes(c: Config, l: Local, p: Proposal, env: Env)
    requires Ready(c) && l.st.leader.newViewSignal.Some?
    ensures Proposes(c, l, p, l.st.leader.newViewSignal.value, l.st.proposals, Propose(c, l, p, env))
  {
    hide Broadcast, AddPrepareVote, SentToAll;
    var hq := l.st.leader.newViewSignal.value;
    var l1 := Announce(c, l, p, hq);
    var own := OwnVote(l1, Prepare);
    PrepareRunsOn(c, Sign(l1, own.sig.value), l.me, own, env);
    PrepareKeeps(c, Sign(l1, own.sig.value), l.me, own, env);
    var l' := Propose(c, l, p, env);
    BroadcastSent(c, l.me, ProposalResponse(p), l'.out);
    BroadcastSent(c, l.me, Consensus(ConsensusMessage(Prepare, l.st.view, Some(Node(p.parentHash, p.blockHash)), Some(hq), None)), l'.out);
  }

  /** The leader holds a NewView of another validator with this certificate. */
  predicate HeldBy(l: Local, a: Address, qc: QC) {
    a != l.me && a in l.st.leader.newViews && l.st.leader.newViews[a].justify == Some(qc)
  }

  /** What a leader that has both signals does with its high QC: it proposes a new block on the base block,
      or the certified block again, or asks a validator that certified it for the block. */
  ghost predicate Works(c: Config, l: Local, env: Env, l': Local)
    requires l.st.leader.newViewSignal.Some?
  {
    var (hq, base) := (l.st.leader.newViewSignal.value, c.base.node.blockHash);
    var hash := hq.node.blockHash;
    if hash == base then
      if l.st.committed == {} && env.builtBlock.Some?
      then Proposes(c, l, Proposal(base, env.builtBlock.value), hq, l.st.proposals[env.builtBlock.value := Proposal(base, env.builtBlock.value)], l')
      else l' == l
    else if hq.node.parentHash != base then l' == l
    else if hash in l.st.proposals then
      if l.st.params == Some(hash) || env.buildOk then Proposes(c, l, l.st.proposals[hash], hq, l.st.proposals, l') else l' == l
    else if HeldBy(l, env.target, hq) then
      l' == Local(l.me, l.st.(leader := l.st.leader.(pendingRemote := Some(hash))),
                  l.out + {Packet(l.me, env.target, ProposalRequest(hash))}, l.facts)
    else l' == l.(st := l.st.(halted := l.st.halted || forall a :: !HeldBy(l, a, hq)))
  }

  lemma KnownDoes(c: Config, l: Local, p: Proposal, env: Env)
    requires Ready(c) && l.st.leader.newViewSignal.Some?
    ensures var l' := ProposeKnown(c, l, p, env);
      if l.st.params == Some(p.blockHash) || env.buildOk then Proposes(c, l, p, l.st.leader.newViewSignal.value, l.st.proposals, l') else l' == l
  {
    hide Propose, Proposes;
    var l1 := WithBlock(l, Some(p.blockHash), l.st.proposals);
    ProposeDoes(c, l, p, env);
    ProposeDoes(c, l1, p, env);
    SameProposal(c, l, l1, p, l.st.leader.newViewSignal.value, l.st.proposals, Propose(c, l1, p, env));
  }

  lemma SameProposal(c: Config, l: Local, l1: Local, p: Proposal, hq: QC, stored: map<Hash, Proposal>, l': Local)
    requires l1 == l.(st := l.st.(params := l1.st.params, proposals := l1.st.proposals)) && Proposes(c, l1, p, hq, stored, l')
    ensures Proposes(c, l, p, hq, stored, l')
  {
    hide SentToAll;
  }

  lemma WorkDoes(c: Config, l: Local, env: Env)
    requires Ready(c) && l.st.leader.newViewSignal.Some? && Filed(l.st)
    ensures Works(c, l, env, Work(c, l, env))
  {
    hide Propose, Proposes, ProposeKnown;
    var hq := l.st.leader.newViewSignal.value;
    if env.builtBlock.Some? {
      var p := Proposal(c.base.node.blockHash, env.builtBlock.value);
      var l1 := WithBlock(l, Some(p.blockHash), l.st.proposals[p.blockHash := p]);
      ProposeDoes(c, l1, p, env);
      SameProposal(c, l, l1, p, hq, l1.st.proposals, Propose(c, l1, p, env));
    }
    if hq.node.blockHash in l.st.proposals { KnownDoes(c, l, l.st.proposals[hq.node.blockHash], env); }
    HoldersAre(c, l, hq);
  }

  lemma HoldersAre(c: Config, l: Local, hq: QC)
    ensures forall a :: a in RemoteHolders(c, l, hq) <==> HeldBy(l, a, hq)
    ensures RemoteHolders(c, l, hq) == {} <==> forall a :: !HeldBy(l, a, hq)
  {
    assert forall a :: a in RemoteHolders(c, l, hq) <==> HeldBy(l, a, hq);
  }

  /** A leader works as soon as it has the schedule signal and a high QC, once in a view, and not while it
      waits for a block. */
  ghost predicate Signals(c: Config, l: Local, env: Env, l': Local) {
    var ls := l.st.leader;
    if ls.newViewSignal.Some? && ls.scheduleSignal && ls.prepareMessage.None? && ls.pendingRemote.None? then Works(c, l, env, l') else l' == l
  }

  function Scheduled(l: Local): Local {
    l.(st := l.st.(leader := l.st.leader.(scheduleSignal := true)))
  }

  lemma TickDoes(c: Config, l: Local, env: Env)
    requires Ready(c) && Filed(l.st)
    ensures Signals(c, Scheduled(l), env, TryWork(c, l, true, None, env))
  {
    hide Work, Works;
    var l1 := Scheduled(l);
    if l1.st.leader.newViewSignal.Some? { WorkDoes(c, l1, env); }
  }

  // ---------------------------------------------------------------- NewViews

  lemma {:induction false} CollectHighQCComplete(ms: seq<Member>, views: map<Address, Justified>, order: seq<Address>, total: nat, high: Option<QC>)
    requires DistinctAddresses(ms) && Total(ms) > 0 && Distinct(order) && total < Quorum(ms) && (high.None? ==> total == 0)
    requires CollectHighQC(ms, views, order, total, high).None?
    ensures total + Weight(ms, Elements(order) * views.Keys) < Quorum(ms)
    decreases |order|
  {
    var ahead := Elements(order) * views.Keys;
    if order == [] {
      assert ahead == {};
      WeightEmpty(ms);
    } else {
      var a := order[0];
      var rest := Elements(order[1..]) * views.Keys;
      assert order == [a] + order[1..];
      if a !in views {
        CollectHighQCComplete(ms, views, order[1..], total, high);
        assert ahead == rest;
      } else {
        var (justify, total') := (views[a].justify.value, total + WeightIn(ms, a));
        var high' := if a !in MemberWeights(ms) then high else if high.None? || justify.view > high.value.view then Some(justify) else high;
        CollectHighQCComplete(ms, views, order[1..], total', high');
        assert ahead == rest + {a} && rest * {a} == {};
        WeightUnion(ms, rest, {a});
        WeightEmpty(ms);
        MemberWeightsAgree(ms, a);
      }
    }
  }

  ghost predicate Highest(c: Config, views: map<Address, Justified>, hq: QC)
    requires Ready(c)
  {
    exists s: set<Address> :: IsQuorum(c.members, s) && HighestOf(c.members, views, s, hq)
  }

  lemma HighQCExactly(c: Config, views: map<Address, Justified>, order: seq<Address>)
    requires ValidConfig(c) && Ready(c) && IterationOrder(c, order)
    ensures var r := GetHighQC(c.members, views, order);
      (r.Some? <==> IsQuorum(c.members, views.Keys)) && (r.Some? ==> Highest(c, views, r.value))
  {
    var r := GetHighQC(c.members, views, order);
    var s := GetHighQCSound(c.members, views, order);
    if r.Some? {
      WeightMonotone(c.members, s, views.Keys);
    } else {
      CollectHighQCComplete(c.members, views, order, 0, None);
      WeightMonotone(c.members, views.Keys, Elements(order) * views.Keys);
    }
  }

  predicate Acceptable(c: Config, l: Local, m: ConsensusMessage)
    requires Ready(c)
  {
    m.justify.Some? && AcceptsQC(m.justify.value, None, if m.justify.value.view == OwnBase(c, l.me).view then c.lastMembers else c.members)
  }

  function Holding(l: Local, views: map<Address, Justified>, signal: Option<QC>): Local {
    l.(st := l.st.(leader := l.st.leader.(newViews := views, newViewSignal := signal)))
  }

  /** A NewView with an accepted certificate is kept, the last one of its sender; the first quorum gives the
      high QC, the highest certificate of a quorum. */
  ghost predicate KeepsNewView(c: Config, l: Local, from: Address, m: ConsensusMessage, env: Env, l': Local)
    requires Ready(c)
  {
    if !Acceptable(c, l, m) then l' == l
    else
      var views: map<Address, Justified> := l.st.leader.newViews[from := m];
      if l.st.leader.newViewSignal.Some? || !IsQuorum(c.members, views.Keys) then l' == Holding(l, views, l.st.leader.newViewSignal)
      else exists hq :: Highest(c, views, hq) && Signals(c, Holding(l, views, Some(hq)), env, l')
  }

  lemma NewViewDoes(c: Config, l: Local, m: ConsensusMessage, from: Address, env: Env)
    requires ValidConfig(c) && Ready(c) && Filed(l.st) && ValidEnv(c, env)
    ensures KeepsNewView(c, l, from, m, env, LeaderNewView(c, l, m, from, env))
  {
    hide Work, Works, GetHighQC, AcceptsQC, Highest, IsQuorum;
    if Acceptable(c, l, m) {
      var l1 := StoreNewView(l, m, from);
      HighQCExactly(c, l1.st.leader.newViews, env.newViewOrder);
      var hq := GetHighQC(c.members, l1.st.leader.newViews, env.newViewOrder);
      if hq.Some? && l1.st.leader.newViewSignal.None? {
        var l2 := WithLeader(l1, l1.st.leader.(newViewSignal := hq));
        WorkDoes(c, l2, env);
        assert Signals(c, l2, env, LeaderNewView(c, l, m, from, env));
      }
    }
  }

  // ---------------------------------------------------------------- a leader

  ghost predicate LeaderAnswers(c: Config, l: Local, from: Address, m: ConsensusMessage, env: Env, l': Local)
    requires Ready(c)
  {
    if m.view != l.st.view || m.messageType == Decide then l' == l
    else if m.messageType == NewView then KeepsNewView(c, l, from, m, env, l')
    else m.messageType in {Prepare, PreCommit, Commit} ==> Counts(c, l, from, m, l')
  }

  lemma LeaderReceives(c: Config, l: Local, p: Packet, m: ConsensusMessage, env: Env)
    requires ValidConfig(c) && Ready(c) && ValidEnv(c, env) && l.st.isLeader && Filed(l.st) && Ballots(l) && p.payload == Consensus(m)
    ensures var l' := Receive(c, l, p, env);
      if IsMember(c.members, p.from) then LeaderAnswers(c, l, p.from, m, env, l') else l' == l
  {
    hide LeaderNewView, AddPrepareVote, AddPreCommitVote, AddCommitVote, Ballots, KeepsNewView, ValidConfig, ValidEnv;
    if IsMember(c.members, p.from) && m.view == l.st.view {
      if m.messageType == NewView {
        NewViewDoes(c, l, m, p.from, env);
      } else if m.messageType != Decide && AdmitsVote(l, m, p.from) {
        VoteCounted(c, l, p.from, m, env);
      }
    }
  }

  lemma VoteCounted(c: Config, l: Local, from: Address, m: Vote, env: Env)
    requires ValidConfig(c) && Ready(c) && ValidEnv(c, env) && Filed(l.st) && Ballots(l) && l.st.leader.prepareMessage.Some? && Valid(l, m, from)
    requires m.messageType in {Prepare, PreCommit, Commit} && m.view == l.st.view
    ensures m.messageType == Prepare ==> Counts(c, l, from, m, AddPrepareVote(c, l, from, m, env))
    ensures m.messageType == PreCommit ==> Counts(c, l, from, m, AddPreCommitVote(c, l, from, m, env))
    ensures m.messageType == Commit ==> Counts(c, l, from, m, AddCommitVote(c, l, from, m, env))
  {
    hide AddPrepareVote, AddPreCommitVote, AddCommitVote, Ballots, Counts, ValidConfig, ValidEnv;
    if m.messageType == Prepare { PrepareCounted(c, l, from, m, env); }
    else if m.messageType == PreCommit { PreCommitCounted(c, l, from, m, env); }
    else { CommitCounted(c, l, from, m, env); }
  }

  // ---------------------------------------------------------------- timeouts

  lemma {:induction false} CollectTCComplete(ms: seq<Member>, msgs: map<Address, SignedTimeout>, order: seq<Address>,
                                             total: nat, sigs: seq<TimeoutSignature>)
    requires DistinctAddresses(ms) && Total(ms) > 0 && Distinct(order) && total < Quorum(ms)
    requires CollectTC(ms, msgs, order, total, sigs).None?
    ensures total + Weight(ms, Elements(order) * msgs.Keys) < Quorum(ms)
    decreases |order|
  {
    var ahead := Elements(order) * msgs.Keys;
    if order == [] {
      assert ahead == {};
      WeightEmpty(ms);
    } else {
      var a := order[0];
      var rest := Elements(order[1..]) * msgs.Keys;
      assert order == [a] + order[1..];
      if a !in msgs {
        CollectTCComplete(ms, msgs, order[1..], total, sigs);
        assert ahead == rest;
      } else {
        CollectTCComplete(ms, msgs, order[1..], total + WeightIn(ms, a), if a in MemberWeights(ms) then sigs + [msgs[a].sig.value] else sigs);
        assert ahead == rest + {a} && rest * {a} == {};
        WeightUnion(ms, rest, {a});
        WeightEmpty(ms);
        MemberWeightsAgree(ms, a);
      }
    }
  }

  lemma TCExactly(c: Config, msgs: map<Address, SignedTimeout>, order: seq<Address>, view: nat)
    requires ValidConfig(c) && Ready(c) && IterationOrder(c, order) && TimeoutsFor(msgs, view)
    ensures var r := CollectTC(c.members, msgs, order, 0, []);
      (r.Some? <==> IsQuorum(c.members, msgs.Keys)) && (r.Some? ==> TCOf(c.members, msgs, r.value, view))
  {
    assert TimeoutSigners([]) == [];
    CollectTCSound(c.members, msgs, order, 0, [], view);
    var r := CollectTC(c.members, msgs, order, 0, []);
    if r.Some? {
      WeightMonotone(c.members, Elements(TimeoutSigners(r.value.sigs)), msgs.Keys);
    } else {
      CollectTCComplete(c.members, msgs, order, 0, []);
      WeightMonotone(c.members, msgs.Keys, Elements(order) * msgs.Keys);
    }
  }

  type Timeouts = map<nat, map<Address, SignedTimeout>>

  function TimeoutsAbove(ts: Timeouts, v: nat): Timeouts {
    map w | w in ts && w > v :: ts[w]
  }

  /** The timeouts of a view with this one counted; the first of a sender stays. */
  function WithTimeout(ts: Timeouts, from: Address, m: SignedTimeout): map<Address, SignedTimeout> {
    var known := if m.view in ts then ts[m.view] else map[];
    if from in known then known else known[from := m]
  }

  /** A view is left exactly on a quorum of its timeouts; the certificate is kept and goes to all others. */
  ghost predicate CountsTimeout(c: Config, l: Local, from: Address, m: SignedTimeout, l': Local)
    requires Ready(c)
  {
    var msgs := WithTimeout(l.st.timeouts, from, m);
    if !IsQuorum(c.members, msgs.Keys) then l' == l.(st := l.st.(timeouts := l.st.timeouts[m.view := msgs]))
    else exists tc: TC :: Leaves(c, l, msgs, m.view, tc, l')
  }

  ghost predicate Leaves(c: Config, l: Local, msgs: map<Address, SignedTimeout>, view: nat, tc: TC, l': Local)
    requires Ready(c)
  {
    && TCOf(c.members, msgs, tc, view)
    && l'.st == l.st.(view := view + 1, timeouts := TimeoutsAbove(l.st.timeouts, view), timeoutTC := Some(tc))
    && l'.me == l.me && l'.facts == l.facts && l.out <= l'.out
    && SentToAll(c, l.me, Timeout(TimeoutMessage(TimeoutDecide, view, Some(tc), None)), l'.out)
  }

  function MovedTo(l: Local, view: nat): Local {
    l.(st := l.st.(view := view + 1, timeouts := TimeoutsAbove(l.st.timeouts, view)))
  }

  /** A timeout of a past view, badly signed, or with a refused certificate changes nothing. A certificate
      of the current view or later moves the validator past it; then the timeout is counted. An announced
      certificate only moves the validator. */
  ghost predicate TakesTimeout(c: Config, l: Local, from: Address, m: TimeoutMessage, l': Local)
    requires Ready(c)
  {
    if m.view < l.st.view then l' == l
    else if m.messageType == TimeoutDecide then
      if m.justify.Some? && AcceptsTC(m.justify.value, c.members) then l' == MovedTo(l, m.justify.value.view) else l' == l
    else if m.sig != Some(TimeoutSignature(from, m.view)) then l' == l
    else if m.justify.None? || m.justify.value.view < l.st.view then CountsTimeout(c, l, from, m, l')
    else if AcceptsTC(m.justify.value, c.members) then CountsTimeout(c, MovedTo(l, m.justify.value.view), from, m, l')
    else l' == l
  }

  ghost predicate TimeoutsFiled(ts: Timeouts) {
    forall v :: v in ts ==> TimeoutsFor(ts[v], v)
  }

  lemma TimeoutDoes(c: Config, l: Local, m: TimeoutMessage, from: Address, env: Env)
    requires ValidConfig(c) && Ready(c) && ValidEnv(c, env) && TimeoutsFiled(l.st.timeouts)
    ensures TakesTimeout(c, l, from, m, OnTimeoutMessage(c, l, m, from, env))
  {
    hide CountTimeout, CountsTimeout, AcceptsTC, ValidConfig, ValidEnv;
    if m.view >= l.st.view && m.messageType == NewTimeout && m.sig == Some(TimeoutSignature(from, m.view)) {
      CountDoes(c, l, m, from, env);
      if m.justify.Some? { CountDoes(c, MovedTo(l, m.justify.value.view), m, from, env); }
    }
  }

  lemma CountDoes(c: Config, l: Local, m: SignedTimeout, from: Address, env: Env)
    requires ValidConfig(c) && Ready(c) && ValidEnv(c, env) && TimeoutsFiled(l.st.timeouts) && m.sig == Some(TimeoutSignature(from, m.view))
    ensures CountsTimeout(c, l, from, m, CountTimeout(c, l, m, from, env))
  {
    hide CollectTC, LeaveView, IsQuorum, Leaves, TCOf, ValidConfig, ValidEnv, TimeoutsFiled;
    var msgs := WithTimeout(l.st.timeouts, from, m);
    WithTimeoutFor(l.st.timeouts, from, m);
    OrderOf(c, env);
    TCExactly(c, msgs, env.timeoutOrder, m.view);
    var r := CollectTC(c.members, msgs, env.timeoutOrder, 0, []);
    if r.Some? { LeaveDoes(c, l, from, m, r.value); }
  }

  lemma OrderOf(c: Config, env: Env)
    requires ValidEnv(c, env)
    ensures IterationOrder(c, env.timeoutOrder)
  {
  }

  lemma WithTimeoutFor(ts: Timeouts, from: Address, m: SignedTimeout)
    requires TimeoutsFiled(ts) && m.sig == Some(TimeoutSignature(from, m.view))
    ensures TimeoutsFor(WithTimeout(ts, from, m), m.view)
  {
  }

  lemma LeaveDoes(c: Config, l: Local, from: Address, m: SignedTimeout, tc: TC)
    requires Ready(c) && TCOf(c.members, WithTimeout(l.st.timeouts, from, m), tc, m.view)
    ensures Leaves(c, l, WithTimeout(l.st.timeouts, from, m), m.view, tc, LeaveView(c, AddTimeout(l, from, m), tc))
  {
    TCView(c, WithTimeout(l.st.timeouts, from, m), tc, m.view);
    hide Broadcast, IsQuorum, TCOf, SentToAll;
    var l1 := AddTimeout(l, from, m);
    assert TimeoutsAbove(l1.st.timeouts, m.view) == TimeoutsAbove(l.st.timeouts, m.view);
    BroadcastSent(c, l.me, Timeout(TimeoutMessage(TimeoutDecide, m.view, Some(tc), None)), LeaveView(c, l1, tc).out);
  }

  lemma TCView(c: Config, msgs: map<Address, SignedTimeout>, tc: TC, view: nat)
    requires Ready(c) && TCOf(c.members, msgs, tc, view)
    ensures tc.view == view
  {
  }

  /** The view timer: the own timeout, with the last certificate known, is counted and goes to all others. */
  ghost predicate Expires(c: Config, l: Local, l': Local)
    requires Ready(c)
  {
    var m := TimeoutMessage(NewTimeout, l.st.view, l.st.timeoutTC, Some(TimeoutSignature(l.me, l.st.view)));
    SentToAll(c, l.me, Timeout(m), l'.out) && exists l1: Local :: TakesTimeout(c, l, l.me, m, l1) && l'.st == l1.st && l'.facts == l1.facts && l1.out <= l'.out
  }

  lemma ExpireDoes(c: Config, l: Local, env: Env)
    requires ValidConfig(c) && Ready(c) && ValidEnv(c, env) && TimeoutsFiled(l.st.timeouts)
    ensures Expires(c, l, OnTimeout(c, l, env))
  {
    hide OnTimeoutMessage, TakesTimeout, Broadcast, SentToAll, ValidConfig, ValidEnv;
    var m := TimeoutMessage(NewTimeout, l.st.view, l.st.timeoutTC, Some(TimeoutSignature(l.me, l.st.view)));
    var l1 := OnTimeoutMessage(c, l, m, l.me, env);
    TimeoutDoes(c, l, m, l.me, env);
    BroadcastSent(c, l.me, Timeout(m), OnTimeout(c, l, env).out);
    assert TakesTimeout(c, l, l.me, m, l1);
  }

  // ---------------------------------------------------------------- proposals

  /** A proposal that passes the checks, on the base block and new, is stored while nothing is decided; a
      request is answered with the stored proposal. */
  predicate TakesProposal(c: Config, l: Local, p: Proposal, env: Env, l': Local) {
    var fits := p.parentHash == c.base.node.blockHash && p.blockHash != c.base.node.blockHash;
    && l' == l.(st := l.st.(params := l'.st.params, proposals := l'.st.proposals, internalProposals := l.st.internalProposals + {p}))
    && if env.acceptProposal && fits && l.st.committed == {}
       then l'.st.params == Some(p.blockHash) && l'.st.proposals == l.st.proposals[p.blockHash := p]
       else l'.st.params == l.st.params && l'.st.proposals == l.st.proposals
  }

  predicate GivesProposal(l: Local, to': Address, hash: Hash, l': Local) {
    l' == l.(out := l.out + if hash in l.st.proposals then {Packet(l.me, to', ProposalResponse(l.st.proposals[hash]))} else {})
  }

  /** The answer to any packet, in whatever role. */
  ghost predicate Answers(c: Config, l: Local, p: Packet, env: Env, l': Local)
    requires Ready(c)
  {
    match p.payload
    case Consensus(m) =>
      if !IsMember(c.members, p.from) then l' == l
      else if l.st.isLeader then LeaderAnswers(c, l, p.from, m, env, l')
      else ReplicaAnswers(c, l, p.from, m, l')
    case Timeout(m) => TakesTimeout(c, l, p.from, m, l')
    case ProposalRequest(hash) => GivesProposal(l, p.from, hash, l')
    case ProposalResponse(proposal) => TakesProposal(c, l, proposal, env, l')
  }

  /** What the answers rest on in the validator's own state. */
  ghost predicate InOrder(l: Local) {
    Filed(l.st) && (l.st.isLeader ==> Ballots(l)) && TimeoutsFiled(l.st.timeouts)
  }

  lemma ReceiveAnswers(c: Config, l: Local, p: Packet, env: Env)
    requires ValidConfig(c) && Ready(c) && ValidEnv(c, env) && InOrder(l)
    ensures Answers(c, l, p, env, Receive(c, l, p, env))
  {
    hide LeaderMessage, ReplicaMessage, OnTimeoutMessage, LeaderAnswers, ReplicaAnswers, TakesTimeout, ValidConfig, ValidEnv, Filed, Ballots, TimeoutsFiled;
    match p.payload
    case Consensus(m) => if l.st.isLeader { LeaderReceives(c, l, p, m, env); } else { ReplicaReceives(c, l, p, m, env); }
    case Timeout(m) => TimeoutDoes(c, l, m, p.from, env);
    case ProposalRequest(hash) =>
    case ProposalResponse(proposal) =>
  }

  /** The block a leader asked for: it goes on as if it had stored it. Any other changes nothing. */
  ghost predicate Resumes(c: Config, l: Local, p: Proposal, env: Env, l': Local) {
    var ls := l.st.leader;
    if ls.pendingRemote != Some(p.blockHash) || ls.newViewSignal.None? then l' == l
    else
      var l1 := l.(st := l.st.(leader := ls.(pendingRemote := None)));
      if l.st.params == Some(p.blockHash) || env.buildOk then Proposes(c, l1, p, ls.newViewSignal.value, l.st.proposals, l') else l' == l1
  }

  lemma RemoteDoes(c: Config, l: Local, p: Proposal, env: Env)
    requires Ready(c)
    ensures Resumes(c, l, p, env, RemoteProposal(c, l, p, env))
  {
    hide ProposeKnown, Proposes;
    if l.st.leader.newViewSignal.Some? { KnownDoes(c, l.(st := l.st.(leader := l.st.leader.(pendingRemote := None))), p, env); }
  }

  // ---------------------------------------------------------------- entering a view

  /** The NewViews held after these: of each sender the last one with an accepted certificate. */
  function HeldAfter(c: Config, l: Local, views: map<Address, Justified>, entries: seq<(ConsensusMessage, Address)>): map<Address, Justified>
    requires Ready(c)
    decreases |entries|
  {
    if entries == [] then views
    else
      var (m, from) := entries[|entries| - 1];
      var before := HeldAfter(c, l, views, entries[..|entries| - 1]);
      if Acceptable(c, l, m) then before[from := m] else before
  }

  /** There is a high QC exactly when the senders held are a quorum. */
  predicate SignalOnQuorum(c: Config, ls: LeaderState)
    requires Ready(c)
  {
    ls.newViewSignal.Some? <==> IsQuorum(c.members, ls.newViews.Keys)
  }

  /** `l` with these NewViews and some high QC, which it has exactly on a quorum. */
  predicate HoldsJust(c: Config, l: Local, views: map<Address, Justified>, l': Local)
    requires Ready(c)
  {
    l' == Holding(l, views, l'.st.leader.newViewSignal) && (l'.st.leader.newViewSignal.Some? <==> IsQuorum(c.members, views.Keys))
  }

  lemma NewViewHeld(c: Config, l: Local, m: ConsensusMessage, from: Address, env: Env)
    requires ValidConfig(c) && Ready(c) && Filed(l.st) && ValidEnv(c, env) && !l.st.leader.scheduleSignal && SignalOnQuorum(c, l.st.leader)
    ensures HoldsJust(c, l, HeldAfter(c, l, l.st.leader.newViews, [(m, from)]), LeaderNewView(c, l, m, from, env))
  {
    hide KeepsNewView, LeaderNewView, ValidConfig, ValidEnv, Filed, HeldAfter, HoldsJust, SignalOnQuorum;
    NewViewDoes(c, l, m, from, env);
    HeldFrom(c, l, m, from, env, LeaderNewView(c, l, m, from, env));
  }

  lemma HeldFrom(c: Config, l: Local, m: ConsensusMessage, from: Address, env: Env, l': Local)
    requires Ready(c) && !l.st.leader.scheduleSignal && SignalOnQuorum(c, l.st.leader) && KeepsNewView(c, l, from, m, env, l')
    ensures HoldsJust(c, l, HeldAfter(c, l, l.st.leader.newViews, [(m, from)]), l')
  {
    hide Highest, Signals, AcceptsQC, HeldAfter, IsQuorum, Acceptable, Holding;
    HeldOne(c, l, l.st.leader.newViews, m, from);
    HoldingSame(l);
    if Acceptable(c, l, m) {
      var views: map<Address, Justified> := l.st.leader.newViews[from := m];
      HoldingSignal(l, views, l.st.leader.newViewSignal);
      if l.st.leader.newViewSignal.Some? {
        QuorumStays(c, l.st.leader.newViews, m, from);
      } else if IsQuorum(c.members, views.Keys) {
        var hq :| Highest(c, views, hq) && Signals(c, Holding(l, views, Some(hq)), env, l');
        HoldingSignal(l, views, Some(hq));
        Idle(c, Holding(l, views, Some(hq)), env, l');
      }
    }
  }

  lemma HoldingSame(l: Local)
    ensures Holding(l, l.st.leader.newViews, l.st.leader.newViewSignal) == l
  {
  }

  lemma HoldingSignal(l: Local, views: map<Address, Justified>, signal: Option<QC>)
    ensures var ls := Holding(l, views, signal).st.leader; ls.newViewSignal == signal && ls.scheduleSignal == l.st.leader.scheduleSignal
  {
  }

  lemma Idle(c: Config, l: Local, env: Env, l': Local)
    requires Signals(c, l, env, l') && !l.st.leader.scheduleSignal
    ensures l' == l
  {
    hide Works;
  }

  lemma HeldOne(c: Config, l: Local, views: map<Address, Justified>, m: ConsensusMessage, from: Address)
    requires Ready(c)
    ensures HeldAfter(c, l, views, [(m, from)]) == if Acceptable(c, l, m) then views[from := m] else views
    ensures Acceptable(c, l, m) ==> m.justify.Some?
  {
    hide AcceptsQC;
    assert [(m, from)][..0] == [];
    assert HeldAfter(c, l, views, []) == views;
  }

  lemma QuorumStays(c: Config, views: map<Address, Justified>, m: ConsensusMessage, from: Address)
    requires Ready(c) && IsQuorum(c.members, views.Keys) && m.justify.Some?
    ensures IsQuorum(c.members, views[from := m].Keys)
  {
    WeightMonotone(c.members, views.Keys, views[from := m].Keys);
  }

  lemma {:induction false} HeldMore(c: Config, l: Local, views: map<Address, Justified>, first: (ConsensusMessage, Address), rest: seq<(ConsensusMessage, Address)>)
    requires Ready(c)
    ensures HeldAfter(c, l, views, [first] + rest) == HeldAfter(c, l, HeldAfter(c, l, views, [first]), rest)
    decreases |rest|
  {
    if rest == [] {
      assert [first] + rest == [first];
    } else {
      var k := |rest| - 1;
      assert ([first] + rest)[..k + 1] == [first] + rest[..k];
      HeldMore(c, l, views, first, rest[..k]);
    }
  }

  lemma {:induction false} HeldOnly(c: Config, l: Local, l': Local, views: map<Address, Justified>, entries: seq<(ConsensusMessage, Address)>)
    requires Ready(c) && l'.me == l.me
    ensures HeldAfter(c, l', views, entries) == HeldAfter(c, l, views, entries)
    decreases |entries|
  {
    if entries != [] { HeldOnly(c, l, l', views, entries[..|entries| - 1]); }
  }

  lemma {:induction false} DrainDoes(c: Config, l: Local, pending: seq<(ConsensusMessage, Address)>, envs: seq<Env>)
    requires ValidConfig(c) && Ready(c) && Filed(l.st) && !l.st.leader.scheduleSignal && SignalOnQuorum(c, l.st.leader)
    requires |envs| >= |pending| && forall i :: 0 <= i < |envs| ==> ValidEnv(c, envs[i])
    ensures HoldsJust(c, l, HeldAfter(c, l, l.st.leader.newViews, pending), ProcessPending(c, l, pending, envs))
    decreases |pending|
  {
    hide LeaderNewView, ValidConfig, ValidEnv, Filed, IsQuorum, Acceptable, HeldAfter;
    HeldNothing(c, l, l.st.leader.newViews);
    var views := l.st.leader.newViews;
    if pending != [] {
      var (first, rest) := (pending[0], pending[1..]);
      var l1 := LeaderNewView(c, l, first.0, first.1, envs[0]);
      NewViewHeld(c, l, first.0, first.1, envs[0]);
      FiledStays(l, l1);
      DrainDoes(c, l1, rest, envs[1..]);
      HeldOnly(c, l, l1, l1.st.leader.newViews, rest);
      assert pending == [first] + rest && first == (first.0, first.1);
      HeldMore(c, l, views, first, rest);
    }
  }

  lemma HeldNothing(c: Config, l: Local, views: map<Address, Justified>)
    requires Ready(c)
    ensures HeldAfter(c, l, views, []) == views
  {
  }

  lemma FiledStays(l: Local, l': Local)
    requires Filed(l.st) && l'.st.proposals == l.st.proposals
    ensures Filed(l'.st)
  {
  }

  /** A replica takes its role and sends its NewView to the leader; a leader begins afresh, with the
      NewViews kept and its own one. */
  predicate Enters(c: Config, l: Local, l': Local)
    requires Ready(c)
  {
    var (lead, own) := (OwnLeader(c, l.me, l.st.view), ConsensusMessage(NewView, l.st.view, None, Some(l.st.prepareQC), None));
    if lead != l.me then
      l' == Local(l.me, l.st.(running := Some(l.st.view), isLeader := false, currentLeader := lead),
                  l.out + {Packet(l.me, lead, Consensus(own))}, l.facts)
    else
      HoldsJust(c, l.(st := l.st.(running := Some(l.st.view), isLeader := true, currentLeader := l.me, leader := FRESH_LEADER, pendingNewViews := [])),
                HeldAfter(c, l, map[], l.st.pendingNewViews + [(own, l.me)]), l')
  }

  lemma EnterDoes(c: Config, l: Local, envs: seq<Env>)
    requires ValidConfig(c) && Ready(c) && Filed(l.st)
    requires |envs| > |l.st.pendingNewViews| && forall i :: 0 <= i < |envs| ==> ValidEnv(c, envs[i])
    ensures Enters(c, l, EnterView(c, l, envs))
  {
    hide OwnLeader, LeaderNewView, ProcessPending, ValidConfig, ValidEnv, Filed, Acceptable, HeldAfter;
    if OwnLeader(c, l.me, l.st.view) == l.me {
      var pending := l.st.pendingNewViews;
      var l1 := l.(st := l.st.(running := Some(l.st.view), isLeader := true, currentLeader := l.me, leader := FRESH_LEADER, pendingNewViews := []));
      FiledStays(l, l1);
      NoQuorumYet(c);
      DrainDoes(c, l1, pending, envs);
      var l2 := ProcessPending(c, l1, pending, envs);
      FiledStays(l, l2);
      var own := ConsensusMessage(NewView, l2.st.view, None, Some(l2.st.prepareQC), None);
      NewViewHeld(c, l2, own, l.me, envs[|pending|]);
      HeldLast(c, l, pending, own, l.me);
      HeldOnly(c, l, l1, map[], pending);
      HeldOnly(c, l, l2, l2.st.leader.newViews, [(own, l.me)]);
    }
  }

  lemma HeldLast(c: Config, l: Local, pending: seq<(ConsensusMessage, Address)>, m: ConsensusMessage, from: Address)
    requires Ready(c)
    ensures HeldAfter(c, l, map[], pending + [(m, from)]) == HeldAfter(c, l, HeldAfter(c, l, map[], pending), [(m, from)])
  {
    var views := HeldAfter(c, l, map[], pending);
    assert (pending + [(m, from)])[..|pending|] == pending;
    assert HeldAfter(c, l, views, []) == views;
  }

  lemma NoQuorumYet(c: Config)
    requires Ready(c)
    ensures SignalOnQuorum(c, FRESH_LEADER)
  {
    WeightEmpty(c.members);
    assert FRESH_LEADER.newViews.Keys == {};
  }

  /** A validator of a good system has its own state in order. */
  lemma GoodIsInOrder(c: Config, nodes: Nodes, l: Local)
    requires LocalInv(c, nodes, l) && Ready(c)
    ensures ValidConfig(c) && Filed(l.st) && TimeoutsFiled(l.st.timeouts) && (Running(l.st) ==> InOrder(l))
  {
    hide CoreInv, CoreOf, PacketsOk, NewViewsOk;
    LocalParts(c, nodes, l);
  }
}
