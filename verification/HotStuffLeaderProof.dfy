/** The leader's handlers keep the invariant: votes, certificates, proposals and NewViews. */
module HotStuffLeaderProof {
  import opened Authorities
  import opened HotStuffTypes
  import opened HotStuffCollectors
  import opened HotStuffNode
  import opened HotStuffCore
  import opened HotStuffCoreSteps
  import opened HotStuffSystem
  import opened HotStuffLocal

  /** Nothing goes back: view, stored certificates, committed blocks and facts. */
  ghost predicate Progress(c: Config, l: Local, l': Local)
    requires Ready(c)
  {
    && l'.me == l.me && Grows(c, l.me, l.facts, l'.facts)
    && l.st.view <= l'.st.view
    && l.st.prepareQC.view <= l'.st.prepareQC.view && l.st.lockedQC.view <= l'.st.lockedQC.view
    && l.st.committed <= l'.st.committed
  }

  /** A handler step of a leader that stays in its view. */
  ghost predicate LeaderStep(c: Config, nodes: Nodes, l: Local, l': Local) {
    LeaderInv(c, nodes, l') && Ready(c) && Progress(c, l, l') && l'.st.view == l.st.view
  }

  lemma GrowsTransitive(c: Config, me: Address, f: Facts, f': Facts, f'': Facts)
    requires Ready(c) && Grows(c, me, f, f') && Grows(c, me, f', f'')
    ensures Grows(c, me, f, f'')
  {
  }

  lemma LeaderStepTransitive(c: Config, nodes: Nodes, l: Local, l': Local, l'': Local)
    requires LeaderStep(c, nodes, l, l') && LeaderStep(c, nodes, l', l'')
    ensures LeaderStep(c, nodes, l, l'')
  {
    hide LeaderInv, Grows;
    GrowsTransitive(c, l.me, l.facts, l'.facts, l''.facts);
  }

  lemma LeaderParts(c: Config, nodes: Nodes, l: Local)
    requires LeaderInv(c, nodes, l)
    ensures ValidConfig(c) && LeaderOf(c, l.st.view) == l.me && l.st.currentLeader == l.me
    ensures NewViewsOk(c, l.facts, l.me, l.st.view, l.st.leader)
    ensures BallotsOk(l.facts, l.me, l.st.view, l.st.leader)
    ensures MemoryOk(c, l.facts, l.me, l.st)
  {
    hide CoreInv, NewViewsOk, BallotsOk, MemoryOk;
    LocalParts(c, nodes, l);
  }

  lemma ReadyHere(c: Config, nodes: Nodes, l: Local)
    requires LocalInv(c, nodes, l)
    ensures ValidConfig(c) && Ready(c)
  {
    hide NodeOk, PacketsOk, CoreOf;
  }

  lemma NoChange(c: Config, nodes: Nodes, l: Local)
    requires LeaderInv(c, nodes, l)
    ensures LeaderStep(c, nodes, l, l)
  {
    hide CoreInv, NodeOk, PacketsOk;
    LocalParts(c, nodes, l);
  }

  // ---------------------------------------------------------------- votes

  /** A vote of type `t` by `from` for the leader's proposal, signed. */
  ghost predicate GoodVote(l: Local, from: Address, v: Vote, t: MessageType) {
    && l.st.leader.prepareMessage.Some?
    && var node := l.st.leader.prepareMessage.value.node;
       && v.messageType == t && v.view == l.st.view && v.node == Some(node)
       && v.sig == Some(Signature(from, t, l.st.view, node, l.me)) && v.sig.value in l.facts.signed
  }

  /** The collected votes of one phase and the certificate they yield. */
  lemma QuorumOfVotes(c: Config, nodes: Nodes, l: Local, votes: map<Address, Vote>, t: MessageType, order: seq<Address>)
    requires LeaderInv(c, nodes, l) && l.st.leader.prepareMessage.Some? && Ready(c)
    requires t in {Prepare, PreCommit, Commit} && Distinct(order)
    requires BallotOk(l.facts, votes, t, l.st.view, l.st.leader.prepareMessage.value.node, l.me)
    requires GetQC(c.members, votes, l.me, order).Some?
    ensures var q := GetQC(c.members, votes, l.me, order).value;
      QcOk(c, l.facts, q) && q.messageType == t && q.view == l.st.view
  {
    LeaderParts(c, nodes, l);
    hide LeaderInv, NewViewsOk, MemoryOk, Distinct, QCOf, Certified, VotesFor, LeaderOf;
    var node := l.st.leader.prepareMessage.value.node;
    assert Signers([]) == [];
    BallotVotes(l.facts, votes, t, l.st.view, node, l.me);
    WalkedNone(c.members, votes, t, l.st.view, node, l.me, order);
    CollectQCSound(c.members, votes, l.me, order, 0, [], t, l.st.view, node);
    QuorumSigned(c, l.facts, votes, GetQC(c.members, votes, l.me, order).value, t, l.st.view, node, l.me);
  }

  lemma BallotVotes(f: Facts, votes: map<Address, Vote>, t: MessageType, view: nat, node: Node, me: Address)
    requires BallotOk(f, votes, t, view, node, me)
    ensures VotesFor(votes, t, view, node, me)
  {
  }

  lemma QuorumSigned(c: Config, f: Facts, votes: map<Address, Vote>, q: QC, t: MessageType, view: nat, node: Node, me: Address)
    requires Ready(c) && BallotOk(f, votes, t, view, node, me) && QCOf(c.members, votes, q, t, view, node, me)
    ensures Certified(q, c.members) && q.messageType == t && q.view == view && q.node == node && q.leader == me
    ensures forall i :: 0 <= i < |q.sigs| ==> q.sigs[i] in f.signed
  {
    forall i | 0 <= i < |q.sigs| ensures q.sigs[i] in f.signed {
      assert Signers(q.sigs)[i] in votes;
      assert SignatureFor(q.sigs[i], q);
    }
  }

  lemma FormLeader(c: Config, nodes: Nodes, l: Local, q: QC)
    requires LeaderInv(c, nodes, l) && Ready(c) && QcOk(c, l.facts, q)
    ensures LeaderStep(c, nodes, l, FormQC(l, q))
  {
    hide CoreInv, NodeOk, PacketsOk, QcOk, Grows;
    FormLocal(c, nodes, l, q);
  }

  lemma SendLeader(c: Config, nodes: Nodes, l: Local, ps: set<Packet>)
    requires LeaderInv(c, nodes, l) && PacketsOk(c, l.facts, ps)
    ensures LeaderStep(c, nodes, l, SendOut(l, ps))
  {
    hide CoreInv, NodeOk, PacketsOk;
    LocalParts(c, nodes, l);
    Send(c, nodes, l, ps);
  }

  lemma SetLeaderStep(c: Config, nodes: Nodes, l: Local, ls: LeaderState)
    requires LeaderInv(c, nodes, l)
    requires NewViewsOk(c, l.facts, l.me, l.st.view, ls) && BallotsOk(l.facts, l.me, l.st.view, ls)
    ensures LeaderStep(c, nodes, l, WithLeader(l, ls))
  {
    hide LocalInv, NewViewsOk, BallotsOk;
    SetLeader(c, nodes, l, ls);
    ReadyHere(c, nodes, l);
  }

  lemma RoleSame(c: Config, f: Facts, a: Address, st: NodeState, st': NodeState)
    requires Ready(c) && RoleOk(c, f, a, st)
    requires st'.view == st.view && st'.running == st.running && st'.isLeader == st.isLeader
    requires st'.currentLeader == st.currentLeader && st'.leader == st.leader
    ensures RoleOk(c, f, a, st')
  {
    hide NewViewsOk, BallotsOk;
  }

  lemma TimeoutsSame(st: NodeState, st': NodeState)
    requires TimeoutsOk(st) && st'.view == st.view && st'.timeouts == st.timeouts && st'.timeoutTC == st.timeoutTC
    ensures TimeoutsOk(st')
  {
  }

  lemma DecideMemory(c: Config, l: Local, q: QC)
    requires Ready(c) && MemoryOk(c, l.facts, l.me, l.st) && q in l.facts.qcs && q.messageType == Commit
    ensures MemoryOk(c, l.facts, l.me, DecideBlock(l, q).st)
  {
    hide ProposalOk, GoodJustify;
  }

  lemma DecideNode(c: Config, l: Local, q: QC)
    requires Ready(c) && NodeOk(c, l.facts, l.me, l.st) && q in l.facts.qcs && q.messageType == Commit
    ensures NodeOk(c, l.facts, l.me, DecideBlock(l, q).st)
  {
    hide RoleOk, TimeoutsOk, MemoryOk;
    RoleSame(c, l.facts, l.me, l.st, DecideBlock(l, q).st);
    DecideMemory(c, l, q);
    TimeoutsSame(l.st, DecideBlock(l, q).st);
  }

  lemma DecideFrame(l: Local, q: QC)
    ensures var l' := DecideBlock(l, q);
      && l'.me == l.me && l'.facts == l.facts && l'.out == l.out
      && l'.st == l.st.(params := l'.st.params, committed := l'.st.committed) && l.st.committed <= l'.st.committed
  {
  }

  lemma DecideLocal(c: Config, nodes: Nodes, l: Local, q: QC)
    requires LocalInv(c, nodes, l) && q in l.facts.qcs && q.messageType == Commit
    ensures LocalInv(c, nodes, DecideBlock(l, q))
  {
    LocalParts(c, nodes, l);
    DecideNode(c, l, q);
    DecideFrame(l, q);
    hide *;
    SetState(c, nodes, l, DecideBlock(l, q));
  }

  lemma DecideLeader(c: Config, nodes: Nodes, l: Local, q: QC)
    requires LeaderInv(c, nodes, l) && q in l.facts.qcs && q.messageType == Commit
    ensures LeaderStep(c, nodes, l, DecideBlock(l, q))
  {
    hide LocalInv, DecideBlock;
    DecideLocal(c, nodes, l, q);
    DecideFrame(l, q);
    ReadyHere(c, nodes, l);
  }

  lemma NewViewsSame(c: Config, f: Facts, a: Address, w: nat, ls: LeaderState, ls': LeaderState)
    requires Ready(c) && NewViewsOk(c, f, a, w, ls)
    requires ls'.newViews == ls.newViews && ls'.newViewSignal == ls.newViewSignal
    requires ls'.pendingRemote == ls.pendingRemote && ls'.prepareMessage == ls.prepareMessage
    ensures NewViewsOk(c, f, a, w, ls')
  {
  }

  // commit votes

  lemma StoreCommitVote(c: Config, nodes: Nodes, l: Local, from: Address, v: Vote)
    requires LeaderInv(c, nodes, l) && GoodVote(l, from, v, Commit)
    ensures var l' := WithLeader(l, l.st.leader.(commits := l.st.leader.commits[from := v]));
      && LeaderStep(c, nodes, l, l') && l'.st.leader.prepareMessage == l.st.leader.prepareMessage
      && BallotOk(l'.facts, l'.st.leader.commits, Commit, l.st.view, l.st.leader.prepareMessage.value.node, l.me)
  {
    hide LeaderInv, MemoryOk, NewViewsOk, Grows;
    LeaderParts(c, nodes, l);
    var ls := l.st.leader.(commits := l.st.leader.commits[from := v]);
    NewViewsSame(c, l.facts, l.me, l.st.view, l.st.leader, ls);
    SetLeaderStep(c, nodes, l, ls);
  }

  lemma AnnounceDecide(c: Config, nodes: Nodes, l: Local, q: QC)
    requires LeaderInv(c, nodes, l) && Ready(c) && QcOk(c, l.facts, q) && q.messageType == Commit
    ensures LeaderStep(c, nodes, l, DecideAndAnnounce(c, l, q))
  {
    hide QcOk, LeaderInv, Grows;
    var l1 := FormQC(l, q);
    FormLeader(c, nodes, l, q);
    LeaderParts(c, nodes, l1);
    var l2 := WithLeader(l1, l.st.leader.(decideSent := true));
    SetLeaderStep(c, nodes, l1, l.st.leader.(decideSent := true));
    var l3 := DecideBlock(l2, q);
    DecideLeader(c, nodes, l2, q);
    var payload := Consensus(ConsensusMessage(Decide, l.st.view, None, Some(q), None));
    BroadcastOk(c, l3.facts, l.me, payload);
    SendLeader(c, nodes, l3, Broadcast(c, l.me, payload));
    LeaderStepTransitive(c, nodes, l, l1, l2);
    LeaderStepTransitive(c, nodes, l, l2, l3);
    LeaderStepTransitive(c, nodes, l, l3, SendOut(l3, Broadcast(c, l.me, payload)));
  }

  lemma CommitVote(c: Config, nodes: Nodes, l: Local, from: Address, v: Vote, env: Env)
    requires LeaderInv(c, nodes, l) && Ready(c) && ValidEnv(c, env) && GoodVote(l, from, v, Commit)
    ensures LeaderStep(c, nodes, l, AddCommitVote(c, l, from, v, env))
  {
    hide LeaderInv, Grows, QcOk, BallotOk, DecideAndAnnounce;
    var l1 := WithLeader(l, l.st.leader.(commits := l.st.leader.commits[from := v]));
    StoreCommitVote(c, nodes, l, from, v);
    var r := GetQC(c.members, l1.st.leader.commits, l.me, env.commitOrder);
    if r.Some? && !l1.st.leader.decideSent {
      QuorumOfVotes(c, nodes, l1, l1.st.leader.commits, Commit, env.commitOrder);
      AnnounceDecide(c, nodes, l1, r.value);
      LeaderStepTransitive(c, nodes, l, l1, AddCommitVote(c, l, from, v, env));
    }
  }

  /** The leader may sign its own ballots: it proposed, and it stored the certificate of the phase before. */
  lemma OwnSignature(c: Config, nodes: Nodes, l: Local, t: MessageType)
    requires LeaderInv(c, nodes, l) && Ready(c) && l.st.leader.prepareMessage.Some?
    requires t in {Prepare, PreCommit, Commit}
    requires t == PreCommit ==> l.st.prepareQC.view == l.st.view && HasQC(l.facts, Prepare, l.st.view)
    requires t == Commit ==> l.st.lockedQC.view == l.st.view && HasQC(l.facts, PreCommit, l.st.view)
    ensures var g := OwnVote(l, t).sig.value;
      && LeaderStep(c, nodes, l, Sign(l, g)) && GoodVote(Sign(l, g), l.me, OwnVote(l, t), t)
  {
    hide CoreInv, PacketsOk, NewViewsOk, MemoryOk, HasQC, CoreOf, Grows, NodeOk;
    LeaderParts(c, nodes, l);
    LocalParts(c, nodes, l);
    CoreHere(nodes, l);
    var g := OwnVote(l, t).sig.value;
    assert MaySign(c, CoreOf(nodes, l), g);
    SignLocal(c, nodes, l, g);
  }

  lemma OwnCommit(c: Config, nodes: Nodes, l: Local, env: Env)
    requires LeaderInv(c, nodes, l) && Ready(c) && ValidEnv(c, env) && l.st.leader.prepareMessage.Some?
    requires l.st.lockedQC.view == l.st.view && HasQC(l.facts, PreCommit, l.st.view)
    ensures LeaderStep(c, nodes, l, OwnCommitVote(c, l, env))
  {
    hide LeaderInv, Grows, HasQC, AddCommitVote;
    var v := OwnVote(l, Commit);
    OwnSignature(c, nodes, l, Commit);
    CommitVote(c, nodes, Sign(l, v.sig.value), l.me, v, env);
    LeaderStepTransitive(c, nodes, l, Sign(l, v.sig.value), OwnCommitVote(c, l, env));
  }

  // pre-commit votes

  lemma StorePreCommitVote(c: Config, nodes: Nodes, l: Local, from: Address, v: Vote)
    requires LeaderInv(c, nodes, l) && GoodVote(l, from, v, PreCommit)
    ensures var l' := WithLeader(l, l.st.leader.(preCommits := l.st.leader.preCommits[from := v]));
      && LeaderStep(c, nodes, l, l') && l'.st.leader.prepareMessage == l.st.leader.prepareMessage
      && BallotOk(l'.facts, l'.st.leader.preCommits, PreCommit, l.st.view, l.st.leader.prepareMessage.value.node, l.me)
  {
    hide LeaderInv, MemoryOk, NewViewsOk, Grows;
    LeaderParts(c, nodes, l);
    var ls := l.st.leader.(preCommits := l.st.leader.preCommits[from := v]);
    NewViewsSame(c, l.facts, l.me, l.st.view, l.st.leader, ls);
    SetLeaderStep(c, nodes, l, ls);
  }

  lemma LockStep(c: Config, nodes: Nodes, l: Local, q: QC)
    requires LeaderInv(c, nodes, l) && q in l.facts.qcs && q.messageType == PreCommit && q.view == l.st.view
    ensures LeaderStep(c, nodes, l, WithLock(l, q))
  {
    hide CoreInv, NodeOk, PacketsOk;
    LocalParts(c, nodes, l);
    CoreHere(nodes, l);
    StoreLockLocal(c, nodes, l, q);
  }

  lemma LockAndAnnounceStep(c: Config, nodes: Nodes, l: Local, q: QC)
    requires LeaderInv(c, nodes, l) && Ready(c) && QcOk(c, l.facts, q) && q.messageType == PreCommit && q.view == l.st.view
    ensures var l' := LockAndAnnounce(c, l, q);
      && LeaderStep(c, nodes, l, l') && l'.st.leader.prepareMessage == l.st.leader.prepareMessage
      && l'.st.lockedQC.view == l'.st.view && HasQC(l'.facts, PreCommit, l'.st.view)
  {
    hide QcOk, LeaderInv, Grows;
    var l1 := FormQC(l, q);
    FormLeader(c, nodes, l, q);
    var l2 := WithLock(l1, q);
    LockStep(c, nodes, l1, q);
    LeaderParts(c, nodes, l2);
    var l3 := WithLeader(l2, l2.st.leader.(commitSent := true));
    SetLeaderStep(c, nodes, l2, l2.st.leader.(commitSent := true));
    var payload := Consensus(ConsensusMessage(Commit, l.st.view, None, Some(q), None));
    BroadcastOk(c, l3.facts, l.me, payload);
    SendLeader(c, nodes, l3, Broadcast(c, l.me, payload));
    LeaderStepTransitive(c, nodes, l, l1, l2);
    LeaderStepTransitive(c, nodes, l, l2, l3);
    LeaderStepTransitive(c, nodes, l, l3, LockAndAnnounce(c, l, q));
    assert q in LockAndAnnounce(c, l, q).facts.qcs;
  }

  lemma PreCommitVote(c: Config, nodes: Nodes, l: Local, from: Address, v: Vote, env: Env)
    requires LeaderInv(c, nodes, l) && Ready(c) && ValidEnv(c, env) && GoodVote(l, from, v, PreCommit)
    ensures LeaderStep(c, nodes, l, AddPreCommitVote(c, l, from, v, env))
  {
    hide LeaderInv, Grows, QcOk, BallotOk, LockAndAnnounce, OwnCommitVote, HasQC;
    var l1 := WithLeader(l, l.st.leader.(preCommits := l.st.leader.preCommits[from := v]));
    StorePreCommitVote(c, nodes, l, from, v);
    var r := GetQC(c.members, l1.st.leader.preCommits, l.me, env.preCommitOrder);
    if r.Some? && !l1.st.leader.commitSent {
      QuorumOfVotes(c, nodes, l1, l1.st.leader.preCommits, PreCommit, env.preCommitOrder);
      var l2 := LockAndAnnounce(c, l1, r.value);
      LockAndAnnounceStep(c, nodes, l1, r.value);
      OwnCommit(c, nodes, l2, env);
      LeaderStepTransitive(c, nodes, l, l1, l2);
      LeaderStepTransitive(c, nodes, l, l2, OwnCommitVote(c, l2, env));
    }
  }

  lemma OwnPreCommit(c: Config, nodes: Nodes, l: Local, env: Env)
    requires LeaderInv(c, nodes, l) && Ready(c) && ValidEnv(c, env) && l.st.leader.prepareMessage.Some?
    requires l.st.prepareQC.view == l.st.view && HasQC(l.facts, Prepare, l.st.view)
    ensures LeaderStep(c, nodes, l, OwnPreCommitVote(c, l, env))
  {
    hide LeaderInv, Grows, HasQC, AddPreCommitVote;
    var v := OwnVote(l, PreCommit);
    OwnSignature(c, nodes, l, PreCommit);
    PreCommitVote(c, nodes, Sign(l, v.sig.value), l.me, v, env);
    LeaderStepTransitive(c, nodes, l, Sign(l, v.sig.value), OwnPreCommitVote(c, l, env));
  }

  // prepare votes

  lemma StorePrepareVote(c: Config, nodes: Nodes, l: Local, from: Address, v: Vote)
    requires LeaderInv(c, nodes, l) && GoodVote(l, from, v, Prepare)
    ensures var l' := WithLeader(l, l.st.leader.(prepares := l.st.leader.prepares[from := v]));
      && LeaderStep(c, nodes, l, l') && l'.st.leader.prepareMessage == l.st.leader.prepareMessage
      && BallotOk(l'.facts, l'.st.leader.prepares, Prepare, l.st.view, l.st.leader.prepareMessage.value.node, l.me)
  {
    hide LeaderInv, MemoryOk, NewViewsOk, Grows;
    LeaderParts(c, nodes, l);
    var ls := l.st.leader.(prepares := l.st.leader.prepares[from := v]);
    NewViewsSame(c, l.facts, l.me, l.st.view, l.st.leader, ls);
    SetLeaderStep(c, nodes, l, ls);
  }

  lemma StoreStep(c: Config, nodes: Nodes, l: Local, q: QC)
    requires LeaderInv(c, nodes, l) && q in l.facts.qcs && q.messageType == Prepare && q.view == l.st.view
    ensures LeaderStep(c, nodes, l, WithPrepareQC(l, q))
  {
    hide CoreInv, NodeOk, PacketsOk;
    LocalParts(c, nodes, l);
    CoreHere(nodes, l);
    StorePrepareLocal(c, nodes, l, q);
  }

  lemma StoreAndAnnounceStep(c: Config, nodes: Nodes, l: Local, q: QC)
    requires LeaderInv(c, nodes, l) && Ready(c) && QcOk(c, l.facts, q) && q.messageType == Prepare && q.view == l.st.view
    ensures var l' := StoreAndAnnounce(c, l, q);
      && LeaderStep(c, nodes, l, l') && l'.st.leader.prepareMessage == l.st.leader.prepareMessage
      && l'.st.prepareQC.view == l'.st.view && HasQC(l'.facts, Prepare, l'.st.view)
  {
    hide QcOk, LeaderInv, Grows;
    var l1 := FormQC(l, q);
    FormLeader(c, nodes, l, q);
    var l2 := WithPrepareQC(l1, q);
    StoreStep(c, nodes, l1, q);
    LeaderParts(c, nodes, l2);
    var l3 := WithLeader(l2, l2.st.leader.(preCommitSent := true));
    SetLeaderStep(c, nodes, l2, l2.st.leader.(preCommitSent := true));
    var payload := Consensus(ConsensusMessage(PreCommit, l.st.view, None, Some(q), None));
    BroadcastOk(c, l3.facts, l.me, payload);
    SendLeader(c, nodes, l3, Broadcast(c, l.me, payload));
    LeaderStepTransitive(c, nodes, l, l1, l2);
    LeaderStepTransitive(c, nodes, l, l2, l3);
    LeaderStepTransitive(c, nodes, l, l3, StoreAndAnnounce(c, l, q));
    assert q in StoreAndAnnounce(c, l, q).facts.qcs;
  }

  lemma PrepareVote(c: Config, nodes: Nodes, l: Local, from: Address, v: Vote, env: Env)
    requires LeaderInv(c, nodes, l) && Ready(c) && ValidEnv(c, env) && GoodVote(l, from, v, Prepare)
    ensures LeaderStep(c, nodes, l, AddPrepareVote(c, l, from, v, env))
  {
    hide LeaderInv, Grows, QcOk, BallotOk, StoreAndAnnounce, OwnPreCommitVote, HasQC;
    var l1 := WithLeader(l, l.st.leader.(prepares := l.st.leader.prepares[from := v]));
    StorePrepareVote(c, nodes, l, from, v);
    var r := GetQC(c.members, l1.st.leader.prepares, l.me, env.prepareOrder);
    if r.Some? && !l1.st.leader.preCommitSent {
      QuorumOfVotes(c, nodes, l1, l1.st.leader.prepares, Prepare, env.prepareOrder);
      var l2 := StoreAndAnnounce(c, l1, r.value);
      StoreAndAnnounceStep(c, nodes, l1, r.value);
      OwnPreCommit(c, nodes, l2, env);
      LeaderStepTransitive(c, nodes, l, l1, l2);
      LeaderStepTransitive(c, nodes, l, l2, OwnPreCommitVote(c, l2, env));
    }
  }

  lemma OwnPrepare(c: Config, nodes: Nodes, l: Local, env: Env)
    requires LeaderInv(c, nodes, l) && Ready(c) && ValidEnv(c, env) && l.st.leader.prepareMessage.Some?
    ensures LeaderStep(c, nodes, l, OwnPrepareVote(c, l, env))
  {
    hide LeaderInv, Grows, AddPrepareVote;
    var v := OwnVote(l, Prepare);
    OwnSignature(c, nodes, l, Prepare);
    PrepareVote(c, nodes, Sign(l, v.sig.value), l.me, v, env);
    LeaderStepTransitive(c, nodes, l, Sign(l, v.sig.value), OwnPrepareVote(c, l, env));
  }
}
