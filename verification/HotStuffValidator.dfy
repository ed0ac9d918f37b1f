/** The validator as the source writes it: an object whose handlers change its fields. Each
    handler does exactly what the function of the same step in `HotStuffNode` says, and each way into
    the object keeps the invariant of agreement. */
module HotStuffValidator {
  import opened Authorities
  import opened HotStuffTypes
  import opened HotStuffCollectors
  import opened HotStuffNode
  import opened HotStuffSystem
  import opened HotStuffLocal
  import opened HotStuffLeaderProof
  import opened HotStuffProposeProof
  import opened HotStuffReplicaProof
  import opened HotStuffAnswers

  /** `get_qc`: walks the votes in iteration order and stops at the first quorum. */
  method CollectVotes(ms: seq<Member>, votes: map<Address, Vote>, leader: Address, order: seq<Address>) returns (r: Option<QC>)
    requires Total(ms) > 0
    ensures r == GetQC(ms, votes, leader, order)
  {
    var n := Total(ms);
    var f := (n - 1) / 3;
    var weights := MemberWeights(ms);
    var total := 0;
    var sigs: seq<Signature> := [];
    for i := 0 to |order|
      invariant GetQC(ms, votes, leader, order) == CollectQC(ms, votes, leader, order[i..], total, sigs)
    {
      var address := order[i];
      if address in votes {
        var message := votes[address];
        if address in weights {
          total := total + weights[address];
          sigs := sigs + [message.sig.value];
        }
        if total >= n - f {
          return Some(QC(message.messageType, message.view, message.node.value, leader, sigs));
        }
      }
    }
    r := None;
  }

  /** `get_high_qc`. */
  method CollectNewViews(ms: seq<Member>, views: map<Address, Justified>, order: seq<Address>) returns (r: Option<QC>)
    requires Total(ms) > 0
    ensures r == GetHighQC(ms, views, order)
  {
    var n := Total(ms);
    var f := (n - 1) / 3;
    var weights := MemberWeights(ms);
    var total := 0;
    var high: Option<QC> := None;
    for i := 0 to |order|
      invariant GetHighQC(ms, views, order) == CollectHighQC(ms, views, order[i..], total, high)
    {
      var address := order[i];
      if address in views {
        var justify := views[address].justify.value;
        if address in weights {
          total := total + weights[address];
          if high.None? || justify.view > high.value.view {
            high := Some(justify);
          }
        }
        if total >= n - f { return high; }
      }
    }
    r := None;
  }

  /** `get_tc` for the timeouts of one view. */
  method CollectTimeouts(ms: seq<Member>, msgs: map<Address, SignedTimeout>, order: seq<Address>) returns (r: Option<TC>)
    requires Total(ms) > 0
    ensures r == CollectTC(ms, msgs, order, 0, [])
  {
    var n := Total(ms);
    var f := (n - 1) / 3;
    var weights := MemberWeights(ms);
    var total := 0;
    var sigs: seq<TimeoutSignature> := [];
    for i := 0 to |order|
      invariant CollectTC(ms, msgs, order, 0, []) == CollectTC(ms, msgs, order[i..], total, sigs)
    {
      var address := order[i];
      if address in msgs {
        var message := msgs[address];
        if address in weights {
          total := total + weights[address];
          sigs := sigs + [message.sig.value];
        }
        if total >= n - f { return Some(TC(message.view, sigs)); }
      }
    }
    r := None;
  }

  class Validator {
    const c: Config
    const me: Address

    // storage
    var view: nat
    var prepareQC: QC
    var lockedQC: QC
    var proposals: map<Hash, Proposal>

    // stream
    var params: Option<Hash>
    var running: Option<nat>
    var isLeader: bool
    var currentLeader: Address
    var pendingNewViews: seq<(ConsensusMessage, Address)>
    var internalProposals: set<Proposal>
    var timeouts: map<nat, map<Address, SignedTimeout>>
    var timeoutTC: Option<TC>
    var committed: set<Hash>
    var halted: bool

    // state of the leader role, made anew for each view this validator leads
    var leader: LeaderState

    // packets handed to the network
    var out: set<Packet>

    // what the whole system has produced so far
    ghost var facts: Facts

    ghost function State(): NodeState
      reads this
    {
      NodeState(view, prepareQC, lockedQC, proposals, params, running, isLeader, currentLeader, leader,
                pendingNewViews, internalProposals, timeouts, timeoutTC, committed, halted)
    }

    ghost function Snapshot(): Local
      reads this
    {
      Local(me, State(), out, facts)
    }

    constructor (c: Config, me: Address, view: nat, prepareQC: QC, lockedQC: QC)
      ensures this.c == c && this.me == me
      ensures Snapshot() == Local(me, NodeState(view, prepareQC, lockedQC, map[], None, None, false, 0, FRESH_LEADER,
                                                 [], {}, map[], None, {}, false), {}, Facts(map[], {}, {}))
    {
      this.c, this.me := c, me;
      this.view, this.prepareQC, this.lockedQC, proposals := view, prepareQC, lockedQC, map[];
      params, running, isLeader, currentLeader := None, None, false, 0;
      pendingNewViews, internalProposals, timeouts, timeoutTC, committed, halted := [], {}, map[], None, {}, false;
      leader := FRESH_LEADER;
      out := {};
      facts := Facts(map[], {}, {});
    }

    method SendToAll(payload: Payload)
      modifies this`out
      ensures Snapshot() == SendOut(old(Snapshot()), Broadcast(c, me, payload))
    {
      ghost var all := Broadcast(c, me, payload);
      for i := 0 to |c.members|
        invariant out == old(out) + set j | 0 <= j < i && c.members[j].address != me :: Packet(me, c.members[j].address, payload)
      {
        if c.members[i].address != me {
          out := out + {Packet(me, c.members[i].address, payload)};
        }
      }
      assert out == old(out) + all;
    }

    // ------------------------------------------------------------ leader

    method OnDecide(qc: QC)
      modifies this`params, this`committed
      ensures Snapshot() == DecideBlock(old(Snapshot()), qc)
    {
      var hash := qc.node.blockHash;
      if hash !in proposals { return; }
      var built := params;
      params := None;
      if built == Some(proposals[hash].blockHash) {
        committed := committed + {proposals[hash].blockHash};
      }
    }

    method Decided(qc: QC)
      modifies this
      ensures Snapshot() == DecideAndAnnounce(c, old(Snapshot()), qc)
    {
      hide Broadcast, DecideBlock;
      facts := facts.(qcs := facts.qcs + {qc});
      leader := leader.(decideSent := true);
      OnDecide(qc);
      SendToAll(Consensus(ConsensusMessage(Decide, view, None, Some(qc), None)));
    }

    method LeaderOnCommit(from: Address, vote: Vote, env: Env)
      requires Ready(c)
      modifies this
      ensures Snapshot() == AddCommitVote(c, old(Snapshot()), from, vote, env)
    {
      hide GetQC, DecideAndAnnounce;
      leader := leader.(commits := leader.commits[from := vote]);
      var qc := CollectVotes(c.members, leader.commits, me, env.commitOrder);
      if qc.Some? && !leader.decideSent { Decided(qc.value); }
    }

    method LeaderOwnCommit(env: Env)
      requires Ready(c) && leader.prepareMessage.Some?
      modifies this
      ensures Snapshot() == OwnCommitVote(c, old(Snapshot()), env)
    {
      var node := leader.prepareMessage.value.node;
      var sig := Signature(me, Commit, view, node, currentLeader);
      facts := facts.(signed := facts.signed + {sig});
      LeaderOnCommit(me, ConsensusMessage(Commit, view, Some(node), None, Some(sig)), env);
    }

    method PreCommitted(qc: QC)
      modifies this
      ensures Snapshot() == LockAndAnnounce(c, old(Snapshot()), qc)
      ensures leader.prepareMessage == old(leader.prepareMessage)
    {
      hide Broadcast;
      facts := facts.(qcs := facts.qcs + {qc});
      lockedQC := qc;
      leader := leader.(commitSent := true);
      SendToAll(Consensus(ConsensusMessage(Commit, view, None, Some(qc), None)));
    }

    method LeaderOnPreCommit(from: Address, vote: Vote, env: Env)
      requires Ready(c) && leader.prepareMessage.Some?
      modifies this
      ensures Snapshot() == AddPreCommitVote(c, old(Snapshot()), from, vote, env)
    {
      hide GetQC, LockAndAnnounce, OwnCommitVote;
      leader := leader.(preCommits := leader.preCommits[from := vote]);
      var qc := CollectVotes(c.members, leader.preCommits, me, env.preCommitOrder);
      if qc.Some? && !leader.commitSent {
        PreCommitted(qc.value);
        LeaderOwnCommit(env);
      }
    }

    method LeaderOwnPreCommit(env: Env)
      requires Ready(c) && leader.prepareMessage.Some?
      modifies this
      ensures Snapshot() == OwnPreCommitVote(c, old(Snapshot()), env)
    {
      var node := leader.prepareMessage.value.node;
      var sig := Signature(me, PreCommit, view, node, currentLeader);
      facts := facts.(signed := facts.signed + {sig});
      LeaderOnPreCommit(me, ConsensusMessage(PreCommit, view, Some(node), None, Some(sig)), env);
    }

    method Prepared(qc: QC)
      modifies this
      ensures Snapshot() == StoreAndAnnounce(c, old(Snapshot()), qc)
      ensures leader.prepareMessage == old(leader.prepareMessage)
    {
      hide Broadcast;
      facts := facts.(qcs := facts.qcs + {qc});
      prepareQC := qc;
      leader := leader.(preCommitSent := true);
      SendToAll(Consensus(ConsensusMessage(PreCommit, view, None, Some(qc), None)));
    }

    method LeaderOnPrepare(from: Address, vote: Vote, env: Env)
      requires Ready(c) && leader.prepareMessage.Some?
      modifies this
      ensures Snapshot() == AddPrepareVote(c, old(Snapshot()), from, vote, env)
    {
      hide GetQC, StoreAndAnnounce, OwnPreCommitVote;
      leader := leader.(prepares := leader.prepares[from := vote]);
      var qc := CollectVotes(c.members, leader.prepares, me, env.prepareOrder);
      if qc.Some? && !leader.preCommitSent {
        Prepared(qc.value);
        LeaderOwnPreCommit(env);
      }
    }

    method LeaderOwnPrepare(env: Env)
      requires Ready(c) && leader.prepareMessage.Some?
      modifies this
      ensures Snapshot() == OwnPrepareVote(c, old(Snapshot()), env)
    {
      var node := leader.prepareMessage.value.node;
      var sig := Signature(me, Prepare, view, node, currentLeader);
      facts := facts.(signed := facts.signed + {sig});
      LeaderOnPrepare(me, ConsensusMessage(Prepare, view, Some(node), None, Some(sig)), env);
    }

    method OnProposal(p: Proposal, env: Env)
      requires Ready(c) && leader.newViewSignal.Some?
      modifies this
      ensures Snapshot() == Propose(c, old(Snapshot()), p, env)
    {
      var node := Node(p.parentHash, p.blockHash);
      var highQC := leader.newViewSignal.value;
      leader := leader.(prepareMessage := Some(PrepareMessage(node, highQC)));
      facts := facts.(props := facts.props[view := PrepareMessage(node, highQC)]);
      SendToAll(ProposalResponse(p));
      SendToAll(Consensus(ConsensusMessage(Prepare, view, Some(node), Some(highQC), None)));
      assert Snapshot() == Announce(c, old(Snapshot()), p, highQC);
      LeaderOwnPrepare(env);
    }

    method CreateBlock(env: Env)
      requires Ready(c) && leader.newViewSignal.Some?
      modifies this
      ensures Snapshot() == CreateProposal(c, old(Snapshot()), env)
    {
      hide Propose;
      if committed != {} || env.builtBlock.None? { return; }
      var hash := env.builtBlock.value;
      var p := Proposal(c.base.node.blockHash, hash);
      params := Some(hash);
      proposals := proposals[hash := p];
      OnProposal(p, env);
    }

    method OnLocalProposal(p: Proposal, env: Env)
      requires Ready(c) && leader.newViewSignal.Some?
      modifies this
      ensures Snapshot() == ProposeKnown(c, old(Snapshot()), p, env)
    {
      if params != Some(p.blockHash) {
        if !env.buildOk { return; }
        params := Some(p.blockHash);
      }
      OnProposal(p, env);
    }

    method Reuse(hq: QC, env: Env)
      requires Ready(c) && leader.newViewSignal.Some?
      modifies this
      ensures Snapshot() == ReuseProposal(c, old(Snapshot()), hq, env)
    {
      var hash := hq.node.blockHash;
      if hash in proposals {
        OnLocalProposal(proposals[hash], env);
      } else if env.target in leader.newViews && leader.newViews[env.target].justify == Some(hq) && env.target != me {
        leader := leader.(pendingRemote := Some(hash));
        out := out + {Packet(me, env.target, ProposalRequest(hash))};
      } else {
        var holders := set a | a in leader.newViews && leader.newViews[a].justify == Some(hq) && a != me;
        if holders == {} { halted := true; }
      }
    }

    method DoWork(env: Env)
      requires Ready(c) && leader.newViewSignal.Some?
      modifies this
      ensures Snapshot() == Work(c, old(Snapshot()), env)
    {
      var hq := leader.newViewSignal.value;
      if hq.node.blockHash == c.base.node.blockHash {
        CreateBlock(env);
      } else if hq.node.parentHash == c.base.node.blockHash {
        Reuse(hq, env);
      }
    }

    method LeaderTryWork(schedule: bool, hq: Option<QC>, env: Env)
      requires Ready(c)
      modifies this
      ensures Snapshot() == TryWork(c, old(Snapshot()), schedule, hq, env)
    {
      if schedule { leader := leader.(scheduleSignal := true); }
      if hq.Some? { leader := leader.(newViewSignal := hq); }
      if leader.newViewSignal.Some? && leader.scheduleSignal && leader.prepareMessage.None? && leader.pendingRemote.None? {
        DoWork(env);
      }
    }

    method LeaderOnNewView(m: ConsensusMessage, from: Address, env: Env)
      requires Ready(c)
      modifies this
      ensures Snapshot() == LeaderNewView(c, old(Snapshot()), m, from, env)
    {
      if m.justify.None? { return; }
      var members := if m.justify.value.view == OwnBase(c, me).view then c.lastMembers else c.members;
      var ok := VerifyQC(m.justify.value, None, members);
      if !ok { return; }
      leader := leader.(newViews := leader.newViews[from := m]);
      var hq := CollectNewViews(c.members, leader.newViews, env.newViewOrder);
      if hq.Some? && leader.newViewSignal.None? {
        LeaderTryWork(false, hq, env);
      }
    }

    method LeaderOnMessage(m: ConsensusMessage, from: Address, env: Env)
      requires Ready(c)
      modifies this
      ensures Snapshot() == LeaderMessage(c, old(Snapshot()), m, from, env)
    {
      if m.view != view { return; }
      if m.messageType == NewView {
        LeaderOnNewView(m, from, env);
        return;
      }
      if leader.prepareMessage.None? || m.node != Some(leader.prepareMessage.value.node)
         || m.sig != Some(Signature(from, m.messageType, m.view, leader.prepareMessage.value.node, me)) {
        return;
      }
      match m.messageType {
        case Prepare => LeaderOnPrepare(from, m, env);
        case PreCommit => LeaderOnPreCommit(from, m, env);
        case Commit => LeaderOnCommit(from, m, env);
        case Decide =>
      }
    }

    method OnRemoteProposal(p: Proposal, env: Env)
      requires Ready(c)
      modifies this
      ensures Snapshot() == RemoteProposal(c, old(Snapshot()), p, env)
    {
      if leader.pendingRemote != Some(p.blockHash) || leader.newViewSignal.None? { return; }
      leader := leader.(pendingRemote := None);
      OnLocalProposal(p, env);
    }

    // ------------------------------------------------------------ replica

    method Vote(t: MessageType, node: Node)
      modifies this`out, this`facts
      ensures Snapshot() == SendVote(old(Snapshot()), t, node)
    {
      var sig := Signature(me, t, view, node, currentLeader);
      facts := facts.(signed := facts.signed + {sig});
      out := out + {Packet(me, currentLeader, Consensus(ConsensusMessage(t, view, Some(node), None, Some(sig))))};
    }

    method ReplicaOnPrepare(m: ConsensusMessage)
      requires Ready(c)
      modifies this`out, this`facts
      ensures Snapshot() == ReplicaPrepare(c, old(Snapshot()), m)
    {
      if m.justify.None? { return; }
      var justify := m.justify.value;
      var ok := VerifyQC(justify, None, if justify.view == OwnBase(c, me).view then c.lastMembers else c.members);
      if !ok || m.node.None? { return; }
      var node := m.node.value;
      if node.blockHash !in proposals || node.parentHash != proposals[node.blockHash].parentHash { return; }
      var base := c.base.node.blockHash;
      var extendsJustify := if justify.node.blockHash == base then node.parentHash == base
                            else node.blockHash == justify.node.blockHash;
      var extendsLocked := if lockedQC.node.blockHash == base then node.parentHash == base
                           else node.blockHash == lockedQC.node.blockHash;
      if extendsJustify && (extendsLocked || justify.view > lockedQC.view) {
        Vote(Prepare, node);
      }
    }

    method ReplicaOnPreCommit(m: ConsensusMessage)
      requires Ready(c)
      modifies this`out, this`facts, this`prepareQC
      ensures Snapshot() == ReplicaPreCommit(c, old(Snapshot()), m)
    {
      if m.justify.None? { return; }
      var ok := VerifyQC(m.justify.value, Some(Prepare), c.members);
      if ok {
        prepareQC := m.justify.value;
        Vote(PreCommit, m.justify.value.node);
      }
    }

    method ReplicaOnCommit(m: ConsensusMessage)
      requires Ready(c)
      modifies this`out, this`facts, this`lockedQC
      ensures Snapshot() == ReplicaCommit(c, old(Snapshot()), m)
    {
      if m.justify.None? { return; }
      var ok := VerifyQC(m.justify.value, Some(PreCommit), c.members);
      if ok {
        lockedQC := m.justify.value;
        Vote(Commit, m.justify.value.node);
      }
    }

    method ReplicaOnDecide(m: ConsensusMessage)
      requires Ready(c)
      modifies this`params, this`committed
      ensures Snapshot() == ReplicaDecide(c, old(Snapshot()), m)
    {
      if m.justify.None? { return; }
      var ok := VerifyQC(m.justify.value, Some(Commit), c.members);
      if ok { OnDecide(m.justify.value); }
    }

    method ReplicaOnMessage(m: ConsensusMessage, from: Address)
      requires Ready(c)
      modifies this
      ensures Snapshot() == ReplicaMessage(c, old(Snapshot()), m, from)
    {
      if m.messageType == NewView {
        pendingNewViews := pendingNewViews + [(m, from)];
      }
      if m.view != view { return; }
      match m.messageType {
        case NewView =>
        case Prepare => ReplicaOnPrepare(m);
        case PreCommit => ReplicaOnPreCommit(m);
        case Commit => ReplicaOnCommit(m);
        case Decide => ReplicaOnDecide(m);
      }
    }

    // ------------------------------------------------------------ views and timeouts

    method DrainPending(pending: seq<(ConsensusMessage, Address)>, envs: seq<Env>)
      requires Ready(c) && |envs| >= |pending|
      modifies this
      ensures Snapshot() == ProcessPending(c, old(Snapshot()), pending, envs)
    {
      hide LeaderNewView;
      for i := 0 to |pending|
        invariant ProcessPending(c, old(Snapshot()), pending, envs) == ProcessPending(c, Snapshot(), pending[i..], envs[i..])
      {
        assert pending[i..][1..] == pending[i + 1..] && envs[i..][1..] == envs[i + 1..];
        LeaderOnNewView(pending[i].0, pending[i].1, envs[i]);
      }
    }

    method RunView(envs: seq<Env>)
      requires Ready(c) && |envs| > |pendingNewViews|
      modifies this
      ensures Snapshot() == EnterView(c, old(Snapshot()), envs)
    {
      hide LeaderNewView, OwnLeader, ProcessPending;
      if OwnLeader(c, me, view) == me { WorkAsLeader(envs); } else { WorkAsReplica(); }
    }

    method WorkAsReplica()
      requires Ready(c) && OwnLeader(c, me, view) != me
      modifies this`currentLeader, this`running, this`isLeader, this`out
      ensures Snapshot() == SendNewView(old(Snapshot()).(st := old(Snapshot()).st.(running := Some(view), isLeader := false, currentLeader := OwnLeader(c, me, view))))
    {
      hide OwnLeader;
      currentLeader := OwnLeader(c, me, view);
      running := Some(view);
      isLeader := false;
      out := out + {Packet(me, currentLeader, Consensus(ConsensusMessage(NewView, view, None, Some(prepareQC), None)))};
    }

    method StartLeading()
      modifies this`currentLeader, this`running, this`isLeader, this`leader, this`pendingNewViews
      ensures Snapshot() == old(Snapshot()).(st := old(Snapshot()).st.(running := Some(view), isLeader := true, currentLeader := me,
                                                                       leader := FRESH_LEADER, pendingNewViews := []))
    {
      currentLeader := me;
      running := Some(view);
      isLeader := true;
      leader := FRESH_LEADER;
      pendingNewViews := [];
    }

    method WorkAsLeader(envs: seq<Env>)
      requires Ready(c) && |envs| > |pendingNewViews| && OwnLeader(c, me, view) == me
      modifies this
      ensures Snapshot() == EnterView(c, old(Snapshot()), envs)
    {
      hide LeaderNewView, OwnLeader, ProcessPending;
      var pending := pendingNewViews;
      StartLeading();
      DrainPending(pending, envs);
      LeaderOnNewView(ConsensusMessage(NewView, view, None, Some(prepareQC), None), me, envs[|pending|]);
    }

    method Advance(v: nat)
      modifies this`view, this`timeouts
      ensures Snapshot() == AdvanceView(old(Snapshot()), v)
    {
      view := v + 1;
      timeouts := map w | w in timeouts && w > v :: timeouts[w];
    }

    method Leave(tc: TC)
      modifies this
      ensures Snapshot() == LeaveView(c, old(Snapshot()), tc)
    {
      hide Broadcast;
      timeoutTC := Some(tc);
      Advance(tc.view);
      SendToAll(Timeout(TimeoutMessage(TimeoutDecide, tc.view, Some(tc), None)));
    }

    method Count(m: SignedTimeout, from: Address, env: Env)
      requires Ready(c)
      modifies this
      ensures Snapshot() == CountTimeout(c, old(Snapshot()), m, from, env)
    {
      hide CollectTC, LeaveView;
      var known := if m.view in timeouts then timeouts[m.view] else map[];
      timeouts := timeouts[m.view := if from in known then known else known[from := m]];
      var tc := CollectTimeouts(c.members, timeouts[m.view], env.timeoutOrder);
      if tc.Some? { Leave(tc.value); }
    }

    method NewTimeoutReceived(m: TimeoutMessage, from: Address, env: Env)
      requires Ready(c)
      modifies this
      ensures Snapshot() == OnNewTimeout(c, old(Snapshot()), m, from, env)
    {
      hide CountTimeout, AcceptsTC;
      if m.sig != Some(TimeoutSignature(from, m.view)) { return; }
      if m.justify.Some? && m.justify.value.view >= view {
        var ok := VerifyTC(m.justify.value, c.members);
        if !ok { return; }
        Advance(m.justify.value.view);
      }
      Count(m, from, env);
    }

    method TimeoutReceived(m: TimeoutMessage, from: Address, env: Env)
      requires Ready(c)
      modifies this
      ensures Snapshot() == OnTimeoutMessage(c, old(Snapshot()), m, from, env)
    {
      if m.view < view { return; }
      match m.messageType {
        case NewTimeout => NewTimeoutReceived(m, from, env);
        case TimeoutDecide =>
          if m.justify.None? { return; }
          var ok := VerifyTC(m.justify.value, c.members);
          if ok { Advance(m.justify.value.view); }
      }
    }

    method TimerExpired(env: Env)
      requires Ready(c)
      modifies this
      ensures Snapshot() == OnTimeout(c, old(Snapshot()), env)
    {
      var m := TimeoutMessage(NewTimeout, view, timeoutTC, Some(TimeoutSignature(me, view)));
      TimeoutReceived(m, me, env);
      SendToAll(Timeout(m));
    }

    // ------------------------------------------------------------ proposals

    method ProposalReceived(p: Proposal, env: Env)
      modifies this
      ensures Snapshot() == OnProposalResponse(c, old(Snapshot()), p, env)
    {
      if env.acceptProposal && committed == {} && p.parentHash == c.base.node.blockHash && p.blockHash != c.base.node.blockHash {
        params := Some(p.blockHash);
        proposals := proposals[p.blockHash := p];
      }
      internalProposals := internalProposals + {p};
    }

    method ProposalRequested(from: Address, hash: Hash)
      modifies this`out
      ensures Snapshot() == OnProposalRequest(old(Snapshot()), from, hash)
    {
      if hash in proposals {
        out := out + {Packet(me, from, ProposalResponse(proposals[hash]))};
      }
    }

    method ReceivePacket(p: Packet, env: Env)
      requires Ready(c)
      modifies this
      ensures Snapshot() == Receive(c, old(Snapshot()), p, env)
    {
      match p.payload {
        case Consensus(m) =>
          var member := IsMember(c.members, p.from);
          if member && isLeader {
            LeaderOnMessage(m, p.from, env);
          } else if member {
            ReplicaOnMessage(m, p.from);
          }
        case Timeout(m) => TimeoutReceived(m, p.from, env);
        case ProposalRequest(hash) => ProposalRequested(p.from, hash);
        case ProposalResponse(proposal) => ProposalReceived(proposal, env);
      }
    }

    // ------------------------------------------------------------ the validator among the others
    //
    // `nodes` are the states of all validators. Whatever reaches a validator, its state keeps the
    // invariant that agreement rests on; its view, prepare QC and lock do not go back, what it decided
    // stays decided, and the facts grow by its own signatures and proposals alone.

    method Enter(ghost nodes: Nodes, envs: seq<Env>)
      requires LocalInv(c, nodes, Snapshot()) && Ready(c) && running != Some(view)
      requires |envs| > |pendingNewViews| && forall i :: 0 <= i < |envs| ==> ValidEnv(c, envs[i])
      modifies this
      ensures LocalInv(c, nodes, Snapshot()) && Progress(c, old(Snapshot()), Snapshot())
      ensures Enters(c, old(Snapshot()), Snapshot())
      ensures running == Some(view) && view == old(view) && currentLeader == LeaderOf(c, view) && isLeader == (currentLeader == me)
    {
      hide LocalInv, Progress, EnterView, LeaderOf, Enters, Filed, ValidConfig;
      ghost var l := Snapshot();
      GoodIsInOrder(c, nodes, l);
      EnterDoes(c, l, envs);
      if LeaderOf(c, view) == me { LeadView(c, nodes, l, envs); } else { FollowView(c, nodes, l, envs); }
      EnteredRole(c, nodes, l, envs);
      RunView(envs);
    }

    method Deliver(ghost nodes: Nodes, p: Packet, env: Env)
      requires LocalInv(c, nodes, Snapshot()) && Ready(c) && running == Some(view) && ValidEnv(c, env)
      requires PacketOk(c, facts, p) && p.to == me
      modifies this
      ensures LocalInv(c, nodes, Snapshot()) && Progress(c, old(Snapshot()), Snapshot())
      ensures Answers(c, old(Snapshot()), p, env, Snapshot())
    {
      hide LocalInv, Progress, Receive, Answers, InOrder, ValidConfig;
      GoodIsInOrder(c, nodes, Snapshot());
      ReceiveAnswers(c, Snapshot(), p, env);
      ReceiveStep(c, nodes, Snapshot(), p, env);
      ReceivePacket(p, env);
    }

    method Tick(ghost nodes: Nodes, env: Env)
      requires LocalInv(c, nodes, Snapshot()) && Ready(c) && running == Some(view) && isLeader && ValidEnv(c, env)
      modifies this
      ensures LocalInv(c, nodes, Snapshot()) && Progress(c, old(Snapshot()), Snapshot())
      ensures Signals(c, Scheduled(old(Snapshot())), env, Snapshot())
    {
      hide LocalInv, Progress, TryWork, Signals, Filed, ValidConfig;
      GoodIsInOrder(c, nodes, Snapshot());
      TickDoes(c, Snapshot(), env);
      TryWorkStep(c, nodes, Snapshot(), true, None, env);
      LeaderTryWork(true, None, env);
    }

    method HandleProposal(ghost nodes: Nodes, p: Proposal, env: Env)
      requires LocalInv(c, nodes, Snapshot()) && Ready(c) && running == Some(view) && isLeader && ValidEnv(c, env)
      requires p in internalProposals
      modifies this
      ensures LocalInv(c, nodes, Snapshot()) && Progress(c, old(Snapshot()), Snapshot())
      ensures Resumes(c, old(Snapshot()), p, env, Snapshot())
    {
      hide LocalInv, Progress, RemoteProposal, Resumes;
      RemoteDoes(c, Snapshot(), p, env);
      RemoteStep(c, nodes, Snapshot(), p, env);
      OnRemoteProposal(p, env);
    }

    method Expire(ghost nodes: Nodes, env: Env)
      requires LocalInv(c, nodes, Snapshot()) && Ready(c) && running == Some(view) && ValidEnv(c, env)
      modifies this
      ensures LocalInv(c, nodes, Snapshot()) && Progress(c, old(Snapshot()), Snapshot())
      ensures Expires(c, old(Snapshot()), Snapshot())
    {
      hide LocalInv, Progress, OnTimeout, Expires, TimeoutsFiled, ValidConfig;
      GoodIsInOrder(c, nodes, Snapshot());
      ExpireDoes(c, Snapshot(), env);
      ExpireStep(c, nodes, Snapshot(), env);
      TimerExpired(env);
    }

    /** A crash and the start after it: the storage is refreshed, the rest is lost. */
    method Reboot(ghost nodes: Nodes)
      requires LocalInv(c, nodes, Snapshot()) && Ready(c) && !(running == Some(view) && isLeader)
      modifies this
      ensures LocalInv(c, nodes, Snapshot()) && Progress(c, old(Snapshot()), Snapshot())
      ensures view == old(view) && proposals == old(proposals) && committed == old(committed) && facts == old(facts)
      ensures params == None && running == None && !isLeader && leader == FRESH_LEADER && out == old(out)
      ensures pendingNewViews == [] && internalProposals == {} && timeouts == map[] && timeoutTC == None
      ensures prepareQC == old(prepareQC) || (old(prepareQC).view <= OwnBase(c, me).view && prepareQC == OwnBase(c, me))
      ensures lockedQC == old(lockedQC) || (old(lockedQC).view <= OwnBase(c, me).view && lockedQC == OwnBase(c, me))
    {
      hide LocalInv, Progress;
      RestartStep(c, nodes, Snapshot());
      RefreshedView(c, nodes, Snapshot());
      ForgetRole();
      ForgetMessages();
      RefreshStored();
    }

    method RefreshStored()
      modifies this`view, this`prepareQC, this`lockedQC
      ensures var (base, l) := (OwnBase(c, me), old(Snapshot()));
        Snapshot() == l.(st := l.st.(view := RaisedView(base, l.st.view), prepareQC := RaisedQC(base, l.st.prepareQC), lockedQC := RaisedQC(base, l.st.lockedQC)))
    {
      var base := OwnBase(c, me);
      view := if view < base.view + 1 then base.view + 1 else view;
      prepareQC := if prepareQC.view <= base.view then base else prepareQC;
      lockedQC := if lockedQC.view <= base.view then base else lockedQC;
    }

    method ForgetRole()
      modifies this`params, this`running, this`isLeader, this`leader
      ensures var l := old(Snapshot());
        Snapshot() == l.(st := l.st.(params := None, running := None, isLeader := false, leader := FRESH_LEADER))
    {
      params, running, isLeader, leader := None, None, false, FRESH_LEADER;
    }

    method ForgetMessages()
      modifies this`pendingNewViews, this`internalProposals, this`timeouts, this`timeoutTC
      ensures var l := old(Snapshot());
        Snapshot() == l.(st := l.st.(pendingNewViews := [], internalProposals := {}, timeouts := map[], timeoutTC := None))
    {
      pendingNewViews, internalProposals, timeouts, timeoutTC := [], {}, map[], None;
    }
  }

  /** The role a validator has after entering a view. */
  lemma EnteredRole(c: Config, nodes: Nodes, l: Local, envs: seq<Env>)
    requires LocalInv(c, nodes, l) && !Running(l.st) && Ready(c)
    requires |envs| > |l.st.pendingNewViews| && forall i :: 0 <= i < |envs| ==> ValidEnv(c, envs[i])
    ensures var st := EnterView(c, l, envs).st;
      Running(st) && st.view == l.st.view && st.currentLeader == LeaderOf(c, st.view) && (st.isLeader <==> st.currentLeader == l.me)
  {
    OwnLeaderHere(c, nodes, l);
    if LeaderOf(c, l.st.view) == l.me {
      LeadView(c, nodes, l, envs);
      hide LocalInv, EnterView;
      LeaderParts(c, nodes, EnterView(c, l, envs));
    }
  }
}
