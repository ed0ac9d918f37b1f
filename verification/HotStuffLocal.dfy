/** How the elementary changes a handler makes keep the invariant of the validator it runs on. */
module HotStuffLocal {
  import opened Authorities
  import opened HotStuffTypes
  import opened HotStuffCollectors
  import opened HotStuffNode
  import opened HotStuffCore
  import opened HotStuffCoreSteps
  import opened HotStuffSystem

  type Nodes = map<Address, NodeState>

  // ---------------------------------------------------------------- growing facts

  ghost predicate Extends(f: Facts, f': Facts) {
    && (forall w :: w in f.props ==> w in f'.props && f'.props[w] == f.props[w])
    && f.signed <= f'.signed && f.qcs <= f'.qcs
  }

  lemma PacketsGrow(c: Config, f: Facts, f': Facts, ps: set<Packet>)
    requires Extends(f, f') && PacketsOk(c, f, ps)
    ensures PacketsOk(c, f', ps)
  {
    forall p | p in ps ensures PacketOk(c, f', p) { assert PacketOk(c, f, p); }
  }

  lemma BallotGrows(f: Facts, f': Facts, votes: map<Address, Vote>, t: MessageType, w: nat, node: Node, a: Address)
    requires Extends(f, f') && BallotOk(f, votes, t, w, node, a)
    ensures BallotOk(f', votes, t, w, node, a)
  {
  }

  /** `f'` adds nothing that concerns the current view of `a`: no old vote of `a`, no proposal. */
  ghost predicate QuietFor(c: Config, f: Facts, f': Facts, a: Address, w: nat)
    requires Ready(c)
  {
    && Extends(f, f')
    && (forall g :: g in f'.signed && g !in f.signed && g.signer == a ==> g.view >= w)
    && (LeaderOf(c, w) == a && w in f'.props ==> w in f.props)
  }

  lemma RoleGrows(c: Config, f: Facts, f': Facts, a: Address, st: NodeState)
    requires ValidConfig(c) && QuietFor(c, f, f', a, st.view) && RoleOk(c, f, a, st)
    ensures RoleOk(c, f', a, st)
  {
    if Running(st) && st.isLeader && st.leader.prepareMessage.Some? {
      var node := st.leader.prepareMessage.value.node;
      BallotGrows(f, f', st.leader.prepares, Prepare, st.view, node, a);
      BallotGrows(f, f', st.leader.preCommits, PreCommit, st.view, node, a);
      BallotGrows(f, f', st.leader.commits, Commit, st.view, node, a);
    }
  }

  lemma MemoryGrows(c: Config, f: Facts, f': Facts, a: Address, st: NodeState)
    requires Extends(f, f') && MemoryOk(c, f, a, st)
    ensures MemoryOk(c, f', a, st)
  {
    forall h | h in st.committed ensures CommitFact(f', h) {
      var q :| q in f.qcs && q.messageType == Commit && q.node.blockHash == h;
      assert q in f'.qcs;
    }
  }

  lemma NodeGrows(c: Config, f: Facts, f': Facts, a: Address, st: NodeState)
    requires ValidConfig(c) && QuietFor(c, f, f', a, st.view) && NodeOk(c, f, a, st)
    ensures NodeOk(c, f', a, st)
  {
    RoleGrows(c, f, f', a, st);
    MemoryGrows(c, f, f', a, st);
    hide RoleOk, MemoryOk, TimeoutsOk;
  }

  // ---------------------------------------------------------------- the core seen by one validator

  lemma CoreHere(nodes: Nodes, l: Local)
    ensures var k := CoreOf(nodes, l);
      && l.me in k.views && l.me in k.preps && l.me in k.locks
      && k.views[l.me] == l.st.view && k.preps[l.me] == l.st.prepareQC && k.locks[l.me] == l.st.lockedQC
      && k.f == l.facts
  {
  }

  /** One validator's entries are all that its own state adds to the core. */
  lemma CoreIs(nodes: Nodes, l: Local)
    ensures var k := CoreOf(nodes, l);
      && k.views == ViewsOf(nodes)[l.me := l.st.view] && k.preps == PrepsOf(nodes)[l.me := l.st.prepareQC]
      && k.locks == LocksOf(nodes)[l.me := l.st.lockedQC] && k.f == l.facts
  {
    var nodes' := nodes[l.me := l.st];
    assert ViewsOf(nodes') == ViewsOf(nodes)[l.me := l.st.view];
    assert PrepsOf(nodes') == PrepsOf(nodes)[l.me := l.st.prepareQC];
    assert LocksOf(nodes') == LocksOf(nodes)[l.me := l.st.lockedQC];
  }

  lemma CoreSame(nodes: Nodes, l: Local, l': Local)
    requires l.me == l'.me && l.facts == l'.facts
    requires l.st.view == l'.st.view && l.st.prepareQC == l'.st.prepareQC && l.st.lockedQC == l'.st.lockedQC
    ensures CoreOf(nodes, l) == CoreOf(nodes, l')
  {
    CoreIs(nodes, l);
    CoreIs(nodes, l');
    hide CoreOf, ViewsOf, PrepsOf, LocksOf;
  }

  lemma LocalParts(c: Config, nodes: Nodes, l: Local)
    requires LocalInv(c, nodes, l)
    ensures ValidConfig(c) && CoreInv(c, CoreOf(nodes, l)) && NodeOk(c, l.facts, l.me, l.st) && PacketsOk(c, l.facts, l.out)
    ensures Domain(c, CoreOf(nodes, l))
    ensures StoredOk(c, CoreOf(nodes, l), l.me)
  {
    CoreHere(nodes, l);
    StoredOf(c, CoreOf(nodes, l), l.me);
  }

  /** A change that leaves view, prepare QC, lock and facts alone and keeps the node in order. */
  lemma SetState(c: Config, nodes: Nodes, l: Local, l': Local)
    requires LocalInv(c, nodes, l) && l'.me == l.me && l'.facts == l.facts
    requires l.st.view == l'.st.view && l.st.prepareQC == l'.st.prepareQC && l.st.lockedQC == l'.st.lockedQC
    requires NodeOk(c, l'.facts, l'.me, l'.st) && PacketsOk(c, l'.facts, l'.out)
    ensures LocalInv(c, nodes, l')
  {
    hide CoreInv, NodeOk, PacketsOk;
    CoreSame(nodes, l, l');
  }

  lemma SetLeader(c: Config, nodes: Nodes, l: Local, ls: LeaderState)
    requires LeaderInv(c, nodes, l)
    requires NewViewsOk(c, l.facts, l.me, l.st.view, ls) && BallotsOk(l.facts, l.me, l.st.view, ls)
    ensures LeaderInv(c, nodes, WithLeader(l, ls))
  {
    hide CoreInv, NewViewsOk, BallotsOk, PacketsOk;
    SetState(c, nodes, l, WithLeader(l, ls));
  }

  lemma Send(c: Config, nodes: Nodes, l: Local, ps: set<Packet>)
    requires LocalInv(c, nodes, l) && PacketsOk(c, l.facts, ps)
    ensures LocalInv(c, nodes, SendOut(l, ps))
  {
    hide CoreInv, NodeOk;
    forall p | p in l.out + ps ensures PacketOk(c, l.facts, p) {}
    CoreSame(nodes, l, SendOut(l, ps));
  }

  lemma BroadcastOk(c: Config, f: Facts, me: Address, payload: Payload)
    requires forall to :: to != me ==> PacketOk(c, f, Packet(me, to, payload))
    ensures PacketsOk(c, f, Broadcast(c, me, payload))
  {
  }

  // ---------------------------------------------------------------- signing, proposing, certifying, storing

  lemma SignGrows(c: Config, l: Local, g: Signature)
    requires ValidConfig(c) && g.view == l.st.view && g.signer == l.me
    ensures QuietFor(c, l.facts, Sign(l, g).facts, l.me, l.st.view)
    ensures Grows(c, l.me, l.facts, Sign(l, g).facts)
  {
  }

  lemma SignLocal(c: Config, nodes: Nodes, l: Local, g: Signature)
    requires LocalInv(c, nodes, l) && Ready(c) && Domain(c, CoreOf(nodes, l))
    requires g.signer == l.me && g.view == l.st.view && MaySign(c, CoreOf(nodes, l), g)
    ensures LocalInv(c, nodes, Sign(l, g)) && Grows(c, l.me, l.facts, Sign(l, g).facts)
  {
    LocalParts(c, nodes, l);
    SignVote(c, CoreOf(nodes, l), g);
    SignGrows(c, l, g);
    NodeGrows(c, l.facts, Sign(l, g).facts, l.me, l.st);
    PacketsGrow(c, l.facts, Sign(l, g).facts, l.out);
    hide CoreInv, NodeOk, PacketsOk, MaySign;
    assert CoreOf(nodes, Sign(l, g)) == Signed(CoreOf(nodes, l), g);
  }

  lemma FormGrows(c: Config, l: Local, q: QC)
    requires ValidConfig(c)
    ensures QuietFor(c, l.facts, FormQC(l, q).facts, l.me, l.st.view)
    ensures Grows(c, l.me, l.facts, FormQC(l, q).facts)
  {
  }

  lemma FormLocal(c: Config, nodes: Nodes, l: Local, q: QC)
    requires LocalInv(c, nodes, l) && Ready(c) && QcOk(c, l.facts, q)
    ensures LocalInv(c, nodes, FormQC(l, q)) && Grows(c, l.me, l.facts, FormQC(l, q).facts)
  {
    LocalParts(c, nodes, l);
    FormQuorumCertificate(c, CoreOf(nodes, l), q);
    FormGrows(c, l, q);
    NodeGrows(c, l.facts, FormQC(l, q).facts, l.me, l.st);
    PacketsGrow(c, l.facts, FormQC(l, q).facts, l.out);
    hide CoreInv, NodeOk, PacketsOk, QcOk;
    assert CoreOf(nodes, FormQC(l, q)) == Formed(CoreOf(nodes, l), q);
  }

  lemma NodeSameMemory(c: Config, f: Facts, a: Address, st: NodeState, st': NodeState)
    requires ValidConfig(c) && NodeOk(c, f, a, st) && st' == st.(prepareQC := st'.prepareQC, lockedQC := st'.lockedQC)
    ensures NodeOk(c, f, a, st')
  {
    hide NewViewsOk, BallotsOk;
  }

  function WithPrepareQC(l: Local, q: QC): Local {
    l.(st := l.st.(prepareQC := q))
  }

  lemma PrepareCore(nodes: Nodes, l: Local, q: QC)
    ensures var k := CoreOf(nodes, l); CoreOf(nodes, WithPrepareQC(l, q)) == k.(preps := k.preps[l.me := q])
  {
    CoreIs(nodes, l);
    CoreIs(nodes, WithPrepareQC(l, q));
    hide CoreOf, ViewsOf, PrepsOf, LocksOf;
  }

  lemma StorePrepareLocal(c: Config, nodes: Nodes, l: Local, q: QC)
    requires LocalInv(c, nodes, l) && q in l.facts.qcs && q.messageType == Prepare && q.view == l.st.view
    ensures LocalInv(c, nodes, WithPrepareQC(l, q))
  {
    hide CoreInv, PacketsOk, NodeOk;
    LocalParts(c, nodes, l);
    CoreHere(nodes, l);
    var l' := WithPrepareQC(l, q);
    NodeSameMemory(c, l.facts, l.me, l.st, l'.st);
    StorePrepareQC(c, CoreOf(nodes, l), l.me, q);
    PrepareCore(nodes, l, q);
    hide CoreOf;
  }

  function WithLock(l: Local, q: QC): Local {
    l.(st := l.st.(lockedQC := q))
  }

  lemma LockCore(nodes: Nodes, l: Local, q: QC)
    ensures var k := CoreOf(nodes, l); CoreOf(nodes, WithLock(l, q)) == k.(locks := k.locks[l.me := q])
  {
    CoreIs(nodes, l);
    CoreIs(nodes, WithLock(l, q));
    hide CoreOf, ViewsOf, PrepsOf, LocksOf;
  }

  lemma StoreLockLocal(c: Config, nodes: Nodes, l: Local, q: QC)
    requires LocalInv(c, nodes, l) && q in l.facts.qcs && q.messageType == PreCommit && q.view == l.st.view
    ensures LocalInv(c, nodes, WithLock(l, q))
  {
    hide CoreInv, PacketsOk, NodeOk;
    LocalParts(c, nodes, l);
    CoreHere(nodes, l);
    var l' := WithLock(l, q);
    NodeSameMemory(c, l.facts, l.me, l.st, l'.st);
    StoreLock(c, CoreOf(nodes, l), l.me, q);
    LockCore(nodes, l, q);
    hide CoreOf;
  }
}
