/** From one height to the next: what the end of a height leaves in the storages is a start of the
    next one, so that agreement holds height after height. */
module HotStuffHeights {
  import opened Authorities
  import opened HotStuffTypes
  import opened HotStuffNode
  import opened HotStuffCore
  import opened HotStuffSystem
  import opened HotStuffLocal
  import opened HotStuffCoreSteps
  import opened HotStuffRotation
  import opened HotStuffSafety
  import HotStuffStorage

  // ---------------------------------------------------------------- the end of a height

  /** A validator's storage, refreshed on its commit QC of the block the height decided. */
  predicate Refreshed(base: QC, before: NodeState, st: NodeState) {
    && st.view == RaisedView(base, before.view)
    && st.prepareQC == RaisedQC(base, before.prepareQC) && st.lockedQC == RaisedQC(base, before.lockedQC)
  }

  predicate Blank(c: Config, st: NodeState) {
    && (forall h :: h in st.proposals ==> ProposalOk(c, st.proposals[h]) && st.proposals[h].blockHash == h) && st.params == None
    && st.running == None && !st.isLeader && st.leader == FRESH_LEADER
    && st.pendingNewViews == [] && st.internalProposals == {} && st.timeouts == map[] && st.timeoutTC == None
    && st.committed == {} && !st.halted
  }

  predicate Carries(c': Config, f: Facts, a: Address, before: NodeState, st: NodeState) {
    && a in c'.bases && a in c'.starts && c'.starts[a] == st.view
    && c'.bases[a] in f.qcs && c'.bases[a].messageType == Commit && c'.base.view <= c'.bases[a].view
    && Refreshed(c'.bases[a], before, st) && Blank(c', st)
  }

  /** The next height over the same authorities: every validator holds some commit QC formed in the
      height that ended, and a leader whose view was certified has left that view. */
  ghost predicate Follows(c: Config, s: Sys, c': Config, s': Sys)
    requires Ready(c)
  {
    && c'.members == c.members && c'.lastMembers == c.members
    && s'.nodes.Keys == s.nodes.Keys == c'.starts.Keys == c'.bases.Keys
    && s'.net == {} && s'.facts == NO_FACTS
    && (forall a :: a in s.nodes ==> Carries(c', s.facts, a, s.nodes[a], s'.nodes[a]))
    && (exists a :: a in c'.bases && c'.base == c'.bases[a])
    && (exists q :: Held(c', s', q) && q.view == c'.top)
    && (forall q :: Held(c', s', q) ==> q.view <= c'.top)
    && (forall q :: Held(c', s', q) && LeaderOf(c, q.view) in c'.starts ==> c'.starts[LeaderOf(c, q.view)] > q.view)
  }

  /** A certificate of the height, not below a commit QC of it, is for the committed block. */
  lemma SameNode(c: Config, k: Core, base: QC, q: QC)
    requires CoreInv(c, k) && base in k.f.qcs && base.messageType == Commit && q in k.f.qcs && q.view >= base.view
    ensures q.node == base.node
  {
    assert QcOk(c, k.f, q) && QcOk(c, k.f, base);
    assert PropOk(c, k, q.view) && PropOk(c, k, base.view);
    PreparedToo(c, k, q);
    var p :| p in k.f.qcs && p.messageType == Prepare && p.view == q.view;
    assert QcOk(c, k.f, p);
    CommitExcludes(c, k, base, p);
  }

  lemma PreparedToo(c: Config, k: Core, q: QC)
    requires CoreInv(c, k) && q in k.f.qcs
    ensures HasQC(k.f, Prepare, q.view)
  {
    hide ValidStart, NoConflict, HeavyLeaders, ReplicasSafe;
    assert QcOk(c, k.f, q);
    if q.messageType == Commit { CommitNeedsPrepare(c, k, q); }
  }

  /** A quorum has reached the view of every certificate. */
  lemma QuorumReached(c: Config, k: Core, q: QC, starts: map<Address, nat>)
    requires CoreInv(c, k) && q in k.f.qcs && starts.Keys == k.views.Keys
    requires forall a :: a in starts ==> starts[a] >= k.views[a]
    ensures IsQuorum(c.members, set a | a in starts && starts[a] >= q.view)
  {
    hide ValidStart, NoConflict, HeavyLeaders, ReplicasSafe, PhasesOk, CommitsLocked, PreCommitsStored, AllStoredOk, PropsOk;
    assert QcOk(c, k.f, q);
    var (s, r) := (Elements(Signers(q.sigs)), set a | a in starts && starts[a] >= q.view);
    forall a | a in s ensures a in r { QcSigners(c, k, q, a); }
    WeightMonotone(c.members, s, r);
  }

  lemma FollowsAt(c: Config, s: Sys, c': Config, s': Sys, a: Address)
    requires Ready(c) && Follows(c, s, c', s') && a in s'.nodes
    ensures a in s.nodes && Carries(c', s.facts, a, s.nodes[a], s'.nodes[a])
  {
    hide Held, Carries;
  }

  lemma FollowsBase(c: Config, s: Sys, c': Config, s': Sys) returns (a: Address)
    requires Ready(c) && Follows(c, s, c', s')
    ensures a in s.nodes && a in s'.nodes && a in c'.bases && c'.base == c'.bases[a]
  {
    hide Held, Carries;
    a :| a in c'.bases && c'.base == c'.bases[a];
  }

  lemma FollowsTop(c: Config, s: Sys, c': Config, s': Sys, q: QC)
    requires Ready(c) && Follows(c, s, c', s') && Held(c', s', q)
    ensures q.view <= c'.top && (LeaderOf(c, q.view) in c'.starts ==> c'.starts[LeaderOf(c, q.view)] > q.view)
  {
    hide Held, Carries;
  }

  lemma FollowsStarts(c: Config, s: Sys, c': Config, s': Sys)
    requires Inv(c, s) && Ready(c) && Follows(c, s, c', s')
    ensures var k := CoreAt(s.nodes, s.facts); c'.starts.Keys == k.views.Keys && forall a :: a in c'.starts ==> c'.starts[a] >= k.views[a]
  {
    hide Inv, Held;
    forall a | a in c'.starts ensures c'.starts[a] >= s.nodes[a].view { FollowsAt(c, s, c', s', a); }
  }

  /** What the refreshed storage holds, is the base QC or a later certificate of the ended height. */
  lemma RaisedIsFormed(c: Config, s: Sys, c': Config, s': Sys, a: Address)
    requires Inv(c, s) && Ready(c) && Follows(c, s, c', s') && a in s'.nodes
    ensures s'.nodes[a].prepareQC in s.facts.qcs && s'.nodes[a].lockedQC in s.facts.qcs
  {
    FollowsAt(c, s, c', s', a);
    hide NodesOk, PacketsOk, Follows, Blank;
    var k := CoreAt(s.nodes, s.facts);
    var base := c'.bases[a];
    StoredOf(c, k, a);
    assert QcOk(c, k.f, base);
    AboveTop(c, k, base);
  }

  lemma EndCore(c: Config, s: Sys)
    requires Inv(c, s)
    ensures CoreInv(c, CoreAt(s.nodes, s.facts)) && Ready(c) && Domain(c, CoreAt(s.nodes, s.facts))
  {
    InvReady(c, s);
    hide NodesOk, PacketsOk;
  }

  lemma HeldFormed(c: Config, s: Sys, c': Config, s': Sys, q: QC)
    requires Inv(c, s) && Ready(c) && Follows(c, s, c', s') && Held(c', s', q)
    ensures q in s.facts.qcs && q.view >= c'.base.view
  {
    hide Inv, Blank, Follows;
    var a :| a in s'.nodes && (q == s'.nodes[a].prepareQC || q == s'.nodes[a].lockedQC || q == OwnBase(c', a));
    RaisedIsFormed(c, s, c', s', a);
    FollowsAt(c, s, c', s', a);
  }

  lemma HeldLeftBehind(c: Config, s: Sys, c': Config, s': Sys, q: QC)
    requires Inv(c, s) && Ready(c) && Follows(c, s, c', s') && Held(c', s', q) && Ready(c') && c'.members == c.members
    ensures LeftBehind(c', q) && BaseCert(c', q)
  {
    hide Inv, Follows, Held, CoreInv, IsQuorum, LeaderOf;
    HeldFormed(c, s, c', s', q);
    EndCore(c, s);
    var k := CoreAt(s.nodes, s.facts);
    var b := FollowsBase(c, s, c', s');
    FollowsAt(c, s, c', s', b);
    SameNode(c, k, c'.base, q);
    FollowsStarts(c, s, c', s');
    QuorumReached(c, k, q, c'.starts);
    assert Reached(c', q.view) == set a | a in c'.starts && c'.starts[a] >= q.view;
    FollowsTop(c, s, c', s', q);
    NextLeader(c, s, c', s', q.view);
  }

  lemma NextLeader(c: Config, s: Sys, c': Config, s': Sys, view: nat)
    requires Inv(c, s) && Ready(c) && Follows(c, s, c', s') && view >= c'.base.view
    ensures LeaderOf(c', view) == LeaderOf(c, view)
  {
    hide Inv, Blank, CoreInv, Held;
    EndCore(c, s);
    var b := FollowsBase(c, s, c', s');
    FollowsAt(c, s, c', s', b);
    BaseAbove(c, CoreAt(s.nodes, s.facts), c'.base);
    RebaseKeepsLeader(c, c', view);
  }

  lemma BaseAbove(c: Config, k: Core, q: QC)
    requires CoreInv(c, k) && q in k.f.qcs
    ensures q.view > c.base.view && q.leader == LeaderOf(c, q.view) && ValidConfig(c)
  {
    assert QcOk(c, k.f, q);
    assert PropOk(c, k, q.view);
  }

  lemma NextValid(c: Config, s: Sys, c': Config, s': Sys)
    requires Inv(c, s) && Ready(c) && Follows(c, s, c', s')
    ensures ValidConfig(c') && Ready(c')
  {
    hide Inv, Blank, CoreInv, Held;
    EndCore(c, s);
    var b := FollowsBase(c, s, c', s');
    FollowsAt(c, s, c', s', b);
    BaseAbove(c, CoreAt(s.nodes, s.facts), c'.base);
    var i := LeaderIndex(c, c'.base.view);
    assert c.members[i].address == c'.base.leader;
  }

  /** A commit QC formed in a height was made by the leader of its view, so whichever of them a validator
      takes as its base, it goes on with the same rotation. */
  lemma NextMatches(c: Config, s: Sys, c': Config, s': Sys, a: Address)
    requires Inv(c, s) && Ready(c) && Follows(c, s, c', s') && Ready(c') && c'.members == c.members && a in s'.nodes
    ensures a in c'.bases && BaseMatches(c', c'.bases[a])
  {
    hide Inv, Blank, CoreInv, Held, LeaderOf;
    EndCore(c, s);
    FollowsAt(c, s, c', s', a);
    BaseAbove(c, CoreAt(s.nodes, s.facts), c'.bases[a]);
    NextLeader(c, s, c', s', c'.bases[a].view);
    assert c'.lastMembers == c'.members;
  }

  lemma StartedNext(c: Config, s: Sys, c': Config, s': Sys, a: Address)
    requires Inv(c, s) && Ready(c) && Follows(c, s, c', s') && Ready(c') && c'.members == c.members && a in s'.nodes
    ensures a in c'.bases && BaseCert(c', c'.bases[a]) && Started(c', a, s'.nodes[a])
  {
    hide Inv, LeftBehind, Follows, BaseCert, ProposalOk;
    var st := s'.nodes[a];
    FollowsAt(c, s, c', s', a);
    assert Held(c', s', c'.bases[a]) && Held(c', s', st.prepareQC) && Held(c', s', st.lockedQC);
    HeldLeftBehind(c, s, c', s', c'.bases[a]);
    HeldLeftBehind(c, s, c', s', st.prepareQC);
    HeldLeftBehind(c, s, c', s', st.lockedQC);
    EndBounds(c, s, a);
  }

  lemma EndBounds(c: Config, s: Sys, a: Address)
    requires Inv(c, s) && a in s.nodes
    ensures s.nodes[a].prepareQC.view <= s.nodes[a].view && s.nodes[a].lockedQC.view <= s.nodes[a].view
  {
    StoredBounds(c, s, a);
  }

  lemma FollowsShape(c: Config, s: Sys, c': Config, s': Sys)
    requires Ready(c) && Follows(c, s, c', s')
    ensures c'.members == c.members && s'.nodes.Keys == s.nodes.Keys == c'.starts.Keys == c'.bases.Keys
    ensures s'.net == {} && s'.facts == NO_FACTS && exists q :: Held(c', s', q) && q.view == c'.top
  {
    hide Held, Carries;
  }

  /** The end of a height, refreshed, is a start of the next one. */
  lemma NextHeightStarts(c: Config, s: Sys, c': Config, s': Sys)
    requires Inv(c, s) && Ready(c) && Follows(c, s, c', s')
    ensures Init(c', s')
  {
    hide Inv, Started, LeftBehind, Follows, Held, BaseCert, BaseMatches;
    EndDomain(c, s);
    NextValid(c, s, c', s');
    FollowsShape(c, s, c', s');
    forall a | a in s'.nodes ensures BaseCert(c', c'.bases[a]) && BaseMatches(c', c'.bases[a]) && Started(c', a, s'.nodes[a]) {
      StartedNext(c, s, c', s', a);
      NextMatches(c, s, c', s', a);
    }
    forall q | Held(c', s', q) ensures LeftBehind(c', q) { HeldLeftBehind(c, s, c', s', q); }
  }

  lemma EndDomain(c: Config, s: Sys)
    requires Inv(c, s)
    ensures ValidConfig(c) && s.nodes.Keys == AddressSet(c.members)
  {
    hide NodesOk, PacketsOk, ValidStart, SignedOk, QcsOk, PropsOk, AllStoredOk, PreCommitsStored, CommitsLocked, PhasesOk, ReplicasSafe, HeavyLeaders, NoConflict;
  }

  /** `Storage::refresh` is what takes a validator from one height to the next. */
  method RefreshStorage(store: HotStuffStorage.Storage, ghost before: NodeState, proof: QC, confirmed: Hash)
    requires store.genesis.view == 0
    requires store.db.view == Some(before.view) && store.db.prepareQC == Some(before.prepareQC) && store.db.lockedQC == Some(before.lockedQC)
    modifies store
    ensures Refreshed(proof, before, before.(view := store.view, prepareQC := store.prepareQC, lockedQC := store.lockedQC))
    ensures store.baseCommitQC == proof && store.view > proof.view
    ensures store.view >= before.view && store.prepareQC.view >= before.prepareQC.view && store.lockedQC.view >= before.lockedQC.view
  {
    store.Refresh(Some(proof), confirmed);
  }

  // ---------------------------------------------------------------- agreement height after height

  datatype Height = Height(c: Config, run: seq<Sys>, actions: seq<Action>)

  /** The states of one height joined by enabled steps, from whatever state it begins in. */
  ghost predicate Stepwise(h: Height) {
    && |h.run| == |h.actions| + 1
    && forall i :: 0 <= i < |h.actions| ==>
         Enabled(h.c, h.run[i], h.actions[i]) && h.run[i + 1] == Step(h.c, h.run[i], h.actions[i])
  }

  function End(h: Height): Sys
    requires |h.run| > 0
  {
    h.run[|h.run| - 1]
  }

  /** Only the first height is assumed to begin well; each later one begins where one ended. */
  ghost predicate Heights(hs: seq<Height>) {
    && |hs| > 0 && (forall i :: 0 <= i < |hs| ==> Stepwise(hs[i]) && Ready(hs[i].c))
    && Init(hs[0].c, hs[0].run[0])
    && forall i :: 0 <= i < |hs| - 1 ==> Follows(hs[i].c, End(hs[i]), hs[i + 1].c, hs[i + 1].run[0])
  }

  lemma {:induction false} HeightIsRun(hs: seq<Height>, n: nat)
    requires Heights(hs) && n < |hs|
    ensures IsRun(hs[n].c, hs[n].run, hs[n].actions)
    decreases n
  {
    hide Init, Enabled, Step, Follows, Inv;
    if n > 0 {
      var h := hs[n - 1];
      HeightIsRun(hs, n - 1);
      RunInv(h.c, h.run, h.actions, |h.run| - 1);
      NextHeightStarts(h.c, End(h), hs[n].c, hs[n].run[0]);
    }
  }

  /** At every height any two validators in the same view, each rotating from the commit QC it took as its
      own base, work out the same leader. */
  lemma LeadersAgreeAtEveryHeight(hs: seq<Height>, n: nat, i: nat, j: nat, a: Address, b: Address)
    requires Heights(hs) && n < |hs| && i < |hs[n].run| && j < |hs[n].run|
    requires a in hs[n].run[i].nodes && b in hs[n].run[j].nodes && hs[n].run[i].nodes[a].view == hs[n].run[j].nodes[b].view
    ensures OwnLeader(hs[n].c, a, hs[n].run[i].nodes[a].view) == OwnLeader(hs[n].c, b, hs[n].run[j].nodes[b].view)
  {
    hide Init, Enabled, Step, Follows, Inv, OwnLeader;
    HeightIsRun(hs, n);
    OneLeaderAView(hs[n].c, hs[n].run, hs[n].actions, i, j, a, b);
  }

  /** At every height no two validators decide different blocks, and the base block of the next height is
      the block decided. */
  lemma AgreementAtEveryHeight(hs: seq<Height>, n: nat, i: nat, j: nat, a: Address, b: Address, h: Hash, h': Hash)
    requires Heights(hs) && n < |hs| && i < |hs[n].run| && j < |hs[n].run|
    requires a in hs[n].run[i].nodes && h in hs[n].run[i].nodes[a].committed
    requires b in hs[n].run[j].nodes && h' in hs[n].run[j].nodes[b].committed
    ensures h == h' && (n + 1 < |hs| ==> hs[n + 1].c.base.node.blockHash == h)
  {
    hide Init, Enabled, Step, Follows, Inv;
    var (c, run, actions) := (hs[n].c, hs[n].run, hs[n].actions);
    HeightIsRun(hs, n);
    NoTwoDecisions(c, run, actions, i, j, a, b, h, h');
    if n + 1 < |hs| { BaseIsDecided(c, run, actions, i, a, h, hs[n + 1].c, hs[n + 1].run[0]); }
  }

  lemma BaseIsDecided(c: Config, run: seq<Sys>, actions: seq<Action>, i: nat, a: Address, h: Hash, c': Config, s': Sys)
    requires IsRun(c, run, actions) && i < |run| && a in run[i].nodes && h in run[i].nodes[a].committed
    requires Ready(c) && Follows(c, run[|run| - 1], c', s')
    ensures c'.base.node.blockHash == h
  {
    hide Init, Enabled, Step, Follows, Inv, IsRun, CoreInv;
    var s := run[|run| - 1];
    assert |run| > 0;
    RunMonotone(c, run, actions, i, |run| - 1, a);
    RunInv(c, run, actions, |run| - 1);
    InvCommitted(c, s, a, h);
    var b := FollowsBase(c, s, c', s');
    FollowsAt(c, s, c', s', b);
    assert CommitFact(s.facts, c'.base.node.blockHash);
    StateAgreement(c, s, h, c'.base.node.blockHash);
  }

  // ---------------------------------------------------------------- starts above the base view

  const LATE_BASE: QC := QC(Commit, 5, Node(0, 7), 1, [])
  const LATE_CERT: QC := QC(Prepare, 6, Node(0, 7), 1, [])

  /** Storages that keep a certificate above the base view are among the starts. */
  lemma LateStart()
    ensures exists c: Config, s: Sys :: Init(c, s) && exists a :: a in s.nodes && s.nodes[a].prepareQC.view > OwnBase(c, a).view
  {
    var c := Config([Member(1, 1)], [Member(1, 1)], LATE_BASE, map[1 := LATE_BASE], map[1 := 7], 6);
    var st := NodeState(7, LATE_CERT, LATE_BASE, map[], None, None, false, 0, FRESH_LEADER, [], {}, map[], None, {}, false);
    var s := Sys(map[1 := st], {}, NO_FACTS);
    assert c.members[..0] == [];
    assert Total(c.members) == 1 && Weight(c.members, {1}) == 1;
    assert AddressSet(c.members) == {1};
    assert c.members[0].address == 1;
    forall q | Held(c, s, q) ensures LeftBehind(c, q) {
      assert Reached(c, q.view) == {1};
    }
    assert 1 in s.nodes && s.nodes[1].prepareQC == LATE_CERT;
    assert Held(c, s, LATE_CERT) && LATE_CERT.view == c.top;
    assert Started(c, 1, st);
    assert ValidConfig(c) && s.nodes.Keys == AddressSet(c.members) == c.starts.Keys == c.bases.Keys;
    assert Init(c, s);
    assert OwnBase(c, 1) == LATE_BASE;
  }
}
