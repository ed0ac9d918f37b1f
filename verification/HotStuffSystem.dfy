/** The validators of one height together: the step relation over all of them and a network that
    may lose, duplicate and reorder packets, and the invariant that links every local state and
    every packet to the core. */
module HotStuffSystem {
  import opened Authorities
  import opened HotStuffTypes
  import opened HotStuffCollectors
  import opened HotStuffNode
  import opened HotStuffCore

  /** `net` holds every packet ever sent: delivery picks any of them, any number of times. */
  datatype Sys = Sys(nodes: map<Address, NodeState>, net: set<Packet>, facts: Facts)

  datatype Action =
    | Enter(a: Address, envs: seq<Env>)
    | Deliver(a: Address, packet: Packet, env: Env)
    | Tick(a: Address, env: Env)
    | Expire(a: Address, env: Env)
    | HandleProposal(a: Address, proposal: Proposal, env: Env)
    | Registered(a: Address)
    | Crash(a: Address)
    | Import(a: Address, source: Address, hash: Hash)
    | Leave(a: Address)

  const NO_FACTS := Facts(map[], {}, {})

  /** What a refreshed storage holds: the view after the base, and certificates for the base block that
      are the own base QC or above it. */
  predicate StoredStart(c: Config, base: QC, view: nat, prepareQC: QC, lockedQC: QC) {
    && base.view < view
    && BaseCert(c, prepareQC) && (prepareQC == base || base.view < prepareQC.view) && prepareQC.view <= view
    && BaseCert(c, lockedQC) && (lockedQC == base || base.view < lockedQC.view) && lockedQC.view <= view
  }

  predicate Started(c: Config, a: Address, st: NodeState) {
    && a in c.starts && st.view == c.starts[a] && StoredStart(c, OwnBase(c, a), st.view, st.prepareQC, st.lockedQC)
    && (forall h :: h in st.proposals ==> ProposalOk(c, st.proposals[h]) && st.proposals[h].blockHash == h) && st.params == None && st.running == None && !st.isLeader && st.leader == FRESH_LEADER
    && st.pendingNewViews == [] && st.internalProposals == {} && st.timeouts == map[] && st.timeoutTC == None
    && st.committed == {} && !st.halted
  }

  /** A certificate a validator begins with. */
  ghost predicate Held(c: Config, s: Sys, q: QC) {
    exists a :: a in s.nodes && (q == s.nodes[a].prepareQC || q == s.nodes[a].lockedQC || q == OwnBase(c, a))
  }

  /** Its signers left their views behind, and its leader does not lead its view anew. */
  ghost predicate LeftBehind(c: Config, q: QC)
    requires Ready(c)
  {
    IsQuorum(c.members, Reached(c, q.view)) && (LeaderOf(c, q.view) in c.starts ==> c.starts[LeaderOf(c, q.view)] > q.view)
  }

  /** The height begins: each validator stores certificates for the base block, its base QC or later
      ones, and is in some view after its base; `top` is the highest view among the certificates. */
  ghost predicate Init(c: Config, s: Sys) {
    && ValidConfig(c)
    && s.nodes.Keys == AddressSet(c.members) == c.starts.Keys == c.bases.Keys
    && (forall a :: a in s.nodes ==> BaseCert(c, c.bases[a]) && BaseMatches(c, c.bases[a]) && Started(c, a, s.nodes[a]))
    && (forall q :: Held(c, s, q) ==> LeftBehind(c, q))
    && (exists q :: Held(c, s, q) && q.view == c.top)
    && s.net == {} && s.facts == NO_FACTS
  }

  predicate Running(st: NodeState) {
    st.running == Some(st.view)
  }

  /** When an action can happen. Handlers run only inside the loop of the current view. */
  predicate Enabled(c: Config, s: Sys, t: Action) {
    && Ready(c) && t.a in s.nodes && !s.nodes[t.a].halted
    && var st := s.nodes[t.a];
      match t
      case Enter(a, envs) => !Running(st) && |envs| > |st.pendingNewViews|
                             && forall i :: 0 <= i < |envs| ==> ValidEnv(c, envs[i])
      case Deliver(a, p, env) => Running(st) && ValidEnv(c, env) && p in s.net && p.to == a
      case Tick(a, env) => Running(st) && st.isLeader && ValidEnv(c, env)
      case Expire(a, env) => Running(st) && ValidEnv(c, env)
      case HandleProposal(a, p, env) => Running(st) && st.isLeader && ValidEnv(c, env) && p in st.internalProposals
      case Registered(a) => Running(st) && !st.isLeader
      case Crash(a) => !(Running(st) && st.isLeader)
      case Import(a, source, hash) => source in s.nodes && hash in s.nodes[source].committed
      case Leave(a) => st.committed != {}
  }

  function LocalOf(s: Sys, a: Address): Local
    requires a in s.nodes
  {
    Local(a, s.nodes[a], {}, s.facts)
  }

  function ActLocal(c: Config, s: Sys, t: Action): Local
    requires Enabled(c, s, t)
  {
    var l := LocalOf(s, t.a);
    match t
    case Enter(a, envs) => EnterView(c, l, envs)
    case Deliver(a, p, env) => Receive(c, l, p, env)
    case Tick(a, env) => TryWork(c, l, true, None, env)
    case Expire(a, env) => OnTimeout(c, l, env)
    case HandleProposal(a, p, env) => RemoteProposal(c, l, p, env)
    case Registered(a) => SendNewView(l)
    case Crash(a) => Restart(c, l)
    case Import(a, source, hash) => l.(st := l.st.(committed := l.st.committed + {hash}))
    case Leave(a) => l.(st := l.st.(halted := true))
  }

  function Step(c: Config, s: Sys, t: Action): Sys
    requires Enabled(c, s, t)
  {
    var l := ActLocal(c, s, t);
    Sys(s.nodes[t.a := l.st], s.net + l.out, l.facts)
  }

  /** `run` is a sequence of states joined by enabled steps, from an initial state on. */
  ghost predicate IsRun(c: Config, run: seq<Sys>, actions: seq<Action>) {
    && |run| == |actions| + 1 && Init(c, run[0])
    && forall i :: 0 <= i < |actions| ==> Enabled(c, run[i], actions[i]) && run[i + 1] == Step(c, run[i], actions[i])
  }

  // ---------------------------------------------------------------- invariant

  function CoreAt(nodes: map<Address, NodeState>, f: Facts): Core {
    Core(ViewsOf(nodes), PrepsOf(nodes), LocksOf(nodes), f)
  }

  function ViewsOf(nodes: map<Address, NodeState>): map<Address, nat> {
    map a | a in nodes :: nodes[a].view
  }

  function PrepsOf(nodes: map<Address, NodeState>): map<Address, QC> {
    map a | a in nodes :: nodes[a].prepareQC
  }

  function LocksOf(nodes: map<Address, NodeState>): map<Address, QC> {
    map a | a in nodes :: nodes[a].lockedQC
  }

  /** Pre-commit votes of `a` below view `w` are not above view `u`. */
  ghost predicate PreCommittedUpTo(f: Facts, a: Address, w: nat, u: nat) {
    forall g :: g in f.signed && g.signer == a && g.messageType == PreCommit && g.view < w ==> g.view <= u
  }

  ghost predicate BallotOk(f: Facts, votes: map<Address, Vote>, t: MessageType, w: nat, node: Node, a: Address) {
    && VotesFor(votes, t, w, node, a)
    && forall b :: b in votes ==> votes[b].sig.value in f.signed
  }

  ghost predicate NewViewsOk(c: Config, f: Facts, a: Address, w: nat, ls: LeaderState)
    requires Ready(c)
  {
    && (forall b :: b in ls.newViews ==> GoodJustify(c, f, ls.newViews[b].justify.value))
    && (a in ls.newViews ==> PreCommittedUpTo(f, a, w, ls.newViews[a].justify.value.view))
    && (ls.newViewSignal.Some? ==>
          && GoodJustify(c, f, ls.newViewSignal.value)
          && (Heavy(c, a) ==> PreCommittedUpTo(f, a, w, ls.newViewSignal.value.view)))
    && (ls.pendingRemote.Some? ==>
          && ls.newViewSignal.Some? && !BaseCert(c, ls.newViewSignal.value)
          && ls.newViewSignal.value.node.blockHash == ls.pendingRemote.value && ls.prepareMessage.None?)
  }

  ghost predicate BallotsOk(f: Facts, a: Address, w: nat, ls: LeaderState) {
    && (ls.prepareMessage.Some? <==> w in f.props)
    && (ls.prepareMessage.Some? ==> ls.prepareMessage.value == f.props[w])
    && (ls.prepareMessage.Some? ==>
          var node := ls.prepareMessage.value.node;
          && BallotOk(f, ls.prepares, Prepare, w, node, a)
          && BallotOk(f, ls.preCommits, PreCommit, w, node, a)
          && BallotOk(f, ls.commits, Commit, w, node, a))
    && (ls.prepareMessage.None? ==> ls.prepares == map[] && ls.preCommits == map[] && ls.commits == map[])
  }

  /** The role of the current view; a leader that has not entered the view has not proposed in it. */
  ghost predicate RoleOk(c: Config, f: Facts, a: Address, st: NodeState)
    requires Ready(c)
  {
    && (Running(st) ==> st.currentLeader == LeaderOf(c, st.view) && (st.isLeader <==> st.currentLeader == a))
    && (Running(st) && st.isLeader ==> NewViewsOk(c, f, a, st.view, st.leader) && BallotsOk(f, a, st.view, st.leader))
    && (!Running(st) && LeaderOf(c, st.view) == a ==> st.view !in f.props)
  }

  predicate ProposalOk(c: Config, p: Proposal) {
    p.parentHash == c.base.node.blockHash && p.blockHash != c.base.node.blockHash
  }

  ghost predicate CommitFact(f: Facts, h: Hash) {
    exists q :: q in f.qcs && q.messageType == Commit && q.node.blockHash == h
  }

  ghost predicate MemoryOk(c: Config, f: Facts, a: Address, st: NodeState) {
    && (forall h :: h in st.proposals ==> ProposalOk(c, st.proposals[h]) && st.proposals[h].blockHash == h)
    && (forall p :: p in st.internalProposals ==> ProposalOk(c, p))
    && (forall i :: 0 <= i < |st.pendingNewViews| ==>
          && st.pendingNewViews[i].1 != a
          && (st.pendingNewViews[i].0.justify.Some? ==> GoodJustify(c, f, st.pendingNewViews[i].0.justify.value)))
    && (forall h :: h in st.committed ==> CommitFact(f, h))
  }

  /** A timeout certificate the validator holds is of a view it left. */
  predicate TimeoutsOk(st: NodeState) {
    && (st.timeoutTC.Some? ==> st.timeoutTC.value.view < st.view)
    && forall v :: v in st.timeouts ==> TimeoutsFor(st.timeouts[v], v)
  }

  ghost predicate NodeOk(c: Config, f: Facts, a: Address, st: NodeState)
    requires Ready(c)
  {
    RoleOk(c, f, a, st) && MemoryOk(c, f, a, st) && TimeoutsOk(st)
  }

  predicate MessageOk(c: Config, f: Facts, m: ConsensusMessage) {
    if m.justify.None? then m.sig.Some? && m.sig.value in f.signed && !m.messageType.NewView?
    else
      var j := m.justify.value;
      m.sig.None?
      && match m.messageType
         case NewView => GoodJustify(c, f, j)
         case Prepare => m.view in f.props && m.node == Some(f.props[m.view].node) && j == f.props[m.view].justify
         case PreCommit => j in f.qcs && j.messageType == Prepare && j.view == m.view
         case Commit => j in f.qcs && j.messageType == PreCommit && j.view == m.view
         case Decide => j in f.qcs && j.messageType == Commit
  }

  predicate TimeoutOk(m: TimeoutMessage) {
    match m.messageType
    case NewTimeout => m.justify.Some? ==> m.justify.value.view < m.view
    case TimeoutDecide => m.justify.Some? && m.justify.value.view == m.view
  }

  /** Every packet is backed by facts. */
  predicate PacketOk(c: Config, f: Facts, p: Packet) {
    && p.from != p.to
    && match p.payload
       case Consensus(m) => MessageOk(c, f, m)
       case Timeout(m) => TimeoutOk(m)
       case ProposalRequest(h) => true
       case ProposalResponse(proposal) => ProposalOk(c, proposal)
  }

  ghost predicate PacketsOk(c: Config, f: Facts, ps: set<Packet>) {
    forall p :: p in ps ==> PacketOk(c, f, p)
  }

  ghost predicate NodesOk(c: Config, s: Sys)
    requires Ready(c)
  {
    forall a :: a in s.nodes ==> NodeOk(c, s.facts, a, s.nodes[a])
  }

  ghost predicate Inv(c: Config, s: Sys) {
    CoreInv(c, CoreAt(s.nodes, s.facts)) && NodesOk(c, s) && PacketsOk(c, s.facts, s.net)
  }

  // ---------------------------------------------------------------- one validator among the others

  function CoreOf(nodes: map<Address, NodeState>, l: Local): Core {
    CoreAt(nodes[l.me := l.st], l.facts)
  }

  /** The facts grow by what `me` does: its signatures, the proposals of its own views, new QCs. */
  ghost predicate Grows(c: Config, me: Address, f: Facts, f': Facts)
    requires Ready(c)
  {
    && (forall w :: w in f.props ==> w in f'.props && f'.props[w] == f.props[w])
    && (forall w :: w in f'.props && w !in f.props ==> LeaderOf(c, w) == me)
    && f.signed <= f'.signed && f.qcs <= f'.qcs
    && (forall g :: g in f'.signed && g !in f.signed ==> g.signer == me)
  }

  /** The state of one validator inside an otherwise unchanged system is good. */
  ghost predicate LocalInv(c: Config, nodes: map<Address, NodeState>, l: Local) {
    && l.me in nodes
    && CoreInv(c, CoreOf(nodes, l))
    && NodeOk(c, l.facts, l.me, l.st)
    && PacketsOk(c, l.facts, l.out)
  }

  ghost predicate LeaderInv(c: Config, nodes: map<Address, NodeState>, l: Local) {
    LocalInv(c, nodes, l) && Running(l.st) && l.st.isLeader
  }
}
