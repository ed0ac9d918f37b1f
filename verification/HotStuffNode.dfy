/** The handlers of one validator at one height, as functions on its local state. Whatever the
    source leaves to the environment (hash map order, block building, proposal verification)
    comes in through `Env`. */
module HotStuffNode {
  import opened Authorities
  import opened HotStuffTypes
  import opened HotStuffCollectors

  /** One height: the authorities, those of the previous height, and the base block. Validators may
      hold commit QCs of the base block from different views; `base` is one of the lowest. Each
      validator begins the height with its own base QC, in its own view, and `top` bounds the views
      of the certificates for the base block that anybody begins with. */
  datatype Config = Config(members: seq<Member>, lastMembers: seq<Member>, base: QC,
                           bases: map<Address, QC>, starts: map<Address, nat>, top: nat)

  /** A certificate, of any phase, for the base block. */
  predicate BaseCert(c: Config, q: QC) {
    q.node == c.base.node && c.base.view <= q.view <= c.top
  }

  function OwnBase(c: Config, a: Address): QC {
    if a in c.bases then c.bases[a] else c.base
  }

  ghost predicate ValidConfig(c: Config) {
    && ValidMembers(c.members)
    && ValidMembers(c.lastMembers)
    && (c.lastMembers == c.members ==> IsMember(c.members, c.base.leader))
    && Total(c.members) > 0 && Total(c.lastMembers) > 0
  }

  function FirstIndex(ms: seq<Member>, a: Address): nat {
    if ms == [] || ms[0].address == a then 0 else 1 + FirstIndex(ms[1..], a)
  }

  /** Index of the leader of the base view; with new authorities the rotation starts afresh. */
  function LastLeaderIndex(c: Config): nat {
    if c.lastMembers == c.members then FirstIndex(c.members, c.base.leader)
    else if c.members == [] then 0 else |c.members| - 1
  }

  /** `compute_leader` for a view above the base view. */
  function LeaderOf(c: Config, view: nat): Address
    requires |c.members| > 0
  {
    var diff := if view >= c.base.view then view - c.base.view else 0;
    c.members[(LastLeaderIndex(c) + diff) % |c.members|].address
  }

  /** The height as a validator sees it that holds its own commit QC of the base block. */
  function Own(c: Config, a: Address): Config {
    c.(base := OwnBase(c, a))
  }

  /** The leader a validator works out, from its own base QC. */
  function OwnLeader(c: Config, a: Address, view: nat): Address
    requires |c.members| > 0
  {
    LeaderOf(Own(c, a), view)
  }

  /** A base QC made by the leader of its view; with new authorities, where the rotation starts afresh
      at the base view, one a whole number of rounds above the lowest. */
  predicate BaseMatches(c: Config, q: QC)
    requires |c.members| > 0
  {
    if c.lastMembers == c.members then q.leader == LeaderOf(c, q.view)
    else q.view >= c.base.view && (q.view - c.base.view) % |c.members| == 0
  }

  datatype Proposal = Proposal(parentHash: Hash, blockHash: Hash)

  datatype Payload =
    | Consensus(message: ConsensusMessage)
    | Timeout(timeout: TimeoutMessage)
    | ProposalRequest(hash: Hash)
    | ProposalResponse(proposal: Proposal)

  datatype Packet = Packet(from: Address, to: Address, payload: Payload)

  datatype PrepareMessage = PrepareMessage(node: Node, justify: QC)

  datatype LeaderState = LeaderState(
    newViews: map<Address, Justified>,
    prepares: map<Address, Vote>,
    preCommits: map<Address, Vote>,
    commits: map<Address, Vote>,
    scheduleSignal: bool,
    newViewSignal: Option<QC>,
    pendingRemote: Option<Hash>,
    prepareMessage: Option<PrepareMessage>,
    preCommitSent: bool,
    commitSent: bool,
    decideSent: bool)

  const FRESH_LEADER := LeaderState(map[], map[], map[], map[], false, None, None, None, false, false, false)

  datatype NodeState = NodeState(
    view: nat,
    prepareQC: QC,
    lockedQC: QC,
    proposals: map<Hash, Proposal>,
    params: Option<Hash>,
    running: Option<nat>,
    isLeader: bool,
    currentLeader: Address,
    leader: LeaderState,
    pendingNewViews: seq<(ConsensusMessage, Address)>,
    internalProposals: set<Proposal>,
    timeouts: map<nat, map<Address, SignedTimeout>>,
    timeoutTC: Option<TC>,
    committed: set<Hash>,
    halted: bool)

  /** What the whole system has produced so far; it only grows.
      `props` is the proposal of each view, `signed` every vote signature, `qcs` every formed QC. */
  datatype Facts = Facts(props: map<nat, PrepareMessage>, signed: set<Signature>, qcs: set<QC>)

  /** One validator at work: its address, its state, what it sends and the facts so far. */
  datatype Local = Local(me: Address, st: NodeState, out: set<Packet>, facts: Facts)

  datatype Env = Env(
    newViewOrder: seq<Address>,
    prepareOrder: seq<Address>,
    preCommitOrder: seq<Address>,
    commitOrder: seq<Address>,
    timeoutOrder: seq<Address>,
    builtBlock: Option<Hash>,   // result of prepare_block and build_block
    buildOk: bool,              // rebuilding a known proposal succeeds
    acceptProposal: bool,       // body and header checks of verify_proposal pass
    target: nat)                // random choice of a peer

  predicate IterationOrder(c: Config, order: seq<Address>) {
    Distinct(order) && forall i :: 0 <= i < |c.members| ==> c.members[i].address in order
  }

  /** Iteration orders reach every member; a block just built is not the base block. */
  predicate ValidEnv(c: Config, env: Env) {
    && IterationOrder(c, env.newViewOrder) && IterationOrder(c, env.prepareOrder)
    && IterationOrder(c, env.preCommitOrder) && IterationOrder(c, env.commitOrder)
    && IterationOrder(c, env.timeoutOrder)
    && (env.builtBlock.Some? ==> env.builtBlock.value != c.base.node.blockHash)
  }

  predicate Ready(c: Config) {
    |c.members| > 0 && Total(c.members) > 0 && Total(c.lastMembers) > 0
  }

  function Broadcast(c: Config, me: Address, payload: Payload): set<Packet> {
    set i | 0 <= i < |c.members| && c.members[i].address != me :: Packet(me, c.members[i].address, payload)
  }

  function SendOut(l: Local, ps: set<Packet>): Local {
    l.(out := l.out + ps)
  }

  function WithLeader(l: Local, ls: LeaderState): Local {
    l.(st := l.st.(leader := ls))
  }

  /** A certificate at the view of the validator's own base QC is checked against the old authorities. */
  function JustifyMembers(c: Config, me: Address, qc: QC): seq<Member> {
    if qc.view == OwnBase(c, me).view then c.lastMembers else c.members
  }

  // ---------------------------------------------------------------- leader

  /** `on_decide`: commits the block when its proposal and its build are at hand. */
  function DecideBlock(l: Local, qc: QC): Local {
    var hash := qc.node.blockHash;
    if hash !in l.st.proposals then l
    else if l.st.params == Some(l.st.proposals[hash].blockHash) then
      l.(st := l.st.(params := None, committed := l.st.committed + {l.st.proposals[hash].blockHash}))
    else l.(st := l.st.(params := None))
  }

  /** The leader's own vote: `verify_message` fills in the node and signs. */
  function OwnVote(l: Local, t: MessageType): Vote
    requires l.st.leader.prepareMessage.Some?
  {
    var node := l.st.leader.prepareMessage.value.node;
    ConsensusMessage(t, l.st.view, Some(node), None, Some(Signature(l.me, t, l.st.view, node, l.st.currentLeader)))
  }

  function Sign(l: Local, sig: Signature): Local {
    l.(facts := l.facts.(signed := l.facts.signed + {sig}))
  }

  /** `verify_message` for a vote received from another validator. */
  predicate AdmitsVote(l: Local, m: ConsensusMessage, from: Address) {
    && l.st.leader.prepareMessage.Some?
    && m.node == Some(l.st.leader.prepareMessage.value.node)
    && m.sig == Some(Signature(from, m.messageType, m.view, l.st.leader.prepareMessage.value.node, l.me))
  }

  function FormQC(l: Local, qc: QC): Local {
    l.(facts := l.facts.(qcs := l.facts.qcs + {qc}))
  }

  function DecideAndAnnounce(c: Config, l: Local, qc: QC): Local {
    var l1 := DecideBlock(WithLeader(FormQC(l, qc), l.st.leader.(decideSent := true)), qc);
    SendOut(l1, Broadcast(c, l.me, Consensus(ConsensusMessage(Decide, l.st.view, None, Some(qc), None))))
  }

  function AddCommitVote(c: Config, l: Local, from: Address, v: Vote, env: Env): Local
    requires Ready(c)
  {
    var l1 := WithLeader(l, l.st.leader.(commits := l.st.leader.commits[from := v]));
    match GetQC(c.members, l1.st.leader.commits, l.me, env.commitOrder)
    case None => l1
    case Some(qc) =>
      if l1.st.leader.decideSent then l1 else DecideAndAnnounce(c, l1, qc)
  }

  function OwnCommitVote(c: Config, l: Local, env: Env): Local
    requires Ready(c) && l.st.leader.prepareMessage.Some?
  {
    var v := OwnVote(l, Commit);
    AddCommitVote(c, Sign(l, v.sig.value), l.me, v, env)
  }

  function LockAndAnnounce(c: Config, l: Local, qc: QC): Local {
    var l1 := FormQC(l, qc);
    SendOut(l1.(st := l1.st.(lockedQC := qc, leader := l1.st.leader.(commitSent := true))),
            Broadcast(c, l.me, Consensus(ConsensusMessage(Commit, l.st.view, None, Some(qc), None))))
  }

  function AddPreCommitVote(c: Config, l: Local, from: Address, v: Vote, env: Env): Local
    requires Ready(c) && l.st.leader.prepareMessage.Some?
  {
    var l1 := WithLeader(l, l.st.leader.(preCommits := l.st.leader.preCommits[from := v]));
    match GetQC(c.members, l1.st.leader.preCommits, l.me, env.preCommitOrder)
    case None => l1
    case Some(qc) =>
      if l1.st.leader.commitSent then l1 else OwnCommitVote(c, LockAndAnnounce(c, l1, qc), env)
  }

  function OwnPreCommitVote(c: Config, l: Local, env: Env): Local
    requires Ready(c) && l.st.leader.prepareMessage.Some?
  {
    var v := OwnVote(l, PreCommit);
    AddPreCommitVote(c, Sign(l, v.sig.value), l.me, v, env)
  }

  function StoreAndAnnounce(c: Config, l: Local, qc: QC): Local {
    var l1 := FormQC(l, qc);
    SendOut(l1.(st := l1.st.(prepareQC := qc, leader := l1.st.leader.(preCommitSent := true))),
            Broadcast(c, l.me, Consensus(ConsensusMessage(PreCommit, l.st.view, None, Some(qc), None))))
  }

  function AddPrepareVote(c: Config, l: Local, from: Address, v: Vote, env: Env): Local
    requires Ready(c) && l.st.leader.prepareMessage.Some?
  {
    var l1 := WithLeader(l, l.st.leader.(prepares := l.st.leader.prepares[from := v]));
    match GetQC(c.members, l1.st.leader.prepares, l.me, env.prepareOrder)
    case None => l1
    case Some(qc) =>
      if l1.st.leader.preCommitSent then l1 else OwnPreCommitVote(c, StoreAndAnnounce(c, l1, qc), env)
  }

  function OwnPrepareVote(c: Config, l: Local, env: Env): Local
    requires Ready(c) && l.st.leader.prepareMessage.Some?
  {
    var v := OwnVote(l, Prepare);
    AddPrepareVote(c, Sign(l, v.sig.value), l.me, v, env)
  }

  /** `on_proposal` up to the leader's own vote: the proposal of the view is fixed and sent out. */
  function Announce(c: Config, l: Local, p: Proposal, hq: QC): Local {
    var pm := PrepareMessage(Node(p.parentHash, p.blockHash), hq);
    var message := ConsensusMessage(Prepare, l.st.view, Some(pm.node), Some(hq), None);
    SendOut(
      l.(st := l.st.(leader := l.st.leader.(prepareMessage := Some(pm))),
         facts := l.facts.(props := l.facts.props[l.st.view := pm])),
      Broadcast(c, l.me, ProposalResponse(p)) + Broadcast(c, l.me, Consensus(message)))
  }

  /** `on_proposal`. */
  function Propose(c: Config, l: Local, p: Proposal, env: Env): Local
    requires Ready(c) && l.st.leader.newViewSignal.Some?
  {
    OwnPrepareVote(c, Announce(c, l, p, l.st.leader.newViewSignal.value), env)
  }

  /** `create_proposal`: a block on the confirmed block of the chain. That is the base block until a
      block of this height is committed; a block built afterwards belongs to the next height. */
  function CreateProposal(c: Config, l: Local, env: Env): Local
    requires Ready(c) && l.st.leader.newViewSignal.Some?
  {
    if l.st.committed != {} then l
    else match env.builtBlock
    case None => l
    case Some(hash) =>
      var p := Proposal(c.base.node.blockHash, hash);
      Propose(c, l.(st := l.st.(params := Some(hash), proposals := l.st.proposals[hash := p])), p, env)
  }

  /** `on_local_proposal`: rebuilds the block unless its build is at hand. */
  function ProposeKnown(c: Config, l: Local, p: Proposal, env: Env): Local
    requires Ready(c) && l.st.leader.newViewSignal.Some?
  {
    if l.st.params == Some(p.blockHash) then Propose(c, l, p, env)
    else if !env.buildOk then l
    else Propose(c, l.(st := l.st.(params := Some(p.blockHash))), p, env)
  }

  /** Senders other than `me` whose NewView carries `qc`. */
  function RemoteHolders(c: Config, l: Local, qc: QC): set<Address> {
    set a | a in l.st.leader.newViews && l.st.leader.newViews[a].justify == Some(qc) && a != l.me
  }

  /** `reuse_proposal`. With no other holder of the certificate the random choice panics, which ends
      the validator's work. */
  function ReuseProposal(c: Config, l: Local, hq: QC, env: Env): Local
    requires Ready(c) && l.st.leader.newViewSignal.Some?
  {
    if hq.node.blockHash in l.st.proposals then ProposeKnown(c, l, l.st.proposals[hq.node.blockHash], env)
    else if env.target in RemoteHolders(c, l, hq) then
      SendOut(WithLeader(l, l.st.leader.(pendingRemote := Some(hq.node.blockHash))),
              {Packet(l.me, env.target, ProposalRequest(hq.node.blockHash))})
    else if RemoteHolders(c, l, hq) == {} then l.(st := l.st.(halted := true))
    else l
  }

  /** `work`. */
  function Work(c: Config, l: Local, env: Env): Local
    requires Ready(c) && l.st.leader.newViewSignal.Some?
  {
    var hq := l.st.leader.newViewSignal.value;
    if hq.node.blockHash == c.base.node.blockHash then CreateProposal(c, l, env)
    else if hq.node.parentHash == c.base.node.blockHash then ReuseProposal(c, l, hq, env)
    else l
  }

  /** `try_work`. */
  function TryWork(c: Config, l: Local, schedule: bool, hq: Option<QC>, env: Env): Local
    requires Ready(c)
  {
    var ls := l.st.leader;
    var ls1 := ls.(scheduleSignal := ls.scheduleSignal || schedule,
                   newViewSignal := if hq.Some? then hq else ls.newViewSignal);
    var l1 := WithLeader(l, ls1);
    if ls1.newViewSignal.Some? && ls1.scheduleSignal && ls1.prepareMessage.None? && ls1.pendingRemote.None?
    then Work(c, l1, env) else l1
  }

  function StoreNewView(l: Local, m: Justified, from: Address): Local {
    WithLeader(l, l.st.leader.(newViews := l.st.leader.newViews[from := m]))
  }

  /** `LeaderState::on_new_view`. */
  function LeaderNewView(c: Config, l: Local, m: ConsensusMessage, from: Address, env: Env): Local
    requires Ready(c)
  {
    if m.justify.None? then l
    else if !AcceptsQC(m.justify.value, None, JustifyMembers(c, l.me, m.justify.value)) then l
    else
      var l1 := StoreNewView(l, m, from);
      var hq := GetHighQC(c.members, l1.st.leader.newViews, env.newViewOrder);
      if hq.Some? && l1.st.leader.newViewSignal.None? then TryWork(c, l1, false, hq, env) else l1
  }

  /** `LeaderState::on_validator_consensus_message`. */
  function LeaderMessage(c: Config, l: Local, m: ConsensusMessage, from: Address, env: Env): Local
    requires Ready(c)
  {
    if m.view != l.st.view then l
    else match m.messageType
      case NewView => LeaderNewView(c, l, m, from, env)
      case Prepare => if AdmitsVote(l, m, from) then AddPrepareVote(c, l, from, m, env) else l
      case PreCommit => if AdmitsVote(l, m, from) then AddPreCommitVote(c, l, from, m, env) else l
      case Commit => if AdmitsVote(l, m, from) then AddCommitVote(c, l, from, m, env) else l
      case Decide => l
  }

  /** `on_remote_proposal`. */
  function RemoteProposal(c: Config, l: Local, p: Proposal, env: Env): Local
    requires Ready(c)
  {
    var ls := l.st.leader;
    if ls.pendingRemote != Some(p.blockHash) || ls.newViewSignal.None? then l
    else ProposeKnown(c, WithLeader(l, ls.(pendingRemote := None)), p, env)
  }

  // ---------------------------------------------------------------- replica

  /** Sends a vote signed for the current leader. */
  function SendVote(l: Local, t: MessageType, node: Node): Local {
    var sig := Signature(l.me, t, l.st.view, node, l.st.currentLeader);
    var m := ConsensusMessage(t, l.st.view, Some(node), None, Some(sig));
    SendOut(Sign(l, sig), {Packet(l.me, l.st.currentLeader, Consensus(m))})
  }

  /** The safe node rule of `ReplicaState::on_prepare`. */
  predicate SafeNode(c: Config, locked: QC, node: Node, justify: QC) {
    var base := c.base.node.blockHash;
    var extendsJustify := if justify.node.blockHash == base then node.parentHash == base
                          else node.blockHash == justify.node.blockHash;
    var extendsLocked := if locked.node.blockHash == base then node.parentHash == base
                         else node.blockHash == locked.node.blockHash;
    extendsJustify && (extendsLocked || justify.view > locked.view)
  }

  function ReplicaPrepare(c: Config, l: Local, m: ConsensusMessage): Local
    requires Ready(c)
  {
    if m.justify.None? then l
    else if !AcceptsQC(m.justify.value, None, JustifyMembers(c, l.me, m.justify.value)) then l
    else if m.node.None? || m.node.value.blockHash !in l.st.proposals then l
    else if m.node.value.parentHash != l.st.proposals[m.node.value.blockHash].parentHash then l
    else if !SafeNode(c, l.st.lockedQC, m.node.value, m.justify.value) then l
    else SendVote(l, Prepare, m.node.value)
  }

  function ReplicaPreCommit(c: Config, l: Local, m: ConsensusMessage): Local
    requires Ready(c)
  {
    if m.justify.None? || !AcceptsQC(m.justify.value, Some(Prepare), c.members) then l
    else SendVote(l.(st := l.st.(prepareQC := m.justify.value)), PreCommit, m.justify.value.node)
  }

  function ReplicaCommit(c: Config, l: Local, m: ConsensusMessage): Local
    requires Ready(c)
  {
    if m.justify.None? || !AcceptsQC(m.justify.value, Some(PreCommit), c.members) then l
    else SendVote(l.(st := l.st.(lockedQC := m.justify.value)), Commit, m.justify.value.node)
  }

  function ReplicaDecide(c: Config, l: Local, m: ConsensusMessage): Local
    requires Ready(c)
  {
    if m.justify.None? || !AcceptsQC(m.justify.value, Some(Commit), c.members) then l
    else DecideBlock(l, m.justify.value)
  }

  /** `ReplicaState::on_validator_consensus_message`: NewViews of any view are kept for later. */
  function ReplicaMessage(c: Config, l: Local, m: ConsensusMessage, from: Address): Local
    requires Ready(c)
  {
    var l1 := if m.messageType.NewView?
              then l.(st := l.st.(pendingNewViews := l.st.pendingNewViews + [(m, from)])) else l;
    if m.view != l.st.view then l1
    else match m.messageType
      case NewView => l1
      case Prepare => ReplicaPrepare(c, l1, m)
      case PreCommit => ReplicaPreCommit(c, l1, m)
      case Commit => ReplicaCommit(c, l1, m)
      case Decide => ReplicaDecide(c, l1, m)
  }

  function SendNewView(l: Local): Local {
    SendOut(l, {Packet(l.me, l.st.currentLeader,
                       Consensus(ConsensusMessage(NewView, l.st.view, None, Some(l.st.prepareQC), None)))})
  }

  // ---------------------------------------------------------------- views and timeouts

  /** `process_pending_new_view`. */
  function ProcessPending(c: Config, l: Local, pending: seq<(ConsensusMessage, Address)>, envs: seq<Env>): Local
    requires Ready(c) && |envs| >= |pending|
    decreases |pending|
  {
    if pending == [] then l
    else ProcessPending(c, LeaderNewView(c, l, pending[0].0, pending[0].1, envs[0]), pending[1..], envs[1..])
  }

  /** `run_view`: takes the role of the view; a leader drains the pending NewViews and adds its own. */
  function EnterView(c: Config, l: Local, envs: seq<Env>): Local
    requires Ready(c) && |envs| > |l.st.pendingNewViews|
  {
    var view := l.st.view;
    var lead := OwnLeader(c, l.me, view);
    if lead == l.me then
      var l1 := l.(st := l.st.(running := Some(view), isLeader := true, currentLeader := lead,
                               leader := FRESH_LEADER, pendingNewViews := []));
      var l2 := ProcessPending(c, l1, l.st.pendingNewViews, envs);
      var own := ConsensusMessage(NewView, l2.st.view, None, Some(l2.st.prepareQC), None);
      LeaderNewView(c, l2, own, l.me, envs[|l.st.pendingNewViews|])
    else
      SendNewView(l.(st := l.st.(running := Some(view), isLeader := false, currentLeader := lead)))
  }

  /** `advance_view`. */
  function AdvanceView(l: Local, view: nat): Local {
    l.(st := l.st.(view := view + 1,
                   timeouts := map v | v in l.st.timeouts && v > view :: l.st.timeouts[v]))
  }

  function AddTimeout(l: Local, from: Address, m: SignedTimeout): Local {
    var known := if m.view in l.st.timeouts then l.st.timeouts[m.view] else map[];
    l.(st := l.st.(timeouts := l.st.timeouts[m.view := if from in known then known else known[from := m]]))
  }

  /** A TC was collected: remember it, leave its view and tell the others. */
  function LeaveView(c: Config, l: Local, tc: TC): Local {
    SendOut(AdvanceView(l.(st := l.st.(timeoutTC := Some(tc))), tc.view),
            Broadcast(c, l.me, Timeout(TimeoutMessage(TimeoutDecide, tc.view, Some(tc), None))))
  }

  /** Adds an admitted timeout and acts on the certificate it may complete. */
  function CountTimeout(c: Config, l: Local, m: SignedTimeout, from: Address, env: Env): Local
    requires Ready(c)
  {
    var l1 := AddTimeout(l, from, m);
    match CollectTC(c.members, l1.st.timeouts[m.view], env.timeoutOrder, 0, [])
    case None => l1
    case Some(tc) => LeaveView(c, l1, tc)
  }

  /** `on_timeout_new_timeout`. */
  function OnNewTimeout(c: Config, l: Local, m: TimeoutMessage, from: Address, env: Env): Local
    requires Ready(c)
  {
    if m.sig != Some(TimeoutSignature(from, m.view)) then l
    else if m.justify.Some? && m.justify.value.view >= l.st.view && !AcceptsTC(m.justify.value, c.members) then l
    else
      var l1 := if m.justify.Some? && m.justify.value.view >= l.st.view
                then AdvanceView(l, m.justify.value.view) else l;
      CountTimeout(c, l1, m, from, env)
  }

  /** `on_timeout_decide`: the certificate's view is not compared with the current view. */
  function OnTimeoutDecide(c: Config, l: Local, m: TimeoutMessage): Local
    requires Ready(c)
  {
    if m.justify.None? || !AcceptsTC(m.justify.value, c.members) then l
    else AdvanceView(l, m.justify.value.view)
  }

  /** `on_timeout_message`. */
  function OnTimeoutMessage(c: Config, l: Local, m: TimeoutMessage, from: Address, env: Env): Local
    requires Ready(c)
  {
    if m.view < l.st.view then l
    else match m.messageType
      case NewTimeout => OnNewTimeout(c, l, m, from, env)
      case TimeoutDecide => OnTimeoutDecide(c, l, m)
  }

  /** `on_timeout`. */
  function OnTimeout(c: Config, l: Local, env: Env): Local
    requires Ready(c)
  {
    var m := TimeoutMessage(NewTimeout, l.st.view, l.st.timeoutTC, Some(TimeoutSignature(l.me, l.st.view)));
    SendOut(OnTimeoutMessage(c, l, m, l.me, env), Broadcast(c, l.me, Timeout(m)))
  }

  // ---------------------------------------------------------------- proposals

  /** `HotStuffStream::on_proposal` followed by the internal notification. The parent must be the
      confirmed block of the chain, which is the base block while nothing is committed, and the block
      must be new. */
  function OnProposalResponse(c: Config, l: Local, p: Proposal, env: Env): Local {
    var ok := env.acceptProposal && l.st.committed == {} && p.parentHash == c.base.node.blockHash && p.blockHash != c.base.node.blockHash;
    var st := if ok then l.st.(params := Some(p.blockHash), proposals := l.st.proposals[p.blockHash := p]) else l.st;
    l.(st := st.(internalProposals := st.internalProposals + {p}))
  }

  /** `on_req_request_proposal`. */
  function OnProposalRequest(l: Local, from: Address, hash: Hash): Local {
    if hash in l.st.proposals then SendOut(l, {Packet(l.me, from, ProposalResponse(l.st.proposals[hash]))}) else l
  }

  /** Dispatch of one received packet. */
  function Receive(c: Config, l: Local, p: Packet, env: Env): Local
    requires Ready(c)
  {
    match p.payload
    case Consensus(m) =>
      if !IsMember(c.members, p.from) then l
      else if l.st.isLeader then LeaderMessage(c, l, m, p.from, env)
      else ReplicaMessage(c, l, m, p.from)
    case Timeout(m) => OnTimeoutMessage(c, l, m, p.from, env)
    case ProposalRequest(hash) => OnProposalRequest(l, p.from, hash)
    case ProposalResponse(proposal) => OnProposalResponse(c, l, proposal, env)
  }

  /** A crash keeps what `Storage` persists and the chain, and loses everything else; opening the
      storage again refreshes it on the validator's base QC. */
  function Restart(c: Config, l: Local): Local {
    var base := OwnBase(c, l.me);
    l.(st := l.st.(view := RaisedView(base, l.st.view), prepareQC := RaisedQC(base, l.st.prepareQC),
                   lockedQC := RaisedQC(base, l.st.lockedQC), params := None, running := None, isLeader := false, leader := FRESH_LEADER,
                   pendingNewViews := [], internalProposals := {}, timeouts := map[], timeoutTC := None))
  }
}
