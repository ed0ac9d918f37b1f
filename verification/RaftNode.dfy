/** A Raft node's durable state and its two request handlers. Every handler is a list of separate
    writes followed by a response, so that a crash can fall between any two of them. */
module RaftNode {
  import opened RaftLog

  type Address = nat

  /** What the node keeps in its database; in memory it holds a copy of the same. */
  datatype Durable = Durable(term: nat, votedFor: Option<Address>, commit: nat, logs: Logs, proposal: Option<nat>)

  datatype Write =
    | PutTerm(term: nat)
    | PutVote(vote: Option<Address>)
    | PutTermAndVote(term: nat, vote: Option<Address>)
    | PutCommit(commit: nat)
    | PutLogs(logs: Logs)
    | PutProposal(proposal: Option<nat>)

  function Written(d: Durable, w: Write): Durable {
    match w
    case PutTerm(t) => d.(term := t)
    case PutVote(v) => d.(votedFor := v)
    case PutTermAndVote(t, v) => d.(term := t, votedFor := v)
    case PutCommit(i) => d.(commit := i)
    case PutLogs(l) => d.(logs := l)
    case PutProposal(p) => d.(proposal := p)
  }

  function WrittenAll(d: Durable, ws: seq<Write>): Durable
    decreases |ws|
  {
    if ws == [] then d else Written(WrittenAll(d, ws[..|ws| - 1]), ws[|ws| - 1])
  }

  /** `base` and `baseTerm` come from the proof of the last committed block. */
  datatype Node = Node(base: nat, baseTerm: nat, d: Durable, pending: Option<nat>)

  ghost predicate Valid(n: Node) {
    Contiguous(n.base, n.d.logs)
  }

  ghost function LogOf(n: Node): seq<Entry>
    requires Valid(n)
  {
    Log(n.base, n.d.logs)
  }

  function LastOf(base: nat, baseTerm: nat, logs: Logs): (nat, nat) {
    if logs.Keys == {} then (base, baseTerm)
    else var e := logs[MaxKey(logs.Keys)]; (e.index, e.term)
  }

  function Last(n: Node): (nat, nat) {
    LastOf(n.base, n.baseTerm, n.d.logs)
  }

  // ---------------------------------------------------------------- vote requests

  datatype VoteReq = VoteReq(term: nat, lastIndex: nat, lastTerm: nat)
  datatype VoteRes = VoteRes(term: nat, granted: bool)

  /** `recent`: a leader was heard from within the minimum election timeout. */
  function OnVote(n: Node, from: Address, req: VoteReq, recent: bool): (seq<Write>, VoteRes) {
    var current := n.d.term;
    if req.term < current || recent then ([], VoteRes(current, false))
    else
      var newer := req.term > current;
      var ws := if newer then [PutTerm(req.term), PutVote(None)] else [];
      var voted := if newer then None else n.d.votedFor;
      if !(req.lastIndex >= Last(n).0 && req.lastTerm >= Last(n).1) then (ws, VoteRes(current, false))
      else if voted.Some? then (ws, VoteRes(current, voted.value == from))
      else (ws + [PutVote(Some(from))], VoteRes(current, true))
  }

  // ---------------------------------------------------------------- append requests

  datatype AppendReq = AppendReq(term: nat, prevIndex: nat, prevTerm: nat, commit: nat, entries: seq<Entry>)
  datatype AppendRes = AppendRes(success: bool, term: nat, lastIndex: nat, lastTerm: nat)

  /** What checking the pending proposal yields. */
  datatype Verdict = Verified | Wait | Discard | CheckFailed

  function FirstProposal(entries: seq<Entry>): Option<nat> {
    if entries == [] then None
    else if entries[0].data.Proposed? then Some(entries[0].data.hash)
    else FirstProposal(entries[1..])
  }

  /** Response `None`: the handler gave up with an error and answers nothing. */
  datatype Effect = Effect(ws: seq<Write>, pending: Option<nat>, res: Option<AppendRes>)

  /** How the local and the pending proposal come out for the proposal hash of the entries. */
  datatype Readied = Readied(ws: seq<Write>, pending: Option<nat>, local: bool, failed: bool)

  function ReadyProposal(n: Node, hash: nat, verdict: Verdict): Readied {
    var accordant := n.d.proposal == Some(hash);
    var ws := if accordant then [] else [PutProposal(None)];
    if n.pending != Some(hash) then Readied(ws, None, accordant, false)
    else match verdict
      case Verified => Readied(ws + [PutProposal(Some(hash))], None, true, false)
      case Wait => Readied(ws, n.pending, accordant, false)
      case Discard => Readied(ws, None, accordant, false)
      case CheckFailed => Readied(ws, None, accordant, true)
  }

  /** `logs` is the log after truncation, `ws` what has been written so far, `term` the new term. */
  function Perform(n: Node, ws: seq<Write>, logs: Logs, req: AppendReq, verdict: Verdict): Effect {
    var hash := FirstProposal(req.entries);
    var ready := if hash.Some? then ReadyProposal(n, hash.value, verdict) else Readied([], n.pending, true, false);
    if ready.failed then Effect(ws + ready.ws, ready.pending, None)
    else if !ready.local then
      var (i, t) := LastOf(n.base, n.baseTerm, logs);
      Effect(ws + ready.ws, ready.pending, Some(AppendRes(false, req.term, i, t)))
    else
      var logs' := Appended(logs, req.entries);
      var (i, t) := LastOf(n.base, n.baseTerm, logs');
      Effect(ws + ready.ws + [PutLogs(logs')], ready.pending, Some(AppendRes(true, req.term, i, t)))
  }

  predicate PrevExists(n: Node, req: AppendReq) {
    (req.prevIndex in n.d.logs && n.d.logs[req.prevIndex].term == req.prevTerm)
    || (req.prevIndex == n.base && req.prevTerm == n.baseTerm)
  }

  function OnAppend(n: Node, req: AppendReq, verdict: Verdict): Effect {
    var (current, last) := (n.d.term, Last(n));
    if req.term < current then Effect([], n.pending, Some(AppendRes(false, current, last.0, last.1)))
    else
      var ws := [PutCommit(req.commit)] + if req.term != current then [PutTerm(req.term), PutVote(None)] else [];
      if req.entries == [] then Effect(ws, n.pending, Some(AppendRes(true, current, last.0, last.1)))
      else if req.entries[0].index != req.prevIndex + 1 then Effect(ws, n.pending, Some(AppendRes(false, current, last.0, last.1)))
      else if (req.prevIndex, req.prevTerm) == last then Perform(n, ws, n.d.logs, req, verdict)
      else if !PrevExists(n, req) then Effect(ws, n.pending, Some(AppendRes(false, current, n.base, n.baseTerm)))
      else
        var logs := CutFrom(n.d.logs, req.prevIndex + 1);
        Perform(n, ws + [PutLogs(logs)], logs, req, verdict)
  }

  function AfterAppend(n: Node, req: AppendReq, verdict: Verdict): Node {
    var e := OnAppend(n, req, verdict);
    n.(d := WrittenAll(n.d, e.ws), pending := e.pending)
  }

  // ---------------------------------------------------------------- refresh, at start and after a block

  predicate InLogs(logs: Logs, proposal: Option<nat>) {
    proposal.Some? && exists k :: k in logs && logs[k].data == Proposed(proposal.value)
  }

  function RefreshWrites(d: Durable, base: nat, baseTerm: nat): seq<Write> {
    (if d.term < baseTerm then [PutTermAndVote(baseTerm, None)] else [])
    + (if d.commit < base then [PutCommit(base)] else [])
    + (if exists k :: k in d.logs && k <= base then [PutLogs(CutTo(d.logs, base))] else [])
    + (if InLogs(CutTo(d.logs, base), d.proposal) then [] else [PutProposal(None)])
  }

  function Refreshed(n: Node, base: nat, baseTerm: nat): Node {
    n.(base := base, baseTerm := baseTerm, d := WrittenAll(n.d, RefreshWrites(n.d, base, baseTerm)))
  }

  /** The candidate's own writes: a new term and a vote for itself. */
  function CampaignWrites(n: Node, me: Address): seq<Write> {
    [PutTerm(n.d.term + 1), PutVote(Some(me))]
  }
}
