/** Runs of one Raft node through requests, campaigns, refreshes and crashes, and the votes it gives. */
module RaftVotes {
  import opened RaftLog
  import opened RaftNode
  import opened RaftSplice

  datatype Event =
    | Vote(from: Address, voteReq: VoteReq, recent: bool)
    | Append(appendReq: AppendReq, verdict: Verdict)
    | Receive(hash: nat, check: Verdict)        // a proposal arrives
    | Refresh(base: nat, baseTerm: nat)         // a block was committed
    | Campaign                                  // the election timeout fired
    | Outvoted(term: nat)                       // a vote response with this term arrives
    | Lead(data: Data)                          // as leader, extend the own log
    | Restart(base: nat, baseTerm: nat)

  /** The separate writes an event makes, in order. */
  function Writes(n: Node, me: Address, ev: Event): seq<Write> {
    match ev
    case Vote(from, req, recent) => OnVote(n, from, req, recent).0
    case Append(req, verdict) => OnAppend(n, req, verdict).ws
    case Receive(hash, check) => if check == Verified then [PutProposal(Some(hash))] else []
    case Refresh(base, baseTerm) => RefreshWrites(n.d, base, baseTerm)
    case Campaign => CampaignWrites(n, me)
    case Outvoted(term) => if term > n.d.term then [PutTerm(term), PutVote(None)] else []
    case Lead(data) => [PutLogs(Appended(n.d.logs, [Entry(n.d.term, Last(n).0 + 1, data)]))]
    case Restart(base, baseTerm) => RefreshWrites(n.d, base, baseTerm)
  }

  function PendingAfter(n: Node, ev: Event): Option<nat> {
    match ev
    case Append(req, verdict) => OnAppend(n, req, verdict).pending
    case Receive(hash, check) => if check == Wait then Some(hash) else n.pending
    case Restart(_, _) => None
    case _ => n.pending
  }

  /** The event in full. */
  function After(n: Node, me: Address, ev: Event): Node {
    var based := if ev.Refresh? || ev.Restart? then n.(base := ev.base, baseTerm := ev.baseTerm) else n;
    based.(d := WrittenAll(n.d, Writes(n, me, ev)), pending := PendingAfter(n, ev))
  }

  datatype Grant = Grant(term: nat, candidate: Address)

  /** The vote an event gives: a granted response, or a campaign's vote for oneself. */
  function Given(n: Node, me: Address, ev: Event): Option<Grant> {
    match ev
    case Vote(from, req, recent) => if OnVote(n, from, req, recent).1.granted then Some(Grant(req.term, from)) else None
    case Campaign => Some(Grant(n.d.term + 1, me))
    case _ => None
  }

  /** A step is an event in full, or its first `writes` writes, a crash, and a restart on the proof of
      the last block. */
  datatype Step = Full(ev: Event) | Crash(ev: Event, writes: nat, base: nat, baseTerm: nat)

  datatype Life = Life(n: Node, grants: seq<Grant>)

  function Stepped(l: Life, me: Address, step: Step): Life {
    match step
    case Full(ev) =>
      var given := Given(l.n, me, ev);
      Life(After(l.n, me, ev), if given.Some? then l.grants + [given.value] else l.grants)
    case Crash(ev, writes, base, baseTerm) => l.(n := After(Crashed(l.n, me, ev, writes), me, Restart(base, baseTerm)))
  }

  function Crashed(n: Node, me: Address, ev: Event, writes: nat): Node {
    var ws := Writes(n, me, ev);
    n.(d := WrittenAll(n.d, ws[..if writes < |ws| then writes else |ws|]), pending := None)
  }

  function Lived(l: Life, me: Address, steps: seq<Step>): Life
    decreases |steps|
  {
    if steps == [] then l else Stepped(Lived(l, me, steps[..|steps| - 1]), me, steps[|steps| - 1])
  }

  // ---------------------------------------------------------------- terms and votes under partial writes

  /** The term never goes back, and within a term a vote once stored stays. */
  ghost predicate Guarded(d: Durable, d': Durable) {
    d.term < d'.term || (d.term == d'.term && (d.votedFor.Some? ==> d'.votedFor == d.votedFor))
  }

  predicate Raises(w: Write) {
    w.PutTerm? || w.PutTermAndVote?
  }

  /** Every term written is new; a vote is written after a new term, or where none was stored. */
  ghost predicate SafeWrites(d: Durable, ws: seq<Write>) {
    (forall i :: 0 <= i < |ws| && Raises(ws[i]) ==> ws[i].term > d.term)
    && (forall i :: 0 <= i < |ws| && ws[i].PutVote? ==> d.votedFor.None? || exists j :: 0 <= j < i && Raises(ws[j]))
  }

  lemma {:induction false} SafePrefix(d: Durable, ws: seq<Write>, k: nat)
    requires SafeWrites(d, ws) && k <= |ws|
    ensures Guarded(d, WrittenAll(d, ws[..k]))
    ensures (exists j :: 0 <= j < k && Raises(ws[j])) <==> WrittenAll(d, ws[..k]).term > d.term
    decreases k
  {
    if k > 0 {
      SafePrefix(d, ws, k - 1);
      assert ws[..k][..k - 1] == ws[..k - 1] && ws[..k][k - 1] == ws[k - 1];
      if exists j :: 0 <= j < k && Raises(ws[j]) {
        var j :| 0 <= j < k && Raises(ws[j]);
        assert j == k - 1 || (exists i :: 0 <= i < k - 1 && Raises(ws[i]));
      }
    }
  }

  ghost predicate Neutral(ws: seq<Write>) {
    forall i :: 0 <= i < |ws| ==> !Raises(ws[i]) && !ws[i].PutVote?
  }

  lemma SafeThenNeutral(d: Durable, ws: seq<Write>, more: seq<Write>)
    requires SafeWrites(d, ws) && Neutral(more)
    ensures SafeWrites(d, ws + more)
  {
    var all := ws + more;
    forall i | 0 <= i < |all| && all[i].PutVote? ensures d.votedFor.None? || exists j :: 0 <= j < i && Raises(all[j]) {
      if d.votedFor.Some? {
        var j :| 0 <= j < i && Raises(ws[j]);
        assert Raises(all[j]);
      }
    }
  }

  lemma RaiseThenVote(d: Durable, term: nat, vote: Option<Address>)
    requires term > d.term
    ensures SafeWrites(d, [PutTerm(term), PutVote(vote)])
  {
    var ws := [PutTerm(term), PutVote(vote)];
    assert Raises(ws[0]);
  }

  lemma VoteWrites(n: Node, from: Address, req: VoteReq, recent: bool)
    ensures SafeWrites(n.d, OnVote(n, from, req, recent).0)
  {
    var ws := OnVote(n, from, req, recent).0;
    if req.term > n.d.term {
      assert ws != [] ==> Raises(ws[0]);
    }
  }

  lemma AppendWrites(n: Node, req: AppendReq, verdict: Verdict)
    ensures SafeWrites(n.d, OnAppend(n, req, verdict).ws)
  {
    var ws := OnAppend(n, req, verdict).ws;
    if req.term >= n.d.term {
      hide OnAppend, SafeWrites, Neutral;
      var first := FirstWrites(n, req);
      FirstIsSafe(n, req);
      FirstThenNeutral(n, req, verdict);
      assert ws == first + ws[|first|..];
      SafeThenNeutral(n.d, first, ws[|first|..]);
    }
  }

  lemma FirstIsSafe(n: Node, req: AppendReq)
    requires req.term >= n.d.term
    ensures SafeWrites(n.d, FirstWrites(n, req))
  {
    var ws := FirstWrites(n, req);
    if req.term != n.d.term { assert Raises(ws[1]); }
  }

  lemma PerformNeutral(n: Node, ws: seq<Write>, logs: Logs, req: AppendReq, verdict: Verdict)
    ensures var r := Perform(n, ws, logs, req, verdict).ws; ws <= r && Neutral(r[|ws|..])
  {
    var r := Perform(n, ws, logs, req, verdict).ws;
    var ready := ReadyWrites(n, req, verdict);
    assert Neutral(ready);
    assert r == ws + ready || r == ws + ready + [PutLogs(Appended(logs, req.entries))];
  }

  lemma FirstThenNeutral(n: Node, req: AppendReq, verdict: Verdict)
    requires req.term >= n.d.term
    ensures var (ws, first) := (OnAppend(n, req, verdict).ws, FirstWrites(n, req)); first <= ws && Neutral(ws[|first|..])
  {
    hide Perform, LastOf, CutFrom;
    var first := FirstWrites(n, req);
    PerformNeutral(n, first, n.d.logs, req, verdict);
    var cut := CutFrom(n.d.logs, req.prevIndex + 1);
    PerformNeutral(n, first + [PutLogs(cut)], cut, req, verdict);
    var r := Perform(n, first + [PutLogs(cut)], cut, req, verdict).ws;
    assert r[|first|..] == [PutLogs(cut)] + r[|first| + 1..];
  }

  lemma EventWrites(n: Node, me: Address, ev: Event)
    ensures SafeWrites(n.d, Writes(n, me, ev))
  {
    match ev
    case Vote(from, req, recent) => VoteWrites(n, from, req, recent);
    case Append(req, verdict) => AppendWrites(n, req, verdict);
    case Campaign => RaiseThenVote(n.d, n.d.term + 1, Some(me));
    case Outvoted(term) => if term > n.d.term { RaiseThenVote(n.d, term, None); }
    case Receive(_, _) =>
    case Refresh(_, _) =>
    case Lead(_) =>
    case Restart(_, _) =>
  }

  // ---------------------------------------------------------------- at most one vote a term

  ghost predicate Remembers(l: Life) {
    forall i :: 0 <= i < |l.grants| ==> Stored(l.n.d, l.grants[i])
  }

  /** A vote of an earlier term, or the one on record. */
  ghost predicate Stored(d: Durable, g: Grant) {
    g.term < d.term || (g.term == d.term && d.votedFor == Some(g.candidate))
  }

  ghost predicate OneVoteATerm(grants: seq<Grant>) {
    forall i, j :: 0 <= i < |grants| && 0 <= j < |grants| && grants[i].term == grants[j].term ==>
      grants[i].candidate == grants[j].candidate
  }

  /** A granted vote is stored under the request's term before the response goes out, and goes only to a
      candidate whose last index and last term both reach the node's own. */
  lemma GrantStored(n: Node, me: Address, from: Address, req: VoteReq, recent: bool)
    requires OnVote(n, from, req, recent).1.granted
    ensures var d := After(n, me, Vote(from, req, recent)).d; d.term == req.term && d.votedFor == Some(from)
    ensures req.lastIndex >= Last(n).0 && req.lastTerm >= Last(n).1 && req.term >= n.d.term && !recent
    ensures n.d.term == req.term ==> n.d.votedFor.None? || n.d.votedFor == Some(from)
  {
    assert WrittenAll(n.d, []) == n.d;
    hide WrittenAll, Last, PendingAfter;
    if req.term > n.d.term {
      WrittenTwo(n.d, PutTerm(req.term), PutVote(None));
      WrittenMore(n.d, [PutTerm(req.term), PutVote(None)], PutVote(Some(from)));
    } else {
      WrittenMore(n.d, [], PutVote(Some(from)));
    }
  }

  lemma WrittenMore(d: Durable, ws: seq<Write>, w: Write)
    ensures WrittenAll(d, ws + [w]) == Written(WrittenAll(d, ws), w)
  {
    assert (ws + [w])[..|ws|] == ws;
  }

  lemma WrittenTwo(d: Durable, a: Write, b: Write)
    ensures WrittenAll(d, [a, b]) == Written(Written(d, a), b)
  {
    WrittenMore(d, [], a);
    WrittenMore(d, [a], b);
    assert [] + [a] == [a] && [a] + [b] == [a, b];
  }

  /** A new vote under a guarded change of the record agrees with every earlier one of its term. */
  lemma GrantAgrees(l: Life, d: Durable, g: Grant)
    requires Remembers(l) && OneVoteATerm(l.grants) && Guarded(l.n.d, d)
    requires d.term == g.term && d.votedFor == Some(g.candidate)
    ensures OneVoteATerm(l.grants + [g])
  {
    forall i | 0 <= i < |l.grants| ensures Stored(d, l.grants[i]) { assert Stored(l.n.d, l.grants[i]); }
  }

  /** No step, complete or cut off, takes back a term or, within its term, a vote. */
  lemma StepGuarded(l: Life, me: Address, step: Step)
    ensures Guarded(l.n.d, Stepped(l, me, step).n.d)
  {
    hide Writes, WrittenAll, Given, PendingAfter, SafeWrites;
    var (n, ws) := (l.n, Writes(l.n, me, step.ev));
    EventWrites(n, me, step.ev);
    if step.Crash? {
      SafePrefix(n.d, ws, if step.writes < |ws| then step.writes else |ws|);
      var (n1, restart) := (Crashed(n, me, step.ev, step.writes), Restart(step.base, step.baseTerm));
      EventWrites(n1, me, restart);
      SafePrefix(n1.d, Writes(n1, me, restart), |Writes(n1, me, restart)|);
      assert Writes(n1, me, restart)[..|Writes(n1, me, restart)|] == Writes(n1, me, restart);
    } else {
      SafePrefix(n.d, ws, |ws|);
      assert ws[..|ws|] == ws;
    }
  }

  lemma StepRemembers(l: Life, me: Address, step: Step)
    requires Remembers(l) && OneVoteATerm(l.grants)
    ensures var l' := Stepped(l, me, step); Remembers(l') && OneVoteATerm(l'.grants)
  {
    hide Given, Crashed, After;
    var (n, l') := (l.n, Stepped(l, me, step));
    StepGuarded(l, me, step);
    if step.Full? && Given(n, me, step.ev).Some? {
      GivenStored(n, me, step.ev);
      GrantAgrees(l, l'.n.d, Given(n, me, step.ev).value);
    }
    forall i | 0 <= i < |l.grants| ensures Stored(l'.n.d, l.grants[i]) { assert Stored(n.d, l.grants[i]); }
  }

  lemma GivenStored(n: Node, me: Address, ev: Event)
    requires Given(n, me, ev).Some?
    ensures var (g, d) := (Given(n, me, ev).value, After(n, me, ev).d); d.term == g.term && d.votedFor == Some(g.candidate)
    ensures var g := Given(n, me, ev).value;
      g.term > n.d.term || (g.term == n.d.term && (n.d.votedFor.None? || n.d.votedFor == Some(g.candidate)))
  {
    if ev.Vote? {
      GrantStored(n, me, ev.from, ev.voteReq, ev.recent);
    } else {
      WrittenTwo(n.d, PutTerm(n.d.term + 1), PutVote(Some(me)));
    }
  }

  /** Over every run, with crashes between any two writes, a node votes for at most one address a term. */
  lemma {:induction false} VoteUniqueness(n: Node, me: Address, steps: seq<Step>)
    ensures var l := Lived(Life(n, []), me, steps); Remembers(l) && OneVoteATerm(l.grants)
    decreases |steps|
  {
    if steps != [] {
      var k := |steps| - 1;
      VoteUniqueness(n, me, steps[..k]);
      StepRemembers(Lived(Life(n, []), me, steps[..k]), me, steps[k]);
    }
  }

  // ---------------------------------------------------------------- the log over whole runs

  /** What the rest of the system owes the node: requests carry a slice of a log, and the proof of the
      last block never goes back. */
  ghost predicate Admissible(n: Node, ev: Event) {
    (ev.Append? ==> Consecutive(ev.appendReq.entries)) && (ev.Refresh? || ev.Restart? ==> n.base <= ev.base)
  }

  ghost predicate AdmissibleStep(n: Node, step: Step) {
    Admissible(n, step.ev) && (step.Crash? ==> n.base <= step.base && (step.ev.Refresh? || step.ev.Restart? ==> step.ev.base <= step.base))
  }

  lemma {:induction false} PrefixLogs(d: Durable, ws: seq<Write>, k: nat)
    requires k <= |ws|
    ensures var logs := WrittenAll(d, ws[..k]).logs; logs == d.logs || exists i :: 0 <= i < k && ws[i] == PutLogs(logs)
    decreases k
  {
    if k > 0 {
      PrefixLogs(d, ws, k - 1);
      assert ws[..k][..k - 1] == ws[..k - 1];
    }
  }

  ghost predicate PutsContiguous(base: nat, ws: seq<Write>) {
    forall i :: 0 <= i < |ws| && ws[i].PutLogs? ==> Contiguous(base, ws[i].logs)
  }

  lemma PerformPuts(n: Node, ws: seq<Write>, logs: Logs, req: AppendReq, verdict: Verdict)
    requires PutsContiguous(n.base, ws) && Contiguous(n.base, Appended(logs, req.entries))
    ensures PutsContiguous(n.base, Perform(n, ws, logs, req, verdict).ws)
  {
    hide Contiguous, Appended, LastOf;
    var r := Perform(n, ws, logs, req, verdict).ws;
    var ready := ReadyWrites(n, req, verdict);
    ReadyKeepsLogs(n, req, verdict);
    assert KeepsLogs(ready);
    assert r == ws + ready || r == ws + ready + [PutLogs(Appended(logs, req.entries))];
  }

  lemma AppendPuts(n: Node, req: AppendReq, verdict: Verdict)
    requires Valid(n) && Consecutive(req.entries)
    ensures PutsContiguous(n.base, OnAppend(n, req, verdict).ws)
  {
    hide OnAppend, Contiguous, Reaches;
    if Reaches(n, req) {
      ReachedPuts(n, req, verdict);
    } else {
      StoppedPuts(n, req, verdict);
    }
  }

  lemma ReachedPuts(n: Node, req: AppendReq, verdict: Verdict)
    requires Valid(n) && Consecutive(req.entries) && Reaches(n, req)
    ensures PutsContiguous(n.base, OnAppend(n, req, verdict).ws)
  {
    hide OnAppend, Perform, Contiguous, CutFrom, Appended, LastOf, Log;
    ReachedPath(n, req, verdict);
    var (first, cut) := (FirstWrites(n, req), CutFrom(n.d.logs, req.prevIndex + 1));
    CutAfter(n.base, n.d.logs, req.prevIndex);
    Splice(n.base, n.d.logs, req.prevIndex, req.entries);
    if (req.prevIndex, req.prevTerm) == Last(n) {
      CutNothing(n);
      PerformPuts(n, first, n.d.logs, req, verdict);
    } else {
      assert PutsContiguous(n.base, first + [PutLogs(cut)]);
      PerformPuts(n, first + [PutLogs(cut)], cut, req, verdict);
    }
  }

  lemma StoppedPuts(n: Node, req: AppendReq, verdict: Verdict)
    requires Valid(n) && !Reaches(n, req)
    ensures PutsContiguous(n.base, OnAppend(n, req, verdict).ws)
  {
    PrevExistsIs(n, req);
    LastIs(n);
    hide Perform, TermAt, Valid, PrevExists, Last, Contiguous;
    var first := FirstWrites(n, req);
  }

  lemma LeadPuts(n: Node, data: Data)
    requires Valid(n)
    ensures Contiguous(n.base, Appended(n.d.logs, [Entry(n.d.term, Last(n).0 + 1, data)]))
  {
    LastIs(n);
    AppendAtEnd(n.base, n.d.logs, [Entry(n.d.term, Last(n).0 + 1, data)]);
  }

  /** After any number of an event's writes the log on disk is contiguous above a base no greater than
      any the node can restart on. */
  lemma CrashedLogs(n: Node, me: Address, ev: Event, writes: nat)
    requires Valid(n) && Admissible(n, ev)
    ensures var logs := Crashed(n, me, ev, writes).d.logs;
      Contiguous(n.base, logs) || ((ev.Refresh? || ev.Restart?) && Contiguous(ev.base, logs))
  {
    hide Contiguous, WrittenAll, Writes;
    var ws := Writes(n, me, ev);
    PrefixLogs(n.d, ws, if writes < |ws| then writes else |ws|);
    if ev.Refresh? || ev.Restart? {
      RaiseBase(n.base, n.d.logs, ev.base);
      RefreshPuts(n, me, ev);
    } else {
      EventPuts(n, me, ev);
    }
  }

  lemma RefreshPuts(n: Node, me: Address, ev: Event)
    requires ev.Refresh? || ev.Restart?
    ensures forall i :: 0 <= i < |Writes(n, me, ev)| && Writes(n, me, ev)[i].PutLogs? ==> Writes(n, me, ev)[i].logs == CutTo(n.d.logs, ev.base)
  {
    hide CutTo;
  }

  lemma EventPuts(n: Node, me: Address, ev: Event)
    requires Valid(n) && Admissible(n, ev) && !ev.Refresh? && !ev.Restart?
    ensures PutsContiguous(n.base, Writes(n, me, ev))
  {
    match ev {
      case Append(req, verdict) => AppendPuts(n, req, verdict);
      case Lead(data) => LeadPuts(n, data);
      case _ =>
    }
  }

  lemma RestartValid(n: Node, me: Address, low: nat, base: nat, baseTerm: nat)
    requires Contiguous(low, n.d.logs) && low <= base
    ensures Valid(After(n, me, Restart(base, baseTerm)))
  {
    RefreshLogs(n, base, baseTerm);
    RaiseBase(low, n.d.logs, base);
  }

  lemma EventValid(n: Node, me: Address, ev: Event)
    requires Valid(n) && Admissible(n, ev)
    ensures Valid(After(n, me, ev))
  {
    if ev.Refresh? || ev.Restart? {
      RefreshDrops(n, ev.base, ev.baseTerm);
    } else {
      var ws := Writes(n, me, ev);
      CrashedLogs(n, me, ev, |ws|);
      assert ws[..|ws|] == ws;
    }
  }

  /** Over every run the stored keys are exactly base+1 .. last, each the index of its entry. */
  lemma {:induction false} LogsStayContiguous(n: Node, me: Address, steps: seq<Step>)
    requires Valid(n)
    requires forall k :: 0 <= k < |steps| ==> AdmissibleStep(Lived(Life(n, []), me, steps[..k]).n, steps[k])
    ensures Valid(Lived(Life(n, []), me, steps).n)
    decreases |steps|
  {
    hide Contiguous, AdmissibleStep, Stepped;
    if steps != [] {
      var k := |steps| - 1;
      var (before, step) := (steps[..k], steps[k]);
      assert forall j :: 0 <= j < k ==> before[..j] == steps[..j] && before[j] == steps[j];
      LogsStayContiguous(n, me, before);
      var l := Lived(Life(n, []), me, before);
      assert AdmissibleStep(l.n, step);
      StepValid(l, me, step);
    }
  }

  lemma StepValid(l: Life, me: Address, step: Step)
    requires Valid(l.n) && AdmissibleStep(l.n, step)
    ensures Valid(Stepped(l, me, step).n)
  {
    hide Contiguous, After, Crashed;
    if step.Full? {
      EventValid(l.n, me, step.ev);
    } else {
      CrashedLogs(l.n, me, step.ev, step.writes);
      var n1 := Crashed(l.n, me, step.ev, step.writes);
      if Contiguous(l.n.base, n1.d.logs) { RestartValid(n1, me, l.n.base, step.base, step.baseTerm); }
      else { RestartValid(n1, me, step.ev.base, step.base, step.baseTerm); }
    }
  }

  // ---------------------------------------------------------------- the term in a response

  /** The response names the term before the request: it is the term of the vote exactly when the
      request brought no new term. */
  lemma ResponseTerm(n: Node, from: Address, req: VoteReq, recent: bool)
    requires OnVote(n, from, req, recent).1.granted
    ensures OnVote(n, from, req, recent).1.term == req.term <==> req.term == n.d.term
  {
  }

  /** So two granted responses can carry one term and go to different candidates. */
  lemma ResponseTermShared()
    ensures exists n: Node, first: VoteReq, second: VoteReq ::
      var n' := After(n, 0, Vote(1, first, false));
      var (r, r') := (OnVote(n, 1, first, false).1, OnVote(n', 2, second, false).1);
      r.granted && r'.granted && r.term == r'.term
  {
    var n := Node(0, 0, Durable(5, None, 0, map[], None), None);
    var (first, second) := (VoteReq(5, 0, 0), VoteReq(6, 0, 0));
    var n' := After(n, 0, Vote(1, first, false));
    var ws := OnVote(n, 1, first, false).0;
    assert ws == [PutVote(Some(1))] && ws[..0] == [];
    assert n'.d == n.d.(votedFor := Some(1));
    var (r, r') := (OnVote(n, 1, first, false).1, OnVote(n', 2, second, false).1);
    assert r.granted && r'.granted && r.term == r'.term;
  }
}
