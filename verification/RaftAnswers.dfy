/** What a Raft node answers to append and vote requests, and what it keeps of proposals and votes, read
    off the state it leaves. */
module RaftAnswers {
  import opened RaftLog
  import opened RaftNode
  import opened RaftSplice
  import opened RaftVotes

  // ---------------------------------------------------------------- the answer to an append request

  predicate Current(n: Node, req: AppendReq) { req.term >= n.d.term }

  /** Entries that claim to follow `prev`, which the log does not have with that term. */
  ghost predicate Missing(n: Node, req: AppendReq)
    requires Valid(n)
  {
    Current(n, req) && req.entries != [] && req.entries[0].index == req.prevIndex + 1 && TermAt(n, req.prevIndex) != Some(req.prevTerm)
  }

  /** The answer, against the node `n` before and `n'` after. None is given exactly when checking the
      proposal fails. It succeeds on a current request without entries, and on entries that were spliced
      in. It speaks for the last entry the node now has, or for its base exactly when `prev` is missing;
      and it carries the request's term exactly where `prev` was found. */
  ghost predicate AppendAnswer(n: Node, req: AppendReq, verdict: Verdict, n': Node, res: Option<AppendRes>)
    requires Valid(n) && Valid(n')
  {
    && (res.None? <==> Reaches(n, req) && CheckFails(n, req, verdict))
    && (res.Some? ==>
          var r := res.value;
          && (r.success <==> Current(n, req) && (req.entries == [] || Accepts(n, req, verdict)))
          && r.term == (if Reaches(n, req) then req.term else n.d.term)
          && (if Missing(n, req) then (r.lastIndex, r.lastTerm) == (n'.base, n'.baseTerm)
              else r.lastIndex == n'.base + |LogOf(n')|)
          && TermAt(n', r.lastIndex) == Some(r.lastTerm))
  }

  lemma ReachedAnswers(n: Node, req: AppendReq, verdict: Verdict)
    requires Valid(n) && Consecutive(req.entries) && Reaches(n, req)
    ensures var (e, n') := (OnAppend(n, req, verdict), AfterAppend(n, req, verdict)); Valid(n') && AppendAnswer(n, req, verdict, n', e.res)
  {
    hide OnAppend, Appended, CutFrom, ProposalAtHand, LastOf, WrittenAll, Log, Contiguous, CheckFails;
    AppendSplices(n, req, verdict);
    ReachedLogs(n, req, verdict);
    var n' := AfterAppend(n, req, verdict);
    LastIs(n');
    AtHandPasses(n, req, verdict);
  }

  lemma AtHandPasses(n: Node, req: AppendReq, verdict: Verdict)
    ensures ProposalAtHand(n, req, verdict) ==> !CheckFails(n, req, verdict)
  {
  }

  lemma StoppedAnswers(n: Node, req: AppendReq, verdict: Verdict)
    requires Valid(n) && Consecutive(req.entries) && !Reaches(n, req)
    ensures var (e, n') := (OnAppend(n, req, verdict), AfterAppend(n, req, verdict)); Valid(n') && AppendAnswer(n, req, verdict, n', e.res)
  {
    PrevExistsIs(n, req);
    LastIs(n);
    StoppedLogs(n, req, verdict);
    var (e, n') := (OnAppend(n, req, verdict), AfterAppend(n, req, verdict));
    assert (n'.base, n'.baseTerm, n'.d.logs) == (n.base, n.baseTerm, n.d.logs);
    assert LogOf(n') == LogOf(n) && forall i :: TermAt(n', i) == TermAt(n, i);
    hide Perform, WrittenAll, PrevExists, Last, Contiguous, Log;
  }

  /** Every append request whose indices are consecutive is answered from the node's own log. */
  lemma AppendAnswers(n: Node, req: AppendReq, verdict: Verdict)
    requires Valid(n) && Consecutive(req.entries)
    ensures var (e, n') := (OnAppend(n, req, verdict), AfterAppend(n, req, verdict)); Valid(n') && AppendAnswer(n, req, verdict, n', e.res)
  {
    hide OnAppend, AfterAppend, AppendAnswer, Reaches;
    if Reaches(n, req) { ReachedAnswers(n, req, verdict); } else { StoppedAnswers(n, req, verdict); }
  }

  /** The proposal of a request is that of its first entry that proposes one. */
  lemma {:induction false} FirstProposalIs(entries: seq<Entry>)
    ensures FirstProposal(entries).None? <==> forall i :: 0 <= i < |entries| ==> !entries[i].data.Proposed?
    ensures FirstProposal(entries).Some? ==>
      exists i :: 0 <= i < |entries| && entries[i].data == Proposed(FirstProposal(entries).value) && forall j :: 0 <= j < i ==> !entries[j].data.Proposed?
    decreases |entries|
  {
    if entries != [] && !entries[0].data.Proposed? {
      FirstProposalIs(entries[1..]);
      if FirstProposal(entries).Some? {
        var i :| 0 <= i < |entries[1..]| && entries[1..][i].data == Proposed(FirstProposal(entries).value)
          && forall j :: 0 <= j < i ==> !entries[1..][j].data.Proposed?;
        assert entries[i + 1].data == Proposed(FirstProposal(entries).value);
        forall j | 0 <= j < i + 1 ensures !entries[j].data.Proposed? { if j > 0 { assert entries[1..][j - 1] == entries[j]; } }
      } else {
        forall i | 0 <= i < |entries| ensures !entries[i].data.Proposed? { if i > 0 { assert entries[1..][i - 1] == entries[i]; } }
      }
    }
  }

  // ---------------------------------------------------------------- proposals

  ghost predicate NoProposals(ws: seq<Write>) {
    forall i :: 0 <= i < |ws| ==> !ws[i].PutProposal?
  }

  lemma {:induction false} ProposalStays(d: Durable, ws: seq<Write>, more: seq<Write>)
    requires NoProposals(more)
    ensures WrittenAll(d, ws + more).proposal == WrittenAll(d, ws).proposal
    decreases |more|
  {
    if more == [] {
      assert ws + more == ws;
    } else {
      var k := |more| - 1;
      assert (ws + more)[..|ws| + k] == ws + more[..k];
      ProposalStays(d, ws, more[..k]);
    }
  }

  /** Once `prev` was found, the stored proposal is the one the entries speak of, if it was that already or
      has now been verified, and none otherwise; a pending one stays exactly if it is that and has to
      wait. All other requests leave both alone. */
  predicate ProposalsAfter(n: Node, reaches: bool, req: AppendReq, verdict: Verdict, n': Node) {
    var hash := FirstProposal(req.entries);
    if reaches && hash.Some? then
      && n'.d.proposal == (if (n.pending == hash && verdict == Verified) || n.d.proposal == hash then hash else None)
      && n'.pending == (if n.pending == hash && verdict == Wait then hash else None)
    else n'.d.proposal == n.d.proposal && n'.pending == n.pending
  }

  lemma PerformProposals(n: Node, ws: seq<Write>, logs: Logs, req: AppendReq, verdict: Verdict)
    requires NoProposals(ws)
    ensures var e := Perform(n, ws, logs, req, verdict);
      ProposalsAfter(n, true, req, verdict, n.(d := WrittenAll(n.d, e.ws), pending := e.pending))
  {
    hide Appended, LastOf;
    var (e, ready) := (Perform(n, ws, logs, req, verdict), ReadyWrites(n, req, verdict));
    ProposalStays(n.d, [], ws);
    assert [] + ws == ws && WrittenAll(n.d, []) == n.d;
    ReadyProposals(n, ws, req, verdict);
    hide WrittenAll;
    if e.ws != ws + ready {
      var more := [PutLogs(Appended(logs, req.entries))];
      assert e.ws == ws + ready + more;
      ProposalStays(n.d, ws + ready, more);
    }
  }

  lemma ReadyProposals(n: Node, ws: seq<Write>, req: AppendReq, verdict: Verdict)
    requires WrittenAll(n.d, ws).proposal == n.d.proposal
    ensures var hash := FirstProposal(req.entries);
      WrittenAll(n.d, ws + ReadyWrites(n, req, verdict)).proposal ==
        if hash.None? then n.d.proposal
        else if (n.pending == hash && verdict == Verified) || n.d.proposal == hash then hash else None
  {
    var (hash, ready) := (FirstProposal(req.entries), ReadyWrites(n, req, verdict));
    if hash.Some? {
      var (clear, put) := (PutProposal(None), PutProposal(hash));
      UpToOne(n.d, ws, [clear]);
      UpToOne(n.d, ws, [put]);
      UpToOne(n.d, ws + [clear], [put]);
      assert ws + [clear] + [put] == ws + [clear, put] && ws + [] == ws;
      assert ready == [] || ready == [clear] || ready == [put] || ready == [clear, put];
    } else {
      assert ws + ready == ws;
    }
  }

  lemma AppendProposals(n: Node, req: AppendReq, verdict: Verdict)
    requires Valid(n)
    ensures ProposalsAfter(n, Reaches(n, req), req, verdict, AfterAppend(n, req, verdict))
  {
    hide Perform, LastOf, CutFrom, ProposalsAfter, WrittenAll;
    PrevExistsIs(n, req);
    LastIs(n);
    var (first, cut) := (FirstWrites(n, req), CutFrom(n.d.logs, req.prevIndex + 1));
    if Reaches(n, req) {
      ReachedPath(n, req, verdict);
      PerformProposals(n, first, n.d.logs, req, verdict);
      PerformProposals(n, first + [PutLogs(cut)], cut, req, verdict);
    } else {
      StoppedProposals(n, req, verdict);
    }
  }

  lemma StoppedProposals(n: Node, req: AppendReq, verdict: Verdict)
    requires Valid(n) && !Reaches(n, req)
    ensures ProposalsAfter(n, false, req, verdict, AfterAppend(n, req, verdict))
  {
    PrevExistsIs(n, req);
    LastIs(n);
    hide Perform, TermAt, Valid, PrevExists, Last;
    ProposalStays(n.d, [], []);
    ProposalStays(n.d, [], FirstWrites(n, req));
    assert [] + FirstWrites(n, req) == FirstWrites(n, req) && WrittenAll(n.d, []) == n.d;
  }

  // ---------------------------------------------------------------- votes

  /** A vote request: outdated ones, and any while a leader was heard from, are refused and change nothing.
      A later term is taken over, without a vote. The vote is granted exactly to a candidate that reaches
      the node's last entry in index and term, if no other has it, and is then stored. The answer carries
      the term from before. */
  predicate VoteAnswer(n: Node, from: Address, req: VoteReq, recent: bool, n': Node, res: VoteRes) {
    var (early, newer) := (req.term < n.d.term || recent, req.term > n.d.term);
    var voted := if newer then None else n.d.votedFor;
    var grants := !early && req.lastIndex >= Last(n).0 && req.lastTerm >= Last(n).1 && (voted.None? || voted == Some(from));
    && res == VoteRes(n.d.term, grants)
    && n' == if early then n
             else n.(d := n.d.(term := if newer then req.term else n.d.term, votedFor := if grants then Some(from) else voted))
  }

  lemma VoteAnswers(n: Node, me: Address, from: Address, req: VoteReq, recent: bool)
    ensures VoteAnswer(n, from, req, recent, After(n, me, Vote(from, req, recent)), OnVote(n, from, req, recent).1)
  {
    assert WrittenAll(n.d, []) == n.d;
    var newer := req.term > n.d.term;
    WrittenTwo(n.d, PutTerm(req.term), PutVote(None));
    WrittenMore(n.d, [PutTerm(req.term), PutVote(None)], PutVote(Some(from)));
    WrittenMore(n.d, [], PutVote(Some(from)));
    assert [] + [PutVote(Some(from))] == [PutVote(Some(from))];
    hide WrittenAll, Last;
  }

  // ---------------------------------------------------------------- the remaining events

  /** A campaign takes the next term and the own vote; a later term in an answer is taken over without a
      vote, any other changes nothing. */
  lemma TermEvents(n: Node, me: Address, term: nat)
    ensures After(n, me, Campaign).d == n.d.(term := n.d.term + 1, votedFor := Some(me))
    ensures After(n, me, Outvoted(term)).d == if term > n.d.term then n.d.(term := term, votedFor := None) else n.d
  {
    WrittenTwo(n.d, PutTerm(n.d.term + 1), PutVote(Some(me)));
    WrittenTwo(n.d, PutTerm(term), PutVote(None));
  }

  /** A leader's entry goes to the end of its log, under its term. */
  lemma LeadExtends(n: Node, me: Address, data: Data)
    requires Valid(n)
    ensures var n' := After(n, me, Lead(data));
      Valid(n') && LogOf(n') == LogOf(n) + [Entry(n.d.term, n.base + |LogOf(n)| + 1, data)] && n'.d == n.d.(logs := n'.d.logs)
  {
    hide Contiguous, Log;
    LastIs(n);
    var entry := Entry(n.d.term, Last(n).0 + 1, data);
    AppendAtEnd(n.base, n.d.logs, [entry]);
    WrittenMore(n.d, [], PutLogs(Appended(n.d.logs, [entry])));
    assert [] + [PutLogs(Appended(n.d.logs, [entry]))] == [PutLogs(Appended(n.d.logs, [entry]))];
  }
}
