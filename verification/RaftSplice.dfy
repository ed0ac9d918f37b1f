/** What an append request does to the log, seen as a sequence above the base. */
module RaftSplice {
  import opened RaftLog
  import opened RaftNode

  /** The term recorded at an index of the log, the base included. */
  ghost function TermAt(n: Node, i: nat): Option<nat>
    requires Valid(n)
  {
    if i == n.base then Some(n.baseTerm)
    else if n.base < i <= n.base + |LogOf(n)| then Some(LogOf(n)[i - n.base - 1].term)
    else None
  }

  lemma LastIs(n: Node)
    requires Valid(n)
    ensures Last(n).0 == n.base + |LogOf(n)| && TermAt(n, Last(n).0) == Some(Last(n).1)
  {
    if |n.d.logs| > 0 {
      LastKey(n.base, n.d.logs);
    } else {
      assert n.d.logs == map[];
    }
  }

  lemma PrevExistsIs(n: Node, req: AppendReq)
    requires Valid(n)
    ensures PrevExists(n, req) <==> TermAt(n, req.prevIndex) == Some(req.prevTerm)
  {
    var i := req.prevIndex;
    assert i in n.d.logs <==> n.base < i <= n.base + |n.d.logs|;
    if n.base < i <= n.base + |n.d.logs| { assert LogOf(n)[i - n.base - 1] == n.d.logs[i]; }
  }

  ghost predicate KeepsLogs(ws: seq<Write>) {
    forall i :: 0 <= i < |ws| ==> !ws[i].PutLogs?
  }

  lemma {:induction false} LogsKept(d: Durable, ws: seq<Write>)
    requires KeepsLogs(ws)
    ensures WrittenAll(d, ws).logs == d.logs
    decreases |ws|
  {
    if ws != [] { LogsKept(d, ws[..|ws| - 1]); }
  }

  lemma {:induction false} LogsPut(d: Durable, ws: seq<Write>, logs: Logs, more: seq<Write>)
    requires KeepsLogs(more)
    ensures WrittenAll(d, ws + [PutLogs(logs)] + more).logs == logs
    decreases |more|
  {
    var all := ws + [PutLogs(logs)] + more;
    if more == [] {
      assert all == ws + [PutLogs(logs)] && all[..|all| - 1] == ws;
    } else {
      var k := |more| - 1;
      LogsPut(d, ws, logs, more[..k]);
      assert all[..|all| - 1] == ws + [PutLogs(logs)] + more[..k];
    }
  }

  /** Whether the proposal the entries speak of is at hand once the pending one has been checked. */
  predicate ProposalAtHand(n: Node, req: AppendReq, verdict: Verdict) {
    var hash := FirstProposal(req.entries);
    hash.Some? ==>
      if n.pending == hash then verdict == Verified || (n.d.proposal == hash && verdict != CheckFailed)
      else n.d.proposal == hash
  }

  lemma ReadyKeepsLogs(n: Node, req: AppendReq, verdict: Verdict)
    ensures var hash := FirstProposal(req.entries); hash.Some? ==>
      var r := ReadyProposal(n, hash.value, verdict);
      KeepsLogs(r.ws) && (ProposalAtHand(n, req, verdict) <==> r.local && !r.failed)
  {
  }

  function ReadyWrites(n: Node, req: AppendReq, verdict: Verdict): seq<Write> {
    var hash := FirstProposal(req.entries);
    if hash.Some? then ReadyProposal(n, hash.value, verdict).ws else []
  }

  predicate Answered(e: Effect, success: bool) {
    e.res.Some? && e.res.value.success == success
  }

  function LastAnswered(e: Effect): (nat, nat)
    requires e.res.Some?
  {
    (e.res.value.lastIndex, e.res.value.lastTerm)
  }

  /** The pending proposal is the one the entries speak of, and checking it ends in an error. */
  predicate CheckFails(n: Node, req: AppendReq, verdict: Verdict) {
    FirstProposal(req.entries).Some? && n.pending == FirstProposal(req.entries) && verdict == CheckFailed
  }

  /** With the proposal at hand the entries follow `logs`, otherwise `logs` stays. Unless the check fails
      there is an answer, under the request's term and with the last entry of the log it leaves. */
  predicate Performed(n: Node, e: Effect, logs: Logs, req: AppendReq, verdict: Verdict) {
    var after := WrittenAll(n.d, e.ws).logs;
    if ProposalAtHand(n, req, verdict)
    then after == Appended(logs, req.entries) && Answered(e, true) && e.res.value.term == req.term && LastAnswered(e) == LastOf(n.base, n.baseTerm, after)
    else after == logs && Refused(n, e, after, req, verdict)
  }

  predicate Refused(n: Node, e: Effect, after: Logs, req: AppendReq, verdict: Verdict) {
    !Answered(e, true) && (e.res.None? <==> CheckFails(n, req, verdict))
    && (e.res.Some? ==> e.res.value.term == req.term && LastAnswered(e) == LastOf(n.base, n.baseTerm, after))
  }

  /** The end of the handler, from any log `logs` already written. */
  lemma PerformLogs(n: Node, ws: seq<Write>, logs: Logs, req: AppendReq, verdict: Verdict)
    requires forall more :: KeepsLogs(more) ==> WrittenAll(n.d, ws + more).logs == logs
    ensures Performed(n, Perform(n, ws, logs, req, verdict), logs, req, verdict)
  {
    ReadyKeepsLogs(n, req, verdict);
    var e := Perform(n, ws, logs, req, verdict);
    var ready := ReadyWrites(n, req, verdict);
    assert KeepsLogs(ready);
    if ProposalAtHand(n, req, verdict) {
      var logs' := Appended(logs, req.entries);
      LogsPut(n.d, ws + ready, logs', []);
      assert ws + ready + [PutLogs(logs')] + [] == e.ws;
    } else {
      assert e.ws == ws + ready;
    }
  }

  /** The request is current and well formed, and `prev` is in the log with its term. */
  ghost predicate Reaches(n: Node, req: AppendReq)
    requires Valid(n)
  {
    req.term >= n.d.term && req.entries != [] && req.entries[0].index == req.prevIndex + 1
    && TermAt(n, req.prevIndex) == Some(req.prevTerm)
  }

  /** The guard of a successful append of entries. */
  ghost predicate Accepts(n: Node, req: AppendReq, verdict: Verdict)
    requires Valid(n)
  {
    Reaches(n, req) && ProposalAtHand(n, req, verdict)
  }

  function FirstWrites(n: Node, req: AppendReq): (ws: seq<Write>)
    ensures KeepsLogs(ws)
  {
    [PutCommit(req.commit)] + if req.term != n.d.term then [PutTerm(req.term), PutVote(None)] else []
  }

  lemma PerformKept(n: Node, req: AppendReq, verdict: Verdict)
    ensures Performed(n, Perform(n, FirstWrites(n, req), n.d.logs, req, verdict), n.d.logs, req, verdict)
  {
    var ws := FirstWrites(n, req);
    forall more | KeepsLogs(more) ensures WrittenAll(n.d, ws + more).logs == n.d.logs { LogsKept(n.d, ws + more); }
    PerformLogs(n, ws, n.d.logs, req, verdict);
  }

  lemma PerformCut(n: Node, logs: Logs, req: AppendReq, verdict: Verdict)
    ensures Performed(n, Perform(n, FirstWrites(n, req) + [PutLogs(logs)], logs, req, verdict), logs, req, verdict)
  {
    var ws := FirstWrites(n, req) + [PutLogs(logs)];
    forall more | KeepsLogs(more) ensures WrittenAll(n.d, ws + more).logs == logs { LogsPut(n.d, FirstWrites(n, req), logs, more); }
    PerformLogs(n, ws, logs, req, verdict);
  }

  lemma CutNothing(n: Node)
    requires Valid(n)
    ensures CutFrom(n.d.logs, Last(n).0 + 1) == n.d.logs
  {
    LastIs(n);
  }

  /** The path through the handler once `prev` has been found. */
  lemma ReachedPath(n: Node, req: AppendReq, verdict: Verdict)
    requires Valid(n) && Reaches(n, req)
    ensures var cut := CutFrom(n.d.logs, req.prevIndex + 1);
      OnAppend(n, req, verdict) ==
        if (req.prevIndex, req.prevTerm) == Last(n) then Perform(n, FirstWrites(n, req), n.d.logs, req, verdict)
        else Perform(n, FirstWrites(n, req) + [PutLogs(cut)], cut, req, verdict)
  {
    PrevExistsIs(n, req);
    hide Perform, TermAt, CutFrom, Valid, PrevExists, Last;
  }

  lemma ReachedLogs(n: Node, req: AppendReq, verdict: Verdict)
    requires Valid(n) && Reaches(n, req)
    ensures Performed(n, OnAppend(n, req, verdict), CutFrom(n.d.logs, req.prevIndex + 1), req, verdict)
  {
    hide Perform, Performed, CutFrom, Last, OnAppend, FirstWrites, Reaches, Valid;
    ReachedPath(n, req, verdict);
    if (req.prevIndex, req.prevTerm) == Last(n) {
      CutNothing(n);
      PerformKept(n, req, verdict);
    } else {
      PerformCut(n, CutFrom(n.d.logs, req.prevIndex + 1), req, verdict);
    }
  }

  lemma StoppedLogs(n: Node, req: AppendReq, verdict: Verdict)
    requires Valid(n) && !Reaches(n, req)
    ensures var e := OnAppend(n, req, verdict);
      WrittenAll(n.d, e.ws).logs == n.d.logs && !(Answered(e, true) && req.entries != [])
  {
    PrevExistsIs(n, req);
    LastIs(n);
    hide Perform, WrittenAll, TermAt, Valid, PrevExists, Last;
    LogsKept(n.d, []);
    LogsKept(n.d, FirstWrites(n, req));
  }

  lemma AcceptedSplices(n: Node, req: AppendReq, verdict: Verdict)
    requires Valid(n) && Consecutive(req.entries) && Accepts(n, req, verdict)
    ensures var (e, n') := (OnAppend(n, req, verdict), AfterAppend(n, req, verdict));
      Valid(n') && LogOf(n') == LogOf(n)[..req.prevIndex - n.base] + req.entries
      && Answered(e, true) && LastAnswered(e) == Last(n')
  {
    hide OnAppend, Appended, CutFrom, ProposalAtHand, LastOf, WrittenAll, Log, Contiguous;
    ReachedLogs(n, req, verdict);
    Splice(n.base, n.d.logs, req.prevIndex, req.entries);
  }

  lemma RefusedTruncates(n: Node, req: AppendReq, verdict: Verdict)
    requires Valid(n) && !Accepts(n, req, verdict)
    ensures var n' := AfterAppend(n, req, verdict); Valid(n') && LogOf(n') <= LogOf(n)
  {
    hide OnAppend, Appended, CutFrom, ProposalAtHand, LastOf, WrittenAll;
    if Reaches(n, req) {
      ReachedLogs(n, req, verdict);
      CutAfter(n.base, n.d.logs, req.prevIndex);
    } else {
      StoppedLogs(n, req, verdict);
    }
  }

  /** The refinement: a request whose indices are consecutive either replaces everything after `prev`
      by its entries, exactly when it is accepted, or leaves a prefix of the old log. */
  lemma AppendSplices(n: Node, req: AppendReq, verdict: Verdict)
    requires Valid(n) && Consecutive(req.entries)
    ensures Answered(OnAppend(n, req, verdict), true) && req.entries != [] <==> Accepts(n, req, verdict)
    ensures var n' := AfterAppend(n, req, verdict);
      Valid(n') && if Accepts(n, req, verdict) then LogOf(n') == LogOf(n)[..req.prevIndex - n.base] + req.entries
                   else LogOf(n') <= LogOf(n)
  {
    hide OnAppend, ProposalAtHand, WrittenAll, TermAt;
    if Accepts(n, req, verdict) {
      AcceptedSplices(n, req, verdict);
    } else {
      RefusedTruncates(n, req, verdict);
      if Reaches(n, req) { ReachedLogs(n, req, verdict); } else { StoppedLogs(n, req, verdict); }
    }
  }

  ghost predicate KeepsTerms(ws: seq<Write>) {
    forall i :: 0 <= i < |ws| ==> ws[i].PutLogs? || ws[i].PutProposal?
  }

  lemma {:induction false} TermsKept(d: Durable, ws: seq<Write>, more: seq<Write>)
    requires KeepsTerms(more)
    ensures var (e, e') := (WrittenAll(d, ws), WrittenAll(d, ws + more)); (e'.term, e'.votedFor, e'.commit) == (e.term, e.votedFor, e.commit)
    decreases |more|
  {
    if more == [] {
      assert ws + more == ws;
    } else {
      var k := |more| - 1;
      assert (ws + more)[..|ws| + k] == ws + more[..k];
      TermsKept(d, ws, more[..k]);
    }
  }

  lemma FirstWritten(n: Node, req: AppendReq)
    ensures WrittenAll(n.d, FirstWrites(n, req)) ==
      n.d.(commit := req.commit, term := req.term, votedFor := if req.term != n.d.term then None else n.d.votedFor)
  {
    assert WrittenAll(n.d, []) == n.d;
    hide WrittenAll;
    UpToOne(n.d, [], [PutCommit(req.commit)]);
    assert [] + [PutCommit(req.commit)] == [PutCommit(req.commit)];
    if req.term != n.d.term {
      UpToOne(n.d, [PutCommit(req.commit)], [PutTerm(req.term)]);
      UpToOne(n.d, [PutCommit(req.commit)] + [PutTerm(req.term)], [PutVote(None)]);
      assert FirstWrites(n, req) == [PutCommit(req.commit)] + [PutTerm(req.term)] + [PutVote(None)];
    } else {
      assert FirstWrites(n, req) == [PutCommit(req.commit)];
    }
  }

  lemma PerformKeepsTerms(n: Node, ws: seq<Write>, logs: Logs, req: AppendReq, verdict: Verdict)
    ensures var r := Perform(n, ws, logs, req, verdict).ws; ws <= r && KeepsTerms(r[|ws|..])
  {
    hide Appended, LastOf;
    var r := Perform(n, ws, logs, req, verdict).ws;
    var ready := ReadyWrites(n, req, verdict);
    assert r == ws + ready || r == ws + ready + [PutLogs(Appended(logs, req.entries))];
  }

  /** A current append request is followed in term and commit index whatever becomes of its entries, and
      a vote survives it exactly within its own term; an outdated one changes nothing. */
  lemma AppendAdopts(n: Node, req: AppendReq, verdict: Verdict)
    ensures var d := AfterAppend(n, req, verdict).d;
      if req.term < n.d.term then d == n.d
      else d.term == req.term && d.commit == req.commit && d.votedFor == if req.term != n.d.term then None else n.d.votedFor
  {
    hide Perform, LastOf, CutFrom;
    var (first, ws) := (FirstWrites(n, req), OnAppend(n, req, verdict).ws);
    if req.term >= n.d.term {
      FirstWritten(n, req);
      PerformKeepsTerms(n, first, n.d.logs, req, verdict);
      var cut := CutFrom(n.d.logs, req.prevIndex + 1);
      PerformKeepsTerms(n, first + [PutLogs(cut)], cut, req, verdict);
      var r := Perform(n, first + [PutLogs(cut)], cut, req, verdict).ws;
      assert r[|first|..] == [PutLogs(cut)] + r[|first| + 1..];
      assert first <= ws && KeepsTerms(ws[|first|..]);
      assert ws == first + ws[|first|..];
      TermsKept(n.d, first, ws[|first|..]);
    }
  }

  /** Everything a refresh leaves behind: term and commit index are raised to the base, a vote survives
      exactly when the term does, and the proposal exactly when the remaining log speaks of it. */
  lemma RefreshExact(n: Node, base: nat, baseTerm: nat)
    ensures Refreshed(n, base, baseTerm).d ==
      Durable(if n.d.term < baseTerm then baseTerm else n.d.term, if n.d.term < baseTerm then None else n.d.votedFor,
              if n.d.commit < base then base else n.d.commit, CutTo(n.d.logs, base),
              if InLogs(CutTo(n.d.logs, base), n.d.proposal) then n.d.proposal else None)
  {
    RefreshLogs(n, base, baseTerm);
    RefreshRaises(n.d, base, baseTerm);
    hide CutTo, InLogs, WrittenAll;
    var d := n.d;
    var ab := (if d.term < baseTerm then [PutTermAndVote(baseTerm, None)] else []) + (if d.commit < base then [PutCommit(base)] else []);
    var c := if exists k :: k in d.logs && k <= base then [PutLogs(CutTo(d.logs, base))] else [];
    var e := if InLogs(CutTo(d.logs, base), d.proposal) then [] else [PutProposal(None)];
    assert RefreshWrites(d, base, baseTerm) == ab + c + e;
    UpToOne(d, ab, c);
    UpToOne(d, ab + c, e);
  }

  lemma RefreshRaises(d: Durable, base: nat, baseTerm: nat)
    ensures WrittenAll(d, (if d.term < baseTerm then [PutTermAndVote(baseTerm, None)] else []) + (if d.commit < base then [PutCommit(base)] else [])) ==
      d.(term := if d.term < baseTerm then baseTerm else d.term, votedFor := if d.term < baseTerm then None else d.votedFor,
         commit := if d.commit < base then base else d.commit)
  {
    assert WrittenAll(d, []) == d;
    hide WrittenAll;
    var a := if d.term < baseTerm then [PutTermAndVote(baseTerm, None)] else [];
    UpToOne(d, [], a);
    assert [] + a == a;
    UpToOne(d, a, if d.commit < base then [PutCommit(base)] else []);
  }

  lemma UpToOne(d: Durable, ws: seq<Write>, w: seq<Write>)
    requires |w| <= 1
    ensures WrittenAll(d, ws + w) == if w == [] then WrittenAll(d, ws) else Written(WrittenAll(d, ws), w[0])
  {
    if w == [] { assert ws + w == ws; } else { assert (ws + w)[..|ws|] == ws; }
  }

  /** A refresh with a base that has not gone back drops exactly the entries the base now covers. */
  lemma RefreshDrops(n: Node, base: nat, baseTerm: nat)
    requires Valid(n) && n.base <= base
    ensures var n' := Refreshed(n, base, baseTerm);
      Valid(n') && LogOf(n') == if base - n.base <= |LogOf(n)| then LogOf(n)[base - n.base..] else []
  {
    RaiseBase(n.base, n.d.logs, base);
    RefreshLogs(n, base, baseTerm);
  }

  lemma RefreshLogs(n: Node, base: nat, baseTerm: nat)
    ensures Refreshed(n, base, baseTerm).d.logs == CutTo(n.d.logs, base)
  {
    var d := n.d;
    var before := (if d.term < baseTerm then [PutTermAndVote(baseTerm, None)] else []) + (if d.commit < base then [PutCommit(base)] else []);
    var after := if InLogs(CutTo(d.logs, base), d.proposal) then [] else [PutProposal(None)];
    if exists k :: k in d.logs && k <= base {
      LogsPut(d, before, CutTo(d.logs, base), after);
      assert RefreshWrites(d, base, baseTerm) == before + [PutLogs(CutTo(d.logs, base))] + after;
    } else {
      assert RefreshWrites(d, base, baseTerm) == before + after;
      LogsKept(d, before + after);
      assert CutTo(d.logs, base) == d.logs;
    }
  }
}
