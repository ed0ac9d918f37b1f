/** The Raft node as an object: every update goes to the database first and then to memory. */
module RaftFollower {
  import opened RaftLog
  import opened RaftNode
  import opened RaftSplice
  import opened RaftVotes
  import opened RaftAnswers

  lemma {:induction false} WrittenConcat(d: Durable, ws: seq<Write>, more: seq<Write>)
    ensures WrittenAll(d, ws + more) == WrittenAll(WrittenAll(d, ws), more)
    decreases |more|
  {
    if more == [] {
      assert ws + more == ws;
    } else {
      var k := |more| - 1;
      WrittenConcat(d, ws, more[..k]);
      assert (ws + more)[..|ws| + k] == ws + more[..k];
    }
  }

  class Follower {
    var base: nat
    var baseTerm: nat
    var mem: Durable
    var db: Durable
    var pending: Option<nat>
    ghost var first: Durable
    ghost var trace: seq<Write>

    /** Memory and database agree, and both are what the writes so far amount to. */
    ghost predicate Synced()
      reads this
    {
      mem == db == WrittenAll(first, trace)
    }

    ghost function Snapshot(): Node
      reads this
    {
      Node(base, baseTerm, mem, pending)
    }

    /** Start on a database as some earlier life left it. */
    constructor (stored: Durable, base: nat, baseTerm: nat)
      ensures Synced() && Snapshot() == Refreshed(Node(base, baseTerm, stored, None), base, baseTerm)
      ensures first == stored && trace == RefreshWrites(stored, base, baseTerm)
    {
      this.base, this.baseTerm, pending := base, baseTerm, None;
      mem, db, first, trace := stored, stored, stored, [];
      new;
      Refresh(base, baseTerm);
    }

    method UpdateCurrentTerm(term: nat)
      requires Synced()
      modifies this`mem, this`db, this`trace
      ensures Synced() && trace == old(trace) + [PutTerm(term)] && mem == old(mem).(term := term)
    {
      WrittenMore(first, trace, PutTerm(term));
      hide WrittenAll;
      trace := trace + [PutTerm(term)];
      db := db.(term := term);
      mem := mem.(term := term);
    }

    method UpdateCurrentVotedFor(vote: Option<Address>)
      requires Synced()
      modifies this`mem, this`db, this`trace
      ensures Synced() && trace == old(trace) + [PutVote(vote)] && mem == old(mem).(votedFor := vote)
    {
      WrittenMore(first, trace, PutVote(vote));
      hide WrittenAll;
      trace := trace + [PutVote(vote)];
      db := db.(votedFor := vote);
      mem := mem.(votedFor := vote);
    }

    method UpdateCommitLogIndex(commit: nat)
      requires Synced()
      modifies this`mem, this`db, this`trace
      ensures Synced() && trace == old(trace) + [PutCommit(commit)] && mem == old(mem).(commit := commit)
    {
      WrittenMore(first, trace, PutCommit(commit));
      hide WrittenAll;
      trace := trace + [PutCommit(commit)];
      db := db.(commit := commit);
      mem := mem.(commit := commit);
    }

    method UpdateProposal(proposal: Option<nat>)
      requires Synced()
      modifies this`mem, this`db, this`trace
      ensures Synced() && trace == old(trace) + [PutProposal(proposal)] && mem == old(mem).(proposal := proposal)
    {
      WrittenMore(first, trace, PutProposal(proposal));
      hide WrittenAll;
      trace := trace + [PutProposal(proposal)];
      db := db.(proposal := proposal);
      mem := mem.(proposal := proposal);
    }

    /** The log alone changes in memory first; the database then takes the whole log. */
    method SaveLogs(logs: Logs)
      requires Synced()
      modifies this`mem, this`db, this`trace
      ensures Synced() && trace == old(trace) + [PutLogs(logs)] && mem == old(mem).(logs := logs)
    {
      WrittenMore(first, trace, PutLogs(logs));
      hide WrittenAll;
      mem := mem.(logs := logs);
      trace := trace + [PutLogs(logs)];
      db := db.(logs := logs);
    }

    method AppendLogEntries(entries: seq<Entry>)
      requires Synced()
      modifies this`mem, this`db, this`trace
      ensures var logs := Appended(old(mem).logs, entries);
        Synced() && trace == old(trace) + [PutLogs(logs)] && mem == old(mem).(logs := logs)
    {
      var logs := AppendEntries(mem.logs, entries);
      SaveLogs(logs);
    }

    method DeleteLogEntries(from: nat)
      requires Synced()
      modifies this`mem, this`db, this`trace
      ensures var logs := CutFrom(old(mem).logs, from);
        Synced() && trace == old(trace) + [PutLogs(logs)] && mem == old(mem).(logs := logs)
    {
      var logs := DeleteFrom(mem.logs, from);
      SaveLogs(logs);
    }

    method GetLastLogIndexTerm() returns (index: nat, term: nat)
      ensures (index, term) == Last(Snapshot())
    {
      if mem.logs.Keys == {} { return base, baseTerm; }
      var e := mem.logs[MaxKey(mem.logs.Keys)];
      index, term := e.index, e.term;
    }

    method RefreshNumbers(base: nat, baseTerm: nat)
      requires Synced()
      modifies this`mem, this`db, this`trace
      ensures Synced() && mem.logs == old(mem).logs && mem.proposal == old(mem).proposal
      ensures trace == old(trace) + (if old(mem).term < baseTerm then [PutTermAndVote(baseTerm, None)] else [])
        + (if old(mem).commit < base then [PutCommit(base)] else [])
    {
      if mem.term < baseTerm {
        WrittenMore(first, trace, PutTermAndVote(baseTerm, None));
        trace := trace + [PutTermAndVote(baseTerm, None)];
        mem := mem.(term := baseTerm, votedFor := None);
        db := mem;
      }
      if mem.commit < base {
        UpdateCommitLogIndex(base);
      }
    }

    method RefreshEntries(base: nat)
      requires Synced()
      modifies this`mem, this`db, this`trace
      ensures Synced() && mem.logs == CutTo(old(mem).logs, base)
      ensures trace == old(trace) + (if exists k :: k in old(mem).logs && k <= base then [PutLogs(CutTo(old(mem).logs, base))] else [])
        + (if InLogs(CutTo(old(mem).logs, base), old(mem).proposal) then [] else [PutProposal(None)])
    {
      if exists k :: k in mem.logs && k <= base {
        var logs := DeleteTo(mem.logs, base);
        SaveLogs(logs);
      } else {
        assert CutTo(mem.logs, base) == mem.logs;
      }
      if !InLogs(mem.logs, mem.proposal) {
        UpdateProposal(None);
      }
    }

    method Refresh(base: nat, baseTerm: nat)
      requires Synced()
      modifies this
      ensures Synced() && first == old(first) && trace == old(trace) + RefreshWrites(old(mem), base, baseTerm)
      ensures Snapshot() == Refreshed(old(Snapshot()), base, baseTerm)
    {
      hide CutTo, InLogs, WrittenAll;
      ghost var (d, done) := (mem, trace);
      WrittenConcat(first, trace, RefreshWrites(d, base, baseTerm));
      RefreshNumbers(base, baseTerm);
      RefreshEntries(base);
      this.base, this.baseTerm := base, baseTerm;
      assert trace == done + RefreshWrites(d, base, baseTerm);
    }

    method OnReqRequestVote(from: Address, req: VoteReq, recent: bool) returns (res: VoteRes)
      requires Synced()
      modifies this`mem, this`db, this`trace
      ensures Synced() && (trace, res) == (old(trace) + OnVote(old(Snapshot()), from, req, recent).0, OnVote(old(Snapshot()), from, req, recent).1)
      ensures forall me: Address :: Snapshot() == After(old(Snapshot()), me, Vote(from, req, recent))
      ensures VoteAnswer(old(Snapshot()), from, req, recent, Snapshot(), res)
    {
      VoteAnswers(Snapshot(), 0, from, req, recent);
      hide VoteAnswer;
      ghost var ws := OnVote(Snapshot(), from, req, recent).0;
      WrittenConcat(first, trace, ws);
      res := Decide(from, req, recent);
    }

    method Decide(from: Address, req: VoteReq, recent: bool) returns (res: VoteRes)
      requires Synced()
      modifies this`mem, this`db, this`trace
      ensures Synced() && res == OnVote(old(Snapshot()), from, req, recent).1
      ensures trace == old(trace) + OnVote(old(Snapshot()), from, req, recent).0
    {
      var current := mem.term;
      if req.term < current { return VoteRes(current, false); }
      if recent { return VoteRes(current, false); }
      if req.term > current {
        UpdateCurrentTerm(req.term);
        UpdateCurrentVotedFor(None);
      }
      var index, term := GetLastLogIndexTerm();
      if !(req.lastIndex >= index && req.lastTerm >= term) { return VoteRes(current, false); }
      match mem.votedFor {
        case Some(voted) => res := VoteRes(current, voted == from);
        case None =>
          UpdateCurrentVotedFor(Some(from));
          res := VoteRes(current, true);
      }
    }

    /** Check the local and the pending proposal against the hash in the entries. */
    method ReadyFor(hash: nat, verdict: Verdict) returns (failed: bool)
      requires Synced()
      modifies this`mem, this`db, this`trace, this`pending
      ensures Synced() && mem == old(mem).(proposal := mem.proposal)
      ensures var r := ReadyProposal(old(Snapshot()), hash, verdict);
        trace == old(trace) + r.ws && pending == r.pending && failed == r.failed && (!failed ==> mem.proposal.Some? == r.local)
    {
      hide WrittenAll;
      failed := false;
      if mem.proposal != Some(hash) { UpdateProposal(None); }
      if pending != Some(hash) { pending := None; }
      if pending.Some? {
        match verdict {
          case Verified =>
            pending := None;
            UpdateProposal(Some(hash));
          case Wait =>
          case Discard => pending := None;
          case CheckFailed =>
            pending := None;
            failed := true;
        }
      }
    }

    method PerformAppendEntries(req: AppendReq, verdict: Verdict) returns (res: Option<AppendRes>)
      requires Synced() && mem.term == req.term
      modifies this`mem, this`db, this`trace, this`pending
      ensures Synced()
      ensures var e := Perform(old(Snapshot()), old(trace), old(mem).logs, req, verdict);
        trace == e.ws && pending == e.pending && res == e.res
    {
      var hash := FirstProposal(req.entries);
      if hash.Some? {
        var failed := ReadyFor(hash.value, verdict);
        if failed { return None; }
        if mem.proposal.None? {
          var index, term := GetLastLogIndexTerm();
          return Some(AppendRes(false, mem.term, index, term));
        }
      }
      AppendLogEntries(req.entries);
      var index, term := GetLastLogIndexTerm();
      res := Some(AppendRes(true, mem.term, index, term));
    }

    /** The request handler up to the choice of where to splice. */
    method Accept(req: AppendReq)
      requires Synced() && req.term >= mem.term
      modifies this`mem, this`db, this`trace
      ensures Synced() && trace == old(trace) + FirstWrites(old(Snapshot()), req)
      ensures mem.term == req.term && mem.logs == old(mem).logs && mem.proposal == old(mem).proposal
    {
      var current := mem.term;
      UpdateCommitLogIndex(req.commit);
      if req.term != current {
        UpdateCurrentTerm(req.term);
        UpdateCurrentVotedFor(None);
      }
    }

    method PrevLogExists(req: AppendReq) returns (r: bool)
      ensures r == PrevExists(Snapshot(), req)
    {
      r := (req.prevIndex in mem.logs && mem.logs[req.prevIndex].term == req.prevTerm)
        || (req.prevIndex == base && req.prevTerm == baseTerm);
    }

    method Handle(req: AppendReq, verdict: Verdict) returns (res: Option<AppendRes>)
      requires Synced()
      modifies this`mem, this`db, this`trace, this`pending
      ensures Synced()
      ensures var e := OnAppend(old(Snapshot()), req, verdict); trace == old(trace) + e.ws && pending == e.pending && res == e.res
    {
      hide LastOf, CutFrom, Perform, WrittenAll, ProposalAtHand;
      ghost var (n, done) := (Snapshot(), trace);
      var index, term := GetLastLogIndexTerm();
      var current := mem.term;
      if req.term < current { return Some(AppendRes(false, current, index, term)); }
      Accept(req);
      if req.entries == [] { return Some(AppendRes(true, current, index, term)); }
      if req.entries[0].index != req.prevIndex + 1 { return Some(AppendRes(false, current, index, term)); }
      ghost var ws := FirstWrites(n, req);
      if req.prevIndex == index && req.prevTerm == term {
        PerformShift(n, Snapshot(), done, ws, mem.logs, req, verdict);
        res := PerformAppendEntries(req, verdict);
        return;
      }
      var found := PrevLogExists(req);
      if !found { return Some(AppendRes(false, current, base, baseTerm)); }
      ghost var cut := CutFrom(n.d.logs, req.prevIndex + 1);
      DeleteLogEntries(req.prevIndex + 1);
      assert trace == done + (ws + [PutLogs(cut)]);
      PerformShift(n, Snapshot(), done, ws + [PutLogs(cut)], cut, req, verdict);
      res := PerformAppendEntries(req, verdict);
    }

    /** The whole append request: the writes, the answer and the state are those of the specification. */
    method OnReqAppendEntries(req: AppendReq, verdict: Verdict) returns (res: Option<AppendRes>)
      requires Synced()
      modifies this`mem, this`db, this`trace, this`pending
      ensures Synced() && res == OnAppend(old(Snapshot()), req, verdict).res
      ensures Snapshot() == AfterAppend(old(Snapshot()), req, verdict)
      ensures Valid(old(Snapshot())) ==> ProposalsAfter(old(Snapshot()), Reaches(old(Snapshot()), req), req, verdict, Snapshot())
      ensures Valid(old(Snapshot())) && Consecutive(req.entries) ==>
        Valid(Snapshot()) && AppendAnswer(old(Snapshot()), req, verdict, Snapshot(), res)
    {
      if Valid(Snapshot()) {
        AppendProposals(Snapshot(), req, verdict);
        if Consecutive(req.entries) { AppendAnswers(Snapshot(), req, verdict); }
      }
      hide OnAppend, AppendAnswer, ProposalsAfter, Reaches, Valid;
      WrittenConcat(first, trace, OnAppend(Snapshot(), req, verdict).ws);
      res := Handle(req, verdict);
    }
  }

  /** Performing depends only on the base, the two proposals and the log in hand. */
  lemma PerformShift(n: Node, n': Node, before: seq<Write>, ws: seq<Write>, logs: Logs, req: AppendReq, verdict: Verdict)
    requires (n.base, n.baseTerm, n.pending, n.d.proposal) == (n'.base, n'.baseTerm, n'.pending, n'.d.proposal)
    ensures var (e, e') := (Perform(n, ws, logs, req, verdict), Perform(n', before + ws, logs, req, verdict));
      e'.ws == before + e.ws && e'.pending == e.pending && e'.res == e.res
  {
    hide LastOf, Appended;
    var hash := FirstProposal(req.entries);
    if hash.Some? { assert ReadyProposal(n, hash.value, verdict) == ReadyProposal(n', hash.value, verdict); }
    var ready := ReadyWrites(n, req, verdict);
    assert before + ws + ready == before + (ws + ready);
  }
}
