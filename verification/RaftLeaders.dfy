/** The term a leader was elected for and the term it works under. A refresh after a block committed by
    somebody else can raise the stored term in the middle of a campaign or a leadership. */
module RaftLeaders {
  import opened RaftLog
  import opened RaftNode
  import opened RaftVotes
  import opened RaftElection

  /** The term a candidate is being elected for, or a leader was. */
  function Pursued(m: Member): Option<nat> {
    if m.campaign.Some? then Some(m.campaign.value.term) else m.elected
  }

  function StoredTerm(c: Cluster, a: Address): nat
    requires a in c.members
  {
    c.members[a].life.n.d.term
  }

  predicate Pursues(c: Cluster, a: Address, term: nat) {
    a in c.members && Pursued(c.members[a]) == Some(term)
  }

  /** While `a` campaigns for `term`, or leads by it, a block of a later term is committed. */
  predicate Overtaken(c: Cluster, act: Action, a: Address, term: nat) {
    Pursues(c, a, term) && act.Local? && act.a == a && act.step.Full? && act.step.ev.Refresh? && act.step.ev.baseTerm > term
  }

  // ---------------------------------------------------------------- one step

  lemma MembersStay(auth: set<Address>, c: Cluster, act: Action)
    requires Enabled(auth, c, act)
    ensures Next(auth, c, act).members.Keys == c.members.Keys
  {
    hide Stepped, Asked, OnVote;
  }

  lemma TermsGrow(auth: set<Address>, c: Cluster, act: Action, a: Address)
    requires Enabled(auth, c, act) && a in c.members
    ensures a in Next(auth, c, act).members && StoredTerm(c, a) <= StoredTerm(Next(auth, c, act), a)
  {
    hide Stepped, Asked, OnVote;
    var l := c.members[a].life;
    match act
    case StartCampaign(b, _) => StepGuarded(l, a, Full(Campaign));
    case HandleAsk(ask, recent) => StepGuarded(l, a, Full(Vote(ask.from, ask.req, recent)));
    case HandleAnswer(r) => StepGuarded(l, a, Full(Outvoted(r.res.term)));
    case Local(b, step) => StepGuarded(l, a, step);
    case StepDown(_) =>
  }

  /** Pursuit of a term begins with a campaign under that very term; from then on only a refresh moves
      the stored term. */
  ghost predicate PursuitMoves(c: Cluster, act: Action, c': Cluster, a: Address, term: nat)
    requires a in c.members && a in c'.members
  {
    (act.StartCampaign? && act.a == a && StoredTerm(c', a) == term && StoredTerm(c, a) < term)
    || (Pursues(c, a, term) &&
        if act.Local? && act.a == a && act.step.Full? && act.step.ev.Refresh?
        then StoredTerm(c', a) == if StoredTerm(c, a) < act.step.ev.baseTerm then act.step.ev.baseTerm else StoredTerm(c, a)
        else StoredTerm(c', a) == StoredTerm(c, a))
  }

  lemma StartPursuit(auth: set<Address>, c: Cluster, b: Address, targets: seq<Address>, a: Address, term: nat)
    requires a in c.members && b in c.members && Pursues(Campaigned(auth, c, b, targets), a, term)
    ensures PursuitMoves(c, StartCampaign(b, targets), Campaigned(auth, c, b, targets), a, term)
  {
    hide Asked;
    var n := c.members[b].life.n;
    WrittenTwo(n.d, PutTerm(n.d.term + 1), PutVote(Some(b)));
  }

  lemma AskPursuit(c: Cluster, ask: Ask, recent: bool, a: Address, term: nat)
    requires a in c.members && ask.to in c.members && Pursues(Answered(c, ask, recent), a, term)
    ensures PursuitMoves(c, HandleAsk(ask, recent), Answered(c, ask, recent), a, term)
  {
    hide OnVote;
    var d := c.members[ask.to].life.n.d;
    assert WrittenAll(d, []) == d;
  }

  lemma AnswerPursuit(auth: set<Address>, c: Cluster, r: Answer, a: Address, term: nat)
    requires a in c.members && r.to in c.members && Pursues(Tallied(auth, c, r), a, term)
    ensures PursuitMoves(c, HandleAnswer(r), Tallied(auth, c, r), a, term)
  {
    hide Stepped;
  }

  lemma LocalPursuit(c: Cluster, b: Address, step: Step, a: Address, term: nat)
    requires a in c.members && b in c.members && Pursues(Moved(c, b, step), a, term)
    requires step.Full? ==> step.ev.Append? || step.ev.Receive? || step.ev.Refresh? || step.ev.Lead?
    ensures PursuitMoves(c, Local(b, step), Moved(c, b, step), a, term)
  {
    hide Appended, Last, InLogs, CutTo;
    if a == b && step.Full? {
      var n := c.members[a].life.n;
      QuietEvents(n, a, step.ev);
    }
  }

  /** Neither an outdated append request, nor a proposal, nor an entry of the leader moves the term. */
  lemma QuietEvents(n: Node, me: Address, ev: Event)
    requires ev.Append? || ev.Receive? || ev.Refresh? || ev.Lead?
    ensures !ev.Refresh? && (ev.Append? ==> ev.appendReq.term < n.d.term) ==> After(n, me, ev).d.term == n.d.term
    ensures ev.Refresh? ==> After(n, me, ev).d.term == if n.d.term < ev.baseTerm then ev.baseTerm else n.d.term
  {
    hide RefreshWrites, Appended, Last;
    if ev.Refresh? {
      RefreshTerm(n.d, ev.base, ev.baseTerm);
    } else if ev.Append? ==> ev.appendReq.term < n.d.term {
      var ws := Writes(n, me, ev);
      assert [] + ws == ws;
      TermKept(n.d, [], ws);
    }
  }

  lemma StepPursuit(auth: set<Address>, c: Cluster, act: Action, a: Address, term: nat)
    requires Enabled(auth, c, act) && a in c.members && Pursues(Next(auth, c, act), a, term)
    ensures PursuitMoves(c, act, Next(auth, c, act), a, term)
  {
    hide PursuitMoves, Campaigned, Answered, Tallied, Moved;
    match act
    case StartCampaign(b, targets) => StartPursuit(auth, c, b, targets, a, term);
    case HandleAsk(ask, recent) => AskPursuit(c, ask, recent, a, term);
    case HandleAnswer(r) => AnswerPursuit(auth, c, r, a, term);
    case Local(b, step) => LocalPursuit(c, b, step, a, term);
    case StepDown(b) => ResignedPursuit(auth, c, b, a, term);
  }

  lemma ResignedPursuit(auth: set<Address>, c: Cluster, b: Address, a: Address, term: nat)
    requires a in c.members && b in c.members && Pursues(Next(auth, c, StepDown(b)), a, term)
    ensures PursuitMoves(c, StepDown(b), Next(auth, c, StepDown(b)), a, term)
  {
  }

  // ---------------------------------------------------------------- whole runs

  lemma {:induction false} TermsGrowRun(auth: set<Address>, cs: seq<Cluster>, acts: seq<Action>, a: Address, i: nat, j: nat)
    requires IsRun(auth, cs, acts) && i <= j < |cs| && a in cs[j].members
    ensures a in cs[i].members && StoredTerm(cs[i], a) <= StoredTerm(cs[j], a)
    decreases j
  {
    hide Enabled, Next;
    if i < j {
      MembersStay(auth, cs[j - 1], acts[j - 1]);
      TermsGrow(auth, cs[j - 1], acts[j - 1], a);
      TermsGrowRun(auth, cs, acts, a, i, j - 1);
    }
  }

  ghost predicate EverOvertaken(cs: seq<Cluster>, acts: seq<Action>, n: nat, a: Address, term: nat)
    requires n <= |acts| && n <= |cs|
  {
    exists i :: 0 <= i < n && Overtaken(cs[i], acts[i], a, term)
  }

  /** A candidate or leader never works under a term below the one it pursues, and works under that very
      term exactly as long as no block of a later one was committed on its side since its campaign
      began. */
  lemma {:induction false} PursuedTerm(auth: set<Address>, cs: seq<Cluster>, acts: seq<Action>, n: nat, a: Address, term: nat)
    requires IsRun(auth, cs, acts) && n < |cs| && Pursues(cs[n], a, term)
    ensures term <= StoredTerm(cs[n], a)
    ensures term < StoredTerm(cs[n], a) <==> EverOvertaken(cs, acts, n, a, term)
    decreases n
  {
    hide Enabled, Next, Pursued;
    if n == 0 {
      InitialPursuesNothing(cs[0], a, term);
    } else {
      var k := n - 1;
      MembersStay(auth, cs[k], acts[k]);
      StepPursuit(auth, cs[k], acts[k], a, term);
      if Pursues(cs[k], a, term) {
        PursuedTerm(auth, cs, acts, k, a, term);
        assert Overtaken(cs[k], acts[k], a, term) ==> EverOvertaken(cs, acts, n, a, term);
        assert EverOvertaken(cs, acts, n, a, term) <==> EverOvertaken(cs, acts, k, a, term) || Overtaken(cs[k], acts[k], a, term);
      } else {
        forall i | 0 <= i < n ensures !Overtaken(cs[i], acts[i], a, term) {
          if Pursues(cs[i], a, term) {
            PursuedTerm(auth, cs, acts, i, a, term);
            TermsGrowRun(auth, cs, acts, a, i, k);
          }
        }
      }
    }
  }

  lemma InitialPursuesNothing(c: Cluster, a: Address, term: nat)
    requires Initial(c)
    ensures !Pursues(c, a, term)
  {
  }

  // ---------------------------------------------------------------- leaders of one stored term

  predicate Leads(c: Cluster, a: Address, term: nat) {
    a in c.members && c.members[a].campaign.None? && c.members[a].elected == Some(term)
  }

  predicate Won(c: Cluster, a: Address, term: nat) {
    exists w :: w in c.wins && w.leader == a && w.term == term
  }

  lemma LeaderWon(auth: set<Address>, c: Cluster, act: Action, a: Address, term: nat)
    requires Enabled(auth, c, act) && a in c.members && Leads(Next(auth, c, act), a, term)
    ensures Leads(c, a, term) || Won(Next(auth, c, act), a, term)
  {
    hide Stepped, Asked, OnVote, Won;
    var c' := Next(auth, c, act);
    if !Leads(c, a, term) {
      var w :| w in c'.wins && w.leader == a && w.term == term;
      WinShows(c', w);
    }
  }

  lemma WinShows(c: Cluster, w: Win)
    requires w in c.wins
    ensures Won(c, w.leader, w.term)
  {
  }

  lemma {:induction false} LeadersWon(auth: set<Address>, cs: seq<Cluster>, acts: seq<Action>, n: nat, a: Address, term: nat)
    requires IsRun(auth, cs, acts) && n < |cs| && Leads(cs[n], a, term)
    ensures Won(cs[n], a, term)
    decreases n
  {
    hide Enabled, Next;
    if n > 0 {
      var k := n - 1;
      MembersStay(auth, cs[k], acts[k]);
      LeaderWon(auth, cs[k], acts[k], a, term);
      if Leads(cs[k], a, term) {
        LeadersWon(auth, cs, acts, k, a, term);
        WinsGrow(auth, cs[k], acts[k]);
      }
    }
  }

  /** Two leaders, at whatever two points of a run, that work under the same stored term are one and the
      same, unless a block of a term later than its own election reached one of them since its campaign
      began. */
  lemma OneLeaderPerStoredTerm(
      auth: set<Address>, cs: seq<Cluster>, acts: seq<Action>, i: nat, j: nat, a: Address, b: Address, term: nat, term': nat)
    requires IsRun(auth, cs, acts) && i < |cs| && j < |cs| && Leads(cs[i], a, term) && Leads(cs[j], b, term')
    requires StoredTerm(cs[i], a) == StoredTerm(cs[j], b)
    ensures a == b || EverOvertaken(cs, acts, i, a, term) || EverOvertaken(cs, acts, j, b, term')
    ensures !EverOvertaken(cs, acts, i, a, term) <==> StoredTerm(cs[i], a) == term
  {
    hide IsRun, EverOvertaken;
    PursuedTerm(auth, cs, acts, i, a, term);
    PursuedTerm(auth, cs, acts, j, b, term');
    if term == term' {
      LeadersWon(auth, cs, acts, i, a, term);
      LeadersWon(auth, cs, acts, j, b, term');
      var w :| w in cs[i].wins && w.leader == a && w.term == term;
      var w' :| w' in cs[j].wins && w'.leader == b && w'.term == term';
      ElectionSafety(auth, cs, acts, i, j, w, w');
    }
  }

  // ---------------------------------------------------------------- a run with two of them

  const THREE: set<Address> := {0, 1, 2}

  /** A node with an empty log. */
  function Plain(baseTerm: nat, term: nat, vote: Option<Address>, commit: nat): Node {
    Node(commit, baseTerm, Durable(term, vote, commit, map[], None), None)
  }

  lemma PlainCampaigns(term: nat, vote: Option<Address>, me: Address)
    ensures After(Plain(0, term, vote, 0), me, Campaign) == Plain(0, term + 1, Some(me), 0)
  {
    WrittenTwo(Plain(0, term, vote, 0).d, PutTerm(term + 1), PutVote(Some(me)));
  }

  lemma PlainGrants(term: nat, vote: Option<Address>, me: Address, from: Address, later: nat)
    requires later > term
    ensures var (n, req) := (Plain(0, term, vote, 0), VoteReq(later, 0, 0));
      After(n, me, Vote(from, req, false)) == Plain(0, later, Some(from), 0)
      && OnVote(n, from, req, false).0 != [] && OnVote(n, from, req, false).1 == VoteRes(term, true)
  {
    var n := Plain(0, term, vote, 0);
    WrittenTwo(n.d, PutTerm(later), PutVote(None));
    WrittenMore(n.d, [PutTerm(later), PutVote(None)], PutVote(Some(from)));
  }

  lemma PlainRefreshes(term: nat, vote: Option<Address>, me: Address, baseTerm: nat)
    requires baseTerm > term
    ensures After(Plain(0, term, vote, 0), me, Refresh(1, baseTerm)) == Plain(baseTerm, baseTerm, None, 1)
  {
    var d := Plain(0, term, vote, 0).d;
    var (w1, w2, w3) := (PutTermAndVote(baseTerm, None), PutCommit(1), PutProposal(None));
    assert RefreshWrites(d, 1, baseTerm) == [w1, w2] + [w3];
    WrittenTwo(d, w1, w2);
    WrittenMore(d, [w1, w2], w3);
  }

  function Ordinary(n: Node, grants: seq<Grant>): Member { Member(Life(n, grants), 0, 0, None, None) }

  /** Node 0 asks node 2 for its vote in term 1, node 1 asks node 2 in term 2. */
  function Request(a: Address): Ask { Ask(a, 0, 0, 2, VoteReq(a + 1, 0, 0)) }

  function Reply(a: Address): Answer { Answer(2, a, 0, 0, VoteRes(a, true)) }

  function Candidate(a: Address, n: Node): Member {
    Member(Life(n, [Grant(a + 1, a)]), 0, 1, Some(Campaigning(a + 1, 1, {0}, {a})), None)
  }

  function Elected(a: Address, n: Node): Member {
    Member(Life(n, [Grant(a + 1, a)]), 0, 1, None, Some(a + 1))
  }

  function Victory(a: Address): Win { Win(a, a + 1, {a, 2}) }

  /** Nodes 0 and 1 as they start, as candidates, and node 2 before and after each of its votes. */
  function Fresh(a: Address): Member { Ordinary(Plain(0, a, None, 0), []) }

  function Running(a: Address): Member { Candidate(a, Plain(0, a + 1, Some(a), 0)) }

  function Voter(k: nat): Member
    requires k <= 2
  {
    if k == 0 then Ordinary(Plain(0, 0, None, 0), [])
    else if k == 1 then Ordinary(Plain(0, 1, Some(0), 0), [Grant(1, 0)])
    else Ordinary(Plain(0, 2, Some(1), 0), [Grant(1, 0), Grant(2, 1)])
  }

  lemma Starts(c: Cluster, a: Address)
    requires a < 2 && c.members.Keys == THREE && c.members[a] == Fresh(a)
    ensures Enabled(THREE, c, StartCampaign(a, [2]))
    ensures Campaigned(THREE, c, a, [2]) == c.(members := c.members[a := Running(a)], asks := c.asks + {Request(a)})
  {
    var m := c.members[a];
    PlainCampaigns(a, None, a);
    var m1 := m.(life := Stepped(m.life, a, Full(Campaign)));
    assert m1.life == Life(Plain(0, a + 1, Some(a), 0), [Grant(a + 1, a)]);
    assert Last(m1.life.n) == (0, 0);
    var asked := Asked(m1, a, [2]);
    assert asked == {Request(a)} by {
      assert [2][0] == 2 && Request(a) in asked;
      assert forall x :: x in asked ==> x == Request(a);
    }
    assert (set x | x in asked :: x.id) == {0};
  }

  lemma Grants(c: Cluster, a: Address)
    requires a < 2 && c.members.Keys == THREE && c.members[2] == Voter(a) && Request(a) in c.asks
    ensures Enabled(THREE, c, HandleAsk(Request(a), false))
    ensures Answered(c, Request(a), false) == c.(members := c.members[2 := Voter(a + 1)], answers := c.answers + {Reply(a)})
  {
    hide OnVote, After;
    var m := c.members[2];
    assert m.life.n == Plain(0, a, m.life.n.d.votedFor, 0);
    PlainGrants(a, m.life.n.d.votedFor, 2, a, a + 1);
    var l := Stepped(m.life, 2, Full(Vote(a, Request(a).req, false)));
    assert l.grants == m.life.grants + [Grant(a + 1, a)];
    assert a == 0 || a == 1;
    assert l.grants == Voter(a + 1).life.grants;
    assert l == Voter(a + 1).life;
    assert Resigned(m.(life := l)) == Voter(a + 1);
  }

  lemma Tallies(c: Cluster, a: Address, n: Node)
    requires a < 2 && c.members.Keys == THREE && c.members[a] == Candidate(a, n) && n.d.term >= a && Reply(a) in c.answers
    ensures Enabled(THREE, c, HandleAnswer(Reply(a)))
    ensures Tallied(THREE, c, Reply(a)) == c.(members := c.members[a := Elected(a, n)], wins := c.wins + {Victory(a)})
  {
    hide Plain, Stepped;
    assert |THREE| == 3;
    var k := Campaigning(a + 1, 1 + 1, {0} - {0}, {a} + {2});
    assert k.voters == {a, 2};
    var m := c.members[a].(campaign := Some(k));
    assert Tallied(THREE, c, Reply(a)) == Counted(THREE, c, a, m);
    assert m.(campaign := None, elected := Some(k.term)) == Elected(a, n);
  }

  ghost predicate Reachable(auth: set<Address>, c: Cluster) {
    exists cs: seq<Cluster>, acts: seq<Action> :: IsRun(auth, cs, acts) && cs[|cs| - 1] == c
  }

  lemma Extended(auth: set<Address>, c: Cluster, act: Action)
    requires Reachable(auth, c) && Enabled(auth, c, act)
    ensures Reachable(auth, Next(auth, c, act))
  {
    var c' := Next(auth, c, act);
    hide Enabled, Next, Initial;
    var cs: seq<Cluster>, acts: seq<Action> :| IsRun(auth, cs, acts) && cs[|cs| - 1] == c;
    assert IsRun(auth, cs + [c'], acts + [act]);
  }

  /** Both candidates have asked node 2, which voted for each in its term. */
  lemma BothAsked() returns (c: Cluster)
    ensures Reachable(THREE, c) && c.members.Keys == THREE && Reply(0) in c.answers && Reply(1) in c.answers
    ensures c.members[0] == Running(0) && c.members[1] == Running(1)
  {
    hide Reachable, Campaigned, Answered, Tallied, Moved, Enabled, Plain, Running, Voter, Request, Reply;
    var c0 := Cluster(map[0 := Fresh(0), 1 := Fresh(1), 2 := Voter(0)], {}, {}, {});
    Begins(c0);
    hide Fresh;
    Starts(c0, 0);
    var c1 := c0.(members := c0.members[0 := Running(0)], asks := c0.asks + {Request(0)});
    Extended(THREE, c0, StartCampaign(0, [2]));
    Grants(c1, 0);
    var c2 := c1.(members := c1.members[2 := Voter(1)], answers := c1.answers + {Reply(0)});
    Extended(THREE, c1, HandleAsk(Request(0), false));
    Starts(c2, 1);
    var c3 := c2.(members := c2.members[1 := Running(1)], asks := c2.asks + {Request(1)});
    Extended(THREE, c2, StartCampaign(1, [2]));
    Grants(c3, 1);
    c := c3.(members := c3.members[2 := Voter(2)], answers := c3.answers + {Reply(1)});
    Extended(THREE, c3, HandleAsk(Request(1), false));
  }

  lemma Begins(c: Cluster)
    requires c == Cluster(map[0 := Fresh(0), 1 := Fresh(1), 2 := Voter(0)], {}, {}, {})
    ensures Reachable(THREE, c)
  {
    assert IsRun(THREE, [c], []);
  }

  /** Node 0 campaigns for term 1 and has its vote; node 1 campaigns for term 2, wins, and its block
      reaches node 0, whose stored term becomes 2; then node 0 counts the old vote and leads as well,
      under term 2. */
  lemma TwoLeadersOneTerm()
    ensures exists c ::
      Reachable(THREE, c) && Leads(c, 0, 1) && Leads(c, 1, 2) && StoredTerm(c, 0) == 2 && StoredTerm(c, 1) == 2
  {
    hide Reachable, Campaigned, Answered, Tallied, Moved, Enabled, Voter, Victory, Request, Reply;
    var c4 := BothAsked();
    var (late, n1) := (Plain(2, 2, None, 1), Plain(0, 2, Some(1), 0));
    Tallies(c4, 1, n1);
    var c5 := c4.(members := c4.members[1 := Elected(1, n1)], wins := c4.wins + {Victory(1)});
    Extended(THREE, c4, HandleAnswer(Reply(1)));
    RefreshesZero(c5);
    var c6 := c5.(members := c5.members[0 := Candidate(0, late)]);
    Extended(THREE, c5, Local(0, Full(Refresh(1, 2))));
    Tallies(c6, 0, late);
    Extended(THREE, c6, HandleAnswer(Reply(0)));
    var c7 := c6.(members := c6.members[0 := Elected(0, late)], wins := c6.wins + {Victory(0)});
    assert Leads(c7, 0, 1) && Leads(c7, 1, 2);
  }

  lemma RefreshesZero(c: Cluster)
    requires c.members.Keys == THREE && c.members[0] == Running(0)
    ensures Enabled(THREE, c, Local(0, Full(Refresh(1, 2))))
    ensures Moved(c, 0, Full(Refresh(1, 2))) == c.(members := c.members[0 := Candidate(0, Plain(2, 2, None, 1))])
  {
    PlainRefreshes(1, Some(0), 0, 2);
  }
}
