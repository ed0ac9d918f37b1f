/** Elections in a cluster of Raft nodes with fixed authorities: messages may be lost, repeated and
    reordered, nodes may crash between any two writes. */
module RaftElection {
  import opened RaftLog
  import opened RaftNode
  import opened RaftVotes

  /** A campaign under way: `open` holds the ids of the unanswered requests. `voters` is kept for the
      proof alone; the code counts `votes`. */
  datatype Campaigning = Campaigning(term: nat, votes: nat, open: set<nat>, voters: set<Address>)

  /** `epoch` numbers the lives of the process; a response only reaches the life that asked. `elected` is
      the term a leader was elected for. */
  datatype Member = Member(life: Life, epoch: nat, nextId: nat, campaign: Option<Campaigning>, elected: Option<nat>)

  datatype Ask = Ask(from: Address, epoch: nat, id: nat, to: Address, req: VoteReq)
  datatype Answer = Answer(from: Address, to: Address, epoch: nat, id: nat, res: VoteRes)
  datatype Win = Win(leader: Address, term: nat, voters: set<Address>)

  datatype Cluster = Cluster(members: map<Address, Member>, asks: set<Ask>, answers: set<Answer>, wins: set<Win>)

  datatype Action =
    | StartCampaign(a: Address, targets: seq<Address>)
    | HandleAsk(ask: Ask, recent: bool)
    | HandleAnswer(answer: Answer)
    | Local(a: Address, step: Step)
    | StepDown(a: Address)          // a follower answered a leader with a later term

  function Needed(auth: set<Address>): nat {
    |auth| / 2 + 1
  }

  /** A member that has gathered enough votes becomes leader and stops campaigning. */
  function Counted(auth: set<Address>, c: Cluster, a: Address, m: Member): Cluster
    requires m.campaign.Some?
  {
    var k := m.campaign.value;
    if k.votes >= Needed(auth)
    then c.(members := c.members[a := m.(campaign := None, elected := Some(k.term))], wins := c.wins + {Win(a, k.term, k.voters)})
    else c.(members := c.members[a := m])
  }

  ghost predicate Targets(auth: set<Address>, a: Address, targets: seq<Address>) {
    (forall i :: 0 <= i < |targets| ==> targets[i] in auth && targets[i] != a)
    && (forall i, j :: 0 <= i < j < |targets| ==> targets[i] != targets[j])
  }

  function Asked(m: Member, a: Address, targets: seq<Address>): set<Ask> {
    var (i, t) := Last(m.life.n);
    set k | 0 <= k < |targets| :: Ask(a, m.epoch, m.nextId + k, targets[k], VoteReq(m.life.n.d.term, i, t))
  }

  function Campaigned(auth: set<Address>, c: Cluster, a: Address, targets: seq<Address>): Cluster
    requires a in c.members
  {
    var m := c.members[a];
    var m1 := m.(life := Stepped(m.life, a, Full(Campaign)));
    var open := set x | x in Asked(m1, a, targets) :: x.id;
    var k := Campaigning(m1.life.n.d.term, 1, open, {a});
    var m2 := m1.(nextId := m.nextId + |targets|, campaign := Some(k), elected := None);
    var c1 := c.(asks := c.asks + Asked(m1, a, targets));
    Counted(auth, c1, a, m2)
  }

  function Resigned(m: Member): Member { m.(campaign := None, elected := None) }

  /** A voter that takes over a newer term, or stores a new vote, is a follower from then on. */
  function Answered(c: Cluster, ask: Ask, recent: bool): Cluster
    requires ask.to in c.members
  {
    var m := c.members[ask.to];
    var (ws, res) := OnVote(m.life.n, ask.from, ask.req, recent);
    var m1 := m.(life := Stepped(m.life, ask.to, Full(Vote(ask.from, ask.req, recent))));
    c.(members := c.members[ask.to := if ws == [] then m1 else Resigned(m1)], answers := c.answers + {Answer(ask.to, ask.from, ask.epoch, ask.id, res)})
  }

  function Tallied(auth: set<Address>, c: Cluster, r: Answer): Cluster
    requires r.to in c.members
  {
    var m := c.members[r.to];
    if m.campaign.None? || r.epoch != m.epoch || r.id !in m.campaign.value.open then c
    else
      var k := m.campaign.value.(open := m.campaign.value.open - {r.id});
      if r.res.term > m.life.n.d.term then
        c.(members := c.members[r.to := Resigned(m.(life := Stepped(m.life, r.to, Full(Outvoted(r.res.term)))))])
      else if !r.res.granted || r.from !in auth then c.(members := c.members[r.to := m.(campaign := Some(k))])
      else Counted(auth, c, r.to, m.(campaign := Some(k.(votes := k.votes + 1, voters := k.voters + {r.from}))))
  }

  /** Any other event of one node. A current append request makes a follower, a crash ends a life. */
  function Moved(c: Cluster, a: Address, step: Step): Cluster
    requires a in c.members
  {
    var m := c.members[a];
    var m1 := m.(life := Stepped(m.life, a, step));
    var m2 := if step.Crash? then Resigned(m1).(epoch := m.epoch + 1, nextId := 0)
              else if step.ev.Append? && step.ev.appendReq.term >= m.life.n.d.term then Resigned(m1)
              else m1;
    c.(members := c.members[a := m2])
  }

  ghost predicate Enabled(auth: set<Address>, c: Cluster, act: Action) {
    match act
    case StartCampaign(a, targets) => a in c.members && a in auth && Targets(auth, a, targets)
    case HandleAsk(ask, _) => ask in c.asks && ask.to in c.members
    case HandleAnswer(r) => r in c.answers && r.to in c.members
    case Local(a, step) =>
      a in c.members && (step.Full? ==> step.ev.Append? || step.ev.Receive? || step.ev.Refresh? || (step.ev.Lead? && c.members[a].elected.Some?))
    case StepDown(a) => a in c.members && c.members[a].elected.Some?
  }

  function Next(auth: set<Address>, c: Cluster, act: Action): Cluster
    requires match act
      case StartCampaign(a, _) => a in c.members
      case HandleAsk(ask, _) => ask.to in c.members
      case HandleAnswer(r) => r.to in c.members
      case Local(a, _) => a in c.members
      case StepDown(a) => a in c.members
  {
    match act
    case StartCampaign(a, targets) => Campaigned(auth, c, a, targets)
    case HandleAsk(ask, recent) => Answered(c, ask, recent)
    case HandleAnswer(r) => Tallied(auth, c, r)
    case Local(a, step) => Moved(c, a, step)
    case StepDown(a) => c.(members := c.members[a := Resigned(c.members[a])])
  }

  // ---------------------------------------------------------------- the invariant

  /** `a` got the vote of `v` in `term`. */
  predicate Voted(ms: map<Address, Member>, v: Address, term: nat, a: Address) {
    v in ms && Grant(term, a) in ms[v].life.grants
  }

  ghost predicate Backed(auth: set<Address>, ms: map<Address, Member>, a: Address, term: nat, voters: set<Address>) {
    voters <= auth && forall v :: v in voters ==> Voted(ms, v, term, a)
  }

  ghost predicate LivesOk(ms: map<Address, Member>) {
    forall a :: a in ms ==> Remembers(ms[a].life) && OneVoteATerm(ms[a].life.grants)
  }

  predicate AskOk(auth: set<Address>, ms: map<Address, Member>, x: Ask) {
    x.from in ms && x.to in auth && x.epoch <= ms[x.from].epoch && (x.epoch == ms[x.from].epoch ==> x.id < ms[x.from].nextId)
  }

  /** The request is one that the campaign still waits for. */
  predicate Open(x: Ask, a: Address, epoch: nat, k: Campaigning) {
    x.from == a && x.epoch == epoch && x.id in k.open
  }

  /** Requests come from a past or present life of their sender, and an id names one request. */
  ghost predicate AsksOk(auth: set<Address>, c: Cluster) {
    (forall x :: x in c.asks ==> AskOk(auth, c.members, x))
    && (forall x, y :: x in c.asks && y in c.asks && x.from == y.from && x.epoch == y.epoch && x.id == y.id ==> x == y)
  }

  predicate Replies(r: Answer, x: Ask) {
    r.from == x.to && r.to == x.from && r.epoch == x.epoch && r.id == x.id
  }

  ghost predicate AnswersOk(c: Cluster) {
    forall r :: r in c.answers ==> exists x :: x in c.asks && Replies(r, x) && (r.res.granted ==> Voted(c.members, r.from, x.req.term, r.to))
  }

  /** The votes counted are those of distinct authorities, and no open request goes to one of them. */
  ghost predicate CampaignOk(auth: set<Address>, c: Cluster, a: Address, m: Member) {
    m.campaign.Some? ==>
      var k := m.campaign.value;
      k.votes == |k.voters| && Backed(auth, c.members, a, k.term, k.voters)
      && (forall x :: x in c.asks && Open(x, a, m.epoch, k) ==> x.req.term == k.term && x.to !in k.voters)
      && (forall x, y :: x in c.asks && y in c.asks && Open(x, a, m.epoch, k) && Open(y, a, m.epoch, k) && x.id != y.id ==> x.to != y.to)
  }

  ghost predicate CampaignsOk(auth: set<Address>, c: Cluster) {
    forall a :: a in c.members ==> CampaignOk(auth, c, a, c.members[a])
  }

  ghost predicate WinsOk(auth: set<Address>, c: Cluster) {
    forall w :: w in c.wins ==> |w.voters| >= Needed(auth) && Backed(auth, c.members, w.leader, w.term, w.voters)
  }

  ghost predicate Inv(auth: set<Address>, c: Cluster) {
    LivesOk(c.members) && AsksOk(auth, c) && AnswersOk(c) && CampaignsOk(auth, c) && WinsOk(auth, c)
  }

  // ---------------------------------------------------------------- one winner a term

  lemma MajoritiesMeet(auth: set<Address>, s: set<Address>, t: set<Address>)
    requires s <= auth && t <= auth && |s| >= Needed(auth) && |t| >= Needed(auth)
    ensures s * t != {}
  {
    if s * t == {} {
      assert |s + t| == |s| + |t|;
      SubsetSize(s + t, auth);
      assert false;
    }
  }

  lemma {:induction false} SubsetSize(s: set<Address>, t: set<Address>)
    requires s <= t
    ensures |s| <= |t|
    decreases |s|
  {
    if s != {} {
      var x :| x in s;
      SubsetSize(s - {x}, t - {x});
    }
  }

  lemma OneWinner(auth: set<Address>, c: Cluster, w: Win, w': Win)
    requires Inv(auth, c) && w in c.wins && w' in c.wins && w.term == w'.term
    ensures w.leader == w'.leader
  {
    MajoritiesMeet(auth, w.voters, w'.voters);
    var v :| v in w.voters * w'.voters;
    assert Voted(c.members, v, w.term, w.leader) && Voted(c.members, v, w'.term, w'.leader);
    var grants := c.members[v].life.grants;
    var i :| 0 <= i < |grants| && grants[i] == Grant(w.term, w.leader);
    var j :| 0 <= j < |grants| && grants[j] == Grant(w.term, w'.leader);
  }

  // ---------------------------------------------------------------- votes are never taken back

  ghost predicate GrantsGrow(ms: map<Address, Member>, ms': map<Address, Member>) {
    forall v :: v in ms ==> v in ms' && forall g :: g in ms[v].life.grants ==> g in ms'[v].life.grants
  }

  lemma BackedGrows(auth: set<Address>, ms: map<Address, Member>, ms': map<Address, Member>, a: Address, term: nat, voters: set<Address>)
    requires Backed(auth, ms, a, term, voters) && GrantsGrow(ms, ms')
    ensures Backed(auth, ms', a, term, voters)
  {
    forall v | v in voters ensures Voted(ms', v, term, a) { assert Voted(ms, v, term, a); }
  }

  /** What every step keeps on its own: one member takes a step of its life, everybody else stays. */
  ghost predicate OneMoves(c: Cluster, c': Cluster, a: Address, step: Step) {
    a in c.members && a in c'.members && c'.members == c.members[a := c'.members[a]]
    && c'.members[a].life == Stepped(c.members[a].life, a, step)
  }

  lemma MoveKeeps(auth: set<Address>, c: Cluster, c': Cluster, a: Address, step: Step)
    requires Inv(auth, c) && OneMoves(c, c', a, step)
    ensures LivesOk(c'.members) && GrantsGrow(c.members, c'.members)
  {
    StepRemembers(c.members[a].life, a, step);
  }

  lemma WinsKept(auth: set<Address>, c: Cluster, c': Cluster)
    requires WinsOk(auth, c) && GrantsGrow(c.members, c'.members) && c'.wins == c.wins
    ensures WinsOk(auth, c')
  {
    forall w | w in c'.wins ensures Backed(auth, c'.members, w.leader, w.term, w.voters) {
      BackedGrows(auth, c.members, c'.members, w.leader, w.term, w.voters);
    }
  }

  lemma AnswersKept(c: Cluster, c': Cluster)
    requires AnswersOk(c) && GrantsGrow(c.members, c'.members) && c.asks <= c'.asks && c'.answers == c.answers
    ensures AnswersOk(c')
  {
    forall r | r in c'.answers
      ensures exists x :: x in c'.asks && Replies(r, x) && (r.res.granted ==> Voted(c'.members, r.from, x.req.term, r.to))
    {
      var x :| x in c.asks && Replies(r, x) && (r.res.granted ==> Voted(c.members, r.from, x.req.term, r.to));
      assert x in c'.asks && Replies(r, x);
    }
  }

  /** A campaign that did not change, in a cluster with the same requests. */
  lemma CampaignKept(auth: set<Address>, c: Cluster, c': Cluster, b: Address, m: Member, m': Member)
    requires CampaignOk(auth, c, b, m) && GrantsGrow(c.members, c'.members) && c'.asks == c.asks
    requires m'.campaign.None? || (m'.campaign == m.campaign && m'.epoch == m.epoch)
    ensures CampaignOk(auth, c', b, m')
  {
    if m'.campaign.Some? {
      BackedGrows(auth, c.members, c'.members, b, m.campaign.value.term, m.campaign.value.voters);
    }
  }

  lemma LocalKeeps(auth: set<Address>, c: Cluster, a: Address, step: Step)
    requires Inv(auth, c) && Enabled(auth, c, Local(a, step))
    ensures Inv(auth, Moved(c, a, step))
  {
    hide CampaignOk, Remembers, OneVoteATerm, Stepped, Backed;
    var c' := Moved(c, a, step);
    MoveKeeps(auth, c, c', a, step);
    WinsKept(auth, c, c');
    AnswersKept(c, c');
    forall b | b in c'.members ensures CampaignOk(auth, c', b, c'.members[b]) {
      CampaignKept(auth, c, c', b, c.members[b], c'.members[b]);
    }
  }

  lemma AskKeeps(auth: set<Address>, c: Cluster, ask: Ask, recent: bool)
    requires Inv(auth, c) && Enabled(auth, c, HandleAsk(ask, recent))
    ensures Inv(auth, Answered(c, ask, recent))
  {
    hide CampaignOk, Remembers, OneVoteATerm, Backed, OnVote, After;
    var c' := Answered(c, ask, recent);
    var step := Full(Vote(ask.from, ask.req, recent));
    MoveKeeps(auth, c, c', ask.to, step);
    WinsKept(auth, c, c');
    var reply := Answer(ask.to, ask.from, ask.epoch, ask.id, OnVote(c.members[ask.to].life.n, ask.from, ask.req, recent).1);
    AnswersKept(c, c'.(answers := c.answers));
    assert Replies(reply, ask) && (reply.res.granted ==> Voted(c'.members, ask.to, ask.req.term, ask.from));
    AnswerAdded(c'.(answers := c.answers), c', reply, ask);
    forall b | b in c'.members ensures CampaignOk(auth, c', b, c'.members[b]) {
      CampaignKept(auth, c, c', b, c.members[b], c'.members[b]);
    }
  }

  lemma AnswerAdded(c: Cluster, c': Cluster, r: Answer, x: Ask)
    requires AnswersOk(c) && c' == c.(answers := c.answers + {r}) && x in c.asks && Replies(r, x)
    requires r.res.granted ==> Voted(c.members, r.from, x.req.term, r.to)
    ensures AnswersOk(c')
  {
  }

  /** A count that did not reach the quorum changes one campaign; one that did ends it with a win. */
  lemma CountedKeeps(auth: set<Address>, c: Cluster, a: Address, m: Member)
    requires LivesOk(c.members) && AsksOk(auth, c) && AnswersOk(c) && WinsOk(auth, c)
    requires forall b :: b in c.members && b != a ==> CampaignOk(auth, c, b, c.members[b])
    requires a in c.members && m.(campaign := None) == c.members[a].(campaign := None)
    requires m.campaign.Some? && CampaignOk(auth, c, a, m)
    ensures Inv(auth, Counted(auth, c, a, m))
  {
    hide Remembers, OneVoteATerm;
    var c' := Counted(auth, c, a, m);
    var k := m.campaign.value;
    assert GrantsGrow(c.members, c'.members);
    AnswersKept(c, c');
    WinsKept(auth, c, c'.(wins := c.wins));
    BackedGrows(auth, c.members, c'.members, a, k.term, k.voters);
    assert WinsOk(auth, c');
    hide CampaignOk, Backed, WinsOk, AnswersOk;
    forall b | b in c'.members ensures CampaignOk(auth, c', b, c'.members[b]) {
      CampaignKept(auth, c, c', b, if b == a then m else c.members[b], c'.members[b]);
    }
  }

  /** One more vote for an open campaign. */
  lemma VoteCounts(auth: set<Address>, c: Cluster, r: Answer, k: Campaigning)
    requires Inv(auth, c) && r in c.answers && r.to in c.members && r.res.granted && r.from in auth
    requires c.members[r.to].campaign == Some(k) && r.epoch == c.members[r.to].epoch && r.id in k.open
    ensures var m := c.members[r.to];
      CampaignOk(auth, c, r.to, m.(campaign := Some(k.(open := k.open - {r.id}, votes := k.votes + 1, voters := k.voters + {r.from}))))
  {
    hide LivesOk, WinsOk;
    var (a, m) := (r.to, c.members[r.to]);
    var x :| x in c.asks && Replies(r, x) && (r.res.granted ==> Voted(c.members, r.from, x.req.term, r.to));
    assert CampaignOk(auth, c, a, m);
    assert Open(x, a, m.epoch, k);
    assert Voted(c.members, r.from, k.term, a) && r.from !in k.voters;
    var k' := k.(open := k.open - {r.id}, votes := k.votes + 1, voters := k.voters + {r.from});
    assert |k'.voters| == k'.votes;
    forall y | y in c.asks && Open(y, a, m.epoch, k') ensures y.req.term == k.term && y.to !in k'.voters {
      assert Open(y, a, m.epoch, k) && y.id != x.id;
    }
    forall y, z | y in c.asks && z in c.asks && Open(y, a, m.epoch, k') && Open(z, a, m.epoch, k') && y.id != z.id ensures y.to != z.to {
      assert Open(y, a, m.epoch, k) && Open(z, a, m.epoch, k);
    }
  }

  lemma RefusalCounts(auth: set<Address>, c: Cluster, a: Address, id: nat, k: Campaigning)
    requires a in c.members && c.members[a].campaign == Some(k) && CampaignOk(auth, c, a, c.members[a])
    ensures CampaignOk(auth, c, a, c.members[a].(campaign := Some(k.(open := k.open - {id}))))
  {
    var k' := k.(open := k.open - {id});
    assert forall x :: Open(x, a, c.members[a].epoch, k') ==> Open(x, a, c.members[a].epoch, k);
  }

  lemma OutvotedKeeps(auth: set<Address>, c: Cluster, a: Address, term: nat)
    requires Inv(auth, c) && a in c.members
    ensures var m := c.members[a];
      Inv(auth, c.(members := c.members[a := Resigned(m.(life := Stepped(m.life, a, Full(Outvoted(term)))))]))
  {
    hide CampaignOk, Remembers, OneVoteATerm, Stepped, Backed;
    var m := c.members[a];
    var c' := c.(members := c.members[a := Resigned(m.(life := Stepped(m.life, a, Full(Outvoted(term)))))]);
    MoveKeeps(auth, c, c', a, Full(Outvoted(term)));
    WinsKept(auth, c, c');
    AnswersKept(c, c');
    forall b | b in c'.members ensures CampaignOk(auth, c', b, c'.members[b]) {
      CampaignKept(auth, c, c', b, c.members[b], c'.members[b]);
    }
  }

  /** Replacing one member's campaign by another sound one. */
  lemma ReplacedKeeps(auth: set<Address>, c: Cluster, a: Address, m: Member)
    requires Inv(auth, c) && a in c.members && Resigned(m) == Resigned(c.members[a]) && CampaignOk(auth, c, a, m)
    ensures Inv(auth, c.(members := c.members[a := m]))
  {
    hide CampaignOk, Remembers, OneVoteATerm, Backed;
    var c' := c.(members := c.members[a := m]);
    assert GrantsGrow(c.members, c'.members);
    WinsKept(auth, c, c');
    AnswersKept(c, c');
    forall b | b in c'.members ensures CampaignOk(auth, c', b, c'.members[b]) {
      CampaignKept(auth, c, c', b, if b == a then m else c.members[b], c'.members[b]);
    }
  }

  lemma AnswerKeeps(auth: set<Address>, c: Cluster, r: Answer)
    requires Inv(auth, c) && Enabled(auth, c, HandleAnswer(r))
    ensures Inv(auth, Tallied(auth, c, r))
  {
    hide LivesOk, AsksOk, AnswersOk, CampaignOk, WinsOk, Counted, Stepped;
    var m := c.members[r.to];
    if m.campaign.Some? && r.epoch == m.epoch && r.id in m.campaign.value.open {
      var k := m.campaign.value;
      if r.res.term > m.life.n.d.term {
        OutvotedKeeps(auth, c, r.to, r.res.term);
      } else if !r.res.granted || r.from !in auth {
        RefusalCounts(auth, c, r.to, r.id, k);
        ReplacedKeeps(auth, c, r.to, m.(campaign := Some(k.(open := k.open - {r.id}))));
      } else {
        VoteCounts(auth, c, r, k);
        CountedKeeps(auth, c, r.to, m.(campaign := Some(k.(open := k.open - {r.id}, votes := k.votes + 1, voters := k.voters + {r.from}))));
      }
    }
  }

  /** The cluster right after the candidate stored its term and sent its requests, before counting. */
  function Launched(c: Cluster, a: Address, targets: seq<Address>): Cluster
    requires a in c.members
  {
    var m := c.members[a];
    var m1 := m.(life := Stepped(m.life, a, Full(Campaign)));
    c.(members := c.members[a := Resigned(m1).(nextId := m.nextId + |targets|)], asks := c.asks + Asked(m1, a, targets))
  }

  function FirstCount(c: Cluster, a: Address, targets: seq<Address>): Campaigning
    requires a in c.members
  {
    var m := c.members[a];
    var m1 := m.(life := Stepped(m.life, a, Full(Campaign)));
    Campaigning(m1.life.n.d.term, 1, set x | x in Asked(m1, a, targets) :: x.id, {a})
  }

  lemma LaunchedIs(auth: set<Address>, c: Cluster, a: Address, targets: seq<Address>)
    requires a in c.members
    ensures var c1 := Launched(c, a, targets);
      Campaigned(auth, c, a, targets) == Counted(auth, c1, a, c1.members[a].(campaign := Some(FirstCount(c, a, targets))))
  {
    hide Asked, Stepped;
    var (c1, m) := (Launched(c, a, targets), c.members[a]);
    var m2 := c1.members[a].(campaign := Some(FirstCount(c, a, targets)));
    assert c1.members[a := m2] == c.members[a := m2];
    var m3 := m2.(campaign := None, elected := Some(m2.campaign.value.term));
    assert c1.members[a := m3] == c.members[a := m3];
  }

  lemma LaunchedAsks(auth: set<Address>, c: Cluster, a: Address, targets: seq<Address>)
    requires AsksOk(auth, c) && a in c.members && Targets(auth, a, targets)
    ensures AsksOk(auth, Launched(c, a, targets))
  {
    hide Stepped, Last;
    var (m, c1) := (c.members[a], Launched(c, a, targets));
    var added := Asked(m.(life := Stepped(m.life, a, Full(Campaign))), a, targets);
    forall x | x in c1.asks ensures AskOk(auth, c1.members, x) {
      if x in c.asks { assert AskOk(auth, c.members, x); }
    }
    forall x, y | x in c1.asks && y in c1.asks && x.from == y.from && x.epoch == y.epoch && x.id == y.id ensures x == y {
      if x in c.asks { assert AskOk(auth, c.members, x); }
      if y in c.asks { assert AskOk(auth, c.members, y); }
    }
  }

  /** Requests of other members, or of other lives or campaigns, do not touch a campaign. */
  lemma OthersKept(auth: set<Address>, c: Cluster, a: Address, targets: seq<Address>, b: Address)
    requires CampaignsOk(auth, c) && a in c.members && b in c.members && b != a
    requires GrantsGrow(c.members, Launched(c, a, targets).members)
    ensures CampaignOk(auth, Launched(c, a, targets), b, c.members[b])
  {
    hide Stepped, Last, Backed;
    var (m, c1) := (c.members[b], Launched(c, a, targets));
    assert CampaignOk(auth, c, b, m);
    if m.campaign.Some? {
      var k := m.campaign.value;
      BackedGrows(auth, c.members, c1.members, b, k.term, k.voters);
      assert forall x :: x in c1.asks && Open(x, b, m.epoch, k) ==> x in c.asks;
    }
  }

  lemma FirstCountOk(auth: set<Address>, c: Cluster, a: Address, targets: seq<Address>)
    requires AsksOk(auth, c) && a in c.members && a in auth && Targets(auth, a, targets)
    ensures var c1 := Launched(c, a, targets); CampaignOk(auth, c1, a, c1.members[a].(campaign := Some(FirstCount(c, a, targets))))
  {
    hide Last, After;
    var (m, c1, k) := (c.members[a], Launched(c, a, targets), FirstCount(c, a, targets));
    var added := Asked(m.(life := Stepped(m.life, a, Full(Campaign))), a, targets);
    GivenStored(m.life.n, a, Campaign);
    assert Voted(c1.members, a, k.term, a);
    hide Stepped;
    forall x | x in c1.asks && Open(x, a, m.epoch, k) ensures x in added {
      assert x in c.asks ==> AskOk(auth, c.members, x);
    }
  }

  lemma StartKeeps(auth: set<Address>, c: Cluster, a: Address, targets: seq<Address>)
    requires Inv(auth, c) && Enabled(auth, c, StartCampaign(a, targets))
    ensures Inv(auth, Campaigned(auth, c, a, targets))
  {
    hide AskOk, CampaignOk, Remembers, OneVoteATerm, Backed, Asked, Stepped, Campaigned, FirstCount, Counted;
    var c1 := Launched(c, a, targets);
    MoveKeeps(auth, c, c1, a, Full(Campaign));
    WinsKept(auth, c, c1);
    AnswersKept(c, c1);
    LaunchedAsks(auth, c, a, targets);
    LaunchedIs(auth, c, a, targets);
    FirstCountOk(auth, c, a, targets);
    forall b | b in c1.members && b != a ensures CampaignOk(auth, c1, b, c1.members[b]) { OthersKept(auth, c, a, targets, b); }
    hide Launched, LivesOk, AsksOk, WinsOk, AnswersOk;
    CountedKeeps(auth, c1, a, c1.members[a].(campaign := Some(FirstCount(c, a, targets))));
  }

  // ---------------------------------------------------------------- whole runs

  lemma ActionKeeps(auth: set<Address>, c: Cluster, act: Action)
    requires Inv(auth, c) && Enabled(auth, c, act)
    ensures Inv(auth, Next(auth, c, act))
  {
    hide Inv, Campaigned, Answered, Tallied, Moved;
    match act
    case StartCampaign(a, targets) => StartKeeps(auth, c, a, targets);
    case HandleAsk(ask, recent) => AskKeeps(auth, c, ask, recent);
    case HandleAnswer(r) => AnswerKeeps(auth, c, r);
    case Local(a, step) => LocalKeeps(auth, c, a, step);
    case StepDown(a) => ReplacedKeeps(auth, c, a, Resigned(c.members[a]));
  }

  /** Nothing has been said or voted yet; the stored terms and logs may be anything. */
  ghost predicate Initial(c: Cluster) {
    c.asks == {} && c.answers == {} && c.wins == {}
    && forall a :: a in c.members ==> c.members[a].life.grants == [] && c.members[a].campaign.None? && c.members[a].elected.None?
  }

  ghost predicate IsRun(auth: set<Address>, cs: seq<Cluster>, acts: seq<Action>) {
    |cs| == |acts| + 1 && Initial(cs[0])
    && forall i :: 0 <= i < |acts| ==> Enabled(auth, cs[i], acts[i]) && cs[i + 1] == Next(auth, cs[i], acts[i])
  }

  lemma {:induction false} RunKeeps(auth: set<Address>, cs: seq<Cluster>, acts: seq<Action>, n: nat)
    requires IsRun(auth, cs, acts) && n < |cs|
    ensures Inv(auth, cs[n])
    decreases n
  {
    if n > 0 {
      RunKeeps(auth, cs, acts, n - 1);
      ActionKeeps(auth, cs[n - 1], acts[n - 1]);
    }
  }

  lemma WinsGrow(auth: set<Address>, c: Cluster, act: Action)
    requires Enabled(auth, c, act)
    ensures c.wins <= Next(auth, c, act).wins
  {
  }

  lemma {:induction false} WinsGrowRun(auth: set<Address>, cs: seq<Cluster>, acts: seq<Action>, i: nat, j: nat)
    requires IsRun(auth, cs, acts) && i <= j < |cs|
    ensures cs[i].wins <= cs[j].wins
    decreases j
  {
    if i < j {
      WinsGrowRun(auth, cs, acts, i, j - 1);
      WinsGrow(auth, cs[j - 1], acts[j - 1]);
    }
  }

  /** Election safety: in every run, whenever two candidates win the election of one term, at whatever
      points, they are the same. */
  lemma ElectionSafety(auth: set<Address>, cs: seq<Cluster>, acts: seq<Action>, i: nat, j: nat, w: Win, w': Win)
    requires IsRun(auth, cs, acts) && i < |cs| && j < |cs|
    requires w in cs[i].wins && w' in cs[j].wins && w.term == w'.term
    ensures w.leader == w'.leader
  {
    var n := if i <= j then j else i;
    WinsGrowRun(auth, cs, acts, i, n);
    WinsGrowRun(auth, cs, acts, j, n);
    RunKeeps(auth, cs, acts, n);
    OneWinner(auth, cs[n], w, w');
  }

  /** A block committed during a campaign can raise the stored term while the campaign goes on: the
      candidate still works under the term it is being elected for exactly when the block's proof names
      no later one. */
  lemma RefreshDuringCampaign(c: Cluster, a: Address, base: nat, baseTerm: nat)
    requires a in c.members && c.members[a].campaign.Some? && c.members[a].campaign.value.term == c.members[a].life.n.d.term
    ensures var m := Moved(c, a, Full(Refresh(base, baseTerm))).members[a];
      m.campaign == c.members[a].campaign && (m.campaign.value.term == m.life.n.d.term <==> baseTerm <= m.campaign.value.term)
  {
    RefreshTerm(c.members[a].life.n.d, base, baseTerm);
  }

  lemma RefreshTerm(d: Durable, base: nat, baseTerm: nat)
    ensures WrittenAll(d, RefreshWrites(d, base, baseTerm)).term == if d.term < baseTerm then baseTerm else d.term
  {
    var first := if d.term < baseTerm then [PutTermAndVote(baseTerm, None)] else [];
    var ws := RefreshWrites(d, base, baseTerm);
    if d.term < baseTerm {
      assert first[..0] == [];
      assert WrittenAll(d, first) == d.(term := baseTerm, votedFor := None);
    }
    assert ws == first + ws[|first|..];
    TermKept(d, first, ws[|first|..]);
  }

  lemma {:induction false} TermKept(d: Durable, ws: seq<Write>, more: seq<Write>)
    requires forall i :: 0 <= i < |more| ==> !Raises(more[i])
    ensures WrittenAll(d, ws + more).term == WrittenAll(d, ws).term
    decreases |more|
  {
    if more == [] {
      assert ws + more == ws;
    } else {
      var k := |more| - 1;
      assert (ws + more)[..|ws| + k] == ws + more[..k];
      TermKept(d, ws, more[..k]);
    }
  }
}
