/** The peer manager: slots for incoming and outgoing peers, with pre-emption by reserved peers. */
module PeerManager {

  type Peer = nat

  const MIN_SCORE: int := -100
  const I32_MAX: int := 0x7fff_ffff
  const I32_MIN: int := -0x8000_0000

  datatype Option<+T> = None | Some(value: T)

  datatype PeerState = In | Out

  datatype PeerType = Reserved | Normal

  datatype Entry = Entry(peer: Peer, state: PeerState, kind: PeerType)

  datatype OutMessage = Connect(peer: Peer) | Drop(peer: Peer) | Accept(id: nat) | Reject(id: nat)

  datatype InsertResult = Inserted | Replaced(removed: Peer) | Exist | Full

  /** The fields of the manager. Linked hash maps are sequences in insertion order. */
  datatype State = State(
    maxIn: nat, maxOut: nat, reserved: set<Peer>, reservedOnly: bool,
    active: seq<Entry>, inPeers: nat, outPeers: nat, inactive: seq<Peer>,
    scores: map<Peer, int>, sent: seq<OutMessage>)

  // ---------------------------------------------------------------- linked maps

  predicate Contains(active: seq<Entry>, p: Peer) {
    exists i :: 0 <= i < |active| && active[i].peer == p
  }

  function Peers(active: seq<Entry>): set<Peer> {
    set i | 0 <= i < |active| :: active[i].peer
  }

  predicate DistinctPeers(active: seq<Entry>) {
    forall i, j :: 0 <= i < j < |active| ==> active[i].peer != active[j].peer
  }

  predicate NoDuplicates(s: seq<Peer>) {
    forall i, j :: 0 <= i < j < |s| ==> s[i] != s[j]
  }

  function Without(s: seq<Peer>, p: Peer): (r: seq<Peer>)
    ensures forall q :: q in r <==> q in s && q != p
    ensures NoDuplicates(s) ==> NoDuplicates(r)
    ensures |r| <= |s| && (p in s ==> |r| < |s|) && (p !in s ==> r == s)
  {
    if s == [] then []
    else if s[0] == p then Without(s[1..], p)
    else
      var rest := Without(s[1..], p);
      assert s == [s[0]] + s[1..];
      assert forall j :: 0 <= j < |s| - 1 ==> s[1..][j] == s[j + 1];
      assert NoDuplicates(s) ==> s[0] !in s[1..];
      assert NoDuplicates(s) ==> NoDuplicates(s[1..]) && s[0] !in rest;
      [s[0]] + rest
  }

  /** Insertion into a linked map: a known key moves to the back. */
  function Inserting(s: seq<Peer>, p: Peer): (r: seq<Peer>)
    ensures forall q :: q in r <==> q in s || q == p
    ensures NoDuplicates(s) ==> NoDuplicates(r)
  {
    Without(s, p) + [p]
  }

  function Count(active: seq<Entry>, state: PeerState): nat {
    if active == [] then 0
    else Count(active[..|active| - 1], state) + (if active[|active| - 1].state == state then 1 else 0)
  }

  /** Normal-tagged peers in the slots of one direction. */
  function Normals(active: seq<Entry>, state: PeerState): nat {
    if active == [] then 0
    else
      var e := active[|active| - 1];
      Normals(active[..|active| - 1], state) + (if e.state == state && e.kind == Normal then 1 else 0)
  }

  function Delete(active: seq<Entry>, i: nat): seq<Entry>
    requires i < |active|
  {
    active[..i] + active[i + 1..]
  }

  function IndexOf(active: seq<Entry>, p: Peer): (i: nat)
    ensures i <= |active| && (i < |active| <==> Contains(active, p))
    ensures i < |active| ==> active[i].peer == p
    ensures forall j :: 0 <= j < i ==> active[j].peer != p
  {
    if active == [] then 0
    else if active[0].peer == p then 0
    else
      var i := IndexOf(active[1..], p);
      assert forall j :: 0 <= j < |active| - 1 ==> active[1..][j] == active[j + 1];
      assert Contains(active, p) ==> Contains(active[1..], p) by {
        if Contains(active, p) {
          var j :| 0 <= j < |active| && active[j].peer == p;
          assert active[1..][j - 1].peer == p;
        }
      }
      1 + i
  }

  /** The first normal peer of a direction, as `find` meets it. */
  function FirstNormal(active: seq<Entry>, state: PeerState): (i: nat)
    ensures i <= |active|
    ensures i < |active| ==> active[i].state == state && active[i].kind == Normal
    ensures forall j :: 0 <= j < i ==> !(active[j].state == state && active[j].kind == Normal)
  {
    if active == [] then 0
    else if active[0].state == state && active[0].kind == Normal then 0
    else
      var i := FirstNormal(active[1..], state);
      assert forall j :: 0 <= j < |active| - 1 ==> active[1..][j] == active[j + 1];
      1 + i
  }

  lemma {:induction false} DeleteCounts(active: seq<Entry>, i: nat, state: PeerState)
    requires i < |active|
    ensures Count(Delete(active, i), state) + (if active[i].state == state then 1 else 0) == Count(active, state)
    ensures Normals(Delete(active, i), state) + (if active[i].state == state && active[i].kind == Normal then 1 else 0)
         == Normals(active, state)
  {
    var k := |active| - 1;
    if i == k {
      assert Delete(active, i) == active[..k];
    } else {
      DeleteCounts(active[..k], i, state);
      assert Delete(active, i)[..k - 1] == Delete(active[..k], i);
      assert Delete(active, i)[k - 1] == active[k];
    }
  }

  lemma AppendCounts(active: seq<Entry>, e: Entry, state: PeerState)
    ensures Count(active + [e], state) == Count(active, state) + (if e.state == state then 1 else 0)
    ensures Normals(active + [e], state) == Normals(active, state) + (if e.state == state && e.kind == Normal then 1 else 0)
  {
    assert (active + [e])[..|active|] == active;
  }

  lemma DeletePeers(active: seq<Entry>, i: nat)
    requires DistinctPeers(active) && i < |active|
    ensures DistinctPeers(Delete(active, i)) && Peers(Delete(active, i)) == Peers(active) - {active[i].peer}
  {
    var d := Delete(active, i);
    forall p ensures p in Peers(d) <==> p in Peers(active) && p != active[i].peer {
      if p in Peers(active) && p != active[i].peer {
        var j :| 0 <= j < |active| && active[j].peer == p;
        assert d[if j < i then j else j - 1].peer == p;
      }
      if p in Peers(d) {
        var j :| 0 <= j < |d| && d[j].peer == p;
        assert active[if j < i then j else j + 1].peer == p;
      }
    }
  }

  lemma AppendPeers(active: seq<Entry>, e: Entry)
    ensures Peers(active + [e]) == Peers(active) + {e.peer}
    ensures DistinctPeers(active) && !Contains(active, e.peer) ==> DistinctPeers(active + [e])
  {
    var a := active + [e];
    assert a[|active|] == e;
    forall p ensures p in Peers(a) <==> p in Peers(active) || p == e.peer {
      if p in Peers(active) {
        var j :| 0 <= j < |active| && active[j].peer == p;
        assert a[j].peer == p;
      }
    }
  }

  lemma ContainsPeers(active: seq<Entry>, p: Peer)
    ensures Contains(active, p) <==> p in Peers(active)
  {
  }

  // ---------------------------------------------------------------- operations

  function Send(s: State, m: OutMessage): State {
    s.(sent := s.sent + [m])
  }

  function WithCount(s: State, state: PeerState, n: nat): State {
    if state == In then s.(inPeers := n) else s.(outPeers := n)
  }

  function CountOf(s: State, state: PeerState): nat {
    if state == In then s.inPeers else s.outPeers
  }

  function MaxOf(s: State, state: PeerState): nat {
    if state == In then s.maxIn else s.maxOut
  }

  function KindOf(s: State, p: Peer): PeerType {
    if p in s.reserved then Reserved else Normal
  }

  /** `ActivePeers::insert_peer`. */
  function InsertActive(s: State, p: Peer, state: PeerState): (State, InsertResult) {
    var e := Entry(p, state, KindOf(s, p));
    if Contains(s.active, p) then (s, Exist)
    else if CountOf(s, state) >= MaxOf(s, state) then
      var i := FirstNormal(s.active, state);
      if e.kind == Reserved && i < |s.active| then
        (s.(active := Delete(s.active + [e], i)), Replaced(s.active[i].peer))
      else (s, Full)
    else (WithCount(s.(active := s.active + [e]), state, CountOf(s, state) + 1), Inserted)
  }

  /** `ActivePeers::remove_peer`. */
  function RemoveActive(s: State, p: Peer): State {
    var i := IndexOf(s.active, p);
    if i == |s.active| then s
    else
      var state := s.active[i].state;
      var n := CountOf(s, state);
      WithCount(s.(active := Delete(s.active, i)), state, if n > 0 then n - 1 else 0)
  }

  function FirstWith(s: seq<Peer>, reserved: set<Peer>, want: bool): (i: nat)
    ensures i <= |s|
    ensures i < |s| ==> (s[i] in reserved) == want
    ensures forall j :: 0 <= j < i ==> (s[j] in reserved) != want
  {
    if s == [] then 0
    else if (s[0] in reserved) == want then 0
    else
      var i := FirstWith(s[1..], reserved, want);
      assert forall j :: 0 <= j < |s| - 1 ==> s[1..][j] == s[j + 1];
      1 + i
  }

  /** `InactivePeers::take_peer`: reserved peers first, normal ones only without `reservedOnly`. */
  function Candidate(s: State): (r: Option<Peer>)
    ensures r.Some? ==> r.value in s.inactive && (s.reservedOnly ==> r.value in s.reserved)
    ensures r.Some? && r.value !in s.reserved ==> forall p :: p in s.inactive ==> p !in s.reserved
    ensures r.None? ==> forall p :: p in s.inactive ==> p !in s.reserved && s.reservedOnly
  {
    var i := FirstWith(s.inactive, s.reserved, true);
    if i < |s.inactive| then Some(s.inactive[i])
    else if s.reservedOnly then None
    else
      var j := FirstWith(s.inactive, s.reserved, false);
      if j < |s.inactive| then Some(s.inactive[j]) else None
  }

  function Free(s: State): nat {
    if s.outPeers < s.maxOut then s.maxOut - s.outPeers else 0
  }

  /** What one round of `activate` does with the peer it took. */
  function Round(s: State, p: Peer): (State, InsertResult) {
    var s1 := s.(inactive := Without(s.inactive, p));
    var (s2, r) := InsertActive(s1, p, Out);
    match r
    case Inserted => (Send(s2, Connect(p)), r)
    case Replaced(q) => (Send(Send(s2.(inactive := Inserting(s2.inactive, q)), Connect(p)), Drop(q)), r)
    case Exist => (s2, r)
    case Full => (s2.(inactive := Inserting(s2.inactive, p)), r)
  }

  /** A round that does not end the loop uses up a free slot, or a normal peer in an outgoing slot,
      or a waiting peer. */
  lemma RoundProgress(s: State, p: Peer)
    requires p in s.inactive
    ensures var (s', r) := Round(s, p);
      r != Full ==>
        || Free(s') < Free(s)
        || (Free(s') == Free(s) && Normals(s'.active, Out) < Normals(s.active, Out))
        || (Free(s') == Free(s) && Normals(s'.active, Out) == Normals(s.active, Out) && |s'.inactive| < |s.inactive|)
  {
    var s1 := s.(inactive := Without(s.inactive, p));
    var e := Entry(p, Out, KindOf(s, p));
    AppendCounts(s.active, e, Out);
    var i := FirstNormal(s.active, Out);
    if i < |s.active| { DeleteCounts(s.active + [e], i, Out); }
  }

  /** `activate`, for every state: the recursion is the loop and its measure shows that it ends. */
  function Activate(s: State): State
    decreases Free(s), Normals(s.active, Out), |s.inactive|
  {
    match Candidate(s)
    case None => s
    case Some(p) =>
      RoundProgress(s, p);
      var (s', r) := Round(s, p);
      if r == Full then s' else Activate(s')
  }

  function Discovered(s: State, p: Peer): State {
    if Contains(s.active, p) then s else Activate(s.(inactive := Inserting(s.inactive, p)))
  }

  function Dropped(s: State, p: Peer): State {
    var s1 := RemoveActive(s, p);
    Activate(s1.(inactive := Inserting(s1.inactive, p)))
  }

  function Incoming(s: State, p: Peer, id: nat): State {
    if s.reservedOnly && p !in s.reserved then Send(s, Reject(id))
    else
      var (s1, r) := InsertActive(s, p, In);
      match r
      case Inserted => Send(s1.(inactive := Without(s1.inactive, p)), Accept(id))
      case Replaced(q) => Send(Send(s1.(inactive := Inserting(Without(s1.inactive, p), q)), Accept(id)), Drop(q))
      case Exist => Send(s1, Accept(id))
      case Full => Send(s1.(inactive := Inserting(s1.inactive, p)), Reject(id))
  }

  function AddReserved(s: State, p: Peer): State {
    var s1 := s.(reserved := s.reserved + {p});
    if Contains(s1.active, p) then s1 else Activate(s1.(inactive := Inserting(s1.inactive, p)))
  }

  /** Takes `p` out of the active peers, lets it wait and drops its connection. */
  function Evict(s: State, p: Peer): State {
    var s1 := RemoveActive(s, p);
    Send(s1.(inactive := Inserting(s1.inactive, p)), Drop(p))
  }

  function RemoveReserved(s: State, p: Peer): State {
    var s1 := s.(reserved := s.reserved - {p});
    Activate(if s1.reservedOnly then Evict(s1, p) else s1)
  }

  function NotReserved(active: seq<Entry>, reserved: set<Peer>): seq<Peer> {
    if active == [] then []
    else (if active[0].peer in reserved then [] else [active[0].peer]) + NotReserved(active[1..], reserved)
  }

  function EvictAll(s: State, ps: seq<Peer>): State
    decreases |ps|
  {
    if ps == [] then s else EvictAll(Evict(s, ps[0]), ps[1..])
  }

  function SetReservedOnly(s: State, only: bool): State {
    var s1 := s.(reservedOnly := only);
    Activate(if only then EvictAll(s1, NotReserved(s1.active, s1.reserved)) else s1)
  }

  function Saturated(x: int): int {
    if x > I32_MAX then I32_MAX else if x < I32_MIN then I32_MIN else x
  }

  function ReportPeer(s: State, p: Peer, diff: int): State {
    var score := NewScore(s, p, diff);
    var s1 := s.(scores := s.scores[p := score]);
    if score >= MIN_SCORE then s1
    else Activate(Ban(s1, p))
  }

  function NewScore(s: State, p: Peer, diff: int): int {
    if p in s.scores then Saturated(s.scores[p] + diff) else diff
  }

  function Ban(s: State, p: Peer): State {
    var s1 := RemoveActive(s, p).(inactive := Without(s.inactive, p));
    if Contains(s.active, p) then Send(s1, Drop(p)) else s1
  }

  function Start(maxIn: nat, maxOut: nat, reserved: seq<Peer>, boot: seq<Peer>, only: bool): State {
    Activate(State(maxIn, maxOut, (set p | p in reserved), only, [], 0, 0, InsertAll([], reserved + boot), map[], []))
  }

  function InsertAll(s: seq<Peer>, ps: seq<Peer>): (r: seq<Peer>)
    ensures NoDuplicates(s) ==> NoDuplicates(r)
    decreases |ps|
  {
    if ps == [] then s else InsertAll(Inserting(s, ps[0]), ps[1..])
  }

  // ---------------------------------------------------------------- invariant

  /** Counters tell the truth and respect the maxima. */
  predicate ActiveOk(s: State) {
    && DistinctPeers(s.active)
    && s.inPeers == Count(s.active, In) && s.outPeers == Count(s.active, Out)
    && s.inPeers <= s.maxIn && s.outPeers <= s.maxOut
  }

  function Waiting(s: State): set<Peer> {
    set p | p in s.inactive
  }

  /** Every peer the manager knows, active or waiting. */
  function Known(s: State): set<Peer> {
    Peers(s.active) + Waiting(s)
  }

  /** No peer is both active and waiting, and none waits twice. */
  predicate Separate(s: State) {
    ActiveOk(s) && NoDuplicates(s.inactive) && Peers(s.active) * Waiting(s) == {}
  }

  /** The invariant: in the reserved-only mode, moreover, every active peer is reserved. */
  predicate Valid(s: State) {
    Separate(s) && (s.reservedOnly ==> Peers(s.active) <= s.reserved)
  }

  /** The connections the network holds once it obeys one message. */
  function Obeyed(peers: set<Peer>, m: OutMessage): set<Peer> {
    if m.Connect? then peers + {m.peer} else if m.Drop? then peers - {m.peer} else peers
  }

  /** The connections the network holds after the messages `ms`, in order. */
  function Followed(peers: set<Peer>, ms: seq<OutMessage>): set<Peer> {
    if ms == [] then peers else Obeyed(Followed(peers, ms[..|ms| - 1]), ms[|ms| - 1])
  }

  lemma {:induction false} FollowedConcat(peers: set<Peer>, ms: seq<OutMessage>, ms': seq<OutMessage>)
    ensures Followed(peers, ms + ms') == Followed(Followed(peers, ms), ms')
  {
    if ms' == [] {
      assert ms + ms' == ms;
    } else {
      var k := |ms'| - 1;
      assert (ms + ms')[..|ms| + k] == ms + ms'[..k];
      FollowedConcat(peers, ms, ms'[..k]);
    }
  }

  /** From `s` to `s'` the network is told every change of the active peers: starting from `peers`
      and obeying what was sent in between, it holds exactly the active peers. */
  ghost predicate Told(peers: set<Peer>, s: State, s': State) {
    && s.sent <= s'.sent
    && Peers(s'.active) == Followed(peers, s'.sent[|s.sent|..])
  }

  /** A waiting peer that may be activated means no free slot; a waiting reserved peer means no
      normal peer holds an outgoing slot. */
  predicate Settled(s: State) {
    && ((exists p :: p in s.inactive && (s.reservedOnly ==> p in s.reserved)) ==> s.outPeers >= s.maxOut)
    && ((exists p :: p in s.inactive && p in s.reserved) ==>
          forall i :: 0 <= i < |s.active| ==> !(s.active[i].state == Out && s.active[i].kind == Normal))
  }

  // ---------------------------------------------------------------- active peers

  /** Only the active peers and their counters differ. */
  predicate SameRest(s: State, s': State) {
    s' == s.(active := s'.active, inPeers := s'.inPeers, outPeers := s'.outPeers)
  }

  lemma RemoveActiveOk(s: State, p: Peer)
    requires ActiveOk(s)
    ensures var s' := RemoveActive(s, p);
      ActiveOk(s') && SameRest(s, s') && Peers(s'.active) == Peers(s.active) - {p}
  {
    var i := IndexOf(s.active, p);
    ContainsPeers(s.active, p);
    if i < |s.active| {
      DeletePeers(s.active, i);
      DeleteCounts(s.active, i, In);
      DeleteCounts(s.active, i, Out);
    }
  }

  lemma ReplaceOk(s: State, p: Peer, state: PeerState, i: nat)
    requires ActiveOk(s) && !Contains(s.active, p) && i < |s.active|
    requires s.active[i].state == state && s.active[i].kind == Normal
    ensures var s' := s.(active := Delete(s.active + [Entry(p, state, Reserved)], i));
      ActiveOk(s') && Peers(s'.active) == Peers(s.active) + {p} - {s.active[i].peer}
  {
    var e := Entry(p, state, Reserved);
    var a := s.active + [e];
    AppendPeers(s.active, e);
    DeletePeers(a, i);
    AppendCounts(s.active, e, In);
    AppendCounts(s.active, e, Out);
    DeleteCounts(a, i, In);
    DeleteCounts(a, i, Out);
  }

  lemma AddOk(s: State, e: Entry)
    requires ActiveOk(s) && !Contains(s.active, e.peer) && CountOf(s, e.state) < MaxOf(s, e.state)
    ensures var s' := WithCount(s.(active := s.active + [e]), e.state, CountOf(s, e.state) + 1);
      ActiveOk(s') && Peers(s'.active) == Peers(s.active) + {e.peer}
  {
    AppendPeers(s.active, e);
    AppendCounts(s.active, e, In);
    AppendCounts(s.active, e, Out);
  }

  lemma PeerAt(active: seq<Entry>, i: nat)
    requires i < |active|
    ensures active[i].peer in Peers(active)
  {
  }

  lemma InsertActiveOk(s: State, p: Peer, state: PeerState)
    requires ActiveOk(s)
    ensures var (s', r) := InsertActive(s, p, state);
      && ActiveOk(s') && SameRest(s, s')
      && match r
         case Inserted => p !in Peers(s.active) && Peers(s'.active) == Peers(s.active) + {p}
         case Replaced(q) =>
           && p !in Peers(s.active) && q in Peers(s.active) && p in s.reserved
           && Peers(s'.active) == Peers(s.active) + {p} - {q}
         case Exist => s' == s && p in Peers(s.active)
         case Full =>
           && s' == s && p !in Peers(s.active) && CountOf(s, state) >= MaxOf(s, state)
           && (p in s.reserved ==> FirstNormal(s.active, state) == |s.active|)
  {
    hide ActiveOk, Peers, FirstNormal, Contains;
    ContainsPeers(s.active, p);
    var i := FirstNormal(s.active, state);
    if i < |s.active| { PeerAt(s.active, i); }
    if !Contains(s.active, p) {
      if CountOf(s, state) >= MaxOf(s, state) {
        if p in s.reserved && i < |s.active| { ReplaceOk(s, p, state, i); }
      } else {
        AddOk(s, Entry(p, state, KindOf(s, p)));
      }
    }
  }

  lemma InWaiting(s: State, p: Peer)
    ensures p in Waiting(s) <==> p in s.inactive
  {
  }

  lemma WaitingAfter(s: State, p: Peer)
    ensures Waiting(s.(inactive := Inserting(s.inactive, p))) == Waiting(s) + {p}
    ensures Waiting(s.(inactive := Without(s.inactive, p))) == Waiting(s) - {p}
  {
  }

  // ---------------------------------------------------------------- activation

  predicate SameConfig(s: State, s': State) {
    && s'.maxIn == s.maxIn && s'.maxOut == s.maxOut && s'.reserved == s.reserved
    && s'.reservedOnly == s.reservedOnly && s'.scores == s.scores
  }

  lemma FollowedOne(peers: set<Peer>, m: OutMessage)
    ensures Followed(peers, [m]) == Obeyed(peers, m)
  {
    assert [m][..0] == [];
  }

  lemma FollowedTwo(peers: set<Peer>, m: OutMessage, m': OutMessage)
    ensures Followed(peers, [m, m']) == Followed(Followed(peers, [m]), [m'])
  {
    assert [m] + [m'] == [m, m'];
    FollowedConcat(peers, [m], [m']);
  }

  lemma ToldBy(peers: set<Peer>, s: State, s': State, ms: seq<OutMessage>)
    requires s'.sent == s.sent + ms && Peers(s'.active) == Followed(peers, ms)
    ensures Told(peers, s, s')
  {
    assert s'.sent[|s.sent|..] == ms;
  }

  lemma ToldTransitive(peers: set<Peer>, s: State, s': State, s'': State)
    requires Told(peers, s, s') && Told(Peers(s'.active), s', s'')
    ensures Told(peers, s, s'')
  {
    var ms, ms' := s'.sent[|s.sent|..], s''.sent[|s'.sent|..];
    assert s''.sent[|s.sent|..] == ms + ms';
    FollowedConcat(peers, ms, ms');
  }

  /** A change of the tables: who is active, who waits, and what was sent. */
  ghost predicate Change(s: State, s': State, active: set<Peer>, waiting: set<Peer>, ms: seq<OutMessage>) {
    && ActiveOk(s') && NoDuplicates(s'.inactive)
    && Peers(s'.active) == active && Waiting(s') == waiting && s'.sent == s.sent + ms
  }

  lemma RoundChange(s: State, p: Peer)
    requires Separate(s) && p in s.inactive
    ensures var (s', r) := Round(s, p);
      && SameConfig(s, s') && p !in Peers(s.active)
      && match r
         case Inserted => Change(s, s', Peers(s.active) + {p}, Waiting(s) - {p}, [Connect(p)])
         case Replaced(q) =>
           && q in Peers(s.active) && p in s.reserved
           && Change(s, s', Peers(s.active) + {p} - {q}, Waiting(s) - {p} + {q}, [Connect(p), Drop(q)])
         case Exist => false
         case Full =>
           && Change(s, s', Peers(s.active), Waiting(s), [])
           && s'.active == s.active && s'.outPeers == s.outPeers && s.outPeers >= s.maxOut
           && (p in s.reserved ==> FirstNormal(s.active, Out) == |s.active|)
  {
    hide Peers, Count, FirstNormal, DistinctPeers, Contains, KindOf, InsertActive;
    InWaiting(s, p);
    assert p !in Peers(s.active) * Waiting(s);
    var s1 := s.(inactive := Without(s.inactive, p));
    WaitingAfter(s, p);
    InsertActiveOk(s1, p, Out);
    var (s2, r) := InsertActive(s1, p, Out);
    match r {
      case Inserted =>
      case Replaced(q) => WaitingAfter(s2, q);
      case Exist =>
      case Full => WaitingAfter(s2, p);
    }
  }

  lemma ChangeTold(s: State, s': State, active: set<Peer>, waiting: set<Peer>, ms: seq<OutMessage>, peers: set<Peer>)
    requires Change(s, s', active, waiting, ms) && active == Followed(peers, ms)
    ensures Told(peers, s, s')
  {
    ToldBy(peers, s, s', ms);
  }

  lemma FollowConnectDrop(peers: set<Peer>, p: Peer, q: Peer)
    ensures Followed(peers, [Connect(p)]) == peers + {p}
    ensures Followed(peers, [Drop(q)]) == peers - {q}
    ensures Followed(peers, [Connect(p), Drop(q)]) == peers + {p} - {q}
  {
    FollowedOne(peers, Connect(p));
    FollowedOne(peers, Drop(q));
    FollowedOne(peers + {p}, Drop(q));
    FollowedTwo(peers, Connect(p), Drop(q));
  }

  lemma RoundOk(s: State, p: Peer)
    requires Valid(s) && Candidate(s) == Some(p)
    ensures var (s', r) := Round(s, p);
      && Valid(s') && SameConfig(s, s') && Known(s') == Known(s) && Told(Peers(s.active), s, s')
      && (r == Full ==>
            && s'.active == s.active && s'.outPeers == s.outPeers && Waiting(s') == Waiting(s)
            && s.outPeers >= s.maxOut && (p in s.reserved ==> FirstNormal(s.active, Out) == |s.active|))
  {
    hide Peers, Waiting, ActiveOk, FirstNormal, Round, Told, Followed;
    RoundChange(s, p);
    InWaiting(s, p);
    var (s', r) := Round(s, p);
    match r {
      case Inserted =>
        FollowConnectDrop(Peers(s.active), p, p);
        ChangeTold(s, s', Peers(s.active) + {p}, Waiting(s) - {p}, [Connect(p)], Peers(s.active));
      case Replaced(q) =>
        FollowConnectDrop(Peers(s.active), p, q);
        ChangeTold(s, s', Peers(s.active) + {p} - {q}, Waiting(s) - {p} + {q}, [Connect(p), Drop(q)], Peers(s.active));
      case Exist =>
      case Full =>
        FollowedNone(Peers(s.active));
        ChangeTold(s, s', Peers(s.active), Waiting(s), [], Peers(s.active));
    }
  }

  lemma {:induction false} ActivateOk(s: State)
    requires Valid(s)
    ensures var s' := Activate(s);
      && Valid(s') && Settled(s') && SameConfig(s, s') && Known(s') == Known(s) && Told(Peers(s.active), s, s')
    decreases Free(s), Normals(s.active, Out), |s.inactive|
  {
    match Candidate(s) {
      case None =>
        ToldBy(Peers(s.active), s, s, []);
      case Some(p) =>
        RoundOk(s, p);
        RoundProgress(s, p);
        var (s', r) := Round(s, p);
        if r == Full {
          FullSettled(s, s', p);
        } else {
          ActivateOk(s');
          ToldTransitive(Peers(s.active), s, s', Activate(s'));
        }
    }
  }

  lemma FullSettled(s: State, s': State, p: Peer)
    requires Candidate(s) == Some(p) && SameConfig(s, s') && s'.active == s.active && s'.outPeers == s.outPeers
    requires Waiting(s') == Waiting(s) && s.outPeers >= s.maxOut
    requires p in s.reserved ==> FirstNormal(s.active, Out) == |s.active|
    ensures Settled(s')
  {
    forall q | q in s'.inactive ensures q in s.inactive { assert q in Waiting(s'); }
  }

  // ---------------------------------------------------------------- runs

  datatype Operation =
    | OpDiscovered(peer: Peer)
    | OpDropped(peer: Peer)
    | OpIncoming(peer: Peer, id: nat)
    | OpAddReserved(peer: Peer)
    | OpRemoveReserved(peer: Peer)
    | OpSetReservedOnly(only: bool)
    | OpReport(peer: Peer, diff: int)

  function Apply(s: State, op: Operation): State {
    match op
    case OpDiscovered(p) => Discovered(s, p)
    case OpDropped(p) => Dropped(s, p)
    case OpIncoming(p, id) => Incoming(s, p, id)
    case OpAddReserved(p) => AddReserved(s, p)
    case OpRemoveReserved(p) => RemoveReserved(s, p)
    case OpSetReservedOnly(only) => SetReservedOnly(s, only)
    case OpReport(p, diff) => ReportPeer(s, p, diff)
  }

  /** The connections of the network when the operation begins: a dropped peer is gone, an incoming
      one is there once it is accepted. */
  function Connections(peers: set<Peer>, op: Operation, ms: seq<OutMessage>): set<Peer> {
    match op
    case OpDropped(p) => peers - {p}
    case OpIncoming(p, id) => if Accept(id) in ms then peers + {p} else peers
    case _ => peers
  }

  ghost predicate Reports(s: State, op: Operation, s': State) {
    && s.sent <= s'.sent
    && Told(Connections(Peers(s.active), op, s'.sent[|s.sent|..]), s, s')
  }

  lemma RemovedThenActivate(s: State, s1: State, peers: set<Peer>)
    requires Valid(s1) && Told(peers, s, s1)
    ensures Valid(Activate(s1)) && Settled(Activate(s1)) && Told(peers, s, Activate(s1))
    ensures SameConfig(s1, Activate(s1)) && Known(Activate(s1)) == Known(s1)
  {
    ActivateOk(s1);
    ToldTransitive(peers, s, s1, Activate(s1));
  }

  lemma WaitOk(s: State, p: Peer)
    requires Valid(s) && p !in Peers(s.active)
    ensures var s' := s.(inactive := Inserting(s.inactive, p));
      Valid(s') && Known(s') == Known(s) + {p} && Told(Peers(s.active), s, s')
  {
    hide Peers, Count, DistinctPeers, Waiting, Inserting;
    var s' := s.(inactive := Inserting(s.inactive, p));
    WaitingAfter(s, p);
    InsertingDistinct(s.inactive, p);
    ToldBy(Peers(s.active), s, s', []);
  }

  lemma InsertingDistinct(s: seq<Peer>, p: Peer)
    requires NoDuplicates(s)
    ensures NoDuplicates(Inserting(s, p)) && NoDuplicates(Without(s, p))
  {
  }

  lemma DiscoveredOk(s: State, p: Peer)
    requires Valid(s)
    ensures Valid(Discovered(s, p)) && Reports(s, OpDiscovered(p), Discovered(s, p)) && Known(Discovered(s, p)) == Known(s) + {p}
  {
    hide Peers, Waiting, ActiveOk, Activate;
    ContainsPeers(s.active, p);
    if Contains(s.active, p) {
      ToldBy(Peers(s.active), s, s, []);
    } else {
      WaitOk(s, p);
      RemovedThenActivate(s, s.(inactive := Inserting(s.inactive, p)), Peers(s.active));
    }
  }

  lemma DroppedOk(s: State, p: Peer)
    requires Valid(s)
    ensures Valid(Dropped(s, p)) && Settled(Dropped(s, p)) && Reports(s, OpDropped(p), Dropped(s, p))
    ensures Known(Dropped(s, p)) == Known(s) + {p}
  {
    hide Peers, Waiting, ActiveOk, Activate, RemoveActive, Inserting, Settled;
    RemoveActiveOk(s, p);
    var s1 := RemoveActive(s, p);
    var s2 := s1.(inactive := Inserting(s1.inactive, p));
    WaitingAfter(s1, p);
    InsertingDistinct(s.inactive, p);
    SameWaiting(s, s1);
    ActiveSame(s1, s2);
    ToldBy(Peers(s.active) - {p}, s, s2, []);
    RemovedThenActivate(s, s2, Peers(s.active) - {p});
  }

  lemma SameWaiting(s: State, s': State)
    requires s.inactive == s'.inactive
    ensures Waiting(s) == Waiting(s')
  {
  }

  lemma ActiveSame(s: State, s': State)
    requires ActiveOk(s) && s'.active == s.active && s'.inPeers == s.inPeers && s'.outPeers == s.outPeers
    requires s'.maxIn == s.maxIn && s'.maxOut == s.maxOut
    ensures ActiveOk(s')
  {
  }

  lemma IncomingChange(s: State, p: Peer, id: nat)
    requires Separate(s) && (s.reservedOnly ==> p in s.reserved)
    ensures var (s', r) := (Incoming(s, p, id), InsertActive(s, p, In).1);
      && SameConfig(s, s')
      && match r
         case Inserted => p !in Peers(s.active) && Change(s, s', Peers(s.active) + {p}, Waiting(s) - {p}, [Accept(id)])
         case Replaced(q) =>
           && p !in Peers(s.active) && q in Peers(s.active)
           && Change(s, s', Peers(s.active) + {p} - {q}, Waiting(s) - {p} + {q}, [Accept(id), Drop(q)])
         case Exist => p in Peers(s.active) && Change(s, s', Peers(s.active), Waiting(s), [Accept(id)])
         case Full => p !in Peers(s.active) && Change(s, s', Peers(s.active), Waiting(s) + {p}, [Reject(id)])
  {
    hide Peers, Count, FirstNormal, DistinctPeers, Contains, KindOf, InsertActive;
    InsertActiveOk(s, p, In);
    var (s1, r) := InsertActive(s, p, In);
    WaitingAfter(s1, p);
    match r {
      case Inserted =>
      case Replaced(q) => WaitingAfter(s1.(inactive := Without(s1.inactive, p)), q);
      case Exist =>
      case Full =>
    }
  }

  lemma FollowAccept(peers: set<Peer>, id: nat, q: Peer)
    ensures Followed(peers, [Accept(id)]) == peers && Followed(peers, [Reject(id)]) == peers
    ensures Followed(peers, [Accept(id), Drop(q)]) == peers - {q}
  {
    FollowedOne(peers, Accept(id));
    FollowedOne(peers, Reject(id));
    FollowedOne(peers, Drop(q));
    FollowedTwo(peers, Accept(id), Drop(q));
  }

  lemma ReportsBy(s: State, s': State, op: Operation, active: set<Peer>, waiting: set<Peer>, ms: seq<OutMessage>)
    requires Change(s, s', active, waiting, ms)
    requires active == Followed(Connections(Peers(s.active), op, ms), ms)
    ensures Reports(s, op, s')
  {
    assert s'.sent[|s.sent|..] == ms;
  }

  lemma IncomingOk(s: State, p: Peer, id: nat)
    requires Valid(s)
    ensures Valid(Incoming(s, p, id)) && Reports(s, OpIncoming(p, id), Incoming(s, p, id))
  {
    hide Peers, Waiting, ActiveOk, Reports, Followed, InsertActive;
    var s', op := Incoming(s, p, id), OpIncoming(p, id);
    var peers, waiting := Peers(s.active), Waiting(s);
    if s.reservedOnly && p !in s.reserved {
      FollowAccept(peers, id, p);
      ActiveSame(s, s');
      SameWaiting(s, s');
      ReportsBy(s, s', op, peers, waiting, [Reject(id)]);
    } else {
      IncomingChange(s, p, id);
      hide Incoming;
      match InsertActive(s, p, In).1 {
        case Inserted =>
          FollowAccept(peers + {p}, id, p);
          ReportsBy(s, s', op, peers + {p}, waiting - {p}, [Accept(id)]);
        case Replaced(q) =>
          FollowAccept(peers + {p}, id, q);
          ReportsBy(s, s', op, peers + {p} - {q}, waiting - {p} + {q}, [Accept(id), Drop(q)]);
        case Exist =>
          assert peers + {p} == peers;
          FollowAccept(peers, id, p);
          ReportsBy(s, s', op, peers, waiting, [Accept(id)]);
        case Full =>
          FollowAccept(peers, id, p);
          ReportsBy(s, s', op, peers, waiting + {p}, [Reject(id)]);
      }
    }
  }

  lemma AddReservedOk(s: State, p: Peer)
    requires Valid(s)
    ensures Valid(AddReserved(s, p)) && Reports(s, OpAddReserved(p), AddReserved(s, p))
  {
    hide Peers, Waiting, ActiveOk, Activate, Inserting, Told;
    var s1 := s.(reserved := s.reserved + {p});
    ActiveSame(s, s1);
    SameWaiting(s, s1);
    ContainsPeers(s1.active, p);
    ToldBy(Peers(s.active), s, s1, []);
    if !Contains(s1.active, p) {
      WaitOk(s1, p);
      var s2 := s1.(inactive := Inserting(s1.inactive, p));
      ToldTransitive(Peers(s.active), s, s1, s2);
      RemovedThenActivate(s, s2, Peers(s.active));
      ToldMeans(Peers(s.active), s, Activate(s2));
    }
  }

  lemma ToldMeans(peers: set<Peer>, s: State, s': State)
    requires Told(peers, s, s')
    ensures s.sent <= s'.sent
  {
  }

  lemma EvictOk(s: State, p: Peer)
    requires Separate(s)
    ensures Separate(Evict(s, p)) && Peers(Evict(s, p).active) == Peers(s.active) - {p}
    ensures SameConfig(s, Evict(s, p)) && Told(Peers(s.active), s, Evict(s, p)) && Known(Evict(s, p)) == Known(s) + {p}
  {
    hide Peers, Waiting, ActiveOk, RemoveActive, Inserting, Told, Followed;
    RemoveActiveOk(s, p);
    var s1, s' := RemoveActive(s, p), Evict(s, p);
    WaitingAfter(s1, p);
    SameWaiting(s, s1);
    SameWaiting(s1.(inactive := Inserting(s1.inactive, p)), s');
    InsertingDistinct(s.inactive, p);
    ActiveSame(s1, s');
    FollowConnectDrop(Peers(s.active), p, p);
    ToldBy(Peers(s.active), s, s', [Drop(p)]);
  }

  lemma RemoveReservedOk(s: State, p: Peer)
    requires Valid(s)
    ensures Valid(RemoveReserved(s, p)) && Settled(RemoveReserved(s, p)) && Reports(s, OpRemoveReserved(p), RemoveReserved(s, p))
  {
    hide Peers, Waiting, ActiveOk, Activate, Told, Evict, Settled;
    var s1 := s.(reserved := s.reserved - {p});
    ActiveSame(s, s1);
    SameWaiting(s, s1);
    ToldBy(Peers(s.active), s, s1, []);
    var s2 := s1;
    if s1.reservedOnly {
      EvictOk(s1, p);
      s2 := Evict(s1, p);
      ToldTransitive(Peers(s.active), s, s1, s2);
    }
    RemovedThenActivate(s, s2, Peers(s.active));
    ToldMeans(Peers(s.active), s, Activate(s2));
  }

  lemma {:induction false} NotReservedExact(active: seq<Entry>, reserved: set<Peer>)
    ensures forall p :: p in NotReserved(active, reserved) <==> p in Peers(active) && p !in reserved
  {
    if active != [] {
      var rest := active[1..];
      NotReservedExact(rest, reserved);
      assert active == [active[0]] + rest;
      assert Peers(active) == {active[0].peer} + Peers(rest) by {
        forall p ensures p in Peers(active) <==> p == active[0].peer || p in Peers(rest) {
          if p in Peers(active) {
            var i :| 0 <= i < |active| && active[i].peer == p;
            if i > 0 { assert rest[i - 1].peer == p; }
          }
          if p in Peers(rest) {
            var i :| 0 <= i < |rest| && rest[i].peer == p;
            assert active[i + 1].peer == p;
          }
        }
      }
    }
  }

  lemma {:induction false} EvictAllKnown(s: State, ps: seq<Peer>)
    requires Separate(s)
    ensures Known(EvictAll(s, ps)) == Known(s) + Elements(ps)
    decreases |ps|
  {
    hide Evict, Separate, Known;
    if ps != [] {
      EvictOk(s, ps[0]);
      EvictAllKnown(Evict(s, ps[0]), ps[1..]);
      assert ps == [ps[0]] + ps[1..];
    }
  }

  function Elements(ps: seq<Peer>): set<Peer> {
    set p | p in ps
  }

  lemma {:induction false} EvictAllOk(s: State, ps: seq<Peer>)
    requires Separate(s)
    ensures Separate(EvictAll(s, ps)) && SameConfig(s, EvictAll(s, ps)) && Told(Peers(s.active), s, EvictAll(s, ps))
    ensures Peers(EvictAll(s, ps).active) == Peers(s.active) - (set p | p in ps)
    decreases |ps|
  {
    if ps == [] {
      ToldBy(Peers(s.active), s, s, []);
    } else {
      EvictOk(s, ps[0]);
      EvictAllOk(Evict(s, ps[0]), ps[1..]);
      ToldTransitive(Peers(s.active), s, Evict(s, ps[0]), EvictAll(s, ps));
      assert ps == [ps[0]] + ps[1..];
    }
  }

  lemma SetReservedOnlyOk(s: State, only: bool)
    requires Valid(s)
    ensures Valid(SetReservedOnly(s, only)) && Settled(SetReservedOnly(s, only)) && Reports(s, OpSetReservedOnly(only), SetReservedOnly(s, only))
  {
    hide Peers, Waiting, ActiveOk, Activate, Told, EvictAll, NotReserved, Settled;
    var s1 := s.(reservedOnly := only);
    ActiveSame(s, s1);
    SameWaiting(s, s1);
    ToldBy(Peers(s.active), s, s1, []);
    var s2 := s1;
    if only {
      var ps := NotReserved(s1.active, s1.reserved);
      EvictAllOk(s1, ps);
      NotReservedExact(s1.active, s1.reserved);
      s2 := EvictAll(s1, ps);
      ToldTransitive(Peers(s.active), s, s1, s2);
    }
    RemovedThenActivate(s, s2, Peers(s.active));
    ToldMeans(Peers(s.active), s, Activate(s2));
  }

  lemma BanOk(s: State, p: Peer)
    requires Valid(s)
    ensures var s1 := RemoveActive(s, p).(inactive := Without(s.inactive, p));
      var s' := if Contains(s.active, p) then Send(s1, Drop(p)) else s1;
      Valid(s') && Told(Peers(s.active), s, s') && SameConfig(s, s') && Known(s') == Known(s) - {p}
  {
    hide Peers, Waiting, ActiveOk, RemoveActive, Without, Told, Followed, Contains;
    RemoveActiveOk(s, p);
    ContainsPeers(s.active, p);
    var s0 := RemoveActive(s, p);
    var s1 := s0.(inactive := Without(s.inactive, p));
    var s' := if Contains(s.active, p) then Send(s1, Drop(p)) else s1;
    WaitingAfter(s0, p);
    SameWaiting(s, s0);
    SameWaiting(s1, s');
    InsertingDistinct(s.inactive, p);
    ActiveSame(s0, s');
    if Contains(s.active, p) {
      FollowConnectDrop(Peers(s.active), p, p);
      ToldBy(Peers(s.active), s, s', [Drop(p)]);
    } else {
      assert Peers(s.active) - {p} == Peers(s.active);
      assert Followed(Peers(s.active), []) == Peers(s.active) by { FollowedNone(Peers(s.active)); }
      ToldBy(Peers(s.active), s, s', []);
    }
  }

  lemma FollowedNone(peers: set<Peer>)
    ensures Followed(peers, []) == peers
  {
  }

  lemma ReportOk(s: State, p: Peer, diff: int)
    requires Valid(s)
    ensures Valid(ReportPeer(s, p, diff)) && Reports(s, OpReport(p, diff), ReportPeer(s, p, diff))
  {
    hide Peers, Waiting, ActiveOk, Activate, Told, RemoveActive, Without, Contains;
    var score := if p in s.scores then Saturated(s.scores[p] + diff) else diff;
    var s1 := s.(scores := s.scores[p := score]);
    ActiveSame(s, s1);
    SameWaiting(s, s1);
    ToldBy(Peers(s.active), s, s1, []) by { FollowedNone(Peers(s.active)); }
    if score < MIN_SCORE {
      BanOk(s1, p);
      var s2 := RemoveActive(s1, p).(inactive := Without(s1.inactive, p));
      var s3 := if Contains(s1.active, p) then Send(s2, Drop(p)) else s2;
      ToldTransitive(Peers(s.active), s, s1, s3);
      RemovedThenActivate(s, s3, Peers(s.active));
      ToldMeans(Peers(s.active), s, Activate(s3));
    }
  }

  /** A score below the minimum forgets the peer, active or waiting, and nobody else. */
  lemma ReportBans(s: State, p: Peer, diff: int)
    requires Valid(s)
    ensures Known(ReportPeer(s, p, diff)) == if NewScore(s, p, diff) < MIN_SCORE then Known(s) - {p} else Known(s)
    ensures ReportPeer(s, p, diff).scores == s.scores[p := NewScore(s, p, diff)]
  {
    hide Peers, Waiting, ActiveOk, Activate, Told, RemoveActive, Without, Contains, NewScore, Settled;
    var s1 := s.(scores := s.scores[p := NewScore(s, p, diff)]);
    ActiveSame(s, s1);
    SameWaiting(s, s1);
    if NewScore(s, p, diff) < MIN_SCORE {
      BanOk(s1, p);
      ActivateOk(Ban(s1, p));
    }
  }

  lemma ApplyOk(s: State, op: Operation)
    requires Valid(s)
    ensures Valid(Apply(s, op)) && Reports(s, op, Apply(s, op))
  {
    match op
    case OpDiscovered(p) => DiscoveredOk(s, p);
    case OpDropped(p) => DroppedOk(s, p);
    case OpIncoming(p, id) => IncomingOk(s, p, id);
    case OpAddReserved(p) => AddReservedOk(s, p);
    case OpRemoveReserved(p) => RemoveReservedOk(s, p);
    case OpSetReservedOnly(only) => SetReservedOnlyOk(s, only);
    case OpReport(p, diff) => ReportOk(s, p, diff);
  }

  lemma StartOk(maxIn: nat, maxOut: nat, reserved: seq<Peer>, boot: seq<Peer>, only: bool)
    ensures var s := Start(maxIn, maxOut, reserved, boot, only);
      Valid(s) && Settled(s) && Peers(s.active) == Followed({}, s.sent)
  {
    var s0 := State(maxIn, maxOut, (set p | p in reserved), only, [], 0, 0, InsertAll([], reserved + boot), map[], []);
    assert Valid(s0);
    assert Peers([]) == {};
    ActivateOk(s0);
    var s := Activate(s0);
    assert s.sent[0..] == s.sent;
  }

  lemma {:induction false} InsertAllHas(s: seq<Peer>, ps: seq<Peer>)
    ensures forall p :: p in InsertAll(s, ps) <==> p in s || p in ps
    decreases |ps|
  {
    if ps != [] {
      InsertAllHas(Inserting(s, ps[0]), ps[1..]);
      assert ps == [ps[0]] + ps[1..];
    }
  }

  /** At first the manager knows exactly the reserved and the boot peers, under the given settings, and its
      active peers all have outgoing slots. */
  lemma StartKnows(maxIn: nat, maxOut: nat, reserved: seq<Peer>, boot: seq<Peer>, only: bool)
    ensures var s := Start(maxIn, maxOut, reserved, boot, only);
      && (s.maxIn, s.maxOut, s.reserved, s.reservedOnly, s.scores) == (maxIn, maxOut, Elements(reserved), only, map[])
      && Known(s) == Elements(reserved) + Elements(boot) && forall i :: 0 <= i < |s.active| ==> s.active[i].state == Out
  {
    var s0 := State(maxIn, maxOut, (set p | p in reserved), only, [], 0, 0, InsertAll([], reserved + boot), map[], []);
    assert Valid(s0);
    InsertAllHas([], reserved + boot);
    assert Known(s0) == Elements(reserved) + Elements(boot);
    hide Known;
    ActivateOk(s0);
    ActivateOnly(s0);
  }

  function After(s: State, ops: seq<Operation>): State
    decreases |ops|
  {
    if ops == [] then s else Apply(After(s, ops[..|ops| - 1]), ops[|ops| - 1])
  }

  /** The connections of the network after a run, computed from the operations and the messages
      alone, never from the manager's own tables. */
  function Network(s: State, ops: seq<Operation>): set<Peer>
    decreases |ops|
  {
    if ops == [] then Followed({}, s.sent)
    else
      var k := |ops| - 1;
      var before, after := After(s, ops[..k]), After(s, ops);
      var ms := if before.sent <= after.sent then after.sent[|before.sent|..] else [];
      Followed(Connections(Network(s, ops[..k]), ops[k], ms), ms)
  }

  /** Over every run of operations, from any configuration: the invariant holds and the active peers
      are exactly the connections the network holds by obeying the manager's messages. */
  lemma {:induction false} RunOk(maxIn: nat, maxOut: nat, reserved: seq<Peer>, boot: seq<Peer>, only: bool, ops: seq<Operation>)
    ensures var s := Start(maxIn, maxOut, reserved, boot, only);
      Valid(After(s, ops)) && Peers(After(s, ops).active) == Network(s, ops)
    decreases |ops|
  {
    var s := Start(maxIn, maxOut, reserved, boot, only);
    if ops == [] {
      StartOk(maxIn, maxOut, reserved, boot, only);
    } else {
      var k := |ops| - 1;
      RunOk(maxIn, maxOut, reserved, boot, only, ops[..k]);
      ApplyOk(After(s, ops[..k]), ops[k]);
    }
  }

  // ---------------------------------------------------------------- what each operation brings about

  /** Activation only adds outgoing peers that waited, and only takes away normal outgoing ones. */
  predicate OnlyActivates(s: State, s': State) {
    && (forall i :: 0 <= i < |s.active| && (s.active[i].state == In || s.active[i].kind == Reserved) ==> s.active[i] in s'.active)
    && (forall i :: 0 <= i < |s'.active| ==>
          s'.active[i] in s.active || (s'.active[i].state == Out && s'.active[i].kind == KindOf(s', s'.active[i].peer)))
  }

  lemma {:induction false} ActivateOnly(s: State)
    ensures OnlyActivates(s, Activate(s)) && SameConfig(s, Activate(s)) && s.sent <= Activate(s).sent
    decreases Free(s), Normals(s.active, Out), |s.inactive|
  {
    hide Inserting, Without, Candidate;
    var c := Candidate(s);
    if c.Some? {
      CandidateWaits(s);
      RoundProgress(s, c.value);
      RoundOnly(s, c.value);
      var (s', r) := Round(s, c.value);
      if r != Full {
        ActivateOnly(s');
        OnlyTransitive(s, s', Activate(s'));
      }
    }
  }

  lemma CandidateWaits(s: State)
    ensures Candidate(s).Some? ==> Candidate(s).value in s.inactive
  {
  }

  lemma RoundOnly(s: State, p: Peer)
    ensures OnlyActivates(s, Round(s, p).0) && SameConfig(s, Round(s, p).0) && s.sent <= Round(s, p).0.sent
  {
    hide Inserting, Without, FirstNormal, Contains;
    var s1 := s.(inactive := Without(s.inactive, p));
    InsertOnly(s1, p);
    hide InsertActive, OnlyActivates;
    var (s2, r) := InsertActive(s1, p, Out);
    OnlySame(s, s1, s2);
    OnlySame2(s, s2, Round(s, p).0);
  }

  lemma InsertOnly(s: State, p: Peer)
    ensures OnlyActivates(s, InsertActive(s, p, Out).0) && SameRest(s, InsertActive(s, p, Out).0)
  {
    hide Contains;
    var (a, e, i) := (s.active, Entry(p, Out, KindOf(s, p)), FirstNormal(s.active, Out));
    if i < |a| { ReplacedOnly(a, e, i); }
    hide FirstNormal, Delete;
    forall j | 0 <= j < |a| ensures a[j] in a + [e] { assert (a + [e])[j] == a[j]; }
  }

  lemma ReplacedOnly(a: seq<Entry>, e: Entry, i: nat)
    requires i < |a| && a[i].state == Out && a[i].kind == Normal
    ensures var d := Delete(a + [e], i);
      (forall j :: 0 <= j < |a| && (a[j].state == In || a[j].kind == Reserved) ==> a[j] in d) && forall j :: 0 <= j < |d| ==> d[j] in a || d[j] == e
  {
    var (b, d) := (a + [e], Delete(a + [e], i));
    forall j | 0 <= j < |a| && (a[j].state == In || a[j].kind == Reserved) ensures a[j] in d { assert d[if j < i then j else j - 1] == a[j]; }
    forall j | 0 <= j < |d| ensures d[j] in a || d[j] == e { assert d[j] == b[if j < i then j else j + 1]; }
  }

  lemma OnlySame2(s: State, s': State, s'': State)
    requires OnlyActivates(s, s') && s''.active == s'.active && s''.reserved == s'.reserved
    ensures OnlyActivates(s, s'')
  {
  }

  lemma OnlyTransitive(s: State, s': State, s'': State)
    requires OnlyActivates(s, s') && OnlyActivates(s', s'') && SameConfig(s', s'')
    ensures OnlyActivates(s, s'')
  {
    forall i | 0 <= i < |s.active| && (s.active[i].state == In || s.active[i].kind == Reserved) ensures s.active[i] in s''.active {
      var j :| 0 <= j < |s'.active| && s'.active[j] == s.active[i];
    }
    forall i | 0 <= i < |s''.active|
      ensures s''.active[i] in s.active || (s''.active[i].state == Out && s''.active[i].kind == KindOf(s'', s''.active[i].peer))
    {
      if s''.active[i] in s'.active { var j :| 0 <= j < |s'.active| && s'.active[j] == s''.active[i]; }
    }
  }

  /** What was sent since. */
  function News(s: State, s': State): seq<OutMessage> {
    if s.sent <= s'.sent then s'.sent[|s.sent|..] else []
  }

  /** Reserved peers, the mode and the scores afterwards; the maxima never change. */
  predicate Configured(s: State, s': State, reserved: set<Peer>, only: bool, scores: map<Peer, int>) {
    (s'.maxIn, s'.maxOut, s'.reserved, s'.reservedOnly, s'.scores) == (s.maxIn, s.maxOut, reserved, only, scores)
  }

  /** The score of a peer known by one is the sum, kept within 32 bits; a new one begins with the report. */
  function ScoreAfter(s: State, p: Peer, diff: int): int {
    if p !in s.scores then diff
    else if s.scores[p] + diff > I32_MAX then I32_MAX
    else if s.scores[p] + diff < I32_MIN then I32_MIN
    else s.scores[p] + diff
  }

  /** An incoming connection: refused if only reserved peers may come; accepted if its peer is active, if
      there is a slot, or if a reserved peer can take that of the first normal one, who is dropped and
      waits; otherwise refused, and its peer waits. */
  predicate Answered(s: State, p: Peer, id: nat, s': State) {
    var e := Entry(p, In, if p in s.reserved then Reserved else Normal);
    if s.reservedOnly && p !in s.reserved then s' == s.(sent := s.sent + [Reject(id)])
    else if p in Peers(s.active) then s' == s.(sent := s.sent + [Accept(id)])
    else if s.inPeers < s.maxIn then
      && s'.active == s.active + [e] && Waiting(s') == Waiting(s) - {p} && s'.sent == s.sent + [Accept(id)]
      && (s'.inPeers, s'.outPeers) == (s.inPeers + 1, s.outPeers)
    else
      var i := FirstNormal(s.active, In);
      if p in s.reserved && i < |s.active| then
        var q := s.active[i].peer;
        && s'.active == s.active[..i] + s.active[i + 1..] + [e] && Waiting(s') == Waiting(s) - {p} + {q}
        && s'.sent == s.sent + [Accept(id), Drop(q)] && (s'.inPeers, s'.outPeers) == (s.inPeers, s.outPeers)
      else s' == s.(inactive := s'.inactive, sent := s.sent + [Reject(id)]) && Waiting(s') == Waiting(s) + {p}
  }

  /** The outcome of each operation on the tables, the settings and the messages. */
  ghost predicate Outcome(s: State, op: Operation, s': State) {
    match op
    case OpDiscovered(p) =>
      && Configured(s, s', s.reserved, s.reservedOnly, s.scores) && Known(s') == Known(s) + {p}
      && if p in Peers(s.active) then s' == s else Settled(s') && OnlyActivates(s, s')
    case OpDropped(p) =>
      && Configured(s, s', s.reserved, s.reservedOnly, s.scores) && Known(s') == Known(s) + {p} && Settled(s')
    case OpIncoming(p, id) => Configured(s, s', s.reserved, s.reservedOnly, s.scores) && Answered(s, p, id, s')
    case OpAddReserved(p) =>
      && Configured(s, s', s.reserved + {p}, s.reservedOnly, s.scores) && Known(s') == Known(s) + {p}
      && if p in Peers(s.active) then s' == s.(reserved := s'.reserved) else Settled(s')
    case OpRemoveReserved(p) =>
      && Configured(s, s', s.reserved - {p}, s.reservedOnly, s.scores) && Settled(s')
      && Known(s') == Known(s) + (if s.reservedOnly then {p} else {})
      && if s.reservedOnly then p !in Peers(s'.active) && |News(s, s')| > 0 && News(s, s')[0] == Drop(p) else OnlyActivates(s, s')
    case OpSetReservedOnly(only) =>
      && Configured(s, s', s.reserved, only, s.scores) && Known(s') == Known(s) && Settled(s')
      && if only then Peers(s'.active) <= s.reserved && forall q :: q in Peers(s.active) && q !in s.reserved ==> Drop(q) in News(s, s')
         else OnlyActivates(s, s')
    case OpReport(p, diff) =>
      var score := ScoreAfter(s, p, diff);
      && Configured(s, s', s.reserved, s.reservedOnly, s.scores[p := score])
      && if score >= MIN_SCORE then s' == s.(scores := s'.scores)
         else Known(s') == Known(s) - {p} && Settled(s') && (p in Peers(s.active) ==> Drop(p) in News(s, s'))
  }

  lemma {:induction false} DroppedOnTheWay(peers: set<Peer>, ms: seq<OutMessage>, p: Peer)
    requires p in peers && p !in Followed(peers, ms)
    ensures Drop(p) in ms
    decreases |ms|
  {
    if ms != [] && ms[|ms| - 1] != Drop(p) { DroppedOnTheWay(peers, ms[..|ms| - 1], p); }
  }

  lemma DropTold(s: State, op: Operation, s': State, p: Peer)
    requires Reports(s, op, s') && !op.OpDropped? && p in Peers(s.active) && p !in Peers(s'.active)
    ensures Drop(p) in News(s, s')
  {
    hide Peers;
    DroppedOnTheWay(Connections(Peers(s.active), op, News(s, s')), News(s, s'), p);
  }

  lemma DiscoveredOutcome(s: State, p: Peer)
    requires Valid(s)
    ensures Outcome(s, OpDiscovered(p), Discovered(s, p))
  {
    hide Peers, Waiting, Activate, Inserting, Settled, OnlyActivates;
    DiscoveredOk(s, p);
    ContainsPeers(s.active, p);
    if !Contains(s.active, p) {
      WaitOk(s, p);
      var s1 := s.(inactive := Inserting(s.inactive, p));
      ActivateOk(s1);
      ActivateOnly(s1);
      OnlySame(s, s1, Activate(s1));
    }
  }

  lemma OnlySame(s: State, s1: State, s': State)
    requires OnlyActivates(s1, s') && s1.active == s.active
    ensures OnlyActivates(s, s')
  {
  }

  lemma DroppedOutcome(s: State, p: Peer)
    requires Valid(s)
    ensures Outcome(s, OpDropped(p), Dropped(s, p))
  {
    hide Activate, Settled, Known;
    DroppedOk(s, p);
    RemoveActiveOk(s, p);
    ActivateOnly(RemoveActive(s, p).(inactive := Inserting(RemoveActive(s, p).inactive, p)));
    hide RemoveActive;
  }

  lemma IncomingOutcome(s: State, p: Peer, id: nat)
    requires Valid(s)
    ensures Outcome(s, OpIncoming(p, id), Incoming(s, p, id))
  {
    hide Peers, Waiting, Incoming, Answered;
    IncomingConfig(s, p, id);
    IncomingAnswered(s, p, id);
  }

  lemma IncomingConfig(s: State, p: Peer, id: nat)
    ensures SameConfig(s, Incoming(s, p, id))
  {
    hide Inserting, Without, FirstNormal, Contains, Delete;
  }

  lemma IncomingAnswered(s: State, p: Peer, id: nat)
    requires Valid(s)
    ensures Answered(s, p, id, Incoming(s, p, id))
  {
    hide Peers, Waiting, Inserting, Without, FirstNormal, ActiveOk;
    ContainsPeers(s.active, p);
    hide Contains;
    if !(s.reservedOnly && p !in s.reserved) {
      IncomingChange(s, p, id);
      ChangeMeans(s, Incoming(s, p, id));
      var (e, i) := (Entry(p, In, KindOf(s, p)), FirstNormal(s.active, In));
      hide Change;
      if i < |s.active| { assert Delete(s.active + [e], i) == s.active[..i] + s.active[i + 1..] + [e]; }
    }
  }

  lemma ChangeMeans(s: State, s': State)
    ensures forall active, waiting, ms :: Change(s, s', active, waiting, ms) ==> Waiting(s') == waiting && s'.sent == s.sent + ms
  {
  }

  lemma AddReservedOutcome(s: State, p: Peer)
    requires Valid(s)
    ensures Outcome(s, OpAddReserved(p), AddReserved(s, p))
  {
    hide Peers, Waiting, Activate, Inserting, Settled, ActiveOk;
    var s1 := s.(reserved := s.reserved + {p});
    ActiveSame(s, s1);
    SameWaiting(s, s1);
    ContainsPeers(s1.active, p);
    if !Contains(s1.active, p) {
      WaitOk(s1, p);
      ActivateOk(s1.(inactive := Inserting(s1.inactive, p)));
    }
  }

  lemma RemoveReservedOutcome(s: State, p: Peer)
    requires Valid(s)
    ensures Outcome(s, OpRemoveReserved(p), RemoveReserved(s, p))
  {
    hide Peers, Waiting, Activate, Evict, Settled, ActiveOk, OnlyActivates, Told;
    var s1 := s.(reserved := s.reserved - {p});
    ActiveSame(s, s1);
    SameWaiting(s, s1);
    if s1.reservedOnly {
      EvictOk(s1, p);
      var s2 := Evict(s1, p);
      EvictSends(s1, p);
      ActivateOk(s2);
      ActivateOnly(s2);
    } else {
      ActivateOk(s1);
      ActivateOnly(s1);
      OnlySame(s, s1, Activate(s1));
    }
  }

  lemma EvictSends(s: State, p: Peer)
    ensures Evict(s, p).sent == s.sent + [Drop(p)]
  {
  }

  lemma SetReservedOnlyOutcome(s: State, only: bool)
    requires Valid(s)
    ensures Outcome(s, OpSetReservedOnly(only), SetReservedOnly(s, only))
  {
    hide Peers, Waiting, Activate, EvictAll, NotReserved, Settled, ActiveOk, OnlyActivates, News, Told;
    SetReservedOnlyOk(s, only);
    var s1 := s.(reservedOnly := only);
    ActiveSame(s, s1);
    SameWaiting(s, s1);
    if only {
      var ps := NotReserved(s1.active, s1.reserved);
      EvictAllOk(s1, ps);
      EvictAllKnown(s1, ps);
      NotReservedExact(s1.active, s1.reserved);
      assert Known(s1) + Elements(ps) == Known(s1);
      ActivateOk(EvictAll(s1, ps));
      var s' := SetReservedOnly(s, only);
      forall q | q in Peers(s.active) && q !in s.reserved ensures Drop(q) in News(s, s') { DropTold(s, OpSetReservedOnly(only), s', q); }
    } else {
      ActivateOk(s1);
      ActivateOnly(s1);
      OnlySame(s, s1, Activate(s1));
    }
  }

  lemma ScoreIs(s: State, p: Peer, diff: int)
    ensures NewScore(s, p, diff) == ScoreAfter(s, p, diff)
  {
  }

  lemma ReportOutcome(s: State, p: Peer, diff: int)
    requires Valid(s)
    ensures Outcome(s, OpReport(p, diff), ReportPeer(s, p, diff))
  {
    hide Peers, Waiting, Activate, Ban, Settled, ActiveOk, OnlyActivates, NewScore, ScoreAfter, News, Told;
    ReportOk(s, p, diff);
    ReportBans(s, p, diff);
    ScoreIs(s, p, diff);
    var (score, s') := (NewScore(s, p, diff), ReportPeer(s, p, diff));
    var s1 := s.(scores := s.scores[p := score]);
    ActiveSame(s, s1);
    SameWaiting(s, s1);
    if score < MIN_SCORE {
      BanTakes(s1, p);
      ActivateOk(Ban(s1, p));
      if p in Peers(s.active) { DropTold(s, OpReport(p, diff), s', p); }
    }
  }

  lemma BanTakes(s: State, p: Peer)
    requires Valid(s)
    ensures Valid(Ban(s, p)) && SameConfig(s, Ban(s, p)) && Known(Ban(s, p)) == Known(s) - {p}
  {
    BanOk(s, p);
  }

  /** Every operation, on every valid state, has its outcome, keeps the state valid and tells the network
      each change of the active peers. */
  lemma OutcomeOf(s: State, op: Operation)
    requires Valid(s)
    ensures Outcome(s, op, Apply(s, op)) && Valid(Apply(s, op)) && Reports(s, op, Apply(s, op))
  {
    hide Outcome, Valid, Reports, Discovered, Dropped, Incoming, AddReserved, RemoveReserved, SetReservedOnly, ReportPeer;
    ApplyOk(s, op);
    match op
    case OpDiscovered(p) => DiscoveredOutcome(s, p);
    case OpDropped(p) => DroppedOutcome(s, p);
    case OpIncoming(p, id) => IncomingOutcome(s, p, id);
    case OpAddReserved(p) => AddReservedOutcome(s, p);
    case OpRemoveReserved(p) => RemoveReservedOutcome(s, p);
    case OpSetReservedOnly(only) => SetReservedOnlyOutcome(s, only);
    case OpReport(p, diff) => ReportOutcome(s, p, diff);
  }

  // ---------------------------------------------------------------- the manager as an object

  class Manager {
    const maxIn: nat
    const maxOut: nat
    var reserved: set<Peer>
    var reservedOnly: bool
    var active: seq<Entry>
    var inPeers: nat
    var outPeers: nat
    var inactive: seq<Peer>
    var scores: map<Peer, int>
    var sent: seq<OutMessage>

    ghost function Snapshot(): State
      reads this
    {
      State(maxIn, maxOut, reserved, reservedOnly, active, inPeers, outPeers, inactive, scores, sent)
    }

    constructor (maxIn: nat, maxOut: nat, reserved: seq<Peer>, boot: seq<Peer>, only: bool)
      ensures Snapshot() == Start(maxIn, maxOut, reserved, boot, only)
      ensures Valid(Snapshot()) && Settled(Snapshot())
    {
      this.maxIn, this.maxOut, this.reserved, reservedOnly := maxIn, maxOut, (set p | p in reserved), only;
      active, inPeers, outPeers, scores, sent := [], 0, 0, map[], [];
      inactive := InsertAll([], reserved + boot);
      new;
      ActivatePeers();
      StartOk(maxIn, maxOut, reserved, boot, only);
    }

    method Post(m: OutMessage)
      modifies this`sent
      ensures Snapshot() == Send(old(Snapshot()), m)
    {
      sent := sent + [m];
    }

    method Insert(p: Peer, state: PeerState) returns (r: InsertResult)
      modifies this`active, this`inPeers, this`outPeers
      ensures (Snapshot(), r) == InsertActive(old(Snapshot()), p, state)
    {
      var kind := if p in reserved then Reserved else Normal;
      if Contains(active, p) { return Exist; }
      var full := if state == In then inPeers >= maxIn else outPeers >= maxOut;
      if full {
        if kind == Reserved {
          var i := FirstNormal(active, state);
          if i < |active| {
            var removed := active[i].peer;
            active := Delete(active + [Entry(p, state, kind)], i);
            return Replaced(removed);
          }
        }
        return Full;
      }
      match state {
        case In => inPeers := inPeers + 1;
        case Out => outPeers := outPeers + 1;
      }
      active := active + [Entry(p, state, kind)];
      r := Inserted;
    }

    method Remove(p: Peer)
      requires ActiveOk(Snapshot())
      modifies this`active, this`inPeers, this`outPeers
      ensures Snapshot() == RemoveActive(old(Snapshot()), p)
    {
      RemoveActiveOk(Snapshot(), p);
      var i := IndexOf(active, p);
      if i < |active| {
        DeleteCounts(active, i, active[i].state);
        match active[i].state {
          case In => inPeers := inPeers - 1;
          case Out => outPeers := outPeers - 1;
        }
        active := Delete(active, i);
      }
    }

    method TakePeer() returns (r: Option<Peer>)
      modifies this`inactive
      ensures r == Candidate(old(Snapshot()))
      ensures Snapshot() == if r.Some? then old(Snapshot()).(inactive := Without(old(inactive), r.value)) else old(Snapshot())
    {
      var i := FirstWith(inactive, reserved, true);
      if i < |inactive| {
        r := Some(inactive[i]);
        inactive := Without(inactive, inactive[i]);
        return;
      }
      if reservedOnly { return None; }
      i := FirstWith(inactive, reserved, false);
      if i < |inactive| {
        r := Some(inactive[i]);
        inactive := Without(inactive, inactive[i]);
        return;
      }
      r := None;
    }

    /** `activate`: the loop ends for every state, also one outside the invariant. */
    method ActivatePeers()
      modifies this`active, this`inPeers, this`outPeers, this`inactive, this`sent
      ensures Snapshot() == Activate(old(Snapshot()))
    {
      hide InsertActive, Inserting, Without, Candidate;
      while true
        invariant Activate(old(Snapshot())) == Activate(Snapshot())
        decreases Free(Snapshot()), Normals(active, Out), |inactive|
      {
        ghost var s := Snapshot();
        var p := TakePeer();
        if p.None? { return; }
        RoundProgress(s, p.value);
        var r := Insert(p.value, Out);
        match r {
          case Inserted => Post(Connect(p.value));
          case Replaced(removed) =>
            inactive := Inserting(inactive, removed);
            Post(Connect(p.value));
            Post(Drop(removed));
          case Exist =>
          case Full =>
            inactive := Inserting(inactive, p.value);
            return;
        }
        assert Snapshot() == Round(s, p.value).0;
      }
    }

    method OnDiscovered(p: Peer)
      requires Valid(Snapshot())
      modifies this
      ensures Snapshot() == Apply(old(Snapshot()), OpDiscovered(p))
      ensures Valid(Snapshot()) && Reports(old(Snapshot()), OpDiscovered(p), Snapshot()) && Outcome(old(Snapshot()), OpDiscovered(p), Snapshot())
    {
      OutcomeOf(Snapshot(), OpDiscovered(p));
      if Contains(active, p) { return; }
      inactive := Inserting(inactive, p);
      ActivatePeers();
    }

    method OnDropped(p: Peer)
      requires Valid(Snapshot())
      modifies this
      ensures Snapshot() == Apply(old(Snapshot()), OpDropped(p))
      ensures Valid(Snapshot()) && Reports(old(Snapshot()), OpDropped(p), Snapshot()) && Outcome(old(Snapshot()), OpDropped(p), Snapshot())
    {
      OutcomeOf(Snapshot(), OpDropped(p));
      Remove(p);
      inactive := Inserting(inactive, p);
      ActivatePeers();
    }

    method OnIncoming(p: Peer, id: nat)
      requires Valid(Snapshot())
      modifies this
      ensures Snapshot() == Apply(old(Snapshot()), OpIncoming(p, id))
      ensures Valid(Snapshot()) && Reports(old(Snapshot()), OpIncoming(p, id), Snapshot()) && Outcome(old(Snapshot()), OpIncoming(p, id), Snapshot())
    {
      OutcomeOf(Snapshot(), OpIncoming(p, id));
      hide Valid, InsertActive;
      if reservedOnly && p !in reserved {
        Post(Reject(id));
        return;
      }
      var r := Insert(p, In);
      match r {
        case Inserted =>
          inactive := Without(inactive, p);
          Post(Accept(id));
        case Replaced(removed) =>
          inactive := Inserting(Without(inactive, p), removed);
          Post(Accept(id));
          Post(Drop(removed));
        case Exist =>
          Post(Accept(id));
        case Full =>
          inactive := Inserting(inactive, p);
          Post(Reject(id));
      }
    }

    method OnAddReserved(p: Peer)
      requires Valid(Snapshot())
      modifies this
      ensures Snapshot() == Apply(old(Snapshot()), OpAddReserved(p))
      ensures Valid(Snapshot()) && Reports(old(Snapshot()), OpAddReserved(p), Snapshot()) && Outcome(old(Snapshot()), OpAddReserved(p), Snapshot())
    {
      OutcomeOf(Snapshot(), OpAddReserved(p));
      reserved := reserved + {p};
      if Contains(active, p) { return; }
      inactive := Inserting(inactive, p);
      ActivatePeers();
    }

    method EvictPeer(p: Peer)
      requires Separate(Snapshot())
      modifies this
      ensures Snapshot() == Evict(old(Snapshot()), p) && Separate(Snapshot())
    {
      EvictOk(Snapshot(), p);
      Remove(p);
      inactive := Inserting(inactive, p);
      Post(Drop(p));
    }

    method OnRemoveReserved(p: Peer)
      requires Valid(Snapshot())
      modifies this
      ensures Snapshot() == Apply(old(Snapshot()), OpRemoveReserved(p))
      ensures Valid(Snapshot()) && Reports(old(Snapshot()), OpRemoveReserved(p), Snapshot()) && Outcome(old(Snapshot()), OpRemoveReserved(p), Snapshot())
    {
      hide ActiveOk, Peers, Waiting, Evict, Activate;
      OutcomeOf(Snapshot(), OpRemoveReserved(p));
      ghost var s := Snapshot();
      reserved := reserved - {p};
      ActiveSame(s, Snapshot());
      SameWaiting(s, Snapshot());
      if reservedOnly { EvictPeer(p); }
      ActivatePeers();
    }

    method OnSetReservedOnly(only: bool)
      requires Valid(Snapshot())
      modifies this
      ensures Snapshot() == Apply(old(Snapshot()), OpSetReservedOnly(only))
      ensures Valid(Snapshot()) && Reports(old(Snapshot()), OpSetReservedOnly(only), Snapshot()) && Outcome(old(Snapshot()), OpSetReservedOnly(only), Snapshot())
    {
      hide ActiveOk, Peers, Waiting, Evict, Activate, NotReserved;
      OutcomeOf(Snapshot(), OpSetReservedOnly(only));
      ghost var s := Snapshot();
      reservedOnly := only;
      ActiveSame(s, Snapshot());
      SameWaiting(s, Snapshot());
      if only {
        var peers := NotReserved(active, reserved);
        ghost var s1 := Snapshot();
        for i := 0 to |peers|
          invariant Separate(Snapshot())
          invariant EvictAll(s1, peers) == EvictAll(Snapshot(), peers[i..])
        {
          EvictPeer(peers[i]);
          assert peers[i..][1..] == peers[i + 1..];
        }
      }
      ActivatePeers();
    }

    method BanPeer(p: Peer)
      requires ActiveOk(Snapshot())
      modifies this`active, this`inPeers, this`outPeers, this`inactive, this`sent
      ensures Snapshot() == Ban(old(Snapshot()), p)
    {
      hide ActiveOk, RemoveActive, Without;
      var wasActive := Contains(active, p);
      Remove(p);
      inactive := Without(inactive, p);
      if wasActive { Post(Drop(p)); }
    }

    method UpdateScore(p: Peer, diff: int) returns (score: int)
      modifies this`scores
      ensures score == NewScore(old(Snapshot()), p, diff)
      ensures Snapshot() == old(Snapshot()).(scores := old(scores)[p := score])
    {
      score := if p in scores then Saturated(scores[p] + diff) else diff;
      scores := scores[p := score];
    }

    method OnReport(p: Peer, diff: int)
      requires Valid(Snapshot())
      modifies this
      ensures Snapshot() == Apply(old(Snapshot()), OpReport(p, diff))
      ensures Valid(Snapshot()) && Reports(old(Snapshot()), OpReport(p, diff), Snapshot()) && Outcome(old(Snapshot()), OpReport(p, diff), Snapshot())
    {
      hide ActiveOk, Peers, Waiting, Activate, Ban, NewScore, Settled;
      ghost var s := Snapshot();
      OutcomeOf(s, OpReport(p, diff));
      var score := UpdateScore(p, diff);
      ActiveSame(s, Snapshot());
      if score < MIN_SCORE {
        BanPeer(p);
        ActivatePeers();
      }
    }
  }
}
