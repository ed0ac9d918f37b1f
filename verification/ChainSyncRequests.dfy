/** One `maintain_seen` pass: the groups of seen numbers are handed to vacant peers. */
module ChainSyncRequests {
  import opened ChainSync

  datatype Job = Job(id: nat, number: nat, count: nat)
  datatype Peer = Peer(confirmed: nat, job: Option<Job>)
  type Peers = map<PeerId, Peer>

  datatype VerifyAction = Commit | Wait | Discard | Reset | Failed(committed: bool)

  datatype Request = Request(peer: PeerId, id: nat, number: nat, count: nat)

  // ---------------------------------------------------------------- where groups lie

  /** A number of the window that is seen. */
  ghost predicate IsSeen(p: Pending, n: nat) {
    exists i :: 0 <= i < |p| && p[i] == Entry(n, Seen)
  }

  ghost predicate Increasing(s: seq<nat>) {
    forall i, j :: 0 <= i < j < |s| ==> s[i] < s[j]
  }

  lemma SeenOneMore(p: Pending, n: nat)
    requires p != []
    ensures IsSeen(p, n) <==> IsSeen(p[..|p| - 1], n) || p[|p| - 1] == Entry(n, Seen)
  {
    var k := |p| - 1;
    if IsSeen(p, n) {
      var i :| 0 <= i < |p| && p[i] == Entry(n, Seen);
      if i < k { assert p[..k][i] == Entry(n, Seen); }
    }
    if IsSeen(p[..k], n) {
      var i :| 0 <= i < k && p[..k][i] == Entry(n, Seen);
      assert p[i] == Entry(n, Seen);
    }
  }

  lemma {:induction false} SeenAre(p: Pending)
    requires Consecutive(p)
    ensures forall n :: n in SeenNumbers(p) <==> IsSeen(p, n)
    ensures Increasing(SeenNumbers(p))
    ensures forall n :: n in SeenNumbers(p) ==> p != [] && n < p[0].number + |p|
    decreases |p|
  {
    if p != [] {
      var k := |p| - 1;
      SeenAre(p[..k]);
      assert p[k].number == p[0].number + k;
      var s := SeenNumbers(p[..k]);
      assert SeenNumbers(p) == s + if p[k].state.Seen? then [p[k].number] else [];
      hide SeenNumbers;
      assert forall i :: 0 <= i < |s| ==> s[i] in s;
      forall n: nat ensures IsSeen(p, n) <==> IsSeen(p[..k], n) || p[k] == Entry(n, Seen) { SeenOneMore(p, n); }
    }
  }

  lemma {:induction false} RangeIn(gs: seq<Group>, i: nat)
    requires i < |gs|
    ensures forall n :: gs[i].number <= n < gs[i].number + gs[i].size ==> n in Numbers(gs)
    decreases |gs|
  {
    var k := |gs| - 1;
    if i < k {
      RangeIn(gs[..k], i);
    } else {
      forall n | gs[i].number <= n < gs[i].number + gs[i].size ensures n in Numbers(gs) {
        assert Range(gs[k])[n - gs[k].number] == n;
      }
    }
  }

  lemma {:induction false} Ordered(gs: seq<Group>, i: nat, j: nat)
    requires Increasing(Numbers(gs)) && i < j < |gs| && gs[i].size >= 1 && gs[j].size >= 1
    ensures gs[i].number + gs[i].size <= gs[j].number
    decreases |gs|
  {
    var k := |gs| - 1;
    var (init, last) := (Numbers(gs[..k]), Range(gs[k]));
    assert Numbers(gs) == init + last;
    if j < k {
      assert forall a :: 0 <= a < |init| ==> Numbers(gs)[a] == init[a];
      Ordered(gs[..k], i, j);
    } else {
      RangeIn(gs[..k], i);
      var top := gs[i].number + gs[i].size - 1;
      assert top in init;
      var a :| 0 <= a < |init| && init[a] == top;
      assert Numbers(gs)[a] == top && Numbers(gs)[|init|] == gs[j].number;
    }
  }

  // ---------------------------------------------------------------- choosing a peer

  predicate Eligible(peers: Peers, q: PeerId, last: int) {
    q in peers && peers[q].job.None? && peers[q].confirmed >= last
  }

  /** The eligible peer with the least confirmed number. */
  method PickPeer(peers: Peers, last: int) returns (best: Option<PeerId>)
    ensures best.None? ==> NoneEligible(peers, last)
    ensures best.Some? ==> Eligible(peers, best.value, last)
    ensures best.Some? ==> forall q :: Eligible(peers, q, last) ==> peers[best.value].confirmed <= peers[q].confirmed
  {
    best := None;
    var left := peers.Keys;
    while left != {}
      invariant left <= peers.Keys
      invariant best.None? ==> forall q :: q !in left ==> !Eligible(peers, q, last)
      invariant best.Some? ==> Eligible(peers, best.value, last)
      invariant best.Some? ==> forall q :: q !in left && Eligible(peers, q, last) ==> peers[best.value].confirmed <= peers[q].confirmed
      decreases left
    {
      var q :| q in left;
      left := left - {q};
      if peers[q].job.None? && peers[q].confirmed >= last && (best.None? || peers[q].confirmed < peers[best.value].confirmed) {
        best := Some(q);
      }
    }
  }

  // ---------------------------------------------------------------- the effect of requests

  function Marked(p: Pending, lo: nat, hi: nat, state: BlockState): (r: Pending)
    ensures |r| == |p| && forall i :: 0 <= i < |p| ==> r[i] == if lo <= p[i].number < hi then Entry(p[i].number, state) else p[i]
  {
    seq(|p|, i requires 0 <= i < |p| => if lo <= p[i].number < hi then Entry(p[i].number, state) else p[i])
  }

  function Assigned(p: Pending, sent: seq<Request>): (r: Pending)
    ensures |r| == |p| && forall i :: 0 <= i < |p| ==> r[i].number == p[i].number
    decreases |sent|
  {
    if sent == [] then p
    else var r := sent[|sent| - 1]; Marked(Assigned(p, sent[..|sent| - 1]), r.number, r.number + r.count, Downloading(r.peer, r.id))
  }

  function Employed(peers: Peers, sent: seq<Request>): Peers
    decreases |sent|
  {
    if sent == [] then peers
    else
      var r := sent[|sent| - 1];
      var before := Employed(peers, sent[..|sent| - 1]);
      if r.peer in before then before[r.peer := before[r.peer].(job := Some(Job(r.id, r.number, r.count)))] else before
  }

  /** A request asks a vacant peer for seen blocks, all of which that peer has. */
  ghost predicate Sound(p: Pending, peers: Peers, r: Request) {
    1 <= r.count <= PEER_REQUEST_BLOCK_SIZE && Eligible(peers, r.peer, r.number + r.count - 1)
    && forall n :: r.number <= n < r.number + r.count ==> IsSeen(p, n)
  }

  /** No two requests share a peer, an id or a number. */
  ghost predicate Apart(sent: seq<Request>) {
    forall i, j :: 0 <= i < j < |sent| ==>
      sent[i].peer != sent[j].peer && sent[i].id < sent[j].id && sent[i].number + sent[i].count <= sent[j].number
  }

  lemma {:induction false} EmployedIs(peers: Peers, sent: seq<Request>, q: PeerId)
    ensures Employed(peers, sent).Keys == peers.Keys
    ensures q in peers && (forall i :: 0 <= i < |sent| ==> sent[i].peer != q) ==> Employed(peers, sent)[q] == peers[q]
    ensures q in peers && (exists i :: 0 <= i < |sent| && sent[i].peer == q) ==> Employed(peers, sent)[q].job.Some?
    ensures q in peers ==> Employed(peers, sent)[q].confirmed == peers[q].confirmed
    decreases |sent|
  {
    if sent != [] {
      var k := |sent| - 1;
      EmployedIs(peers, sent[..k], q);
      EmployedIs(peers, sent[..k], sent[k].peer);
      if exists i :: 0 <= i < |sent| && sent[i].peer == q {
        var i :| 0 <= i < |sent| && sent[i].peer == q;
        if i < k { assert sent[..k][i].peer == q; }
      }
    }
  }

  /** A peer still eligible after the requests was so before and got none of them. */
  lemma StillEligible(peers: Peers, sent: seq<Request>, q: PeerId, last: int)
    requires Eligible(Employed(peers, sent), q, last)
    ensures Eligible(peers, q, last) && forall i :: 0 <= i < |sent| ==> sent[i].peer != q
  {
    EmployedIs(peers, sent, q);
  }

  lemma AssignedMore(p: Pending, sent: seq<Request>, r: Request)
    ensures Assigned(p, sent + [r]) == Marked(Assigned(p, sent), r.number, r.number + r.count, Downloading(r.peer, r.id))
  {
    assert (sent + [r])[..|sent|] == sent;
  }

  lemma EmployedMore(peers: Peers, sent: seq<Request>, r: Request)
    requires r.peer in Employed(peers, sent)
    ensures Employed(peers, sent + [r]) == Employed(peers, sent)[r.peer := Employed(peers, sent)[r.peer].(job := Some(Job(r.id, r.number, r.count)))]
  {
    assert (sent + [r])[..|sent|] == sent;
  }

  method MarkDownloading(p: Pending, number: nat, count: nat, state: BlockState) returns (r: Pending)
    ensures r == Marked(p, number, number + count, state)
  {
    r := p;
    assert Marked(p, number, number, state) == p;
    for n := number to number + count
      invariant r == Marked(p, number, n, state)
    {
      r := Marked(r, n, n + 1, state);
    }
  }

  // ---------------------------------------------------------------- the pass

  /** Request `k` is for group `from[k]`; groups are taken in order. */
  ghost predicate Serves(groups: seq<Group>, sent: seq<Request>, from: seq<nat>, upTo: nat) {
    |from| == |sent|
    && (forall k :: 0 <= k < |from| ==> from[k] < upTo <= |groups| && sent[k].number == groups[from[k]].number && sent[k].count == groups[from[k]].size)
    && (forall k, l :: 0 <= k < l < |from| ==> from[k] < from[l])
  }

  /** A group without a request is one that no vacant peer could have served. */
  ghost predicate Exhausted(groups: seq<Group>, from: seq<nat>, peers: Peers, upTo: nat) {
    forall g :: 0 <= g < upTo <= |groups| && g !in from ==> NoneEligible(peers, LastOf(groups[g]))
  }

  function LastOf(g: Group): int {
    g.number + g.size - 1
  }

  ghost predicate NoneEligible(peers: Peers, last: int) {
    forall q :: !Eligible(peers, q, last)
  }

  ghost predicate IdsBelow(sent: seq<Request>, id: nat) {
    forall k :: 0 <= k < |sent| ==> sent[k].id < id
  }

  lemma GroupSound(p: Pending, peers: Peers, groups: seq<Group>, g: nat, r: Request)
    requires Consecutive(p) && Numbers(groups) == SeenNumbers(p) && Sized(groups, PEER_REQUEST_BLOCK_SIZE) && g < |groups|
    requires r.number == groups[g].number && r.count == groups[g].size && Eligible(peers, r.peer, r.number + r.count - 1)
    ensures Sound(p, peers, r)
  {
    SeenAre(p);
    RangeIn(groups, g);
  }

  lemma OneMore(p: Pending, groups: seq<Group>, sent: seq<Request>, from: seq<nat>, i: nat, r: Request)
    requires Consecutive(p) && Numbers(groups) == SeenNumbers(p) && Sized(groups, PEER_REQUEST_BLOCK_SIZE) && i < |groups|
    requires Serves(groups, sent, from, i) && Apart(sent) && IdsBelow(sent, r.id)
    requires r.number == groups[i].number && r.count == groups[i].size && forall k :: 0 <= k < |sent| ==> sent[k].peer != r.peer
    ensures Serves(groups, sent + [r], from + [i], i + 1) && Apart(sent + [r])
  {
    SeenAre(p);
    forall k | 0 <= k < |sent| ensures sent[k].number + sent[k].count <= r.number { Ordered(groups, from[k], i); }
  }

  lemma StillExhausted(groups: seq<Group>, from: seq<nat>, peers: Peers, i: nat, q: PeerId, job: Job)
    requires Exhausted(groups, from, peers, i) && i < |groups| && q in peers
    ensures Exhausted(groups, from + [i], peers[q := peers[q].(job := Some(job))], i + 1)
  {
    var peers' := peers[q := peers[q].(job := Some(job))];
    forall g | 0 <= g < i + 1 && g !in from + [i] ensures NoneEligible(peers', LastOf(groups[g])) {
      assert g !in from && g < i;
      assert NoneEligible(peers, LastOf(groups[g]));
      assert forall x :: Eligible(peers', x, LastOf(groups[g])) ==> Eligible(peers, x, LastOf(groups[g]));
    }
  }

  /** One pass over the groups. The requests sent are sound and apart, the window and the peers change
      by exactly them, and no vacant peer is left that could have served a group left over. */
  method MaintainSeen(p: Pending, peers: Peers, nextId: nat)
    returns (p': Pending, peers': Peers, sent: seq<Request>, groups: seq<Group>, from: seq<nat>)
    requires Consecutive(p)
    ensures AllSound(p, peers, sent)
    ensures Apart(sent) && p' == Assigned(p, sent) && peers' == Employed(peers, sent)
    ensures Numbers(groups) == SeenNumbers(p) && Serves(groups, sent, from, |groups|) && Exhausted(groups, from, peers', |groups|)
  {
    hide Numbers, SeenNumbers, Sound, Apart, Assigned, Employed, Greedy, Serves, Exhausted, Consecutive, Sized, IdsBelow;
    groups := MakeSeenGroups(p, PEER_REQUEST_BLOCK_SIZE);
    p', peers', sent, from := p, peers, [], [];
    var id := nextId;
    PassStarts(p, peers, groups, id);
    for i := 0 to |groups|
      invariant AllSound(p, peers, sent)
      invariant Apart(sent) && IdsBelow(sent, id) && p' == Assigned(p, sent) && peers' == Employed(peers, sent)
      invariant Serves(groups, sent, from, i) && Exhausted(groups, from, peers', i)
    {
      var g := groups[i];
      var best := PickPeer(peers', g.number + g.size - 1);
      if best.Some? {
        var q := best.value;
        ghost var r := Request(q, id, g.number, g.size);
        PassMore(p, peers, groups, sent, from, i, r);
        peers' := peers'[q := peers'[q].(job := Some(Job(id, g.number, g.size)))];
        p' := MarkDownloading(p', g.number, g.size, Downloading(q, id));
        sent, from, id := sent + [Request(q, id, g.number, g.size)], from + [i], id + 1;
      } else {
        PassLess(groups, sent, from, peers', i);
      }
    }
  }

  ghost predicate AllSound(p: Pending, peers: Peers, sent: seq<Request>) {
    forall k :: 0 <= k < |sent| ==> Sound(p, peers, sent[k])
  }

  lemma PassStarts(p: Pending, peers: Peers, groups: seq<Group>, id: nat)
    ensures AllSound(p, peers, []) && Apart([]) && IdsBelow([], id) && p == Assigned(p, []) && peers == Employed(peers, [])
    ensures Serves(groups, [], [], 0) && Exhausted(groups, [], peers, 0)
  {
  }

  lemma PassMore(p: Pending, peers: Peers, groups: seq<Group>, sent: seq<Request>, from: seq<nat>, i: nat, r: Request)
    requires Consecutive(p) && Numbers(groups) == SeenNumbers(p) && Sized(groups, PEER_REQUEST_BLOCK_SIZE) && i < |groups|
    requires AllSound(p, peers, sent) && Apart(sent) && IdsBelow(sent, r.id) && Serves(groups, sent, from, i)
    requires Exhausted(groups, from, Employed(peers, sent), i)
    requires r.number == groups[i].number && r.count == groups[i].size && Eligible(Employed(peers, sent), r.peer, r.number + r.count - 1)
    ensures var job := Job(r.id, r.number, r.count); var now := Employed(peers, sent);
      var after := now[r.peer := now[r.peer].(job := Some(job))];
      AllSound(p, peers, sent + [r]) && Apart(sent + [r]) && IdsBelow(sent + [r], r.id + 1)
      && Assigned(p, sent + [r]) == Marked(Assigned(p, sent), r.number, r.number + r.count, Downloading(r.peer, r.id))
      && Employed(peers, sent + [r]) == after
      && Serves(groups, sent + [r], from + [i], i + 1) && Exhausted(groups, from + [i], after, i + 1)
  {
    hide Numbers, SeenNumbers, Sound, Apart, Assigned, Employed, Serves, Exhausted, Consecutive, Sized;
    StillEligible(peers, sent, r.peer, r.number + r.count - 1);
    GroupSound(p, peers, groups, i, r);
    OneMore(p, groups, sent, from, i, r);
    AssignedMore(p, sent, r);
    EmployedMore(peers, sent, r);
    StillExhausted(groups, from, Employed(peers, sent), i, r.peer, Job(r.id, r.number, r.count));
  }

  lemma PassLess(groups: seq<Group>, sent: seq<Request>, from: seq<nat>, peers: Peers, i: nat)
    requires Serves(groups, sent, from, i) && Exhausted(groups, from, peers, i) && i < |groups| && NoneEligible(peers, LastOf(groups[i]))
    ensures Serves(groups, sent, from, i + 1) && Exhausted(groups, from, peers, i + 1)
  {
  }

  // ---------------------------------------------------------------- a whole pass

  /** After the pass every requested number is downloading from the peer asked, under the id of its request,
      and every other entry is what it was. */
  lemma {:induction false} AssignedIs(p: Pending, sent: seq<Request>, i: nat)
    requires Apart(sent) && i < |p|
    ensures forall k :: 0 <= k < |sent| && sent[k].number <= p[i].number < sent[k].number + sent[k].count ==>
      Assigned(p, sent)[i] == Entry(p[i].number, Downloading(sent[k].peer, sent[k].id))
    ensures (forall k :: 0 <= k < |sent| ==> !(sent[k].number <= p[i].number < sent[k].number + sent[k].count)) ==> Assigned(p, sent)[i] == p[i]
    decreases |sent|
  {
    if sent != [] { AssignedIs(p, sent[..|sent| - 1], i); }
  }

  /** After the pass a peer that was asked has the job of its request, and all others have theirs. */
  lemma {:induction false} EmployedExactly(peers: Peers, sent: seq<Request>, q: PeerId)
    requires q in peers && Apart(sent)
    ensures q in Employed(peers, sent)
    ensures forall k :: 0 <= k < |sent| && sent[k].peer == q ==>
      Employed(peers, sent)[q] == peers[q].(job := Some(Job(sent[k].id, sent[k].number, sent[k].count)))
    ensures (forall k :: 0 <= k < |sent| ==> sent[k].peer != q) ==> Employed(peers, sent)[q] == peers[q]
    decreases |sent|
  {
    if sent != [] {
      EmployedIs(peers, sent[..|sent| - 1], q);
      EmployedExactly(peers, sent[..|sent| - 1], q);
    }
  }

  ghost predicate BestPeer(peers: Peers, best: nat) {
    (exists q :: q in peers && peers[q].confirmed == best) && forall q :: q in peers ==> peers[q].confirmed <= best
  }

  /** New numbers come in from the best peer; then every group of seen numbers is requested from a vacant
      peer that has it, unless there is none. */
  ghost predicate Synced(p: Pending, peers: Peers, confirmed: nat, p': Pending, peers': Peers, now: seq<Request>) {
    exists mid: Pending ::
      (if peers == map[] then mid == p else exists best :: BestPeer(peers, best) && Renewal(p, confirmed, best, mid))
      && HandedOut(mid, peers, p', peers', now)
  }

  ghost predicate HandedOut(p: Pending, peers: Peers, p': Pending, peers': Peers, now: seq<Request>) {
    && AllSound(p, peers, now) && Apart(now) && p' == Assigned(p, now) && peers' == Employed(peers, now)
    && exists groups: seq<Group>, from: seq<nat> ::
         Numbers(groups) == SeenNumbers(p) && Serves(groups, now, from, |groups|) && Exhausted(groups, from, peers', |groups|)
  }

  /** The blocks being downloaded from a peer are seen again. */
  function Freed(p: Pending, q: PeerId): (r: Pending)
    ensures |r| == |p|
    ensures forall i :: 0 <= i < |p| ==> r[i] == if p[i].state.Downloading? && p[i].state.peer == q then Entry(p[i].number, Seen) else p[i]
  {
    seq(|p|, i requires 0 <= i < |p| => if p[i].state.Downloading? && p[i].state.peer == q then Entry(p[i].number, Seen) else p[i])
  }

  /** The blocks downloaded from a peer are seen again. */
  function Distrusted(p: Pending, q: PeerId): (r: Pending)
    ensures |r| == |p|
    ensures forall i :: 0 <= i < |p| ==> r[i] == if p[i].state.Downloaded? && p[i].state.peer == q then Entry(p[i].number, Seen) else p[i]
  {
    seq(|p|, i requires 0 <= i < |p| => if p[i].state.Downloaded? && p[i].state.peer == q then Entry(p[i].number, Seen) else p[i])
  }

  /** The chain's number once the first blocks have met these verdicts. */
  function ConfirmedBy(confirmed: nat, p: Pending, verdicts: seq<VerifyAction>): nat
    requires |p| == |verdicts|
    decreases |p|
  {
    if p == [] then confirmed
    else
      var (k, v) := (|p| - 1, verdicts[|p| - 1]);
      var before := ConfirmedBy(confirmed, p[..k], verdicts[..k]);
      if (v == Commit || v == Failed(true)) && p[k].number == before + 1 then p[k].number else before
  }

  /** The downloaded blocks at the front meet the first `n` verdicts: all but the last of them are commits,
      and there are no more because the verdicts or the downloaded blocks end there, or because the last one
      is no commit. */
  ghost predicate Meets(p: Pending, verdicts: seq<VerifyAction>, n: nat) {
    && n <= |verdicts| && n <= |p|
    && (forall i :: 0 <= i < n ==> p[i].state.Downloaded?) && (forall i :: 0 <= i < n - 1 ==> verdicts[i] == Commit)
    && (n == |verdicts| || n == |p| || !p[n].state.Downloaded? || (n > 0 && verdicts[n - 1] != Commit))
  }

  /** What is left of the window: the block of the last verdict comes back if it has to wait, and a bad one
      takes the other blocks of its peer with it. */
  function LeftOver(p: Pending, verdicts: seq<VerifyAction>, n: nat): Pending
    requires n <= |verdicts| && n <= |p| && (n > 0 ==> p[n - 1].state.Downloaded?)
  {
    if n > 0 && verdicts[n - 1] == Wait then p[n - 1..]
    else if n > 0 && verdicts[n - 1] == Reset then Distrusted(p[n..], p[n - 1].state.peer)
    else p[n..]
  }

  lemma NoVerdicts(confirmed: nat)
    ensures ConfirmedBy(confirmed, [], []) == confirmed
  {
  }

  lemma OneVerdict(confirmed: nat, p: Pending, verdicts: seq<VerifyAction>, n: nat)
    requires n < |p| && n < |verdicts|
    ensures var (before, v) := (ConfirmedBy(confirmed, p[..n], verdicts[..n]), verdicts[n]);
      ConfirmedBy(confirmed, p[..n + 1], verdicts[..n + 1]) == if (v == Commit || v == Failed(true)) && p[n].number == before + 1 then p[n].number else before
  {
    assert p[..n + 1][..n] == p[..n] && verdicts[..n + 1][..n] == verdicts[..n];
  }

  // ---------------------------------------------------------------- the other side

  /** The numbers of the blocks an ascending request is answered with: from `start` on, until `count`
      blocks are collected (at least one) or the serving node's last block is reached. `None` when the
      first block does not exist. */
  method ServeAscending(start: nat, count: nat, confirmed: nat) returns (blocks: Option<seq<nat>>)
    ensures blocks.None? <==> start > confirmed
    ensures blocks.Some? ==> |blocks.value| == Least(if count == 0 then 1 else count, confirmed - start + 1)
    ensures blocks.Some? ==> forall k :: 0 <= k < |blocks.value| ==> blocks.value[k] == start + k
  {
    if start > confirmed { return None; }
    var found: seq<nat> := [];
    var number := start;
    while true
      invariant number == start + |found| <= confirmed
      invariant |found| < if count == 0 then 1 else count
      invariant forall k :: 0 <= k < |found| ==> found[k] == start + k
      decreases confirmed - number
    {
      found := found + [number];
      if |found| >= count { break; }
      if number >= confirmed { break; }
      number := number + 1;
    }
    blocks := Some(found);
  }

  function Least(a: nat, b: nat): nat {
    if a <= b then a else b
  }

  /** A peer answers a sound request with exactly the blocks asked for, while its chain does not shrink. */
  method ServeRequest(p: Pending, peers: Peers, r: Request, confirmed: nat) returns (blocks: Option<seq<nat>>)
    requires Sound(p, peers, r) && peers[r.peer].confirmed <= confirmed
    ensures blocks == Some(Range(Group(r.number, r.count)))
    ensures forall n :: n in blocks.value ==> IsSeen(p, n)
  {
    blocks := ServeAscending(r.number, r.count, confirmed);
    assert blocks.value == Range(Group(r.number, r.count));
  }

  // ---------------------------------------------------------------- the scheduler as an object

  lemma {:induction false} WithoutSplit(p: Pending, lo: nat, n: nat)
    requires lo <= n
    ensures Without(Without(p, lo, n), n, n + 1) == Without(p, lo, n + 1)
    decreases |p|
  {
    if p != [] {
      var k := |p| - 1;
      WithoutSplit(p[..k], lo, n);
      var tail := if lo <= p[k].number < n then [] else [p[k]];
      WithoutConcat(Without(p[..k], lo, n), tail, n, n + 1);
      assert tail != [] ==> tail[..0] == [];
    }
  }

  lemma SeenRangeMore(lo: nat, n: nat)
    requires lo <= n
    ensures SeenRange(lo, n + 1) == SeenRange(lo, n) + [Entry(n, Seen)]
  {
  }

  class Sync {
    var pending: Pending
    var peers: Peers
    var nextId: nat
    var sent: seq<Request>
    var confirmed: nat
    ghost var announced: nat

    ghost function Snapshot(): Window
      reads this
    {
      Window(pending, confirmed, announced)
    }

    constructor (confirmed: nat)
      ensures IsWindow(Snapshot()) && pending == [] && peers == map[]
    {
      pending, peers, nextId, sent, this.confirmed, announced := [], map[], 0, [], confirmed, confirmed;
    }

    /** The greatest number any peer has confirmed. */
    method MaxPeerNumber() returns (r: Option<nat>)
      ensures r.None? <==> peers == map[]
      ensures r.Some? ==> (exists q :: q in peers && peers[q].confirmed == r.value) && forall q :: q in peers ==> peers[q].confirmed <= r.value
    {
      r := None;
      var left := peers.Keys;
      while left != {}
        invariant left <= peers.Keys
        invariant r.None? <==> left == peers.Keys
        invariant r.Some? ==> exists q :: q in peers && peers[q].confirmed == r.value
        invariant r.Some? ==> forall q :: q in peers && q !in left ==> peers[q].confirmed <= r.value
        decreases left
      {
        var q :| q in left;
        left := left - {q};
        if r.None? || r.value < peers[q].confirmed { r := Some(peers[q].confirmed); }
      }
    }

    method MaintainNew() returns (maxPeer: Option<nat>)
      modifies this`pending
      ensures Snapshot() == if maxPeer.None? then old(Snapshot()) else Next(old(Snapshot()), Renew(maxPeer.value))
      ensures maxPeer.None? <==> peers == map[]
      ensures maxPeer.Some? ==> (exists q :: q in peers && peers[q].confirmed == maxPeer.value) && forall q :: q in peers ==> peers[q].confirmed <= maxPeer.value
      ensures maxPeer.Some? && Consecutive(old(pending)) ==> Renewal(old(pending), confirmed, maxPeer.value, pending)
    {
      maxPeer := MaxPeerNumber();
      if maxPeer.None? { return; }
      if Consecutive(pending) { RenewedIs(pending, confirmed, maxPeer.value); }
      var last := if pending == [] then confirmed else pending[|pending| - 1].number;
      var room := last + PENDING_BLOCKS_SIZE - |pending|;
      var top := if maxPeer.value <= room then maxPeer.value else room;
      if top >= last + 1 {
        Insert(last + 1, top + 1);
      } else {
        Remove(if top >= 0 then top + 1 else 0, last + 1);
      }
    }

    method Insert(low: nat, high: nat)
      requires low <= high
      modifies this`pending
      ensures pending == old(pending) + SeenRange(low, high)
    {
      for number := low to high
        invariant pending == old(pending) + SeenRange(low, number)
      {
        SeenRangeMore(low, number);
        pending := pending + [Entry(number, Seen)];
      }
    }

    method Remove(low: nat, high: nat)
      requires low <= high
      modifies this`pending
      ensures pending == Without(old(pending), low, high)
    {
      WithoutNone(pending, low, low);
      for number := low to high
        invariant pending == Without(old(pending), low, number)
      {
        WithoutSplit(old(pending), low, number);
        pending := Without(pending, number, number + 1);
      }
    }

    /** The pass over the seen blocks, applied to the scheduler's own state. */
    method HandOut() returns (now: seq<Request>)
      requires IsWindow(Snapshot())
      modifies this`pending, this`peers, this`sent, this`nextId
      ensures sent == old(sent) + now && AllSound(old(pending), old(peers), now) && Apart(now)
      ensures pending == Assigned(old(pending), now) && peers == Employed(old(peers), now) && peers.Keys == old(peers).Keys
      ensures IsWindow(Snapshot()) && HandedOut(old(pending), old(peers), pending, peers, now)
    {
      hide Sound, Apart, Assigned, Employed, Serves, Exhausted, Numbers, SeenNumbers, AllSound;
      var p, qs, requests, groups, from := MaintainSeen(pending, peers, nextId);
      now := requests;
      EmployedIs(peers, now, 0);
      pending, peers, sent, nextId := p, qs, sent + now, nextId + |now|;
      KeepsWindow(old(Snapshot()), Snapshot());
    }

    method Synchronise() returns (now: seq<Request>)
      requires IsWindow(Snapshot())
      modifies this`pending, this`peers, this`sent, this`nextId
      ensures IsWindow(Snapshot()) && peers.Keys == old(peers).Keys && sent == old(sent) + now
      ensures Synced(old(pending), old(peers), confirmed, pending, peers, now)
    {
      hide HandedOut, Renewal;
      var maxPeer := MaintainNew();
      if maxPeer.Some? {
        assert BestPeer(peers, maxPeer.value);
        NextKeeps(old(Snapshot()), Renew(maxPeer.value));
      }
      ghost var mid := pending;
      now := HandOut();
      assert HandedOut(mid, old(peers), pending, peers, now);
    }

    /** A commit message of any block: its number leaves the window, which stays one contiguous interval
        exactly when the number was not strictly inside. Messages in block order never name one that is. */
    method OnBlockCommitted(number: nat)
      requires IsWindow(Snapshot())
      modifies this`pending, this`announced
      ensures pending == Without(old(pending), number, number + 1)
      ensures IsWindow(Snapshot()) <==> !StrictlyInside(old(pending), number)
      ensures number == old(announced) + 1 <= confirmed ==> IsWindow(Snapshot()) && Snapshot() == Next(old(Snapshot()), Announce)
    {
      hide Without;
      ghost var before := Snapshot();
      WithoutOne(pending, number);
      if number == announced + 1 <= confirmed { WithoutFirst(pending, number); }
      pending := Without(pending, number, number + 1);
      if number == announced + 1 <= confirmed { announced := number; }
    }

    /** The blocks of a peer that went away are seen again, and can be asked of others. */
    method OnProtocolClose(q: PeerId) returns (now: seq<Request>)
      requires IsWindow(Snapshot())
      modifies this
      ensures IsWindow(Snapshot()) && q !in peers && sent == old(sent) + now && (confirmed, announced) == (old(confirmed), old(announced))
      ensures Synced(Freed(old(pending), q), old(peers) - {q}, confirmed, pending, peers, now)
    {
      hide Synced;
      peers := peers - {q};
      for i := 0 to |pending|
        invariant |pending| == |old(pending)| && IsWindow(Snapshot()) && peers == old(peers) - {q}
        invariant sent == old(sent) && (confirmed, announced) == (old(confirmed), old(announced))
        invariant pending[i..] == old(pending)[i..] && forall j :: 0 <= j < i ==> pending[j] == Freed(old(pending), q)[j]
      {
        assert pending[i..][0] == old(pending)[i..][0];
        assert pending[i + 1..] == pending[i..][1..];
        if pending[i].state.Downloading? && pending[i].state.peer == q {
          pending := pending[i := pending[i].(state := Seen)];
        }
      }
      assert pending == Freed(old(pending), q);
      now := Synchronise();
    }

    /** Takes downloaded blocks from the front, up to the first that is no commit. */
    method TakeVerified(verdicts: seq<VerifyAction>) returns (n: nat, from: PeerId)
      requires IsWindow(Snapshot())
      modifies this`pending, this`confirmed
      ensures IsWindow(Snapshot()) && confirmed >= old(confirmed) && Meets(old(pending), verdicts, n)
      ensures confirmed == ConfirmedBy(old(confirmed), old(pending)[..n], verdicts[..n])
      ensures pending == if n > 0 && verdicts[n - 1] == Wait then old(pending)[n - 1..] else old(pending)[n..]
      ensures n > 0 ==> from == old(pending)[n - 1].state.peer
    {
      hide ConfirmedBy;
      n, from := 0, 0;
      NoVerdicts(confirmed);
      while n < |verdicts| && pending != [] && pending[0].state.Downloaded?
        invariant n <= |verdicts| && IsWindow(Snapshot()) && confirmed >= old(confirmed)
        invariant n <= |old(pending)| && pending == old(pending)[n..]
        invariant (forall i :: 0 <= i < n ==> old(pending)[i].state.Downloaded?) && forall i :: 0 <= i < n ==> verdicts[i] == Commit
        invariant confirmed == ConfirmedBy(old(confirmed), old(pending)[..n], verdicts[..n])
        invariant n > 0 ==> from == old(pending)[n - 1].state.peer
        decreases |verdicts| - n
      {
        var (first, verdict) := (pending[0], verdicts[n]);
        assert first == old(pending)[n];
        OneVerdict(old(confirmed), old(pending), verdicts, n);
        n, from := n + 1, first.state.peer;
        if verdict == Wait { return; }
        pending := pending[1..];
        if (verdict == Commit || verdict == Failed(true)) && first.number == confirmed + 1 { confirmed := first.number; }
        if verdict != Commit { return; }
      }
    }

    /** Downloaded blocks are taken from the front, one verdict each; a block that has to wait goes back
        to the front, and a bad one sends the other blocks of its peer back to seen. An error ends the
        pass at once, with the block gone and nothing asked of any peer. */
    method MaintainDownloaded(verdicts: seq<VerifyAction>) returns (ok: bool, n: nat, now: seq<Request>)
      requires IsWindow(Snapshot())
      modifies this
      ensures IsWindow(Snapshot()) && announced == old(announced) && confirmed >= old(confirmed)
      ensures Meets(old(pending), verdicts, n) && (!ok <==> n > 0 && verdicts[n - 1].Failed?)
      ensures confirmed == ConfirmedBy(old(confirmed), old(pending)[..n], verdicts[..n])
      ensures !ok ==> peers == old(peers) && pending == old(pending)[n..] && sent == old(sent)
      ensures ok ==> sent == old(sent) + now && Synced(LeftOver(old(pending), verdicts, n), old(peers), confirmed, pending, peers, now)
    {
      hide Synced, ConfirmedBy;
      var from;
      n, from := TakeVerified(verdicts);
      if n > 0 && verdicts[n - 1].Failed? { return false, n, []; }
      if n > 0 && verdicts[n - 1] == Reset { ResetPeer(from); }
      assert pending == LeftOver(old(pending), verdicts, n);
      now := Synchronise();
      ok := true;
    }

    method ResetPeer(q: PeerId)
      requires IsWindow(Snapshot())
      modifies this`pending
      ensures IsWindow(Snapshot()) && pending == Distrusted(old(pending), q)
    {
      for i := 0 to |pending|
        invariant |pending| == |old(pending)| && IsWindow(Snapshot())
        invariant pending[i..] == old(pending)[i..] && forall j :: 0 <= j < i ==> pending[j] == Distrusted(old(pending), q)[j]
      {
        assert pending[i..][0] == old(pending)[i..][0];
        assert pending[i + 1..] == pending[i..][1..];
        if pending[i].state.Downloaded? && pending[i].state.peer == q {
          pending := pending[i := pending[i].(state := Seen)];
        }
      }
      assert pending == Distrusted(old(pending), q);
    }
  }

  lemma KeepsWindow(w: Window, w': Window)
    requires IsWindow(w) && |w'.p| == |w.p| && w'.confirmed == w.confirmed && w'.announced == w.announced
    requires forall i :: 0 <= i < |w.p| ==> w'.p[i].number == w.p[i].number
    ensures IsWindow(w')
  {
  }
}
