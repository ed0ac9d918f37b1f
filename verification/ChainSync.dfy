/** The block download scheduler: a window of pending block numbers, grouped into requests to peers. */
module ChainSync {

  type PeerId = nat

  const PENDING_BLOCKS_SIZE: nat := 2560
  const PEER_REQUEST_BLOCK_SIZE: nat := 128

  datatype Option<T> = None | Some(value: T)

  datatype BlockState = Seen | Downloading(peer: PeerId, id: nat) | Downloaded(peer: PeerId)

  /** The ordered map of pending blocks, in its iteration order. */
  datatype Entry = Entry(number: nat, state: BlockState)
  type Pending = seq<Entry>

  /** The entries outside `lo .. hi`. */
  function Without(p: Pending, lo: nat, hi: nat): Pending
    decreases |p|
  {
    if p == [] then []
    else
      var k := |p| - 1;
      Without(p[..k], lo, hi) + if lo <= p[k].number < hi then [] else [p[k]]
  }

  /** New entries for `lo .. hi`, all seen. */
  function SeenRange(lo: nat, hi: nat): (r: Pending)
    ensures |r| == if lo <= hi then hi - lo else 0
    ensures forall i :: 0 <= i < |r| ==> r[i] == Entry(lo + i, Seen)
  {
    seq(if lo <= hi then hi - lo else 0, i requires 0 <= i => Entry(lo + i, Seen))
  }

  function LastNumber(p: Pending, confirmed: nat): nat {
    if p == [] then confirmed else p[|p| - 1].number
  }

  function Highest(p: Pending, confirmed: nat, maxPeer: nat): int {
    var room := LastNumber(p, confirmed) + PENDING_BLOCKS_SIZE - |p|;
    if maxPeer <= room then maxPeer else room
  }

  /** `maintain_new`: grow towards the best peer, or drop what no peer has any more. */
  function Renewed(p: Pending, confirmed: nat, maxPeer: nat): Pending {
    var (top, last) := (Highest(p, confirmed, maxPeer), LastNumber(p, confirmed));
    if top >= last + 1 then p + SeenRange(last + 1, top + 1)
    else Without(p, if top >= 0 then top + 1 else 0, last + 1)
  }

  // ---------------------------------------------------------------- the window over runs

  /** `confirmed` is the chain's number, `announced` the last block whose commit message arrived. */
  datatype Window = Window(p: Pending, confirmed: nat, announced: nat)

  ghost predicate Consecutive(p: Pending) {
    forall i :: 0 <= i < |p| ==> p[i].number == p[0].number + i
  }

  /** One contiguous interval of bounded size, above everything announced. */
  ghost predicate IsWindow(w: Window) {
    Consecutive(w.p) && |w.p| <= PENDING_BLOCKS_SIZE && w.announced <= w.confirmed
    && (w.p != [] ==> w.announced < w.p[0].number)
  }

  datatype Operation =
    | Confirm                         // the chain grows by a block from elsewhere
    | Renew(maxPeer: nat)
    | Take(committed: bool)           // the first entry is verified: committed, discarded or reset
    | Announce                        // the commit message of the next block arrives
    | Relabel(states: seq<BlockState>)

  function Relabelled(p: Pending, states: seq<BlockState>): (r: Pending)
    ensures |r| == |p| && forall i :: 0 <= i < |p| ==> r[i].number == p[i].number
  {
    seq(|p|, i requires 0 <= i < |p| => Entry(p[i].number, if i < |states| then states[i] else p[i].state))
  }

  function Next(w: Window, op: Operation): Window {
    match op
    case Confirm => w.(confirmed := w.confirmed + 1)
    case Renew(maxPeer) => w.(p := Renewed(w.p, w.confirmed, maxPeer))
    case Take(committed) =>
      if w.p == [] then w
      else w.(p := w.p[1..], confirmed := if committed && w.p[0].number == w.confirmed + 1 then w.p[0].number else w.confirmed)
    case Announce =>
      if w.announced == w.confirmed then w
      else w.(p := Without(w.p, w.announced + 1, w.announced + 2), announced := w.announced + 1)
    case Relabel(states) => w.(p := Relabelled(w.p, states))
  }

  lemma {:induction false} WithoutNone(p: Pending, lo: nat, hi: nat)
    requires forall i :: 0 <= i < |p| ==> p[i].number < lo || p[i].number >= hi
    ensures Without(p, lo, hi) == p
    decreases |p|
  {
    if p != [] { WithoutNone(p[..|p| - 1], lo, hi); }
  }

  lemma {:induction false} WithoutAll(p: Pending, lo: nat, hi: nat)
    requires forall i :: 0 <= i < |p| ==> lo <= p[i].number < hi
    ensures Without(p, lo, hi) == []
    decreases |p|
  {
    if p != [] { WithoutAll(p[..|p| - 1], lo, hi); }
  }

  lemma {:induction false} WithoutConcat(p: Pending, q: Pending, lo: nat, hi: nat)
    ensures Without(p + q, lo, hi) == Without(p, lo, hi) + Without(q, lo, hi)
    decreases |q|
  {
    if q == [] {
      assert p + q == p;
    } else {
      var k := |q| - 1;
      assert (p + q)[..|p| + k] == p + q[..k];
      WithoutConcat(p, q[..k], lo, hi);
    }
  }

  /** Dropping an upper part of a contiguous window leaves its lower part. */
  lemma WithoutTop(p: Pending, lo: nat, hi: nat)
    requires Consecutive(p) && p != [] && p[|p| - 1].number < hi
    ensures Without(p, lo, hi) == if lo <= p[0].number then [] else if lo - p[0].number <= |p| then p[..lo - p[0].number] else p
  {
    hide Without;
    var n := if lo <= p[0].number then 0 else if lo - p[0].number <= |p| then lo - p[0].number else |p|;
    assert p == p[..n] + p[n..];
    WithoutConcat(p[..n], p[n..], lo, hi);
    WithoutNone(p[..n], lo, hi);
    WithoutAll(p[n..], lo, hi);
  }

  lemma WithoutFirst(p: Pending, n: nat)
    requires Consecutive(p) && (p != [] ==> n <= p[0].number)
    ensures Without(p, n, n + 1) == if p != [] && p[0].number == n then p[1..] else p
  {
    hide Without;
    if p != [] && p[0].number == n {
      assert p == p[..1] + p[1..];
      WithoutConcat(p[..1], p[1..], n, n + 1);
      WithoutAll(p[..1], n, n + 1);
      WithoutNone(p[1..], n, n + 1);
    } else {
      WithoutNone(p, n, n + 1);
    }
  }

  predicate StrictlyInside(p: Pending, n: nat) {
    p != [] && p[0].number < n < p[|p| - 1].number
  }

  /** Removing one number from a contiguous window leaves one exactly when it is not strictly inside. */
  lemma WithoutOne(p: Pending, n: nat)
    requires Consecutive(p)
    ensures var r := Without(p, n, n + 1);
      (Consecutive(r) <==> !StrictlyInside(p, n)) && |r| <= |p| && (r != [] ==> r[0].number >= p[0].number)
  {
    hide Without;
    if p == [] || n < p[0].number || n > p[|p| - 1].number {
      WithoutNone(p, n, n + 1);
    } else {
      var i := n - p[0].number;
      WithoutAt(p, i);
      RemovedAt(p, i);
    }
  }

  lemma WithoutAt(p: Pending, i: nat)
    requires Consecutive(p) && i < |p|
    ensures Without(p, p[0].number + i, p[0].number + i + 1) == p[..i] + p[i + 1..]
  {
    hide Without;
    var n := p[0].number + i;
    assert p == p[..i] + p[i..];
    WithoutConcat(p[..i], p[i..], n, n + 1);
    WithoutNone(p[..i], n, n + 1);
    assert Consecutive(p[i..]);
    WithoutFirst(p[i..], n);
    assert p[i..][1..] == p[i + 1..];
  }

  lemma RemovedAt(p: Pending, i: nat)
    requires Consecutive(p) && i < |p|
    ensures var r := p[..i] + p[i + 1..];
      (Consecutive(r) <==> i == 0 || i == |p| - 1) && |r| < |p| && (r != [] ==> r[0].number >= p[0].number)
  {
    var r := p[..i] + p[i + 1..];
    if 0 < i < |p| - 1 {
      assert r[i] == p[i + 1] && r[0] == p[0];
    }
  }

  /** A commit message for the middle one of three pending numbers splits the window. */
  lemma MiddleCommitted()
    ensures var p := SeenRange(1, 4);
      |p| == 3 && Consecutive(p) && Without(p, 2, 3) == [Entry(1, Seen), Entry(3, Seen)] && !Consecutive(Without(p, 2, 3))
  {
    var p := SeenRange(1, 4);
    WithoutAt(p, 1);
    assert p[..1] + p[2..] == [Entry(1, Seen), Entry(3, Seen)];
    WithoutOne(p, 2);
  }

  lemma RenewKeeps(w: Window, maxPeer: nat)
    requires IsWindow(w)
    ensures IsWindow(Next(w, Renew(maxPeer)))
  {
    var (top, last) := (Highest(w.p, w.confirmed, maxPeer), LastNumber(w.p, w.confirmed));
    if top < last + 1 {
      if w.p == [] { assert Without(w.p, top + 1, last + 1) == []; }
      else { WithoutTop(w.p, top + 1, last + 1); }
    }
  }

  /** What maintaining new blocks does to the window, in numbers. Below the best peer's number, and while
      there is room, exactly the next numbers are added, all seen, after the old entries; otherwise exactly
      the entries up to that bound stay. */
  ghost predicate Renewal(p: Pending, confirmed: nat, maxPeer: nat, p': Pending) {
    var last := if p == [] then confirmed else p[|p| - 1].number;
    var room := last + PENDING_BLOCKS_SIZE - |p|;
    var bound := if maxPeer <= room then maxPeer else room;
    if bound > last then
      && p <= p' && |p'| == |p| + (bound - last)
      && forall i: nat :: |p| <= i < |p'| ==> p'[i] == Entry(last + 1 + i - |p|, Seen)
    else
      && p' <= p
      && (forall i :: 0 <= i < |p'| ==> p[i].number <= bound) && (forall i :: |p'| <= i < |p| ==> p[i].number > bound)
  }

  lemma RenewedIs(p: Pending, confirmed: nat, maxPeer: nat)
    requires Consecutive(p)
    ensures Renewal(p, confirmed, maxPeer, Renewed(p, confirmed, maxPeer))
  {
    var (top, last) := (Highest(p, confirmed, maxPeer), LastNumber(p, confirmed));
    if top < last + 1 && p != [] { WithoutTop(p, if top >= 0 then top + 1 else 0, last + 1); }
  }

  /** With room for all of them, the last pending number becomes the best peer's. */
  lemma ReachesBestPeer(p: Pending, confirmed: nat, maxPeer: nat, p': Pending)
    requires Renewal(p, confirmed, maxPeer, p')
    requires var last := if p == [] then confirmed else p[|p| - 1].number; last < maxPeer <= last + PENDING_BLOCKS_SIZE - |p|
    ensures p' != [] && p'[|p'| - 1] == Entry(maxPeer, Seen)
  {
  }

  lemma NextKeeps(w: Window, op: Operation)
    requires IsWindow(w)
    ensures IsWindow(Next(w, op))
  {
    hide Without, Renewed;
    match op
    case Confirm =>
    case Renew(maxPeer) => RenewKeeps(w, maxPeer);
    case Take(_) =>
    case Announce => if w.announced < w.confirmed { WithoutFirst(w.p, w.announced + 1); }
    case Relabel(_) =>
  }

  function Run(w: Window, ops: seq<Operation>): Window
    decreases |ops|
  {
    if ops == [] then w else Next(Run(w, ops[..|ops| - 1]), ops[|ops| - 1])
  }

  /** Over every run with commit messages in block order, the pending numbers form one contiguous
      interval of at most the window size. */
  lemma {:induction false} RunKeeps(confirmed: nat, ops: seq<Operation>)
    ensures IsWindow(Run(Window([], confirmed, confirmed), ops))
    decreases |ops|
  {
    if ops != [] {
      var k := |ops| - 1;
      RunKeeps(confirmed, ops[..k]);
      NextKeeps(Run(Window([], confirmed, confirmed), ops[..k]), ops[k]);
    }
  }

  // ---------------------------------------------------------------- grouping

  datatype Group = Group(number: nat, size: nat)

  function Range(g: Group): (r: seq<nat>)
    ensures |r| == g.size && forall i :: 0 <= i < g.size ==> r[i] == g.number + i
  {
    seq(g.size, i requires 0 <= i => g.number + i)
  }

  /** All numbers the groups stand for, in order. */
  function Numbers(gs: seq<Group>): seq<nat>
    decreases |gs|
  {
    if gs == [] then [] else Numbers(gs[..|gs| - 1]) + Range(gs[|gs| - 1])
  }

  /** The seen numbers of the window, in order. */
  function SeenNumbers(p: Pending): seq<nat>
    decreases |p|
  {
    if p == [] then []
    else SeenNumbers(p[..|p| - 1]) + if p[|p| - 1].state.Seen? then [p[|p| - 1].number] else []
  }

  function Open(item: Option<Group>): seq<Group> {
    if item.Some? then [item.value] else []
  }

  ghost predicate Sized(gs: seq<Group>, max: nat) {
    forall i :: 0 <= i < |gs| ==> 1 <= gs[i].size <= max
  }

  /** Two groups that touch are only split because the first is full. */
  ghost predicate Greedy(gs: seq<Group>, max: nat) {
    forall i, j :: 0 <= i < j < |gs| && gs[i].number + gs[i].size == gs[j].number ==> gs[i].size == max
  }

  lemma NumbersMore(gs: seq<Group>, g: Group)
    ensures Numbers(gs + [g]) == Numbers(gs) + Range(g)
  {
    assert (gs + [g])[..|gs|] == gs;
  }

  lemma SeenMore(p: Pending, i: nat)
    requires i < |p|
    ensures SeenNumbers(p[..i + 1]) == SeenNumbers(p[..i]) + if p[i].state.Seen? then [p[i].number] else []
  {
    assert p[..i + 1][..i] == p[..i];
  }

  datatype Grouping = Grouping(groups: seq<Group>, item: Option<Group>)

  function All(g: Grouping): seq<Group> {
    g.groups + Open(g.item)
  }

  /** What one entry does to the open group. */
  function Fed(g: Grouping, e: Entry): Grouping {
    if e.state.Seen? then g.(item := Some(if g.item.None? then Group(e.number, 1) else g.item.value.(size := g.item.value.size + 1)))
    else Grouping(All(g), None)
  }

  function Closed(g: Grouping, max: nat): Grouping {
    if g.item.Some? && g.item.value.size >= max then Grouping(All(g), None) else g
  }

  ghost predicate EndsBy(gs: seq<Group>, end: nat, max: nat) {
    forall i :: 0 <= i < |gs| ==> gs[i].number + gs[i].size < end || (gs[i].number + gs[i].size == end && gs[i].size == max)
  }

  /** The state of the scan before the entry with number `end`. */
  ghost predicate Scanned(g: Grouping, end: nat, max: nat) {
    Sized(g.groups, max) && Greedy(All(g), max)
    && (g.item.None? ==> EndsBy(g.groups, end, max))
    && (g.item.Some? ==> 1 <= g.item.value.size < max && g.item.value.number + g.item.value.size == end && EndsBy(g.groups, g.item.value.number, max))
  }

  lemma FedNumbers(g: Grouping, e: Entry)
    requires g.item.Some? ==> g.item.value.number + g.item.value.size == e.number
    ensures Numbers(All(Fed(g, e))) == Numbers(All(g)) + if e.state.Seen? then [e.number] else []
  {
    if e.state.Seen? {
      NumbersMore(g.groups, Fed(g, e).item.value);
      if g.item.Some? { NumbersMore(g.groups, g.item.value); }
      else { assert All(g) == g.groups; }
    } else {
      assert All(Fed(g, e)) == All(g);
    }
  }

  lemma FedScanned(g: Grouping, e: Entry, max: nat)
    requires Scanned(g, e.number, max) && max >= 1
    ensures Scanned(Closed(Fed(g, e), max), e.number + 1, max) && All(Closed(Fed(g, e), max)) == All(Fed(g, e))
  {
    var (fed, closed) := (Fed(g, e), Closed(Fed(g, e), max));
    assert All(closed) == All(fed);
    if e.state.Seen? {
      FedGreedy(g, e, max);
    } else {
      assert All(fed) == All(g);
    }
  }

  lemma FedGreedy(g: Grouping, e: Entry, max: nat)
    requires Scanned(g, e.number, max) && max >= 1 && e.state.Seen?
    ensures Greedy(All(Fed(g, e)), max) && EndsBy(g.groups, Fed(g, e).item.value.number, max)
  {
    var (all, n) := (All(Fed(g, e)), |g.groups|);
    assert all[..n] == g.groups && all[n] == Fed(g, e).item.value;
    forall i, j | 0 <= i < j < |all| && all[i].number + all[i].size == all[j].number ensures all[i].size == max {
      if j < n { assert All(g)[i] == all[i] && All(g)[j] == all[j]; }
    }
  }

  /** On a contiguous window the groups partition the seen numbers, in order, into runs of consecutive
      numbers of size 1 to `max`, and a run is only split where a group is full. */
  method MakeSeenGroups(p: Pending, max: nat) returns (groups: seq<Group>)
    requires Consecutive(p) && max >= 1
    ensures Numbers(groups) == SeenNumbers(p)
    ensures Sized(groups, max) && Greedy(groups, max)
  {
    hide Numbers, SeenNumbers, Greedy, Sized, EndsBy;
    groups := [];
    var item: Option<Group> := None;
    ScanStarts(p, max);
    for i := 0 to |p|
      invariant Numbers(All(Grouping(groups, item))) == SeenNumbers(p[..i])
      invariant Scanned(Grouping(groups, item), if p == [] then 0 else p[0].number + i, max)
    {
      ghost var g := Grouping(groups, item);
      assert p[i].number == p[0].number + i;
      SeenMore(p, i);
      FedNumbers(g, p[i]);
      FedScanned(g, p[i], max);
      if p[i].state.Seen? {
        item := Some(if item.None? then Group(p[i].number, 1) else item.value.(size := item.value.size + 1));
      } else if item.Some? {
        groups, item := groups + [item.value], None;
      } else {
        assert All(g) == groups;
      }
      assert Grouping(groups, item) == Fed(g, p[i]);
      if item.Some? && item.value.size >= max {
        groups, item := groups + [item.value], None;
      }
    }
    assert p[..|p|] == p;
    ScanEnds(Grouping(groups, item), if p == [] then 0 else p[0].number + |p|, max);
    if item.Some? { groups := groups + [item.value]; } else { assert groups + [] == groups; }
  }

  lemma ScanStarts(p: Pending, max: nat)
    ensures Numbers(All(Grouping([], None))) == SeenNumbers(p[..0])
    ensures Scanned(Grouping([], None), if p == [] then 0 else p[0].number, max)
  {
  }

  lemma ScanEnds(g: Grouping, end: nat, max: nat)
    requires Scanned(g, end, max)
    ensures Sized(All(g), max) && Greedy(All(g), max)
  {
  }
}
