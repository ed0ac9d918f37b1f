/** Rotation of the leader: every authority leads once per round, and validators at different
    heights agree on the leader of a view. */
module HotStuffRotation {
  import opened Authorities
  import opened HotStuffTypes
  import opened HotStuffNode

  lemma {:induction false} FirstIndexFinds(ms: seq<Member>, i: nat)
    requires DistinctAddresses(ms) && i < |ms|
    ensures FirstIndex(ms, ms[i].address) == i
  {
    if i > 0 {
      assert ms[0].address != ms[i].address;
      assert ms[1..][i - 1] == ms[i];
      FirstIndexFinds(ms[1..], i - 1);
    }
  }

  lemma ModAdd(a: nat, d: nat, k: nat)
    requires k > 0
    ensures (a % k + d) % k == (a + d) % k
  {
    var q := a / k;
    assert a == q * k + a % k;
    ModShift(a % k + d, q, k);
  }

  lemma {:induction false} ModShift(x: nat, q: nat, k: nat)
    requires k > 0
    ensures (x + q * k) % k == x % k
    decreases q
  {
    if q > 0 {
      ModShift(x, q - 1, k);
      assert x + q * k == (x + (q - 1) * k) + k;
      ModOnce(x + (q - 1) * k, k);
    }
  }

  lemma ModOnce(x: nat, k: nat)
    requires k > 0
    ensures (x + k) % k == x % k
  {
    var r := x % k;
    var q := x / k;
    assert x == q * k + r && 0 <= r < k;
    assert x + k == (q + 1) * k + r;
    ModUnique(x + k, q + 1, r, k);
  }

  lemma ModUnique(x: nat, q: nat, r: nat, k: nat)
    requires k > 0 && x == q * k + r && r < k
    ensures x % k == r
  {
    var q', r' := x / k, x % k;
    assert x == q' * k + r';
    if q' > q {
      MulGap(q, q', k);
    } else if q' < q {
      MulGap(q', q, k);
    }
  }

  lemma MulGap(a: nat, b: nat, k: nat)
    requires a < b
    ensures b * k >= a * k + k
  {
    var d := b - a - 1;
    assert b * k == (a + 1 + d) * k == a * k + k + d * k;
  }

  lemma ModSucc(x: nat, k: nat)
    requires k > 0
    ensures (x + 1) % k == if x % k + 1 == k then 0 else x % k + 1
  {
    var q := x / k;
    assert x == q * k + x % k;
    if x % k + 1 == k {
      assert x + 1 == (q + 1) * k + 0;
      ModUnique(x + 1, q + 1, 0, k);
    } else {
      ModUnique(x + 1, q, x % k + 1, k);
    }
  }

  /** Index of the leader of a view in the member list. */
  function LeaderIndex(c: Config, view: nat): (i: nat)
    requires |c.members| > 0 && view >= c.base.view
    ensures i < |c.members| && LeaderOf(c, view) == c.members[i].address
  {
    (LastLeaderIndex(c) + (view - c.base.view)) % |c.members|
  }

  lemma NextLeaderIndex(c: Config, view: nat)
    requires |c.members| > 0 && view >= c.base.view
    ensures LeaderIndex(c, view + 1) == if LeaderIndex(c, view) + 1 == |c.members| then 0 else LeaderIndex(c, view) + 1
  {
    hide LastLeaderIndex;
    ModSucc(LastLeaderIndex(c) + (view - c.base.view), |c.members|);
  }

  lemma {:induction false} LeaderIndexAfter(c: Config, view: nat, d: nat)
    requires |c.members| > 0 && view >= c.base.view && d < |c.members|
    ensures var i := LeaderIndex(c, view);
      LeaderIndex(c, view + d) == if i + d < |c.members| then i + d else i + d - |c.members|
    decreases d
  {
    if d > 0 {
      LeaderIndexAfter(c, view, d - 1);
      NextLeaderIndex(c, view + (d - 1));
    }
  }

  /** In each window of as many consecutive views as there are authorities, every authority leads
      in exactly one view. */
  lemma EveryAuthorityLeadsOnce(c: Config, start: nat, i: nat) returns (view: nat)
    requires ValidConfig(c) && start > c.base.view && i < |c.members|
    ensures start <= view < start + |c.members| && LeaderOf(c, view) == c.members[i].address
    ensures forall w :: start <= w < start + |c.members| && LeaderOf(c, w) == c.members[i].address ==> w == view
  {
    var k := |c.members|;
    var first := LeaderIndex(c, start);
    var d := if i >= first then i - first else i + k - first;
    view := start + d;
    LeaderIndexAfter(c, start, d);
    forall w | start <= w < start + k && LeaderOf(c, w) == c.members[i].address ensures w == view {
      LeaderIndexAfter(c, start, w - start);
      FirstIndexFinds(c.members, i);
      FirstIndexFinds(c.members, LeaderIndex(c, w));
    }
  }

  /** The next height on the same authorities, based on a commit QC made by the leader of its view. */
  predicate Rebases(c: Config, c': Config)
    requires |c.members| > 0
  {
    && c'.members == c.members && c'.lastMembers == c.members
    && c'.base.view > c.base.view && c'.base.leader == LeaderOf(c, c'.base.view)
  }

  /** Committing a block does not change the leader of any later view. */
  lemma RebaseKeepsLeader(c: Config, c': Config, view: nat)
    requires ValidConfig(c) && Rebases(c, c') && view >= c'.base.view
    ensures LeaderOf(c', view) == LeaderOf(c, view)
  {
    var k := |c.members|;
    var i := LeaderIndex(c, c'.base.view);
    FirstIndexFinds(c.members, i);
    assert LastLeaderIndex(c') == i;
    ModAdd(LastLeaderIndex(c) + (c'.base.view - c.base.view), view - c'.base.view, k);
  }

  /** A chain of heights on the same authorities. */
  predicate Heights(cs: seq<Config>) {
    && |cs| > 0 && |cs[0].members| > 0
    && forall i :: 0 <= i < |cs| - 1 ==> |cs[i].members| > 0 && Rebases(cs[i], cs[i + 1])
  }

  /** Validators at any two heights of the chain agree on the leader of each view above both bases. */
  lemma {:induction false} HeightsAgreeOnLeader(cs: seq<Config>, i: nat, j: nat, view: nat)
    requires Heights(cs) && ValidConfig(cs[0]) && i <= j < |cs| && view >= cs[j].base.view
    ensures view >= cs[i].base.view && |cs[i].members| > 0 && |cs[j].members| > 0
    ensures LeaderOf(cs[i], view) == LeaderOf(cs[j], view)
    decreases j - i
  {
    ValidHeights(cs, j);
    if i < j {
      ValidHeights(cs, j - 1);
      assert Rebases(cs[j - 1], cs[j]);
      RebaseKeepsLeader(cs[j - 1], cs[j], view);
      HeightsAgreeOnLeader(cs, i, j - 1, view);
    }
  }

  lemma {:induction false} ValidHeights(cs: seq<Config>, i: nat)
    requires Heights(cs) && ValidConfig(cs[0]) && i < |cs|
    ensures ValidConfig(cs[i])
  {
    if i > 0 {
      ValidHeights(cs, i - 1);
      assert Rebases(cs[i - 1], cs[i]);
      var k := LeaderIndex(cs[i - 1], cs[i].base.view);
      assert cs[i].members[k].address == cs[i].base.leader;
    }
  }

  // ---------------------------------------------------------------- validators with different base QCs

  lemma SameIndexBefore(c: Config, c': Config, view: nat)
    requires |c.members| > 0 && c'.members == c.members && view >= c.base.view && view >= c'.base.view
    requires LeaderIndex(c, view + 1) == LeaderIndex(c', view + 1)
    ensures LeaderIndex(c, view) == LeaderIndex(c', view)
  {
    hide LeaderIndex;
    NextLeaderIndex(c, view);
    NextLeaderIndex(c', view);
  }

  lemma {:induction false} SameIndexAfter(c: Config, c': Config, view: nat, d: nat)
    requires |c.members| > 0 && c'.members == c.members && view >= c.base.view && view >= c'.base.view
    requires LeaderIndex(c, view) == LeaderIndex(c', view)
    ensures LeaderIndex(c, view + d) == LeaderIndex(c', view + d)
    decreases d
  {
    hide LeaderIndex;
    if d > 0 {
      SameIndexAfter(c, c', view, d - 1);
      NextLeaderIndex(c, view + (d - 1));
      NextLeaderIndex(c', view + (d - 1));
    }
  }

  lemma ModSelf(x: nat, k: nat)
    requires k > 0
    ensures (k - 1 + x) % k == k - 1 <==> x % k == 0
  {
    ModSucc(k - 1 + x, k);
    ModOnce(x, k);
    if x % k == 0 { ModUniqueLast(k - 1 + x, x / k, k); }
  }

  lemma ModUniqueLast(x: nat, q: nat, k: nat)
    requires k > 0 && x == q * k + (k - 1)
    ensures x % k == k - 1
  {
    ModUnique(x, q, k - 1, k);
  }

  lemma LeaderOfBase(c: Config, a: Address)
    requires ValidConfig(c) && OwnBase(c, a).view >= c.base.view
    requires c.lastMembers == c.members ==> IsMember(c.members, OwnBase(c, a).leader)
    ensures LeaderIndex(Own(c, a), OwnBase(c, a).view) == LeaderIndex(c, OwnBase(c, a).view) <==> BaseMatches(c, OwnBase(c, a))
  {
    hide ValidConfig, LeaderIndex, LeaderOf;
    ValidParts(c);
    if c.lastMembers == c.members { OldAuthorities(c, a); } else { NewAuthorities(c, a); }
  }

  lemma OldAuthorities(c: Config, a: Address)
    requires DistinctAddresses(c.members) && |c.members| > 0 && OwnBase(c, a).view >= c.base.view
    requires c.lastMembers == c.members && IsMember(c.members, OwnBase(c, a).leader)
    ensures LeaderIndex(Own(c, a), OwnBase(c, a).view) == LeaderIndex(c, OwnBase(c, a).view) <==> BaseMatches(c, OwnBase(c, a))
  {
    hide LeaderOf, LastLeaderIndex;
    var q := OwnBase(c, a);
    var i :| 0 <= i < |c.members| && c.members[i].address == q.leader;
    OwnIndex(c, a, i);
    hide LeaderIndex, FirstIndex;
    FirstIndexFinds(c.members, i);
    FirstIndexFinds(c.members, LeaderIndex(c, q.view));
  }

  lemma OwnIndex(c: Config, a: Address, i: nat)
    requires DistinctAddresses(c.members) && c.lastMembers == c.members
    requires i < |c.members| && c.members[i].address == OwnBase(c, a).leader
    ensures LeaderIndex(Own(c, a), OwnBase(c, a).view) == i
  {
    hide LeaderOf;
    FirstIndexFinds(c.members, i);
    ModUnique(i, 0, i, |c.members|);
  }

  lemma NewAuthorities(c: Config, a: Address)
    requires |c.members| > 0 && c.lastMembers != c.members && OwnBase(c, a).view >= c.base.view
    ensures LeaderIndex(Own(c, a), OwnBase(c, a).view) == LeaderIndex(c, OwnBase(c, a).view) <==> BaseMatches(c, OwnBase(c, a))
  {
    hide LeaderOf;
    var (k, q) := (|c.members|, OwnBase(c, a));
    ModSelf(q.view - c.base.view, k);
    ModUnique(k - 1, 0, k - 1, k);
  }

  /** A validator with its own base QC works out the same leader as all others, for every later view,
      exactly when that QC was made by the leader of its view; with new authorities, exactly when its view
      is a whole number of rounds above the lowest base view. */
  lemma OwnLeaderExactly(c: Config, a: Address)
    requires ValidConfig(c) && OwnBase(c, a).view >= c.base.view
    requires c.lastMembers == c.members ==> IsMember(c.members, OwnBase(c, a).leader)
    ensures (forall v: nat :: v > OwnBase(c, a).view ==> OwnLeader(c, a, v) == LeaderOf(c, v)) <==> BaseMatches(c, OwnBase(c, a))
  {
    hide LeaderOf, LeaderIndex, ValidConfig;
    var (c', view) := (Own(c, a), OwnBase(c, a).view);
    assert DistinctAddresses(c.members) && |c.members| > 0 by { ValidParts(c); }
    LeaderOfBase(c, a);
    if BaseMatches(c, OwnBase(c, a)) {
      forall v: nat | v > view ensures OwnLeader(c, a, v) == LeaderOf(c, v) { SameIndexAfter(c, c', view, v - view); }
    } else if forall v: nat :: v > view ==> OwnLeader(c, a, v) == LeaderOf(c, v) {
      assert OwnLeader(c, a, view + 1) == LeaderOf(c, view + 1);
      FirstIndexFinds(c.members, LeaderIndex(c, view + 1));
      FirstIndexFinds(c.members, LeaderIndex(c', view + 1));
      SameIndexBefore(c, c', view);
    }
  }

  lemma ValidParts(c: Config)
    requires ValidConfig(c)
    ensures DistinctAddresses(c.members) && |c.members| > 0
  {
  }

  /** Two new authorities whose base QCs are of views 1 and 2: each takes itself for the leader of view 3. */
  lemma LeadersDiffer()
    ensures var (q1, q2) := (QC(Commit, 1, Node(0, 7), 9, []), QC(Commit, 2, Node(0, 7), 9, []));
      var c := Config([Member(1, 1), Member(2, 1)], [Member(9, 1)], q1, map[1 := q2, 2 := q1], map[], 2);
      OwnLeader(c, 1, 3) == 1 && OwnLeader(c, 2, 3) == 2
  {
  }
}
