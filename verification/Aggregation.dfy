/** Merging a raw list of weighted members, as the authorities and the administrators are: one entry an
    address, its weights added up as u32 values that wrap around. */
module Aggregation {
  import opened Authorities

  /** A u32 value, wrapped around. */
  function Wrapped(x: nat): (r: nat)
    ensures r < U32_LIMIT
  {
    x % U32_LIMIT
  }

  /** One member joins the list: weights of one address add up, as u32 values that wrap around. */
  function Joined(ms: seq<Member>, m: Member): seq<Member> {
    if m.weight == 0 then ms
    else
      var p := PositionOf(ms, m.address);
      if p < |ms| then ms[p := Member(m.address, Wrapped(ms[p].weight + m.weight))] else ms + [m]
  }

  function PositionOf(ms: seq<Member>, a: Address): (p: nat)
    ensures p <= |ms| && (p < |ms| ==> ms[p].address == a)
    ensures forall i :: 0 <= i < p ==> ms[i].address != a
  {
    if ms == [] then 0 else if ms[0].address == a then 0
    else
      var p := PositionOf(ms[1..], a);
      assert forall i :: 1 <= i < p + 1 ==> ms[i] == ms[1..][i - 1];
      p + 1
  }

  function Aggregated(ms: seq<Member>): seq<Member>
    decreases |ms|
  {
    if ms == [] then [] else Joined(Aggregated(ms[..|ms| - 1]), ms[|ms| - 1])
  }

  /** The true sum of the weights listed for an address. */
  function Listed(ms: seq<Member>, a: Address): nat {
    Weight(ms, {a})
  }

  predicate U32Weights(ms: seq<Member>) {
    forall i :: 0 <= i < |ms| ==> ms[i].weight < U32_LIMIT
  }

  ghost predicate WeightsOf(r: seq<Member>, ms: seq<Member>) {
    forall i :: 0 <= i < |r| ==> r[i].weight == Wrapped(Listed(ms, r[i].address))
  }

  /** Each listed address occurs once, with the sum of its weights modulo 2^32. */
  lemma {:induction false} AggregatedIs(ms: seq<Member>)
    requires U32Weights(ms)
    ensures DistinctAddresses(Aggregated(ms)) && U32Weights(Aggregated(ms)) && WeightsOf(Aggregated(ms), ms)
    ensures forall a :: IsMember(Aggregated(ms), a) <==> Listed(ms, a) > 0
    decreases |ms|
  {
    if ms != [] {
      var k := |ms| - 1;
      AggregatedIs(ms[..k]);
      hide Wrapped;
      var r := Aggregated(ms[..k]);
      forall a ensures IsMember(Aggregated(ms), a) <==> Listed(ms, a) > 0 { JoinedMembers(ms, a); }
      if PositionOf(r, ms[k].address) < |r| { MergedWeights(ms, r); } else { AddedWeights(ms, r); }
    }
  }

  lemma ListedMore(ms: seq<Member>, a: Address)
    requires ms != []
    ensures Listed(ms, a) == Listed(ms[..|ms| - 1], a) + if ms[|ms| - 1].address == a then ms[|ms| - 1].weight else 0
  {
  }

  /** One more listed member whose address is there already. */
  lemma MergedWeights(ms: seq<Member>, r: seq<Member>)
    requires ms != [] && DistinctAddresses(r) && U32Weights(r) && WeightsOf(r, ms[..|ms| - 1])
    requires PositionOf(r, ms[|ms| - 1].address) < |r|
    ensures var r' := Joined(r, ms[|ms| - 1]); DistinctAddresses(r') && U32Weights(r') && WeightsOf(r', ms)
  {
    hide Listed, Wrapped, PositionOf;
    var (before, m) := (ms[..|ms| - 1], ms[|ms| - 1]);
    var (p, r') := (PositionOf(r, m.address), Joined(r, m));
    WrapAdd(Listed(before, m.address), m.weight);
    forall i | 0 <= i < |r'| ensures r'[i].weight == Wrapped(Listed(ms, r'[i].address)) { ListedMore(ms, r'[i].address); }
  }

  /** One more listed member with a new address. */
  lemma AddedWeights(ms: seq<Member>, r: seq<Member>)
    requires ms != [] && U32Weights(ms) && DistinctAddresses(r) && U32Weights(r) && WeightsOf(r, ms[..|ms| - 1])
    requires PositionOf(r, ms[|ms| - 1].address) == |r| && Listed(ms[..|ms| - 1], ms[|ms| - 1].address) == 0
    ensures var r' := Joined(r, ms[|ms| - 1]); DistinctAddresses(r') && U32Weights(r') && WeightsOf(r', ms)
  {
    hide Listed, PositionOf;
    var r' := Joined(r, ms[|ms| - 1]);
    forall i | 0 <= i < |r'| ensures r'[i].weight == Wrapped(Listed(ms, r'[i].address)) { ListedMore(ms, r'[i].address); }
  }

  /** And membership. */
  lemma JoinedMembers(ms: seq<Member>, a: Address)
    requires ms != []
    requires var (before, r) := (ms[..|ms| - 1], Aggregated(ms[..|ms| - 1])); IsMember(r, a) <==> Listed(before, a) > 0
    ensures IsMember(Aggregated(ms), a) <==> Listed(ms, a) > 0
  {
    var k := |ms| - 1;
    var (m, r) := (ms[k], Aggregated(ms[..k]));
    var p := PositionOf(r, m.address);
    if m.weight > 0 && p < |r| {
      assert r[p].address == m.address;
      SameMembers(r, Aggregated(ms), a);
    } else if m.weight > 0 {
      MemberAdded(r, m, a);
    }
  }

  lemma WrapAdd(x: nat, y: nat)
    ensures Wrapped(Wrapped(x) + y) == Wrapped(x + y)
  {
  }

  lemma SameMembers(r: seq<Member>, r': seq<Member>, a: Address)
    requires |r| == |r'| && forall i :: 0 <= i < |r| ==> r[i].address == r'[i].address
    ensures IsMember(r, a) <==> IsMember(r', a)
  {
    if IsMember(r, a) { var i :| 0 <= i < |r| && r[i].address == a; assert r'[i].address == a; }
    if IsMember(r', a) { var i :| 0 <= i < |r'| && r'[i].address == a; assert r[i].address == a; }
  }

  lemma MemberAdded(r: seq<Member>, m: Member, a: Address)
    ensures IsMember(r + [m], a) <==> IsMember(r, a) || a == m.address
  {
    var r' := r + [m];
    assert r'[|r|] == m;
    if IsMember(r, a) { var i :| 0 <= i < |r| && r[i].address == a; assert r'[i].address == a; }
  }

  ghost predicate NoneWraps(ms: seq<Member>) {
    forall a: Address :: Listed(ms, a) > 0 ==> Wrapped(Listed(ms, a)) != 0
  }

  /** All weights come out positive exactly when no address is listed with a sum that is a multiple of
      2^32, which a total below 2^32 rules out. */
  lemma PositiveExactly(ms: seq<Member>)
    requires U32Weights(ms)
    ensures PositiveWeights(Aggregated(ms)) <==> NoneWraps(ms)
    ensures Total(ms) < U32_LIMIT ==> PositiveWeights(Aggregated(ms))
  {
    AggregatedIs(ms);
    var r := Aggregated(ms);
    if PositiveWeights(r) {
      forall a: Address | Listed(ms, a) > 0 ensures Wrapped(Listed(ms, a)) != 0 {
        assert IsMember(r, a);
        var i :| 0 <= i < |r| && r[i].address == a;
      }
    }
    if Total(ms) < U32_LIMIT {
      forall i | 0 <= i < |r| ensures r[i].weight > 0 {
        ListedWithin(ms, r[i].address);
        assert IsMember(r, r[i].address);
      }
    }
    if NoneWraps(ms) {
      forall i | 0 <= i < |r| ensures r[i].weight > 0 { assert IsMember(r, r[i].address); }
    }
  }

  lemma ListedWithin(ms: seq<Member>, a: Address)
    ensures Listed(ms, a) <= Total(ms)
  {
    WeightBounded(ms, {a});
  }

  /** The loop of both aggregations in the source. */
  method MergeMembers(members: seq<Member>) returns (merged: seq<Member>)
    ensures merged == Aggregated(members)
  {
    merged := [];
    for i := 0 to |members|
      invariant merged == Aggregated(members[..i])
    {
      var m := members[i];
      assert members[..i + 1][..i] == members[..i];
      if m.weight > 0 {
        var p := Position(merged, m.address);
        assert p == PositionOf(merged, m.address);
        if p < |merged| {
          merged := merged[p := Member(m.address, Wrapped(merged[p].weight + m.weight))];
        } else {
          merged := merged + [m];
        }
      }
    }
    assert members[..|members|] == members;
  }

  /** First position of `a`, or the length when `a` is not listed. */
  method Position(ms: seq<Member>, a: Address) returns (p: nat)
    ensures p <= |ms|
    ensures p < |ms| ==> ms[p].address == a
    ensures forall i :: 0 <= i < p ==> ms[i].address != a
  {
    p := 0;
    while p < |ms| && ms[p].address != a
      invariant p <= |ms|
      invariant forall i :: 0 <= i < p ==> ms[i].address != a
    {
      p := p + 1;
    }
  }

  // ---------------------------------------------------------------- when the weights are kept

  /** No address is listed with a sum that does not fit. */
  ghost predicate SumsFit(ms: seq<Member>) {
    forall a: Address :: Listed(ms, a) < U32_LIMIT
  }

  ghost predicate SameWeights(ms: seq<Member>, ms': seq<Member>) {
    forall s: set<Address> :: Weight(ms, s) == Weight(ms', s)
  }

  lemma FitBefore(ms: seq<Member>)
    requires ms != [] && SumsFit(ms)
    ensures SumsFit(ms[..|ms| - 1])
  {
    var before := ms[..|ms| - 1];
    forall a: Address ensures Listed(before, a) < U32_LIMIT {
      ListedMore(ms, a);
      FitAt(ms, a);
    }
  }

  /** One more entry that does not wrap adds its weight. */
  lemma JoinedAdds(r: seq<Member>, m: Member, s: set<Address>)
    requires PositionOf(r, m.address) < |r| ==> r[PositionOf(r, m.address)].weight + m.weight < U32_LIMIT
    ensures Weight(Joined(r, m), s) == Weight(r, s) + if m.address in s then m.weight else 0
  {
    var p := PositionOf(r, m.address);
    if m.weight > 0 && p < |r| {
      var w := r[p].weight + m.weight;
      assert Wrapped(w) == w;
      hide Wrapped, PositionOf;
      assert Joined(r, m) == r[p := r[p].(weight := w)];
      hide Joined, Weight;
      WeightUpdate(r, p, m.weight, s);
    } else if m.weight > 0 {
      AppendedAdds(r, m, s);
    }
  }

  lemma AppendedAdds(r: seq<Member>, m: Member, s: set<Address>)
    ensures Weight(r + [m], s) == Weight(r, s) + if m.address in s then m.weight else 0
  {
    assert (r + [m])[..|r|] == r;
  }

  lemma {:induction false} FitKeeps(ms: seq<Member>, s: set<Address>)
    requires U32Weights(ms) && SumsFit(ms)
    ensures Weight(Aggregated(ms), s) == Weight(ms, s)
    decreases |ms|
  {
    if ms != [] {
      var k := |ms| - 1;
      var (r, m) := (Aggregated(ms[..k]), ms[k]);
      FitBefore(ms);
      FitKeeps(ms[..k], s);
      AggregatedIs(ms[..k]);
      hide Joined, SumsFit, PositionOf, Listed;
      ListedMore(ms, m.address);
      FitAt(ms, m.address);
      FitAt(ms[..k], m.address);
      JoinedAdds(r, m, s);
    }
  }

  lemma FitAt(ms: seq<Member>, a: Address)
    requires SumsFit(ms)
    ensures Listed(ms, a) < U32_LIMIT && Wrapped(Listed(ms, a)) == Listed(ms, a)
  {
  }

  /** The merged list weighs every set of addresses as the raw list does exactly when every address's sum
      fits 32 bits. */
  lemma KeepsWeightsExactly(ms: seq<Member>)
    requires U32Weights(ms)
    ensures SameWeights(Aggregated(ms), ms) <==> SumsFit(ms)
  {
    var r := Aggregated(ms);
    if SumsFit(ms) {
      forall s: set<Address> ensures Weight(r, s) == Weight(ms, s) { FitKeeps(ms, s); }
    }
    if SameWeights(r, ms) {
      forall a: Address ensures Listed(ms, a) < U32_LIMIT {
        assert Weight(r, {a}) == Weight(ms, {a});
        MergedWithin(ms, a);
      }
    }
  }

  lemma MergedWithin(ms: seq<Member>, a: Address)
    requires U32Weights(ms)
    ensures Weight(Aggregated(ms), {a}) < U32_LIMIT
  {
    AggregatedIs(ms);
    var r := Aggregated(ms);
    if IsMember(r, a) {
      var i :| 0 <= i < |r| && r[i].address == a;
      WeightOfMember(r, i);
    } else {
      WeightOfNone(r, {a});
    }
  }

  /** The total as the collectors add it up. */
  function WrappedTotal(ms: seq<Member>): nat {
    if ms == [] then 0 else Wrapped(WrappedTotal(ms[..|ms| - 1]) + ms[|ms| - 1].weight)
  }

  lemma {:induction false} WrappedTotalIs(ms: seq<Member>)
    ensures WrappedTotal(ms) == Wrapped(Total(ms))
    decreases |ms|
  {
    if ms != [] {
      WrappedTotalIs(ms[..|ms| - 1]);
      WrapAdd(Total(ms[..|ms| - 1]), ms[|ms| - 1].weight);
    }
  }

  /** The `n` of the consensus is the true total of the raw list exactly when that total fits 32 bits;
      then every sum fits too. */
  lemma TotalExactly(ms: seq<Member>)
    requires U32Weights(ms)
    ensures WrappedTotal(Aggregated(ms)) == Total(ms) <==> Total(ms) < U32_LIMIT
    ensures Total(ms) < U32_LIMIT ==> SumsFit(ms) && NoneWraps(ms)
  {
    var r := Aggregated(ms);
    WrappedTotalIs(r);
    if Total(ms) < U32_LIMIT {
      forall a: Address ensures Listed(ms, a) < U32_LIMIT { ListedWithin(ms, a); }
      var all := AddressSet(ms) + AddressSet(r);
      FitKeeps(ms, all);
      WeightOfAll(ms, all);
      WeightOfAll(r, all);
    }
  }

  const HALF: nat := 0x8000_0000

  /** Twice 2^31 for one address: it keeps its seat and loses its weight. */
  lemma WrappedAway()
    ensures var ms := [Member(1, HALF), Member(1, HALF)];
      U32Weights(ms) && Aggregated(ms) == [Member(1, 0)] && !SumsFit(ms) && WrappedTotal(Aggregated(ms)) == 0
  {
    var ms := [Member(1, HALF), Member(1, HALF)];
    assert ms[..1] == [Member(1, HALF)] && ms[..1][..0] == [];
    assert Aggregated(ms[..1]) == [Member(1, HALF)];
    ListedMore(ms, 1);
    ListedMore(ms[..1], 1);
    assert Listed(ms, 1) == HALF + HALF;
    var r := Aggregated(ms);
    assert r == [Member(1, 0)] && r[..0] == [];
  }

  /** `aggregate_authorities`. A list whose total fits 32 bits, the only kind the consensus is safe with,
      comes out with the same total, the same quorums, distinct addresses and positive weights. */
  method AggregateAuthorities(members: seq<Member>) returns (merged: seq<Member>)
    requires U32Weights(members)
    ensures DistinctAddresses(merged) && U32Weights(merged)
    ensures forall a :: IsMember(merged, a) <==> Listed(members, a) > 0
    ensures SameWeights(merged, members) <==> SumsFit(members)
    ensures PositiveWeights(merged) <==> NoneWraps(members)
    ensures WrappedTotal(merged) == Total(members) <==> Total(members) < U32_LIMIT
    ensures 0 < Total(members) < U32_LIMIT ==> ValidMembers(merged) && Total(merged) == Total(members)
  {
    merged := MergeMembers(members);
    AggregatedIs(members);
    KeepsWeightsExactly(members);
    PositiveExactly(members);
    TotalExactly(members);
    if Total(members) < U32_LIMIT {
      WrappedTotalIs(merged);
      var all := AddressSet(members) + AddressSet(merged);
      WeightOfAll(members, all);
      WeightOfAll(merged, all);
    }
  }
}
