/** Weighted authorities of the HotStuff consensus: aggregation of the raw member
    list and the weight of sets of members, on which every quorum argument rests. */
module Authorities {

  type Address = nat

  const U32_LIMIT: nat := 0x1_0000_0000

  datatype Member = Member(address: Address, weight: nat)

  /** Total weight of the listed members, the `n` of the consensus. */
  function Total(ms: seq<Member>): nat {
    if ms == [] then 0 else Total(ms[..|ms| - 1]) + ms[|ms| - 1].weight
  }

  /** Weight held by the members whose address lies in `s`. */
  function Weight(ms: seq<Member>, s: set<Address>): nat {
    if ms == [] then 0
    else
      var last := ms[|ms| - 1];
      Weight(ms[..|ms| - 1], s) + (if last.address in s then last.weight else 0)
  }

  /** Faulty weight tolerated by total weight `n`, `(n - 1) / 3`. */
  function Faulty(n: nat): nat
    requires n > 0
  {
    (n - 1) / 3
  }

  predicate DistinctAddresses(ms: seq<Member>) {
    forall i, j :: 0 <= i < j < |ms| ==> ms[i].address != ms[j].address
  }

  predicate PositiveWeights(ms: seq<Member>) {
    forall i :: 0 <= i < |ms| ==> ms[i].weight > 0
  }

  predicate IsMember(ms: seq<Member>, a: Address) {
    exists i :: 0 <= i < |ms| && ms[i].address == a
  }

  /** What the consensus works with: the output of `AggregateAuthorities`, not empty. */
  predicate ValidMembers(ms: seq<Member>) {
    && |ms| > 0
    && DistinctAddresses(ms)
    && PositiveWeights(ms)
    && Total(ms) < U32_LIMIT
  }

  predicate IsQuorum(ms: seq<Member>, s: set<Address>)
    requires Total(ms) > 0
  {
    Weight(ms, s) >= Total(ms) - Faulty(Total(ms))
  }

  function AddressSet(ms: seq<Member>): set<Address> {
    set i | 0 <= i < |ms| :: ms[i].address
  }

  lemma {:induction false} WeightBounded(ms: seq<Member>, s: set<Address>)
    ensures Weight(ms, s) <= Total(ms)
  {
    if ms != [] { WeightBounded(ms[..|ms| - 1], s); }
  }

  lemma {:induction false} WeightMonotone(ms: seq<Member>, s: set<Address>, t: set<Address>)
    requires forall i :: 0 <= i < |ms| && ms[i].address in s ==> ms[i].address in t
    ensures Weight(ms, s) <= Weight(ms, t)
  {
    if ms != [] { WeightMonotone(ms[..|ms| - 1], s, t); }
  }

  /** Inclusion and exclusion for weights. */
  lemma {:induction false} WeightUnion(ms: seq<Member>, s: set<Address>, t: set<Address>)
    ensures Weight(ms, s) + Weight(ms, t) == Weight(ms, s + t) + Weight(ms, s * t)
  {
    if ms != [] { WeightUnion(ms[..|ms| - 1], s, t); }
  }

  lemma {:induction false} WeightEmpty(ms: seq<Member>)
    ensures Weight(ms, {}) == 0
  {
    if ms != [] { WeightEmpty(ms[..|ms| - 1]); }
  }

  /** Members outside `s` hold exactly what `s` does not. */
  lemma {:induction false} WeightComplement(ms: seq<Member>, s: set<Address>, t: set<Address>)
    requires s * t == {}
    ensures Weight(ms, s) + Weight(ms, t) <= Total(ms)
  {
    WeightUnion(ms, s, t);
    WeightEmpty(ms);
    WeightBounded(ms, s + t);
  }

  /** Any two quorums share more than the tolerated faulty weight. */
  lemma QuorumIntersection(ms: seq<Member>, s: set<Address>, t: set<Address>)
    requires Total(ms) > 0
    requires IsQuorum(ms, s) && IsQuorum(ms, t)
    ensures Weight(ms, s * t) >= Faulty(Total(ms)) + 1
    ensures s * t != {}
  {
    WeightUnion(ms, s, t);
    WeightBounded(ms, s + t);
    WeightEmpty(ms);
  }

  /** Every quorum contains each address heavier than the tolerated faulty weight. */
  lemma QuorumContainsHeavy(ms: seq<Member>, s: set<Address>, a: Address)
    requires Total(ms) > 0
    requires IsQuorum(ms, s) && Weight(ms, {a}) > Faulty(Total(ms))
    ensures a in s
  {
    if a !in s { WeightComplement(ms, s, {a}); }
  }

  lemma {:induction false} WeightUpdate(ms: seq<Member>, p: nat, w: nat, s: set<Address>)
    requires p < |ms|
    ensures Weight(ms[p := ms[p].(weight := ms[p].weight + w)], s)
         == Weight(ms, s) + (if ms[p].address in s then w else 0)
  {
    var k := |ms| - 1;
    var ms' := ms[p := ms[p].(weight := ms[p].weight + w)];
    if p < k {
      WeightUpdate(ms[..k], p, w, s);
      assert ms'[..k] == ms[..k][p := ms[p].(weight := ms[p].weight + w)];
    } else {
      assert ms'[..k] == ms[..k];
    }
  }

  lemma {:induction false} WeightOfAll(ms: seq<Member>, s: set<Address>)
    requires forall i :: 0 <= i < |ms| ==> ms[i].address in s
    ensures Weight(ms, s) == Total(ms)
  {
    if ms != [] { WeightOfAll(ms[..|ms| - 1], s); }
  }

  /** With distinct addresses, a member's address weighs what the list says. */
  lemma {:induction false} WeightOfMember(ms: seq<Member>, i: nat)
    requires DistinctAddresses(ms) && i < |ms|
    ensures Weight(ms, {ms[i].address}) == ms[i].weight
  {
    var k := |ms| - 1;
    if i < k {
      WeightOfMember(ms[..k], i);
    } else {
      WeightOfNone(ms[..k], {ms[i].address});
    }
  }

  lemma {:induction false} WeightOfNone(ms: seq<Member>, s: set<Address>)
    requires forall i :: 0 <= i < |ms| ==> ms[i].address !in s
    ensures Weight(ms, s) == 0
  {
    if ms != [] { WeightOfNone(ms[..|ms| - 1], s); }
  }

  /** The weights as the hash map the source collects them into. */
  function MemberWeights(ms: seq<Member>): map<Address, nat> {
    if ms == [] then map[]
    else MemberWeights(ms[..|ms| - 1])[ms[|ms| - 1].address := ms[|ms| - 1].weight]
  }

  function WeightIn(ms: seq<Member>, a: Address): nat {
    var w := MemberWeights(ms);
    if a in w then w[a] else 0
  }

  lemma {:induction false} MemberWeightsAgree(ms: seq<Member>, a: Address)
    requires DistinctAddresses(ms)
    ensures a in MemberWeights(ms) <==> IsMember(ms, a)
    ensures WeightIn(ms, a) == Weight(ms, {a})
  {
    if ms != [] {
      var k := |ms| - 1;
      MemberWeightsAgree(ms[..k], a);
      if ms[k].address == a {
        assert ms[k].address == a;
        WeightOfNone(ms[..k], {a});
      } else if IsMember(ms, a) {
        var i :| 0 <= i < |ms| && ms[i].address == a;
        assert ms[..k][i].address == a;
      }
    }
  }

  /** Weight reached by a list of signers, one weight per listed entry. */
  function ListWeight(ms: seq<Member>, signers: seq<Address>): nat {
    if signers == [] then 0
    else ListWeight(ms, signers[..|signers| - 1]) + WeightIn(ms, signers[|signers| - 1])
  }

  predicate Distinct(s: seq<Address>) {
    forall i, j :: 0 <= i < j < |s| ==> s[i] != s[j]
  }

  function Elements(s: seq<Address>): set<Address> {
    set a | a in s
  }

  /** Signers that differ from each other reach exactly the weight of the set they form. */
  lemma {:induction false} ListWeightIsSetWeight(ms: seq<Member>, signers: seq<Address>)
    requires DistinctAddresses(ms) && Distinct(signers)
    ensures ListWeight(ms, signers) == Weight(ms, Elements(signers))
  {
    if signers == [] {
      assert Elements(signers) == {};
      WeightEmpty(ms);
    } else {
      var k := |signers| - 1;
      var front := signers[..k];
      ListWeightIsSetWeight(ms, front);
      MemberWeightsAgree(ms, signers[k]);
      WeightUnion(ms, Elements(front), {signers[k]});
      WeightEmpty(ms);
      assert signers == front + [signers[k]];
      assert Elements(signers) == Elements(front) + {signers[k]};
      assert Elements(front) * {signers[k]} == {};
    }
  }
}
