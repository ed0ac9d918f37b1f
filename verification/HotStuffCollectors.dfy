/** Collectors of votes, NewViews and timeouts. The source walks hash maps and stops at the
    first quorum, so each result is a function of the iteration order; the classes pick an
    arbitrary order, and what is proved holds for every one. */
module HotStuffCollectors {
  import opened Authorities
  import opened HotStuffTypes

  /** The walk of `get_qc` over `order`, which skips addresses without a message. */
  function CollectQC(ms: seq<Member>, votes: map<Address, Vote>, leader: Address,
                     order: seq<Address>, total: nat, sigs: seq<Signature>): Option<QC>
    requires Total(ms) > 0
    decreases |order|
  {
    if order == [] then None
    else if order[0] !in votes then CollectQC(ms, votes, leader, order[1..], total, sigs)
    else
      var m := votes[order[0]];
      var counts := order[0] in MemberWeights(ms);
      var total' := total + WeightIn(ms, order[0]);
      var sigs' := if counts then sigs + [m.sig.value] else sigs;
      if total' >= Quorum(ms) then Some(QC(m.messageType, m.view, m.node.value, leader, sigs'))
      else CollectQC(ms, votes, leader, order[1..], total', sigs')
  }

  function GetQC(ms: seq<Member>, votes: map<Address, Vote>, leader: Address, order: seq<Address>): Option<QC>
    requires Total(ms) > 0
  {
    CollectQC(ms, votes, leader, order, 0, [])
  }

  /** All votes are for one ballot: same type, view and node, each signed by its sender. */
  predicate VotesFor(votes: map<Address, Vote>, t: MessageType, view: nat, node: Node, leader: Address) {
    forall a :: a in votes ==>
      && votes[a].messageType == t && votes[a].view == view && votes[a].node == Some(node)
      && votes[a].sig == Some(Signature(a, t, view, node, leader))
  }

  /** The certificate `qc` is one for the ballot and every signature in it is a collected vote. */
  predicate QCOf(ms: seq<Member>, votes: map<Address, Vote>, qc: QC, t: MessageType, view: nat, node: Node, leader: Address)
    requires Total(ms) > 0
  {
    && qc.messageType == t && qc.view == view && qc.node == node && qc.leader == leader
    && Certified(qc, ms)
    && forall a :: a in Signers(qc.sigs) ==> a in votes
  }

  lemma SignersSnoc(sigs: seq<Signature>, sig: Signature)
    ensures Signers(sigs + [sig]) == Signers(sigs) + [sig.signer]
    ensures Elements(Signers(sigs + [sig])) == Elements(Signers(sigs)) + {sig.signer}
  {
    assert Signers(sigs + [sig]) == Signers(sigs) + [sig.signer];
  }

  /** State of the walk: the signatures so far are distinct collected votes of weight `total`. */
  predicate Walked(ms: seq<Member>, votes: map<Address, Vote>, t: MessageType, view: nat, node: Node, leader: Address,
                   order: seq<Address>, total: nat, sigs: seq<Signature>) {
    && total == ListWeight(ms, Signers(sigs))
    && Distinct(Signers(sigs))
    && (forall i :: 0 <= i < |sigs| ==>
          && sigs[i] == Signature(sigs[i].signer, t, view, node, leader)
          && sigs[i].signer in votes && sigs[i].signer !in order)
  }

  lemma WalkedNone(ms: seq<Member>, votes: map<Address, Vote>, t: MessageType, view: nat, node: Node, leader: Address, order: seq<Address>)
    ensures Walked(ms, votes, t, view, node, leader, order, 0, [])
  {
    assert Signers([]) == [];
  }

  lemma WalkedTail(ms: seq<Member>, votes: map<Address, Vote>, t: MessageType, view: nat, node: Node, leader: Address,
                   order: seq<Address>, total: nat, sigs: seq<Signature>)
    requires order != [] && Walked(ms, votes, t, view, node, leader, order, total, sigs)
    ensures Walked(ms, votes, t, view, node, leader, order[1..], total, sigs)
  {
    hide ListWeight, Distinct;
  }

  lemma DistinctMore(s: seq<Address>, a: Address)
    requires Distinct(s) && a !in s
    ensures Distinct(s + [a])
  {
  }

  lemma ListWeightMore(ms: seq<Member>, s: seq<Address>, a: Address)
    ensures ListWeight(ms, s + [a]) == ListWeight(ms, s) + WeightIn(ms, a)
  {
    assert (s + [a])[..|s|] == s;
  }

  /** One more collected vote of a member. */
  lemma WalkedMore(ms: seq<Member>, votes: map<Address, Vote>, t: MessageType, view: nat, node: Node, leader: Address,
                   order: seq<Address>, total: nat, sigs: seq<Signature>)
    requires order != [] && order[0] in votes && Distinct(order) && VotesFor(votes, t, view, node, leader)
    requires Walked(ms, votes, t, view, node, leader, order, total, sigs)
    ensures Walked(ms, votes, t, view, node, leader, order[1..], total + WeightIn(ms, order[0]), sigs + [votes[order[0]].sig.value])
  {
    hide ListWeight, Distinct, MemberWeights;
    var (a, sig) := (order[0], votes[order[0]].sig.value);
    SignersSnoc(sigs, sig);
    assert a !in order[1..] by { TailApart(order); }
    assert a !in Signers(sigs);
    DistinctMore(Signers(sigs), a);
    ListWeightMore(ms, Signers(sigs), a);
  }

  lemma TailApart(order: seq<Address>)
    requires order != [] && Distinct(order)
    ensures order[0] !in order[1..] && Distinct(order[1..])
  {
  }

  lemma WalkedEnough(ms: seq<Member>, votes: map<Address, Vote>, t: MessageType, view: nat, node: Node, leader: Address,
                     order: seq<Address>, total: nat, sigs: seq<Signature>)
    requires DistinctAddresses(ms) && Total(ms) > 0 && total >= Quorum(ms)
    requires Walked(ms, votes, t, view, node, leader, order, total, sigs)
    ensures QCOf(ms, votes, QC(t, view, node, leader, sigs), t, view, node, leader)
  {
    hide ListWeight, Distinct;
    ListWeightIsSetWeight(ms, Signers(sigs));
  }

  lemma {:induction false} CollectQCSound(ms: seq<Member>, votes: map<Address, Vote>, leader: Address,
                                          order: seq<Address>, total: nat, sigs: seq<Signature>,
                                          t: MessageType, view: nat, node: Node)
    requires DistinctAddresses(ms) && Total(ms) > 0
    requires VotesFor(votes, t, view, node, leader) && Distinct(order)
    requires Walked(ms, votes, t, view, node, leader, order, total, sigs)
    ensures var r := CollectQC(ms, votes, leader, order, total, sigs);
      r.Some? ==> QCOf(ms, votes, r.value, t, view, node, leader)
    decreases |order|
  {
    hide Walked, QCOf, Distinct, DistinctAddresses, MemberWeights;
    if order != [] {
      var a := order[0];
      TailApart(order);
      WalkedTail(ms, votes, t, view, node, leader, order, total, sigs);
      var (total', sigs') := (total, sigs);
      if a in votes && a in MemberWeights(ms) {
        WalkedMore(ms, votes, t, view, node, leader, order, total, sigs);
        total', sigs' := total + WeightIn(ms, a), sigs + [votes[a].sig.value];
      }
      if a in votes && total' >= Quorum(ms) {
        WalkedEnough(ms, votes, t, view, node, leader, order[1..], total', sigs');
      } else {
        CollectQCSound(ms, votes, leader, order[1..], total', sigs', t, view, node);
      }
    }
  }

  /** Below quorum the walk can only fail when the addresses still ahead are too light. */
  lemma {:induction false} CollectQCComplete(ms: seq<Member>, votes: map<Address, Vote>, leader: Address,
                                             order: seq<Address>, total: nat, sigs: seq<Signature>)
    requires DistinctAddresses(ms) && Total(ms) > 0 && Distinct(order)
    requires CollectQC(ms, votes, leader, order, total, sigs).None?
    requires total < Quorum(ms)
    ensures total + Weight(ms, Elements(order) * votes.Keys) < Quorum(ms)
    decreases |order|
  {
    var ahead := Elements(order) * votes.Keys;
    if order == [] {
      assert ahead == {};
      WeightEmpty(ms);
    } else {
      var a := order[0];
      var rest := Elements(order[1..]) * votes.Keys;
      assert order == [a] + order[1..];
      if a !in votes {
        CollectQCComplete(ms, votes, leader, order[1..], total, sigs);
        assert ahead == rest;
      } else {
        var total' := total + WeightIn(ms, a);
        var sigs' := if a in MemberWeights(ms) then sigs + [votes[a].sig.value] else sigs;
        CollectQCComplete(ms, votes, leader, order[1..], total', sigs');
        assert ahead == rest + {a} && rest * {a} == {};
        WeightUnion(ms, rest, {a});
        WeightEmpty(ms);
        MemberWeightsAgree(ms, a);
      }
    }
  }

  /** For every iteration order: `get_qc` returns a certificate exactly when the voters form a
      quorum; it is backed by distinct voters of quorum weight and `verify_qc` accepts it. */
  lemma GetQCExact(ms: seq<Member>, votes: map<Address, Vote>, leader: Address, order: seq<Address>,
                   t: MessageType, view: nat, node: Node)
    requires DistinctAddresses(ms) && Total(ms) > 0
    requires VotesFor(votes, t, view, node, leader)
    requires Distinct(order) && votes.Keys <= Elements(order)
    ensures var r := GetQC(ms, votes, leader, order);
      && (r.Some? <==> IsQuorum(ms, votes.Keys))
      && (r.Some? ==> QCOf(ms, votes, r.value, t, view, node, leader) && AcceptsQC(r.value, Some(t), ms))
  {
    assert Signers([]) == [];
    CollectQCSound(ms, votes, leader, order, 0, [], t, view, node);
    var r := GetQC(ms, votes, leader, order);
    if r.Some? {
      CertifiedIsAccepted(r.value, ms);
      WeightMonotone(ms, Elements(Signers(r.value.sigs)), votes.Keys);
    } else {
      CollectQCComplete(ms, votes, leader, order, 0, []);
      assert Elements(order) * votes.Keys == votes.Keys;
    }
  }

  /** The walk of `get_high_qc`: the highest justification met before the quorum is reached. */
  function CollectHighQC(ms: seq<Member>, views: map<Address, Justified>, order: seq<Address>,
                         total: nat, high: Option<QC>): Option<QC>
    requires Total(ms) > 0
    decreases |order|
  {
    if order == [] then None
    else if order[0] !in views then CollectHighQC(ms, views, order[1..], total, high)
    else
      var justify := views[order[0]].justify.value;
      var total' := total + WeightIn(ms, order[0]);
      var high' := if order[0] !in MemberWeights(ms) then high
                   else if high.None? || justify.view > high.value.view then Some(justify) else high;
      if total' >= Quorum(ms) then high'
      else CollectHighQC(ms, views, order[1..], total', high')
  }

  function GetHighQC(ms: seq<Member>, views: map<Address, Justified>, order: seq<Address>): Option<QC>
    requires Total(ms) > 0
  {
    CollectHighQC(ms, views, order, 0, None)
  }

  /** `qc` is the highest justification among the senders in `s`, who are members. */
  predicate HighestOf(ms: seq<Member>, views: map<Address, Justified>, s: set<Address>, qc: QC) {
    && s <= views.Keys
    && (exists a :: a in s && views[a].justify.value == qc)
    && (forall a :: a in s ==> views[a].justify.value.view <= qc.view)
  }

  lemma {:induction false} CollectHighQCSound(ms: seq<Member>, views: map<Address, Justified>, order: seq<Address>,
                                              total: nat, high: Option<QC>, seen: set<Address>) returns (s: set<Address>)
    requires DistinctAddresses(ms) && Total(ms) > 0 && Distinct(order)
    requires seen <= views.Keys && (forall a :: a in seen ==> a !in order)
    requires total == Weight(ms, seen)
    requires if high.None? then seen == {} else HighestOf(ms, views, seen, high.value)
    ensures var r := CollectHighQC(ms, views, order, total, high);
      r.Some? ==> IsQuorum(ms, s) && HighestOf(ms, views, s, r.value)
    decreases |order|
  {
    s := seen;
    if order != [] {
      var a := order[0];
      if a !in views {
        s := CollectHighQCSound(ms, views, order[1..], total, high, seen);
      } else {
        var justify := views[a].justify.value;
        var member := a in MemberWeights(ms);
        var total' := total + WeightIn(ms, a);
        var high' := if !member then high
                     else if high.None? || justify.view > high.value.view then Some(justify) else high;
        var seen' := if member then seen + {a} else seen;
        MemberWeightsAgree(ms, a);
        WeightUnion(ms, seen, {a});
        assert seen * {a} == {};
        WeightEmpty(ms);
        assert total' == Weight(ms, seen');
        if member {
          if high.None? || justify.view > high.value.view {
            assert a in seen' && views[a].justify.value == high'.value;
          } else {
            var b :| b in seen && views[b].justify.value == high.value;
            assert b in seen' && views[b].justify.value == high'.value;
          }
        }
        if total' >= Quorum(ms) {
          s := seen';
        } else {
          s := CollectHighQCSound(ms, views, order[1..], total', high', seen');
        }
      }
    }
  }

  /** For every iteration order, the certificate `get_high_qc` returns is the highest one reported
      by some quorum of senders. */
  lemma GetHighQCSound(ms: seq<Member>, views: map<Address, Justified>, order: seq<Address>) returns (s: set<Address>)
    requires DistinctAddresses(ms) && Total(ms) > 0 && Distinct(order)
    ensures var r := GetHighQC(ms, views, order);
      r.Some? ==> IsQuorum(ms, s) && HighestOf(ms, views, s, r.value)
  {
    WeightEmpty(ms);
    s := CollectHighQCSound(ms, views, order, 0, None, {});
  }

  /** The walk of `get_tc` over the timeouts of one view. */
  function CollectTC(ms: seq<Member>, msgs: map<Address, SignedTimeout>, order: seq<Address>,
                     total: nat, sigs: seq<TimeoutSignature>): Option<TC>
    requires Total(ms) > 0
    decreases |order|
  {
    if order == [] then None
    else if order[0] !in msgs then CollectTC(ms, msgs, order[1..], total, sigs)
    else
      var m := msgs[order[0]];
      var total' := total + WeightIn(ms, order[0]);
      var sigs' := if order[0] in MemberWeights(ms) then sigs + [m.sig.value] else sigs;
      if total' >= Quorum(ms) then Some(TC(m.view, sigs'))
      else CollectTC(ms, msgs, order[1..], total', sigs')
  }

  predicate TimeoutsFor(msgs: map<Address, SignedTimeout>, view: nat) {
    forall a :: a in msgs ==> msgs[a].view == view && msgs[a].sig == Some(TimeoutSignature(a, view))
  }

  predicate TCOf(ms: seq<Member>, msgs: map<Address, SignedTimeout>, tc: TC, view: nat)
    requires Total(ms) > 0
  {
    && tc.view == view
    && (forall i :: 0 <= i < |tc.sigs| ==> tc.sigs[i].view == view && tc.sigs[i].signer in msgs)
    && Distinct(TimeoutSigners(tc.sigs))
    && IsQuorum(ms, Elements(TimeoutSigners(tc.sigs)))
  }

  lemma TimeoutSignersSnoc(sigs: seq<TimeoutSignature>, sig: TimeoutSignature)
    ensures TimeoutSigners(sigs + [sig]) == TimeoutSigners(sigs) + [sig.signer]
    ensures Elements(TimeoutSigners(sigs + [sig])) == Elements(TimeoutSigners(sigs)) + {sig.signer}
  {
    assert TimeoutSigners(sigs + [sig]) == TimeoutSigners(sigs) + [sig.signer];
  }

  /** The same walk over timeouts. */
  predicate WalkedTC(ms: seq<Member>, msgs: map<Address, SignedTimeout>, view: nat, order: seq<Address>, total: nat, sigs: seq<TimeoutSignature>) {
    && total == ListWeight(ms, TimeoutSigners(sigs))
    && Distinct(TimeoutSigners(sigs))
    && (forall i :: 0 <= i < |sigs| ==> sigs[i].view == view && sigs[i].signer in msgs && sigs[i].signer !in order)
  }

  lemma WalkedTCMore(ms: seq<Member>, msgs: map<Address, SignedTimeout>, view: nat, order: seq<Address>, total: nat, sigs: seq<TimeoutSignature>)
    requires order != [] && Distinct(order) && TimeoutsFor(msgs, view) && WalkedTC(ms, msgs, view, order, total, sigs)
    ensures WalkedTC(ms, msgs, view, order[1..], total, sigs)
    ensures order[0] in msgs ==> WalkedTC(ms, msgs, view, order[1..], total + WeightIn(ms, order[0]), sigs + [msgs[order[0]].sig.value])
  {
    hide ListWeight, Distinct, MemberWeights;
    var a := order[0];
    if a in msgs {
      TimeoutSignersSnoc(sigs, msgs[a].sig.value);
      TailApart(order);
      assert a !in TimeoutSigners(sigs);
      DistinctMore(TimeoutSigners(sigs), a);
      ListWeightMore(ms, TimeoutSigners(sigs), a);
    }
  }

  lemma WalkedTCEnough(ms: seq<Member>, msgs: map<Address, SignedTimeout>, view: nat, order: seq<Address>, total: nat, sigs: seq<TimeoutSignature>)
    requires DistinctAddresses(ms) && Total(ms) > 0 && total >= Quorum(ms) && WalkedTC(ms, msgs, view, order, total, sigs)
    ensures TCOf(ms, msgs, TC(view, sigs), view)
  {
    hide ListWeight, Distinct;
    ListWeightIsSetWeight(ms, TimeoutSigners(sigs));
  }

  lemma {:induction false} CollectTCSound(ms: seq<Member>, msgs: map<Address, SignedTimeout>, order: seq<Address>,
                                          total: nat, sigs: seq<TimeoutSignature>, view: nat)
    requires DistinctAddresses(ms) && Total(ms) > 0
    requires TimeoutsFor(msgs, view) && Distinct(order) && WalkedTC(ms, msgs, view, order, total, sigs)
    ensures var r := CollectTC(ms, msgs, order, total, sigs);
      r.Some? ==> TCOf(ms, msgs, r.value, view)
    decreases |order|
  {
    hide WalkedTC, TCOf, Distinct, DistinctAddresses, MemberWeights;
    if order != [] {
      var a := order[0];
      TailApart(order);
      WalkedTCMore(ms, msgs, view, order, total, sigs);
      var (total', sigs') := (total, sigs);
      if a in msgs && a in MemberWeights(ms) {
        total', sigs' := total + WeightIn(ms, a), sigs + [msgs[a].sig.value];
      }
      if a in msgs && total' >= Quorum(ms) {
        WalkedTCEnough(ms, msgs, view, order[1..], total', sigs');
      } else {
        CollectTCSound(ms, msgs, order[1..], total', sigs', view);
      }
    }
  }

  /** For every iteration order, a TC over admitted timeouts has distinct signers of quorum weight
      and `verify_tc` accepts it. */
  lemma GetTCAccepted(ms: seq<Member>, msgs: map<Address, SignedTimeout>, order: seq<Address>, view: nat)
    requires DistinctAddresses(ms) && Total(ms) > 0
    requires TimeoutsFor(msgs, view) && Distinct(order)
    ensures var r := CollectTC(ms, msgs, order, 0, []);
      r.Some? ==> TCOf(ms, msgs, r.value, view) && AcceptsTC(r.value, ms)
  {
    assert TimeoutSigners([]) == [];
    CollectTCSound(ms, msgs, order, 0, [], view);
    var r := CollectTC(ms, msgs, order, 0, []);
    if r.Some? { ListWeightIsSetWeight(ms, TimeoutSigners(r.value.sigs)); }
  }
}
