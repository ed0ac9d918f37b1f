/** Messages and certificates of the HotStuff consensus, their verification and the vote
    collectors. A signature is the fact "who signed what": verifying it against a public
    key and a message compares that fact. */
module HotStuffTypes {
  import opened Authorities

  type Hash = nat

  datatype Option<+T> = None | Some(value: T)

  datatype MessageType = NewView | Prepare | PreCommit | Commit | Decide

  datatype Node = Node(parentHash: Hash, blockHash: Hash)

  datatype Signature = Signature(
    signer: Address, messageType: MessageType, view: nat, node: Node, leader: Address)

  datatype QC = QC(
    messageType: MessageType, view: nat, node: Node, leader: Address, sigs: seq<Signature>)

  datatype ConsensusMessage = ConsensusMessage(
    messageType: MessageType, view: nat, node: Option<Node>, justify: Option<QC>, sig: Option<Signature>)

  /** A vote the leader admitted: it is signed and names a node. */
  type Vote = m: ConsensusMessage | m.sig.Some? && m.node.Some?
    witness ConsensusMessage(Prepare, 0, Some(Node(0, 0)), None, Some(Signature(0, Prepare, 0, Node(0, 0), 0)))

  /** A NewView the leader admitted: it carries a certificate. */
  type Justified = m: ConsensusMessage | m.justify.Some?
    witness ConsensusMessage(NewView, 0, None, Some(QC(Decide, 0, Node(0, 0), 0, [])), None)

  datatype TimeoutSignature = TimeoutSignature(signer: Address, view: nat)

  datatype TC = TC(view: nat, sigs: seq<TimeoutSignature>)

  datatype TimeoutType = NewTimeout | TimeoutDecide

  datatype TimeoutMessage = TimeoutMessage(
    messageType: TimeoutType, view: nat, justify: Option<TC>, sig: Option<TimeoutSignature>)

  type SignedTimeout = m: TimeoutMessage | m.sig.Some?
    witness TimeoutMessage(NewTimeout, 0, None, Some(TimeoutSignature(0, 0)))

  /** What `refresh` makes of a stored view and of a stored certificate, on the base `base`. */
  function RaisedView(base: QC, view: nat): nat {
    if view < base.view + 1 then base.view + 1 else view
  }

  function RaisedQC(base: QC, qc: QC): QC {
    if qc.view <= base.view then base else qc
  }

  function Signers(sigs: seq<Signature>): (r: seq<Address>)
    ensures |r| == |sigs|
    ensures forall i :: 0 <= i < |r| ==> r[i] == sigs[i].signer
  {
    seq(|sigs|, i requires 0 <= i < |sigs| => sigs[i].signer)
  }

  function TimeoutSigners(sigs: seq<TimeoutSignature>): (r: seq<Address>)
    ensures |r| == |sigs|
    ensures forall i :: 0 <= i < |r| ==> r[i] == sigs[i].signer
  {
    seq(|sigs|, i requires 0 <= i < |sigs| => sigs[i].signer)
  }

  function Quorum(ms: seq<Member>): nat
    requires Total(ms) > 0
  {
    Total(ms) - Faulty(Total(ms))
  }

  predicate SignatureFor(sig: Signature, qc: QC) {
    sig == Signature(sig.signer, qc.messageType, qc.view, qc.node, qc.leader)
  }

  /** What `verify_qc` accepts. The genesis certificate (view 0) passes unchecked. */
  predicate AcceptsQC(qc: QC, expected: Option<MessageType>, ms: seq<Member>)
    requires Total(ms) > 0
  {
    qc.view == 0
    || (&& (expected.Some? ==> qc.messageType == expected.value)
        && (forall i :: 0 <= i < |qc.sigs| ==> SignatureFor(qc.sigs[i], qc))
        && ListWeight(ms, Signers(qc.sigs)) >= Quorum(ms))
  }

  predicate AcceptsTC(tc: TC, ms: seq<Member>)
    requires Total(ms) > 0
  {
    && (forall i :: 0 <= i < |tc.sigs| ==> tc.sigs[i].view == tc.view)
    && ListWeight(ms, TimeoutSigners(tc.sigs)) >= Quorum(ms)
  }

  method VerifyQC(qc: QC, expected: Option<MessageType>, ms: seq<Member>) returns (ok: bool)
    requires Total(ms) > 0
    ensures ok <==> AcceptsQC(qc, expected, ms)
  {
    if qc.view == 0 { return true; }
    if expected.Some? && qc.messageType != expected.value { return false; }
    var weights := MemberWeights(ms);
    var total := 0;
    ghost var signers := Signers(qc.sigs);
    for i := 0 to |qc.sigs|
      invariant total == ListWeight(ms, signers[..i])
      invariant forall j :: 0 <= j < i ==> SignatureFor(qc.sigs[j], qc)
    {
      var sig := qc.sigs[i];
      assert signers[..i + 1][..i] == signers[..i];
      if sig.signer in weights {
        total := total + weights[sig.signer];
      }
      if sig != Signature(sig.signer, qc.messageType, qc.view, qc.node, qc.leader) {
        return false;
      }
    }
    assert signers[..|qc.sigs|] == signers;
    ok := total >= Total(ms) - (Total(ms) - 1) / 3;
  }

  method VerifyTC(tc: TC, ms: seq<Member>) returns (ok: bool)
    requires Total(ms) > 0
    ensures ok <==> AcceptsTC(tc, ms)
  {
    var weights := MemberWeights(ms);
    var total := 0;
    ghost var signers := TimeoutSigners(tc.sigs);
    for i := 0 to |tc.sigs|
      invariant total == ListWeight(ms, signers[..i])
      invariant forall j :: 0 <= j < i ==> tc.sigs[j].view == tc.view
    {
      var sig := tc.sigs[i];
      assert signers[..i + 1][..i] == signers[..i];
      if sig.signer in weights {
        total := total + weights[sig.signer];
      }
      if sig.view != tc.view { return false; }
    }
    assert signers[..|tc.sigs|] == signers;
    ok := total >= Total(ms) - (Total(ms) - 1) / 3;
  }

  /** A QC that distinct members of quorum weight stand behind. */
  predicate Certified(qc: QC, ms: seq<Member>)
    requires Total(ms) > 0
  {
    && (forall i :: 0 <= i < |qc.sigs| ==> SignatureFor(qc.sigs[i], qc))
    && Distinct(Signers(qc.sigs))
    && IsQuorum(ms, Elements(Signers(qc.sigs)))
  }

  /** What being accepted is worth: above view 0, and with no signer listed twice, exactly a certificate of
      the expected type that distinct members of quorum weight stand behind. */
  lemma AcceptedExactly(qc: QC, expected: Option<MessageType>, ms: seq<Member>)
    requires DistinctAddresses(ms) && Total(ms) > 0 && qc.view > 0 && Distinct(Signers(qc.sigs))
    ensures AcceptsQC(qc, expected, ms) <==> Certified(qc, ms) && (expected.Some? ==> qc.messageType == expected.value)
  {
    ListWeightIsSetWeight(ms, Signers(qc.sigs));
  }

  lemma AcceptedTCExactly(tc: TC, ms: seq<Member>)
    requires DistinctAddresses(ms) && Total(ms) > 0 && Distinct(TimeoutSigners(tc.sigs))
    ensures AcceptsTC(tc, ms) <==>
      (forall i :: 0 <= i < |tc.sigs| ==> tc.sigs[i].view == tc.view) && IsQuorum(ms, Elements(TimeoutSigners(tc.sigs)))
  {
    ListWeightIsSetWeight(ms, TimeoutSigners(tc.sigs));
  }

  lemma ThreeMembers()
    ensures var ms := [Member(1, 1), Member(2, 1), Member(3, 1)]; Total(ms) == 3 && Weight(ms, {1}) == 1 && WeightIn(ms, 1) == 1
  {
    var ms := [Member(1, 1), Member(2, 1), Member(3, 1)];
    var (two, one) := (ms[..2], ms[..1]);
    assert two[..1] == one && one[..0] == [];
    assert Total(one) == 1 && Weight(one, {1}) == 1;
    assert Total(two) == 2 && Weight(two, {1}) == 1;
    MemberWeightsAgree(ms, 1);
  }

  lemma ListedThreeTimes(ms: seq<Member>, a: Address)
    ensures ListWeight(ms, [a, a, a]) == 3 * WeightIn(ms, a)
  {
    hide WeightIn;
    var three := [a, a, a];
    var (two, one) := (three[..2], three[..1]);
    assert two[..1] == one && one[..0] == [];
    assert ListWeight(ms, one) == WeightIn(ms, a);
    assert ListWeight(ms, two) == 2 * WeightIn(ms, a);
  }

  /** One signature listed three times is accepted where three members of weight one make the quorum. */
  lemma RepeatedSigner()
    ensures var ms := [Member(1, 1), Member(2, 1), Member(3, 1)];
      var sig := Signature(1, Prepare, 1, Node(0, 7), 1);
      var qc := QC(Prepare, 1, Node(0, 7), 1, [sig, sig, sig]);
      Total(ms) > 0 && AcceptsQC(qc, Some(Prepare), ms) && !IsQuorum(ms, Elements(Signers(qc.sigs)))
  {
    hide Total, Weight, WeightIn, ListWeight;
    var ms := [Member(1, 1), Member(2, 1), Member(3, 1)];
    var sig := Signature(1, Prepare, 1, Node(0, 7), 1);
    var sigs := [sig, sig, sig];
    ThreeMembers();
    ListedThreeTimes(ms, 1);
    assert Signers(sigs) == [1, 1, 1];
    assert Elements(Signers(sigs)) == {1};
  }

  lemma CertifiedIsAccepted(qc: QC, ms: seq<Member>)
    requires DistinctAddresses(ms) && Total(ms) > 0
    requires Certified(qc, ms)
    ensures AcceptsQC(qc, Some(qc.messageType), ms) && AcceptsQC(qc, None, ms)
  {
    ListWeightIsSetWeight(ms, Signers(qc.sigs));
  }
}
