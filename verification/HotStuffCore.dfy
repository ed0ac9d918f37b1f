/** The safety argument of HotStuff on the part of the system state it depends on: the view,
    prepare QC and locked QC of every validator, and the facts produced so far. */
module HotStuffCore {
  import opened Authorities
  import opened HotStuffTypes
  import opened HotStuffNode

  datatype Core = Core(views: map<Address, nat>, preps: map<Address, QC>, locks: map<Address, QC>, f: Facts)

  /** `a` signed the ballot of type `t` of view `v`. */
  predicate Voted(c: Config, f: Facts, a: Address, t: MessageType, v: nat)
    requires Ready(c)
  {
    v in f.props && Signature(a, t, v, f.props[v].node, LeaderOf(c, v)) in f.signed
  }

  ghost predicate HasQC(f: Facts, t: MessageType, v: nat) {
    exists q :: q in f.qcs && q.messageType == t && q.view == v
  }

  predicate Heavy(c: Config, a: Address)
    requires Ready(c)
  {
    Weight(c.members, {a}) > Faulty(Total(c.members))
  }

  /** What the end of the previous height leaves behind: the signers of the highest certificate for the
      base block reached its view, and nobody leads that view again. */
  ghost predicate ValidStart(c: Config)
    requires Ready(c)
  {
    && c.starts.Keys == AddressSet(c.members) == c.bases.Keys
    && c.base.view <= c.top && SameLeaders(c)
    && (forall a :: a in c.starts ==> BaseCert(c, c.bases[a]) && c.bases[a].view < c.starts[a])
    && IsQuorum(c.members, Reached(c, c.top))
    && (LeaderOf(c, c.top) in c.starts ==> c.starts[LeaderOf(c, c.top)] > c.top)
  }

  /** Whichever base QC they start from, all validators work out the same leaders. */
  ghost predicate SameLeaders(c: Config)
    requires |c.members| > 0
  {
    forall a: Address, v: nat :: a in c.bases && v > c.bases[a].view ==> OwnLeader(c, a, v) == LeaderOf(c, v)
  }

  /** The validators that begin the height at view `v` or later. */
  function Reached(c: Config, v: nat): set<Address> {
    set a | a in c.starts && c.starts[a] >= v
  }

  predicate Domain(c: Config, k: Core) {
    k.views.Keys == AddressSet(c.members) == k.preps.Keys == k.locks.Keys
  }

  predicate SigOk(c: Config, k: Core, g: Signature)
    requires Ready(c)
  {
    && g.signer in k.views && g.view <= k.views[g.signer]
    && g.signer in c.starts && c.starts[g.signer] <= g.view
    && g.messageType in {Prepare, PreCommit, Commit}
    && g.view in k.f.props && g.node == k.f.props[g.view].node && g.leader == LeaderOf(c, g.view)
  }

  /** Every signature is a vote for the proposal of its view, by a validator that reached the view. */
  ghost predicate SignedOk(c: Config, k: Core)
    requires Ready(c)
  {
    forall g :: g in k.f.signed ==> SigOk(c, k, g)
  }

  predicate QcOk(c: Config, f: Facts, q: QC)
    requires Ready(c)
  {
    && q.messageType in {Prepare, PreCommit, Commit}
    && q.view in f.props && q.node == f.props[q.view].node && q.leader == LeaderOf(c, q.view)
    && Certified(q, c.members)
    && forall i :: 0 <= i < |q.sigs| ==> q.sigs[i] in f.signed
  }

  /** Every QC certifies the proposal of its view with distinct signed votes of quorum weight. */
  ghost predicate QcsOk(c: Config, f: Facts)
    requires Ready(c)
  {
    forall q :: q in f.qcs ==> QcOk(c, f, q)
  }

  predicate GoodJustify(c: Config, f: Facts, q: QC) {
    BaseCert(c, q) || (q in f.qcs && q.messageType == Prepare)
  }

  predicate PropOk(c: Config, k: Core, w: nat)
    requires Ready(c) && w in k.f.props
  {
    var pm := k.f.props[w];
    && w > c.base.view
    && pm.node.parentHash == c.base.node.blockHash && pm.node.blockHash != c.base.node.blockHash
    && GoodJustify(c, k.f, pm.justify)
    && (!BaseCert(c, pm.justify) ==> pm.justify.node == pm.node)
    && LeaderOf(c, w) in k.views && k.views[LeaderOf(c, w)] >= w
    && LeaderOf(c, w) in c.starts && c.starts[LeaderOf(c, w)] <= w
  }

  /** Every proposal extends the base block and repeats the node of its justification, if any. */
  ghost predicate PropsOk(c: Config, k: Core)
    requires Ready(c)
  {
    forall w :: w in k.f.props ==> PropOk(c, k, w)
  }

  predicate StoredOk(c: Config, k: Core, a: Address)
    requires a in k.views && a in k.preps && a in k.locks
  {
    && a in c.starts && c.starts[a] <= k.views[a]
    && k.views[a] > c.base.view
    && c.base.view <= k.preps[a].view <= k.views[a]
    && c.base.view <= k.locks[a].view <= k.views[a]
    && GoodJustify(c, k.f, k.preps[a])
    && (BaseCert(c, k.locks[a]) || (k.locks[a] in k.f.qcs && k.locks[a].messageType == PreCommit))
  }

  /** View, prepare QC and locked QC of every validator are in order. */
  ghost predicate AllStoredOk(c: Config, k: Core)
    requires Domain(c, k)
  {
    forall a :: a in k.views ==> StoredOk(c, k, a)
  }

  /** A pre-commit vote follows the prepare QC of its view and leaves it, or a later one, stored. */
  ghost predicate PreCommitsStored(c: Config, k: Core)
    requires Ready(c) && Domain(c, k)
  {
    forall a, v :: a in k.views && Voted(c, k.f, a, PreCommit, v) ==> k.preps[a].view >= v && HasQC(k.f, Prepare, v)
  }

  /** A commit vote follows the pre-commit QC of its view and leaves it, or a later one, as the lock. */
  ghost predicate CommitsLocked(c: Config, k: Core)
    requires Ready(c) && Domain(c, k)
  {
    forall a, v :: a in k.views && Voted(c, k.f, a, Commit, v) ==> k.locks[a].view >= v && HasQC(k.f, PreCommit, v)
  }

  /** The phases of a view follow each other. */
  ghost predicate PhasesOk(f: Facts) {
    forall q :: q in f.qcs && q.messageType == PreCommit ==> HasQC(f, Prepare, q.view)
  }

  /** A prepare QC for block `h` exists at view `v` or later. */
  ghost predicate CertifiedSince(f: Facts, v: nat, h: Hash) {
    exists q :: q in f.qcs && q.messageType == Prepare && q.view >= v && q.node.blockHash == h
  }

  /** The safe node rule seen from outside: a replica that committed at `v` later only prepares
      a block certified since `v`. The leader is exempt, it votes for its own proposal. */
  ghost predicate ReplicasSafe(c: Config, k: Core)
    requires Ready(c)
  {
    forall a, v, w :: a in k.views && v < w && a != LeaderOf(c, w)
      && Voted(c, k.f, a, Commit, v) && Voted(c, k.f, a, Prepare, w)
      ==> CertifiedSince(k.f, v, k.f.props[w].node.blockHash)
  }

  /** A leader no quorum can do without proposes on a certificate at least as high as any of its
      own pre-commit votes, because its own NewView is in every quorum of NewViews. */
  ghost predicate HeavyLeaders(c: Config, k: Core)
    requires Ready(c)
  {
    forall v, w :: w in k.f.props && v < w && Heavy(c, LeaderOf(c, w)) && Voted(c, k.f, LeaderOf(c, w), PreCommit, v)
      ==> k.f.props[w].justify.view >= v
  }

  /** Validators that committed at view `v` or still may. */
  function MayCommit(c: Config, k: Core, v: nat): set<Address>
    requires Ready(c)
  {
    set a | a in k.views && (Voted(c, k.f, a, Commit, v) || k.views[a] <= v)
  }

  /** The heart of agreement: once a prepare QC exists at `w`, no earlier view can commit another block. */
  ghost predicate NoConflict(c: Config, k: Core)
    requires Ready(c)
  {
    forall q, v :: q in k.f.qcs && q.messageType == Prepare && v in k.f.props && v < q.view
      && k.f.props[v].node.blockHash != q.node.blockHash
      ==> !IsQuorum(c.members, MayCommit(c, k, v))
  }

  ghost predicate CoreInv(c: Config, k: Core) {
    && ValidConfig(c) && ValidStart(c) && Domain(c, k)
    && SignedOk(c, k) && QcsOk(c, k.f) && PropsOk(c, k) && AllStoredOk(c, k)
    && PreCommitsStored(c, k) && CommitsLocked(c, k) && PhasesOk(k.f)
    && ReplicasSafe(c, k) && HeavyLeaders(c, k) && NoConflict(c, k)
  }

  // ---------------------------------------------------------------- certificates of the height

  /** No quorum can vote in a view before the height began, nor in one that is not led again: every
      certificate of the height is above all certificates for the base block. */
  lemma AboveTop(c: Config, k: Core, q: QC)
    requires ValidConfig(c) && ValidStart(c) && SignedOk(c, k) && PropsOk(c, k) && QcOk(c, k.f, q)
    ensures q.view > c.top
  {
    assert Ready(c);
    hide SigOk, SignedOk, IsQuorum, Elements, BaseCert, GoodJustify, ValidConfig, LeaderOf;
    var s := Elements(Signers(q.sigs));
    assert PropOk(c, k, q.view);
    hide PropsOk;
    if q.view < c.top {
      hide ValidStart, PropOk, QcOk;
      forall a | a in s ensures a !in Reached(c, c.top) { SignerStarted(c, k, q, a); }
      SignersQuorum(c, k, q);
      ApartNotBoth(c, s);
      assert false;
    }
  }

  lemma SignersQuorum(c: Config, k: Core, q: QC)
    requires Ready(c) && QcOk(c, k.f, q)
    ensures IsQuorum(c.members, Elements(Signers(q.sigs)))
  {
  }

  lemma SignerStarted(c: Config, k: Core, q: QC, a: Address)
    requires Ready(c) && SignedOk(c, k) && QcOk(c, k.f, q) && a in Elements(Signers(q.sigs))
    ensures a in c.starts && c.starts[a] <= q.view
  {
    var i :| 0 <= i < |q.sigs| && Signers(q.sigs)[i] == a;
    assert SignatureFor(q.sigs[i], q);
    assert SigOk(c, k, q.sigs[i]);
  }

  lemma ApartNotBoth(c: Config, s: set<Address>)
    requires ValidConfig(c) && ValidStart(c) && IsQuorum(c.members, s)
    ensures s * Reached(c, c.top) != {}
  {
    QuorumIntersection(c.members, s, Reached(c, c.top));
    if s * Reached(c, c.top) == {} { WeightEmpty(c.members); assert false; }
  }

  // ---------------------------------------------------------------- agreement

  /** The signers of a QC are validators whose view reached the QC's view. */
  lemma QcSigners(c: Config, k: Core, q: QC, a: Address)
    requires ValidConfig(c) && SignedOk(c, k) && QcsOk(c, k.f) && q in k.f.qcs
    requires a in Elements(Signers(q.sigs))
    ensures a in k.views && k.views[a] >= q.view && Voted(c, k.f, a, q.messageType, q.view)
  {
    assert QcOk(c, k.f, q);
    var i :| 0 <= i < |q.sigs| && Signers(q.sigs)[i] == a;
    assert SignatureFor(q.sigs[i], q);
    assert SigOk(c, k, q.sigs[i]);
  }

  lemma QcHasSigner(c: Config, q: QC) returns (a: Address)
    requires ValidConfig(c) && Certified(q, c.members)
    ensures a in Elements(Signers(q.sigs))
  {
    var s := Elements(Signers(q.sigs));
    if s == {} { WeightEmpty(c.members); assert false; }
    a :| a in s;
  }

  /** A commit QC means the earlier phases of its view were certified too. */
  lemma CommitNeedsPrepare(c: Config, k: Core, q: QC)
    requires CoreInv(c, k) && q in k.f.qcs && q.messageType == Commit
    ensures HasQC(k.f, Prepare, q.view)
  {
    assert QcOk(c, k.f, q);
    var a := QcHasSigner(c, q);
    QcSigners(c, k, q, a);
    assert HasQC(k.f, PreCommit, q.view);
  }

  /** Once a commit QC for a block exists at a view, every prepare QC at that view or later is
      for the same block. */
  lemma CommitExcludes(c: Config, k: Core, q: QC, p: QC)
    requires CoreInv(c, k)
    requires q in k.f.qcs && q.messageType == Commit
    requires p in k.f.qcs && p.messageType == Prepare && p.view >= q.view
    ensures p.node.blockHash == q.node.blockHash
  {
    hide ValidStart, SignedOk, PropsOk, AllStoredOk, PreCommitsStored, CommitsLocked, PhasesOk, ReplicasSafe, HeavyLeaders, Certified, IsQuorum, MayCommit;
    assert QcOk(c, k.f, q) && QcOk(c, k.f, p);
    if p.view > q.view && p.node.blockHash != q.node.blockHash {
      SignersMayCommit(c, k, q);
      assert false;
    }
  }

  lemma SignersMayCommit(c: Config, k: Core, q: QC)
    requires ValidConfig(c) && SignedOk(c, k) && QcsOk(c, k.f) && q in k.f.qcs && q.messageType == Commit
    ensures IsQuorum(c.members, MayCommit(c, k, q.view))
  {
    assert QcOk(c, k.f, q);
    var s := Elements(Signers(q.sigs));
    forall a | a in s ensures a in MayCommit(c, k, q.view) { QcSigners(c, k, q, a); }
    WeightMonotone(c.members, s, MayCommit(c, k, q.view));
  }

  lemma QcMatchesProposal(c: Config, k: Core, q: QC)
    requires CoreInv(c, k) && q in k.f.qcs
    ensures q.view in k.f.props && q.node == k.f.props[q.view].node
  {
    assert QcOk(c, k.f, q);
  }

  lemma AgreementInOrder(c: Config, k: Core, q: QC, q': QC)
    requires CoreInv(c, k) && q.view <= q'.view
    requires q in k.f.qcs && q.messageType == Commit
    requires q' in k.f.qcs && q'.messageType == Commit
    ensures q.node.blockHash == q'.node.blockHash
  {
    hide CoreInv;
    CommitNeedsPrepare(c, k, q');
    var p :| p in k.f.qcs && p.messageType == Prepare && p.view == q'.view;
    QcMatchesProposal(c, k, p);
    QcMatchesProposal(c, k, q');
    CommitExcludes(c, k, q, p);
  }

  /** Any two commit QCs of the height are for the same block. */
  lemma Agreement(c: Config, k: Core, q: QC, q': QC)
    requires CoreInv(c, k)
    requires q in k.f.qcs && q.messageType == Commit
    requires q' in k.f.qcs && q'.messageType == Commit
    ensures q.node.blockHash == q'.node.blockHash
  {
    hide CoreInv;
    if q.view <= q'.view { AgreementInOrder(c, k, q, q'); } else { AgreementInOrder(c, k, q', q); }
  }
}
