/** Every elementary change of the HotStuff core keeps its invariant. */
module HotStuffCoreSteps {
  import opened Authorities
  import opened HotStuffTypes
  import opened HotStuffNode
  import opened HotStuffCore

  // ---------------------------------------------------------------- view, prepare QC, lock

  lemma AdvanceNoConflict(c: Config, k: Core, a: Address, w: nat)
    requires ValidConfig(c) && NoConflict(c, k) && a in k.views && w >= k.views[a]
    ensures NoConflict(c, k.(views := k.views[a := w]))
  {
    var k' := k.(views := k.views[a := w]);
    forall q, v | q in k.f.qcs && q.messageType == Prepare && v in k.f.props && v < q.view
      && k.f.props[v].node.blockHash != q.node.blockHash
      ensures !IsQuorum(c.members, MayCommit(c, k', v))
    {
      assert !IsQuorum(c.members, MayCommit(c, k, v));
      WeightMonotone(c.members, MayCommit(c, k', v), MayCommit(c, k, v));
    }
  }

  lemma AdvanceViews(c: Config, k: Core, a: Address, w: nat)
    requires ValidConfig(c) && Domain(c, k) && SignedOk(c, k) && PropsOk(c, k) && AllStoredOk(c, k)
    requires a in k.views && w >= k.views[a]
    ensures var k' := k.(views := k.views[a := w]);
      Domain(c, k') && SignedOk(c, k') && PropsOk(c, k') && AllStoredOk(c, k')
  {
    var k' := k.(views := k.views[a := w]);
    assert k'.views.Keys == k.views.Keys;
    forall g | g in k.f.signed ensures SigOk(c, k', g) { assert SigOk(c, k, g); }
    forall v | v in k.f.props ensures PropOk(c, k', v) { assert PropOk(c, k, v); }
    forall b | b in k'.views ensures StoredOk(c, k', b) { assert StoredOk(c, k, b); }
  }

  /** A validator may enter any later view. */
  lemma Advance(c: Config, k: Core, a: Address, w: nat)
    requires CoreInv(c, k) && a in k.views && w >= k.views[a]
    ensures CoreInv(c, k.(views := k.views[a := w]))
  {
    AdvanceViews(c, k, a, w);
    AdvanceNoConflict(c, k, a, w);
    hide SignedOk, PropsOk, AllStoredOk, NoConflict, QcsOk, PhasesOk;
  }

  lemma StoredOf(c: Config, k: Core, a: Address)
    requires CoreInv(c, k) && a in k.views
    ensures Domain(c, k) && StoredOk(c, k, a)
  {
  }

  /** A validator may replace its prepare QC by a formed one of its current view or before, not lower. */
  lemma StorePrepareQC(c: Config, k: Core, a: Address, q: QC)
    requires CoreInv(c, k) && a in k.views
    requires q in k.f.qcs && q.messageType == Prepare && k.preps[a].view <= q.view <= k.views[a]
    ensures CoreInv(c, k.(preps := k.preps[a := q]))
  {
    hide CoreInv;
    StoredOf(c, k, a);
    var k' := k.(preps := k.preps[a := q]);
    assert k'.preps.Keys == k.preps.Keys;
    StorageChanged(c, k, k', a);
  }

  /** A validator may replace its lock by a formed one of its current view or before, not lower. */
  lemma StoreLock(c: Config, k: Core, a: Address, q: QC)
    requires CoreInv(c, k) && a in k.views
    requires q in k.f.qcs && q.messageType == PreCommit && k.locks[a].view <= q.view <= k.views[a]
    ensures CoreInv(c, k.(locks := k.locks[a := q]))
  {
    hide CoreInv;
    StoredOf(c, k, a);
    var k' := k.(locks := k.locks[a := q]);
    assert k'.locks.Keys == k.locks.Keys;
    StorageChanged(c, k, k', a);
  }

  /** `k'` differs from `k` only in what `a` stores, and stores nothing lower. */
  ghost predicate StoresMore(c: Config, k: Core, k': Core, a: Address) {
    && Domain(c, k) && Domain(c, k') && k.views == k'.views && k.f == k'.f && a in k.views && StoredOk(c, k', a)
    && (forall b :: b in k.views && b != a ==> k.preps[b] == k'.preps[b] && k.locks[b] == k'.locks[b])
    && k'.preps[a].view >= k.preps[a].view && k'.locks[a].view >= k.locks[a].view
  }

  lemma StorageBasics(c: Config, k: Core, k': Core, a: Address)
    requires ValidConfig(c) && StoresMore(c, k, k', a) && SignedOk(c, k) && PropsOk(c, k) && AllStoredOk(c, k)
    ensures SignedOk(c, k') && PropsOk(c, k') && AllStoredOk(c, k')
  {
    forall b | b in k'.views ensures StoredOk(c, k', b) { assert StoredOk(c, k, b); }
    forall g | g in k'.f.signed ensures SigOk(c, k', g) { assert SigOk(c, k, g); }
    forall w | w in k'.f.props ensures PropOk(c, k', w) { assert PropOk(c, k, w); }
  }

  lemma StorageVotes(c: Config, k: Core, k': Core, a: Address)
    requires ValidConfig(c) && StoresMore(c, k, k', a) && PreCommitsStored(c, k) && CommitsLocked(c, k)
    ensures PreCommitsStored(c, k') && CommitsLocked(c, k')
  {
    forall b, v | b in k'.views && Voted(c, k'.f, b, PreCommit, v) ensures k'.preps[b].view >= v && HasQC(k'.f, Prepare, v) {
      assert k.preps[b].view >= v;
    }
    forall b, v | b in k'.views && Voted(c, k'.f, b, Commit, v) ensures k'.locks[b].view >= v && HasQC(k'.f, PreCommit, v) {
      assert k.locks[b].view >= v;
    }
  }

  lemma StorageChanged(c: Config, k: Core, k': Core, a: Address)
    requires CoreInv(c, k) && StoresMore(c, k, k', a)
    ensures CoreInv(c, k')
  {
    hide SignedOk, PropsOk, AllStoredOk, PreCommitsStored, CommitsLocked, NoConflict, QcsOk, PhasesOk, ValidStart, StoredOk, ReplicasSafe, HeavyLeaders;
    StorageBasics(c, k, k', a);
    StorageVotes(c, k, k', a);
    StorageNoConflict(c, k, k');
    SameVoters(c, k, k');
  }

  lemma SameVoters(c: Config, k: Core, k': Core)
    requires Ready(c) && ReplicasSafe(c, k) && HeavyLeaders(c, k) && k.views == k'.views && k.f == k'.f
    ensures ReplicasSafe(c, k') && HeavyLeaders(c, k')
  {
  }

  lemma StorageNoConflict(c: Config, k: Core, k': Core)
    requires Ready(c) && NoConflict(c, k) && k.views == k'.views && k.f == k'.f
    ensures NoConflict(c, k')
  {
    forall v: nat ensures MayCommit(c, k, v) == MayCommit(c, k', v) {}
  }

  // ---------------------------------------------------------------- signatures

  function Signed(k: Core, g: Signature): Core {
    k.(f := k.f.(signed := k.f.signed + {g}))
  }

  /** The only vote a new signature adds is its own. */
  lemma VotedAfterSign(c: Config, k: Core, g: Signature, a: Address, t: MessageType, v: nat)
    requires Ready(c) && SigOk(c, k, g)
    ensures Voted(c, Signed(k, g).f, a, t, v) <==>
      Voted(c, k.f, a, t, v) || (a == g.signer && t == g.messageType && v == g.view)
  {
  }

  lemma SignBasics(c: Config, k: Core, g: Signature)
    requires ValidConfig(c) && Domain(c, k) && SigOk(c, k, g)
    requires SignedOk(c, k) && QcsOk(c, k.f) && PropsOk(c, k) && AllStoredOk(c, k) && PhasesOk(k.f)
    ensures var k' := Signed(k, g);
      Domain(c, k') && SignedOk(c, k') && QcsOk(c, k'.f) && PropsOk(c, k') && AllStoredOk(c, k') && PhasesOk(k'.f)
  {
    var k' := Signed(k, g);
    forall h | h in k'.f.signed ensures SigOk(c, k', h) { assert SigOk(c, k, h); }
    forall q | q in k'.f.qcs ensures QcOk(c, k'.f, q) { assert QcOk(c, k.f, q); }
    forall w | w in k'.f.props ensures PropOk(c, k', w) { assert PropOk(c, k, w); }
    forall b | b in k'.views ensures StoredOk(c, k', b) { assert StoredOk(c, k, b); }
    forall q | q in k'.f.qcs && q.messageType == PreCommit ensures HasQC(k'.f, Prepare, q.view) {
      var p :| p in k.f.qcs && p.messageType == Prepare && p.view == q.view;
      assert p in k'.f.qcs;
    }
  }

  lemma SignVotes(c: Config, k: Core, g: Signature)
    requires ValidConfig(c) && Domain(c, k) && SigOk(c, k, g)
    requires PreCommitsStored(c, k) && CommitsLocked(c, k)
    requires g.messageType == PreCommit ==> k.preps[g.signer].view >= g.view && HasQC(k.f, Prepare, g.view)
    requires g.messageType == Commit ==> k.locks[g.signer].view >= g.view && HasQC(k.f, PreCommit, g.view)
    ensures PreCommitsStored(c, Signed(k, g)) && CommitsLocked(c, Signed(k, g))
  {
    var k' := Signed(k, g);
    forall a, v | a in k'.views && Voted(c, k'.f, a, PreCommit, v)
      ensures k'.preps[a].view >= v && HasQC(k'.f, Prepare, v)
    {
      VotedAfterSign(c, k, g, a, PreCommit, v);
      var q :| q in k.f.qcs && q.messageType == Prepare && q.view == v;
      assert q in k'.f.qcs;
    }
    forall a, v | a in k'.views && Voted(c, k'.f, a, Commit, v)
      ensures k'.locks[a].view >= v && HasQC(k'.f, PreCommit, v)
    {
      VotedAfterSign(c, k, g, a, Commit, v);
      var q :| q in k.f.qcs && q.messageType == PreCommit && q.view == v;
      assert q in k'.f.qcs;
    }
  }

  lemma VoterReached(c: Config, k: Core, a: Address, t: MessageType, v: nat)
    requires ValidConfig(c) && SignedOk(c, k) && Voted(c, k.f, a, t, v)
    ensures a in k.views && k.views[a] >= v
  {
    assert SigOk(c, k, Signature(a, t, v, k.f.props[v].node, LeaderOf(c, v)));
  }

  lemma SafeSince(c: Config, k: Core, g: Signature, a: Address, v: nat, w: nat)
    requires ValidConfig(c) && SigOk(c, k, g) && ReplicasSafe(c, k)
    requires a in k.views && v < w && a != LeaderOf(c, w)
    requires Voted(c, k.f, a, Commit, v)
    requires Voted(c, k.f, a, Prepare, w) || (a == g.signer && g.messageType == Prepare && w == g.view)
    requires g.messageType == Prepare && g.signer != LeaderOf(c, g.view) ==>
      forall u: nat :: u < g.view && Voted(c, k.f, g.signer, Commit, u) ==> CertifiedSince(k.f, u, g.node.blockHash)
    ensures CertifiedSince(k.f, v, k.f.props[w].node.blockHash)
  {
  }

  lemma SignReplicasSafe(c: Config, k: Core, g: Signature)
    requires ValidConfig(c) && Domain(c, k) && SigOk(c, k, g) && SignedOk(c, k) && ReplicasSafe(c, k)
    requires g.messageType == Commit ==> g.view == k.views[g.signer]
    requires g.messageType == Prepare && g.signer != LeaderOf(c, g.view) ==>
      forall v: nat :: v < g.view && Voted(c, k.f, g.signer, Commit, v) ==> CertifiedSince(k.f, v, g.node.blockHash)
    ensures ReplicasSafe(c, Signed(k, g))
  {
    var k' := Signed(k, g);
    forall a, v, w | a in k'.views && v < w && a != LeaderOf(c, w)
      && Voted(c, k'.f, a, Commit, v) && Voted(c, k'.f, a, Prepare, w)
      ensures CertifiedSince(k'.f, v, k'.f.props[w].node.blockHash)
    {
      VotedAfterSign(c, k, g, a, Commit, v);
      VotedAfterSign(c, k, g, a, Prepare, w);
      if Voted(c, k.f, a, Prepare, w) { VoterReached(c, k, a, Prepare, w); }
      SafeSince(c, k, g, a, v, w);
      var q :| q in k.f.qcs && q.messageType == Prepare && q.view >= v && q.node.blockHash == k.f.props[w].node.blockHash;
      assert q in k'.f.qcs;
    }
  }

  lemma SignHeavyLeaders(c: Config, k: Core, g: Signature)
    requires ValidConfig(c) && SigOk(c, k, g) && PropsOk(c, k) && HeavyLeaders(c, k)
    requires g.messageType == PreCommit ==> g.view == k.views[g.signer]
    ensures HeavyLeaders(c, Signed(k, g))
  {
    var k' := Signed(k, g);
    forall v, w | w in k'.f.props && v < w && Heavy(c, LeaderOf(c, w)) && Voted(c, k'.f, LeaderOf(c, w), PreCommit, v)
      ensures k'.f.props[w].justify.view >= v
    {
      VotedAfterSign(c, k, g, LeaderOf(c, w), PreCommit, v);
      assert PropOk(c, k, w);
    }
  }

  lemma SignNoConflict(c: Config, k: Core, g: Signature)
    requires ValidConfig(c) && SigOk(c, k, g) && NoConflict(c, k)
    requires g.messageType == Commit ==> g.view == k.views[g.signer]
    ensures NoConflict(c, Signed(k, g))
  {
    var k' := Signed(k, g);
    forall q, v | q in k'.f.qcs && q.messageType == Prepare && v in k'.f.props && v < q.view
      && k'.f.props[v].node.blockHash != q.node.blockHash
      ensures !IsQuorum(c.members, MayCommit(c, k', v))
    {
      forall a | a in k'.views ensures a in MayCommit(c, k', v) <==> a in MayCommit(c, k, v) {
        VotedAfterSign(c, k, g, a, Commit, v);
      }
      assert MayCommit(c, k', v) == MayCommit(c, k, v);
    }
  }

  /** What a validator must have done before it signs a ballot of its current view. */
  ghost predicate MaySign(c: Config, k: Core, g: Signature)
    requires Ready(c) && Domain(c, k)
  {
    && SigOk(c, k, g) && g.view == k.views[g.signer]
    && (g.messageType == PreCommit ==> k.preps[g.signer].view >= g.view && HasQC(k.f, Prepare, g.view))
    && (g.messageType == Commit ==> k.locks[g.signer].view >= g.view && HasQC(k.f, PreCommit, g.view))
    && (g.messageType == Prepare && g.signer != LeaderOf(c, g.view) ==>
          forall v: nat :: v < g.view && Voted(c, k.f, g.signer, Commit, v) ==> CertifiedSince(k.f, v, g.node.blockHash))
  }

  lemma SignVote(c: Config, k: Core, g: Signature)
    requires CoreInv(c, k) && MaySign(c, k, g)
    ensures CoreInv(c, Signed(k, g))
  {
    SignBasics(c, k, g);
    SignVotes(c, k, g);
    SignReplicasSafe(c, k, g);
    SignHeavyLeaders(c, k, g);
    SignNoConflict(c, k, g);
    hide SignedOk, QcsOk, PropsOk, AllStoredOk, PhasesOk, PreCommitsStored, CommitsLocked, ReplicasSafe, HeavyLeaders, NoConflict;
  }

  /** The safe node rule is enough for a replica to sign the proposal of its view. */
  lemma SafeNodeSuffices(c: Config, k: Core, a: Address, node: Node, justify: QC, v: nat)
    requires CoreInv(c, k) && a in k.views && GoodJustify(c, k.f, justify)
    requires SafeNode(c, k.locks[a], node, justify)
    requires Voted(c, k.f, a, Commit, v)
    ensures CertifiedSince(k.f, v, node.blockHash)
  {
    var lock := k.locks[a];
    assert StoredOk(c, k, a);
    var pc :| pc in k.f.qcs && pc.messageType == PreCommit && pc.view == v;
    AboveTop(c, k, pc);
    assert lock.view >= v && !BaseCert(c, lock);
    LockedBlock(c, k, lock);
    if node.blockHash == lock.node.blockHash {
      var p :| p in k.f.qcs && p.messageType == Prepare && p.view == lock.view && p.node == lock.node;
      assert p.view >= v && p.node.blockHash == node.blockHash;
    } else {
      assert justify.view > lock.view;
      assert justify in k.f.qcs && justify.messageType == Prepare;
      NotBaseBlock(c, k, justify);
    }
  }

  lemma NotBaseBlock(c: Config, k: Core, q: QC)
    requires ValidConfig(c) && QcsOk(c, k.f) && PropsOk(c, k) && q in k.f.qcs
    ensures q.node.blockHash != c.base.node.blockHash && q.node.parentHash == c.base.node.blockHash && q.view > c.base.view
  {
    assert QcOk(c, k.f, q);
    assert PropOk(c, k, q.view);
  }

  lemma LockedBlock(c: Config, k: Core, lock: QC)
    requires ValidConfig(c) && QcsOk(c, k.f) && PropsOk(c, k) && PhasesOk(k.f)
    requires lock in k.f.qcs && lock.messageType == PreCommit
    ensures lock.node.blockHash != c.base.node.blockHash
    ensures exists p :: p in k.f.qcs && p.messageType == Prepare && p.view == lock.view && p.node == lock.node
  {
    NotBaseBlock(c, k, lock);
    var p :| p in k.f.qcs && p.messageType == Prepare && p.view == lock.view;
    assert QcOk(c, k.f, p) && QcOk(c, k.f, lock);
  }

  // ---------------------------------------------------------------- proposals

  function Proposed(k: Core, w: nat, pm: PrepareMessage): Core {
    k.(f := k.f.(props := k.f.props[w := pm]))
  }

  /** What the leader of view `w` must have before it proposes `pm`. */
  ghost predicate MayPropose(c: Config, k: Core, w: nat, pm: PrepareMessage)
    requires Ready(c)
  {
    && w !in k.f.props
    && PropOk(c, Proposed(k, w, pm), w)
    && (Heavy(c, LeaderOf(c, w)) ==>
          forall v: nat :: v < w && Voted(c, k.f, LeaderOf(c, w), PreCommit, v) ==> pm.justify.view >= v)
  }

  lemma VotedAfterPropose(c: Config, k: Core, w: nat, pm: PrepareMessage, a: Address, t: MessageType, v: nat)
    requires ValidConfig(c) && SignedOk(c, k) && w !in k.f.props
    ensures Voted(c, Proposed(k, w, pm).f, a, t, v) <==> Voted(c, k.f, a, t, v)
  {
    NoVoteWithoutProposal(c, k, w);
  }

  lemma NoVoteWithoutProposal(c: Config, k: Core, w: nat)
    requires ValidConfig(c) && SignedOk(c, k) && w !in k.f.props
    ensures forall g :: g in k.f.signed ==> g.view != w
  {
    forall g | g in k.f.signed ensures g.view != w { assert SigOk(c, k, g); }
  }

  lemma ProposeSigned(c: Config, k: Core, w: nat, pm: PrepareMessage)
    requires ValidConfig(c) && Domain(c, k) && MayPropose(c, k, w, pm) && SignedOk(c, k) && QcsOk(c, k.f)
    ensures SignedOk(c, Proposed(k, w, pm)) && QcsOk(c, Proposed(k, w, pm).f)
  {
    hide Certified, LeaderOf;
    var k' := Proposed(k, w, pm);
    forall h | h in k'.f.signed ensures SigOk(c, k', h) { assert SigOk(c, k, h); }
    forall q | q in k'.f.qcs ensures QcOk(c, k'.f, q) { assert QcOk(c, k.f, q); }
  }

  lemma ProposeStored(c: Config, k: Core, w: nat, pm: PrepareMessage)
    requires ValidConfig(c) && Domain(c, k) && MayPropose(c, k, w, pm) && PropsOk(c, k) && AllStoredOk(c, k)
    ensures PropsOk(c, Proposed(k, w, pm)) && AllStoredOk(c, Proposed(k, w, pm))
  {
    hide Certified;
    var k' := Proposed(k, w, pm);
    forall v | v in k'.f.props ensures PropOk(c, k', v) { assert v != w ==> PropOk(c, k, v); }
    forall b | b in k'.views ensures StoredOk(c, k', b) { assert StoredOk(c, k, b); }
  }

  lemma ProposeBasics(c: Config, k: Core, w: nat, pm: PrepareMessage)
    requires ValidConfig(c) && Domain(c, k) && MayPropose(c, k, w, pm)
    requires SignedOk(c, k) && QcsOk(c, k.f) && PropsOk(c, k) && AllStoredOk(c, k) && PhasesOk(k.f)
    ensures var k' := Proposed(k, w, pm);
      Domain(c, k') && SignedOk(c, k') && QcsOk(c, k'.f) && PropsOk(c, k') && AllStoredOk(c, k') && PhasesOk(k'.f)
  {
    ProposeSigned(c, k, w, pm);
    ProposeStored(c, k, w, pm);
    hide Certified, SigOk, QcOk, PropOk, StoredOk, QcsOk, PropsOk, SignedOk, AllStoredOk, MayPropose;
    var k' := Proposed(k, w, pm);
    forall q | q in k'.f.qcs && q.messageType == PreCommit ensures HasQC(k'.f, Prepare, q.view) {
      var p :| p in k.f.qcs && p.messageType == Prepare && p.view == q.view;
      assert p in k'.f.qcs;
    }
  }

  lemma ProposeVotes(c: Config, k: Core, w: nat, pm: PrepareMessage)
    requires ValidConfig(c) && Domain(c, k) && MayPropose(c, k, w, pm)
    requires SignedOk(c, k) && PreCommitsStored(c, k) && CommitsLocked(c, k) && ReplicasSafe(c, k)
    ensures var k' := Proposed(k, w, pm); PreCommitsStored(c, k') && CommitsLocked(c, k') && ReplicasSafe(c, k')
  {
    var k' := Proposed(k, w, pm);
    forall a, v | a in k'.views && Voted(c, k'.f, a, PreCommit, v)
      ensures k'.preps[a].view >= v && HasQC(k'.f, Prepare, v)
    {
      VotedAfterPropose(c, k, w, pm, a, PreCommit, v);
      var q :| q in k.f.qcs && q.messageType == Prepare && q.view == v;
      assert q in k'.f.qcs;
    }
    forall a, v | a in k'.views && Voted(c, k'.f, a, Commit, v)
      ensures k'.locks[a].view >= v && HasQC(k'.f, PreCommit, v)
    {
      VotedAfterPropose(c, k, w, pm, a, Commit, v);
      var q :| q in k.f.qcs && q.messageType == PreCommit && q.view == v;
      assert q in k'.f.qcs;
    }
    forall a, v, u | a in k'.views && v < u && a != LeaderOf(c, u)
      && Voted(c, k'.f, a, Commit, v) && Voted(c, k'.f, a, Prepare, u)
      ensures CertifiedSince(k'.f, v, k'.f.props[u].node.blockHash)
    {
      VotedAfterPropose(c, k, w, pm, a, Commit, v);
      VotedAfterPropose(c, k, w, pm, a, Prepare, u);
      var q :| q in k.f.qcs && q.messageType == Prepare && q.view >= v && q.node.blockHash == k.f.props[u].node.blockHash;
      assert q in k'.f.qcs;
    }
  }

  lemma ProposeHeavyLeaders(c: Config, k: Core, w: nat, pm: PrepareMessage)
    requires ValidConfig(c) && MayPropose(c, k, w, pm) && SignedOk(c, k) && HeavyLeaders(c, k)
    ensures HeavyLeaders(c, Proposed(k, w, pm))
  {
    var k' := Proposed(k, w, pm);
    forall v, u | u in k'.f.props && v < u && Heavy(c, LeaderOf(c, u)) && Voted(c, k'.f, LeaderOf(c, u), PreCommit, v)
      ensures k'.f.props[u].justify.view >= v
    {
      VotedAfterPropose(c, k, w, pm, LeaderOf(c, u), PreCommit, v);
    }
  }

  /** A proposal that comes after a later prepare QC can no longer be committed: a quorum left its view. */
  lemma LateProposal(c: Config, k: Core, q: QC, v: nat)
    requires ValidConfig(c) && SignedOk(c, k) && QcsOk(c, k.f) && q in k.f.qcs && v < q.view
    requires forall a :: a in k.views ==> !Voted(c, k.f, a, Commit, v)
    ensures !IsQuorum(c.members, MayCommit(c, k, v))
  {
    var s := Elements(Signers(q.sigs));
    assert QcOk(c, k.f, q);
    forall a | a in s ensures a !in MayCommit(c, k, v) { QcSigners(c, k, q, a); }
    assert s * MayCommit(c, k, v) == {};
    WeightComplement(c.members, s, MayCommit(c, k, v));
  }

  lemma ProposeNoConflict(c: Config, k: Core, w: nat, pm: PrepareMessage)
    requires ValidConfig(c) && MayPropose(c, k, w, pm) && SignedOk(c, k) && QcsOk(c, k.f) && NoConflict(c, k)
    ensures NoConflict(c, Proposed(k, w, pm))
  {
    var k' := Proposed(k, w, pm);
    forall q, v | q in k'.f.qcs && q.messageType == Prepare && v in k'.f.props && v < q.view
      && k'.f.props[v].node.blockHash != q.node.blockHash
      ensures !IsQuorum(c.members, MayCommit(c, k', v))
    {
      forall a | a in k'.views ensures a in MayCommit(c, k', v) <==> a in MayCommit(c, k, v) {
        VotedAfterPropose(c, k, w, pm, a, Commit, v);
      }
      assert MayCommit(c, k', v) == MayCommit(c, k, v);
      if v == w { LateProposal(c, k, q, v); }
    }
  }

  lemma ProposeNode(c: Config, k: Core, w: nat, pm: PrepareMessage)
    requires CoreInv(c, k) && MayPropose(c, k, w, pm)
    ensures CoreInv(c, Proposed(k, w, pm))
  {
    ProposeBasics(c, k, w, pm);
    ProposeVotes(c, k, w, pm);
    ProposeHeavyLeaders(c, k, w, pm);
    ProposeNoConflict(c, k, w, pm);
    hide SignedOk, QcsOk, PropsOk, AllStoredOk, PhasesOk, PreCommitsStored, CommitsLocked, ReplicasSafe, HeavyLeaders, NoConflict;
  }

  // ---------------------------------------------------------------- certificates

  function Formed(k: Core, q: QC): Core {
    k.(f := k.f.(qcs := k.f.qcs + {q}))
  }

  /** A pre-commit certificate follows the prepare certificate: its signers saw it. */
  lemma PhaseBefore(c: Config, k: Core, q: QC)
    requires ValidConfig(c) && Domain(c, k) && SignedOk(c, k) && PreCommitsStored(c, k) && QcOk(c, k.f, q)
    requires q.messageType == PreCommit
    ensures HasQC(k.f, Prepare, q.view)
  {
    var a := QcHasSigner(c, q);
    NewSigner(c, k, q, a);
  }

  lemma FormSigned(c: Config, k: Core, q: QC)
    requires ValidConfig(c) && Domain(c, k) && QcOk(c, k.f, q) && SignedOk(c, k) && QcsOk(c, k.f)
    ensures SignedOk(c, Formed(k, q)) && QcsOk(c, Formed(k, q).f)
  {
    hide Certified, LeaderOf;
    var k' := Formed(k, q);
    forall h | h in k'.f.signed ensures SigOk(c, k', h) { assert SigOk(c, k, h); }
    forall p | p in k'.f.qcs ensures QcOk(c, k'.f, p) { assert QcOk(c, k.f, p); }
  }

  lemma FormStored(c: Config, k: Core, q: QC)
    requires ValidConfig(c) && Domain(c, k) && PropsOk(c, k) && AllStoredOk(c, k)
    ensures PropsOk(c, Formed(k, q)) && AllStoredOk(c, Formed(k, q))
  {
    hide LeaderOf;
    var k' := Formed(k, q);
    forall v | v in k'.f.props ensures PropOk(c, k', v) { assert PropOk(c, k, v); }
    forall b | b in k'.views ensures StoredOk(c, k', b) { assert StoredOk(c, k, b); }
  }

  lemma FormBasics(c: Config, k: Core, q: QC)
    requires ValidConfig(c) && Domain(c, k) && QcOk(c, k.f, q)
    requires SignedOk(c, k) && QcsOk(c, k.f) && PropsOk(c, k) && AllStoredOk(c, k) && PhasesOk(k.f)
    requires q.messageType == PreCommit ==> HasQC(k.f, Prepare, q.view)
    ensures var k' := Formed(k, q);
      Domain(c, k') && SignedOk(c, k') && QcsOk(c, k'.f) && PropsOk(c, k') && AllStoredOk(c, k') && PhasesOk(k'.f)
  {
    FormSigned(c, k, q);
    FormStored(c, k, q);
    FormPhases(k, q);
    hide QcOk, QcsOk, PropsOk, SignedOk, AllStoredOk, PhasesOk;
  }

  lemma FormPhases(k: Core, q: QC)
    requires PhasesOk(k.f) && (q.messageType == PreCommit ==> HasQC(k.f, Prepare, q.view))
    ensures PhasesOk(Formed(k, q).f)
  {
    var f := Formed(k, q).f;
    forall r | r in f.qcs && r.messageType == PreCommit ensures HasQC(f, Prepare, r.view) {
      var p :| p in k.f.qcs && p.messageType == Prepare && p.view == r.view;
      assert p in f.qcs;
    }
  }

  lemma FormVotes(c: Config, k: Core, q: QC)
    requires ValidConfig(c) && Domain(c, k)
    requires PreCommitsStored(c, k) && CommitsLocked(c, k) && ReplicasSafe(c, k) && HeavyLeaders(c, k)
    ensures var k' := Formed(k, q); PreCommitsStored(c, k') && CommitsLocked(c, k') && ReplicasSafe(c, k') && HeavyLeaders(c, k')
  {
    var k' := Formed(k, q);
    forall a, v | a in k'.views && Voted(c, k'.f, a, PreCommit, v)
      ensures k'.preps[a].view >= v && HasQC(k'.f, Prepare, v)
    {
      assert Voted(c, k.f, a, PreCommit, v);
      var p :| p in k.f.qcs && p.messageType == Prepare && p.view == v;
      assert p in k'.f.qcs;
    }
    forall a, v | a in k'.views && Voted(c, k'.f, a, Commit, v)
      ensures k'.locks[a].view >= v && HasQC(k'.f, PreCommit, v)
    {
      assert Voted(c, k.f, a, Commit, v);
      var p :| p in k.f.qcs && p.messageType == PreCommit && p.view == v;
      assert p in k'.f.qcs;
    }
    forall a, v, w | a in k'.views && v < w && a != LeaderOf(c, w)
      && Voted(c, k'.f, a, Commit, v) && Voted(c, k'.f, a, Prepare, w)
      ensures CertifiedSince(k'.f, v, k'.f.props[w].node.blockHash)
    {
      assert Voted(c, k.f, a, Commit, v) && Voted(c, k.f, a, Prepare, w);
      var p :| p in k.f.qcs && p.messageType == Prepare && p.view >= v && p.node.blockHash == k.f.props[w].node.blockHash;
      assert p in k'.f.qcs;
    }
    forall v, w | w in k'.f.props && v < w && Heavy(c, LeaderOf(c, w)) && Voted(c, k'.f, LeaderOf(c, w), PreCommit, v)
      ensures k'.f.props[w].justify.view >= v
    {
      assert Voted(c, k.f, LeaderOf(c, w), PreCommit, v);
    }
  }

  /** A block certified since `v` and different from the proposal of `v` already rules `v` out. */
  lemma CertifiedSinceExcludes(c: Config, k: Core, p: QC, v: nat, h: Hash)
    requires ValidConfig(c) && QcsOk(c, k.f) && NoConflict(c, k)
    requires p in k.f.qcs && p.messageType == Prepare && p.view >= v && p.node.blockHash == h
    requires v in k.f.props && k.f.props[v].node.blockHash != h
    ensures !IsQuorum(c.members, MayCommit(c, k, v))
  {
    assert QcOk(c, k.f, p);
    assert p.view > v;
  }

  /** No signer of the new QC but its leader committed at `v`: too little weight is left for `v`,
      unless the leader alone outweighs the tolerated faults. */
  lemma LightLeader(c: Config, k: Core, q: QC, v: nat)
    requires ValidConfig(c) && Certified(q, c.members) && !Heavy(c, LeaderOf(c, q.view))
    requires forall a :: a in Elements(Signers(q.sigs)) && a in MayCommit(c, k, v) ==> a == LeaderOf(c, q.view)
    ensures !IsQuorum(c.members, MayCommit(c, k, v))
  {
    var s := Elements(Signers(q.sigs));
    var m := MayCommit(c, k, v);
    var lead := LeaderOf(c, q.view);
    WeightUnion(c.members, s, m);
    WeightBounded(c.members, s + m);
    WeightMonotone(c.members, s * m, {lead});
  }

  /** A heavy leader that committed at `v` pre-committed there, so its proposal is justified since `v`. */
  lemma HeavyLeader(c: Config, k: Core, q: QC, v: nat)
    requires CoreInv(c, k) && QcOk(c, k.f, q) && q.messageType == Prepare
    requires Heavy(c, LeaderOf(c, q.view)) && v in k.f.props && v < q.view
    requires k.f.props[v].node.blockHash != q.node.blockHash
    ensures !IsQuorum(c.members, MayCommit(c, k, v))
  {
    var w := q.view;
    var lead := LeaderOf(c, w);
    assert PropOk(c, k, w) && PropOk(c, k, v);
    if lead !in MayCommit(c, k, v) {
      assert {lead} * MayCommit(c, k, v) == {};
      WeightComplement(c.members, {lead}, MayCommit(c, k, v));
    } else {
      assert Voted(c, k.f, lead, Commit, v);
      var pc :| pc in k.f.qcs && pc.messageType == PreCommit && pc.view == v;
      assert QcOk(c, k.f, pc);
      AboveTop(c, k, pc);
      QuorumContainsHeavy(c.members, Elements(Signers(pc.sigs)), lead);
      QcSigners(c, k, pc, lead);
      var j := k.f.props[w].justify;
      assert j.view >= v;
      CertifiedSinceExcludes(c, k, j, v, q.node.blockHash);
    }
  }

  lemma NewPrepareQC(c: Config, k: Core, q: QC, v: nat)
    requires CoreInv(c, k) && QcOk(c, k.f, q) && q.messageType == Prepare
    requires v in k.f.props && v < q.view && k.f.props[v].node.blockHash != q.node.blockHash
    ensures !IsQuorum(c.members, MayCommit(c, k, v))
  {
    var lead := LeaderOf(c, q.view);
    var s := Elements(Signers(q.sigs));
    if Heavy(c, lead) {
      HeavyLeader(c, k, q, v);
    } else if exists a :: a in s && a != lead && a in MayCommit(c, k, v) {
      var a :| a in s && a != lead && a in MayCommit(c, k, v);
      NewSigner(c, k, q, a);
      assert CertifiedSince(k.f, v, q.node.blockHash);
      var p :| p in k.f.qcs && p.messageType == Prepare && p.view >= v && p.node.blockHash == q.node.blockHash;
      CertifiedSinceExcludes(c, k, p, v, q.node.blockHash);
    } else {
      LightLeader(c, k, q, v);
    }
  }

  lemma NewSigner(c: Config, k: Core, q: QC, a: Address)
    requires ValidConfig(c) && SignedOk(c, k) && QcOk(c, k.f, q) && a in Elements(Signers(q.sigs))
    ensures a in k.views && k.views[a] >= q.view && Voted(c, k.f, a, q.messageType, q.view)
  {
    var i :| 0 <= i < |q.sigs| && Signers(q.sigs)[i] == a;
    assert SignatureFor(q.sigs[i], q);
    assert SigOk(c, k, q.sigs[i]);
  }

  lemma FormNoConflict(c: Config, k: Core, q: QC)
    requires CoreInv(c, k) && QcOk(c, k.f, q)
    ensures NoConflict(c, Formed(k, q))
  {
    hide SignedOk, QcsOk, PropsOk, AllStoredOk, PhasesOk, PreCommitsStored, CommitsLocked, ReplicasSafe, HeavyLeaders, QcOk, IsQuorum;
    var k' := Formed(k, q);
    forall p, v | p in k'.f.qcs && p.messageType == Prepare && v in k'.f.props && v < p.view
      && k'.f.props[v].node.blockHash != p.node.blockHash
      ensures !IsQuorum(c.members, MayCommit(c, k', v))
    {
      assert MayCommit(c, k', v) == MayCommit(c, k, v) by {
        forall a | a in k.views ensures Voted(c, k'.f, a, Commit, v) <==> Voted(c, k.f, a, Commit, v) {}
      }
      if p !in k.f.qcs { NewPrepareQC(c, k, q, v); }
    }
  }

  lemma FormQuorumCertificate(c: Config, k: Core, q: QC)
    requires CoreInv(c, k) && QcOk(c, k.f, q)
    ensures CoreInv(c, Formed(k, q))
  {
    if q.messageType == PreCommit { PhaseBefore(c, k, q); }
    FormBasics(c, k, q);
    FormVotes(c, k, q);
    FormNoConflict(c, k, q);
    hide SignedOk, QcsOk, PropsOk, AllStoredOk, PhasesOk, PreCommitsStored, CommitsLocked, ReplicasSafe, HeavyLeaders, NoConflict;
  }
}
