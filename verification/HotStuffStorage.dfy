/** The persistent storage of a validator: its fields and the keys of the database behind them. */
module HotStuffStorage {
  import opened HotStuffTypes

  datatype Proposal = Proposal(parentHash: Hash, blockHash: Hash, body: seq<int>)

  /** The keys `view`, `prepare_qc`, `locked_qc`, `nodes`, `proposals` and `proposal_<hash>`. */
  datatype Database = Database(
    view: Option<nat>, prepareQC: Option<QC>, lockedQC: Option<QC>,
    nodes: map<Hash, Node>, proposals: map<Hash, Node>, bodies: map<Hash, Proposal>)

  const EMPTY_DATABASE := Database(None, None, None, map[], map[], map[])

  function Children(nodes: map<Hash, Node>, parent: Hash): map<Hash, Node> {
    map h | h in nodes && nodes[h].parentHash == parent :: nodes[h]
  }

  /** Removes the entries of other parents, one after the other. */
  method KeepChildren(nodes: map<Hash, Node>, parent: Hash) returns (kept: map<Hash, Node>, removed: set<Hash>)
    ensures kept == Children(nodes, parent)
    ensures removed == nodes.Keys - kept.Keys
  {
    removed := set h | h in nodes && nodes[h].parentHash != parent;
    kept := nodes;
    var rest := removed;
    while rest != {}
      invariant rest <= removed && kept == nodes - (removed - rest)
      decreases rest
    {
      var h :| h in rest;
      kept := kept - {h};
      rest := rest - {h};
    }
  }

  /** What pruning makes of the database: the list of nodes and the bodies of proposals are cut down to
      the children of the confirmed block, the list of proposals is not. */
  function Pruned(db: Database, confirmed: Hash): Database {
    db.(nodes := Children(db.nodes, confirmed), bodies := db.bodies - (db.proposals.Keys - Children(db.proposals, confirmed).Keys))
  }

  predicate OnlyChildren(db: Database, confirmed: Hash) {
    forall h :: h in db.proposals ==> db.proposals[h].parentHash == confirmed
  }

  /** The persisted list of proposals is the list kept in memory exactly when no proposal was removed. If
      every listed proposal had its body, the same decides whether every listed one still has. */
  lemma PrunedExactly(db: Database, confirmed: Hash)
    ensures Pruned(db, confirmed).proposals == Children(db.proposals, confirmed) <==> OnlyChildren(db, confirmed)
    ensures db.proposals.Keys <= db.bodies.Keys ==>
      (Pruned(db, confirmed).proposals.Keys <= Pruned(db, confirmed).bodies.Keys <==> OnlyChildren(db, confirmed))
  {
    var kept := Children(db.proposals, confirmed);
    if !OnlyChildren(db, confirmed) {
      var h :| h in db.proposals && db.proposals[h].parentHash != confirmed;
      assert h !in kept && h !in Pruned(db, confirmed).bodies;
    } else {
      assert kept == db.proposals;
    }
  }

  /** A proposal on block 7 stays listed, without its body, once block 8 is confirmed. */
  lemma StaysListed()
    ensures var db := EMPTY_DATABASE.(proposals := map[9 := Node(7, 9)], bodies := map[9 := Proposal(7, 9, [])]);
      9 in Pruned(db, 8).proposals && 9 !in Children(db.proposals, 8) && 9 !in Pruned(db, 8).bodies
  {
    var db := EMPTY_DATABASE.(proposals := map[9 := Node(7, 9)], bodies := map[9 := Proposal(7, 9, [])]);
    assert 9 in db.proposals && db.proposals[9].parentHash == 7;
  }

  class Storage {
    const genesis: QC
    var baseCommitQC: QC
    var baseBlockHash: Hash
    var view: nat
    var prepareQC: QC
    var lockedQC: QC
    var nodes: map<Hash, Node>
    var proposals: map<Hash, Node>
    var db: Database

    /** The fields are in order and a crash would lose none of them. */
    predicate Valid()
      reads this
    {
      && baseCommitQC.view < view
      && baseCommitQC.view <= prepareQC.view <= view
      && baseCommitQC.view <= lockedQC.view <= view
      && db.view == Some(view) && db.prepareQC == Some(prepareQC) && db.lockedQC == Some(lockedQC)
      && proposals == Children(db.proposals, baseBlockHash)
      && (forall h :: h in proposals ==> h in db.bodies && db.bodies[h].blockHash == h && db.bodies[h].parentHash == baseBlockHash)
    }

    /** What a database left behind by a crash satisfies. */
    static predicate Recoverable(db: Database) {
      && db.view.Some? && db.prepareQC.Some? && db.lockedQC.Some?
      && db.prepareQC.value.view <= db.view.value && db.lockedQC.value.view <= db.view.value
      && forall h :: h in db.proposals ==> h in db.bodies ==>
           db.bodies[h].blockHash == h && db.bodies[h].parentHash == db.proposals[h].parentHash
    }

    /** A fresh database, or one left behind with the bodies of the current proposals in it. */
    static predicate Recovers(db: Database, confirmed: Hash) {
      (db == EMPTY_DATABASE || Recoverable(db))
      && forall h :: h in db.proposals && db.proposals[h].parentHash == confirmed ==> h in db.bodies
    }

    /** `Storage::new` on a database: empty at first, or the one of an earlier run. `proof` is the
        commit QC of the confirmed block, absent at genesis. */
    constructor (genesis: QC, proof: Option<QC>, confirmed: Hash, db: Database)
      requires genesis.view == 0
      ensures Recovers(db, confirmed) ==> Valid()
      ensures this.genesis == genesis
      ensures baseCommitQC == (if proof.Some? then proof.value else genesis) && baseBlockHash == confirmed
      ensures view == RaisedView(baseCommitQC, if db.view.Some? then db.view.value else 0)
      ensures db.prepareQC.Some? ==> prepareQC == RaisedQC(baseCommitQC, db.prepareQC.value)
      ensures db.lockedQC.Some? ==> lockedQC == RaisedQC(baseCommitQC, db.lockedQC.value)
      ensures proposals == Children(db.proposals, confirmed)
    {
      this.genesis := genesis;
      baseCommitQC, prepareQC, lockedQC := genesis, genesis, genesis;
      baseBlockHash, view := 0, 0;
      nodes, proposals := map[], map[];
      this.db := db;
      new;
      Refresh(proof, confirmed);
    }

    /** `refresh`: rebases on the confirmed block and repairs what is below the new base. No view is
        lowered, and every repaired value is persisted. */
    method Refresh(proof: Option<QC>, confirmed: Hash)
      requires genesis.view == 0
      modifies this
      ensures Recovers(old(db), confirmed) ==> Valid()
      ensures baseCommitQC == (if proof.Some? then proof.value else genesis) && baseBlockHash == confirmed
      ensures view == RaisedView(baseCommitQC, if old(db.view).Some? then old(db.view).value else 0)
      ensures prepareQC == RaisedQC(baseCommitQC, if old(db.prepareQC).Some? then old(db.prepareQC).value else genesis)
      ensures lockedQC == RaisedQC(baseCommitQC, if old(db.lockedQC).Some? then old(db.lockedQC).value else genesis)
      ensures old(db.view).Some? ==> view >= old(db.view).value
      ensures old(db.prepareQC).Some? ==> prepareQC.view >= old(db.prepareQC).value.view
      ensures old(db.lockedQC).Some? ==> lockedQC.view >= old(db.lockedQC).value.view
      ensures nodes == Children(old(db.nodes), confirmed) && proposals == Children(old(db.proposals), confirmed)
      ensures db.bodies == old(db.bodies) - (old(db.proposals).Keys - proposals.Keys)
    {
      var base := if proof.Some? then proof.value else genesis;
      var view', prepare, locked := RaiseStored(base);
      var nodes', proposals' := Prune(confirmed);
      baseCommitQC, baseBlockHash, view := base, confirmed, view';
      prepareQC, lockedQC, nodes, proposals := prepare, locked, nodes', proposals';
    }

    /** The first part of `refresh`: view, prepare QC and lock above the new base. */
    method RaiseStored(base: QC) returns (view': nat, prepare: QC, locked: QC)
      requires genesis.view == 0
      modifies this`db
      ensures view' == RaisedView(base, if old(db.view).Some? then old(db.view).value else 0)
      ensures prepare == RaisedQC(base, if old(db.prepareQC).Some? then old(db.prepareQC).value else genesis)
      ensures locked == RaisedQC(base, if old(db.lockedQC).Some? then old(db.lockedQC).value else genesis)
      ensures db == old(db).(view := Some(view'), prepareQC := Some(prepare), lockedQC := Some(locked))
    {
      view' := if db.view.Some? then db.view.value else 0;
      if view' < base.view + 1 {
        view' := base.view + 1;
        db := db.(view := Some(view'));
      }
      prepare := if db.prepareQC.Some? then db.prepareQC.value else genesis;
      if prepare.view <= base.view {
        prepare := base;
        db := db.(prepareQC := Some(prepare));
      }
      locked := if db.lockedQC.Some? then db.lockedQC.value else genesis;
      if locked.view <= base.view {
        locked := base;
        db := db.(lockedQC := Some(locked));
      }
    }

    /** The second part of `refresh`: nodes and proposals of other parents go. The list of proposals
        itself is not written back, the list of nodes is. */
    method Prune(confirmed: Hash) returns (nodes': map<Hash, Node>, proposals': map<Hash, Node>)
      modifies this`db
      ensures nodes' == Children(old(db.nodes), confirmed) && proposals' == Children(old(db.proposals), confirmed)
      ensures db == Pruned(old(db), confirmed)
    {
      var removedNodes, removed;
      nodes', removedNodes := KeepChildren(db.nodes, confirmed);
      if removedNodes != {} {
        db := db.(nodes := nodes');
      } else {
        forall h | h in db.nodes ensures h in nodes' { assert h !in removedNodes; }
        assert nodes' == db.nodes;
      }
      proposals', removed := KeepChildren(db.proposals, confirmed);
      db := db.(bodies := db.bodies - removed);
      if removed != {} { db := db.(nodes := nodes'); }
    }

    method UpdateView(v: nat)
      modifies this`view, this`db
      ensures view == v && db == old(db).(view := Some(v))
      ensures old(Valid()) && v >= old(view) ==> Valid()
    {
      db := db.(view := Some(v));
      view := v;
    }

    method UpdatePrepareQC(qc: QC)
      modifies this`prepareQC, this`db
      ensures prepareQC == qc && db == old(db).(prepareQC := Some(qc))
      ensures old(Valid()) && baseCommitQC.view <= qc.view <= view ==> Valid()
    {
      db := db.(prepareQC := Some(qc));
      prepareQC := qc;
    }

    method UpdateLockedQC(qc: QC)
      modifies this`lockedQC, this`db
      ensures lockedQC == qc && db == old(db).(lockedQC := Some(qc))
      ensures old(Valid()) && baseCommitQC.view <= qc.view <= view ==> Valid()
    {
      db := db.(lockedQC := Some(qc));
      lockedQC := qc;
    }

    method PutProposal(p: Proposal)
      modifies this`proposals, this`db
      ensures db.bodies == old(db.bodies)[p.blockHash := p]
      ensures old(Valid()) && p.parentHash == baseBlockHash ==> Valid()
      ensures proposals == old(proposals)[p.blockHash := Node(p.parentHash, p.blockHash)] && db.proposals == proposals
    {
      proposals := proposals[p.blockHash := Node(p.parentHash, p.blockHash)];
      db := db.(proposals := proposals);
      db := db.(bodies := db.bodies[p.blockHash := p]);
    }
  }

  /** A crash loses nothing: a storage opened on the database of a valid one, with the same proof, has
      the same base and view, and the same certificates, except that one of the base view that is not
      the base QC becomes it. */
  method Reopen(s: Storage, proof: Option<QC>) returns (s': Storage)
    requires s.Valid() && s.genesis.view == 0
    requires s.baseCommitQC == (if proof.Some? then proof.value else s.genesis)
    ensures fresh(s') && s'.baseCommitQC == s.baseCommitQC && s'.view == s.view
    ensures s'.prepareQC == s.prepareQC <==> s.prepareQC.view > s.baseCommitQC.view || s.prepareQC == s.baseCommitQC
    ensures s'.lockedQC == s.lockedQC <==> s.lockedQC.view > s.baseCommitQC.view || s.lockedQC == s.baseCommitQC
    ensures s'.prepareQC.view == s.prepareQC.view && s'.lockedQC.view == s.lockedQC.view
    ensures s'.proposals == s.proposals
    ensures Storage.Recoverable(s.db) ==> s'.Valid()
  {
    assert forall h :: h in s.db.proposals && s.db.proposals[h].parentHash == s.baseBlockHash ==> h in s.proposals;
    s' := new Storage(s.genesis, proof, s.baseBlockHash, s.db);
  }
}
