/** All contexts of a contract execution at once: every context that was derived from another one stays
    usable, its parent included, so the contexts form a tree and any of them may act at any time. */
module ContextTree {
  import opened ExecutorContext

  type Id = nat

  /** The cells a context stacks up, outermost first; the last one is its own. */
  type Path = seq<Id>

  /** What one context holds back: two write buffers and a journal. */
  datatype Cell = Cell(meta: Writes, payload: Writes, events: seq<Event>)

  const EMPTY: Cell := Cell(map[], map[], [])

  datatype Tree = Tree(paths: map<Id, Path>, cells: map<Id, Cell>, base: World)

  function Both(c: Cell, d: Cell): Cell {
    Cell(c.meta + d.meta, c.payload + d.payload, c.events + d.events)
  }

  /** The world as seen through one cell. */
  function OnTop(w: World, c: Cell): World {
    World(Through(w.meta, c.meta), Through(w.payload, c.payload), w.events + c.events)
  }

  ghost predicate Known(t: Tree, p: Path) {
    forall i :: 0 <= i < |p| ==> p[i] in t.cells
  }

  /** What a context reads. */
  function View(t: Tree, p: Path): World
    requires Known(t, p)
    decreases |p|
  {
    if p == [] then t.base else OnTop(View(t, p[..|p| - 1]), t.cells[p[|p| - 1]])
  }

  /** What the cells of `p` from position `j` on hold between them. */
  function Above(t: Tree, p: Path, j: nat): Cell
    requires Known(t, p) && j <= |p|
    decreases |p|
  {
    if j == |p| then EMPTY else Both(Above(t, p[..|p| - 1], j), t.cells[p[|p| - 1]])
  }

  ghost predicate PathOk(t: Tree, a: Id) {
    a in t.paths && a in t.cells && a < |t.paths| && t.paths[a] != [] && t.paths[a][|t.paths[a]| - 1] == a
    && forall i :: 0 <= i < |t.paths[a]| ==> t.paths[a][i] in t.paths && t.paths[t.paths[a][i]] == t.paths[a][..i + 1]
  }

  /** Every cell belongs to one context, and whoever stacks it stacks all of that context's cells. */
  ghost predicate Shape(t: Tree) {
    t.cells.Keys == t.paths.Keys && forall a :: a in t.paths ==> PathOk(t, a)
  }

  // ---------------------------------------------------------------- operations

  datatype Parts = Parts(meta: bool, payload: bool, events: bool)

  const ALL: Parts := Parts(true, true, true)

  function Taken(c: Cell, parts: Parts): Cell {
    Cell(if parts.meta then c.meta else map[], if parts.payload then c.payload else map[], if parts.events then c.events else [])
  }

  function Left(c: Cell, parts: Parts): Cell {
    Cell(if parts.meta then map[] else c.meta, if parts.payload then map[] else c.payload, if parts.events then [] else c.events)
  }

  function Parent(p: Path): Path
    requires p != []
  {
    p[..|p| - 1]
  }

  /** `c` goes over what the context holds; the empty path is the executor's context. */
  function Written(t: Tree, p: Path, c: Cell): Tree
    requires Known(t, p)
  {
    if p == [] then t.(base := OnTop(t.base, c))
    else var a := p[|p| - 1]; t.(cells := t.cells[a := Both(t.cells[a], c)])
  }

  function Drained(t: Tree, a: Id, parts: Parts): Tree
    requires a in t.cells
  {
    t.(cells := t.cells[a := Left(t.cells[a], parts)])
  }

  datatype Operation =
    | Derive(at: Id)
    | SetMeta(at: Id, key: Key, value: Option<Value>)
    | SetPayload(at: Id, key: Key, value: Option<Value>)
    | Emit(at: Id, event: Event)
    | Drain(at: Id, parts: Parts)
    | Apply(at: Id, items: Cell)     // into the cell below the context's own

  function Step(t: Tree, op: Operation): Tree
    requires Shape(t) && op.at in t.paths
  {
    var p := t.paths[op.at];
    assert PathOk(t, op.at);
    match op
    case Derive(_) => var b := |t.paths|; t.(paths := t.paths[b := p + [b]], cells := t.cells[b := EMPTY])
    case SetMeta(_, k, v) => Written(t, p, Cell(map[k := v], map[], []))
    case SetPayload(_, k, v) => Written(t, p, Cell(map[], map[k := v], []))
    case Emit(_, e) => Written(t, p, Cell(map[], map[], [e]))
    case Drain(a, parts) => Drained(t, a, parts)
    case Apply(_, items) => Written(t, Parent(p), items)
  }

  // ---------------------------------------------------------------- cells on top of each other

  lemma OnTopBoth(w: World, c: Cell, d: Cell)
    ensures OnTop(w, Both(c, d)) == OnTop(OnTop(w, c), d)
  {
    ThroughMerge(w.meta, c.meta, d.meta);
    ThroughMerge(w.payload, c.payload, d.payload);
    assert w.events + (c.events + d.events) == w.events + c.events + d.events;
  }

  lemma OnTopNothing(w: World)
    ensures OnTop(w, EMPTY) == w
  {
    ThroughNothing(w.meta);
    ThroughNothing(w.payload);
    assert w.events + [] == w.events;
  }

  lemma BothNothing(c: Cell)
    ensures Both(c, EMPTY) == c == Both(EMPTY, c)
  {
    assert c.meta + map[] == c.meta == map[] + c.meta && c.payload + map[] == c.payload == map[] + c.payload;
  }

  lemma BothAgain(a: Cell, b: Cell, c: Cell)
    ensures Both(Both(a, b), c) == Both(a, Both(b, c))
  {
    assert a.meta + b.meta + c.meta == a.meta + (b.meta + c.meta);
    assert a.payload + b.payload + c.payload == a.payload + (b.payload + c.payload);
    assert a.events + b.events + c.events == a.events + (b.events + c.events);
  }

  lemma TakenLeft(c: Cell, parts: Parts)
    ensures Both(Taken(c, parts), Left(c, parts)) == c
  {
    assert c.meta + map[] == c.meta == map[] + c.meta && c.payload + map[] == c.payload == map[] + c.payload;
  }

  /** A context reads what any of its ancestors reads, seen through the cells in between. */
  lemma {:induction false} Split(t: Tree, p: Path, j: nat)
    requires Known(t, p) && j <= |p|
    ensures View(t, p) == OnTop(View(t, p[..j]), Above(t, p, j))
    decreases |p|
  {
    hide OnTop, Both;
    if j == |p| {
      assert p[..j] == p;
      OnTopNothing(View(t, p));
    } else {
      var k := |p| - 1;
      Split(t, p[..k], j);
      assert p[..k][..j] == p[..j];
      OnTopBoth(View(t, p[..j]), Above(t, p[..k], j), t.cells[p[k]]);
    }
  }

  ghost predicate SameCells(t: Tree, t': Tree, p: Path, j: nat)
    requires Known(t, p) && Known(t', p)
  {
    forall i :: j <= i < |p| ==> t.cells[p[i]] == t'.cells[p[i]]
  }

  lemma {:induction false} AboveSame(t: Tree, t': Tree, p: Path, j: nat)
    requires Known(t, p) && Known(t', p) && j <= |p| && SameCells(t, t', p, j)
    ensures Above(t, p, j) == Above(t', p, j)
    decreases |p|
  {
    if j < |p| { AboveSame(t, t', p[..|p| - 1], j); }
  }

  lemma {:induction false} ViewSame(t: Tree, t': Tree, p: Path)
    requires Known(t, p) && Known(t', p) && t.base == t'.base && SameCells(t, t', p, 0)
    ensures View(t, p) == View(t', p)
    decreases |p|
  {
    if p != [] { ViewSame(t, t', p[..|p| - 1]); }
  }

  // ---------------------------------------------------------------- the shape of the tree

  lemma PathKnown(t: Tree, a: Id)
    requires Shape(t) && a in t.paths
    ensures Known(t, t.paths[a]) && t.paths[a] != []
  {
    assert PathOk(t, a);
  }

  /** A cell lies on a path exactly when the path of its context leads there. */
  lemma OnPath(t: Tree, a: Id, b: Id, i: nat)
    requires Shape(t) && a in t.paths && b in t.paths && i < |t.paths[b]| && t.paths[b][i] == a
    ensures t.paths[a] == t.paths[b][..i + 1] && t.paths[a] <= t.paths[b] && i == |t.paths[a]| - 1
  {
    assert PathOk(t, a) && PathOk(t, b);
  }

  lemma Distinct(t: Tree, b: Id)
    requires Shape(t) && b in t.paths
    ensures var p := t.paths[b]; forall i, j :: 0 <= i < j < |p| ==> p[i] != p[j]
  {
    assert PathOk(t, b);
    var p := t.paths[b];
    forall i, j | 0 <= i < j < |p| ensures p[i] != p[j] {
      assert |t.paths[p[i]]| == i + 1 && |t.paths[p[j]]| == j + 1;
    }
  }

  lemma Derived(t: Tree, a: Id)
    requires Shape(t) && a in t.paths
    ensures var (b, t') := (|t.paths|, Step(t, Derive(a)));
      Shape(t') && b !in t.paths && t'.paths[b] == t.paths[a] + [b]
  {
    var (b, t') := (|t.paths|, Step(t, Derive(a)));
    assert PathOk(t, a);
    forall c | c in t.paths ensures c < b { assert PathOk(t, c); }
    forall c | c in t'.paths ensures PathOk(t', c) {
      if c != b { assert PathOk(t, c); }
    }
  }

  lemma CellsChange(t: Tree, t': Tree)
    requires Shape(t) && t'.paths == t.paths && t'.cells.Keys == t.cells.Keys
    ensures Shape(t')
  {
    forall a | a in t'.paths ensures PathOk(t', a) { assert PathOk(t, a); }
  }

  lemma StepShape(t: Tree, op: Operation)
    requires Shape(t) && op.at in t.paths
    ensures Shape(Step(t, op)) && forall a :: a in t.paths ==> a in Step(t, op).paths && Step(t, op).paths[a] == t.paths[a]
  {
    hide Shape, Both, OnTop, Left;
    PathKnown(t, op.at);
    if op.Derive? {
      Derived(t, op.at);
    } else {
      var t' := Step(t, op);
      assert t'.cells.Keys == t.cells.Keys by { assert t.cells.Keys == t.paths.Keys by { ShapeKeys(t); } }
      CellsChange(t, t');
    }
  }

  lemma ShapeKeys(t: Tree)
    requires Shape(t)
    ensures t.cells.Keys == t.paths.Keys
  {
  }

  // ---------------------------------------------------------------- what one operation does to every context

  /** One cell replaced: only contexts that stack it read anything else. */
  lemma ReplacedSeen(t: Tree, a: Id, c: Cell, b: Id)
    requires Shape(t) && a in t.paths && b in t.paths
    requires Known(t, t.paths[a]) && Known(t, t.paths[b]) && t.paths[a] != []
    ensures Known(t.(cells := t.cells[a := c]), t.paths[b])
    ensures var (q, p, t') := (t.paths[a], t.paths[b], t.(cells := t.cells[a := c]));
      if q <= p then View(t', p) == OnTop(OnTop(View(t, Parent(q)), c), Above(t, p, |q|)) else View(t', p) == View(t, p)
  {
    hide OnTop, Both;
    var (q, p, t') := (t.paths[a], t.paths[b], t.(cells := t.cells[a := c]));
    if q <= p {
      var k := |q| - 1;
      assert p[k] == a by { assert PathOk(t, a); assert p[k] == q[k]; }
      Distinct(t, b);
      hide Shape;
      AboveSame(t, t', p, |q|);
      Split(t', p, |q|);
      assert p[..|q|] == q && q[..k] == p[..k] && q[k] == a;
      ViewSame(t, t', q[..k]);
    } else {
      forall i | 0 <= i < |p| ensures p[i] != a { if p[i] == a { OnPath(t, a, b, i); } }
      ViewSame(t, t', p);
    }
  }

  lemma ParentOk(t: Tree, a: Id)
    requires Shape(t) && a in t.paths
    ensures Known(t, t.paths[a]) && t.paths[a] != [] && Known(t, Parent(t.paths[a]))
    ensures var q := Parent(t.paths[a]); q == [] || (q[|q| - 1] in t.paths && t.paths[q[|q| - 1]] == q)
  {
    assert PathOk(t, a);
    var p := t.paths[a];
    if |p| > 1 {
      assert p[|p| - 2] in t.paths && t.paths[p[|p| - 2]] == p[..|p| - 1];
    }
  }

  /** The path of the executor's context or of a context of the tree. */
  ghost predicate IsPath(t: Tree, q: Path) {
    q == [] || (q[|q| - 1] in t.paths && t.paths[q[|q| - 1]] == q)
  }

  /** Whatever goes over the cell of one context, every context under it reads that context's new world
      through the cells in between, and every other context reads what it read. */
  lemma WrittenSeen(t: Tree, q: Path, c: Cell, b: Id)
    requires Shape(t) && b in t.paths && IsPath(t, q) && Known(t, q) && Known(t, t.paths[b])
    ensures Known(Written(t, q, c), t.paths[b])
    ensures var (p, t') := (t.paths[b], Written(t, q, c));
      if q <= p then View(t', p) == OnTop(OnTop(View(t, q), c), Above(t, p, |q|)) else View(t', p) == View(t, p)
  {
    hide OnTop, Both;
    var (p, t') := (t.paths[b], Written(t, q, c));
    if q == [] {
      Split(t', p, 0);
      AboveSame(t, t', p, 0);
      assert p[..0] == [];
    } else {
      var a := q[|q| - 1];
      ReplacedSeen(t, a, Both(t.cells[a], c), b);
      OnTopBoth(View(t, Parent(q)), t.cells[a], c);
    }
  }

  lemma PutThrough(s: Store, k: Key, v: Option<Value>, w: Writes)
    ensures Through(Through(s, map[k := v]), w) == if k in w then Through(s, w) else Put(Through(s, w), k, v)
  {
    SameStore(Through(Through(s, map[k := v]), w), if k in w then Through(s, w) else Put(Through(s, w), k, v));
  }

  /** A context that sets a key, with any number of contexts alive below and above it: a context reads
      the new value exactly when it is this one or derived from it and no cell in between holds the key.
      Nothing else changes for anybody. */
  lemma SetPayloadSeen(t: Tree, a: Id, k: Key, v: Option<Value>, b: Id)
    requires Shape(t) && a in t.paths && b in t.paths
    ensures Known(t, t.paths[a]) && Known(t, t.paths[b]) && Known(Step(t, SetPayload(a, k, v)), t.paths[b])
    ensures var (q, p) := (t.paths[a], t.paths[b]);
      View(Step(t, SetPayload(a, k, v)), p) ==
        if q <= p && k !in Above(t, p, |q|).payload then View(t, p).(payload := Put(View(t, p).payload, k, v)) else View(t, p)
  {
    var (q, p, c) := (t.paths[a], t.paths[b], Cell(map[], map[k := v], []));
    PathKnown(t, a);
    PathKnown(t, b);
    OwnPath(t, a);
    assert Step(t, SetPayload(a, k, v)) == Written(t, q, c);
    hide OnTop, Shape, Step, Written, Known, Put;
    WrittenSeen(t, q, c, b);
    if q <= p {
      assert p[..|q|] == q;
      Split(t, p, |q|);
      PayloadOnTop(View(t, q), k, v, Above(t, p, |q|));
    }
  }

  lemma OwnPath(t: Tree, a: Id)
    requires Shape(t) && a in t.paths
    ensures IsPath(t, t.paths[a])
  {
    assert PathOk(t, a);
  }

  lemma PayloadOnTop(w: World, k: Key, v: Option<Value>, above: Cell)
    ensures OnTop(OnTop(w, Cell(map[], map[k := v], [])), above) ==
      var r := OnTop(w, above); if k in above.payload then r else r.(payload := Put(r.payload, k, v))
  {
    ThroughNothing(w.meta);
    PutThrough(w.payload, k, v, above.payload);
    assert w.events + [] == w.events;
  }

  lemma MetaOnTop(w: World, k: Key, v: Option<Value>, above: Cell)
    ensures OnTop(OnTop(w, Cell(map[k := v], map[], [])), above) ==
      var r := OnTop(w, above); if k in above.meta then r else r.(meta := Put(r.meta, k, v))
  {
    ThroughNothing(w.payload);
    PutThrough(w.meta, k, v, above.meta);
    assert w.events + [] == w.events;
  }

  lemma SetMetaSeen(t: Tree, a: Id, k: Key, v: Option<Value>, b: Id)
    requires Shape(t) && a in t.paths && b in t.paths
    ensures Known(t, t.paths[a]) && Known(t, t.paths[b]) && Known(Step(t, SetMeta(a, k, v)), t.paths[b])
    ensures var (q, p) := (t.paths[a], t.paths[b]);
      View(Step(t, SetMeta(a, k, v)), p) ==
        if q <= p && k !in Above(t, p, |q|).meta then View(t, p).(meta := Put(View(t, p).meta, k, v)) else View(t, p)
  {
    var (q, p, c) := (t.paths[a], t.paths[b], Cell(map[k := v], map[], []));
    PathKnown(t, a);
    PathKnown(t, b);
    OwnPath(t, a);
    assert Step(t, SetMeta(a, k, v)) == Written(t, q, c);
    hide OnTop, Shape, Step, Written, Known, Put;
    WrittenSeen(t, q, c, b);
    if q <= p {
      assert p[..|q|] == q;
      Split(t, p, |q|);
      MetaOnTop(View(t, q), k, v, Above(t, p, |q|));
    }
  }

  /** An event goes after everything its context has seen and before what derived contexts hold back. */
  lemma EmitSeen(t: Tree, a: Id, e: Event, b: Id)
    requires Shape(t) && a in t.paths && b in t.paths
    ensures Known(t, t.paths[a]) && Known(t, t.paths[b]) && Known(Step(t, Emit(a, e)), t.paths[b])
    ensures var (q, p, w) := (t.paths[a], t.paths[b], View(t, t.paths[b]));
      View(Step(t, Emit(a, e)), p) ==
        if q <= p then w.(events := View(t, q).events + [e] + Above(t, p, |q|).events) else w
    ensures t.paths[a] <= t.paths[b] ==> View(t, t.paths[b]).events == View(t, t.paths[a]).events + Above(t, t.paths[b], |t.paths[a]|).events
  {
    var (q, p, c) := (t.paths[a], t.paths[b], Cell(map[], map[], [e]));
    assert IsPath(t, q) by { assert PathOk(t, a); }
    PathKnown(t, a);
    PathKnown(t, b);
    WrittenSeen(t, q, c, b);
    if q <= p {
      assert p[..|q|] == q;
      Split(t, p, |q|);
      ThroughNothing(View(t, q).meta);
      ThroughNothing(View(t, q).payload);
    }
  }

  /** A derived context reads what the one it came from reads; all others read what they read. */
  lemma DeriveSeen(t: Tree, a: Id, b: Id)
    requires Shape(t) && a in t.paths && b in t.paths
    ensures Known(t, t.paths[a]) && Known(t, t.paths[b])
    ensures var (t', new') := (Step(t, Derive(a)), |t.paths|);
      new' !in t.paths && new' in t'.paths && Known(t', t'.paths[new']) && Known(t', t.paths[b])
    ensures var (t', new') := (Step(t, Derive(a)), |t.paths|);
      View(t', t'.paths[new']) == View(t, t.paths[a]) && View(t', t.paths[b]) == View(t, t.paths[b]) && Parent(t'.paths[new']) == t.paths[a]
  {
    hide OnTop;
    PathKnown(t, a);
    PathKnown(t, b);
    Derived(t, a);
    var (t', c, q) := (Step(t, Derive(a)), |t.paths|, t.paths[a]);
    assert t'.cells.Keys == t.cells.Keys + {c} && c !in t.cells;
    assert forall i :: 0 <= i < |q| ==> q[i] != c && t'.cells[q[i]] == t.cells[q[i]];
    ViewSame(t, t', q);
    ViewSame(t, t', t.paths[b]);
    assert (q + [c])[..|q|] == q;
    OnTopNothing(View(t, q));
  }

  /** Items applied through a context go over the world of the context below it: that one, and all that are
      derived from it, this one included, read them through the cells in between. */
  lemma ApplySeen(t: Tree, a: Id, items: Cell, b: Id)
    requires Shape(t) && a in t.paths && b in t.paths
    ensures Known(t, t.paths[a]) && t.paths[a] != [] && Known(t, Parent(t.paths[a])) && Known(t, t.paths[b]) && Known(Step(t, Apply(a, items)), t.paths[b])
    ensures var (q, p) := (Parent(t.paths[a]), t.paths[b]);
      View(Step(t, Apply(a, items)), p) == if q <= p then OnTop(OnTop(View(t, q), items), Above(t, p, |q|)) else View(t, p)
  {
    hide OnTop;
    ParentOk(t, a);
    PathKnown(t, b);
    WrittenSeen(t, Parent(t.paths[a]), items, b);
  }

  // ---------------------------------------------------------------- commits and discards

  /** Some parts of one world, the others of another. */
  function Mixed(w: World, w': World, parts: Parts): World {
    World(if parts.meta then w'.meta else w.meta, if parts.payload then w'.payload else w.payload, if parts.events then w'.events else w.events)
  }

  function Committed(t: Tree, a: Id, parts: Parts): Tree
    requires Shape(t) && a in t.paths
  {
    assert PathOk(t, a);
    Written(Drained(t, a, parts), Parent(t.paths[a]), Taken(t.cells[a], parts))
  }

  lemma MixedOnTop(w: World, c: Cell, parts: Parts)
    ensures OnTop(w, Taken(c, parts)) == Mixed(w, OnTop(w, c), parts)
    ensures OnTop(w, Left(c, parts)) == Mixed(OnTop(w, c), w, parts)
  {
    ThroughNothing(w.meta);
    ThroughNothing(w.payload);
    assert w.events + [] == w.events;
  }

  /** A discard: this context and those derived from it read the parent's world in the parts discarded,
      each through its own cells; nobody else notices. */
  lemma DrainSeen(t: Tree, a: Id, parts: Parts, b: Id)
    requires Shape(t) && a in t.paths && b in t.paths
    ensures Known(t, t.paths[a]) && t.paths[a] != [] && Known(t, t.paths[b]) && Known(Drained(t, a, parts), t.paths[b])
    ensures var (q, p) := (t.paths[a], t.paths[b]);
      View(Drained(t, a, parts), p) ==
        if q <= p then OnTop(Mixed(View(t, q), View(t, Parent(q)), parts), Above(t, p, |q|)) else View(t, p)
  {
    hide OnTop, Mixed, Left;
    assert PathOk(t, a) && PathOk(t, b);
    ReplacedSeen(t, a, Left(t.cells[a], parts), b);
    MixedOnTop(View(t, Parent(t.paths[a])), t.cells[a], parts);
  }

  /** A commit: this context and all those derived from it read what they read. The parent reads, in the
      parts committed, what this context reads, and whatever else is derived from the parent sees that
      through its own cells. Nobody else notices. */
  lemma CommitSeen(t: Tree, a: Id, parts: Parts, b: Id)
    requires Shape(t) && a in t.paths && b in t.paths
    ensures Known(t, t.paths[a]) && t.paths[a] != [] && Known(t, t.paths[b]) && Known(Committed(t, a, parts), t.paths[b])
    ensures var (q, p) := (t.paths[a], t.paths[b]);
      View(Committed(t, a, parts), p) ==
        if q <= p || !(Parent(q) <= p) then View(t, p)
        else OnTop(Mixed(View(t, Parent(q)), View(t, q), parts), Above(t, p, |q| - 1))
  {
    hide OnTop, Mixed, Left, Taken, Both;
    var (q, p) := (t.paths[a], t.paths[b]);
    ParentOk(t, a);
    PathKnown(t, b);
    CommitKnown(t, a, parts, b);
    hide Shape, Known, Committed;
    if q <= p {
      CommitKeepsOwn(t, a, parts, b);
    } else {
      CommitBeside(t, a, parts, b);
    }
  }

  lemma CommitKnown(t: Tree, a: Id, parts: Parts, b: Id)
    requires Shape(t) && a in t.paths && b in t.paths
    ensures Known(Committed(t, a, parts), t.paths[b])
  {
    hide Left, Taken, Both, OnTop;
    ParentOk(t, a);
    PathKnown(t, b);
  }

  lemma CommitBeside(t: Tree, a: Id, parts: Parts, b: Id)
    requires Shape(t) && a in t.paths && b in t.paths && t.paths[a] != [] && Known(t, Parent(t.paths[a]))
    requires Known(t, t.paths[a]) && Known(t, t.paths[b]) && Known(Committed(t, a, parts), t.paths[b]) && !(t.paths[a] <= t.paths[b])
    ensures var (q, p) := (t.paths[a], t.paths[b]);
      View(Committed(t, a, parts), p) ==
        if Parent(q) <= p then OnTop(Mixed(View(t, Parent(q)), View(t, q), parts), Above(t, p, |q| - 1)) else View(t, p)
  {
    assert a in t.cells;
    OwnView(t, a);
    hide Shape, Known, OnTop, Mixed, Taken, Left, Both, View;
    var (q, t1) := (t.paths[a], Drained(t, a, parts));
    var (par, w) := (Parent(q), View(t, Parent(q)));
    DrainUnseen(t, a, parts, b, |par|);
    ParentKnown(t, a, parts);
    ParentUntouched(t, a, parts);
    MixedOnTop(w, t.cells[a], parts);
    hide Drained;
    WrittenSeen(t1, par, Taken(t.cells[a], parts), b);
  }

  lemma OwnView(t: Tree, a: Id)
    requires Shape(t) && a in t.paths && t.paths[a] != [] && Known(t, t.paths[a]) && Known(t, Parent(t.paths[a]))
    ensures View(t, t.paths[a]) == OnTop(View(t, Parent(t.paths[a])), t.cells[a])
  {
    assert PathOk(t, a);
  }

  lemma ParentKnown(t: Tree, a: Id, parts: Parts)
    requires Shape(t) && a in t.paths && t.paths[a] != []
    ensures var t1 := Drained(t, a, parts);
      Shape(t1) && Known(t1, Parent(t.paths[a])) && IsPath(t1, Parent(t.paths[a])) && t1.paths == t.paths
  {
    hide Left;
    CellsChange(t, Drained(t, a, parts));
    ParentOk(Drained(t, a, parts), a);
  }

  lemma DrainUnseen(t: Tree, a: Id, parts: Parts, b: Id, j: nat)
    requires Shape(t) && a in t.paths && b in t.paths && Known(t, t.paths[b]) && !(t.paths[a] <= t.paths[b])
    ensures var (t1, p) := (Drained(t, a, parts), t.paths[b]);
      Known(t1, p) && View(t1, p) == View(t, p) && (j <= |p| ==> Above(t1, p, j) == Above(t, p, j))
  {
    hide Left, OnTop, Both;
    var (t1, p) := (Drained(t, a, parts), t.paths[b]);
    forall i | 0 <= i < |p| ensures p[i] != a { if p[i] == a { OnPath(t, a, b, i); } }
    hide Shape;
    ViewSame(t, t1, p);
    if j <= |p| { AboveSame(t, t1, p, j); }
  }

  lemma ParentUntouched(t: Tree, a: Id, parts: Parts)
    requires Shape(t) && a in t.paths && a in t.cells
    requires Known(t, t.paths[a]) && t.paths[a] != [] && Known(Drained(t, a, parts), Parent(t.paths[a])) && Known(t, Parent(t.paths[a]))
    ensures View(Drained(t, a, parts), Parent(t.paths[a])) == View(t, Parent(t.paths[a]))
  {
    hide OnTop;
    var q := t.paths[a];
    Distinct(t, a);
    assert q[|q| - 1] == a by { assert PathOk(t, a); }
    ViewSame(t, Drained(t, a, parts), Parent(q));
  }

  lemma CommitKeepsOwn(t: Tree, a: Id, parts: Parts, b: Id)
    requires Shape(t) && a in t.paths && b in t.paths && t.paths[a] != []
    requires Known(t, t.paths[a]) && Known(t, t.paths[b]) && Known(Committed(t, a, parts), t.paths[b])
    requires t.paths[a] <= t.paths[b]
    ensures View(Committed(t, a, parts), t.paths[b]) == View(t, t.paths[b])
  {
    hide OnTop, Mixed, Left, Taken, Both;
    var (q, p, t1, t2) := (t.paths[a], t.paths[b], Drained(t, a, parts), Committed(t, a, parts));
    var (par, c, k) := (Parent(q), t.cells[a], |q| - 1);
    ParentOk(t, a);
    CellsChange(t, t1);
    assert Known(t1, par);
    ParentUntouched(t, a, parts);
    assert p[..|q|] == q && p[..k] == par && q[k] == a by { assert PathOk(t, a); }
    var w := View(t, par);
    assert View(t2, par) == OnTop(w, Taken(c, parts)) by {
      if par != [] {
        WrittenSeen(t1, par, Taken(c, parts), par[|par| - 1]);
        OnTopNothing(OnTop(View(t1, par), Taken(c, parts)));
      }
    }
    assert t2.cells[a] == Left(c, parts) by { Distinct(t, a); }
    assert View(t2, q) == OnTop(OnTop(w, Taken(c, parts)), Left(c, parts));
    OnTopBoth(w, Taken(c, parts), Left(c, parts));
    TakenLeft(c, parts);
    assert View(t2, q) == View(t, q);
    AboveKept(t, a, parts, b);
    Split(t2, p, |q|);
    Split(t, p, |q|);
  }

  lemma AboveKept(t: Tree, a: Id, parts: Parts, b: Id)
    requires Shape(t) && a in t.paths && b in t.paths && t.paths[a] != []
    requires Known(t, t.paths[a]) && Known(t, t.paths[b]) && Known(Committed(t, a, parts), t.paths[b])
    requires t.paths[a] <= t.paths[b]
    ensures Above(Committed(t, a, parts), t.paths[b], |t.paths[a]|) == Above(t, t.paths[b], |t.paths[a]|)
  {
    hide OnTop, Left, Taken, Both;
    var (q, p, t2) := (t.paths[a], t.paths[b], Committed(t, a, parts));
    ParentOk(t, a);
    Distinct(t, b);
    assert q[|q| - 1] == a by { assert PathOk(t, a); }
    forall i | |q| <= i < |p| ensures t.cells[p[i]] == t2.cells[p[i]] {
      assert p[|q| - 1] == a && p[i] != p[|q| - 1];
      assert |q| >= 2 ==> p[|q| - 2] == q[|q| - 2] && p[i] != p[|q| - 2];
    }
    AboveSame(t, t2, p, |q|);
  }

  // ---------------------------------------------------------------- whole runs

  /** An operation of a context that does not exist does nothing. */
  function Next(t: Tree, op: Operation): (r: Tree)
    requires Shape(t)
    ensures Shape(r) && forall a :: a in t.paths ==> a in r.paths && r.paths[a] == t.paths[a]
  {
    if op.at !in t.paths then t else StepShape(t, op); Step(t, op)
  }

  function Run(t: Tree, ops: seq<Operation>): (r: Tree)
    requires Shape(t)
    ensures Shape(r) && forall a :: a in t.paths ==> a in r.paths && r.paths[a] == t.paths[a]
    decreases |ops|
  {
    if ops == [] then t else Next(Run(t, ops[..|ops| - 1]), ops[|ops| - 1])
  }

  /** All operations are those of contexts that have `r` on their path. */
  ghost predicate Inside(t: Tree, ops: seq<Operation>, r: Path)
    requires Shape(t)
    decreases |ops|
  {
    ops == [] ||
    (Inside(t, ops[..|ops| - 1], r) &&
     var (before, a) := (Run(t, ops[..|ops| - 1]), ops[|ops| - 1].at); a in before.paths ==> r <= before.paths[a])
  }

  /** What the context `a` itself applied to the cell below it. */
  function Escaped(ops: seq<Operation>, a: Id): Cell
    decreases |ops|
  {
    if ops == [] then EMPTY
    else
      var op := ops[|ops| - 1];
      Both(Escaped(ops[..|ops| - 1], a), if op.Apply? && op.at == a then op.items else EMPTY)
  }

  /** The two trees hold the same for every context that `t` has outside the subtree of `r`. */
  ghost predicate SameOutside(t: Tree, t1: Tree, t2: Tree, r: Path) {
    t1.base == t2.base
    && forall b :: b in t.paths && !(r <= t.paths[b]) ==> b in t1.cells && b in t2.cells && t1.cells[b] == t2.cells[b]
  }

  lemma WrittenNothing(t: Tree, q: Path)
    requires Known(t, q)
    ensures Written(t, q, EMPTY) == t
  {
    if q == [] {
      OnTopNothing(t.base);
    } else {
      BothNothing(t.cells[q[|q| - 1]]);
    }
  }

  lemma InsideStep(t: Tree, op: Operation, a: Id)
    requires Shape(t) && a in t.paths && op.at in t.paths && t.paths[a] <= t.paths[op.at]
    requires t.paths[a] != [] && Known(t, Parent(t.paths[a]))
    ensures SameOutside(t, Step(t, op), Written(t, Parent(t.paths[a]), if op.Apply? && op.at == a then op.items else EMPTY), t.paths[a])
  {
    hide Both, OnTop, Left, Known;
    var (r, p) := (t.paths[a], t.paths[op.at]);
    ParentOk(t, a);
    ParentOk(t, op.at);
    WrittenNothing(t, Parent(r));
    if op.Apply? && op.at == a {
      SameAsItself(Written(t, Parent(r), op.items), r);
    } else if op.Derive? {
      Derived(t, op.at);
    } else {
      InsideCell(t, op, a);
    }
  }

  /** Everything but applying below `a` itself changes a cell of the subtree. */
  lemma InsideCell(t: Tree, op: Operation, a: Id)
    requires Shape(t) && a in t.paths && op.at in t.paths && t.paths[a] <= t.paths[op.at] && t.paths[a] != []
    requires !op.Derive? && !(op.Apply? && op.at == a)
    ensures SameOutside(t, Step(t, op), t, t.paths[a])
  {
    hide Both, OnTop, Left;
    var (r, p) := (t.paths[a], t.paths[op.at]);
    ParentOk(t, op.at);
    assert p[|p| - 1] == op.at by { assert PathOk(t, op.at); }
    if op.Apply? {
      var q := Parent(p);
      assert r <= q && q != [] by { ProperPrefix(t, a, op.at); }
      hide Shape;
      CellInside(t, q[|q| - 1], Both(t.cells[q[|q| - 1]], op.items), r);
    } else {
      var cell := Step(t, op).cells[op.at];
      assert Step(t, op) == t.(cells := t.cells[op.at := cell]);
      hide Shape;
      CellInside(t, op.at, cell, r);
    }
  }

  lemma ProperPrefix(t: Tree, a: Id, b: Id)
    requires Shape(t) && a in t.paths && b in t.paths && a != b && t.paths[a] <= t.paths[b] && t.paths[a] != [] && t.paths[b] != []
    ensures t.paths[a] <= Parent(t.paths[b]) && Parent(t.paths[b]) != []
  {
    assert PathOk(t, a) && PathOk(t, b);
    assert t.paths[a] != t.paths[b];
  }

  lemma CellInside(t: Tree, x: Id, cell: Cell, r: Path)
    requires t.cells.Keys == t.paths.Keys && x in t.paths && r <= t.paths[x]
    ensures SameOutside(t, t.(cells := t.cells[x := cell]), t, r)
  {
  }

  lemma SameAfter(t: Tree, t1: Tree, t2: Tree, q: Path, c: Cell, r: Path)
    requires SameOutside(t, t1, t2, r) && Known(t1, q) && Known(t2, q)
    requires q != [] ==> q[|q| - 1] in t.paths && !(r <= t.paths[q[|q| - 1]])
    ensures SameOutside(t, Written(t1, q, c), Written(t2, q, c), r)
  {
  }

  lemma WrittenTwice(t: Tree, q: Path, c: Cell, d: Cell)
    requires Known(t, q) && Known(Written(t, q, c), q)
    ensures Written(Written(t, q, c), q, d) == Written(t, q, Both(c, d))
  {
    hide Both, OnTop;
    if q == [] {
      OnTopBoth(t.base, c, d);
    } else {
      BothAgain(t.cells[q[|q| - 1]], c, d);
    }
  }

  /** Over any run of the contexts of one subtree, however they interleave, everything outside it stays
      as it was, but for what the subtree's own root applied below itself. */
  lemma {:induction false} RunInside(t: Tree, ops: seq<Operation>, a: Id)
    requires Shape(t) && a in t.paths && t.paths[a] != [] && Known(t, Parent(t.paths[a])) && Inside(t, ops, t.paths[a])
    ensures SameOutside(t, Run(t, ops), Written(t, Parent(t.paths[a]), Escaped(ops, a)), t.paths[a])
    decreases |ops|
  {
    hide Both, OnTop, Shape, Step, Known;
    var (r, q) := (t.paths[a], Parent(t.paths[a]));
    if ops == [] {
      WrittenNothing(t, q);
      ShapeKeys(t);
    } else {
      var k := |ops| - 1;
      RunInside(t, ops[..k], a);
      InsideNext(t, Run(t, ops[..k]), ops[k], a, Escaped(ops[..k], a));
    }
  }

  ghost predicate Extends(t: Tree, t': Tree) {
    forall a :: a in t.paths ==> a in t'.paths && t'.paths[a] == t.paths[a]
  }

  lemma SameOfMore(t: Tree, t': Tree, t1: Tree, t2: Tree, r: Path)
    requires Extends(t, t') && SameOutside(t', t1, t2, r)
    ensures SameOutside(t, t1, t2, r)
  {
  }

  lemma InsideNext(t: Tree, t1: Tree, op: Operation, a: Id, esc: Cell)
    requires Shape(t) && Shape(t1) && Extends(t, t1) && a in t.paths && a in t1.paths && t.paths[a] != [] && Known(t, Parent(t.paths[a]))
    requires SameOutside(t, t1, Written(t, Parent(t.paths[a]), esc), t.paths[a])
    requires op.at in t1.paths ==> t.paths[a] <= t1.paths[op.at]
    ensures var c := if op.Apply? && op.at == a then op.items else EMPTY;
      SameOutside(t, Next(t1, op), Written(t, Parent(t.paths[a]), Both(esc, c)), t.paths[a])
  {
    hide Both, OnTop, Shape, Step, Known, SameOutside, Written;
    var (r, q) := (t.paths[a], Parent(t.paths[a]));
    var c := if op.Apply? && op.at == a then op.items else EMPTY;
    ParentOk(t, a);
    ParentOk(t1, a);
    var t2 := Written(t, q, esc);
    KnownAfter(t, q, esc);
    if op.at in t1.paths {
      InsideStep(t1, op, a);
    } else {
      WrittenNothing(t1, q);
      SameAsItself(t1, r);
    }
    SameOfMore(t, t1, Next(t1, op), Written(t1, q, c), r);
    SameAfter(t, t1, t2, q, c, r);
    WrittenTwice(t, q, esc, c);
    SameSame(t, Next(t1, op), Written(t1, q, c), Written(t2, q, c), r);
  }

  lemma SameSame(t: Tree, t1: Tree, t2: Tree, t3: Tree, r: Path)
    requires SameOutside(t, t1, t2, r) && SameOutside(t, t2, t3, r)
    ensures SameOutside(t, t1, t3, r)
  {
  }

  lemma SameAsItself(t: Tree, r: Path)
    requires Shape(t)
    ensures SameOutside(t, t, t, r)
  {
  }

  lemma KnownAfter(t: Tree, q: Path, c: Cell)
    requires Known(t, q)
    ensures Known(Written(t, q, c), q)
  {
  }

  lemma OutsideView(t: Tree, t1: Tree, t2: Tree, r: Path, b: Id)
    requires Shape(t) && SameOutside(t, t1, t2, r) && b in t.paths && !(r <= t.paths[b])
    ensures var p := t.paths[b]; Known(t1, p) && Known(t2, p) && View(t1, p) == View(t2, p)
    ensures forall i :: 0 <= i < |t.paths[b]| ==> t1.cells[t.paths[b][i]] == t2.cells[t.paths[b][i]]
  {
    hide View;
    var p := t.paths[b];
    assert PathOk(t, b);
    forall i | 0 <= i < |p| ensures p[i] in t1.cells && p[i] in t2.cells && t1.cells[p[i]] == t2.cells[p[i]] {
      assert t.paths[p[i]] == p[..i + 1];
      assert r <= p[..i + 1] ==> r <= p;
    }
    ViewSame(t1, t2, p);
  }

  // ---------------------------------------------------------------- whole nested calls

  lemma AboveOutside(t: Tree, t1: Tree, a: Id, c: Cell, b: Id)
    requires Shape(t) && a in t.paths && b in t.paths && t.paths[a] != [] && Known(t, Parent(t.paths[a])) && Known(t, t.paths[b])
    requires SameOutside(t, t1, Written(t, Parent(t.paths[a]), c), t.paths[a])
    requires Parent(t.paths[a]) <= t.paths[b] && !(t.paths[a] <= t.paths[b]) && Known(t1, t.paths[b])
    ensures Above(t1, t.paths[b], |t.paths[a]| - 1) == Above(t, t.paths[b], |t.paths[a]| - 1)
  {
    hide Both, OnTop;
    var (r, q, p) := (t.paths[a], Parent(t.paths[a]), t.paths[b]);
    var t2 := Written(t, q, c);
    OutsideView(t, t1, t2, r, b);
    Distinct(t, b);
    forall i | |q| <= i < |p| ensures t1.cells[p[i]] == t.cells[p[i]] {
      assert |q| > 0 ==> p[|q| - 1] == q[|q| - 1] && p[i] != p[|q| - 1];
    }
    AboveSame(t1, t, p, |q|);
  }

  /** What a context outside the subtree of `a` reads after any run inside it. */
  lemma InsideSeen(t: Tree, ops: seq<Operation>, a: Id, b: Id)
    requires Shape(t) && a in t.paths && b in t.paths && Inside(t, ops, t.paths[a]) && !(t.paths[a] <= t.paths[b])
    ensures Known(t, t.paths[a]) && t.paths[a] != [] && Known(t, Parent(t.paths[a])) && Known(t, t.paths[b]) && Known(Run(t, ops), t.paths[b])
    ensures var (q, p) := (Parent(t.paths[a]), t.paths[b]);
      View(Run(t, ops), p) ==
        if q <= p then OnTop(OnTop(View(t, q), Escaped(ops, a)), Above(t, p, |q|)) else View(t, p)
    ensures Parent(t.paths[a]) <= t.paths[b] ==>
      Above(Run(t, ops), t.paths[b], |t.paths[a]| - 1) == Above(t, t.paths[b], |t.paths[a]| - 1)
  {
    hide Both, OnTop, Shape, Known;
    var (r, q, p) := (t.paths[a], Parent(t.paths[a]), t.paths[b]);
    ParentOk(t, a);
    PathKnown(t, b);
    RunInside(t, ops, a);
    OutsideView(t, Run(t, ops), Written(t, q, Escaped(ops, a)), r, b);
    assert IsPath(t, q);
    WrittenSeen(t, q, Escaped(ops, a), b);
    if q <= p { AboveOutside(t, Run(t, ops), a, Escaped(ops, a), b); }
  }

  /** A failed nested call, whatever the contexts of its subtree did: every context outside reads what
      it read, but for what the called contract itself applied below its own cell, which stays. The
      called contract, used again, starts from what its caller reads then. */
  lemma FailedCall(t: Tree, body: seq<Operation>, a: Id, b: Id)
    requires Shape(t) && a in t.paths && b in t.paths && Inside(t, body, t.paths[a]) && !(t.paths[a] <= t.paths[b])
    ensures var after := Drained(Run(t, body), a, ALL);
      Known(after, t.paths[a]) && Known(after, t.paths[b]) && Known(after, Parent(t.paths[a])) && Known(t, t.paths[b]) && Known(t, Parent(t.paths[a]))
    ensures var (after, q, p) := (Drained(Run(t, body), a, ALL), Parent(t.paths[a]), t.paths[b]);
      View(after, p) == if q <= p then OnTop(OnTop(View(t, q), Escaped(body, a)), Above(t, p, |q|)) else View(t, p)
    ensures var (after, r) := (Drained(Run(t, body), a, ALL), t.paths[a]); View(after, r) == View(after, Parent(r))
    ensures Escaped(body, a) == EMPTY ==> View(Drained(Run(t, body), a, ALL), t.paths[b]) == View(t, t.paths[b])
  {
    hide Both, OnTop, Shape, Inside, Escaped, Run;
    var (t1, r, q, p) := (Run(t, body), t.paths[a], Parent(t.paths[a]), t.paths[b]);
    ParentOk(t, a);
    ParentOk(t1, a);
    InsideSeen(t, body, a, b);
    DrainSeen(t1, a, ALL, b);
    ShapeKeys(t1);
    assert Known(Drained(t1, a, ALL), q);
    DrainSeen(t1, a, ALL, a);
    OnTopNothing(View(t1, q));
    ParentUntouched(t1, a, ALL);
    if Escaped(body, a) == EMPTY {
      OnTopNothing(View(t, q));
      if q <= p {
        assert p[..|q|] == q;
        Split(t, p, |q|);
      }
    }
  }

  /** A successful nested call: in the parts committed the caller reads exactly the world the call ended
      with, contexts derived from the caller see it through their own cells, and nobody else notices. */
  lemma SuccessfulCall(t: Tree, body: seq<Operation>, a: Id, parts: Parts, b: Id)
    requires Shape(t) && a in t.paths && b in t.paths && Inside(t, body, t.paths[a]) && !(t.paths[a] <= t.paths[b])
    ensures Known(Committed(Run(t, body), a, parts), t.paths[b]) && Known(Run(t, body), t.paths[a]) && t.paths[a] != []
    ensures Known(t, t.paths[b]) && Known(t, Parent(t.paths[a])) && Known(Run(t, body), Parent(t.paths[a]))
    ensures var (after, q, p) := (Committed(Run(t, body), a, parts), Parent(t.paths[a]), t.paths[b]);
      View(after, p) ==
        if q <= p then OnTop(Mixed(View(Run(t, body), q), View(Run(t, body), t.paths[a]), parts), Above(t, p, |q|)) else View(t, p)
  {
    hide Both, OnTop, Mixed, Shape, Inside, Escaped, Run, Known;
    var (t1, q, p) := (Run(t, body), Parent(t.paths[a]), t.paths[b]);
    ParentOk(t, a);
    ParentOk(t1, a);
    InsideSeen(t, body, a, b);
    CommitSeen(t1, a, parts, b);
  }

  /** 0 is the caller, 1 the nested contract, 2 the module context of the latter. */
  const NESTED: Tree := Tree(map[0 := [0], 1 := [0, 1], 2 := [0, 1, 2]], map[0 := EMPTY, 1 := EMPTY, 2 := EMPTY], World(map[], map[], []))

  /** A module call that sets one key, applied as the contract's transfers are. */
  function Transfer(key: Key, v: Value): seq<Operation> {
    [SetPayload(2, key, Some(v)), Drain(2, ALL), Apply(1, Cell(map[], map[key := Some(v)], []))]
  }

  /** A nested contract whose transfer went through and that fails afterwards: its caller, which read
      nothing under the key, reads what the transfer wrote. */
  lemma TransferOutlivesFailure(key: Key, v: Value)
    ensures Shape(NESTED) && Inside(NESTED, Transfer(key, v), [0, 1]) && Known(NESTED, [0])
    ensures Get(View(NESTED, [0]).payload, key) == None
    ensures 1 in Run(NESTED, Transfer(key, v)).cells && Known(Drained(Run(NESTED, Transfer(key, v)), 1, ALL), [0])
    ensures Get(View(Drained(Run(NESTED, Transfer(key, v)), 1, ALL), [0]).payload, key) == Some(v)
  {
    ThreeContexts(NESTED);
    ReadsNothing(NESTED, key);
    TransferInside(NESTED, Transfer(key, v));
    EscapedIs(Transfer(key, v), Cell(map[], map[key := Some(v)], []));
    hide Inside, Run, Shape, Escaped, Transfer, View;
    var (t, body) := (NESTED, Transfer(key, v));
    ShapeKeys(Run(t, body));
    FailedCall(t, body, 1, 0);
    assert Parent([0, 1]) == [0];
    assert Above(t, [0], 1) == EMPTY;
    OnTopNothing(OnTop(View(t, [0]), Cell(map[], map[key := Some(v)], [])));
  }

  lemma ThreeContexts(t: Tree)
    requires t.paths == map[0 := [0], 1 := [0, 1], 2 := [0, 1, 2]] && t.cells.Keys == {0, 1, 2}
    ensures Shape(t)
  {
    assert |t.paths| == 3 by { assert t.paths.Keys == {0, 1, 2}; }
    assert [0, 1][..1] == [0] && [0, 1, 2][..1] == [0] && [0, 1, 2][..2] == [0, 1];
    assert PathOk(t, 0) && PathOk(t, 1) && PathOk(t, 2);
  }

  lemma TransferInside(t: Tree, body: seq<Operation>)
    requires Shape(t) && t.paths == map[0 := [0], 1 := [0, 1], 2 := [0, 1, 2]]
    requires |body| == 3 && body[0].at == 2 && body[1].at == 2 && body[2].at == 1
    ensures Inside(t, body, [0, 1])
  {
    hide Shape;
    assert body[..2][..1] == body[..1] && body[..1][..0] == [];
    var (t1, t2) := (Run(t, body[..1]), Run(t, body[..2]));
    assert [0, 1] <= [0, 1, 2];
    assert Inside(t, [], [0, 1]) && Run(t, []) == t;
    assert Inside(t, body[..1], [0, 1]);
    assert Inside(t, body[..2], [0, 1]);
  }

  lemma EscapedIs(body: seq<Operation>, paid: Cell)
    requires |body| == 3 && !body[0].Apply? && !body[1].Apply? && body[2] == Apply(1, paid)
    ensures Escaped(body, 1) == paid
  {
    assert body[..2][..1] == body[..1] && body[..1][..0] == [];
    assert Escaped(body[..1], 1) == Both(EMPTY, EMPTY);
    BothNothing(EMPTY);
    BothNothing(paid);
  }

  lemma ReadsNothing(t: Tree, key: Key)
    requires Known(t, [0]) && 0 in t.cells && t.cells[0] == EMPTY && t.base == World(map[], map[], [])
    ensures Get(View(t, [0]).payload, key) == None
  {
    assert [0][..0] == [];
  }
}
