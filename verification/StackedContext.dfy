/** The nested contexts as they live in memory: a child copies its parent's list of buffers and adds
    one of its own, so parent and child share every other buffer. */
module StackedContext {
  import opened ExecutorContext
  import opened Overlay

  class Buffer {
    var items: Writes

    constructor ()
      ensures items == map[]
    {
      items := map[];
    }
  }

  class Journal {
    var events: seq<Event>

    constructor ()
      ensures events == []
    {
      events := [];
    }
  }

  ghost function Contents(stack: seq<Buffer>): (r: seq<Writes>)
    reads stack
    ensures |r| == |stack| && forall i :: 0 <= i < |stack| ==> r[i] == stack[i].items
  {
    seq(|stack|, i requires 0 <= i < |stack| reads stack => stack[i].items)
  }

  ghost function Entries(stack: seq<Journal>): (r: seq<seq<Event>>)
    reads stack
    ensures |r| == |stack| && forall i :: 0 <= i < |stack| ==> r[i] == stack[i].events
  {
    seq(|stack|, i requires 0 <= i < |stack| reads stack => stack[i].events)
  }

  /** Setting the items one after another in a plain store. */
  function PutAll(s: Store, items: seq<Item>): Store {
    if items == [] then s
    else var (k, v) := items[|items| - 1]; Put(PutAll(s, items[..|items| - 1]), k, v)
  }

  lemma {:induction false} PutAllDrained(s: Store, items: seq<Item>, drained: Writes)
    requires Enumerates(items, drained)
    ensures PutAll(s, items) == Through(s, drained)
    decreases |items|
  {
    if items == [] {
      ThroughNothing(s);
    } else {
      var (k, v) := items[|items| - 1];
      PutAllDrained(s, items[..|items| - 1], drained - {k});
      ThroughPut(s, drained - {k}, k, v);
      assert (drained - {k})[k := v] == drained;
    }
  }

  lemma {:induction false} StackedGet(s: Store, levels: seq<Writes>, i: nat, key: Key)
    requires i <= |levels| && forall j :: i <= j < |levels| ==> key !in levels[j]
    ensures Get(Stacked(s, levels), key) == Get(Stacked(s, levels[..i]), key)
    decreases |levels|
  {
    hide Through;
    if i == |levels| {
      assert levels[..i] == levels;
    } else {
      var k := |levels| - 1;
      StackedGet(s, levels[..k], i, key);
      assert levels[..k][..i] == levels[..i];
    }
  }

  /** The innermost level that holds the key decides. */
  lemma StackedHit(s: Store, levels: seq<Writes>, i: nat, key: Key)
    requires i < |levels| && key in levels[i] && forall j :: i < j < |levels| ==> key !in levels[j]
    ensures Get(Stacked(s, levels), key) == levels[i][key]
  {
    StackedGet(s, levels, i + 1, key);
    StackedLast(s, levels, i);
  }

  function MetaApplied(n: Nest, items: seq<Item>): Nest
    requires Level(n)
  {
    var k := |n.payload| - 2;
    if k >= 0 then n.(meta := n.meta[k := Extended(n.meta[k], items)])
    else n.(base := n.base.(meta := PutAll(n.base.meta, items)))
  }

  lemma MetaDrainApply(n: Nest, items: seq<Item>)
    requires Level(n) && Enumerates(items, n.meta[|n.meta| - 1])
    ensures MetaApplied(Step(n, DiscardMeta), items) == Step(n, CommitMeta)
  {
    hide Extended, Enumerates, PutAll;
    var k := |n.meta| - 1;
    if k >= 1 {
      ExtendedByDrained(n.meta[k - 1], items, n.meta[k]);
    } else {
      PutAllDrained(n.base.meta, items, n.meta[0]);
    }
  }

  function PayloadApplied(n: Nest, items: seq<Item>): Nest
    requires Level(n)
  {
    var k := |n.payload| - 2;
    if k >= 0 then n.(payload := n.payload[k := Extended(n.payload[k], items)])
    else n.(base := n.base.(payload := PutAll(n.base.payload, items)))
  }

  lemma PayloadDrainApply(n: Nest, items: seq<Item>)
    requires Level(n) && Enumerates(items, n.payload[|n.payload| - 1])
    ensures PayloadApplied(Step(n, DiscardPayload), items) == Step(n, CommitPayload)
  {
    hide Extended, Enumerates, PutAll;
    var k := |n.payload| - 1;
    if k >= 1 {
      ExtendedByDrained(n.payload[k - 1], items, n.payload[k]);
    } else {
      PutAllDrained(n.base.payload, items, n.payload[0]);
    }
  }

  lemma DerivedReads(n: Nest)
    requires Level(n)
    ensures var k := |n.payload|; Views(Step(n, Derive))[k + 1] == Views(n)[k]
  {
    hide Views;
    StepRefines(n, Derive);
  }

  /** One key has the value, every other reads as before. */
  ghost predicate OneWritten(s: Store, after: Store, key: Key, value: Option<Value>) {
    Get(after, key) == value && forall k: Key :: k != key ==> Get(after, k) == Get(s, k)
  }

  lemma MetaWritten(n: Nest, key: Key, value: Option<Value>)
    requires Level(n)
    ensures var (k, r) := (|n.payload|, Step(n, SetMeta(key, value)));
      |r.payload| == k && OneWritten(Views(n)[k].meta, Views(r)[k].meta, key, value)
      && Views(r)[k] == Views(n)[k].(meta := Views(r)[k].meta)
  {
    hide Views;
    StepRefines(n, SetMeta(key, value));
  }

  lemma PayloadWritten(n: Nest, key: Key, value: Option<Value>)
    requires Level(n)
    ensures var (k, r) := (|n.payload|, Step(n, SetPayload(key, value)));
      |r.payload| == k && OneWritten(Views(n)[k].payload, Views(r)[k].payload, key, value)
      && Views(r)[k] == Views(n)[k].(payload := Views(r)[k].payload)
  {
    hide Views;
    StepRefines(n, SetPayload(key, value));
  }

  lemma EventEmitted(n: Nest, e: Event)
    requires Level(n)
    ensures var (k, r) := (|n.payload|, Step(n, Emit(e)));
      |r.payload| == k && Views(r)[k] == Views(n)[k].(events := Views(n)[k].events + [e])
  {
    hide Views;
    StepRefines(n, Emit(e));
  }

  method Scan(stack: seq<Buffer>, key: Key) returns (hit: Option<Option<Value>>)
    ensures forall s :: Get(Stacked(s, Contents(stack)), key) == if hit.Some? then hit.value else Get(s, key)
  {
    var i := |stack|;
    ghost var levels := Contents(stack);
    while i > 0
      invariant 0 <= i <= |stack|
      invariant forall j :: i <= j < |stack| ==> key !in stack[j].items
    {
      i := i - 1;
      if key in stack[i].items {
        hit := Some(stack[i].items[key]);
        forall s ensures Get(Stacked(s, levels), key) == hit.value { StackedHit(s, levels, i, key); }
        return;
      }
    }
    forall s ensures Get(Stacked(s, levels), key) == Get(s, key) { StackedGet(s, levels, 0, key); }
    hit := None;
  }

  /** No two positions share a cell, within a stack or between the two buffer stacks. */
  ghost predicate Distinct(meta: seq<Buffer>, payload: seq<Buffer>, events: seq<Journal>) {
    (forall i, j :: 0 <= i < j < |meta| ==> meta[i] != meta[j])
    && (forall i, j :: 0 <= i < j < |payload| ==> payload[i] != payload[j])
    && (forall i, j :: 0 <= i < j < |events| ==> events[i] != events[j])
    && (forall i, j :: 0 <= i < |meta| && 0 <= j < |payload| ==> meta[i] != payload[j])
  }

  lemma DistinctMore(meta: seq<Buffer>, payload: seq<Buffer>, events: seq<Journal>, m: Buffer, p: Buffer, e: Journal)
    requires Distinct(meta, payload, events)
    requires m !in meta && m !in payload && p !in meta && p !in payload && m != p && e !in events
    ensures Distinct(meta + [m], payload + [p], events + [e])
  {
  }

  class Stack {
    const base: Context
    const meta: seq<Buffer>
    const payload: seq<Buffer>
    const events: seq<Journal>

    ghost predicate Valid() {
      |meta| == |payload| == |events| >= 1 && Distinct(meta, payload, events)
    }

    ghost function Snapshot(): (n: Nest)
      requires Valid()
      reads base, meta, payload, events
      ensures Level(n)
    {
      Nest(Contents(meta), Contents(payload), Entries(events), base.Observed())
    }

    /** Everything this context can read. */
    ghost function Reads(): World
      requires Valid()
      reads base, meta, payload, events
    {
      Views(Snapshot())[|payload|]
    }

    constructor (base: Context)
      ensures Valid() && this.base == base && |payload| == 1
      ensures fresh(meta[0]) && fresh(payload[0]) && fresh(events[0])
      ensures Reads() == base.Observed()
    {
      var m := new Buffer();
      var p := new Buffer();
      var e := new Journal();
      this.base, meta, payload, events := base, [m], [p], [e];
      new;
      ghost var n := Snapshot();
      ThroughNothing(n.base.meta);
      ThroughNothing(n.base.payload);
      assert n.meta[..0] == [] && n.payload[..0] == [] && n.events[..0] == [];
      StackedLast(n.base.meta, n.meta, 0);
      StackedLast(n.base.payload, n.payload, 0);
      JoinedLast(n.events, 0);
    }

    constructor Over(base: Context, meta: seq<Buffer>, payload: seq<Buffer>, events: seq<Journal>)
      ensures this.base == base && this.meta == meta && this.payload == payload && this.events == events
    {
      this.base, this.meta, this.payload, this.events := base, meta, payload, events;
    }

    /** The child shares every buffer of its parent and reads the same world. */
    method DeriveChild() returns (child: Stack)
      requires Valid()
      ensures fresh(child) && child.Valid() && ParentOf(this, child)
      ensures child.Snapshot() == Step(Snapshot(), Derive)
      ensures child.Reads() == Reads()
    {
      hide Views, Distinct, Contents, Entries, Merged, MergedEvents, Through;
      child := PushCells();
      DerivedReads(Snapshot());
    }

    method PushCells() returns (child: Stack)
      requires Valid()
      ensures fresh(child) && child.Valid() && ParentOf(this, child)
      ensures Contents(child.meta) == Contents(meta) + [map[]] && Contents(child.payload) == Contents(payload) + [map[]]
      ensures Entries(child.events) == Entries(events) + [[]]
    {
      hide Distinct, Contents, Entries;
      var m := new Buffer();
      var p := new Buffer();
      var e := new Journal();
      DistinctMore(meta, payload, events, m, p, e);
      child := new Stack.Over(base, meta + [m], payload + [p], events + [e]);
    }

    method MetaGet(key: Key) returns (r: Option<Value>)
      requires Valid()
      ensures r == Get(Reads().meta, key)
    {
      var hit := Scan(meta, key);
      ghost var n := Snapshot();
      assert n.meta[..|meta|] == n.meta;
      if hit.Some? { return hit.value; }
      r := base.MetaGet(key);
    }

    method PayloadGet(key: Key) returns (r: Option<Value>)
      requires Valid()
      ensures r == Get(Reads().payload, key)
    {
      var hit := Scan(payload, key);
      ghost var n := Snapshot();
      assert n.payload[..|payload|] == n.payload;
      if hit.Some? { return hit.value; }
      r := base.PayloadGet(key);
    }

    method MetaSet(key: Key, value: Option<Value>)
      requires Valid()
      modifies meta[|meta| - 1]
      ensures Snapshot() == Step(old(Snapshot()), SetMeta(key, value))
      ensures OneWritten(old(Reads()).meta, Reads().meta, key, value)
      ensures Reads() == old(Reads()).(meta := Reads().meta)
    {
      hide Views, OneWritten;
      ghost var n := Snapshot();
      var buffer := meta[|meta| - 1];
      buffer.items := buffer.items[key := value];
      MetaWritten(n, key, value);
    }

    method PayloadSet(key: Key, value: Option<Value>)
      requires Valid()
      modifies payload[|payload| - 1]
      ensures Snapshot() == Step(old(Snapshot()), SetPayload(key, value))
      ensures OneWritten(old(Reads()).payload, Reads().payload, key, value)
      ensures Reads() == old(Reads()).(payload := Reads().payload)
    {
      hide Views, OneWritten;
      ghost var n := Snapshot();
      var buffer := payload[|payload| - 1];
      buffer.items := buffer.items[key := value];
      PayloadWritten(n, key, value);
    }

    method EmitEvent(e: Event)
      requires Valid()
      modifies events[|events| - 1]
      ensures Snapshot() == Step(old(Snapshot()), Emit(e))
      ensures Reads() == old(Reads()).(events := old(Reads()).events + [e])
    {
      hide Views;
      ghost var n := Snapshot();
      var journal := events[|events| - 1];
      journal.events := journal.events + [e];
      EventEmitted(n, e);
    }

    method MetaDrain() returns (items: seq<Item>)
      requires Valid()
      modifies meta[|meta| - 1]
      ensures Snapshot() == Step(old(Snapshot()), DiscardMeta)
      ensures Enumerates(items, old(meta[|meta| - 1].items))
    {
      var buffer := meta[|meta| - 1];
      items := DrainMap(buffer.items);
      buffer.items := map[];
    }

    method PayloadDrain() returns (items: seq<Item>)
      requires Valid()
      modifies payload[|payload| - 1]
      ensures Snapshot() == Step(old(Snapshot()), DiscardPayload)
      ensures Enumerates(items, old(payload[|payload| - 1].items))
    {
      var buffer := payload[|payload| - 1];
      items := DrainMap(buffer.items);
      buffer.items := map[];
    }

    method DrainEvents() returns (es: seq<Event>)
      requires Valid()
      modifies events[|events| - 1]
      ensures Snapshot() == Step(old(Snapshot()), DiscardEvents)
      ensures es == old(events[|events| - 1].events)
    {
      var journal := events[|events| - 1];
      es := journal.events;
      journal.events := [];
    }

    /** The level is picked by the height of the payload stack; the three stacks have one height. */
    method MetaApply(items: seq<Item>)
      requires Valid()
      modifies if |payload| >= 2 then {meta[|payload| - 2]} else {}, base`metaTx
      ensures Snapshot() == MetaApplied(old(Snapshot()), items)
    {
      if |payload| >= 2 {
        var under := meta[|payload| - 2];
        under.items := ExtendMap(under.items, items);
      } else {
        for i := 0 to |items|
          invariant base.Meta() == PutAll(old(base.Meta()), items[..i])
        {
          assert items[..i + 1][..i] == items[..i];
          base.MetaSet(items[i].0, items[i].1);
        }
        assert items[..|items|] == items;
      }
    }

    method PayloadApply(items: seq<Item>)
      requires Valid()
      modifies if |payload| >= 2 then {payload[|payload| - 2]} else {}, base`payloadTx
      ensures Snapshot() == PayloadApplied(old(Snapshot()), items)
    {
      if |payload| >= 2 {
        var under := payload[|payload| - 2];
        under.items := ExtendMap(under.items, items);
      } else {
        for i := 0 to |items|
          invariant base.Payload() == PutAll(old(base.Payload()), items[..i])
        {
          assert items[..i + 1][..i] == items[..i];
          base.PayloadSet(items[i].0, items[i].1);
        }
        assert items[..|items|] == items;
      }
    }

    method ApplyEvents(es: seq<Event>)
      requires Valid()
      modifies if |events| >= 2 then {events[|events| - 2]} else {}, base`events
      ensures var (n, k) := (old(Snapshot()), |events| - 2);
        Snapshot() == if k >= 0 then n.(events := n.events[k := n.events[k] + es])
                      else n.(base := n.base.(events := n.base.events + es))
    {
      if |events| >= 2 {
        var under := events[|events| - 2];
        under.events := under.events + es;
      } else {
        for i := 0 to |es|
          invariant base.events == old(base.events) + es[..i]
        {
          base.EmitEvent(es[i]);
        }
      }
    }
  }

  ghost predicate ParentOf(p: Stack, c: Stack) {
    var k := |p.payload|;
    p.base == c.base && |c.payload| == k + 1 && |c.meta| == k + 1 && |c.events| == k + 1
    && p.meta == c.meta[..k] && p.payload == c.payload[..k] && p.events == c.events[..k]
  }

  method CommitMetaOf(c: Stack)
    requires c.Valid()
    modifies c.meta, c.base`metaTx
    ensures c.Snapshot() == Step(old(c.Snapshot()), CommitMeta)
  {
    hide Step, MetaApplied;
    ghost var n := c.Snapshot();
    var items := c.MetaDrain();
    MetaDrainApply(n, items);
    c.MetaApply(items);
  }

  method CommitPayloadOf(c: Stack)
    requires c.Valid()
    modifies c.payload, c.base`payloadTx
    ensures c.Snapshot() == Step(old(c.Snapshot()), CommitPayload)
  {
    hide Step, PayloadApplied;
    ghost var n := c.Snapshot();
    var items := c.PayloadDrain();
    PayloadDrainApply(n, items);
    c.PayloadApply(items);
  }

  method CommitEventsOf(c: Stack)
    requires c.Valid()
    modifies c.events, c.base`events
    ensures c.Snapshot() == Step(old(c.Snapshot()), CommitEvents)
  {
    var es := c.DrainEvents();
    c.ApplyEvents(es);
  }

  method CommitAll(c: Stack)
    requires c.Valid()
    modifies c.meta, c.payload, c.events, c.base`metaTx, c.base`payloadTx, c.base`events
    ensures c.Snapshot() == Step(Step(Step(old(c.Snapshot()), CommitMeta), CommitPayload), CommitEvents)
  {
    hide Step;
    CommitMetaOf(c);
    CommitPayloadOf(c);
    CommitEventsOf(c);
  }

  method DiscardAll(c: Stack)
    requires c.Valid()
    modifies c.meta, c.payload, c.events
    ensures c.Snapshot() == Step(Step(Step(old(c.Snapshot()), DiscardMeta), DiscardPayload), DiscardEvents)
  {
    hide Step;
    var items := c.MetaDrain();
    items := c.PayloadDrain();
    var es := c.DrainEvents();
  }

  /** A parent's memory is the child's without the innermost buffers. */
  lemma ParentReads(p: Stack, c: Stack)
    requires p.Valid() && c.Valid() && ParentOf(p, c)
    ensures p.Reads() == Views(c.Snapshot())[|p.payload|]
  {
    hide Views;
    var n := c.Snapshot();
    LeaveStep(n);
    assert p.Snapshot() == Step(n, Leave);
    assert Views(Step(n, Leave)) == Reference(Views(n), Leave);
  }

  lemma CommittedReads(n: Nest)
    requires Level(n)
    ensures var (k, r) := (|n.payload|, Step(Step(Step(n, CommitMeta), CommitPayload), CommitEvents));
      |r.payload| == k && Views(r)[k] == Views(r)[k - 1] == Views(n)[k]
  {
    hide Views, Merged, MergedEvents;
    StepRefines(n, CommitMeta);
    var n1 := Step(n, CommitMeta);
    StepRefines(n1, CommitPayload);
    StepRefines(Step(n1, CommitPayload), CommitEvents);
  }

  lemma DiscardedReads(n: Nest)
    requires Level(n)
    ensures var (k, r) := (|n.payload|, Step(Step(Step(n, DiscardMeta), DiscardPayload), DiscardEvents));
      |r.payload| == k && Views(r)[k] == Views(r)[k - 1] == Views(n)[k - 1]
  {
    hide Views, Merged, MergedEvents;
    StepRefines(n, DiscardMeta);
    var n1 := Step(n, DiscardMeta);
    StepRefines(n1, DiscardPayload);
    StepRefines(Step(n1, DiscardPayload), DiscardEvents);
  }

  /** The end of a nested call, seen from both objects: on success parent and child both read what the
      child read, on failure both read what the parent read. */
  method Finish(parent: Stack, child: Stack, success: bool)
    requires parent.Valid() && child.Valid() && ParentOf(parent, child)
    modifies child.meta, child.payload, child.events, child.base`metaTx, child.base`payloadTx, child.base`events
    ensures child.Reads() == parent.Reads() == if success then old(child.Reads()) else old(parent.Reads())
  {
    hide Step, Views, Distinct, Contents, Entries;
    ghost var n := child.Snapshot();
    ParentReads(parent, child);
    if success {
      CommittedReads(n);
      CommitAll(child);
    } else {
      DiscardedReads(n);
      DiscardAll(child);
    }
    ParentReads(parent, child);
  }
}
