/** Nested calls: a stack of shared write buffers over the executor's context, as values. Level 0 is
    the base, level j the context with j buffers; the innermost context is the one that runs. */
module Overlay {
  import opened ExecutorContext

  datatype Nest = Nest(meta: seq<Writes>, payload: seq<Writes>, events: seq<seq<Event>>, base: World)

  ghost predicate Level(n: Nest) {
    |n.meta| == |n.payload| == |n.events| >= 1
  }

  function Stacked(s: Store, levels: seq<Writes>): Store {
    if levels == [] then s else Through(Stacked(s, levels[..|levels| - 1]), levels[|levels| - 1])
  }

  function Joined(levels: seq<seq<Event>>): seq<Event> {
    if levels == [] then [] else Joined(levels[..|levels| - 1]) + levels[|levels| - 1]
  }

  /** What each context reads, from the base to the innermost: entry `j` is the world of the context
      with the first `j` buffers. */
  function Views(n: Nest): (ws: seq<World>)
    requires |n.meta| == |n.payload| == |n.events|
    ensures |ws| == |n.payload| + 1
  {
    Zip(Prefixes(n.base.meta, n.meta), Prefixes(n.base.payload, n.payload), Histories(n.base.events, n.events))
  }

  function Zip(ms: seq<Store>, ps: seq<Store>, hs: seq<seq<Event>>): (ws: seq<World>)
    requires |ms| == |ps| == |hs|
    ensures |ws| == |ms|
    ensures forall j :: 0 <= j < |ws| ==> ws[j] == World(ms[j], ps[j], hs[j])
  {
    seq(|ms|, j requires 0 <= j < |ms| => World(ms[j], ps[j], hs[j]))
  }

  datatype Operation =
    | Derive
    | Leave
    | SetMeta(key: Key, value: Option<Value>)
    | SetPayload(key: Key, value: Option<Value>)
    | Emit(event: Event)
    | CommitMeta
    | CommitPayload
    | CommitEvents
    | DiscardMeta
    | DiscardPayload
    | DiscardEvents

  /** The buffer under the innermost one receives the innermost one's writes; with a single buffer
      the base does. */
  function Merged(levels: seq<Writes>): seq<Writes>
    requires |levels| >= 1
  {
    var k := |levels| - 1;
    if k == 0 then [map[]] else levels[..k - 1] + [levels[k - 1] + levels[k], map[]]
  }

  function MergedEvents(levels: seq<seq<Event>>): seq<seq<Event>>
    requires |levels| >= 1
  {
    var k := |levels| - 1;
    if k == 0 then [[]] else levels[..k - 1] + [levels[k - 1] + levels[k], []]
  }

  /** One operation of the innermost context on the buffers. */
  function Step(n: Nest, op: Operation): (r: Nest)
    requires Level(n)
    ensures Level(r)
  {
    var k := |n.payload| - 1;
    match op
    case Derive => n.(meta := n.meta + [map[]], payload := n.payload + [map[]], events := n.events + [[]])
    case Leave => if k == 0 then n else n.(meta := n.meta[..k], payload := n.payload[..k], events := n.events[..k])
    case SetMeta(key, v) => n.(meta := n.meta[k := Insert(n.meta[k], key, v)])
    case SetPayload(key, v) => n.(payload := n.payload[k := Insert(n.payload[k], key, v)])
    case Emit(e) => n.(events := n.events[k := n.events[k] + [e]])
    case CommitMeta =>
      var base := if k == 0 then n.base.(meta := Through(n.base.meta, n.meta[0])) else n.base;
      n.(meta := Merged(n.meta), base := base)
    case CommitPayload =>
      var base := if k == 0 then n.base.(payload := Through(n.base.payload, n.payload[0])) else n.base;
      n.(payload := Merged(n.payload), base := base)
    case CommitEvents =>
      var base := if k == 0 then n.base.(events := n.base.events + n.events[0]) else n.base;
      n.(events := MergedEvents(n.events), base := base)
    case DiscardMeta => n.(meta := n.meta[k := map[]])
    case DiscardPayload => n.(payload := n.payload[k := map[]])
    case DiscardEvents => n.(events := n.events[k := []])
  }

  /** The reference: every level holds its whole world. A commit copies a part of the innermost world
      one level down, a discard copies it one level up; nothing else moves between levels. */
  function Reference(ws: seq<World>, op: Operation): (r: seq<World>)
    requires |ws| >= 2
    ensures |r| >= 2
  {
    var k := |ws| - 1;
    var (inner, outer) := (ws[k], ws[k - 1]);
    match op
    case Derive => ws + [inner]
    case Leave => if k == 1 then ws else ws[..k]
    case SetMeta(key, v) => ws[k := inner.(meta := Put(inner.meta, key, v))]
    case SetPayload(key, v) => ws[k := inner.(payload := Put(inner.payload, key, v))]
    case Emit(e) => ws[k := inner.(events := inner.events + [e])]
    case CommitMeta => ws[k - 1 := outer.(meta := inner.meta)]
    case CommitPayload => ws[k - 1 := outer.(payload := inner.payload)]
    case CommitEvents => ws[k - 1 := outer.(events := inner.events)]
    case DiscardMeta => ws[k := inner.(meta := outer.meta)]
    case DiscardPayload => ws[k := inner.(payload := outer.payload)]
    case DiscardEvents => ws[k := inner.(events := outer.events)]
  }

  // ---------------------------------------------------------------- one stack of buffers

  function Prefixes(s: Store, levels: seq<Writes>): (r: seq<Store>)
    ensures |r| == |levels| + 1
  {
    seq(|levels| + 1, j requires 0 <= j <= |levels| => Stacked(s, levels[..j]))
  }

  lemma StackedLast(s: Store, levels: seq<Writes>, j: nat)
    requires j < |levels|
    ensures Stacked(s, levels[..j + 1]) == Through(Stacked(s, levels[..j]), levels[j])
  {
    assert levels[..j + 1][..j] == levels[..j];
  }

  /** Replacing the innermost buffer changes the innermost store alone. */
  lemma ReplaceLast(s: Store, levels: seq<Writes>, w: Writes)
    requires |levels| >= 1
    ensures var k := |levels| - 1;
      Prefixes(s, levels[k := w]) == Prefixes(s, levels)[k + 1 := Through(Stacked(s, levels[..k]), w)]
  {
    hide Stacked, Through;
    var k := |levels| - 1;
    var changed := levels[k := w];
    assert forall j :: 0 <= j <= k ==> changed[..j] == levels[..j];
    StackedLast(s, changed, k);
    assert changed[..k + 1] == changed;
  }

  lemma PushEmpty(s: Store, levels: seq<Writes>)
    ensures var p := Prefixes(s, levels); Prefixes(s, levels + [map[]]) == p + [p[|levels|]]
  {
    var more := levels + [map[]];
    assert forall j :: 0 <= j <= |levels| ==> more[..j] == levels[..j];
    StackedLast(s, more, |levels|);
    assert more[..|levels| + 1] == more && levels[..|levels|] == levels;
    ThroughNothing(Stacked(s, levels));
  }

  lemma Shorter(s: Store, levels: seq<Writes>)
    requires |levels| >= 1
    ensures var k := |levels| - 1; Prefixes(s, levels[..k]) == Prefixes(s, levels)[..k + 1]
  {
    var k := |levels| - 1;
    assert forall j :: 0 <= j <= k ==> levels[..k][..j] == levels[..j];
  }

  lemma PutLast(s: Store, levels: seq<Writes>, key: Key, v: Option<Value>)
    requires |levels| >= 1
    ensures var (k, p) := (|levels| - 1, Prefixes(s, levels));
      Prefixes(s, levels[k := Insert(levels[k], key, v)]) == p[k + 1 := Put(p[k + 1], key, v)]
  {
    var k := |levels| - 1;
    ReplaceLast(s, levels, Insert(levels[k], key, v));
    StackedLast(s, levels, k);
    ThroughPut(Stacked(s, levels[..k]), levels[k], key, v);
  }

  lemma DiscardLast(s: Store, levels: seq<Writes>)
    requires |levels| >= 1
    ensures var (k, p) := (|levels| - 1, Prefixes(s, levels)); Prefixes(s, levels[k := map[]]) == p[k + 1 := p[k]]
  {
    ReplaceLast(s, levels, map[]);
    ThroughNothing(Stacked(s, levels[..|levels| - 1]));
  }

  lemma StackedMerged(s: Store, levels: seq<Writes>)
    requires |levels| >= 2
    ensures var (k, after) := (|levels| - 1, Merged(levels));
      Stacked(s, after[..k]) == Stacked(s, after[..k + 1]) == Stacked(s, levels[..k + 1])
  {
    hide Through, Stacked;
    var k := |levels| - 1;
    var after := Merged(levels);
    assert after[..k - 1] == levels[..k - 1];
    StackedLast(s, after, k - 1);
    StackedLast(s, after, k);
    StackedLast(s, levels, k - 1);
    StackedLast(s, levels, k);
    ThroughMerge(Stacked(s, levels[..k - 1]), levels[k - 1], levels[k]);
    ThroughNothing(Stacked(s, after[..k]));
  }

  lemma MergeInner(s: Store, levels: seq<Writes>)
    requires |levels| >= 2
    ensures var (k, p) := (|levels| - 1, Prefixes(s, levels)); Prefixes(s, Merged(levels)) == p[k := p[k + 1]]
  {
    hide Stacked;
    var k := |levels| - 1;
    var after := Merged(levels);
    assert forall j :: 0 <= j <= k - 1 ==> after[..j] == levels[..j];
    StackedMerged(s, levels);
  }

  lemma MergeOutermost(s: Store, levels: seq<Writes>)
    requires |levels| == 1
    ensures var p := Prefixes(s, levels); Prefixes(Through(s, levels[0]), Merged(levels)) == p[0 := p[1]]
  {
    var s' := Through(s, levels[0]);
    StackedLast(s, levels, 0);
    StackedLast(s', Merged(levels), 0);
    assert levels[..0] == [] && Merged(levels)[..0] == [];
    ThroughNothing(s');
  }

  // ---------------------------------------------------------------- one stack of journals

  function Histories(s: seq<Event>, levels: seq<seq<Event>>): (r: seq<seq<Event>>)
    ensures |r| == |levels| + 1
  {
    seq(|levels| + 1, j requires 0 <= j <= |levels| => s + Joined(levels[..j]))
  }

  lemma JoinedLast(levels: seq<seq<Event>>, j: nat)
    requires j < |levels|
    ensures Joined(levels[..j + 1]) == Joined(levels[..j]) + levels[j]
  {
    assert levels[..j + 1][..j] == levels[..j];
  }

  lemma ReplaceLastJournal(s: seq<Event>, levels: seq<seq<Event>>, es: seq<Event>)
    requires |levels| >= 1
    ensures var k := |levels| - 1;
      Histories(s, levels[k := es]) == Histories(s, levels)[k + 1 := Histories(s, levels)[k] + es]
  {
    var k := |levels| - 1;
    var changed := levels[k := es];
    assert forall j :: 0 <= j <= k ==> changed[..j] == levels[..j];
    JoinedLast(changed, k);
    assert s + (Joined(levels[..k]) + es) == s + Joined(levels[..k]) + es;
  }

  lemma EmitLast(s: seq<Event>, levels: seq<seq<Event>>, e: Event)
    requires |levels| >= 1
    ensures var (k, h) := (|levels| - 1, Histories(s, levels));
      Histories(s, levels[k := levels[k] + [e]]) == h[k + 1 := h[k + 1] + [e]]
  {
    var k := |levels| - 1;
    ReplaceLastJournal(s, levels, levels[k] + [e]);
    JoinedLast(levels, k);
    var before := Joined(levels[..k]);
    assert s + before + (levels[k] + [e]) == s + (before + levels[k]) + [e];
  }

  lemma PushJournal(s: seq<Event>, levels: seq<seq<Event>>)
    ensures Histories(s, levels + [[]]) == Histories(s, levels) + [Histories(s, levels)[|levels|]]
  {
    var more := levels + [[]];
    assert forall j :: 0 <= j <= |levels| ==> more[..j] == levels[..j];
    JoinedLast(more, |levels|);
    assert Joined(more[..|levels| + 1]) == Joined(levels[..|levels|]);
  }

  lemma ShorterJournal(s: seq<Event>, levels: seq<seq<Event>>)
    requires |levels| >= 1
    ensures var k := |levels| - 1; Histories(s, levels[..k]) == Histories(s, levels)[..k + 1]
  {
    var k := |levels| - 1;
    assert forall j :: 0 <= j <= k ==> levels[..k][..j] == levels[..j];
  }

  lemma DiscardJournal(s: seq<Event>, levels: seq<seq<Event>>)
    requires |levels| >= 1
    ensures var (k, h) := (|levels| - 1, Histories(s, levels)); Histories(s, levels[k := []]) == h[k + 1 := h[k]]
  {
    ReplaceLastJournal(s, levels, []);
    var h := Histories(s, levels)[|levels| - 1];
    assert h + [] == h;
  }

  lemma JoinedMerged(levels: seq<seq<Event>>)
    requires |levels| >= 2
    ensures var (k, after) := (|levels| - 1, MergedEvents(levels));
      Joined(after[..k]) == Joined(after[..k + 1]) == Joined(levels[..k + 1])
  {
    var k := |levels| - 1;
    var after := MergedEvents(levels);
    assert after[..k - 1] == levels[..k - 1];
    JoinedLast(after, k - 1);
    JoinedLast(after, k);
    JoinedLast(levels, k - 1);
    JoinedLast(levels, k);
    var before := Joined(levels[..k - 1]);
    assert before + (levels[k - 1] + levels[k]) == before + levels[k - 1] + levels[k];
  }

  lemma MergeJournals(s: seq<Event>, levels: seq<seq<Event>>)
    requires |levels| >= 2
    ensures var (k, h) := (|levels| - 1, Histories(s, levels)); Histories(s, MergedEvents(levels)) == h[k := h[k + 1]]
  {
    hide Joined;
    var k := |levels| - 1;
    var after := MergedEvents(levels);
    assert forall j :: 0 <= j <= k - 1 ==> after[..j] == levels[..j];
    JoinedMerged(levels);
  }

  lemma MergeOutermostJournal(s: seq<Event>, levels: seq<seq<Event>>)
    requires |levels| == 1
    ensures var h := Histories(s, levels); Histories(s + levels[0], MergedEvents(levels)) == h[0 := h[1]]
  {
    JoinedLast(levels, 0);
    JoinedLast(MergedEvents(levels), 0);
    assert levels[..0] == [] && MergedEvents(levels)[..0] == [];
    assert s + ([] + levels[0]) == s + levels[0] + [];
  }

  // ---------------------------------------------------------------- the refinement

  lemma MetaStep(n: Nest, op: Operation)
    requires Level(n) && (op.SetMeta? || op.CommitMeta? || op.DiscardMeta?)
    ensures Views(Step(n, op)) == Reference(Views(n), op)
  {
    hide Stacked, Joined, Prefixes, Histories, Merged, MergedEvents, Through, Zip, Put;
    var (s, levels, k) := (n.base.meta, n.meta, |n.meta| - 1);
    if op.SetMeta? { PutLast(s, levels, op.key, op.value); }
    else if op.DiscardMeta? { DiscardLast(s, levels); }
    else if k == 0 { MergeOutermost(s, levels); }
    else { MergeInner(s, levels); }
  }

  lemma PayloadStep(n: Nest, op: Operation)
    requires Level(n) && (op.SetPayload? || op.CommitPayload? || op.DiscardPayload?)
    ensures Views(Step(n, op)) == Reference(Views(n), op)
  {
    hide Stacked, Joined, Prefixes, Histories, Merged, MergedEvents, Through, Zip, Put;
    var (s, levels, k) := (n.base.payload, n.payload, |n.payload| - 1);
    if op.SetPayload? { PutLast(s, levels, op.key, op.value); }
    else if op.DiscardPayload? { DiscardLast(s, levels); }
    else if k == 0 { MergeOutermost(s, levels); }
    else { MergeInner(s, levels); }
  }

  lemma EventStep(n: Nest, op: Operation)
    requires Level(n) && (op.Emit? || op.CommitEvents? || op.DiscardEvents?)
    ensures Views(Step(n, op)) == Reference(Views(n), op)
  {
    hide Stacked, Joined, Prefixes, Histories, Merged, MergedEvents, Through, Zip, Put;
    var (s, levels, k) := (n.base.events, n.events, |n.events| - 1);
    if op.Emit? { EmitLast(s, levels, op.event); }
    else if op.DiscardEvents? { DiscardJournal(s, levels); }
    else if k == 0 { MergeOutermostJournal(s, levels); }
    else { MergeJournals(s, levels); }
  }

  lemma DeriveStep(n: Nest)
    requires Level(n)
    ensures Views(Step(n, Derive)) == Reference(Views(n), Derive)
  {
    hide Stacked, Joined, Prefixes, Histories, Zip;
    PushEmpty(n.base.meta, n.meta);
    PushEmpty(n.base.payload, n.payload);
    PushJournal(n.base.events, n.events);
  }

  lemma LeaveStep(n: Nest)
    requires Level(n)
    ensures Views(Step(n, Leave)) == Reference(Views(n), Leave)
  {
    hide Stacked, Joined, Prefixes, Histories, Zip;
    var k := |n.payload| - 1;
    if k > 0 {
      Shorter(n.base.meta, n.meta);
      Shorter(n.base.payload, n.payload);
      ShorterJournal(n.base.events, n.events);
    }
  }

  /** Shared buffers behave as whole worlds per level, whatever the depth: a commit leaves the child's
      reads alone and makes the parent's equal to them, a discard restores the parent's view. */
  lemma StepRefines(n: Nest, op: Operation)
    requires Level(n)
    ensures Views(Step(n, op)) == Reference(Views(n), op)
  {
    hide Views, Step, Reference;
    match op
    case Derive => DeriveStep(n);
    case Leave => LeaveStep(n);
    case SetMeta(_, _) => MetaStep(n, op);
    case CommitMeta => MetaStep(n, op);
    case DiscardMeta => MetaStep(n, op);
    case SetPayload(_, _) => PayloadStep(n, op);
    case CommitPayload => PayloadStep(n, op);
    case DiscardPayload => PayloadStep(n, op);
    case Emit(_) => EventStep(n, op);
    case CommitEvents => EventStep(n, op);
    case DiscardEvents => EventStep(n, op);
  }

  function Run(n: Nest, ops: seq<Operation>): (r: Nest)
    requires Level(n)
    ensures Level(r)
    decreases |ops|
  {
    if ops == [] then n else Step(Run(n, ops[..|ops| - 1]), ops[|ops| - 1])
  }

  function ReferenceRun(ws: seq<World>, ops: seq<Operation>): (r: seq<World>)
    requires |ws| >= 2
    ensures |r| >= 2
    decreases |ops|
  {
    if ops == [] then ws else Reference(ReferenceRun(ws, ops[..|ops| - 1]), ops[|ops| - 1])
  }

  lemma {:induction false} RunRefines(n: Nest, ops: seq<Operation>)
    requires Level(n)
    ensures Views(Run(n, ops)) == ReferenceRun(Views(n), ops)
    decreases |ops|
  {
    if ops != [] {
      RunRefines(n, ops[..|ops| - 1]);
      StepRefines(Run(n, ops[..|ops| - 1]), ops[|ops| - 1]);
    }
  }

  // ---------------------------------------------------------------- whole nested calls

  /** How deep the body of a nested call ends, counted from the level it was entered at (1 is the
      call's own level); `None` when it leaves, or commits out of, its own level on the way. */
  function Depth(body: seq<Operation>): (d: Option<nat>)
    ensures d.Some? ==> d.value >= 1
    decreases |body|
  {
    if body == [] then Some(1)
    else
      var (before, op) := (Depth(body[..|body| - 1]), body[|body| - 1]);
      if before.None? then None
      else if op.Derive? then Some(before.value + 1)
      else if op.Leave? then (if before.value > 1 then Some(before.value - 1) else None)
      else if op.CommitMeta? || op.CommitPayload? || op.CommitEvents? then (if before.value > 1 then before else None)
      else before
  }

  /** The body of a nested call reaches no level under its own. */
  lemma {:induction false} BodyKeepsCallers(ws: seq<World>, body: seq<Operation>)
    requires |ws| >= 2 && Depth(body).Some?
    ensures var (c, r) := (|ws| - 1, ReferenceRun(ws, body)); |r| == c + Depth(body).value && r[..c] == ws[..c]
    decreases |body|
  {
    if body != [] {
      var k := |body| - 1;
      BodyKeepsCallers(ws, body[..k]);
      assert Depth(body[..k]).Some?;
    }
  }

  const COMMIT_ALL: seq<Operation> := [CommitMeta, CommitPayload, CommitEvents]
  const DISCARD_ALL: seq<Operation> := [DiscardMeta, DiscardPayload, DiscardEvents]

  lemma {:induction false} RunConcat(n: Nest, ops: seq<Operation>, ops': seq<Operation>)
    requires Level(n)
    ensures Run(n, ops + ops') == Run(Run(n, ops), ops')
    decreases |ops'|
  {
    if ops' == [] {
      assert ops + [] == ops;
    } else {
      var k := |ops'| - 1;
      RunConcat(n, ops, ops'[..k]);
      assert (ops + ops')[..|ops| + k] == ops + ops'[..k];
    }
  }

  lemma RunSnoc(n: Nest, ops: seq<Operation>, op: Operation)
    requires Level(n)
    ensures Run(n, ops + [op]) == Step(Run(n, ops), op)
  {
    assert (ops + [op])[..|ops|] == ops;
  }

  lemma RunTwo(n: Nest, a: Operation, b: Operation)
    requires Level(n)
    ensures Run(n, [a, b]) == Step(Step(n, a), b)
  {
    assert Run(n, []) == n;
    hide Step, Run;
    assert [] + [a] == [a];
    RunSnoc(n, [], a);
    assert [a] + [b] == [a, b];
    RunSnoc(n, [a], b);
  }

  /** Three operations, then the innermost context goes away. */
  lemma RunFour(n: Nest, a: Operation, b: Operation, c: Operation, d: Operation)
    requires Level(n)
    ensures Run(n, [a, b, c] + [d]) == Step(Step(Step(Step(n, a), b), c), d)
  {
    hide Step, Run;
    RunTwo(n, a, b);
    var three := [a, b] + [c];
    assert three == [a, b, c];
    RunSnoc(n, [a, b], c);
    RunSnoc(n, three, d);
  }

  lemma FourViews(n: Nest, a: Operation, b: Operation, c: Operation, d: Operation)
    requires Level(n)
    ensures Views(Run(n, [a, b, c] + [d])) == Reference(Reference(Reference(Reference(Views(n), a), b), c), d)
  {
    hide Step, Run, Reference, Views;
    RunFour(n, a, b, c, d);
    StepRefines(n, a);
    var n1 := Step(n, a);
    StepRefines(n1, b);
    var n2 := Step(n1, b);
    StepRefines(n2, c);
    StepRefines(Step(n2, c), d);
  }

  lemma {:induction false} EnterRun(n: Nest, body: seq<Operation>)
    requires Level(n) && Depth(body) == Some(1)
    ensures var (ws, r) := (Views(n), Views(Run(n, [Derive] + body)));
      |r| == |ws| + 1 && r[..|ws|] == ws
  {
    hide Views, Step, ReferenceRun;
    var ws := Views(n);
    RunConcat(n, [Derive], body);
    RunSnoc(n, [], Derive);
    assert [] + [Derive] == [Derive];
    var entered := Run(n, [Derive]);
    StepRefines(n, Derive);
    RunRefines(entered, body);
    BodyKeepsCallers(Views(entered), body);
  }

  /** A failed nested call, of any body and depth, leaves every context on the stack as it was. */
  lemma {:induction false} FailedCall(n: Nest, body: seq<Operation>)
    requires Level(n) && Depth(body) == Some(1)
    ensures Views(Run(n, [Derive] + body + (DISCARD_ALL + [Leave]))) == Views(n)
  {
    hide Views, Run, Step;
    EnterRun(n, body);
    RunConcat(n, [Derive] + body, DISCARD_ALL + [Leave]);
    FourViews(Run(n, [Derive] + body), DiscardMeta, DiscardPayload, DiscardEvents, Leave);
  }

  /** A successful one hands its caller exactly the world it ended with and touches no other. */
  lemma {:induction false} SuccessfulCall(n: Nest, body: seq<Operation>)
    requires Level(n) && Depth(body) == Some(1)
    ensures var (ws, inner) := (Views(n), Views(Run(n, [Derive] + body)));
      |inner| == |ws| + 1 && Views(Run(n, [Derive] + body + (COMMIT_ALL + [Leave]))) == ws[|ws| - 1 := inner[|ws|]]
  {
    hide Views, Run, Step;
    EnterRun(n, body);
    RunConcat(n, [Derive] + body, COMMIT_ALL + [Leave]);
    FourViews(Run(n, [Derive] + body), CommitMeta, CommitPayload, CommitEvents, Leave);
  }

  // ---------------------------------------------------------------- a module called from a contract

  /** A module call runs one level above the contract but is applied through the contract's own
      context, so its payload writes land one level under the contract's buffer. */
  function ModuleApplied(n: Nest): (r: Nest)
    requires Level(n) && |n.payload| >= 2
    ensures Level(r)
  {
    var k := |n.payload| - 1;
    if k == 1 then n.(payload := [n.payload[0], map[]], base := n.base.(payload := Through(n.base.payload, n.payload[1])))
    else n.(payload := n.payload[k := map[]][k - 2 := n.payload[k - 2] + n.payload[k]])
  }

  lemma StackedTop(s: Store, levels: seq<Writes>, key: Key)
    requires |levels| >= 2 && levels[|levels| - 1] == map[]
    ensures var k := |levels| - 1;
      Get(Stacked(s, levels), key) == if key in levels[k - 1] then levels[k - 1][key] else Get(Stacked(s, levels[..k - 1]), key)
  {
    hide Stacked, Through;
    var k := |levels| - 1;
    StackedLast(s, levels, k - 1);
    StackedLast(s, levels, k);
    assert levels[..k + 1] == levels;
  }

  /** The contract reads a value the module wrote exactly when its own buffer holds nothing for that
      key, or already holds that value. */
  lemma ModuleWriteSeen(n: Nest, key: Key)
    requires Level(n) && |n.payload| >= 2 && key in n.payload[|n.payload| - 1]
    ensures var (k, r) := (|n.payload| - 1, ModuleApplied(n)); var written := n.payload[k][key];
      Get(Views(r)[k + 1].payload, key) == written <==> key !in n.payload[k - 1] || n.payload[k - 1][key] == written
  {
    var (k, r) := (|n.payload| - 1, ModuleApplied(n));
    StackedTop(r.base.payload, r.payload, key);
    assert r.payload[..k + 1] == r.payload;
    if k == 1 {
      assert r.payload[..0] == [];
    } else {
      StackedLast(r.base.payload, r.payload, k - 2);
    }
  }

  lemma ModuleWriteHidden()
    ensures exists n: Nest, key: Key :: Level(n) && |n.payload| == 2 && key in n.payload[1] &&
                                       Get(Views(ModuleApplied(n))[2].payload, key) != n.payload[1][key]
  {
    var n := Nest([map[], map[]], [map[Slot(0, 0) := Some(1)], map[Slot(0, 0) := Some(2)]], [[], []], World(map[], map[], []));
    ModuleWriteSeen(n, Slot(0, 0));
  }
}
