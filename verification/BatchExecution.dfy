/** `execute_txs`: a batch of calls run against the buffered context, and the same batch run one
    call after another on plain stores. */
module BatchExecution {
  import opened ExecutorContext

  datatype Space = MetaSpace | PayloadSpace

  /** A call as the context sees it: which reads, writes and events follow which answers. */
  datatype Program =
    | Return(result: Value)
    | Fail(error: nat)
    | Abort
    | Load(space: Space, key: Key, next: Option<Value> -> Program)
    | Save(space: Space, key: Key, value: Option<Value>, rest: Program)
    | Emit(event: Event, rest: Program)

  datatype Outcome = Returned(value: Value) | Failed(error: nat) | Aborted

  function Read(w: World, space: Space, key: Key): Option<Value> {
    if space == MetaSpace then Get(w.meta, key) else Get(w.payload, key)
  }

  function Write(w: World, space: Space, key: Key, v: Option<Value>): World {
    if space == MetaSpace then w.(meta := Put(w.meta, key, v)) else w.(payload := Put(w.payload, key, v))
  }

  /** The call on plain stores. A call that is not over after `steps` accesses breaks off; one that
      ends by itself is covered by every larger `steps`. */
  function Run(p: Program, w: World, steps: nat): (World, Outcome)
    decreases steps
  {
    match p
    case Return(v) => (w, Returned(v))
    case Fail(e) => (w, Failed(e))
    case Abort => (w, Aborted)
    case Load(space, key, next) => if steps == 0 then (w, Aborted) else Run(next(Read(w, space, key)), w, steps - 1)
    case Save(space, key, v, rest) => if steps == 0 then (w, Aborted) else Run(rest, Write(w, space, key, v), steps - 1)
    case Emit(e, rest) => if steps == 0 then (w, Aborted) else Run(rest, w.(events := w.events + [e]), steps - 1)
  }

  lemma {:induction false} StepsDoNotMatter(p: Program, w: World, steps: nat, more: nat)
    requires !Run(p, w, steps).1.Aborted? && steps <= more
    ensures Run(p, w, more) == Run(p, w, steps)
    decreases steps
  {
    if p.Load? { StepsDoNotMatter(p.next(Read(w, p.space, p.key)), w, steps - 1, more - 1); }
    if p.Save? { StepsDoNotMatter(p.rest, Write(w, p.space, p.key, p.value), steps - 1, more - 1); }
    if p.Emit? { StepsDoNotMatter(p.rest, w.(events := w.events + [p.event]), steps - 1, more - 1); }
  }

  /** Writes and events in a row. */
  datatype Deed = Wrote(space: Space, key: Key, value: Option<Value>) | Said(event: Event)

  function Script(deeds: seq<Deed>, rest: Program): Program {
    if deeds == [] then rest
    else match deeds[0]
      case Wrote(space, key, v) => Save(space, key, v, Script(deeds[1..], rest))
      case Said(e) => Emit(e, Script(deeds[1..], rest))
  }

  /** The value of the last write to the key, or what was there before. */
  function LastWrite(w: World, deeds: seq<Deed>, space: Space, key: Key): Option<Value> {
    if deeds == [] then (if space.MetaSpace? then Get(w.meta, key) else Get(w.payload, key))
    else
      var (k, d) := (|deeds| - 1, deeds[|deeds| - 1]);
      if d.Wrote? && d.space == space && d.key == key then d.value else LastWrite(w, deeds[..k], space, key)
  }

  function Spoken(deeds: seq<Deed>): seq<Event> {
    if deeds == [] then []
    else
      var (k, d) := (|deeds| - 1, deeds[|deeds| - 1]);
      if d.Said? then Spoken(deeds[..k]) + [d.event] else Spoken(deeds[..k])
  }

  ghost predicate LeftBy(w: World, deeds: seq<Deed>, after: World) {
    (forall key: Key :: Get(after.meta, key) == LastWrite(w, deeds, MetaSpace, key))
    && (forall key: Key :: Get(after.payload, key) == LastWrite(w, deeds, PayloadSpace, key))
    && after.events == w.events + Spoken(deeds)
  }

  function After(w: World, deeds: seq<Deed>): World {
    if deeds == [] then w
    else
      var (before, d) := (After(w, deeds[..|deeds| - 1]), deeds[|deeds| - 1]);
      if d.Wrote? then Write(before, d.space, d.key, d.value) else before.(events := before.events + [d.event])
  }

  lemma {:induction false} AfterLeaves(w: World, deeds: seq<Deed>)
    ensures LeftBy(w, deeds, After(w, deeds))
    decreases |deeds|
  {
    if deeds != [] { AfterLeaves(w, deeds[..|deeds| - 1]); }
  }

  lemma {:induction false} AfterFirst(w: World, deeds: seq<Deed>)
    requires deeds != []
    ensures After(w, deeds) == After(After(w, deeds[..1]), deeds[1..])
    decreases |deeds|
  {
    if |deeds| == 1 {
      assert deeds[..1] == deeds;
    } else {
      var k := |deeds| - 1;
      AfterFirst(w, deeds[..k]);
      assert deeds[..k][..1] == deeds[..1] && deeds[1..][..k - 1] == deeds[..k][1..];
    }
  }

  lemma {:induction false} ScriptRuns(deeds: seq<Deed>, rest: Program, w: World, steps: nat)
    ensures Run(Script(deeds, rest), w, |deeds| + steps) == Run(rest, After(w, deeds), steps)
    decreases |deeds|
  {
    if deeds != [] {
      var first := After(w, deeds[..1]);
      var one := deeds[..1];
      assert one[..|one| - 1] == [] && After(w, one[..|one| - 1]) == w;
      ScriptRuns(deeds[1..], rest, first, steps);
      AfterFirst(w, deeds);
    }
  }

  /** A call that writes and emits in a row and then reads a key goes on with the last value written to
      that key of that store, or the one it began with; every key of both stores reads alike, and the
      events are those it emitted, in order. */
  lemma LastWriteIsRead(deeds: seq<Deed>, space: Space, key: Key, next: Option<Value> -> Program, w: World, steps: nat)
    ensures exists after: World ::
      LeftBy(w, deeds, after)
      && Run(Script(deeds, Load(space, key, next)), w, |deeds| + 1 + steps) == Run(next(LastWrite(w, deeds, space, key)), after, steps)
  {
    var after := After(w, deeds);
    AfterLeaves(w, deeds);
    ScriptRuns(deeds, Load(space, key, next), w, steps + 1);
    assert Read(after, space, key) == LastWrite(w, deeds, space, key);
  }

  /** The call on the buffered context: it reads and writes exactly as on plain stores, and only the
      transaction buffers and the events change. */
  method Execute(p: Program, steps: nat, c: Context) returns (outcome: Outcome)
    modifies c`metaTx, c`payloadTx, c`events
    ensures (c.Observed(), outcome) == Run(p, old(c.Observed()), steps)
  {
    var q, left := p, steps;
    while true
      invariant Run(q, c.Observed(), left) == Run(p, old(c.Observed()), steps)
      decreases left
    {
      if q.Return? { return Returned(q.result); }
      if q.Fail? { return Failed(q.error); }
      if q.Abort? || left == 0 { return Aborted; }
      left := left - 1;
      match q {
        case Load(space, key, next) =>
          var v;
          if space == MetaSpace { v := c.MetaGet(key); } else { v := c.PayloadGet(key); }
          q := next(v);
        case Save(space, key, v, rest) =>
          if space == MetaSpace { c.MetaSet(key, v); } else { c.PayloadSet(key, v); }
          q := rest;
        case Emit(e, rest) =>
          c.EmitEvent(e);
          q := rest;
      }
    }
  }

  // ---------------------------------------------------------------- a batch, one call after another

  /** `kind` says whether the called module is a meta module; `None` for an unknown module. */
  datatype Tx = Tx(hash: nat, kind: Option<bool>, program: Program, steps: nat)

  datatype Receipt = Receipt(hash: nat, number: nat, events: seq<Event>, result: Outcome)

  datatype Stores = Stores(meta: Store, payload: Store)

  /** One transaction on plain stores: a failed call is a no-op. */
  function Perform(s: Stores, tx: Tx, number: nat): (Stores, Receipt) {
    var (w, outcome) := Run(tx.program, World(s.meta, s.payload, []), tx.steps);
    if outcome.Returned? then (Stores(w.meta, w.payload), Receipt(tx.hash, number, w.events, outcome))
    else (s, Receipt(tx.hash, number, [], outcome))
  }

  function Sequential(s: Stores, txs: seq<Tx>, number: nat): (r: (Stores, seq<Receipt>))
    ensures |r.1| == |txs|
    ensures forall i :: 0 <= i < |txs| ==> r.1[i].hash == txs[i].hash && r.1[i].number == number
    decreases |txs|
  {
    if txs == [] then (s, [])
    else
      var k := |txs| - 1;
      var (before, receipts) := Sequential(s, txs[..k], number);
      var (after, receipt) := Perform(before, txs[k], number);
      (after, receipts + [receipt])
  }

  datatype BatchError = UnknownModule | MixedBatch | SystemError | MetaAfterPayload

  /** What stops the batch at its last transaction, all earlier ones having gone through. */
  function Stop(s: Stores, txs: seq<Tx>, number: nat): Option<BatchError>
    requires txs != []
  {
    var k := |txs| - 1;
    if txs[k].kind.None? then Some(UnknownModule)
    else if txs[0].kind != txs[k].kind then Some(MixedBatch)
    else if Sequential(s, txs, number).1[k].result.Aborted? then Some(SystemError)
    else None
  }

  /** The first error of the batch, if any, and how many transactions were completed before it. */
  function FirstStop(s: Stores, txs: seq<Tx>, number: nat): (r: (nat, Option<BatchError>))
    ensures r.0 <= |txs|
    decreases |txs|
  {
    if txs == [] then (0, None)
    else
      var k := |txs| - 1;
      var before := FirstStop(s, txs[..k], number);
      if before.1.Some? then before
      else
        var stop := Stop(s, txs, number);
        if stop.Some? then (k, stop) else (k + 1, None)
  }

  lemma {:induction false} SequentialPrefix(s: Stores, txs: seq<Tx>, number: nat, n: nat)
    requires n <= |txs|
    ensures Sequential(s, txs, number).1[..n] == Sequential(s, txs[..n], number).1
    decreases |txs|
  {
    if n == |txs| {
      assert txs[..n] == txs;
    } else {
      var k := |txs| - 1;
      SequentialPrefix(s, txs[..k], number, n);
      assert txs[..k][..n] == txs[..n];
    }
  }

  lemma {:induction false} FirstStopStays(s: Stores, txs: seq<Tx>, number: nat, n: nat)
    requires n <= |txs| && FirstStop(s, txs[..n], number).1.Some?
    ensures FirstStop(s, txs, number) == FirstStop(s, txs[..n], number)
    decreases |txs|
  {
    if n == |txs| {
      assert txs[..n] == txs;
    } else {
      var k := |txs| - 1;
      assert txs[..k][..n] == txs[..n];
      FirstStopStays(s, txs[..k], number, n);
    }
  }

  /** A batch goes through exactly when every module is known, all are of one kind, and no call breaks
      off with a system error. */
  lemma {:induction false} GoesThrough(s: Stores, txs: seq<Tx>, number: nat)
    ensures FirstStop(s, txs, number).1.None? <==>
      (forall i :: 0 <= i < |txs| ==> txs[i].kind.Some? && txs[i].kind == txs[0].kind && !Sequential(s, txs, number).1[i].result.Aborted?)
    ensures FirstStop(s, txs, number).1.None? ==> FirstStop(s, txs, number).0 == |txs|
    decreases |txs|
  {
    hide Sequential;
    if txs != [] {
      var k := |txs| - 1;
      var some := txs[..k];
      GoesThrough(s, some, number);
      SequentialPrefix(s, txs, number, k);
      var (r, r') := (Sequential(s, txs, number).1, Sequential(s, some, number).1);
      assert forall i :: 0 <= i < k ==> some[i] == txs[i] && r[i] == r'[i];
    }
  }

  /** The error is that of the first transaction that stops the batch: its module is unknown, or of
      another kind than the first one's, or its call broke off; in this order. */
  lemma {:induction false} StopsAt(s: Stores, txs: seq<Tx>, number: nat)
    requires FirstStop(s, txs, number).1.Some?
    ensures var (n, error) := FirstStop(s, txs, number);
      n < |txs|
      && (forall i :: 0 <= i < n ==> txs[i].kind.Some? && txs[i].kind == txs[0].kind && !Sequential(s, txs, number).1[i].result.Aborted?)
      && (error == Some(UnknownModule) <==> txs[n].kind.None?)
      && (error == Some(MixedBatch) <==> txs[n].kind.Some? && txs[n].kind != txs[0].kind)
      && (error == Some(SystemError) <==>
        txs[n].kind.Some? && txs[n].kind == txs[0].kind && Sequential(s, txs, number).1[n].result.Aborted?)
    decreases |txs|
  {
    hide Sequential;
    var k := |txs| - 1;
    var some := txs[..k];
    SequentialPrefix(s, txs, number, k);
    var (r, r') := (Sequential(s, txs, number).1, Sequential(s, some, number).1);
    assert forall i :: 0 <= i < k ==> some[i] == txs[i] && r[i] == r'[i];
    if FirstStop(s, some, number).1.Some? { StopsAt(s, some, number); } else { GoesThrough(s, some, number); }
  }

  /** One transaction: its receipt carries its hash, the block number and its outcome. Only a call that
      returned leaves its writes and events, those of its run on the stores; any other leaves none. */
  ghost predicate Performed(s: Stores, tx: Tx, number: nat, s': Stores, receipt: Receipt) {
    receipt.hash == tx.hash && receipt.number == number
    && (receipt.result.Returned? ==>
      Run(tx.program, World(s.meta, s.payload, []), tx.steps) == (World(s'.meta, s'.payload, receipt.events), receipt.result))
    && (!receipt.result.Returned? ==>
      s' == s && receipt.events == [] && Run(tx.program, World(s.meta, s.payload, []), tx.steps).1 == receipt.result)
  }

  /** Every transaction of a batch works on the stores its predecessor left. */
  lemma {:induction false} EachPerformed(s: Stores, txs: seq<Tx>, number: nat, i: nat)
    requires i < |txs|
    ensures Performed(Sequential(s, txs[..i], number).0, txs[i], number, Sequential(s, txs[..i + 1], number).0, Sequential(s, txs, number).1[i])
  {
    var upTo := txs[..i + 1];
    SequentialPrefix(s, txs, number, i + 1);
    assert upTo[..i] == txs[..i];
    assert Sequential(s, upTo, number).1[i] == Sequential(s, txs, number).1[i];
  }

  // ---------------------------------------------------------------- the executor's block context

  datatype Ledger = Ledger(metaTxs: seq<Tx>, metaReceipts: seq<Receipt>, payloadTxs: seq<Tx>, payloadReceipts: seq<Receipt>, payloadPhase: bool)

  function KindOf(txs: seq<Tx>): Option<bool> {
    if txs == [] then None else txs[0].kind
  }

  /** The batch's verdict: the first error inside it, or a meta batch arriving after a payload one. */
  function Verdict(s: Stores, l: Ledger, txs: seq<Tx>, number: nat): Option<BatchError> {
    var stop := FirstStop(s, txs, number).1;
    if stop.Some? then stop
    else if l.payloadPhase && KindOf(txs) == Some(true) then Some(MetaAfterPayload)
    else None
  }

  /** Lists are extended by an accepted batch alone; the phase flag is set by any payload batch that
      reaches its end. */
  function Recorded(s: Stores, l: Ledger, txs: seq<Tx>, number: nat): Ledger {
    var receipts := Sequential(s, txs, number).1;
    if Verdict(s, l, txs, number).Some? || txs == [] then l
    else if KindOf(txs) == Some(true) then l.(metaTxs := l.metaTxs + txs, metaReceipts := l.metaReceipts + receipts)
    else l.(payloadTxs := l.payloadTxs + txs, payloadReceipts := l.payloadReceipts + receipts, payloadPhase := true)
  }

  /** The lists of the batch's kind grow by all its transactions and their receipts. */
  ghost predicate Files(l: Ledger, after: Ledger, txs: seq<Tx>, receipts: seq<Receipt>) {
    if txs != [] && txs[0].kind == Some(true) then
      !after.payloadPhase && !l.payloadPhase
      && after.metaTxs == l.metaTxs + txs && after.metaReceipts == l.metaReceipts + receipts
      && after.payloadTxs == l.payloadTxs && after.payloadReceipts == l.payloadReceipts
    else
      (after.payloadPhase <==> l.payloadPhase || txs != [])
      && after.payloadTxs == l.payloadTxs + txs && after.payloadReceipts == l.payloadReceipts + receipts
      && after.metaTxs == l.metaTxs && after.metaReceipts == l.metaReceipts
  }

  /** An accepted batch is filed, a refused one leaves the ledger; a batch that runs to its end is
      refused exactly when it is one of meta calls after one of payload calls. */
  lemma {:induction false} RecordedIs(s: Stores, l: Ledger, txs: seq<Tx>, number: nat)
    ensures var (error, after) := (Verdict(s, l, txs, number), Recorded(s, l, txs, number));
      (error.Some? ==> after == l)
      && (error.None? ==> Files(l, after, txs, Sequential(s, txs, number).1))
      && (FirstStop(s, txs, number).1.Some? ==> error == FirstStop(s, txs, number).1)
      && (FirstStop(s, txs, number).1.None? ==>
        if l.payloadPhase && txs != [] && txs[0].kind == Some(true) then error == Some(MetaAfterPayload) else error == None)
  {
    hide Sequential, FirstStop;
    GoesThrough(s, txs, number);
    if txs == [] { assert Sequential(s, txs, number).1 == []; }
  }

  class BlockContext {
    const number: nat
    const context: Context
    var ledger: Ledger

    constructor (number: nat, metaTrie: Store, payloadTrie: Store)
      ensures this.number == number && fresh(context) && Ready()
      ensures Settled() == Stores(metaTrie, payloadTrie)
      ensures ledger == Ledger([], [], [], [], false)
    {
      this.number := number;
      context := new Context(metaTrie, payloadTrie);
      ledger := Ledger([], [], [], [], false);
    }

    /** The stores as of the last completed transaction. */
    ghost function Settled(): Stores
      reads this, context
    {
      Stores(context.Settled().meta, context.Settled().payload)
    }

    /** No transaction is half done: what is read is what is settled, and no event is pending. */
    ghost predicate Ready()
      reads this, context
    {
      context.Drained() && context.Observed() == context.Settled()
    }

    method ExecuteTx(tx: Tx) returns (result: Outcome, receipt: Receipt)
      requires Ready()
      modifies context
      ensures result == Run(tx.program, World(old(Settled()).meta, old(Settled()).payload, []), tx.steps).1
      ensures !result.Aborted? ==> Ready() && (Settled(), receipt) == Perform(old(Settled()), tx, number)
      ensures result.Aborted? ==> Settled() == old(Settled())
      ensures receipt.result == result && Performed(old(Settled()), tx, number, Settled(), receipt)
    {
      result := Execute(tx.program, tx.steps, context);
      var events := [];
      if result.Returned? {
        events := context.Accept();
      } else if result.Failed? {
        context.Reject();
      }
      receipt := Receipt(tx.hash, number, events, result);
    }

    method ExecuteTxs(txs: seq<Tx>) returns (error: Option<BatchError>)
      requires Ready()
      modifies this`ledger, context
      ensures error == Verdict(old(Settled()), old(ledger), txs, number)
      ensures ledger == Recorded(old(Settled()), old(ledger), txs, number)
      ensures Settled() == Sequential(old(Settled()), txs[..FirstStop(old(Settled()), txs, number).0], number).0
      ensures error != Some(SystemError) ==> Ready()
      ensures error.Some? ==> ledger == old(ledger)
      ensures error.None? ==> Files(old(ledger), ledger, txs, Sequential(old(Settled()), txs, number).1)
    {
      hide Files, Performed;
      RecordedIs(Settled(), ledger, txs, number);
      ghost var s := Settled();
      var kind: Option<bool> := None;
      var receipts: seq<Receipt> := [];
      for i := 0 to |txs|
        invariant Ready() && ledger == old(ledger)
        invariant Sequential(s, txs[..i], number) == (Settled(), receipts)
        invariant FirstStop(s, txs[..i], number) == (i, None)
        invariant kind == KindOf(txs[..i]) && (i > 0 ==> kind.Some?)
      {
        assert txs[..i + 1][..i] == txs[..i];
        ghost var upTo := txs[..i + 1];
        if txs[i].kind.None? {
          FirstStopStays(s, txs, number, i + 1);
          return Some(UnknownModule);
        }
        if kind.None? {
          kind := txs[i].kind;
        } else if kind != txs[i].kind {
          FirstStopStays(s, txs, number, i + 1);
          return Some(MixedBatch);
        }
        var result, receipt := ExecuteTx(txs[i]);
        if result.Aborted? {
          FirstStopStays(s, txs, number, i + 1);
          return Some(SystemError);
        }
        receipts := receipts + [receipt];
      }
      assert txs[..|txs|] == txs;
      if kind == Some(false) {
        ledger := ledger.(payloadPhase := true);
      }
      if kind == Some(true) && ledger.payloadPhase {
        return Some(MetaAfterPayload);
      }
      match kind {
        case Some(true) => ledger := ledger.(metaTxs := ledger.metaTxs + txs, metaReceipts := ledger.metaReceipts + receipts);
        case Some(false) => ledger := ledger.(payloadTxs := ledger.payloadTxs + txs, payloadReceipts := ledger.payloadReceipts + receipts);
        case None =>
      }
      error := None;
    }
  }

  /** A meta batch after a payload batch is refused, and yet what its calls wrote is settled. */
  lemma RefusedButSettled()
    ensures var tx := Tx(0, Some(true), Save(MetaSpace, Slot(0, 0), Some(1), Return(0)), 1);
      var (s, l) := (Stores(map[], map[]), Ledger([], [], [], [], true));
      Verdict(s, l, [tx], 1) == Some(MetaAfterPayload) && FirstStop(s, [tx], 1) == (1, None)
      && Sequential(s, [tx], 1).0 == Stores(map[Slot(0, 0) := 1], map[])
  {
    var tx := Tx(0, Some(true), Save(MetaSpace, Slot(0, 0), Some(1), Return(0)), 1);
    var s := Stores(map[], map[]);
    var w := World(map[], map[], []);
    assert Run(Return(0), Write(w, MetaSpace, Slot(0, 0), Some(1)), 0) == (Write(w, MetaSpace, Slot(0, 0), Some(1)), Returned(0));
    assert Perform(s, tx, 1).0 == Stores(map[Slot(0, 0) := 1], map[]);
    assert [tx][..0] == [];
  }
}
