/** The balance module: its calls as programs over the payload store, and the total they keep. */
module Balance {
  import opened ExecutorContext
  import opened BatchExecution

  type Address = nat

  const BALANCE: nat := 0
  const U64: nat := 0x1_0000_0000_0000_0000

  datatype BalanceCall =
    | Init(endow: seq<(Address, nat)>)
    | GetBalance
    | Transfer(recipient: Address, amount: nat)

  const NOT_GENESIS: nat := 0
  const UNSIGNED: nat := 1
  const TO_ONESELF: nat := 2
  const INSUFFICIENT: nat := 3
  const U64_OVERFLOW: nat := 4

  function KeyOf(a: Address): Key { Slot(BALANCE, a) }

  /** Read a balance: a missing entry counts as zero, one that does not decode is a system error. */
  function LoadBalance(a: Address, next: nat -> Program): Program {
    Load(PayloadSpace, KeyOf(a), (v: Option<Value>) =>
      if v.None? then next(0) else if v.value < U64 then next(v.value) else Abort)
  }

  function SaveBalance(a: Address, amount: nat, rest: Program): Program {
    Save(PayloadSpace, KeyOf(a), Some(amount), rest)
  }

  function InitProgram(endow: seq<(Address, nat)>): Program {
    if endow == [] then Return(0) else SaveBalance(endow[0].0, endow[0].1, InitProgram(endow[1..]))
  }

  function Settle(sender: Address, recipient: Address, amount: nat, have: nat, has: nat): Program {
    if has + amount >= U64 then Fail(U64_OVERFLOW)
    else SaveBalance(sender, if have >= amount then have - amount else 0, SaveBalance(recipient, has + amount, Emit(amount, Return(0))))
  }

  function TransferProgram(sender: Address, recipient: Address, amount: nat): Program {
    if sender == recipient then Fail(TO_ONESELF)
    else LoadBalance(sender, WithSender(sender, recipient, amount))
  }

  /** What follows once the sender's balance is known, and once both are. */
  function WithSender(sender: Address, recipient: Address, amount: nat): nat -> Program {
    (have: nat) => if have < amount then Fail(INSUFFICIENT) else LoadBalance(recipient, WithBoth(sender, recipient, amount, have))
  }

  function WithBoth(sender: Address, recipient: Address, amount: nat, have: nat): nat -> Program {
    (has: nat) => Settle(sender, recipient, amount, have, has)
  }

  function ProgramOf(call: BalanceCall, sender: Option<Address>, number: nat): Program {
    match call
    case Init(endow) => if number != 0 then Fail(NOT_GENESIS) else InitProgram(endow)
    case GetBalance => if sender.None? then Fail(UNSIGNED) else LoadBalance(sender.value, (have: nat) => Return(have))
    case Transfer(recipient, amount) =>
      if sender.None? then Fail(UNSIGNED) else TransferProgram(sender.value, recipient, amount)
  }

  // ---------------------------------------------------------------- the total of all balances

  function BalanceKeys(s: Store): set<Key> {
    set k | k in s && k.table == BALANCE
  }

  ghost function Sum(s: Store, keys: set<Key>): nat
    requires keys <= s.Keys
  {
    if keys == {} then 0 else var k :| k in keys; s[k] + Sum(s, keys - {k})
  }

  ghost function Total(s: Store): nat {
    Sum(s, BalanceKeys(s))
  }

  /** Every stored balance is a u64. */
  ghost predicate Decodes(s: Store) {
    forall k :: k in s && k.table == BALANCE ==> s[k] < U64
  }

  function BalanceIn(s: Store, a: Address): nat {
    if KeyOf(a) in s then s[KeyOf(a)] else 0
  }

  lemma {:induction false} SumSplit(s: Store, keys: set<Key>, k: Key)
    requires keys <= s.Keys && k in keys
    ensures Sum(s, keys) == s[k] + Sum(s, keys - {k})
    decreases |keys|
  {
    var j :| j in keys && Sum(s, keys) == s[j] + Sum(s, keys - {j});
    if j != k {
      SumSplit(s, keys - {j}, k);
      SumSplit(s, keys - {k}, j);
      assert keys - {j} - {k} == keys - {k} - {j};
    }
  }

  lemma {:induction false} SumSame(s: Store, t: Store, keys: set<Key>)
    requires keys <= s.Keys && keys <= t.Keys && forall k :: k in keys ==> s[k] == t[k]
    ensures Sum(s, keys) == Sum(t, keys)
    decreases |keys|
  {
    if keys != {} {
      var k :| k in keys;
      SumSplit(s, keys, k);
      SumSplit(t, keys, k);
      SumSame(s, t, keys - {k});
    }
  }

  /** Setting one balance moves the total by exactly the difference. */
  lemma TotalPut(s: Store, a: Address, amount: nat)
    ensures Total(Put(s, KeyOf(a), Some(amount))) + BalanceIn(s, a) == Total(s) + amount
  {
    var (k, t) := (KeyOf(a), Put(s, KeyOf(a), Some(amount)));
    var rest := BalanceKeys(s) - {k};
    assert BalanceKeys(t) == rest + {k};
    SumSplit(t, BalanceKeys(t), k);
    assert BalanceKeys(t) - {k} == rest;
    SumSame(s, t, rest);
    if k in s {
      SumSplit(s, BalanceKeys(s), k);
    } else {
      assert rest == BalanceKeys(s);
    }
  }

  // ---------------------------------------------------------------- what a call does

  function Moved(s: Store, sender: Address, recipient: Address, amount: nat): Store
    requires BalanceIn(s, sender) >= amount
  {
    Put(Put(s, KeyOf(sender), Some(BalanceIn(s, sender) - amount)), KeyOf(recipient), Some(BalanceIn(s, recipient) + amount))
  }

  predicate CanTransfer(s: Store, sender: Option<Address>, recipient: Address, amount: nat) {
    sender.Some? && sender.value != recipient && BalanceIn(s, sender.value) >= amount
    && BalanceIn(s, recipient) + amount < U64
  }

  lemma RunLoad(a: Address, next: nat -> Program, w: World, steps: nat)
    requires Decodes(w.payload) && steps > 0
    ensures Run(LoadBalance(a, next), w, steps) == Run(next(BalanceIn(w.payload, a)), w, steps - 1)
  {
  }

  lemma RunSettle(sender: Address, recipient: Address, amount: nat, w: World, steps: nat)
    requires steps >= 3 && sender != recipient
    requires BalanceIn(w.payload, sender) >= amount && BalanceIn(w.payload, recipient) + amount < U64
    ensures Run(Settle(sender, recipient, amount, BalanceIn(w.payload, sender), BalanceIn(w.payload, recipient)), w, steps)
         == (World(w.meta, Moved(w.payload, sender, recipient, amount), w.events + [amount]), Returned(0))
  {
    var (have, has) := (BalanceIn(w.payload, sender), BalanceIn(w.payload, recipient));
    var w1 := Write(w, PayloadSpace, KeyOf(sender), Some(have - amount));
    var w2 := Write(w1, PayloadSpace, KeyOf(recipient), Some(has + amount));
    var tail := Emit(amount, Return(0));
    assert Run(tail, w2, steps - 2) == (w2.(events := w2.events + [amount]), Returned(0));
    assert Run(SaveBalance(recipient, has + amount, tail), w1, steps - 1) == Run(tail, w2, steps - 2);
  }

  /** A transfer succeeds exactly when it is signed, goes to another account, is covered, and does not
      overflow the recipient; it then moves the amount, and otherwise it fails without a trace. */
  lemma TransferMeans(w: World, sender: Option<Address>, recipient: Address, amount: nat, number: nat, steps: nat)
    requires Decodes(w.payload) && steps >= 5
    ensures var (w', outcome) := Run(ProgramOf(Transfer(recipient, amount), sender, number), w, steps);
      if CanTransfer(w.payload, sender, recipient, amount)
      then w' == World(w.meta, Moved(w.payload, sender.value, recipient, amount), w.events + [amount]) && outcome == Returned(0)
      else w' == w && outcome.Failed?
  {
    if sender.Some? && sender.value != recipient {
      var a := sender.value;
      var have := BalanceIn(w.payload, a);
      RunLoad(a, WithSender(a, recipient, amount), w, steps);
      if have >= amount {
        RunLoad(recipient, WithBoth(a, recipient, amount, have), w, steps - 1);
        if BalanceIn(w.payload, recipient) + amount < U64 { RunSettle(a, recipient, amount, w, steps - 2); }
      }
    }
  }

  lemma MovedTotal(s: Store, sender: Address, recipient: Address, amount: nat)
    requires Decodes(s) && CanTransfer(s, Some(sender), recipient, amount)
    ensures var t := Moved(s, sender, recipient, amount);
      Total(t) == Total(s) && Decodes(t) && BalanceIn(t, sender) == BalanceIn(s, sender) - amount
      && BalanceIn(t, recipient) == BalanceIn(s, recipient) + amount
      && forall k :: k != KeyOf(sender) && k != KeyOf(recipient) ==> Get(t, k) == Get(s, k)
  {
    var s1 := Put(s, KeyOf(sender), Some(BalanceIn(s, sender) - amount));
    TotalPut(s, sender, BalanceIn(s, sender) - amount);
    TotalPut(s1, recipient, BalanceIn(s, recipient) + amount);
  }

  /** A transaction that calls the balance module at block `number`. */
  ghost predicate IsBalanceTx(tx: Tx, number: nat) {
    tx.kind == Some(false) && tx.steps >= 5
    && exists call: BalanceCall, sender: Option<Address> :: tx.program == ProgramOf(call, sender, number)
  }

  lemma CallKeepsTotal(s: Stores, tx: Tx, number: nat)
    requires IsBalanceTx(tx, number) && number != 0 && Decodes(s.payload)
    ensures var (t, r) := Perform(s, tx, number);
      Total(t.payload) == Total(s.payload) && Decodes(t.payload) && t.meta == s.meta && !r.result.Aborted?
  {
    var call: BalanceCall, sender: Option<Address> :| tx.program == ProgramOf(call, sender, number);
    var w := World(s.meta, s.payload, []);
    match call {
      case Init(_) =>
      case GetBalance => if sender.Some? { RunLoad(sender.value, (have: nat) => Return(have), w, tx.steps); }
      case Transfer(recipient, amount) =>
        TransferMeans(w, sender, recipient, amount, number, tx.steps);
        if CanTransfer(s.payload, sender, recipient, amount) { MovedTotal(s.payload, sender.value, recipient, amount); }
    }
  }

  /** Any batch of balance calls after genesis goes through and keeps the total of all balances. */
  lemma {:induction false} BatchKeepsTotal(s: Stores, txs: seq<Tx>, number: nat)
    requires number != 0 && Decodes(s.payload)
    requires forall i :: 0 <= i < |txs| ==> IsBalanceTx(txs[i], number)
    ensures var (t, _) := Sequential(s, txs, number);
      Total(t.payload) == Total(s.payload) && Decodes(t.payload) && t.meta == s.meta
    ensures FirstStop(s, txs, number) == (|txs|, None)
    decreases |txs|
  {
    if txs != [] {
      var k := |txs| - 1;
      BatchKeepsTotal(s, txs[..k], number);
      CallKeepsTotal(Sequential(s, txs[..k], number).0, txs[k], number);
      assert IsBalanceTx(txs[0], number);
    }
  }

  /** A single balance never exceeds the total. */
  lemma BalanceWithinTotal(s: Store, a: Address)
    ensures BalanceIn(s, a) <= Total(s)
  {
    if KeyOf(a) in s { SumSplit(s, BalanceKeys(s), KeyOf(a)); }
  }

  /** Two different balances together never exceed it either. */
  lemma PairWithinTotal(s: Store, a: Address, b: Address)
    requires a != b
    ensures BalanceIn(s, a) + BalanceIn(s, b) <= Total(s)
  {
    var keys := BalanceKeys(s);
    if KeyOf(a) in s && KeyOf(b) in s {
      SumSplit(s, keys, KeyOf(a));
      SumSplit(s, keys - {KeyOf(a)}, KeyOf(b));
    } else {
      BalanceWithinTotal(s, a);
      BalanceWithinTotal(s, b);
    }
  }

  /** While the total fits a u64 the overflow error is out of reach, in every batch: a covered transfer
      to another account always succeeds. */
  lemma NoOverflow(s: Stores, txs: seq<Tx>, number: nat, sender: Address, recipient: Address, amount: nat)
    requires number != 0 && Decodes(s.payload) && Total(s.payload) < U64 && sender != recipient
    requires forall i :: 0 <= i < |txs| ==> IsBalanceTx(txs[i], number)
    ensures var t := Sequential(s, txs, number).0.payload;
      BalanceIn(t, sender) >= amount ==> CanTransfer(t, Some(sender), recipient, amount)
  {
    BatchKeepsTotal(s, txs, number);
    PairWithinTotal(Sequential(s, txs, number).0.payload, sender, recipient);
  }

  /** The same through the buffered context: the executor accepts the batch, records it, and the
      balances it leaves behind add up to what they were. */
  method ExecuteBalanceBatch(block: BlockContext, txs: seq<Tx>) returns (error: Option<BatchError>)
    requires block.Ready() && block.number != 0 && Decodes(block.Settled().payload)
    requires forall i :: 0 <= i < |txs| ==> IsBalanceTx(txs[i], block.number)
    modifies block`ledger, block.context
    ensures error.None? && block.Ready() && Decodes(block.Settled().payload)
    ensures Total(block.Settled().payload) == Total(old(block.Settled().payload))
    ensures |block.ledger.payloadReceipts| == |old(block.ledger.payloadReceipts)| + |txs|
  {
    BatchKeepsTotal(block.Settled(), txs, block.number);
    assert txs[..|txs|] == txs;
    error := block.ExecuteTxs(txs);
  }
}
