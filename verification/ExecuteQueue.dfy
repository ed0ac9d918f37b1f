/** The chain store and the queue that executes committed blocks later, one by one. */
module ExecuteQueue {

  type Hash = nat

  datatype Option<T> = None | Some(value: T)

  /** The hash of a transaction covers its content and leaves out its signature; hashes being free of
      collisions, the hash is identified with the content. */
  datatype Tx = Tx(content: Hash, signature: nat)

  datatype Header = Header(number: nat, timestamp: nat, parent: Hash, metaRoot: Hash)
  datatype Block = Block(hash: Hash, header: Header, metaTxs: seq<Tx>, payloadTxs: seq<Tx>)
  datatype Execution = Execution(stateRoot: Hash, receiptsRoot: Hash)

  datatype Store = Store(
    headers: map<Hash, Header>,
    payloads: map<Hash, seq<Hash>>,
    txs: map<Hash, Tx>,
    hashes: map<nat, Hash>,
    confirmed: nat,
    executions: map<Hash, Execution>,
    executed: nat)

  datatype Task = Task(number: nat, timestamp: nat, hash: Hash, parent: Hash, metaRoot: Hash, txs: seq<Tx>)

  /** What an execution is computed from. Executing a transaction never looks at its signature. */
  datatype Params = Params(number: nat, timestamp: nat, hash: Hash, metaRoot: Hash, stateRoot: Hash, contents: seq<Hash>)

  function Contents(txs: seq<Tx>): (r: seq<Hash>)
    ensures |r| == |txs| && forall i :: 0 <= i < |txs| ==> r[i] == txs[i].content
  {
    seq(|txs|, i requires 0 <= i < |txs| => txs[i].content)
  }

  // ---------------------------------------------------------------- committing a block

  function PutTxs(m: map<Hash, Tx>, txs: seq<Tx>): map<Hash, Tx>
    decreases |txs|
  {
    if txs == [] then m else PutTxs(m, txs[..|txs| - 1])[txs[|txs| - 1].content := txs[|txs| - 1]]
  }

  datatype CommitError = Duplicated | NotBest | DataError

  function CommitCheck(s: Store, b: Block): Option<CommitError> {
    if b.hash in s.headers then Some(Duplicated)
    else if s.confirmed !in s.hashes then Some(DataError)
    else if b.header.number == s.confirmed + 1 && b.header.parent == s.hashes[s.confirmed] then None
    else Some(NotBest)
  }

  function Committed(s: Store, b: Block): Store {
    s.(headers := s.headers[b.hash := b.header],
       payloads := s.payloads[b.hash := Contents(b.payloadTxs)],
       txs := PutTxs(PutTxs(s.txs, b.metaTxs), b.payloadTxs),
       hashes := s.hashes[b.header.number := b.hash],
       confirmed := b.header.number)
  }

  function TaskFor(b: Block): Task {
    Task(b.header.number, b.header.timestamp, b.hash, b.header.parent, b.header.metaRoot, b.payloadTxs)
  }

  // ---------------------------------------------------------------- executing

  function GetTxs(s: Store, hashes: seq<Hash>): Option<seq<Tx>>
    decreases |hashes|
  {
    if hashes == [] then Some([])
    else
      var k := |hashes| - 1;
      var before := GetTxs(s, hashes[..k]);
      if before.None? || hashes[k] !in s.txs then None else Some(before.value + [s.txs[hashes[k]]])
  }

  /** The execute task of a block whose own one was lost or failed, put together from the store. */
  function Rebuilt(s: Store, number: nat): Option<Task> {
    if number !in s.hashes then None
    else
      var hash := s.hashes[number];
      if hash !in s.headers || hash !in s.payloads then None
      else
        var (header, txs) := (s.headers[hash], GetTxs(s, s.payloads[hash]));
        if txs.None? then None else Some(Task(number, header.timestamp, hash, header.parent, header.metaRoot, txs.value))
  }

  function Recorded(s: Store, t: Task, e: Execution): Store {
    s.(executions := s.executions[t.hash := e], executed := t.number)
  }

  /** Execute one task on top of its parent's execution; `None` if that is missing or the run fails. */
  function Executed(build: Params -> Execution, s: Store, t: Task, fails: set<nat>): Option<Store> {
    if t.parent !in s.executions || t.number in fails then None
    else Some(Recorded(s, t, build(Params(t.number, t.timestamp, t.hash, t.metaRoot, s.executions[t.parent].stateRoot, Contents(t.txs)))))
  }

  /** The blocks `from .. end` from the store, in order, stopping at the first that fails. */
  function CaughtUp(build: Params -> Execution, s: Store, from: nat, end: nat, fails: set<nat>): (Store, bool)
    decreases end - from
  {
    if from >= end then (s, true)
    else
      var t := Rebuilt(s, from);
      var r := if t.None? then None else Executed(build, s, t.value, fails);
      if r.None? then (s, false) else CaughtUp(build, r.value, from + 1, end, fails)
  }

  function Processed(build: Params -> Execution, s: Store, t: Task, fails: set<nat>): (Store, bool) {
    var (s1, ok) := CaughtUp(build, s, s.executed + 1, t.number, fails);
    if !ok then (s1, false)
    else
      var r := Executed(build, s1, t, fails);
      if r.None? then (s1, false) else (r.value, true)
  }

  // ---------------------------------------------------------------- the chain and what it promises

  /** Block hash, header, transactions and parent link are there for exactly the numbers 0 .. confirmed. */
  ghost predicate Linked(s: Store) {
    (forall n: nat :: n in s.hashes <==> n <= s.confirmed)
    && (forall n :: n in s.hashes ==> BlockAt(s, n))
    && (forall n, m :: n in s.hashes && m in s.hashes && s.hashes[n] == s.hashes[m] ==> n == m)
  }

  ghost predicate BlockAt(s: Store, n: nat)
    requires n in s.hashes
  {
    var h := s.hashes[n];
    h in s.headers && h in s.payloads && s.headers[h].number == n
    && (n > 0 ==> n - 1 in s.hashes && s.headers[h].parent == s.hashes[n - 1])
    && forall i :: 0 <= i < |s.payloads[h]| ==> Keeps(s, s.payloads[h][i])
  }

  predicate Keeps(s: Store, content: Hash) {
    content in s.txs && s.txs[content].content == content
  }

  /** What the execution of block `n` must have been computed from. */
  function ParamsAt(s: Store, n: nat): Params
    requires n > 0 && n in s.hashes && n - 1 in s.hashes
    requires s.hashes[n] in s.headers && s.hashes[n] in s.payloads && s.hashes[n - 1] in s.executions
  {
    var h := s.hashes[n];
    Params(n, s.headers[h].timestamp, h, s.headers[h].metaRoot, s.executions[s.hashes[n - 1]].stateRoot, s.payloads[h])
  }

  ghost predicate ExecutedAt(build: Params -> Execution, s: Store, n: nat) {
    n in s.hashes && s.hashes[n] in s.executions
    && (n > 0 ==> n - 1 in s.hashes && s.hashes[n] in s.headers && s.hashes[n] in s.payloads && s.hashes[n - 1] in s.executions
                  && s.executions[s.hashes[n]] == build(ParamsAt(s, n)))
  }

  /** Every block up to the execution number has the execution built on its parent's. */
  ghost predicate Sound(build: Params -> Execution, s: Store) {
    Linked(s) && s.executed <= s.confirmed && forall n :: 0 <= n <= s.executed ==> ExecutedAt(build, s, n)
  }

  /** An execute task says what the store says about its block, signatures aside. */
  ghost predicate Describes(s: Store, t: Task) {
    t.number in s.hashes && t.number > 0 && s.hashes[t.number] == t.hash && t.hash in s.headers && t.hash in s.payloads
    && t.parent == s.headers[t.hash].parent && t.timestamp == s.headers[t.hash].timestamp && t.metaRoot == s.headers[t.hash].metaRoot
    && Contents(t.txs) == s.payloads[t.hash]
  }

  lemma {:induction false} GetTxsFinds(s: Store, hashes: seq<Hash>)
    requires forall i :: 0 <= i < |hashes| ==> Keeps(s, hashes[i])
    ensures GetTxs(s, hashes).Some? && Contents(GetTxs(s, hashes).value) == hashes
    ensures forall i :: 0 <= i < |hashes| ==> Keeps(s, hashes[i]) && GetTxs(s, hashes).value[i] == s.txs[hashes[i]]
    decreases |hashes|
  {
    if hashes != [] {
      GetTxsFinds(s, hashes[..|hashes| - 1]);
    }
  }

  lemma RebuiltDescribes(s: Store, n: nat)
    requires Linked(s) && 0 < n <= s.confirmed
    ensures Rebuilt(s, n).Some? && Rebuilt(s, n).value.number == n && Describes(s, Rebuilt(s, n).value)
  {
    assert BlockAt(s, n);
    GetTxsFinds(s, s.payloads[s.hashes[n]]);
  }

  ghost predicate SameBlocks(s: Store, s': Store) {
    s' == s.(executions := s'.executions, executed := s'.executed)
  }

  lemma LinkedKept(s: Store, s': Store)
    requires Linked(s) && SameBlocks(s, s')
    ensures Linked(s')
  {
    forall n | n in s'.hashes ensures BlockAt(s', n) {
      assert BlockAt(s, n);
      forall i | 0 <= i < |s.payloads[s.hashes[n]]| ensures Keeps(s', s.payloads[s.hashes[n]][i]) { assert Keeps(s, s.payloads[s.hashes[n]][i]); }
    }
  }

  lemma EarlierKept(build: Params -> Execution, s: Store, t: Task, e: Execution, n: nat)
    requires Linked(s) && ExecutedAt(build, s, n) && n < t.number && t.number in s.hashes && s.hashes[t.number] == t.hash
    ensures ExecutedAt(build, Recorded(s, t, e), n)
  {
    assert s.hashes[n] != t.hash && (n > 0 ==> s.hashes[n - 1] != t.hash);
  }

  lemma LastRecorded(build: Params -> Execution, s: Store, t: Task)
    requires Linked(s) && Describes(s, t) && ExecutedAt(build, s, t.number - 1)
    ensures t.parent in s.executions
    ensures var p := Params(t.number, t.timestamp, t.hash, t.metaRoot, s.executions[t.parent].stateRoot, Contents(t.txs));
      ExecutedAt(build, Recorded(s, t, build(p)), t.number)
  {
    assert BlockAt(s, t.number);
    assert s.hashes[t.number - 1] != t.hash;
  }

  /** Executing the next block in order keeps everything promised and raises the number by one. */
  lemma ExecutedSound(build: Params -> Execution, s: Store, t: Task, fails: set<nat>)
    requires Sound(build, s) && Describes(s, t) && t.number == s.executed + 1
    ensures Executed(build, s, t, fails).Some? <==> t.number !in fails
    ensures t.number !in fails ==>
      var s' := Executed(build, s, t, fails).value; Sound(build, s') && SameBlocks(s, s') && s'.executed == t.number
  {
    hide Linked, BlockAt, Describes;
    assert ExecutedAt(build, s, s.executed);
    LastRecorded(build, s, t);
    if t.number !in fails {
      var s' := Executed(build, s, t, fails).value;
      LinkedKept(s, s');
      InChain(s, t);
      hide ExecutedAt;
      forall n | 0 <= n <= s.executed ensures ExecutedAt(build, s', n) { EarlierKept(build, s, t, s'.executions[t.hash], n); }
    }
  }

  lemma InChain(s: Store, t: Task)
    requires Linked(s) && Describes(s, t)
    ensures t.number in s.hashes && s.hashes[t.number] == t.hash && t.number <= s.confirmed
  {
  }

  /** Where a run up to block `end` stands: at its end, or right before the first block that failed. */
  predicate Stands(s: Store, ok: bool, end: nat, fails: set<nat>) {
    if ok then s.executed == end else s.executed < end && s.executed + 1 in fails
  }

  lemma {:induction false} CaughtUpSound(build: Params -> Execution, s: Store, end: nat, fails: set<nat>)
    requires Sound(build, s) && s.executed < end <= s.confirmed
    ensures var r := CaughtUp(build, s, s.executed + 1, end, fails);
      Sound(build, r.0) && SameBlocks(s, r.0) && s.executed <= r.0.executed <= end - 1 && Stands(r.0, r.1, end - 1, fails)
    decreases end - s.executed
  {
    hide Linked, ExecutedAt, Describes;
    hide Rebuilt, Executed;
    var n := s.executed + 1;
    if n < end {
      RebuiltDescribes(s, n);
      var t := Rebuilt(s, n).value;
      ExecutedSound(build, s, t, fails);
      if n !in fails { CaughtUpSound(build, Executed(build, s, t, fails).value, end, fails); }
    }
  }

  /** One task: the numbers before it are executed first; on success its block is executed, on failure
      execution stands right before the first block that failed. */
  lemma ProcessedSound(build: Params -> Execution, s: Store, t: Task, fails: set<nat>)
    requires Sound(build, s) && Describes(s, t) && s.executed < t.number
    ensures var r := Processed(build, s, t, fails);
      Sound(build, r.0) && SameBlocks(s, r.0) && s.executed <= r.0.executed <= t.number && Stands(r.0, r.1, t.number, fails)
  {
    hide Linked, ExecutedAt, CaughtUp, Executed;
    InChain(s, t);
    CaughtUpSound(build, s, t.number, fails);
    var (s1, ok) := CaughtUp(build, s, s.executed + 1, t.number, fails);
    if ok { ExecutedSound(build, s1, t, fails); }
  }

  /** Out of order the code does not guard itself: a task moves the execution number back exactly when
      its block is behind it and the run succeeds. The queue's order is what rules this out. */
  lemma ProcessedLowers(build: Params -> Execution, s: Store, t: Task, fails: set<nat>)
    requires Sound(build, s) && Describes(s, t)
    ensures Processed(build, s, t, fails).0.executed < s.executed <==> t.number < s.executed && t.number !in fails
  {
    if s.executed < t.number {
      ProcessedSound(build, s, t, fails);
    } else {
      assert BlockAt(s, t.number);
      assert ExecutedAt(build, s, t.number - 1);
    }
  }

  // ---------------------------------------------------------------- committing keeps it all

  lemma {:induction false} PutTxsKeeps(m: map<Hash, Tx>, txs: seq<Tx>, content: Hash)
    requires forall k :: k in m ==> m[k].content == k
    ensures var r := PutTxs(m, txs);
      (forall k :: k in r ==> r[k].content == k) && m.Keys <= r.Keys && (forall i :: 0 <= i < |txs| ==> txs[i].content in r)
      && (content in m && (forall i :: 0 <= i < |txs| ==> txs[i].content != content) ==> content in r && r[content] == m[content])
    decreases |txs|
  {
    if txs != [] { PutTxsKeeps(m, txs[..|txs| - 1], content); }
  }

  /** Every stored transaction is filed under its own content. */
  ghost predicate Filed(s: Store) {
    forall k :: k in s.txs ==> s.txs[k].content == k
  }

  lemma CommittedTxs(s: Store, b: Block)
    requires Filed(s)
    ensures Filed(Committed(s, b)) && s.txs.Keys <= Committed(s, b).txs.Keys
    ensures forall i :: 0 <= i < |b.payloadTxs| ==> Keeps(Committed(s, b), b.payloadTxs[i].content)
  {
    PutTxsKeeps(s.txs, b.metaTxs, 0);
    PutTxsKeeps(PutTxs(s.txs, b.metaTxs), b.payloadTxs, 0);
  }

  lemma TxStays(s: Store, b: Block, content: Hash)
    requires Filed(s) && Keeps(s, content)
    ensures Keeps(Committed(s, b), content)
  {
    CommittedTxs(s, b);
  }

  lemma OldBlock(s: Store, b: Block, n: nat)
    requires Linked(s) && Filed(s) && CommitCheck(s, b).None? && n <= s.confirmed
    ensures n in s.hashes && BlockAt(s, n) && n in Committed(s, b).hashes && BlockAt(Committed(s, b), n)
    ensures s.hashes[n] != b.hash && Committed(s, b).hashes[n] == s.hashes[n]
  {
    hide PutTxs, Keeps, Filed, Contents;
    assert BlockAt(s, n);
    assert n != b.header.number;
    hide Linked;
    var (s', h) := (Committed(s, b), s.hashes[n]);
    assert s'.hashes[n] == h && s'.headers[h] == s.headers[h] && s'.payloads[h] == s.payloads[h];
    assert n > 0 ==> s'.hashes[n - 1] == s.hashes[n - 1];
    hide Committed;
    forall i | 0 <= i < |s.payloads[h]| ensures Keeps(s', s.payloads[h][i]) { TxStays(s, b, s.payloads[h][i]); }
  }

  lemma NewBlock(s: Store, b: Block)
    requires Filed(s) && CommitCheck(s, b).None?
    ensures BlockAt(Committed(s, b), b.header.number) && Describes(Committed(s, b), TaskFor(b))
  {
    hide PutTxs;
    CommittedTxs(s, b);
  }

  lemma CommittedLinked(s: Store, b: Block)
    requires Linked(s) && Filed(s) && CommitCheck(s, b).None?
    ensures Linked(Committed(s, b))
  {
    hide PutTxs, BlockAt, Filed, Describes;
    var s' := Committed(s, b);
    NewBlock(s, b);
    forall n: nat | n <= s.confirmed
      ensures n in s.hashes && s.hashes[n] != b.hash && s'.hashes[n] == s.hashes[n] && BlockAt(s', n)
    {
      OldBlock(s, b, n);
    }
  }

  lemma ExecutedKept(build: Params -> Execution, s: Store, b: Block, n: nat)
    requires Linked(s) && Filed(s) && CommitCheck(s, b).None? && n <= s.confirmed && ExecutedAt(build, s, n)
    ensures ExecutedAt(build, Committed(s, b), n)
  {
    OldBlock(s, b, n);
    if n > 0 { OldBlock(s, b, n - 1); }
    hide PutTxs, Linked, BlockAt, Filed;
  }

  lemma CommittedSound(build: Params -> Execution, s: Store, b: Block)
    requires Sound(build, s) && Filed(s) && CommitCheck(s, b).None?
    ensures Sound(build, Committed(s, b)) && Filed(Committed(s, b)) && Describes(Committed(s, b), TaskFor(b))
  {
    hide Linked, PutTxs, ExecutedAt, BlockAt, Filed, Describes;
    CommittedTxs(s, b);
    NewBlock(s, b);
    CommittedLinked(s, b);
    forall n: nat | n <= s.executed ensures ExecutedAt(build, Committed(s, b), n) { ExecutedKept(build, s, b, n); }
  }

  lemma DescribesKept(s: Store, b: Block, t: Task)
    requires Linked(s) && CommitCheck(s, b).None? && Describes(s, t)
    ensures Describes(Committed(s, b), t)
  {
    assert t.number <= s.confirmed;
  }

  // ---------------------------------------------------------------- runs of the node

  datatype Node = Node(s: Store, queue: seq<Task>)

  datatype Step =
    | Commit(b: Block)               // committed and queued
    | CommitThenCrash(b: Block)      // committed, but the process ends before it is queued
    | Process(fails: set<nat>)       // the first task, with the executions that fail this time
    | Restart

  function Next(build: Params -> Execution, n: Node, step: Step): Node {
    match step
    case Commit(b) => if CommitCheck(n.s, b).Some? then n else Node(Committed(n.s, b), n.queue + [TaskFor(b)])
    case CommitThenCrash(b) => Node(if CommitCheck(n.s, b).Some? then n.s else Committed(n.s, b), [])
    case Process(fails) => if n.queue == [] then n else Node(Processed(build, n.s, n.queue[0], fails).0, n.queue[1..])
    case Restart => n.(queue := [])
  }

  /** The queue holds the execute tasks of the last blocks, in order, and execution has not reached them. */
  ghost predicate Queued(n: Node) {
    n.s.executed + |n.queue| <= n.s.confirmed
    && forall i :: 0 <= i < |n.queue| ==> n.queue[i].number == n.s.confirmed - |n.queue| + 1 + i && Describes(n.s, n.queue[i])
  }

  ghost predicate Good(build: Params -> Execution, n: Node) {
    Sound(build, n.s) && Filed(n.s) && Queued(n)
  }

  lemma CommitGood(build: Params -> Execution, n: Node, b: Block)
    requires Good(build, n) && CommitCheck(n.s, b).None?
    ensures Good(build, Node(Committed(n.s, b), n.queue + [TaskFor(b)])) && Good(build, Node(Committed(n.s, b), []))
  {
    CommittedSound(build, n.s, b);
    SoundIsLinked(build, n.s);
    hide Sound, Filed, Describes, Linked, PutTxs, Contents;
    var s' := Committed(n.s, b);
    forall i | 0 <= i < |n.queue| ensures Describes(s', n.queue[i]) { DescribesKept(n.s, b, n.queue[i]); }
    QueueExtended(n, s', TaskFor(b));
  }

  lemma QueueExtended(n: Node, s: Store, t: Task)
    requires Queued(n) && s.confirmed == n.s.confirmed + 1 == t.number && s.executed == n.s.executed && Describes(s, t)
    requires forall i :: 0 <= i < |n.queue| ==> Describes(s, n.queue[i])
    ensures Queued(Node(s, n.queue + [t])) && Queued(Node(s, []))
  {
    hide Describes;
  }

  lemma SoundIsLinked(build: Params -> Execution, s: Store)
    requires Sound(build, s)
    ensures Linked(s)
  {
  }

  lemma ProcessGood(build: Params -> Execution, n: Node, fails: set<nat>)
    requires Good(build, n) && n.queue != []
    ensures Good(build, Node(Processed(build, n.s, n.queue[0], fails).0, n.queue[1..]))
  {
    hide Processed, Linked, ExecutedAt;
    ProcessedSound(build, n.s, n.queue[0], fails);
    var s' := Processed(build, n.s, n.queue[0], fails).0;
    assert forall t :: Describes(n.s, t) ==> Describes(s', t);
  }

  /** Each step keeps the promises, and neither number ever goes back. */
  lemma NextGood(build: Params -> Execution, n: Node, step: Step)
    requires Good(build, n)
    ensures var n' := Next(build, n, step);
      Good(build, n') && n.s.executed <= n'.s.executed && n.s.confirmed <= n'.s.confirmed
  {
    hide Sound, Linked, Processed, Describes;
    match step {
      case Commit(b) => if CommitCheck(n.s, b).None? { CommitGood(build, n, b); }
      case CommitThenCrash(b) => if CommitCheck(n.s, b).None? { CommitGood(build, n, b); }
      case Process(fails) =>
        if n.queue != [] {
          ProcessGood(build, n, fails);
          ProcessedSound(build, n.s, n.queue[0], fails);
        }
      case Restart =>
    }
  }

  function After(build: Params -> Execution, n: Node, steps: seq<Step>): Node
    decreases |steps|
  {
    if steps == [] then n else Next(build, After(build, n, steps[..|steps| - 1]), steps[|steps| - 1])
  }

  /** After genesis only block 0 is there, executed as it was committed. */
  ghost predicate Genesis(n: Node) {
    var s := n.s;
    n.queue == [] && s.confirmed == 0 && s.executed == 0 && Filed(s)
    && (forall k: nat :: k in s.hashes <==> k == 0) && BlockAt(s, 0) && s.hashes[0] in s.executions
  }

  /** Over every run of commits, executions, failures and crashes, every block up to the execution
      number is executed on its parent's execution, and that number stays within the confirmed one. */
  lemma {:induction false} RunGood(build: Params -> Execution, n: Node, steps: seq<Step>)
    requires Genesis(n)
    ensures Good(build, After(build, n, steps))
    decreases |steps|
  {
    if steps != [] {
      var k := |steps| - 1;
      RunGood(build, n, steps[..k]);
      NextGood(build, After(build, n, steps[..k]), steps[k]);
    }
  }

  /** The execution number never decreases between two points of a run. */
  lemma {:induction false} RunMonotone(build: Params -> Execution, n: Node, steps: seq<Step>, k: nat)
    requires Genesis(n) && k <= |steps|
    ensures After(build, n, steps[..k]).s.executed <= After(build, n, steps).s.executed
    decreases |steps|
  {
    hide Next, Good, Genesis;
    if k == |steps| {
      assert steps[..k] == steps;
    } else {
      var j := |steps| - 1;
      RunMonotone(build, n, steps[..j], k);
      assert steps[..j][..k] == steps[..k];
      RunGood(build, n, steps[..j]);
      NextGood(build, After(build, n, steps[..j]), steps[j]);
    }
  }

  /** Whatever failed or was lost before, a task that goes through leaves everything up to it executed. */
  lemma CatchesUp(build: Params -> Execution, n: Node, steps: seq<Step>)
    requires Genesis(n) && After(build, n, steps).queue != []
    ensures var m := After(build, n, steps); Next(build, m, Process({})).s.executed == m.queue[0].number
  {
    hide Sound, Processed;
    var m := After(build, n, steps);
    RunGood(build, n, steps);
    ProcessedSound(build, m.s, m.queue[0], {});
  }

  /** A task leaves the queue. Its block and all before it are executed then, or everything up to right
      before the first block that failed; the blocks themselves stay what they are. */
  ghost predicate ProcessOutcome(n: Node, fails: set<nat>, n': Node) {
    if n.queue == [] then n' == n
    else
      && n'.queue == n.queue[1..] && SameBlocks(n.s, n'.s) && n.s.executed <= n'.s.executed <= n.queue[0].number
      && (n'.s.executed == n.queue[0].number || n'.s.executed + 1 in fails)
      && forall k :: n.s.executed < k <= n'.s.executed ==> k !in fails
  }

  lemma {:induction false} CaughtUpPasses(build: Params -> Execution, s: Store, end: nat, fails: set<nat>)
    requires Sound(build, s) && s.executed < end <= s.confirmed
    ensures forall k :: s.executed < k <= CaughtUp(build, s, s.executed + 1, end, fails).0.executed ==> k !in fails
    decreases end - s.executed
  {
    hide Linked, ExecutedAt, Describes, Rebuilt, Executed;
    var n := s.executed + 1;
    if n < end {
      RebuiltDescribes(s, n);
      var t := Rebuilt(s, n).value;
      ExecutedSound(build, s, t, fails);
      if n !in fails { CaughtUpPasses(build, Executed(build, s, t, fails).value, end, fails); }
    }
  }

  lemma ProcessDoes(build: Params -> Execution, n: Node, fails: set<nat>)
    requires Good(build, n)
    ensures ProcessOutcome(n, fails, Next(build, n, Process(fails)))
  {
    hide Linked, ExecutedAt, CaughtUp, Executed, Filed;
    if n.queue != [] {
      var (s, t) := (n.s, n.queue[0]);
      assert Describes(s, t);
      InChain(s, t);
      hide Describes;
      ProcessedSound(build, s, t, fails);
      CaughtUpSound(build, s, t.number, fails);
      CaughtUpPasses(build, s, t.number, fails);
      var (s1, ok) := CaughtUp(build, s, s.executed + 1, t.number, fails);
      if ok { ExecutedSound(build, s1, t, fails); }
    }
  }

  // ---------------------------------------------------------------- rebuilt tasks

  /** The store still files this very transaction, signature included. */
  predicate Holds(s: Store, tx: Tx) {
    tx.content in s.txs && s.txs[tx.content] == tx
  }

  ghost predicate HoldsAll(s: Store, txs: seq<Tx>) {
    forall i :: 0 <= i < |txs| ==> Holds(s, txs[i])
  }

  /** At every point of every run a queued task and the one rebuilt from the store agree in everything
      an execution depends on, and are equal exactly when the store files the same signed transactions. */
  lemma RebuiltAgrees(build: Params -> Execution, n: Node, steps: seq<Step>, i: nat)
    requires Genesis(n) && i < |After(build, n, steps).queue|
    ensures var (s, t) := (After(build, n, steps).s, After(build, n, steps).queue[i]);
      var r := Rebuilt(s, t.number);
      r.Some? && r.value.(txs := t.txs) == t && Contents(r.value.txs) == Contents(t.txs) && (r.value == t <==> HoldsAll(s, t.txs))
  {
    RunGood(build, n, steps);
    var (s, t) := (After(build, n, steps).s, After(build, n, steps).queue[i]);
    RebuiltMatches(build, s, t);
  }

  lemma RebuiltMatches(build: Params -> Execution, s: Store, t: Task)
    requires Sound(build, s) && Describes(s, t)
    ensures var r := Rebuilt(s, t.number);
      r.Some? && r.value.(txs := t.txs) == t && Contents(r.value.txs) == Contents(t.txs) && (r.value == t <==> HoldsAll(s, t.txs))
  {
    InChain(s, t);
    RebuiltDescribes(s, t.number);
    assert BlockAt(s, t.number);
    var (hashes, r) := (s.payloads[t.hash], Rebuilt(s, t.number).value);
    GetTxsFinds(s, hashes);
    hide Linked, ExecutedAt, BlockAt, GetTxs;
    assert forall i :: 0 <= i < |hashes| ==> t.txs[i].content == hashes[i];
    if HoldsAll(s, t.txs) { assert forall i :: 0 <= i < |hashes| ==> Holds(s, t.txs[i]) && r.txs[i] == t.txs[i]; assert r.txs == t.txs; }
    if r == t { assert forall i :: 0 <= i < |hashes| ==> Keeps(s, hashes[i]) && t.txs[i] == s.txs[hashes[i]]; }
  }

  /** No transaction of the block is in the store yet, and none occurs twice: what the verifiers check
      of a block's body. */
  ghost predicate Fresh(s: Store, b: Block) {
    var all := b.metaTxs + b.payloadTxs;
    (forall i :: 0 <= i < |all| ==> all[i].content !in s.txs)
    && (forall i, j :: 0 <= i < j < |all| ==> all[i].content != all[j].content)
  }

  lemma {:induction false} PutTxsHolds(m: map<Hash, Tx>, txs: seq<Tx>, i: nat)
    requires i < |txs| && forall i, j :: 0 <= i < j < |txs| ==> txs[i].content != txs[j].content
    ensures txs[i].content in PutTxs(m, txs) && PutTxs(m, txs)[txs[i].content] == txs[i]
    decreases |txs|
  {
    if i < |txs| - 1 { PutTxsHolds(m, txs[..|txs| - 1], i); }
  }

  lemma {:induction false} PutTxsOther(m: map<Hash, Tx>, txs: seq<Tx>, k: Hash)
    requires k in m && forall i :: 0 <= i < |txs| ==> txs[i].content != k
    ensures k in PutTxs(m, txs) && PutTxs(m, txs)[k] == m[k]
    decreases |txs|
  {
    if txs != [] { PutTxsOther(m, txs[..|txs| - 1], k); }
  }

  lemma FreshHolds(s: Store, b: Block, tx: Tx)
    requires Fresh(s, b) && (Holds(s, tx) || tx in b.payloadTxs)
    ensures Holds(Committed(s, b), tx)
  {
    var all := b.metaTxs + b.payloadTxs;
    assert forall i :: 0 <= i < |b.metaTxs| ==> all[i] == b.metaTxs[i];
    assert forall i :: 0 <= i < |b.payloadTxs| ==> all[|b.metaTxs| + i] == b.payloadTxs[i];
    if Holds(s, tx) {
      PutTxsOther(s.txs, b.metaTxs, tx.content);
      PutTxsOther(PutTxs(s.txs, b.metaTxs), b.payloadTxs, tx.content);
    } else {
      var i :| 0 <= i < |b.payloadTxs| && b.payloadTxs[i] == tx;
      PutTxsHolds(PutTxs(s.txs, b.metaTxs), b.payloadTxs, i);
    }
  }

  ghost predicate QueueHeld(n: Node) {
    forall i :: 0 <= i < |n.queue| ==> HoldsAll(n.s, n.queue[i].txs)
  }

  lemma NextHeld(build: Params -> Execution, n: Node, step: Step)
    requires Good(build, n) && QueueHeld(n)
    requires step.Commit? || step.CommitThenCrash? ==> CommitCheck(n.s, step.b).Some? || Fresh(n.s, step.b)
    ensures QueueHeld(Next(build, n, step))
  {
    hide Fresh, Good, Processed, PutTxs, Committed;
    var n' := Next(build, n, step);
    if step.Commit? && CommitCheck(n.s, step.b).None? {
      forall i | 0 <= i < |n'.queue| ensures HoldsAll(n'.s, n'.queue[i].txs) {
        var txs := n'.queue[i].txs;
        if i < |n.queue| { assert HoldsAll(n.s, n.queue[i].txs); }
        forall j | 0 <= j < |txs| ensures Holds(n'.s, txs[j]) { FreshHolds(n.s, step.b, txs[j]); }
      }
    } else if step.Process? && n.queue != [] {
      ProcessKeepsTxs(build, n, step.fails);
      forall i | 0 <= i < |n'.queue| ensures HoldsAll(n'.s, n'.queue[i].txs) {
        var txs := n.queue[i + 1].txs;
        assert HoldsAll(n.s, txs);
        forall j | 0 <= j < |txs| ensures Holds(n'.s, txs[j]) { assert Holds(n.s, txs[j]); }
      }
    }
  }

  lemma ProcessKeepsTxs(build: Params -> Execution, n: Node, fails: set<nat>)
    requires Good(build, n) && n.queue != []
    ensures Processed(build, n.s, n.queue[0], fails).0.txs == n.s.txs
  {
    hide Sound, Processed;
    ProcessedSound(build, n.s, n.queue[0], fails);
  }

  /** When no committed block repeats a transaction, the rebuilt task is the queued one. */
  lemma {:induction false} RebuiltEquals(build: Params -> Execution, n: Node, steps: seq<Step>)
    requires Genesis(n)
    requires forall k :: 0 <= k < |steps| && (steps[k].Commit? || steps[k].CommitThenCrash?) ==>
      CommitCheck(After(build, n, steps[..k]).s, steps[k].b).Some? || Fresh(After(build, n, steps[..k]).s, steps[k].b)
    ensures QueueHeld(After(build, n, steps))
    ensures forall i :: 0 <= i < |After(build, n, steps).queue| ==>
      Rebuilt(After(build, n, steps).s, After(build, n, steps).queue[i].number) == Some(After(build, n, steps).queue[i])
    decreases |steps|
  {
    hide Good, Genesis, Next, Fresh, Rebuilt, CommitCheck, HoldsAll;
    var m := After(build, n, steps);
    if steps != [] {
      var k := |steps| - 1;
      var before := steps[..k];
      assert forall j :: 0 <= j < k ==> before[..j] == steps[..j] && before[j] == steps[j];
      RebuiltEquals(build, n, before);
      RunGood(build, n, before);
      NextHeld(build, After(build, n, before), steps[k]);
    } else {
      GenesisEmpty(n);
    }
    forall i | 0 <= i < |m.queue| ensures Rebuilt(m.s, m.queue[i].number) == Some(m.queue[i]) { RebuiltAgrees(build, n, steps, i); }
  }

  lemma GenesisEmpty(n: Node)
    requires Genesis(n)
    ensures n.queue == []
  {
  }

  // ---------------------------------------------------------------- what a commit brings about

  predicate LastAt(txs: seq<Tx>, i: nat, tx: Tx) {
    i < |txs| && txs[i] == tx && forall j :: i < j < |txs| ==> txs[j].content != tx.content
  }

  /** The last of the transactions with this content. */
  function Latest(txs: seq<Tx>, content: Hash): (r: Option<Tx>)
    ensures r.None? <==> forall i :: 0 <= i < |txs| ==> txs[i].content != content
    ensures r.Some? ==> r.value.content == content && exists i: nat :: LastAt(txs, i, r.value)
    decreases |txs|
  {
    if txs == [] then None
    else
      var (k, last) := (|txs| - 1, txs[|txs| - 1]);
      if last.content == content then assert LastAt(txs, k, last); Some(last)
      else
        var r := Latest(txs[..k], content);
        assert forall i :: 0 <= i < k ==> txs[..k][i] == txs[i];
        assert r.Some? ==> forall i: nat :: LastAt(txs[..k], i, r.value) ==> LastAt(txs, i, r.value);
        r
  }

  /** Under each content the last of these transactions with it, or else what was there before. */
  ghost predicate FiledAll(m: map<Hash, Tx>, txs: seq<Tx>, m': map<Hash, Tx>) {
    forall k :: (k in m' <==> k in m || Latest(txs, k).Some?)
      && (k in m' ==> m'[k] == if Latest(txs, k).Some? then Latest(txs, k).value else m[k])
  }

  lemma {:induction false} PutTxsAre(m: map<Hash, Tx>, txs: seq<Tx>)
    ensures FiledAll(m, txs, PutTxs(m, txs))
    decreases |txs|
  {
    if txs != [] { PutTxsAre(m, txs[..|txs| - 1]); }
  }

  lemma {:induction false} PutTxsConcat(m: map<Hash, Tx>, txs: seq<Tx>, txs': seq<Tx>)
    ensures PutTxs(PutTxs(m, txs), txs') == PutTxs(m, txs + txs')
    decreases |txs'|
  {
    if txs' == [] {
      assert txs + txs' == txs;
    } else {
      var k := |txs'| - 1;
      assert (txs + txs')[..|txs| + k] == txs + txs'[..k];
      PutTxsConcat(m, txs, txs'[..k]);
    }
  }

  /** A block with a known hash is a duplicate; one that is not right on top of the confirmed block is not
      the best; both change nothing. Any other becomes the confirmed block under its number, its
      transactions of both kinds are filed, and its execution is queued last. */
  ghost predicate CommitOutcome(n: Node, b: Block, error: Option<CommitError>, n': Node) {
    var (s, s') := (n.s, n'.s);
    if b.hash in s.headers then error == Some(Duplicated) && n' == n
    else if s.confirmed !in s.hashes then error == Some(DataError) && n' == n
    else if b.header.number != s.confirmed + 1 || b.header.parent != s.hashes[s.confirmed] then error == Some(NotBest) && n' == n
    else
      && error == None && s'.confirmed == b.header.number && s'.hashes == s.hashes[b.header.number := b.hash]
      && s'.headers == s.headers[b.hash := b.header] && b.hash in s'.payloads && s'.payloads - {b.hash} == s.payloads - {b.hash}
      && |s'.payloads[b.hash]| == |b.payloadTxs| && (forall i :: 0 <= i < |b.payloadTxs| ==> s'.payloads[b.hash][i] == b.payloadTxs[i].content)
      && FiledAll(s.txs, b.metaTxs + b.payloadTxs, s'.txs) && (s'.executions, s'.executed) == (s.executions, s.executed)
      && n'.queue == n.queue + [Task(b.header.number, b.header.timestamp, b.hash, b.header.parent, b.header.metaRoot, b.payloadTxs)]
  }

  lemma CommitDoes(build: Params -> Execution, n: Node, b: Block)
    ensures CommitOutcome(n, b, CommitCheck(n.s, b), Next(build, n, Commit(b)))
  {
    hide PutTxs, FiledAll;
    PutTxsConcat(n.s.txs, b.metaTxs, b.payloadTxs);
    PutTxsAre(n.s.txs, b.metaTxs + b.payloadTxs);
  }

  /** A commit before a crash leaves the same store, and a restart the empty queue. */
  lemma CrashDoes(build: Params -> Execution, n: Node, b: Block)
    ensures Next(build, n, CommitThenCrash(b)) == Node(Next(build, n, Commit(b)).s, [])
    ensures Next(build, n, Restart) == Node(n.s, [])
  {
  }

  // ---------------------------------------------------------------- the queue as an object

  class Chain {
    const build: Params -> Execution
    var s: Store
    var queue: seq<Task>

    ghost function Snapshot(): Node
      reads this
    {
      Node(s, queue)
    }

    constructor (build: Params -> Execution, genesis: Store)
      ensures this.build == build && Snapshot() == Node(genesis, [])
    {
      this.build, s, queue := build, genesis, [];
    }

    method StoreTxs(txs: seq<Tx>)
      modifies this`s
      ensures s == old(s).(txs := PutTxs(old(s).txs, txs))
    {
      for i := 0 to |txs|
        invariant s == old(s).(txs := PutTxs(old(s).txs, txs[..i]))
      {
        assert txs[..i + 1][..i] == txs[..i];
        s := s.(txs := s.txs[txs[i].content := txs[i]]);
      }
      assert txs[..|txs|] == txs;
    }

    method CommitBlock(b: Block) returns (error: Option<CommitError>)
      modifies this
      ensures error == CommitCheck(old(s), b)
      ensures Snapshot() == Next(build, old(Snapshot()), Commit(b))
      ensures CommitOutcome(old(Snapshot()), b, error, Snapshot())
    {
      CommitDoes(build, Snapshot(), b);
      hide CommitOutcome;
      if b.hash in s.headers { return Some(Duplicated); }
      if s.confirmed !in s.hashes { return Some(DataError); }
      if !(b.header.number == s.confirmed + 1 && b.header.parent == s.hashes[s.confirmed]) { return Some(NotBest); }
      s := s.(headers := s.headers[b.hash := b.header], payloads := s.payloads[b.hash := Contents(b.payloadTxs)]);
      StoreTxs(b.metaTxs);
      StoreTxs(b.payloadTxs);
      s := s.(hashes := s.hashes[b.header.number := b.hash], confirmed := b.header.number);
      queue := queue + [TaskFor(b)];
      error := None;
    }

    method LoadTxs(hashes: seq<Hash>) returns (txs: Option<seq<Tx>>)
      ensures txs == GetTxs(s, hashes)
    {
      var found: seq<Tx> := [];
      for i := 0 to |hashes|
        invariant GetTxs(s, hashes[..i]) == Some(found)
      {
        assert hashes[..i + 1][..i] == hashes[..i];
        if hashes[i] !in s.txs {
          MissingTx(s, hashes, i);
          return None;
        }
        found := found + [s.txs[hashes[i]]];
      }
      assert hashes[..|hashes|] == hashes;
      txs := Some(found);
    }

    method ExecuteTask(t: Task, fails: set<nat>) returns (ok: bool)
      modifies this`s
      ensures ok == Executed(build, old(s), t, fails).Some?
      ensures s == if ok then Executed(build, old(s), t, fails).value else old(s)
    {
      if t.parent !in s.executions { return false; }
      if t.number in fails { return false; }
      var e := build(Params(t.number, t.timestamp, t.hash, t.metaRoot, s.executions[t.parent].stateRoot, Contents(t.txs)));
      s := s.(executions := s.executions[t.hash := e], executed := t.number);
      ok := true;
    }

    method RebuildTask(number: nat) returns (t: Option<Task>)
      ensures t == Rebuilt(s, number)
    {
      if number !in s.hashes { return None; }
      var hash := s.hashes[number];
      if hash !in s.headers || hash !in s.payloads { return None; }
      var txs := LoadTxs(s.payloads[hash]);
      if txs.None? { return None; }
      var header := s.headers[hash];
      t := Some(Task(number, header.timestamp, hash, header.parent, header.metaRoot, txs.value));
    }

    /** `process_task`: first whatever was left behind, in order, then its own block. */
    method ProcessTask(task: Task, fails: set<nat>) returns (ok: bool)
      modifies this`s
      ensures (s, ok) == Processed(build, old(s), task, fails)
    {
      hide Rebuilt, Executed;
      var current := s.executed + 1;
      while current < task.number
        invariant CaughtUp(build, s, current, task.number, fails) == CaughtUp(build, old(s), old(s).executed + 1, task.number, fails)
        decreases task.number - current
      {
        var t := RebuildTask(current);
        if t.None? { return false; }
        var done := ExecuteTask(t.value, fails);
        if !done { return false; }
        current := current + 1;
      }
      ok := ExecuteTask(task, fails);
    }

    method ProcessNext(fails: set<nat>)
      modifies this
      ensures Snapshot() == Next(build, old(Snapshot()), Process(fails))
      ensures Good(build, old(Snapshot())) ==> Good(build, Snapshot()) && ProcessOutcome(old(Snapshot()), fails, Snapshot())
    {
      if Good(build, Snapshot()) {
        NextGood(build, Snapshot(), Process(fails));
        ProcessDoes(build, Snapshot(), fails);
      }
      hide Good, ProcessOutcome;
      if queue == [] { return; }
      var task := queue[0];
      queue := queue[1..];
      var ok := ProcessTask(task, fails);
    }
  }

  lemma {:induction false} MissingTx(s: Store, hashes: seq<Hash>, i: nat)
    requires i < |hashes| && hashes[i] !in s.txs
    ensures GetTxs(s, hashes).None?
    decreases |hashes|
  {
    if i < |hashes| - 1 { MissingTx(s, hashes[..|hashes| - 1], i); }
  }

  // ---------------------------------------------------------------- two runs that show the limits

  const FIRST: Store := Store(map[0 := Header(0, 0, 0, 0)], map[0 := []], map[], map[0 := 0], 0, map[0 := Execution(0, 0)], 0)

  function BlockOne(txs: seq<Tx>): Block { Block(1, Header(1, 0, 0, 0), [], txs) }

  function BlockTwo(txs: seq<Tx>): Block { Block(2, Header(2, 0, 1, 0), [], txs) }

  /** Two blocks are committed and executed; the first one's task, coming once more, sets the execution
      number back. */
  lemma LateTaskLowers(build: Params -> Execution)
    ensures var m := After(build, Node(FIRST, []), [Commit(BlockOne([])), Commit(BlockTwo([])), Process({}), Process({})]);
      m.s.executed == 2 && Processed(build, m.s, TaskFor(BlockOne([])), {}).0.executed == 1
  {
    var (n, b1, b2) := (Node(FIRST, []), BlockOne([]), BlockTwo([]));
    var steps := [Commit(b1), Commit(b2), Process({}), Process({})];
    assert steps[..3][..2][..1] == [steps[0]] && steps[..3][..2] == [steps[0], steps[1]] && steps[..1][..0] == [];
    assert Genesis(n);
    var n2 := Node(Committed(Committed(FIRST, b1), b2), [TaskFor(b1), TaskFor(b2)]);
    TwoCommitted(build, [], []);
    CatchesUp(build, n, steps[..2]);
    var n3 := After(build, n, steps[..3]);
    assert n3 == Next(build, n2, Process({})) && n3.queue == [TaskFor(b2)];
    CatchesUp(build, n, steps[..3]);
    var n4 := After(build, n, steps);
    RunGood(build, n, steps);
    RunGood(build, n, steps[..3]);
    RunGood(build, n, steps[..2]);
    StillDescribed(build, n2, TaskFor(b1));
    StillDescribed(build, n3, TaskFor(b1));
    ProcessedLowers(build, n4.s, TaskFor(b1), {});
    StaleEnds(build, n4.s, TaskFor(b1));
  }

  lemma TwoCommitted(build: Params -> Execution, txs: seq<Tx>, txs': seq<Tx>)
    ensures var (b1, b2) := (BlockOne(txs), BlockTwo(txs'));
      After(build, Node(FIRST, []), [Commit(b1), Commit(b2)]) == Node(Committed(Committed(FIRST, b1), b2), [TaskFor(b1), TaskFor(b2)])
  {
    hide PutTxs;
    var (n, b1, b2) := (Node(FIRST, []), BlockOne(txs), BlockTwo(txs'));
    var steps := [Commit(b1), Commit(b2)];
    assert steps[..1] == [steps[0]] && steps[..1][..0] == [];
    var n1 := Node(Committed(FIRST, b1), [TaskFor(b1)]);
    assert Next(build, n, steps[0]) == n1;
    assert After(build, n, steps[..1]) == n1 by { assert After(build, n, []) == n; }
    assert CommitCheck(n1.s, b2).None?;
    assert Next(build, n1, steps[1]) == Node(Committed(n1.s, b2), [TaskFor(b1), TaskFor(b2)]);
    assert After(build, n, steps) == Next(build, After(build, n, steps[..1]), steps[1]);
  }

  /** Executing leaves a task that describes its block as it was. */
  lemma StillDescribed(build: Params -> Execution, n: Node, t: Task)
    requires Good(build, n) && n.queue != [] && Describes(n.s, t)
    ensures Describes(Next(build, n, Process({})).s, t)
  {
    hide Processed, Sound;
    ProcessedSound(build, n.s, n.queue[0], {});
  }

  lemma StaleEnds(build: Params -> Execution, s: Store, t: Task)
    requires t.number <= s.executed
    ensures Processed(build, s, t, {}).0.executed in {s.executed, t.number}
  {
  }

  lemma OneLoaded(s: Store, tx: Tx)
    requires tx.content in s.txs && s.txs[tx.content] == tx
    ensures GetTxs(s, [tx.content]) == Some([tx])
  {
    var hashes := [tx.content];
    assert hashes[..|hashes| - 1] == [];
    assert GetTxs(s, []) == Some([]);
    assert [] + [tx] == [tx];
  }

  lemma OneFiled(m: map<Hash, Tx>, tx: Tx)
    ensures PutTxs(m, [tx]) == m[tx.content := tx]
  {
    assert [tx][..0] == [] && PutTxs(m, []) == m;
  }

  lemma BothCommitted()
    ensures var s := Committed(Committed(FIRST, BlockOne([Tx(5, 1)])), BlockTwo([Tx(5, 2)]));
      5 in s.txs && s.txs[5] == Tx(5, 2) && 1 in s.hashes && s.hashes[1] == 1 && 1 in s.headers && s.headers[1] == BlockOne([Tx(5, 1)]).header
      && 1 in s.payloads && s.payloads[1] == [5]
  {
    hide PutTxs, Contents;
    var (b1, b2) := (BlockOne([Tx(5, 1)]), BlockTwo([Tx(5, 2)]));
    OneFiled(PutTxs(Committed(FIRST, b1).txs, b2.metaTxs), Tx(5, 2));
    assert Contents(b1.payloadTxs) == [5];
  }

  /** One transaction signed twice, in two blocks: the first block's task, rebuilt from the store, carries
      the second signature. */
  lemma SignedTwice(build: Params -> Execution)
    ensures var m := After(build, Node(FIRST, []), [Commit(BlockOne([Tx(5, 1)])), Commit(BlockTwo([Tx(5, 2)]))]);
      |m.queue| == 2 && m.queue[0].txs == [Tx(5, 1)] && Rebuilt(m.s, 1) == Some(m.queue[0].(txs := [Tx(5, 2)]))
  {
    var (b1, b2) := (BlockOne([Tx(5, 1)]), BlockTwo([Tx(5, 2)]));
    TwoCommitted(build, b1.payloadTxs, b2.payloadTxs);
    var s := Committed(Committed(FIRST, b1), b2);
    BothCommitted();
    OneLoaded(s, Tx(5, 2));
    hide After, Committed, GetTxs;
    assert Rebuilt(s, 1) == Some(Task(1, 0, 1, 0, 0, [Tx(5, 2)]));
  }
}
