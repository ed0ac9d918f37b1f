/** The Raft log: entries keyed by index in an ordered map, above a base that committed blocks raise. */
module RaftLog {

  datatype Option<T> = None | Some(value: T)

  datatype Data = Blank | Proposed(hash: nat)
  datatype Entry = Entry(term: nat, index: nat, data: Data)

  type Logs = map<nat, Entry>

  predicate IsMax(keys: set<nat>, m: nat) {
    m in keys && forall k :: k in keys ==> k <= m
  }

  /** The greatest key, the last one an ordered map iterates over. */
  function MaxKey(keys: set<nat>): (m: nat)
    requires keys != {}
    ensures IsMax(keys, m)
  {
    MaxExists(keys);
    var m :| IsMax(keys, m);
    m
  }

  lemma {:induction false} MaxExists(keys: set<nat>)
    requires keys != {}
    ensures exists m: nat :: IsMax(keys, m)
    decreases |keys|
  {
    var x :| x in keys;
    var rest := keys - {x};
    assert forall k :: k in keys ==> k == x || k in rest;
    if rest == {} {
      assert IsMax(keys, x);
    } else {
      MaxExists(rest);
      var m: nat :| IsMax(rest, m);
      assert IsMax(keys, if x > m then x else m);
    }
  }

  /** Inserting each entry under its own index, in order. */
  function Appended(logs: Logs, entries: seq<Entry>): Logs
    decreases |entries|
  {
    if entries == [] then logs
    else var e := entries[|entries| - 1]; Appended(logs, entries[..|entries| - 1])[e.index := e]
  }

  function CutFrom(logs: Logs, from: nat): Logs {
    map k | k in logs && k < from :: logs[k]
  }

  function CutTo(logs: Logs, upTo: nat): Logs {
    map k | k in logs && k > upTo :: logs[k]
  }

  // ---------------------------------------------------------------- the log as a sequence

  /** The keys are exactly base+1 .. base+n, and each entry carries its key as index. */
  ghost predicate Contiguous(base: nat, logs: Logs) {
    (forall k: nat :: k in logs <==> base < k <= base + |logs|)
    && (forall k :: k in logs ==> logs[k].index == k)
  }

  ghost function Log(base: nat, logs: Logs): (r: seq<Entry>)
    requires Contiguous(base, logs)
    ensures |r| == |logs|
    ensures forall i :: 0 <= i < |r| ==> r[i] == logs[base + 1 + i]
  {
    seq(|logs|, i requires 0 <= i < |logs| => logs[base + 1 + i])
  }

  /** The indices count up from the first entry's, as in any slice of a leader's log. */
  ghost predicate Consecutive(entries: seq<Entry>) {
    forall i :: 0 <= i < |entries| ==> entries[i].index == entries[0].index + i
  }

  /** Exactly the keys base+1 .. base+n: then n is the size. */
  lemma {:induction false} IntervalSize(base: nat, logs: Logs, n: nat)
    requires forall k: nat :: k in logs <==> base < k <= base + n
    ensures |logs| == n
    decreases n
  {
    if n == 0 {
      if k: nat :| k in logs { assert false; }
      assert logs == map[];
    } else {
      var rest := logs - {base + n};
      IntervalSize(base, rest, n - 1);
      assert logs == rest[base + n := logs[base + n]];
    }
  }

  lemma ContiguousBy(base: nat, logs: Logs, n: nat)
    requires forall k: nat :: k in logs <==> base < k <= base + n
    requires forall k :: k in logs ==> logs[k].index == k
    ensures Contiguous(base, logs) && |logs| == n
  {
    IntervalSize(base, logs, n);
  }

  lemma {:induction false} AppendedKeys(logs: Logs, entries: seq<Entry>, first: nat)
    requires forall i :: 0 <= i < |entries| ==> entries[i].index == first + i
    ensures forall k: nat :: k in Appended(logs, entries) <==> k in logs || first <= k < first + |entries|
    ensures forall k: nat :: k in Appended(logs, entries) ==>
      Appended(logs, entries)[k] == if first <= k < first + |entries| then entries[k - first] else logs[k]
    decreases |entries|
  {
    if entries != [] {
      AppendedKeys(logs, entries[..|entries| - 1], first);
    }
  }

  /** Appending consecutive entries right after the last one. */
  lemma AppendAtEnd(base: nat, logs: Logs, entries: seq<Entry>)
    requires Contiguous(base, logs)
    requires forall i :: 0 <= i < |entries| ==> entries[i].index == base + |logs| + 1 + i
    ensures var r := Appended(logs, entries); Contiguous(base, r) && Log(base, r) == Log(base, logs) + entries
  {
    hide Appended;
    var (first, r) := (base + |logs| + 1, Appended(logs, entries));
    AppendedKeys(logs, entries, first);
    forall k: nat ensures k in r <==> base < k <= base + (|logs| + |entries|) { assert k in logs <==> base < k < first; }
    ContiguousBy(base, r, |logs| + |entries|);
    hide Contiguous;
  }

  lemma CutAfter(base: nat, logs: Logs, prev: nat)
    requires Contiguous(base, logs) && base <= prev <= base + |logs|
    ensures var r := CutFrom(logs, prev + 1);
      Contiguous(base, r) && |r| == prev - base && Log(base, r) == Log(base, logs)[..prev - base]
  {
    ContiguousBy(base, CutFrom(logs, prev + 1), prev - base);
  }

  /** The splice: truncate after `prev`, then append. */
  lemma Splice(base: nat, logs: Logs, prev: nat, entries: seq<Entry>)
    requires Contiguous(base, logs) && base <= prev <= base + |logs|
    requires forall i :: 0 <= i < |entries| ==> entries[i].index == prev + 1 + i
    ensures var r := Appended(CutFrom(logs, prev + 1), entries);
      Contiguous(base, r) && Log(base, r) == Log(base, logs)[..prev - base] + entries
  {
    CutAfter(base, logs, prev);
    AppendAtEnd(base, CutFrom(logs, prev + 1), entries);
  }

  /** Raising the base drops a prefix. */
  lemma RaiseBase(base: nat, logs: Logs, base': nat)
    requires Contiguous(base, logs) && base <= base'
    ensures var r := CutTo(logs, base');
      Contiguous(base', r) && Log(base', r) == if base' - base <= |logs| then Log(base, logs)[base' - base..] else []
  {
    var n := if base' - base <= |logs| then base + |logs| - base' else 0;
    ContiguousBy(base', CutTo(logs, base'), n);
  }

  lemma LastKey(base: nat, logs: Logs)
    requires Contiguous(base, logs) && |logs| > 0
    ensures logs.Keys != {} && MaxKey(logs.Keys) == base + |logs|
  {
    assert base + |logs| in logs;
  }

  // ---------------------------------------------------------------- the loops over the map

  method AppendEntries(logs: Logs, entries: seq<Entry>) returns (r: Logs)
    ensures r == Appended(logs, entries)
  {
    r := logs;
    for i := 0 to |entries|
      invariant r == Appended(logs, entries[..i])
    {
      assert entries[..i + 1][..i] == entries[..i];
      r := r[entries[i].index := entries[i]];
    }
    assert entries[..|entries|] == entries;
  }

  /** The keys of a range are collected first and then removed one by one. */
  method RemoveKeys(logs: Logs, keys: set<nat>) returns (r: Logs)
    ensures r == logs - keys
  {
    r := logs;
    var left := keys;
    while left != {}
      invariant left <= keys && r == logs - (keys - left)
      decreases left
    {
      var k :| k in left;
      r, left := r - {k}, left - {k};
    }
  }

  method DeleteFrom(logs: Logs, from: nat) returns (r: Logs)
    ensures r == CutFrom(logs, from)
  {
    var keys := set k | k in logs && k >= from;
    r := RemoveKeys(logs, keys);
  }

  method DeleteTo(logs: Logs, upTo: nat) returns (r: Logs)
    ensures r == CutTo(logs, upTo)
  {
    var keys := set k | k in logs && k <= upTo;
    r := RemoveKeys(logs, keys);
  }
}
