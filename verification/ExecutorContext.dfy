/** The key-value contexts that calls run against: write buffers over a trie, with pending events. */
module ExecutorContext {

  /** A storage table of a module and an encoded entry in it. */
  datatype Key = Slot(table: nat, entry: nat)
  type Value = nat
  type Event = nat

  datatype Option<T> = None | Some(value: T)

  /** A write buffer; a key bound to `None` is a pending deletion. */
  type Writes = map<Key, Option<Value>>
  type Store = map<Key, Value>
  type Item = (Key, Option<Value>)

  function Get(s: Store, k: Key): Option<Value> {
    if k in s then Some(s[k]) else None
  }

  function Put(s: Store, k: Key, v: Option<Value>): (r: Store)
    ensures forall j :: Get(r, j) == if j == k then v else Get(s, j)
  {
    if v.Some? then s[k := v.value] else s - {k}
  }

  function Insert(w: Writes, k: Key, v: Option<Value>): Writes {
    w[k := v]
  }

  /** The store as seen through one buffer. */
  function Through(s: Store, w: Writes): (r: Store)
    ensures forall k :: Get(r, k) == if k in w then w[k] else Get(s, k)
  {
    map k | k in s.Keys + w.Keys && (k in w ==> w[k].Some?) :: if k in w then w[k].value else s[k]
  }

  lemma SameStore(s: Store, t: Store)
    requires forall k :: Get(s, k) == Get(t, k)
    ensures s == t
  {
    forall k ensures k in s <==> k in t { assert Get(s, k) == Get(t, k); }
    forall k | k in s ensures s[k] == t[k] { assert Get(s, k) == Get(t, k); }
  }

  lemma ThroughPut(s: Store, w: Writes, k: Key, v: Option<Value>)
    ensures Through(s, w[k := v]) == Put(Through(s, w), k, v)
  {
    SameStore(Through(s, w[k := v]), Put(Through(s, w), k, v));
  }

  lemma ThroughMerge(s: Store, w: Writes, w': Writes)
    ensures Through(s, w + w') == Through(Through(s, w), w')
  {
    SameStore(Through(s, w + w'), Through(Through(s, w), w'));
  }

  lemma ThroughNothing(s: Store)
    ensures Through(s, map[]) == s
  {
    SameStore(Through(s, map[]), s);
  }

  // ---------------------------------------------------------------- draining and extending maps

  /** Inserting the items one after another; a later item replaces an earlier one. */
  function Extended(m: Writes, items: seq<Item>): Writes {
    if items == [] then m
    else var (k, v) := items[|items| - 1]; Extended(m, items[..|items| - 1])[k := v]
  }

  /** `items` lists every binding of `m` exactly once, in some order. */
  predicate Enumerates(items: seq<Item>, m: Writes) {
    if items == [] then m == map[]
    else
      var (k, v) := items[|items| - 1];
      k in m && m[k] == v && Enumerates(items[..|items| - 1], m - {k})
  }

  /** Whatever order a map drains in, extending with the items merges the two maps. */
  lemma {:induction false} ExtendedByDrained(m: Writes, items: seq<Item>, drained: Writes)
    requires Enumerates(items, drained)
    ensures Extended(m, items) == m + drained
    decreases |items|
  {
    if items != [] {
      var (k, v) := items[|items| - 1];
      ExtendedByDrained(m, items[..|items| - 1], drained - {k});
      assert (m + (drained - {k}))[k := v] == m + drained;
    }
  }

  /** Items written one at a time into a buffer over `s`. */
  lemma {:induction false} ThroughExtended(s: Store, w: Writes, items: seq<Item>, drained: Writes)
    requires Enumerates(items, drained)
    ensures Through(s, Extended(w, items)) == Through(Through(s, w), drained)
  {
    ExtendedByDrained(w, items, drained);
    ThroughMerge(s, w, drained);
  }

  lemma EnumeratesMore(items: seq<Item>, m: Writes, k: Key, v: Option<Value>)
    requires Enumerates(items, m) && k !in m
    ensures Enumerates(items + [(k, v)], m[k := v])
  {
    assert (items + [(k, v)])[..|items|] == items;
    assert m[k := v] - {k} == m;
  }

  method DrainMap(m: Writes) returns (items: seq<Item>)
    ensures Enumerates(items, m)
  {
    items := [];
    var left := m.Keys;
    assert m - left == map[];
    while left != {}
      invariant left <= m.Keys
      invariant Enumerates(items, m - left)
      decreases left
    {
      var k :| k in left;
      EnumeratesMore(items, m - left, k, m[k]);
      assert (m - left)[k := m[k]] == m - (left - {k});
      items := items + [(k, m[k])];
      left := left - {k};
    }
    assert m - left == m;
  }

  method ExtendMap(m: Writes, items: seq<Item>) returns (r: Writes)
    ensures r == Extended(m, items)
  {
    r := m;
    for i := 0 to |items|
      invariant r == Extended(m, items[..i])
    {
      assert items[..i + 1][..i] == items[..i];
      r := r[items[i].0 := items[i].1];
    }
    assert items[..|items|] == items;
  }

  // ---------------------------------------------------------------- the executor's own context

  /** What a call can observe: both stores in full and the events so far. */
  datatype World = World(meta: Store, payload: Store, events: seq<Event>)

  class Context {
    const metaTrie: Store
    const payloadTrie: Store
    var metaTx: Writes
    var metaBuffer: Writes
    var payloadTx: Writes
    var payloadBuffer: Writes
    var events: seq<Event>

    ghost function Meta(): Store reads this {
      Through(Through(metaTrie, metaBuffer), metaTx)
    }

    ghost function Payload(): Store reads this {
      Through(Through(payloadTrie, payloadBuffer), payloadTx)
    }

    ghost function Observed(): World reads this {
      World(Meta(), Payload(), events)
    }

    /** The state the next transaction starts from if the current one is abandoned. */
    ghost function Settled(): World reads this {
      World(Through(metaTrie, metaBuffer), Through(payloadTrie, payloadBuffer), [])
    }

    constructor (metaTrie: Store, payloadTrie: Store)
      ensures Observed() == World(metaTrie, payloadTrie, []) && Settled() == Observed()
      ensures Drained()
      ensures this.metaTrie == metaTrie && this.payloadTrie == payloadTrie
    {
      this.metaTrie, this.payloadTrie := metaTrie, payloadTrie;
      metaTx, metaBuffer, payloadTx, payloadBuffer, events := map[], map[], map[], map[], [];
      ThroughNothing(metaTrie);
      ThroughNothing(payloadTrie);
    }

    ghost predicate Drained() reads this {
      metaTx == map[] && payloadTx == map[] && events == []
    }

    method MetaGet(key: Key) returns (r: Option<Value>)
      ensures r == Get(Meta(), key)
    {
      if key in metaTx { return metaTx[key]; }
      if key in metaBuffer { return metaBuffer[key]; }
      r := Get(metaTrie, key);
    }

    method MetaSet(key: Key, value: Option<Value>)
      modifies this`metaTx
      ensures metaTx == old(metaTx)[key := value]
      ensures Meta() == Put(old(Meta()), key, value)
    {
      ThroughPut(Through(metaTrie, metaBuffer), metaTx, key, value);
      metaTx := metaTx[key := value];
    }

    method MetaDrain() returns (items: seq<Item>)
      modifies this`metaTx
      ensures metaTx == map[] && Enumerates(items, old(metaTx))
      ensures Meta() == Settled().meta
    {
      items := DrainMap(metaTx);
      metaTx := map[];
      ThroughNothing(Through(metaTrie, metaBuffer));
    }

    method MetaApply(items: seq<Item>)
      modifies this`metaBuffer
      ensures metaBuffer == Extended(old(metaBuffer), items)
    {
      metaBuffer := ExtendMap(metaBuffer, items);
    }

    method PayloadGet(key: Key) returns (r: Option<Value>)
      ensures r == Get(Payload(), key)
    {
      if key in payloadTx { return payloadTx[key]; }
      if key in payloadBuffer { return payloadBuffer[key]; }
      r := Get(payloadTrie, key);
    }

    method PayloadSet(key: Key, value: Option<Value>)
      modifies this`payloadTx
      ensures payloadTx == old(payloadTx)[key := value]
      ensures Payload() == Put(old(Payload()), key, value)
    {
      ThroughPut(Through(payloadTrie, payloadBuffer), payloadTx, key, value);
      payloadTx := payloadTx[key := value];
    }

    method PayloadDrain() returns (items: seq<Item>)
      modifies this`payloadTx
      ensures payloadTx == map[] && Enumerates(items, old(payloadTx))
      ensures Payload() == Settled().payload
    {
      items := DrainMap(payloadTx);
      payloadTx := map[];
      ThroughNothing(Through(payloadTrie, payloadBuffer));
    }

    method PayloadApply(items: seq<Item>)
      modifies this`payloadBuffer
      ensures payloadBuffer == Extended(old(payloadBuffer), items)
    {
      payloadBuffer := ExtendMap(payloadBuffer, items);
    }

    method EmitEvent(e: Event)
      modifies this`events
      ensures events == old(events) + [e]
    {
      events := events + [e];
    }

    method DrainEvents() returns (es: seq<Event>)
      modifies this`events
      ensures es == old(events) && events == []
    {
      es, events := events, [];
    }

    /** A successful transaction: everything it saw becomes the settled state. */
    method Accept() returns (es: seq<Event>)
      modifies this`metaTx, this`metaBuffer, this`payloadTx, this`payloadBuffer, this`events
      ensures Drained() && Settled() == Observed()
      ensures Observed() == old(Observed()).(events := []) && es == old(events)
    {
      hide Through, Extended, Enumerates;
      var items := MetaDrain();
      ThroughExtended(metaTrie, metaBuffer, items, old(metaTx));
      MetaApply(items);
      items := PayloadDrain();
      ThroughExtended(payloadTrie, payloadBuffer, items, old(payloadTx));
      PayloadApply(items);
      es := DrainEvents();
      ThroughNothing(Through(metaTrie, metaBuffer));
      ThroughNothing(Through(payloadTrie, payloadBuffer));
    }

    /** A failed transaction: every trace of it goes. */
    method Reject()
      modifies this`metaTx, this`payloadTx, this`events
      ensures Drained() && Observed() == Settled() == old(Settled())
    {
      var items := MetaDrain();
      items := PayloadDrain();
      var es := DrainEvents();
    }
  }
}
