/** The two downstream stores as in-memory state: the `results` table of the
    relational store, keyed by order id, and the cache's `order:{id}` hashes
    and `recent_orders` list. The pure functions state each write policy; the
    classes hold the state the consumer changes in place. */
module Sinks {
  import opened Values
  import opened Transform

  /** `LTRIM recent_orders 0 99` keeps this many entries. */
  const RecentCap: nat := 100

  type Table = map<Value, OrderResult>
  type Hashes = map<Value, map<string, Value>>

  function Min(a: int, b: int): int {
    if a <= b then a else b
  }

  /** The columns the ON CONFLICT clause does not mention. */
  function FirstWriteColumns(row: OrderResult): (Value, Value, Value, Value, Value, Value) {
    (row.orderId, row.customerId, row.productId, row.quantity, row.price, row.total)
  }

  /** The row after `DO UPDATE SET status = EXCLUDED.status,
      processed_at = EXCLUDED.processed_at`. */
  function Merge(stored: OrderResult, incoming: OrderResult): (m: OrderResult)
    ensures FirstWriteColumns(m) == FirstWriteColumns(stored)
    ensures m.status == incoming.status && m.processedAt == incoming.processedAt
  {
    stored.(status := incoming.status, processedAt := incoming.processedAt)
  }

  /** Every row is stored under its own order id. */
  predicate Keyed(table: Table) {
    forall k :: k in table ==> table[k].orderId == k
  }

  /** The committed effect of the INSERT ... ON CONFLICT (order_id) statement. */
  function Upserted(table: Table, r: OrderResult): (t: Table)
    ensures t.Keys == table.Keys + {r.orderId}
    ensures forall k :: k in table && k != r.orderId ==> t[k] == table[k]
    ensures FirstWriteColumns(t[r.orderId])
         == FirstWriteColumns(if r.orderId in table then table[r.orderId] else r)
    ensures t[r.orderId].status == r.status && t[r.orderId].processedAt == r.processedAt
    ensures Keyed(table) ==> Keyed(t)
  {
    table[r.orderId := if r.orderId in table then Merge(table[r.orderId], r) else r]
  }

  /** `HSET key mapping`: the given fields are set, other fields of an existing
      hash are left as they were. */
  function HashMerged(hashes: Hashes, key: Value, mapping: map<string, Value>): (h: Hashes)
    ensures h.Keys == hashes.Keys + {key}
    ensures forall k :: k in hashes && k != key ==> h[k] == hashes[k]
    ensures forall f :: f in mapping ==> f in h[key] && h[key][f] == mapping[f]
    ensures key in hashes ==>
      forall f :: f in hashes[key] && f !in mapping ==> f in h[key] && h[key][f] == hashes[key][f]
    ensures h[key].Keys == mapping.Keys + (if key in hashes then hashes[key].Keys else {})
  {
    hashes[key := (if key in hashes then hashes[key] else map[]) + mapping]
  }

  /** `LTRIM list start stop` for non-negative indices: keep the elements at
      positions start through stop inclusive. */
  function Trimmed<T>(xs: seq<T>, start: nat, stop: nat): (ys: seq<T>)
    ensures |ys| == if start <= stop && start < |xs| then Min(stop + 1, |xs|) - start else 0
    ensures forall i :: 0 <= i < |ys| ==> ys[i] == xs[start + i]
  {
    if start <= stop && start < |xs| then xs[start .. Min(stop + 1, |xs|)] else []
  }

  /** `LPUSH` followed by `LTRIM 0 99`: the new entry in front of the old
      list, cut to its first 100 entries. */
  function PushedAndTrimmed<T>(xs: seq<T>, x: T): (ys: seq<T>)
    ensures |ys| == Min(|xs| + 1, RecentCap)
    ensures ys[0] == x
    ensures forall i :: 1 <= i < |ys| ==> ys[i] == xs[i - 1]
  {
    Trimmed([x] + xs, 0, RecentCap - 1)
  }

  /** One push and trim puts the new entry first, keeps the previous list in
      order behind it, and caps the length at 100. */
  lemma PushNewestFirst<T>(xs: seq<T>, x: T)
    ensures var ys := PushedAndTrimmed(xs, x);
      && |ys| == Min(|xs| + 1, RecentCap)
      && ys[0] == x
      && ys[1..] == xs[..|ys| - 1]
  {
    var ys := PushedAndTrimmed(xs, x);
    assert forall i :: 1 <= i < |ys| ==> ys[i] == xs[i - 1];
  }

  /** The list after pushing each of `ys` in turn, trimming after each. */
  function PushAll<T>(xs: seq<T>, ys: seq<T>): seq<T>
    decreases |ys|
  {
    if ys == [] then xs else PushedAndTrimmed(PushAll(xs, ys[..|ys| - 1]), ys[|ys| - 1])
  }

  /** Whatever the starting list, once at least one entry has been pushed and
      trimmed the list never exceeds 100 entries, and its first entries are the
      pushed ones, newest first. */
  lemma {:induction false} PushAllBounded<T>(xs: seq<T>, ys: seq<T>)
    requires ys != []
    ensures |PushAll(xs, ys)| == Min(|xs| + |ys|, RecentCap)
    ensures forall i :: 0 <= i < Min(|ys|, RecentCap) ==> PushAll(xs, ys)[i] == ys[|ys| - 1 - i]
  {
    var init := ys[..|ys| - 1];
    var last := ys[|ys| - 1];
    PushNewestFirst(PushAll(xs, init), last);
    if init != [] {
      PushAllBounded(xs, init);
      var zs := PushAll(xs, ys);
      forall i | 1 <= i < Min(|ys|, RecentCap)
        ensures zs[i] == ys[|ys| - 1 - i]
      {
        assert zs[i] == PushAll(xs, init)[i - 1];
        assert init[|init| - 1 - (i - 1)] == ys[|ys| - 1 - i];
      }
    }
  }

  /** Applying the same record twice leaves the table as applying it once. */
  lemma UpsertIdempotent(table: Table, r: OrderResult)
    ensures Upserted(Upserted(table, r), r) == Upserted(table, r)
  {
  }

  /** Upserting a record after one with the same first-write columns gives
      the table upserting it alone would give. */
  lemma UpsertAbsorbs(table: Table, earlier: OrderResult, r: OrderResult)
    requires FirstWriteColumns(earlier) == FirstWriteColumns(r)
    ensures Upserted(Upserted(table, earlier), r) == Upserted(table, r)
  {
    var id := r.orderId;
    assert Upserted(Upserted(table, earlier), r)[id] == Upserted(table, r)[id];
  }

  /** The table after upserting each record of `rs` in turn. */
  function UpsertAll(table: Table, rs: seq<OrderResult>): Table
    decreases |rs|
  {
    if rs == [] then table else Upserted(UpsertAll(table, rs[..|rs| - 1]), rs[|rs| - 1])
  }

  /** Redelivering versions of one order: the row keeps the columns of the
      first version ever written and the status and timestamp of the last. */
  lemma {:induction false} FirstWriteWins(table: Table, rs: seq<OrderResult>, id: Value)
    requires id !in table && rs != []
    requires forall i :: 0 <= i < |rs| ==> rs[i].orderId == id
    ensures id in UpsertAll(table, rs)
    ensures FirstWriteColumns(UpsertAll(table, rs)[id]) == FirstWriteColumns(rs[0])
    ensures UpsertAll(table, rs)[id].status == rs[|rs| - 1].status
    ensures UpsertAll(table, rs)[id].processedAt == rs[|rs| - 1].processedAt
  {
    var init := rs[..|rs| - 1];
    if init == [] {
      assert UpsertAll(table, init) == table;
    } else {
      FirstWriteWins(table, init, id);
      assert init[0] == rs[0];
    }
  }

  /** The `results` table of the relational store. */
  class Database {
    var results: Table

    constructor (results: Table)
      ensures this.results == results
    {
      this.results := results;
    }

    /** Executes and commits the upsert for `r`. */
    method Upsert(r: OrderResult)
      modifies this
      ensures results == Upserted(old(results), r)
    {
      if r.orderId in results {
        // ON CONFLICT (order_id) DO UPDATE SET status, processed_at
        var row := results[r.orderId];
        row := row.(status := r.status, processedAt := r.processedAt);
        results := results[r.orderId := row];
      } else {
        results := results[r.orderId := r];
      }
    }
  }

  /** The cache store: one hash per order (key `order:{id}`, here indexed by
      the id itself) and the `recent_orders` list, newest first. */
  class Cache {
    var hashes: Hashes
    var recentOrders: seq<OrderResult>

    constructor (hashes: Hashes, recentOrders: seq<OrderResult>)
      ensures this.hashes == hashes && this.recentOrders == recentOrders
    {
      this.hashes := hashes;
      this.recentOrders := recentOrders;
    }

    method HSet(key: Value, mapping: map<string, Value>)
      modifies this
      ensures hashes == HashMerged(old(hashes), key, mapping)
      ensures recentOrders == old(recentOrders)
    {
      var current := if key in hashes then hashes[key] else map[];
      hashes := hashes[key := current + mapping];
    }

    method LPush(x: OrderResult)
      modifies this
      ensures recentOrders == [x] + old(recentOrders)
      ensures hashes == old(hashes)
    {
      recentOrders := [x] + recentOrders;
    }

    method LTrim(start: nat, stop: nat)
      modifies this
      ensures recentOrders == Trimmed(old(recentOrders), start, stop)
      ensures hashes == old(hashes)
    {
      if start <= stop && start < |recentOrders| {
        recentOrders := recentOrders[start .. Min(stop + 1, |recentOrders|)];
      } else {
        recentOrders := [];
      }
    }
  }
}
