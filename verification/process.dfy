/** process_order end to end: the pure preparation, then the sink writes in the
    source's fixed order (upsert and commit, HSET, LPUSH, LTRIM), any of which
    may raise. Which step raises, if any, is an input. */
module Process {
  import opened Values
  import opened Transform
  import opened Sinks

  /** The calls of process_order that reach another system, in call order. */
  datatype SinkStep =
    | ConnectDb       // get_postgres_connection and cursor()
    | ExecuteUpsert   // cursor.execute of the upsert
    | CommitDb        // pg_conn.commit()
    | CloseDb         // cursor.close() and pg_conn.close()
    | ConnectCache    // get_redis_connection
    | HashSet         // hset order:{id}
    | ListPush        // lpush recent_orders
    | ListTrim        // ltrim recent_orders 0 99

  function Rank(step: SinkStep): nat {
    match step
    case ConnectDb => 0
    case ExecuteUpsert => 1
    case CommitDb => 2
    case CloseDb => 3
    case ConnectCache => 4
    case HashSet => 5
    case ListPush => 6
    case ListTrim => 7
  }

  /** Whether a sink call raises during this call of process_order, and which. */
  datatype Fault = NoFault | FailAt(step: SinkStep)

  /** `step` runs and completes: no call at or before it raised. */
  predicate Completes(fault: Fault, step: SinkStep) {
    fault.NoFault? || Rank(step) < Rank(fault.step)
  }

  /** The exception process_order re-raises. */
  datatype Failure =
    | AttributeError          // `.get` on a decoded value that is not an object
    | OperandError            // `quantity * price` raises: TypeError, OverflowError or MemoryError
    | SinkError(step: SinkStep)

  datatype Outcome = Returned | Raised(failure: Failure)

  /** Both stores as one value. */
  datatype Stores = Stores(results: Table, hashes: Hashes, recentOrders: seq<OrderResult>)

  datatype Processed = Processed(stores: Stores, outcome: Outcome)

  function Snapshot(db: Database, cache: Cache): Stores
    reads db, cache
  {
    Stores(db.results, cache.hashes, cache.recentOrders)
  }

  /** How a call of process_order ends. It does not depend on the contents of
      the stores. */
  function OutcomeOf(data: Value, now: string, fault: Fault): (o: Outcome)
    ensures o == Returned <==>
      Prepare(data, now).MissingId? || (Prepare(data, now).Ready? && fault == NoFault)
    ensures o.Raised? && o.failure.SinkError? ==> fault == FailAt(o.failure.step)
  {
    match Prepare(data, now)
    case NotAMapping => Raised(AttributeError)
    case BadOperands => Raised(OperandError)
    case MissingId => Returned
    case Ready(_) => if fault.NoFault? then Returned else Raised(SinkError(fault.step))
  }

  /** The stores after the steps of a persist that completed: each effect
      happens exactly when its call completed. */
  function Persist(s: Stores, r: OrderResult, fault: Fault): (p: Stores)
    ensures !Completes(fault, CommitDb) ==> p == s
    ensures Completes(fault, CommitDb) ==>
      r.orderId in p.results && p.results[r.orderId].status == r.status
    ensures Completes(fault, CommitDb) ==> p.results == Upserted(s.results, r)
    ensures Completes(fault, HashSet) ==> p.hashes == HashMerged(s.hashes, r.orderId, Fields(r))
    ensures Completes(fault, HashSet) ==> r.orderId in p.hashes
    ensures !Completes(fault, HashSet) ==> p.hashes == s.hashes
    ensures !Completes(fault, ListPush) ==> p.recentOrders == s.recentOrders
    ensures Completes(fault, ListPush) && !Completes(fault, ListTrim) ==> p.recentOrders == [r] + s.recentOrders
    ensures |p.recentOrders| == if !Completes(fault, ListPush) then |s.recentOrders|
                                else if !Completes(fault, ListTrim) then |s.recentOrders| + 1
                                else Min(|s.recentOrders| + 1, RecentCap)
  {
    var results := if Completes(fault, CommitDb) then Upserted(s.results, r) else s.results;
    var hashes := if Completes(fault, HashSet) then HashMerged(s.hashes, r.orderId, Fields(r)) else s.hashes;
    var pushed := if Completes(fault, ListPush) then [r] + s.recentOrders else s.recentOrders;
    var recent := if Completes(fault, ListTrim) then Trimmed(pushed, 0, RecentCap - 1) else pushed;
    Stores(results, hashes, recent)
  }

  /** The specification of process_order on the stores. */
  function ProcessSpec(s: Stores, data: Value, now: string, fault: Fault): (p: Processed)
    ensures p.outcome == OutcomeOf(data, now, fault)
    ensures !Prepare(data, now).Ready? ==> p.stores == s
  {
    match Prepare(data, now)
    case NotAMapping => Processed(s, Raised(AttributeError))
    case BadOperands => Processed(s, Raised(OperandError))
    case MissingId => Processed(s, Returned)
    case Ready(r) => Processed(Persist(s, r, fault), if fault.NoFault? then Returned else Raised(SinkError(fault.step)))
  }

  /** process_order, with the stores as state. */
  method ProcessOrder(db: Database, cache: Cache, data: Value, now: string, fault: Fault)
    returns (outcome: Outcome)
    modifies db, cache
    ensures Snapshot(db, cache) == ProcessSpec(old(Snapshot(db, cache)), data, now, fault).stores
    ensures outcome == OutcomeOf(data, now, fault)
  {
    var prepared := Prepare(data, now);
    match prepared {
      case NotAMapping =>
        return Raised(AttributeError);
      case BadOperands =>
        return Raised(OperandError);
      case MissingId =>
        return Returned;
      case Ready(r) =>
        outcome := PersistOrder(db, cache, r, fault);
    }
  }

  /** The sink half of process_order: upsert and commit, then HSET, LPUSH and
      LTRIM, returning at the first call that raises. */
  method PersistOrder(db: Database, cache: Cache, r: OrderResult, fault: Fault)
    returns (outcome: Outcome)
    modifies db, cache
    ensures db.results == Persist(old(Snapshot(db, cache)), r, fault).results
    ensures cache.hashes == Persist(old(Snapshot(db, cache)), r, fault).hashes
    ensures cache.recentOrders == Persist(old(Snapshot(db, cache)), r, fault).recentOrders
    ensures outcome == if fault.NoFault? then Returned else Raised(SinkError(fault.step))
  {
    if !Completes(fault, CommitDb) {
      // connecting, executing or committing raised: nothing was committed
      return Raised(SinkError(fault.step));
    }
    db.Upsert(r);
    if !Completes(fault, HashSet) {
      return Raised(SinkError(fault.step));
    }
    cache.HSet(r.orderId, Fields(r));
    if !Completes(fault, ListPush) {
      return Raised(SinkError(fault.step));
    }
    cache.LPush(r);
    if !Completes(fault, ListTrim) {
      return Raised(SinkError(fault.step));
    }
    cache.LTrim(0, RecentCap - 1);
    return Returned;
  }

  /** A falsy or absent order id: process_order returns normally before
      opening any connection, so no store changes whatever would have failed. */
  lemma MissingIdLeavesStores(s: Stores, data: Value, now: string, fault: Fault)
    requires data.Object? && !Truthy(OrderIdOf(data.fields))
    ensures ProcessSpec(s, data, now, fault) == Processed(s, Returned)
  {
  }

  /** A call returns normally with a record to persist exactly when no sink
      call raised; then the table holds the upserted row, `order:{id}` holds
      every field of the record, and `recent_orders` starts with the record,
      followed by the previous list, capped at 100. */
  lemma SuccessWritesEverySink(s: Stores, data: Value, now: string, fault: Fault)
    requires Prepare(data, now).Ready?
    ensures var r := Prepare(data, now).result;
      var p := ProcessSpec(s, data, now, fault);
      && (p.outcome == Returned <==> fault == NoFault)
      && (fault == NoFault ==>
            && p.stores.results == Upserted(s.results, r)
            && p.stores.hashes == HashMerged(s.hashes, r.orderId, Fields(r))
            && r.orderId in p.stores.hashes
            && (forall f :: f in Fields(r) ==>
                  f in p.stores.hashes[r.orderId] && p.stores.hashes[r.orderId][f] == Fields(r)[f])
            && |p.stores.recentOrders| == Min(|s.recentOrders| + 1, RecentCap)
            && p.stores.recentOrders[0] == r
            && p.stores.recentOrders[1..] == s.recentOrders[..|p.stores.recentOrders| - 1])
  {
    PushNewestFirst(s.recentOrders, Prepare(data, now).result);
  }

  /** The cache entry of an order only ever written by this consumer holds
      exactly the eight fields of the last record written. */
  lemma HashIsLastRecord(s: Stores, data: Value, now: string)
    requires Prepare(data, now).Ready?
    requires var id := Prepare(data, now).result.orderId;
      id in s.hashes ==> s.hashes[id].Keys <= ResultFieldNames()
    ensures var r := Prepare(data, now).result;
      ProcessSpec(s, data, now, NoFault).stores.hashes[r.orderId] == Fields(r)
  {
    FieldsNamed(Prepare(data, now).result);
  }

  /** A failure in connecting, executing or committing leaves every store as
      it was. */
  lemma DatabaseFailureWritesNothing(s: Stores, data: Value, now: string, step: SinkStep)
    requires Prepare(data, now).Ready?
    requires Rank(step) <= Rank(CommitDb)
    ensures ProcessSpec(s, data, now, FailAt(step)) == Processed(s, Raised(SinkError(step)))
  {
  }

  /** A failure after the commit still raises, but the row stays written: the
      relational store and the cache can disagree until a retry. The cache
      keeps what it held up to the failing call: a failure up to HSET leaves
      it untouched, one at LPUSH leaves only the hash merged, and one at LTRIM
      leaves the record pushed but the list untrimmed. */
  lemma CacheFailureKeepsRow(s: Stores, data: Value, now: string, step: SinkStep)
    requires Prepare(data, now).Ready?
    requires Rank(CommitDb) < Rank(step)
    ensures var r := Prepare(data, now).result;
      var p := ProcessSpec(s, data, now, FailAt(step));
      && p.outcome == Raised(SinkError(step))
      && p.stores.results == Upserted(s.results, r)
      && (Rank(step) <= Rank(HashSet) ==>
            p.stores.hashes == s.hashes && p.stores.recentOrders == s.recentOrders)
      && (step == ListPush ==>
            p.stores.hashes == HashMerged(s.hashes, r.orderId, Fields(r))
            && p.stores.recentOrders == s.recentOrders)
      && (step == ListTrim ==>
            p.stores.hashes == HashMerged(s.hashes, r.orderId, Fields(r))
            && p.stores.recentOrders == [r] + s.recentOrders)
  {
  }

  /** The cap of 100 holds after every call except one whose trim raised after
      its push succeeded, which leaves one entry more. */
  lemma RecentCapKept(s: Stores, data: Value, now: string, fault: Fault)
    requires |s.recentOrders| <= RecentCap
    ensures fault != FailAt(ListTrim) ==>
      |ProcessSpec(s, data, now, fault).stores.recentOrders| <= RecentCap
    ensures Prepare(data, now).Ready? && fault == FailAt(ListTrim) ==>
      |ProcessSpec(s, data, now, fault).stores.recentOrders| == |s.recentOrders| + 1
  {
  }

  /** A retry after a failed attempt of the same event leaves the table as a
      single successful attempt would have: the upsert makes retries safe. */
  lemma RetryMatchesSingleAttempt(s: Stores, data: Value, first: string, now: string, fault: Fault)
    ensures ProcessSpec(ProcessSpec(s, data, first, fault).stores, data, now, NoFault).stores.results
         == ProcessSpec(s, data, now, NoFault).stores.results
  {
    match Prepare(data, now)
    case Ready(r) =>
      var r1 := Prepare(data, first).result;
      if Completes(fault, CommitDb) {
        UpsertAbsorbs(s.results, r1, r);
      }
    case _ =>
  }
}
