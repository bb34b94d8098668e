/** The poll loop of main: each poll result is dispatched, decoded, handed to
    process_order, and its offset committed only when that returned normally.
    The infinite loop is modelled over a finite sequence of poll results; what
    the environment does (decode result, processing time, sink failures) is
    part of each poll result. */
module Consumer {
  import opened Values
  import opened Transform
  import opened Sinks
  import opened Process

  /** What `json.loads(msg.value().decode('utf-8'))` gives. */
  datatype Payload =
    | Parsed(value: Value)
    | NotJson   // json.JSONDecodeError, logged by its own handler
    | NotUtf8   // UnicodeDecodeError, logged by the generic handler
    | NoValue   // a message without a value: `.decode` on None raises AttributeError

  /** One result of `consumer.poll(timeout=1.0)`. A message carries the time
      at which it is processed and which sink call, if any, raises for it. */
  datatype Poll =
    | NoMessage
    | PartitionEof
    | BrokerError
    | Message(offset: nat, payload: Payload, now: string, fault: Fault)

  /** Handling the poll reaches `consumer.commit(msg)`. */
  predicate Commits(p: Poll)
    ensures Commits(p) ==> p.Message? && p.payload.Parsed?
    ensures p.Message? && p.payload.Parsed? && Prepare(p.payload.value, p.now).Ready? ==>
      (Commits(p) <==> p.fault == NoFault)
  {
    p.Message? && p.payload.Parsed? && OutcomeOf(p.payload.value, p.now, p.fault) == Returned
  }

  /** The stores after handling one poll result. */
  function Handle(s: Stores, p: Poll): (t: Stores)
    ensures !(p.Message? && p.payload.Parsed? && Prepare(p.payload.value, p.now).Ready?) ==> t == s
  {
    if p.Message? && p.payload.Parsed? then ProcessSpec(s, p.payload.value, p.now, p.fault).stores else s
  }

  /** The offsets passed to commit over the poll results, in commit order:
      one per committing poll and nothing for the others. */
  function Committed(polls: seq<Poll>): (c: seq<nat>)
    ensures |c| <= |polls|
    ensures c != [] ==> exists i :: 0 <= i < |polls| && Commits(polls[i])
    decreases |polls|
  {
    if polls == [] then []
    else
      var p := polls[|polls| - 1];
      Committed(polls[..|polls| - 1]) + if Commits(p) then [p.offset] else []
  }

  /** The stores and the offsets passed to commit, in commit order. */
  datatype RunState = RunState(stores: Stores, commits: seq<nat>)

  function Run(s: Stores, polls: seq<Poll>): (r: RunState)
    ensures r.commits == Committed(polls)
    decreases |polls|
  {
    if polls == [] then RunState(s, [])
    else
      var prev := Run(s, polls[..|polls| - 1]);
      var p := polls[|polls| - 1];
      RunState(Handle(prev.stores, p), prev.commits + if Commits(p) then [p.offset] else [])
  }

  /** The group's committed position, where a restart resumes: committing a
      message stores the offset after it. */
  function Position(resume: nat, commits: seq<nat>): (pos: nat)
    ensures commits == [] ==> pos == resume
    ensures commits != [] ==> pos == commits[|commits| - 1] + 1
  {
    if commits == [] then resume else commits[|commits| - 1] + 1
  }

  /** The `while True` loop of main over the given poll results, starting
      from the committed position `resume`. */
  method Consume(db: Database, cache: Cache, polls: seq<Poll>, resume: nat)
    returns (committed: nat, commits: seq<nat>)
    modifies db, cache
    ensures Snapshot(db, cache) == Run(old(Snapshot(db, cache)), polls).stores
    ensures commits == Run(old(Snapshot(db, cache)), polls).commits
    ensures committed == Position(resume, commits)
  {
    ghost var s0 := Snapshot(db, cache);
    committed, commits := resume, [];
    var i := 0;
    while i < |polls|
      invariant 0 <= i <= |polls|
      invariant Snapshot(db, cache) == Run(s0, polls[..i]).stores
      invariant commits == Committed(polls[..i])
      invariant committed == Position(resume, commits)
    {
      assert polls[..i + 1][..i] == polls[..i];
      var msg := polls[i];
      match msg {
        case NoMessage =>
        case PartitionEof =>
          // end of partition: logged, not an error
        case BrokerError =>
          // any other broker error: logged, the loop goes on
        case Message(offset, payload, now, fault) =>
          match payload {
            case Parsed(value) =>
              var outcome := ProcessOrder(db, cache, value, now, fault);
              if outcome == Returned {
                committed := offset + 1;
                commits := commits + [offset];
              }
            case NotJson =>
            case NotUtf8 =>
            case NoValue =>
          }
      }
      i := i + 1;
    }
    assert polls[..|polls|] == polls;
  }

  /** Offsets of the messages grow along the poll results, as they do
      within one partition when nothing seeks back. */
  predicate OffsetsIncrease(polls: seq<Poll>) {
    forall a, b :: 0 <= a < b < |polls| && polls[a].Message? && polls[b].Message? ==>
      polls[a].offset < polls[b].offset
  }

  /** Once a message commits, the committed position is past it for the rest
      of the run. */
  lemma {:induction false} PositionPastCommit(s: Stores, polls: seq<Poll>, j: nat, resume: nat)
    requires OffsetsIncrease(polls)
    requires j < |polls| && Commits(polls[j])
    ensures Position(resume, Run(s, polls).commits) > polls[j].offset
    decreases |polls|
  {
    var init := polls[..|polls| - 1];
    var last := polls[|polls| - 1];
    assert polls == init + [last];
    if j < |init| {
      assert OffsetsIncrease(init) by {
        forall a, b | 0 <= a < b < |init| && init[a].Message? && init[b].Message?
          ensures init[a].offset < init[b].offset
        {
          assert init[a] == polls[a] && init[b] == polls[b];
        }
      }
      assert init[j] == polls[j];
      PositionPastCommit(s, init, j, resume);
      if Commits(last) {
        CommitMovesPosition(s, init, last, resume);
      } else {
        NoCommitKeepsPosition(s, init, last, resume);
      }
    } else {
      CommitMovesPosition(s, init, last, resume);
    }
  }

  /** A message whose processing raised is not committed, yet a later message
      that commits moves the committed position past it: consumer.commit(msg)
      stores a position, so a restart resumes after the failed message and it
      is never delivered again. */
  lemma {:induction false} LaterCommitSkipsFailed(s: Stores, polls: seq<Poll>, i: nat, j: nat, resume: nat)
    requires OffsetsIncrease(polls)
    requires i < j < |polls|
    requires polls[i].Message? && !Commits(polls[i]) && Commits(polls[j])
    ensures polls[i].offset !in Run(s, polls).commits
    ensures Position(resume, Run(s, polls).commits) > polls[i].offset
  {
    InCommittedIff(polls, polls[i].offset);
    PositionPastCommit(s, polls, j, resume);
  }

  /** An offset is passed to commit exactly when some message at that offset was
      decoded and process_order returned normally for it. */
  lemma {:induction false} InCommittedIff(polls: seq<Poll>, o: nat)
    ensures o in Committed(polls) <==>
      exists i :: 0 <= i < |polls| && Commits(polls[i]) && polls[i].offset == o
    decreases |polls|
  {
    if polls != [] {
      var init := polls[..|polls| - 1];
      InCommittedIff(init, o);
      if o in Committed(init) {
        var i :| 0 <= i < |init| && Commits(init[i]) && init[i].offset == o;
        assert polls[i] == init[i];
      }
      if exists i :: 0 <= i < |polls| && Commits(polls[i]) && polls[i].offset == o {
        var i :| 0 <= i < |polls| && Commits(polls[i]) && polls[i].offset == o;
        if i < |init| {
          assert init[i] == polls[i];
        }
      }
    }
  }

  /** The same for the whole run: the offsets the loop passes to commit are
      exactly those of the messages for which process_order returned. */
  lemma CommittedIffReturned(s: Stores, polls: seq<Poll>, o: nat)
    ensures o in Run(s, polls).commits <==>
      exists i :: 0 <= i < |polls| && Commits(polls[i]) && polls[i].offset == o
  {
    InCommittedIff(polls, o);
  }

  /** Which offsets get committed does not depend on what the stores held. */
  lemma CommitsIndependentOfStores(s: Stores, t: Stores, polls: seq<Poll>)
    ensures Run(s, polls).commits == Run(t, polls).commits
  {
  }

  /** An empty poll, an end-of-partition signal, a broker error, an
      undecodable message or a processing exception leaves the committed
      position where it was, and the loop goes on to the next poll. */
  lemma NoCommitKeepsPosition(s: Stores, polls: seq<Poll>, p: Poll, resume: nat)
    requires !Commits(p)
    ensures Position(resume, Run(s, polls + [p]).commits) == Position(resume, Run(s, polls).commits)
  {
    assert (polls + [p])[..|polls|] == polls;
  }

  /** A message that is committed moves the position just past it. */
  lemma CommitMovesPosition(s: Stores, polls: seq<Poll>, p: Poll, resume: nat)
    requires Commits(p)
    ensures Position(resume, Run(s, polls + [p]).commits) == p.offset + 1
  {
    assert (polls + [p])[..|polls|] == polls;
  }

  /** A decoded event without a truthy order id is dropped and committed:
      process_order returned normally, and no store changed. */
  lemma MissingIdCommitted(s: Stores, p: Poll)
    requires p.Message? && p.payload.Parsed? && p.payload.value.Object?
    requires !Truthy(OrderIdOf(p.payload.value.fields))
    ensures Commits(p) && Handle(s, p) == s
  {
  }

  /** A message that cannot be decoded is logged and NOT committed; no store
      changes. */
  lemma UndecodableNotCommitted(s: Stores, p: Poll)
    requires p.Message? && !p.payload.Parsed?
    ensures !Commits(p) && Handle(s, p) == s
  {
  }

  /** A decoded order whose persist raised at any step is not committed. */
  lemma SinkFailureNotCommitted(p: Poll, step: SinkStep)
    requires p.Message? && p.payload.Parsed? && Prepare(p.payload.value, p.now).Ready?
    requires p.fault == FailAt(step)
    ensures !Commits(p)
  {
  }

  /** A committed order is in the table: its row carries the status and the
      processing time of this message. */
  lemma CommitImpliesRowWritten(s: Stores, p: Poll)
    requires Commits(p) && Prepare(p.payload.value, p.now).Ready?
    ensures var r := Prepare(p.payload.value, p.now).result;
      && r.orderId in Handle(s, p).results
      && Handle(s, p).results[r.orderId].status == r.status
      && Handle(s, p).results[r.orderId].processedAt == p.now
  {
  }

  /** An order whose first delivery failed at any step and that is delivered
      again and succeeds ends committed once, with the table a single
      successful delivery would have produced. */
  lemma RedeliveryAfterFailure(s: Stores, offset: nat, data: Value, first: string, now: string, step: SinkStep)
    requires Prepare(data, now).Ready?
    ensures var failed := Message(offset, Parsed(data), first, FailAt(step));
      var retried := Message(offset, Parsed(data), now, NoFault);
      && Run(s, [failed, retried]).commits == [offset]
      && Run(s, [failed, retried]).stores.results == Run(s, [retried]).stores.results
  {
    var failed := Message(offset, Parsed(data), first, FailAt(step));
    var retried := Message(offset, Parsed(data), now, NoFault);
    assert [failed, retried][..1] == [failed];
    assert Run(s, [failed]) == RunState(Handle(s, failed), []) by {
      assert [failed][..0] == [];
    }
    assert Run(s, [retried]) == RunState(Handle(s, retried), [offset]) by {
      assert [retried][..0] == [];
    }
    RetryMatchesSingleAttempt(s, data, first, now, FailAt(step));
  }
}
