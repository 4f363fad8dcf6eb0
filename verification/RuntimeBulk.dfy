/** Bulk enqueue, one insert, one counter update and one broker call for many jobs: when that equals
    enqueueing them one by one, and where the two part. */
module RuntimeBulk {
  import opened Options
  import opened ImportContext
  import opened RuntimeStore
  import ImportControl

  // ---------------------------------------------------------------- one by one

  function SingleEvents(entries: seq<Entry>, sessions: seq<string>): seq<Event>
    requires |entries| == |sessions|
  {
    if entries == [] then []
    else [Enqueue(entries[0].args, sessions[0])] + SingleEvents(entries[1..], sessions[1..])
  }

  function EnqueueEntry(s: Store, e: Entry): Store {
    EnqueueTracked(s, e.args, e.context, EnqueueJobId(e.args.opts, e.context))
  }

  function OneByOne(s: Store, entries: seq<Entry>): Store
    decreases |entries|
  {
    if entries == [] then s else OneByOne(EnqueueEntry(s, entries[0]), entries[1..])
  }

  /** Enqueueing the items' single forms one after the other is a run of enqueue events. */
  lemma {:induction false} OneByOneIsARun(s: Store, entries: seq<Entry>, sessions: seq<string>)
    requires |entries| == |sessions|
    requires forall i | 0 <= i < |entries| :: CreateContext(entries[i].args, sessions[i]) == Some(entries[i].context)
    ensures Run(s, SingleEvents(entries, sessions)) == OneByOne(s, entries)
    decreases |entries|
  {
    if entries != [] {
      var e := entries[0];
      assert CreateContext(e.args, sessions[0]) == Some(e.context);
      var events := SingleEvents(entries, sessions);
      assert events[0] == Enqueue(e.args, sessions[0]) && events[1..] == SingleEvents(entries[1..], sessions[1..]);
      OneByOneIsARun(Step(s, events[0]), entries[1..], sessions[1..]);
    }
  }

  // ---------------------------------------------------------------- one entry at a time

  /** One row of the insert and, unless paused, its delivery. */
  function InsertOne(s: Store, e: Entry, paused: bool): Store {
    var inserted := s.(rows := s.rows[RowKeyOf(e.context) := BulkRow(s.rows, e, paused)]);
    if paused then inserted
      else Send(inserted, EnqueueDelivery(e.args, e.context, EnqueueJobId(e.args.opts, e.context)))
  }

  function InsertEach(s: Store, entries: seq<Entry>, paused: bool): Store
    decreases |entries|
  {
    if entries == [] then s else InsertEach(InsertOne(s, entries[0], paused), entries[1..], paused)
  }

  lemma {:induction false} InsertEachParts(s: Store, entries: seq<Entry>, paused: bool)
    ensures var t := s.(rows := InsertAll(s.rows, entries, paused));
            InsertEach(s, entries, paused) == if paused then t else SendAll(t, Deliveries(entries))
    decreases |entries|
  {
    if entries != [] {
      InsertEachParts(InsertOne(s, entries[0], paused), entries[1..], paused);
      assert Deliveries(entries)[1..] == Deliveries(entries[1..]);
    }
  }

  function BulkCounted(s: Store, n: nat, home: CounterKey, paused: bool): Store {
    s.(counters := ApplyDelta(EnsureCounters(s.counters, home), home, BulkDelta(n, paused)))
  }

  /** The insert and the broker call go entry by entry, after the one counter update. */
  lemma BulkIsInsertEach(s: Store, entries: seq<Entry>, home: CounterKey, paused: bool)
    ensures BulkApply(s, entries, home, paused) == InsertEach(BulkCounted(s, |entries|, home, paused), entries, paused)
  {
    InsertEachParts(BulkCounted(s, |entries|, home, paused), entries, paused);
  }

  // ---------------------------------------------------------------- the same as singles

  function EnqueueEntryAs(s: Store, e: Entry, paused: bool): Store {
    EnqueueAs(s, e.args, e.context, EnqueueJobId(e.args.opts, e.context), paused)
  }

  /** Single enqueues that all read the flags of the bulk call. */
  function OneByOneAs(s: Store, entries: seq<Entry>, paused: bool): Store
    decreases |entries|
  {
    if entries == [] then s else OneByOneAs(EnqueueEntryAs(s, entries[0], paused), entries[1..], paused)
  }

  ghost predicate SameHome(entries: seq<Entry>, home: CounterKey) {
    forall e | e in entries :: CounterKeyOf(e.context) == home
  }

  /** The pause flags each item would read are the ones the bulk call read. */
  ghost predicate SameFlags(control: ImportControl.Control, entries: seq<Entry>, paused: bool) {
    forall e | e in entries :: Halted(control, e.context) == paused
  }

  ghost predicate FreshKeys(rows: map<RowKey, Row>, entries: seq<Entry>) {
    && !KeyTwice(entries)
    && forall e | e in entries :: RowKeyOf(e.context) !in rows
  }

  lemma TailKeepsFresh(rows: map<RowKey, Row>, entries: seq<Entry>, row: Row)
    requires entries != [] && FreshKeys(rows, entries)
    ensures FreshKeys(rows[RowKeyOf(entries[0].context) := row], entries[1..])
  {
    forall e | e in entries[1..] ensures RowKeyOf(e.context) !in rows[RowKeyOf(entries[0].context) := row] {
      var j :| 1 <= j < |entries| && entries[j] == e;
      assert RowKeyOf(entries[0].context) != RowKeyOf(entries[j].context);
    }
    TailNamesOnce(entries);
  }

  lemma TailNamesOnce(entries: seq<Entry>)
    requires entries != [] && !KeyTwice(entries)
    ensures !KeyTwice(entries[1..])
  {
    forall i, j | 0 <= i < j < |entries[1..]|
      ensures RowKeyOf(entries[1..][i].context) != RowKeyOf(entries[1..][j].context)
    {
      assert RowKeyOf(entries[i + 1].context) != RowKeyOf(entries[j + 1].context);
    }
  }

  lemma {:induction false} InsertElsewhere(rows: map<RowKey, Row>, entries: seq<Entry>, paused: bool, id: RowKey)
    requires forall e | e in entries :: RowKeyOf(e.context) != id
    ensures id in InsertAll(rows, entries, paused) <==> id in rows
    ensures id in rows ==> InsertAll(rows, entries, paused)[id] == rows[id]
    decreases |entries|
  {
    if entries != [] {
      assert entries[0] in entries;
      InsertElsewhere(rows[RowKeyOf(entries[0].context) := BulkRow(rows, entries[0], paused)],
                      entries[1..], paused, id);
    }
  }

  /** Each entry of an insert without a repeated key leaves its own row. */
  lemma {:induction false} InsertedAt(rows: map<RowKey, Row>, entries: seq<Entry>, paused: bool, e: Entry)
    requires e in entries && !KeyTwice(entries)
    ensures RowKeyOf(e.context) in InsertAll(rows, entries, paused)
    ensures InsertAll(rows, entries, paused)[RowKeyOf(e.context)] == BulkRow(rows, e, paused)
    decreases |entries|
  {
    var first := entries[0];
    var next := rows[RowKeyOf(first.context) := BulkRow(rows, first, paused)];
    forall x | x in entries[1..] ensures RowKeyOf(x.context) != RowKeyOf(first.context) {
      var j :| 1 <= j < |entries| && entries[j] == x;
    }
    if e == first {
      InsertElsewhere(next, entries[1..], paused, RowKeyOf(first.context));
    } else {
      TailNamesOnce(entries);
      InsertedAt(next, entries[1..], paused, e);
    }
  }

  lemma BulkCounters(counters: map<CounterKey, Counters>, home: CounterKey, n: nat, paused: bool)
    requires n > 0
    ensures ApplyDelta(EnsureCounters(counters, home), home, BulkDelta(n, paused))
         == ApplyDelta(EnsureCounters(ApplyDelta(EnsureCounters(counters, home), home, EnqueueDelta(paused)), home),
                       home, BulkDelta(n - 1, paused))
  {
  }

  lemma InsertedRow(rows: map<RowKey, Row>, e: Entry, paused: bool)
    requires RowKeyOf(e.context) !in rows
    ensures BulkRow(rows, e, paused)
         == UpsertedRow(rows, EnqueueWrite(e.args, e.context, paused, EnqueueJobId(e.args.opts, e.context)))
  {
  }

  /** For a new key, an insert and its share of the counters are a single enqueue. */
  lemma InsertIsEnqueue(s: Store, e: Entry, paused: bool, counters: map<CounterKey, Counters>)
    requires RowKeyOf(e.context) !in s.rows
    ensures InsertOne(s.(counters := counters), e, paused) == EnqueueEntryAs(s, e, paused).(counters := counters)
  {
    InsertedRow(s.rows, e, paused);
  }

  lemma CountedHead(s: Store, e: Entry, n: nat, paused: bool)
    requires RowKeyOf(e.context) !in s.rows && n > 0
    ensures var home := CounterKeyOf(e.context);
            InsertOne(BulkCounted(s, n, home, paused), e, paused)
              == BulkCounted(EnqueueEntryAs(s, e, paused), n - 1, home, paused)
  {
    var home := CounterKeyOf(e.context);
    BulkCounters(s.counters, home, n, paused);
    InsertIsEnqueue(s, e, paused, BulkCounted(s, n, home, paused).counters);
  }

  /** Enqueueing the first entry singly and the others in bulk is the whole bulk call. */
  lemma BulkHead(s: Store, entries: seq<Entry>, home: CounterKey, paused: bool)
    requires entries != [] && RowKeyOf(entries[0].context) !in s.rows && CounterKeyOf(entries[0].context) == home
    ensures BulkApply(s, entries, home, paused)
        == BulkApply(EnqueueEntryAs(s, entries[0], paused), entries[1..], home, paused)
  {
    BulkIsInsertEach(s, entries, home, paused);
    BulkIsInsertEach(EnqueueEntryAs(s, entries[0], paused), entries[1..], home, paused);
    CountedHead(s, entries[0], |entries|, paused);
  }

  /** With fresh distinct keys and one session and worker, a bulk call leaves the rows, counters and
      broker queue of single enqueues that read the same flags. */
  lemma {:induction false} BulkIsOneByOne(s: Store, entries: seq<Entry>, home: CounterKey, paused: bool)
    requires home in s.counters || entries != []
    requires SameHome(entries, home) && FreshKeys(s.rows, entries)
    ensures BulkApply(s, entries, home, paused) == OneByOneAs(s, entries, paused)
    decreases |entries|
  {
    if entries == [] {
      assert s.counters[home := s.counters[home]] == s.counters;
    } else {
      var e := entries[0];
      assert e in entries;
      BulkHead(s, entries, home, paused);
      TailKeepsFresh(s.rows, entries,
        UpsertedRow(s.rows, EnqueueWrite(e.args, e.context, paused, EnqueueJobId(e.args.opts, e.context))));
      BulkIsOneByOne(EnqueueEntryAs(s, e, paused), entries[1..], home, paused);
    }
  }

  lemma {:induction false} SameFlagsSame(s: Store, entries: seq<Entry>, paused: bool)
    requires SameFlags(s.control, entries, paused)
    ensures OneByOneAs(s, entries, paused) == OneByOne(s, entries)
    decreases |entries|
  {
    if entries != [] {
      assert entries[0] in entries;
      SameFlagsSame(EnqueueEntry(s, entries[0]), entries[1..], paused);
    }
  }

  /** Bulk enqueue refines single enqueues: with fresh distinct keys, one session and worker and one
      reading of the pause flags, both leave the same rows, counters and broker queue. */
  lemma BulkRefinesSingles(s: Store, entries: seq<Entry>, home: CounterKey, paused: bool)
    requires home in s.counters || entries != []
    requires SameHome(entries, home) && SameFlags(s.control, entries, paused) && FreshKeys(s.rows, entries)
    ensures BulkApply(s, entries, home, paused) == OneByOne(s, entries)
  {
    BulkIsOneByOne(s, entries, home, paused);
    SameFlagsSame(s, entries, paused);
  }

  /** The whole call: once accepted, a bulk enqueue of items that share one session and worker and one
      reading of the flags, under fresh keys, is the run of their single enqueues, and reports every one. */
  lemma BulkIsARunOfSingles(s: Store, args: BulkArgs, firstSession: string, sessions: seq<string>,
                            entries: seq<Entry>, home: CounterKey,
                            paused: bool, session: string, itemSessions: seq<string>)
    requires |sessions| == |args.items| && entries != [] && |itemSessions| == |entries|
    requires PlanBulk(s.control, args, firstSession, sessions) == Accepted(entries, home, paused, session)
    requires forall i | 0 <= i < |entries| ::
        CreateContext(entries[i].args, itemSessions[i]) == Some(entries[i].context)
    requires SameHome(entries, home) && SameFlags(s.control, entries, paused) && FreshKeys(s.rows, entries)
    ensures var (after, result) := BulkJob(s, args, firstSession, sessions);
            && after == Run(s, SingleEvents(entries, itemSessions))
            && result.BulkDone? && result.queued + result.paused == |entries|
  {
    BulkRefinesSingles(s, entries, home, paused);
    OneByOneIsARun(s, entries, itemSessions);
    assert BulkAfter(s, Accepted(entries, home, paused, session)) == BulkApply(s, entries, home, paused);
  }

  // ---------------------------------------------------------------- when the counters agree

  function Homes(entries: seq<Entry>, key: CounterKey): nat {
    if entries == [] then 0
    else (if CounterKeyOf(entries[0].context) == key then 1 else 0) + Homes(entries[1..], key)
  }

  lemma {:induction false} HomesAtMost(entries: seq<Entry>, key: CounterKey)
    ensures Homes(entries, key) <= |entries|
    ensures Homes(entries, key) == |entries| <==> SameHome(entries, key)
  {
    if entries != [] {
      HomesAtMost(entries[1..], key);
      assert entries[0] in entries;
      assert SameHome(entries, key) <==> CounterKeyOf(entries[0].context) == key && SameHome(entries[1..], key) by {
        assert forall e | e in entries :: e == entries[0] || e in entries[1..];
        assert forall e | e in entries[1..] :: e in entries;
      }
    }
  }

  lemma ChargedTotal(counters: map<CounterKey, Counters>, home: CounterKey, d: Delta, key: CounterKey)
    requires d.total >= 0
    ensures Before(ApplyDelta(EnsureCounters(counters, home), home, d), key).total
         == Before(counters, key).total + (if home == key then d.total else 0)
  {
  }

  lemma EnqueueTotal(s: Store, e: Entry, key: CounterKey)
    ensures Before(EnqueueEntry(s, e).counters, key).total
         == Before(s.counters, key).total + (if CounterKeyOf(e.context) == key then 1 else 0)
  {
    var home, paused := CounterKeyOf(e.context), Halted(s.control, e.context);
    assert EnqueueEntry(s, e).counters == ApplyDelta(EnsureCounters(s.counters, home), home, EnqueueDelta(paused));
    ChargedTotal(s.counters, home, EnqueueDelta(paused), key);
  }

  lemma {:induction false} SinglesTotal(s: Store, entries: seq<Entry>, key: CounterKey)
    ensures Before(OneByOne(s, entries).counters, key).total == Before(s.counters, key).total + Homes(entries, key)
    decreases |entries|
  {
    if entries != [] {
      var e := entries[0];
      EnqueueTotal(s, e, key);
      SinglesTotal(EnqueueEntry(s, e), entries[1..], key);
    }
  }

  lemma {:induction false} HomesPositive(entries: seq<Entry>, e: Entry)
    requires e in entries
    ensures Homes(entries, CounterKeyOf(e.context)) > 0
  {
    if entries[0] != e {
      HomesPositive(entries[1..], e);
    }
  }

  lemma BulkSparesOthers(s: Store, entries: seq<Entry>, home: CounterKey, paused: bool, key: CounterKey)
    requires key != home
    ensures Before(BulkApply(s, entries, home, paused).counters, key) == Before(s.counters, key)
  {
  }

  /** One session and one worker is exactly what the counters need: with fresh keys and one reading
      of the flags, bulk and single enqueues agree on the counters if and only if every item's
      context has the session and worker the bulk call charges. */
  lemma BulkCountersAgreeIff(s: Store, entries: seq<Entry>, home: CounterKey, paused: bool)
    requires entries != [] && SameFlags(s.control, entries, paused) && FreshKeys(s.rows, entries)
    ensures BulkApply(s, entries, home, paused).counters == OneByOne(s, entries).counters <==> SameHome(entries, home)
  {
    if SameHome(entries, home) {
      BulkRefinesSingles(s, entries, home, paused);
    } else {
      var e :| e in entries && CounterKeyOf(e.context) != home;
      var key := CounterKeyOf(e.context);
      HomesPositive(entries, e);
      SinglesTotal(s, entries, key);
      BulkSparesOthers(s, entries, home, paused, key);
    }
  }

  /** Callers get one session by naming it or a parent, and one worker by not naming any per item. */
  lemma NamedSessionIsShared(args: BulkArgs, firstSession: string, first: Context, item: BulkItem, session: string)
    requires args.items != [] && CreateContext(FirstArgs(args), firstSession) == Some(first)
    requires args.items[0].payload.execution.None? && item.payload.execution.None? && item.workerName.None?
    requires args.explicit.GetOr(NO_PARTIAL).sessionId.Some? || args.parent.Some?
    requires CreateContext(ItemArgs(args, first, item), session).Some?
    ensures CounterKeyOf(CreateContext(ItemArgs(args, first, item), session).value) == HomeKey(args, first)
  {
  }

  /** Without either, every item opens a session of its own, and the bulk call charges none of them. */
  lemma UnnamedSessionIsSplit(args: BulkArgs, firstSession: string, first: Context, item: BulkItem, session: string)
    requires args.items != [] && CreateContext(FirstArgs(args), firstSession) == Some(first)
    requires args.items[0].payload.execution.None? && item.payload.execution.None?
    requires args.explicit.GetOr(NO_PARTIAL).sessionId.None? && args.parent.None?
    requires session != firstSession && CreateContext(ItemArgs(args, first, item), session).Some?
    ensures CounterKeyOf(CreateContext(ItemArgs(args, first, item), session).value) != HomeKey(args, first)
  {
  }

  // ---------------------------------------------------------------- keys that are shared

  /** Items without a context of their own, under an explicit context that names a tenant, a batch and a
      job key. */
  predicate SharesExplicitKey(args: BulkArgs) {
    && args.explicit.Some? && args.explicit.value.runtimeJobKey.Some?
    && HasText(args.explicit.value.tenantId) && HasText(args.explicit.value.batchId)
    && forall i | 0 <= i < |args.items| :: args.items[i].payload.execution.None?
  }

  /** A payload without a context takes its row from an explicit context that names all three. */
  lemma ExplicitKeyIsTaken(args: EnqueueArgs, session: string, explicit: PartialContext)
    requires args.payload.execution.None? && args.explicit == Some(explicit)
    requires HasText(explicit.tenantId) && HasText(explicit.batchId) && explicit.runtimeJobKey.Some?
    ensures CreateContext(args, session).Some?
    ensures RowKeyOf(CreateContext(args, session).value)
         == RowKey(explicit.tenantId.value, explicit.runtimeJobKey.value)
  {
  }

  function ExplicitRow(args: BulkArgs): RowKey
    requires SharesExplicitKey(args)
  {
    RowKey(args.explicit.value.tenantId.value, args.explicit.value.runtimeJobKey.value)
  }

  lemma LastEntryTakesTheKey(args: BulkArgs, first: Context, sessions: seq<string>, n: nat)
    requires SharesExplicitKey(args) && 0 < n <= |args.items| == |sessions|
    ensures var before, entries := Entries(args, first, sessions, n - 1), Entries(args, first, sessions, n);
            && |entries| == |before| + 1 && entries[..|before|] == before
            && RowKeyOf(entries[|before|].context) == ExplicitRow(args)
  {
    ExplicitKeyIsTaken(ItemArgs(args, first, args.items[n - 1]), sessions[n - 1], args.explicit.value);
  }

  predicate AllAt(entries: seq<Entry>, id: RowKey) {
    forall k | 0 <= k < |entries| :: RowKeyOf(entries[k].context) == id
  }

  lemma AllAtExtends(before: seq<Entry>, entries: seq<Entry>, id: RowKey)
    requires AllAt(before, id) && |entries| == |before| + 1 && entries[..|before|] == before
    requires RowKeyOf(entries[|before|].context) == id
    ensures AllAt(entries, id)
  {
    assert forall k | 0 <= k < |before| :: entries[k] == before[k];
  }

  lemma {:induction false} EntriesShareTheKey(args: BulkArgs, first: Context, sessions: seq<string>, n: nat)
    requires SharesExplicitKey(args) && n <= |args.items| == |sessions|
    ensures |Entries(args, first, sessions, n)| == n && AllAt(Entries(args, first, sessions, n), ExplicitRow(args))
  {
    if n > 0 {
      EntriesShareTheKey(args, first, sessions, n - 1);
      LastEntryTakesTheKey(args, first, sessions, n);
      AllAtExtends(Entries(args, first, sessions, n - 1), Entries(args, first, sessions, n), ExplicitRow(args));
    }
  }

  /** An explicit context that names a job key gives every item that one key: the insert is refused if
      and only if the call has two items or more. */
  lemma ExplicitKeyIsRefusedIff(s: Store, args: BulkArgs, firstSession: string, sessions: seq<string>)
    requires SharesExplicitKey(args) && |sessions| == |args.items|
    ensures BulkJob(s, args, firstSession, sessions).1 == BulkConflict <==> |args.items| >= 2
  {
    if args.items != [] {
      assert args.items[0].payload.execution.None?;
      var first := CreateContext(FirstArgs(args), firstSession).value;
      var entries := Entries(args, first, sessions, |args.items|);
      EntriesShareTheKey(args, first, sessions, |args.items|);
      if |args.items| >= 2 {
        assert RowKeyOf(entries[0].context) == RowKeyOf(entries[1].context);
      }
      assert PlanBulk(s.control, args, firstSession, sessions) == PlanTracked(s.control, args, first, sessions);
    }
  }

  /** Two enqueues of payloads without a context get one row if and only if their tenants agree and so do
      their job keys, named or derived. */
  lemma EnqueuesShareARowIff(a: EnqueueArgs, sa: string, b: EnqueueArgs, sb: string)
    requires a.payload.execution.None? && CreateContext(a, sa).Some?
        && b.payload.execution.None? && CreateContext(b, sb).Some?
    ensures RowKeyOf(CreateContext(a, sa).value) == RowKeyOf(CreateContext(b, sb).value)
       <==> TenantOf(a) == TenantOf(b) && JobKeyOf(a) == JobKeyOf(b)
  {
  }

  lemma RecordingTakesTheRow(s: Store, args: EnqueueArgs, context: Context, jobId: string, paused: bool)
    ensures var rows := EnqueueAs(s, args, context, jobId, paused).rows;
            && rows.Keys == s.rows.Keys + {RowKeyOf(context)}
            && rows[RowKeyOf(context)].jobName == args.jobName
            && rows[RowKeyOf(context)].queueName == args.queueName
            && rows[RowKeyOf(context)].state in {Queued, Paused}
  {
  }

  /** So a child enqueued with its parent's whole context as the explicit one takes its parent's row: no
      row is added, and the parent's now holds the child's job. */
  lemma ChildTakesItsParentsRow(s: Store, args: EnqueueArgs, session: string, parent: Context)
    requires args.payload.execution.None? && args.explicit == Some(AsPartial(parent))
    requires parent.tenantId != "" && parent.batchId != "" && RowKeyOf(parent) in s.rows
    ensures var after := EnqueueJob(s, args, session).rows;
            && after.Keys == s.rows.Keys
            && after[RowKeyOf(parent)].jobName == args.jobName && after[RowKeyOf(parent)].queueName == args.queueName
            && after[RowKeyOf(parent)].state in {Queued, Paused}
  {
    ExplicitKeyIsTaken(args, session, AsPartial(parent));
    var context := CreateContext(args, session).value;
    RecordingTakesTheRow(s, args, context, EnqueueJobId(args.opts, context), Halted(s.control, context));
  }
}
