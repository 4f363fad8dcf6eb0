/** What a bulk enqueue makes of its items, one by one, and what it charges and reports for them together. */
module BulkRules {
  import opened Options
  import opened ImportContext
  import opened RuntimeStore
  import opened ContextRules
  import ImportControl
  import JobKeys

  // ---------------------------------------------------------------- from items to entries

  /** The context that a bulk call pauses, counts and reports under is read from its first item, whose worker
      and stage the call may name for all; no entity and no scope of the item goes into it. */
  lemma FirstItemLeads(args: BulkArgs, item: BulkItem, e: EnqueueArgs)
    requires args.items != [] && item == args.items[0] && e == FirstArgs(args)
    ensures e.queueName == args.queueName && e.jobName == item.jobName && e.payload == item.payload
    ensures e.explicit == args.explicit && e.parent == args.parent && !HasText(e.opts.jobId)
    ensures FirstOf(e.workerName, [args.workerName, item.workerName])
    ensures FirstOf(e.stageKey, [args.stageKey, item.stageKey])
    ensures e.correlationId == item.correlationId
    ensures e.entityType == None && e.entityId == None && e.idempotencyScope == None
  {
    FirstOfTwo(args.workerName, item.workerName);
    FirstOfTwo(args.stageKey, item.stageKey);
  }

  /** Each item is enqueued with what it names itself, then what the call names, then what the first item's
      context has. */
  lemma ItemTakes(args: BulkArgs, first: Context, item: BulkItem, e: EnqueueArgs)
    requires e == ItemArgs(args, first, item)
    ensures e.queueName == args.queueName && e.jobName == item.jobName
    ensures e.payload == item.payload && e.opts == item.opts
    ensures e.explicit == args.explicit && e.parent == args.parent && e.maxRecoveryAttempts == args.maxRecoveryAttempts
    ensures FirstOf(e.workerName, [item.workerName, args.workerName, Some(first.workerName)])
    ensures FirstOf(e.stageKey, [item.stageKey, args.stageKey, Some(first.stageKey)])
    ensures FirstOf(e.correlationId, [item.correlationId, first.correlationId])
    ensures e.entityType == item.entityType && e.entityId == item.entityId && e.contactId == item.contactId
    ensures e.idempotencyScope == item.idempotencyScope
  {
    FirstOfThree(item.workerName, args.workerName, Some(first.workerName));
    FirstOfThree(item.stageKey, args.stageKey, Some(first.stageKey));
    FirstOfTwo(item.correlationId, first.correlationId);
  }

  /** Every item that has a context has an entry. */
  lemma {:induction false} ItemHasItsEntry(args: BulkArgs, first: Context, sessions: seq<string>, n: nat, i: nat)
    requires i < n <= |args.items| == |sessions|
    ensures var e := ItemArgs(args, first, args.items[i]);
            CreateContext(e, sessions[i]).Some? ==>
              Entry(e, CreateContext(e, sessions[i]).value) in Entries(args, first, sessions, n)
    decreases n
  {
    if i < n - 1 {
      ItemHasItsEntry(args, first, sessions, n - 1, i);
    }
  }

  /** Every entry is that of one of the items. */
  lemma {:induction false} EntryHasItsItem(args: BulkArgs, first: Context, sessions: seq<string>, n: nat, e: Entry)
    returns (i: nat)
    requires n <= |args.items| == |sessions| && e in Entries(args, first, sessions, n)
    ensures i < n && e.args == ItemArgs(args, first, args.items[i])
    ensures CreateContext(e.args, sessions[i]) == Some(e.context)
    decreases n
  {
    if e in Entries(args, first, sessions, n - 1) {
      i := EntryHasItsItem(args, first, sessions, n - 1, e);
    } else {
      i := n - 1;
    }
  }

  ghost predicate AllTracked(args: BulkArgs, first: Context, sessions: seq<string>, n: nat)
    requires n <= |args.items| == |sessions|
  {
    forall i | 0 <= i < n :: CreateContext(ItemArgs(args, first, args.items[i]), sessions[i]).Some?
  }

  /** One turn of the loop over the items: an item with a context adds its entry, any other none. */
  lemma NextEntry(args: BulkArgs, first: Context, sessions: seq<string>, i: nat, e: EnqueueArgs, c: Option<Context>)
    requires i < |args.items| == |sessions|
    requires e == ItemArgs(args, first, args.items[i]) && c == CreateContext(e, sessions[i])
    ensures Entries(args, first, sessions, i + 1)
         == Entries(args, first, sessions, i) + (if c.Some? then [Entry(e, c.value)] else [])
  {
  }

  lemma OneMoreEntry(args: BulkArgs, first: Context, sessions: seq<string>, n: nat)
    requires 0 < n <= |args.items| == |sessions| && AllTracked(args, first, sessions, n)
    ensures AllTracked(args, first, sessions, n - 1)
    ensures |Entries(args, first, sessions, n)| == |Entries(args, first, sessions, n - 1)| + 1
  {
    var context := CreateContext(ItemArgs(args, first, args.items[n - 1]), sessions[n - 1]);
    assert context.Some?;
  }

  lemma {:induction false} CountsUp(size: nat -> int, n: nat)
    requires size(0) == 0 && forall k: nat | k < n :: size(k + 1) == size(k) + 1
    ensures size(n) == n
  {
    if n > 0 {
      CountsUp(size, n - 1);
      assert size((n - 1) + 1) == size(n - 1) + 1;
    }
  }

  lemma AsManyEntries(args: BulkArgs, first: Context, sessions: seq<string>, n: nat)
    requires n <= |args.items| == |sessions| && AllTracked(args, first, sessions, n)
    ensures |Entries(args, first, sessions, n)| == n
  {
    var size := (k: nat) => if k <= |args.items| then |Entries(args, first, sessions, k)| else 0;
    forall k: nat | k < n ensures size(k + 1) == size(k) + 1 {
      OneMoreEntry(args, first, sessions, k + 1);
    }
    CountsUp(size, n);
  }

  /** Where every item has a context, the entries are the items in their order. */
  lemma {:induction false} EntriesInOrder(args: BulkArgs, first: Context, sessions: seq<string>, n: nat, i: nat,
                                          entries: seq<Entry>)
    requires i < n <= |args.items| == |sessions| && AllTracked(args, first, sessions, n)
    requires entries == Entries(args, first, sessions, n)
    ensures |entries| == n && entries[i].args == ItemArgs(args, first, args.items[i])
    ensures CreateContext(entries[i].args, sessions[i]) == Some(entries[i].context)
    decreases n
  {
    AsManyEntries(args, first, sessions, n);
    AsManyEntries(args, first, sessions, n - 1);
    var last := ItemArgs(args, first, args.items[n - 1]);
    NextEntry(args, first, sessions, n - 1, last, CreateContext(last, sessions[n - 1]));
    if i < n - 1 {
      EntriesInOrder(args, first, sessions, n - 1, i, Entries(args, first, sessions, n - 1));
    }
  }

  /** Without a context for the first item every item is sent as it is. */
  lemma {:induction false} UntrackedItemAt(args: BulkArgs, n: nat, i: nat)
    requires i < n <= |args.items|
    ensures UntrackedItems(args, n)[i]
         == Delivery(args.queueName, args.items[i].jobName, args.items[i].payload,
                     args.items[i].opts.jobId, args.items[i].opts.attempts)
    decreases n
  {
    if i < n - 1 {
      UntrackedItemAt(args, n - 1, i);
    }
  }

  // ---------------------------------------------------------------- the call as a whole

  /** What a bulk call decides follows from its items alone, but for the pause. */
  lemma PlanIs(control: ImportControl.Control, args: BulkArgs, firstSession: string, sessions: seq<string>,
               plan: BulkPlan)
    requires |sessions| == |args.items| && plan == PlanBulk(control, args, firstSession, sessions)
    ensures plan.NoItems? <==> args.items == []
    ensures plan.AllUntracked? <==> args.items != [] && CreateContext(FirstArgs(args), firstSession).None?
    ensures plan.AllUntracked? ==> plan.deliveries == UntrackedItems(args, |args.items|)
    ensures plan.Accepted? ==>
      var first := CreateContext(FirstArgs(args), firstSession).value;
      && plan.entries == Entries(args, first, sessions, |args.items|) && plan.session == first.sessionId
      && plan.home.session == first.sessionId
      && FirstOf(Some(plan.home.worker), [args.workerName, Some(first.workerName)])
  {
    if plan.Accepted? {
      FirstOfTwo(args.workerName, Some(CreateContext(FirstArgs(args), firstSession).value.workerName));
    }
  }

  /** A bulk call reports as queued exactly what it sent and as paused the entries it did not, under the session
      it charged; one that is refused for a key named twice sends and records nothing. */
  lemma ReportIsTrue(s: Store, args: BulkArgs, firstSession: string, sessions: seq<string>, plan: BulkPlan,
                     t: Store, result: BulkResult)
    requires |sessions| == |args.items| && plan == PlanBulk(s.control, args, firstSession, sessions)
    requires (t, result) == BulkJob(s, args, firstSession, sessions)
    ensures result.BulkConflict? <==> plan.Refused?
    ensures result.BulkConflict? ==> t.rows == s.rows && t.pending == s.pending && t.nextDelivery == s.nextDelivery
    ensures result.BulkDone? ==> t.nextDelivery == s.nextDelivery + result.queued
    ensures plan.Accepted? ==>
      && result.queued + result.paused == |plan.entries| && (if plan.paused then result.queued else result.paused) == 0
      && result.session == Some(plan.session)
    ensures plan.AllUntracked? ==> result == BulkDone(|args.items|, 0, None) && t.rows == s.rows
    ensures plan.NoItems? ==> result == BulkDone(0, 0, None) && t == s
  {
    if plan.Accepted? {
      DeliveriesAreAsMany(plan.entries);
    }
  }

  lemma {:induction false} DeliveriesAreAsMany(entries: seq<Entry>)
    ensures |Deliveries(entries)| == |entries|
  {
    if entries != [] {
      DeliveriesAreAsMany(entries[1..]);
    }
  }

  lemma BulkDeltaMoves(counters: map<CounterKey, Counters>, home: CounterKey, n: nat, paused: bool, before: Counters)
    requires before == Before(counters, home)
    ensures ApplyDelta(EnsureCounters(counters, home), home, BulkDelta(n, paused)) == counters[home := before.(
      total := before.total + n,
      queued := before.queued + (if paused then 0 else n),
      paused := before.paused + (if paused then n else 0))]
  {
  }

  /** The one counter row of a bulk call gains its entries, as queued or as paused, and no other row changes. */
  lemma BulkCharges(s: Store, entries: seq<Entry>, home: CounterKey, paused: bool, t: Store, before: Counters)
    requires t == BulkApply(s, entries, home, paused) && before == Before(s.counters, home)
    ensures t.counters == s.counters[home := before.(
      total := before.total + |entries|,
      queued := before.queued + (if paused then 0 else |entries|),
      paused := before.paused + (if paused then |entries| else 0))]
  {
    assert t.counters == ApplyDelta(EnsureCounters(s.counters, home), home, BulkDelta(|entries|, paused));
    BulkDeltaMoves(s.counters, home, |entries|, paused, before);
  }

  // ---------------------------------------------------------------- a delivery without a context

  /** A delivery that carries no context but names a tenant and a batch begins under one of its own: the worker
      is the one that took it, its id the scope, and its session a new one. */
  lemma StrayContext(d: Delivery, worker: string, session: string, c: Context)
    requires d.payload.execution.None? && BeginContext(d, worker, session) == Some(c)
    ensures Some(c.tenantId) == d.payload.Field("tenantId") && Some(c.batchId) == d.payload.Field("batchId")
    ensures c.workerName == worker && c.queueName == Some(d.queueName) && c.sessionId == session
    ensures c.parentRuntimeJobKey == None && c.correlationId == d.payload.Field("correlationId")
    ensures c.idempotencyScope == if HasText(d.jobId) then d.jobId else None
    ensures c.stageKey == StageKey(d.queueName, Some(StageKey(d.queueName, None)))
    ensures c.runtimeJobKey == JobKeys.RuntimeJobKey(JobKeys.KeyArgs(
      d.queueName, d.jobName, worker, c.batchId, c.entityType, c.entityId,
      c.idempotencyScope, c.correlationId, None))
  {
    DerivedKey(FallbackArgs(d, worker), session, c);
  }
}
