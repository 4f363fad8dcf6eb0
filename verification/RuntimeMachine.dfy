/** The runtime as the workers run it: tables updated in place, one method for each exported function,
    each tied to the step it stands for. */
module RuntimeMachine {
  import opened Options
  import opened ImportContext
  import opened RuntimeStore
  import opened RuntimeIdentity
  import opened RuntimeRecovery
  import opened RuntimeBulk
  import opened BulkRules
  import ImportControl
  import JobKeys

  datatype EnqueueResult = EnqueueResult(queued: bool,
                                         session: Option<string>, key: Option<string>, jobId: Option<string>)

  class ImportRuntime {
    var rows: map<RowKey, Row>
    var counters: map<CounterKey, Counters>
    var control: ImportControl.Control
    var pending: map<nat, Delivery>
    var inFlight: map<nat, Delivery>
    var nextDelivery: nat
    ghost var recoveries: seq<(RowKey, string)>

    ghost function Snapshot(): Store
      reads this
    {
      Store(rows, counters, control, pending, inFlight, nextDelivery, recoveries)
    }

    constructor (control: ImportControl.Control)
      ensures Snapshot() == Initial(control)
    {
      rows, counters, this.control := map[], map[], control;
      pending, inFlight, nextDelivery := map[], map[], 0;
      recoveries := [];
    }

    // ------------------------------------------------------------ tables and broker

    method EnsureWorkerCounterRow(key: CounterKey)
      modifies this`counters
      ensures counters == EnsureCounters(old(counters), key)
    {
      if key !in counters {
        counters := counters[key := ZERO];
      }
    }

    /** Each column with a delta becomes `GREATEST(column + delta, 0)`; a missing row is left missing. */
    method ApplyWorkerCounterDelta(key: CounterKey, d: Delta)
      modifies this`counters
      ensures counters == ApplyDelta(old(counters), key, d)
    {
      if key !in counters { return; }
      var c := counters[key];
      if d.total != 0 { c := c.(total := Clamp(c.total + d.total)); }
      if d.queued != 0 { c := c.(queued := Clamp(c.queued + d.queued)); }
      if d.running != 0 { c := c.(running := Clamp(c.running + d.running)); }
      if d.paused != 0 { c := c.(paused := Clamp(c.paused + d.paused)); }
      if d.completed != 0 { c := c.(completed := Clamp(c.completed + d.completed)); }
      if d.failed != 0 { c := c.(failed := Clamp(c.failed + d.failed)); }
      counters := counters[key := c];
    }

    method UpsertImportRuntimeJob(w: Write)
      modifies this`rows
      ensures rows == Upsert(old(rows), w)
    {
      var id := RowKeyOf(w.context);
      var limit := w.maxRecoveryAttempts.GetOr(DEFAULT_RECOVERY_ATTEMPTS);
      if id in rows {
        rows := rows[id := rows[id].(
          parentKey := w.context.parentRuntimeJobKey, queueName := w.queueName, jobName := w.jobName,
          worker := w.context.workerName, stageKey := w.context.stageKey, bullJobId := w.bullJobId,
          entityType := w.context.entityType, entityId := w.context.entityId, contactId := w.contactId,
          state := w.state, checkpointPayload := w.checkpointPayload, resumePayload := w.resumePayload,
          lastError := w.lastError, maxRecoveryAttempts := limit)];
      } else {
        rows := rows[id := Row(w.context.batchId, w.context.sessionId, w.context.parentRuntimeJobKey, w.queueName,
          w.jobName, w.context.workerName, w.context.stageKey, w.bullJobId, w.context.entityType,
          w.context.entityId, w.contactId, w.state, 0, limit, w.resumePayload, w.checkpointPayload, w.lastError)];
      }
    }

    method QueueAdd(d: Delivery)
      modifies this`pending, this`nextDelivery
      ensures pending == old(pending)[old(nextDelivery) := d] && nextDelivery == old(nextDelivery) + 1
    {
      pending := pending[nextDelivery := d];
      nextDelivery := nextDelivery + 1;
    }

    // ------------------------------------------------------------ enqueue

    /** The counter row, the job row and the counters of one enqueued job. */
    method RecordEnqueue(args: EnqueueArgs, context: Context, jobId: string) returns (isPaused: bool)
      modifies this`rows, this`counters
      ensures Snapshot() == EnqueueRecorded(old(Snapshot()), args, context, jobId, isPaused)
      ensures isPaused == Halted(control, context)
    {
      var key := CounterKeyOf(context);
      EnsureWorkerCounterRow(key);
      isPaused := Halted(control, context);
      UpsertImportRuntimeJob(EnqueueWrite(args, context, isPaused, jobId));
      ApplyWorkerCounterDelta(key, EnqueueDelta(isPaused));
    }

    method EnqueueImportJob(args: EnqueueArgs, freshSession: string) returns (result: EnqueueResult)
      modifies this
      ensures Snapshot() == EnqueueJob(old(Snapshot()), args, freshSession)
      ensures result.queued <==> nextDelivery == old(nextDelivery) + 1
      ensures result.session.Some? <==> CreateContext(args, freshSession).Some?
    {
      var derived := CreateContext(args, freshSession);
      if derived.None? {
        QueueAdd(UntrackedDelivery(args));
        return EnqueueResult(true, None, None, args.opts.jobId);
      }
      var context := derived.value;
      var jobId := EnqueueJobId(args.opts, context);
      var isPaused := RecordEnqueue(args, context, jobId);
      if isPaused {
        return EnqueueResult(false, Some(context.sessionId), Some(context.runtimeJobKey), None);
      }
      QueueAdd(EnqueueDelivery(args, context, jobId));
      return EnqueueResult(true, Some(context.sessionId), Some(context.runtimeJobKey), Some(jobId));
    }

    method EnqueueImportJobBulk(args: BulkArgs, firstSession: string, sessions: seq<string>)
      returns (result: BulkResult)
      requires |sessions| == |args.items|
      modifies this
      ensures (Snapshot(), result) == BulkJob(old(Snapshot()), args, firstSession, sessions)
    {
      if args.items == [] {
        return BulkDone(0, 0, None);
      }
      var derived := CreateContext(FirstArgs(args), firstSession);
      if derived.None? {
        QueueAddBulk(UntrackedItems(args, |args.items|));
        return BulkDone(|args.items|, 0, None);
      }
      result := EnqueueUnder(args, derived.value, sessions);
    }

    /** The call once its first item has a context: one counter row, one insert, one broker call. */
    method EnqueueUnder(args: BulkArgs, first: Context, sessions: seq<string>) returns (result: BulkResult)
      requires |sessions| == |args.items|
      modifies this
      ensures var plan := PlanTracked(old(control), args, first, sessions);
              Snapshot() == BulkAfter(old(Snapshot()), plan) && result == BulkReport(plan)
    {
      var home := HomeKey(args, first);
      EnsureWorkerCounterRow(home);
      var isPaused := BulkPaused(control, args, first);
      var entries := BuildBulkEntries(args, first, sessions);
      if KeyTwice(entries) {
        return BulkConflict;
      }
      RecordBulk(entries, home, isPaused);
      return BulkDone(if isPaused then 0 else |entries|, if isPaused then |entries| else 0, Some(first.sessionId));
    }

    method RecordBulk(entries: seq<Entry>, home: CounterKey, isPaused: bool)
      requires home in counters
      modifies this
      ensures Snapshot() == BulkApply(old(Snapshot()), entries, home, isPaused)
    {
      InsertRuntimeRows(entries, isPaused);
      ApplyWorkerCounterDelta(home, BulkDelta(|entries|, isPaused));
      if !isPaused {
        QueueAddBulk(Deliveries(entries));
      }
    }

    static method BuildBulkEntries(args: BulkArgs, first: Context, sessions: seq<string>) returns (entries: seq<Entry>)
      requires |sessions| == |args.items|
      ensures entries == Entries(args, first, sessions, |args.items|)
    {
      entries := [];
      var i := 0;
      while i < |args.items|
        invariant 0 <= i <= |args.items|
        invariant entries == Entries(args, first, sessions, i)
      {
        var single := ItemArgs(args, first, args.items[i]);
        var context := CreateContext(single, sessions[i]);
        NextEntry(args, first, sessions, i, single, context);
        if context.Some? {
          entries := entries + [Entry(single, context.value)];
        }
        i := i + 1;
      }
    }

    method InsertRuntimeRows(entries: seq<Entry>, isPaused: bool)
      modifies this`rows
      ensures rows == InsertAll(old(rows), entries, isPaused)
    {
      var i := 0;
      assert entries[0..] == entries;
      while i < |entries|
        invariant 0 <= i <= |entries|
        invariant InsertAll(rows, entries[i..], isPaused) == InsertAll(old(rows), entries, isPaused)
      {
        assert entries[i..][0] == entries[i] && entries[i..][1..] == entries[i + 1..];
        rows := rows[RowKeyOf(entries[i].context) := BulkRow(rows, entries[i], isPaused)];
        i := i + 1;
      }
      assert entries[i..] == [];
    }

    method QueueAddBulk(deliveries: seq<Delivery>)
      modifies this`pending, this`nextDelivery
      ensures Snapshot() == SendAll(old(Snapshot()), deliveries)
    {
      var i := 0;
      assert deliveries[0..] == deliveries;
      while i < |deliveries|
        invariant 0 <= i <= |deliveries| && nextDelivery == old(nextDelivery) + i
        invariant AddAll(pending, nextDelivery, deliveries[i..]) == AddAll(old(pending), old(nextDelivery), deliveries)
      {
        assert deliveries[i..][0] == deliveries[i] && deliveries[i..][1..] == deliveries[i + 1..];
        QueueAdd(deliveries[i]);
        i := i + 1;
      }
      assert deliveries[i..] == [];
    }

    // ------------------------------------------------------------ one delivery's life

    method BeginImportRuntimeJob(d: Delivery, worker: string, freshSession: string) returns (paused: bool)
      modifies this`rows, this`counters
      ensures (Snapshot(), paused) == BeginJob(old(Snapshot()), d, worker, freshSession)
    {
      var derived := BeginContext(d, worker, freshSession);
      if derived.None? {
        return false;
      }
      var context := derived.value;
      EnsureWorkerCounterRow(CounterKeyOf(context));
      paused := Halted(control, context);
      UpsertImportRuntimeJob(BeginWrite(d, context, paused));
      ApplyWorkerCounterDelta(CounterKeyOf(context),
        Delta(0, -1, if paused then 0 else 1, if paused then 1 else 0, 0, 0));
    }

    method UpdateImportRuntimeProgress(d: Delivery, patch: Patch) returns (paused: bool)
      modifies this`rows
      ensures Snapshot() == ProgressJob(old(Snapshot()), d, patch)
      ensures paused <==> d.payload.execution.Some? && ProgressPaused(control, d.payload.execution.value, patch)
    {
      if d.payload.execution.None? {
        return false;
      }
      var context := d.payload.execution.value;
      paused := patch.markPaused || Halted(control, context);
      UpsertImportRuntimeJob(ProgressWrite(control, d, context, patch));
    }

    method CompleteImportRuntimeJob(d: Delivery, checkpoint: Payload)
      modifies this`rows, this`counters
      ensures Snapshot() == CompleteJob(old(Snapshot()), d, checkpoint)
    {
      if d.payload.execution.Some? {
        var context := d.payload.execution.value;
        UpsertImportRuntimeJob(CloseWrite(d, context, Completed, checkpoint, None));
        ApplyWorkerCounterDelta(CounterKeyOf(context), Delta(0, 0, -1, -1, 1, 0));
      }
    }

    method FailImportRuntimeJob(d: Delivery, message: string, progress: Payload)
      modifies this`rows, this`counters
      ensures Snapshot() == FailJob(old(Snapshot()), d, message, progress)
    {
      if d.payload.execution.Some? {
        var context := d.payload.execution.value;
        UpsertImportRuntimeJob(FailWrite(d, context, message, progress));
        ApplyWorkerCounterDelta(CounterKeyOf(context), Delta(0, 0, -1, 0, 0, 1));
      }
    }

    // ------------------------------------------------------------ resume

    /** Back to the broker under `jobId`, then the row and its counters. */
    method SendAgain(id: RowKey, row: Row, recover: bool, jobId: string)
      requires id in rows && rows[id] == row && IsRequeued(row, recover)
      modifies this
      ensures Snapshot() == RequeueAs(old(Snapshot()), id, recover, jobId)
    {
      var isRecover := recover || row.state == Failed || row.state == Stale;
      QueueAdd(Delivery(row.queueName, row.jobName, row.resumePayload, Some(jobId), 1));
      rows := rows[id := row.(state := if isRecover then Recovering else Queued, bullJobId := Some(jobId),
                              attemptsUsed := if isRecover then row.attemptsUsed + 1 else row.attemptsUsed)];
      var key := CounterKey(row.session, row.worker);
      EnsureWorkerCounterRow(key);
      ApplyWorkerCounterDelta(key, Delta(0, 1, 0, if row.state == Paused then -1 else 0, 0,
                                         if row.state == Failed || row.state == Stale then -1 else 0));
      recoveries := if isRecover then recoveries + [(id, jobId)] else recoveries;
    }

    method ResumeRow(id: RowKey, row: Row, recover: bool) returns (sent: bool)
      requires id in rows && rows[id] == row
      modifies this
      ensures Snapshot() == RequeueRow(old(Snapshot()), id, recover)
      ensures sent <==> IsRequeued(row, recover)
      ensures rows.Keys == old(rows).Keys
      ensures forall other | other in rows && other != id :: rows[other] == old(rows)[other]
    {
      if !row.resumePayload.NonEmpty() {
        return false;
      }
      var isRecover := recover || row.state == Failed || row.state == Stale;
      if isRecover && row.attemptsUsed >= row.maxRecoveryAttempts {
        rows := rows[id := row.(state := TerminalErrorSkipped)];
        return false;
      }
      var jobId := JobKeys.ResumeJobId(id.key, row.attemptsUsed + 1);
      RequeueTouchesOne(Snapshot(), id, recover, jobId);
      SendAgain(id, row, recover, jobId);
      return true;
    }

    /** `page` is what the select statement returned; its rows are read once, before the loop. */
    method ResumeImportRuntimeJobs(a: ResumeArgs, page: seq<RowKey>) returns (requeued: nat, skipped: nat)
      requires IsPage(rows, a, page)
      modifies this
      ensures Snapshot() == ResumeCall(old(Snapshot()), page, a.recover)
      ensures requeued == RequeuedCount(old(rows), page, a.recover) && requeued + skipped == |page|
    {
      requeued, skipped := 0, 0;
      var selected := rows;
      ghost var start := Snapshot();
      var i := 0;
      PageRows(rows, a, page);
      while i < |page|
        invariant 0 <= i <= |page|
        invariant forall j | 0 <= j < |page| :: page[j] in selected && selected[page[j]].state in DEFAULT_STATES
        invariant rows.Keys == selected.Keys
        invariant forall j | i <= j < |page| :: rows[page[j]] == selected[page[j]]
        invariant Elements(page[i..]) <= selected.Keys
        invariant ResumeCall(start, page, a.recover) == ResumeCall(Snapshot(), page[i..], a.recover)
        invariant requeued + RequeuedCount(selected, page[i..], a.recover) == RequeuedCount(selected, page, a.recover)
        invariant requeued + skipped == i
      {
        TailOfPage(Snapshot(), selected, page, i, a.recover);
        var sent := ResumeRow(page[i], selected[page[i]], a.recover);
        if sent {
          requeued := requeued + 1;
        } else {
          skipped := skipped + 1;
        }
        i := i + 1;
      }
      assert page[i..] == [];
      assert RequeueEvents([], a.recover) == [];
    }
  }

  lemma PageRows(rows: map<RowKey, Row>, a: ResumeArgs, page: seq<RowKey>)
    requires IsPage(rows, a, page)
    ensures forall j | 0 <= j < |page| :: page[j] in rows && rows[page[j]].state in DEFAULT_STATES
    ensures page[0..] == page && Elements(page) <= rows.Keys
  {
    forall j | 0 <= j < |page| ensures page[j] in rows && rows[page[j]].state in DEFAULT_STATES {
      assert page[j] in Elements(page);
    }
  }

  lemma RequeueTouchesOne(s: Store, id: RowKey, recover: bool, jobId: string)
    requires id in s.rows
    ensures var t := RequeueAs(s, id, recover, jobId);
            && t.rows.Keys == s.rows.Keys
            && forall other | other in s.rows && other != id :: t.rows[other] == s.rows[other]
  {
  }

  /** What one turn of the resume loop owes: requeue the next row, then the rest of the page. */
  lemma TailOfPage(s: Store, selected: map<RowKey, Row>, page: seq<RowKey>, i: nat, recover: bool)
    requires i < |page| && page[i] in s.rows && page[i] in selected && s.rows[page[i]] == selected[page[i]]
    requires s.rows[page[i]].state in DEFAULT_STATES && Elements(page[i..]) <= selected.Keys
    ensures ResumeCall(s, page[i..], recover) == ResumeCall(RequeueRow(s, page[i], recover), page[i + 1..], recover)
    ensures Elements(page[i + 1..]) <= selected.Keys
    ensures RequeuedCount(selected, page[i..], recover)
         == (if IsRequeued(selected[page[i]], recover) then 1 else 0) + RequeuedCount(selected, page[i + 1..], recover)
  {
    assert page[i..][0] == page[i] && page[i..][1..] == page[i + 1..];
    assert forall id | id in page[i + 1..] :: id in page[i..];
    ResumeHead(s, page[i..], recover, RequeueRow(s, page[i], recover));
  }

  /** How the processor of one delivery ended. */
  datatype Outcome = Returned(checkpoint: Payload) | Threw(message: string, progress: Payload, retry: bool)

  function ClosingEvent(n: nat, outcome: Outcome): Event {
    match outcome
    case Returned(checkpoint) => Complete(n, checkpoint)
    case Threw(message, progress, retry) => Fail(n, message, progress, retry)
  }

  function Closed(s: Store, d: Delivery, outcome: Outcome): Store {
    match outcome
    case Returned(checkpoint) => CompleteJob(s, d, checkpoint)
    case Threw(message, progress, retry) =>
      var failed := FailJob(s, d, message, progress);
      if retry then Send(failed, d) else failed
  }

  lemma BegunAndClosed(s: Store, first: Event, last: Event)
    ensures Run(s, [first] + [last]) == Step(Step(s, first), last)
  {
    assert [first] + [last] == [first, last];
    TwoSteps(s, first, last);
  }

  /** The callback `buildWorkers` hands to the broker, with its statistics. */
  class DeliveryLoop {
    const runtime: ImportRuntime
    var processed: nat
    var failed: nat

    constructor (runtime: ImportRuntime)
      ensures this.runtime == runtime && processed == 0 && failed == 0
    {
      this.runtime := runtime;
      processed, failed := 0, 0;
    }

    /** The end of a delivery: its result recorded, or its error, and then the broker's own choice. */
    method Close(d: Delivery, outcome: Outcome)
      modifies this`processed, this`failed, runtime
      ensures runtime.Snapshot() == Closed(old(runtime.Snapshot()), d, outcome)
      ensures processed == old(processed) + (if outcome.Threw? then 0 else 1)
      ensures failed == old(failed) + (if outcome.Threw? then 1 else 0)
    {
      match outcome {
        case Returned(checkpoint) =>
          runtime.CompleteImportRuntimeJob(d, checkpoint);
          processed := processed + 1;
        case Threw(message, progress, retry) =>
          runtime.FailImportRuntimeJob(d, message, progress);
          failed := failed + 1;
          if retry {
            runtime.QueueAdd(d);
          }
      }
    }

    /** A held delivery is given up as it is closed. */
    method Finish(n: nat, d: Delivery, outcome: Outcome)
      requires n in runtime.inFlight && runtime.inFlight[n] == d
      modifies this`processed, this`failed, runtime
      ensures runtime.Snapshot() == Step(old(runtime.Snapshot()), ClosingEvent(n, outcome))
      ensures processed == old(processed) + (if outcome.Threw? then 0 else 1)
      ensures failed == old(failed) + (if outcome.Threw? then 1 else 0)
    {
      runtime.inFlight := runtime.inFlight - {n};
      Close(d, outcome);
    }

    /** One delivery from start to end: a paused job never reaches its processor. */
    method Deliver(n: nat, freshSession: string, outcome: Outcome) returns (started: bool)
      requires n in runtime.pending && n !in runtime.inFlight
      modifies this`processed, this`failed, runtime
      ensures var s := old(runtime.Snapshot());
              started == !BeginJob(s.(pending := s.pending - {n}), s.pending[n], s.pending[n].queueName, freshSession).1
      ensures runtime.Snapshot()
           == Run(old(runtime.Snapshot()),
                  [Begin(n, freshSession)] + (if started then [ClosingEvent(n, outcome)] else []))
      ensures processed == old(processed) + (if started && outcome.Threw? then 0 else 1)
      ensures failed == old(failed) + (if started && outcome.Threw? then 1 else 0)
    {
      ghost var before := runtime.Snapshot();
      var d := runtime.pending[n];
      runtime.pending := runtime.pending - {n};
      var paused := runtime.BeginImportRuntimeJob(d, d.queueName, freshSession);
      if paused {
        processed := processed + 1;
        OneStep(before, Begin(n, freshSession));
        assert [Begin(n, freshSession)] + [] == [Begin(n, freshSession)];
        return false;
      }
      runtime.inFlight := runtime.inFlight[n := d];
      Finish(n, d, outcome);
      BegunAndClosed(before, Begin(n, freshSession), ClosingEvent(n, outcome));
      return true;
    }
  }
}
