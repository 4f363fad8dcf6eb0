/** What each step leaves in the row of its job, column by column, and what a resumed row gives back. */
module RuntimeRows {
  import opened Options
  import opened ImportContext
  import opened RuntimeStore
  import opened RuntimeBulk
  import opened RuntimeIdentity
  import opened RuntimePause
  import JobKeys

  function Stored(s: Store, context: Context): Option<Row> {
    if RowKeyOf(context) in s.rows then Some(s.rows[RowKeyOf(context)]) else None
  }

  /** The row names its job as the context does; a stored row keeps its batch, session and attempts. */
  predicate Names(row: Row, context: Context, stored: Option<Row>) {
    && row.parentKey == context.parentRuntimeJobKey
    && row.worker == context.workerName && row.stageKey == context.stageKey
    && row.entityType == context.entityType && row.entityId == context.entityId
    && row.batch == (if stored.Some? then stored.value.batch else context.batchId)
    && row.session == (if stored.Some? then stored.value.session else context.sessionId)
    && row.attemptsUsed == (if stored.Some? then stored.value.attemptsUsed else 0)
  }

  /** The row says where its job was delivered, under which id, and for which contact. */
  predicate DeliveredAs(row: Row, queueName: string, d: Delivery) {
    && row.queueName == queueName && row.jobName == d.jobName && row.bullJobId == d.jobId
    && row.contactId == d.payload.Field("bronzeContactId")
    && row.maxRecoveryAttempts == 3
  }

  // ---------------------------------------------------------------- enqueue

  /** The id of a sent job: the one asked for, or one derived from job key and session. */
  predicate SentUnder(jobId: Option<string>, args: EnqueueArgs, context: Context) {
    if HasText(args.opts.jobId) then jobId == args.opts.jobId
    else jobId == Some("rt__" + JobKeys.HashKey([Some(context.runtimeJobKey), Some(context.sessionId)]))
  }

  lemma RecordedRow(s: Store, args: EnqueueArgs, context: Context, jobId: string, paused: bool, t: Store)
    returns (row: Row)
    requires t == EnqueueRecorded(s, args, context, jobId, paused)
    ensures t.rows == s.rows[RowKeyOf(context) := row]
    ensures Names(row, context, Stored(s, context))
    ensures row.queueName == args.queueName && row.jobName == args.jobName && row.contactId == args.contactId
    ensures row.maxRecoveryAttempts == if args.maxRecoveryAttempts.Some? then args.maxRecoveryAttempts.value else 3
    ensures row.resumePayload == Payload(args.payload.fields, Some(context))
    ensures row.checkpointPayload == row.resumePayload
    ensures row.lastError == None && row.state == if paused then Paused else Queued
    ensures row.bullJobId == if paused then None else Some(jobId)
  {
    row := t.rows[RowKeyOf(context)];
  }

  lemma JobIdIs(args: EnqueueArgs, context: Context)
    ensures SentUnder(Some(EnqueueJobId(args.opts, context)), args, context)
  {
  }

  /** A tracked enqueue writes its own row and no other, and what it sends carries that row's payload and id. */
  lemma EnqueuedRow(s: Store, args: EnqueueArgs, session: string, context: Context, t: Store)
    returns (row: Row)
    requires CreateContext(args, session) == Some(context) && t == EnqueueJob(s, args, session)
    ensures t.rows == s.rows[RowKeyOf(context) := row]
    ensures Names(row, context, Stored(s, context))
    ensures row.queueName == args.queueName && row.jobName == args.jobName && row.contactId == args.contactId
    ensures row.maxRecoveryAttempts == if args.maxRecoveryAttempts.Some? then args.maxRecoveryAttempts.value else 3
    ensures row.resumePayload == Payload(args.payload.fields, Some(context))
    ensures row.checkpointPayload == row.resumePayload
    ensures row.lastError == None && row.state in {Queued, Paused}
    ensures row.state == Paused ==> row.bullJobId == None
    ensures row.state == Queued ==>
      && SentUnder(row.bullJobId, args, context)
      && t.pending == s.pending[s.nextDelivery := Delivery(args.queueName, args.jobName, row.resumePayload,
                                                           row.bullJobId, args.opts.attempts)]
  {
    var jobId, paused := EnqueueJobId(args.opts, context), Halted(s.control, context);
    row := RecordedRow(s, args, context, jobId, paused, EnqueueRecorded(s, args, context, jobId, paused));
    JobIdIs(args, context);
    assert t == EnqueueAs(s, args, context, jobId, paused);
  }

  /** An enqueue that is not tracked sends the job as it is and records nothing. */
  lemma UntrackedIsSentAsIs(s: Store, args: EnqueueArgs, session: string, t: Store)
    requires CreateContext(args, session).None? && t == EnqueueJob(s, args, session)
    ensures t.rows == s.rows && t.counters == s.counters && t.nextDelivery == s.nextDelivery + 1
    ensures t.pending == s.pending[s.nextDelivery := Delivery(args.queueName, args.jobName, args.payload,
                                                              args.opts.jobId, args.opts.attempts)]
  {
  }

  // ---------------------------------------------------------------- bulk insert

  /** A fresh key gets a whole row. */
  lemma BulkInsertedRow(rows: map<RowKey, Row>, entries: seq<Entry>, paused: bool, e: Entry) returns (row: Row)
    requires !KeyTwice(entries) && e in entries && RowKeyOf(e.context) !in rows
    ensures RowKeyOf(e.context) in InsertAll(rows, entries, paused)
    ensures InsertAll(rows, entries, paused)[RowKeyOf(e.context)] == row
    ensures Names(row, e.context, None)
    ensures row.queueName == e.args.queueName && row.jobName == e.args.jobName && row.contactId == e.args.contactId
    ensures row.maxRecoveryAttempts == if e.args.maxRecoveryAttempts.Some? then e.args.maxRecoveryAttempts.value else 3
    ensures row.resumePayload == Payload(e.args.payload.fields, Some(e.context))
    ensures row.checkpointPayload == row.resumePayload
    ensures row.lastError == None && row.state == if paused then Paused else Queued
    ensures if paused then row.bullJobId == None else SentUnder(row.bullJobId, e.args, e.context)
  {
    InsertedAt(rows, entries, paused, e);
    row := InsertAll(rows, entries, paused)[RowKeyOf(e.context)];
  }

  /** A stored key keeps everything but its state, queue, id and payloads. */
  lemma BulkOverwrittenRow(rows: map<RowKey, Row>, entries: seq<Entry>, paused: bool, e: Entry, stored: Row)
    returns (row: Row)
    requires !KeyTwice(entries) && e in entries && RowKeyOf(e.context) in rows && stored == rows[RowKeyOf(e.context)]
    ensures RowKeyOf(e.context) in InsertAll(rows, entries, paused)
    ensures InsertAll(rows, entries, paused)[RowKeyOf(e.context)] == row
    ensures row.parentKey == stored.parentKey && row.worker == stored.worker && row.stageKey == stored.stageKey
    ensures row.entityType == stored.entityType && row.entityId == stored.entityId && row.contactId == stored.contactId
    ensures row.batch == stored.batch && row.session == stored.session && row.attemptsUsed == stored.attemptsUsed
    ensures row.jobName == stored.jobName && row.maxRecoveryAttempts == stored.maxRecoveryAttempts
    ensures row.lastError == stored.lastError
    ensures row.queueName == e.args.queueName && row.state == if paused then Paused else Queued
    ensures row.resumePayload == Payload(e.args.payload.fields, Some(e.context))
    ensures row.checkpointPayload == row.resumePayload
    ensures if paused then row.bullJobId == None else SentUnder(row.bullJobId, e.args, e.context)
  {
    InsertedAt(rows, entries, paused, e);
    row := InsertAll(rows, entries, paused)[RowKeyOf(e.context)];
  }

  // ---------------------------------------------------------------- begin, progress and the two ends

  lemma BegunRow(s: Store, n: nat, session: string, context: Context, t: Store)
    returns (row: Row)
    requires Sound(s) && n in s.pending && s.pending[n].payload.execution == Some(context)
    requires t == BeginDelivery(s, n, session)
    ensures t.rows == s.rows[RowKeyOf(context) := row]
    ensures Names(row, context, Stored(s, context)) && DeliveredAs(row, s.pending[n].queueName, s.pending[n])
    ensures row.resumePayload == s.pending[n].payload && row.checkpointPayload == s.pending[n].payload
    ensures row.lastError == None && row.state in {Running, Paused}
  {
    BeginIsBegunAs(s, n, session);
    row := t.rows[RowKeyOf(context)];
  }

  /** The queue of a context, or else that of its worker. */
  function QueueOf(context: Context): string {
    if context.queueName.Some? then context.queueName.value else context.workerName
  }

  lemma ProgressedRow(s: Store, d: Delivery, context: Context, patch: Patch, t: Store)
    returns (row: Row)
    requires d.payload.execution == Some(context) && t == ProgressJob(s, d, patch)
    ensures t.rows == s.rows[RowKeyOf(context) := row]
    ensures Names(row, context, Stored(s, context)) && DeliveredAs(row, QueueOf(context), d)
    ensures row.resumePayload == (if patch.resume.Some? then patch.resume.value else d.payload)
    ensures row.checkpointPayload == patch.checkpoint && row.lastError == None && row.state in {Running, Paused}
    ensures t.counters == s.counters && t.pending == s.pending && t.inFlight == s.inFlight
  {
    row := t.rows[RowKeyOf(context)];
  }

  lemma CompletedRow(s: Store, d: Delivery, context: Context, checkpoint: Payload, t: Store)
    returns (row: Row)
    requires d.payload.execution == Some(context) && t == CompleteJob(s, d, checkpoint)
    ensures t.rows == s.rows[RowKeyOf(context) := row]
    ensures Names(row, context, Stored(s, context)) && DeliveredAs(row, QueueOf(context), d)
    ensures row.resumePayload == d.payload && row.checkpointPayload == checkpoint
    ensures row.lastError == None && row.state == Completed
  {
    row := t.rows[RowKeyOf(context)];
  }

  /** A failure stores its message, or the first 4000 characters of a longer one. */
  lemma FailedRow(s: Store, d: Delivery, context: Context, message: string, progress: Payload, t: Store)
    returns (row: Row)
    requires d.payload.execution == Some(context) && t == FailJob(s, d, message, progress)
    ensures t.rows == s.rows[RowKeyOf(context) := row]
    ensures Names(row, context, Stored(s, context)) && DeliveredAs(row, QueueOf(context), d)
    ensures row.resumePayload == d.payload && row.checkpointPayload == progress && row.state == Failed
    ensures row.lastError.Some? && row.lastError.value <= message
    ensures |row.lastError.value| == if |message| <= 4000 then |message| else 4000
  {
    row := t.rows[RowKeyOf(context)];
  }

  /** A job without a context is neither recorded nor counted at any of these. */
  lemma UntrackedIsLeftAlone(s: Store, d: Delivery, patch: Patch, checkpoint: Payload, message: string)
    requires d.payload.execution.None?
    ensures ProgressJob(s, d, patch) == s && CompleteJob(s, d, checkpoint) == s
    ensures FailJob(s, d, message, checkpoint) == s
  {
  }

  // ---------------------------------------------------------------- what a resumed row gives back

  /** A resume sends the row's own job again, once, under the id of its next attempt; the row keeps everything
      but its state, its id and, where the resume spends one, its attempts. */
  lemma RequeuedRowIs(s: Store, id: RowKey, recover: bool, before: Row, t: Store) returns (row: Row)
    requires id in s.rows && before == s.rows[id] && t == RequeueRow(s, id, recover)
    requires before.resumePayload.NonEmpty()
    requires !(recover || before.state in {Failed, Stale}) || before.attemptsUsed < before.maxRecoveryAttempts
    ensures t.rows == s.rows[id := row]
    ensures row.bullJobId == Some(JobKeys.ResumeJobId(id.key, before.attemptsUsed + 1))
    ensures row.state == if recover || before.state in {Failed, Stale} then Recovering else Queued
    ensures row.attemptsUsed == before.attemptsUsed + if recover || before.state in {Failed, Stale} then 1 else 0
    ensures row.(bullJobId := before.bullJobId, state := before.state, attemptsUsed := before.attemptsUsed) == before
    ensures t.pending == s.pending[s.nextDelivery := Delivery(before.queueName, before.jobName, before.resumePayload,
                                                              row.bullJobId, 1)]
    ensures t.nextDelivery == s.nextDelivery + 1
  {
    row := t.rows[id];
  }

  lemma RequeueDeltaMoves(counters: map<CounterKey, Counters>, key: CounterKey, state: JobState, before: Counters)
    requires before == Before(counters, key)
    ensures ApplyDelta(EnsureCounters(counters, key), key, RequeueDelta(state)) == counters[key := before.(
      queued := before.queued + 1,
      paused := if state == Paused && before.paused > 0 then before.paused - 1 else before.paused,
      failed := if state in {Failed, Stale} && before.failed > 0 then before.failed - 1 else before.failed)]
  {
  }

  /** It moves its row's own counters: one more queued, and one fewer paused or failed where the row was counted
      so, never below zero. */
  lemma RequeueCharges(s: Store, id: RowKey, recover: bool, jobId: string, row: Row, t: Store,
                       key: CounterKey, before: Counters)
    requires id in s.rows && row == s.rows[id] && IsRequeued(row, recover) && t == RequeueAs(s, id, recover, jobId)
    requires key == CounterKey(row.session, row.worker) && before == Before(s.counters, key)
    ensures t.counters == s.counters[key := before.(
      queued := before.queued + 1,
      paused := if row.state == Paused && before.paused > 0 then before.paused - 1 else before.paused,
      failed := if row.state in {Failed, Stale} && before.failed > 0 then before.failed - 1 else before.failed)]
  {
    assert t.counters == ApplyDelta(EnsureCounters(s.counters, key), key, RequeueDelta(row.state));
    RequeueDeltaMoves(s.counters, key, row.state, before);
  }

  /** A row over its budget is written off, one without a payload is left, and neither is sent. */
  lemma SkippedRowIs(s: Store, id: RowKey, recover: bool, t: Store, before: Row)
    requires id in s.rows && before == s.rows[id] && t == RequeueRow(s, id, recover)
    requires !before.resumePayload.NonEmpty()
          || ((recover || before.state in {Failed, Stale}) && before.attemptsUsed >= before.maxRecoveryAttempts)
    ensures t.pending == s.pending && t.nextDelivery == s.nextDelivery && t.counters == s.counters
    ensures if before.resumePayload.NonEmpty() then t.rows == s.rows[id := before.(state := TerminalErrorSkipped)]
            else t.rows == s.rows
  {
  }

  /** A job enqueued under a pause and then resumed reaches the queue it was meant for, with the payload it
      would have had, under the resume's id. */
  lemma PausedEnqueueComesBack(s: Store, args: EnqueueArgs, session: string, context: Context, t: Store, u: Store)
    requires CreateContext(args, session) == Some(context) && SomeScopePaused(s.control, context)
    requires t == EnqueueJob(s, args, session) && RowKeyOf(context) in t.rows
    requires u == RequeueRow(t, RowKeyOf(context), false)
    ensures t.pending == s.pending && t.nextDelivery == s.nextDelivery
    ensures s.nextDelivery in u.pending
    ensures var d := u.pending[s.nextDelivery];
            && d.queueName == args.queueName && d.jobName == args.jobName && d.attempts == 1
            && d.payload == Payload(args.payload.fields, Some(context))
  {
    HaltedIff(s.control, context);
    var row := EnqueuedRow(s, args, session, context, t);
    EnqueueIsPausedIff(s, args, session, context, t);
    var requeued := RequeuedRowIs(t, RowKeyOf(context), false, row, u);
  }

  /** A delivery that began under a pause and is then resumed comes back as it was, under the resume's id. */
  lemma PausedBeginComesBack(s: Store, n: nat, session: string, context: Context, t: Store, u: Store)
    requires Sound(s) && n in s.pending && s.pending[n].payload.execution == Some(context)
    requires SomeScopePaused(s.control, context) && t == BeginDelivery(s, n, session)
    requires RowKeyOf(context) in t.rows && u == RequeueRow(t, RowKeyOf(context), false)
    ensures n !in t.pending && n !in t.inFlight && t.nextDelivery == s.nextDelivery
    ensures s.nextDelivery in u.pending
    ensures u.pending[s.nextDelivery] == s.pending[n].(jobId := u.pending[s.nextDelivery].jobId, attempts := 1)
  {
    var row := BegunRow(s, n, session, context, t);
    BeginIsPausedIff(s, n, session, context, t);
    BeginIsBegunAs(s, n, session);
    var requeued := RequeuedRowIs(t, RowKeyOf(context), false, row, u);
  }

  /** A failed job whose budget is not spent is resumed with its payload, in the queue of its context. */
  lemma FailedJobComesBack(s: Store, n: nat, message: string, progress: Payload, recover: bool,
                           context: Context, t: Store, u: Store)
    requires n in s.inFlight && s.inFlight[n].payload.execution == Some(context)
    requires t == Step(s, Fail(n, message, progress, false)) && RowKeyOf(context) in t.rows
    requires t.rows[RowKeyOf(context)].attemptsUsed < 3 && u == RequeueRow(t, RowKeyOf(context), recover)
    ensures n !in t.inFlight && t.pending == s.pending && s.nextDelivery in u.pending
    ensures var d := u.pending[s.nextDelivery];
            && d.queueName == QueueOf(context) && d.jobName == s.inFlight[n].jobName && d.attempts == 1
            && d.payload == s.inFlight[n].payload
  {
    var row := FailedRow(s.(inFlight := s.inFlight - {n}), s.inFlight[n], context, message, progress, t);
    var requeued := RequeuedRowIs(t, RowKeyOf(context), recover, row, u);
  }
}
