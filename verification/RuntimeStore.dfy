/** The import runtime: job rows, worker counters and the broker's deliveries, and what each
    exported function does to them. */
module RuntimeStore {
  import opened Options
  import opened ImportContext
  import ImportControl
  import JobKeys

  datatype JobState =
    | Queued | Running | Paused | Recovering | Completed | Failed
    | Stale | TerminalErrorSkipped | Cancelled | Deleted

  datatype RowKey = RowKey(tenant: string, key: string)
  datatype CounterKey = CounterKey(session: string, worker: string)

  datatype Row = Row(
    batch: string, session: string, parentKey: Option<string>, queueName: string, jobName: string,
    worker: string, stageKey: string, bullJobId: Option<string>, entityType: Option<string>,
    entityId: Option<string>, contactId: Option<string>, state: JobState, attemptsUsed: nat,
    maxRecoveryAttempts: nat, resumePayload: Payload, checkpointPayload: Payload, lastError: Option<string>)

  datatype Counters = Counters(total: nat, queued: nat, running: nat, paused: nat, completed: nat, failed: nat)
  datatype Delta = Delta(total: int, queued: int, running: int, paused: int, completed: int, failed: int)

  datatype Delivery = Delivery(queueName: string, jobName: string,
                               payload: Payload, jobId: Option<string>, attempts: nat)

  /** `pending` and `inFlight` are the broker's waiting and active deliveries, by arrival number.
      `recoveries` is a history: every requeue that spent a recovery attempt, with its job id. */
  datatype Store = Store(
    rows: map<RowKey, Row>, counters: map<CounterKey, Counters>, control: ImportControl.Control,
    pending: map<nat, Delivery>, inFlight: map<nat, Delivery>, nextDelivery: nat,
    recoveries: seq<(RowKey, string)>)

  const DEFAULT_RECOVERY_ATTEMPTS: nat := 3
  const DEFAULT_STATES := {Paused, Stale, Failed}
  const PAGE_SIZE: nat := 1000
  const ZERO := Counters(0, 0, 0, 0, 0, 0)

  function RowKeyOf(context: Context): RowKey {
    RowKey(context.tenantId, context.runtimeJobKey)
  }

  function CounterKeyOf(context: Context): CounterKey {
    CounterKey(context.sessionId, context.workerName)
  }

  predicate Halted(control: ImportControl.Control, context: Context) {
    ImportControl.IsPaused(control, context.tenantId, context.batchId, context.workerName)
  }

  // ---------------------------------------------------------------- table primitives

  /** `GREATEST(column + delta, 0)`. */
  function Clamp(value: int): nat {
    if value < 0 then 0 else value
  }

  function Bump(c: Counters, d: Delta): Counters {
    Counters(Clamp(c.total + d.total), Clamp(c.queued + d.queued), Clamp(c.running + d.running),
             Clamp(c.paused + d.paused), Clamp(c.completed + d.completed), Clamp(c.failed + d.failed))
  }

  function EnsureCounters(counters: map<CounterKey, Counters>, key: CounterKey): map<CounterKey, Counters> {
    if key in counters then counters else counters[key := ZERO]
  }

  function ApplyDelta(counters: map<CounterKey, Counters>, key: CounterKey, d: Delta): map<CounterKey, Counters> {
    if key in counters then counters[key := Bump(counters[key], d)] else counters
  }

  /** A counter row, or zeros where there is none yet. */
  function Before(counters: map<CounterKey, Counters>, key: CounterKey): Counters {
    if key in counters then counters[key] else ZERO
  }

  datatype Write = Write(
    context: Context, queueName: string, jobName: string, bullJobId: Option<string>,
    contactId: Option<string>, state: JobState, resumePayload: Payload, checkpointPayload: Payload,
    lastError: Option<string>, maxRecoveryAttempts: Option<nat>)

  /** The conflict branch keeps the batch, the session and the attempts used, and overwrites the limit. */
  function UpsertedRow(rows: map<RowKey, Row>, w: Write): Row {
    var id := RowKeyOf(w.context);
    var inserted := Row(w.context.batchId, w.context.sessionId, w.context.parentRuntimeJobKey, w.queueName,
      w.jobName, w.context.workerName, w.context.stageKey, w.bullJobId, w.context.entityType,
      w.context.entityId, w.contactId, w.state, 0, w.maxRecoveryAttempts.GetOr(DEFAULT_RECOVERY_ATTEMPTS),
      w.resumePayload, w.checkpointPayload, w.lastError);
    if id in rows
    then inserted.(batch := rows[id].batch, session := rows[id].session, attemptsUsed := rows[id].attemptsUsed)
    else inserted
  }

  function Upsert(rows: map<RowKey, Row>, w: Write): map<RowKey, Row> {
    rows[RowKeyOf(w.context) := UpsertedRow(rows, w)]
  }

  /** `queue.add`: broker ids are fresh, so no add is dropped. */
  function Send(s: Store, d: Delivery): Store {
    s.(pending := s.pending[s.nextDelivery := d], nextDelivery := s.nextDelivery + 1)
  }

  // ---------------------------------------------------------------- enqueue

  function EnqueueJobId(opts: JobOptions, context: Context): string {
    if HasText(opts.jobId) then opts.jobId.value
    else "rt__" + JobKeys.HashKey([Some(context.runtimeJobKey), Some(context.sessionId)])
  }

  function EnqueueWrite(args: EnqueueArgs, context: Context, paused: bool, jobId: string): Write {
    var payload := WithContext(args.payload, context);
    Write(context, args.queueName, args.jobName, if paused then None else Some(jobId), args.contactId,
      if paused then Paused else Queued, payload, payload, None, args.maxRecoveryAttempts)
  }

  function EnqueueDelivery(args: EnqueueArgs, context: Context, jobId: string): Delivery {
    Delivery(args.queueName, args.jobName, WithContext(args.payload, context), Some(jobId), args.opts.attempts)
  }

  function EnqueueDelta(paused: bool): Delta {
    Delta(1, if paused then 0 else 1, 0, if paused then 1 else 0, 0, 0)
  }

  /** The rows and counters of one enqueued job, paused or not. */
  function EnqueueRecorded(s: Store, args: EnqueueArgs, context: Context, jobId: string, paused: bool): Store {
    var key := CounterKeyOf(context);
    s.(rows := Upsert(s.rows, EnqueueWrite(args, context, paused, jobId)),
       counters := ApplyDelta(EnsureCounters(s.counters, key), key, EnqueueDelta(paused)))
  }

  function EnqueueAs(s: Store, args: EnqueueArgs, context: Context, jobId: string, paused: bool): Store {
    var recorded := EnqueueRecorded(s, args, context, jobId, paused);
    if paused then recorded else Send(recorded, EnqueueDelivery(args, context, jobId))
  }

  function EnqueueTracked(s: Store, args: EnqueueArgs, context: Context, jobId: string): Store {
    EnqueueAs(s, args, context, jobId, Halted(s.control, context))
  }

  function UntrackedDelivery(args: EnqueueArgs): Delivery {
    Delivery(args.queueName, args.jobName, args.payload, args.opts.jobId, args.opts.attempts)
  }

  /** `enqueueImportJob`. */
  function EnqueueJob(s: Store, args: EnqueueArgs, freshSession: string): Store {
    match CreateContext(args, freshSession)
    case None => Send(s, UntrackedDelivery(args))
    case Some(context) => EnqueueTracked(s, args, context, EnqueueJobId(args.opts, context))
  }

  // ---------------------------------------------------------------- bulk enqueue

  datatype BulkItem = BulkItem(
    jobName: string, payload: Payload, opts: JobOptions, entityType: Option<string>, entityId: Option<string>,
    contactId: Option<string>, workerName: Option<string>, stageKey: Option<string>,
    idempotencyScope: Option<string>, correlationId: Option<string>)

  datatype BulkArgs = BulkArgs(
    queueName: string, items: seq<BulkItem>, explicit: Option<PartialContext>, parent: Option<Context>,
    workerName: Option<string>, stageKey: Option<string>, maxRecoveryAttempts: Option<nat>)

  /** One tracked item: the single-enqueue arguments it stands for, and its context. */
  datatype Entry = Entry(args: EnqueueArgs, context: Context)

  /** `BulkConflict` is the database refusing one insert that names a key twice. */
  datatype BulkResult = BulkDone(queued: nat, paused: nat, session: Option<string>) | BulkConflict

  // ---------------------------------------------------------------- contexts of the items

  function FirstArgs(args: BulkArgs): EnqueueArgs
    requires args.items != []
  {
    var item := args.items[0];
    EnqueueArgs(args.queueName, item.jobName, item.payload, JobOptions(None, 0), args.explicit, args.parent,
      Or(args.workerName, item.workerName), Or(args.stageKey, item.stageKey),
      None, None, None, None, item.correlationId, None)
  }

  function ItemArgs(args: BulkArgs, first: Context, item: BulkItem): EnqueueArgs {
    EnqueueArgs(args.queueName, item.jobName, item.payload, item.opts, args.explicit, args.parent,
      Some(item.workerName.GetOr(args.workerName.GetOr(first.workerName))),
      Some(item.stageKey.GetOr(args.stageKey.GetOr(first.stageKey))),
      item.entityType, item.entityId, item.contactId, item.idempotencyScope,
      Or(item.correlationId, first.correlationId), args.maxRecoveryAttempts)
  }

  /** Items without a context are skipped; `sessions[i]` is the session opened for item i if it needs one. */
  function Entries(args: BulkArgs, first: Context, sessions: seq<string>, n: nat): seq<Entry>
    requires n <= |args.items| == |sessions|
  {
    if n == 0 then []
    else
      var single := ItemArgs(args, first, args.items[n - 1]);
      var context := CreateContext(single, sessions[n - 1]);
      Entries(args, first, sessions, n - 1) + (if context.Some? then [Entry(single, context.value)] else [])
  }

  function HomeKey(args: BulkArgs, first: Context): CounterKey {
    CounterKey(first.sessionId, args.workerName.GetOr(first.workerName))
  }

  predicate BulkPaused(control: ImportControl.Control, args: BulkArgs, first: Context) {
    ImportControl.IsPaused(control, first.tenantId, first.batchId, args.workerName.GetOr(first.workerName))
  }

  // ---------------------------------------------------------------- the one insert

  /** The conflict branch of the bulk insert overwrites only the state, queue, id and payloads. */
  function BulkRow(rows: map<RowKey, Row>, e: Entry, paused: bool): Row {
    var id := RowKeyOf(e.context);
    var payload := WithContext(e.args.payload, e.context);
    var state := if paused then Paused else Queued;
    var bullJobId := if paused then None else Some(EnqueueJobId(e.args.opts, e.context));
    if id in rows
    then rows[id].(state := state, queueName := e.args.queueName, bullJobId := bullJobId,
                   resumePayload := payload, checkpointPayload := payload)
    else Row(e.context.batchId, e.context.sessionId, e.context.parentRuntimeJobKey, e.args.queueName,
             e.args.jobName, e.context.workerName, e.context.stageKey, bullJobId, e.context.entityType,
             e.context.entityId, e.args.contactId, state, 0,
             e.args.maxRecoveryAttempts.GetOr(DEFAULT_RECOVERY_ATTEMPTS), payload, payload, None)
  }

  function InsertAll(rows: map<RowKey, Row>, entries: seq<Entry>, paused: bool): map<RowKey, Row>
    decreases |entries|
  {
    if entries == [] then rows
    else InsertAll(rows[RowKeyOf(entries[0].context) := BulkRow(rows, entries[0], paused)], entries[1..], paused)
  }

  function AddAll(pending: map<nat, Delivery>, next: nat, deliveries: seq<Delivery>): map<nat, Delivery>
    decreases |deliveries|
  {
    if deliveries == [] then pending else AddAll(pending[next := deliveries[0]], next + 1, deliveries[1..])
  }

  /** `queue.addBulk`. */
  function SendAll(s: Store, deliveries: seq<Delivery>): Store {
    s.(pending := AddAll(s.pending, s.nextDelivery, deliveries), nextDelivery := s.nextDelivery + |deliveries|)
  }

  function Deliveries(entries: seq<Entry>): seq<Delivery> {
    if entries == [] then []
    else
      var e := entries[0];
      [EnqueueDelivery(e.args, e.context, EnqueueJobId(e.args.opts, e.context))] + Deliveries(entries[1..])
  }

  function BulkDelta(n: nat, paused: bool): Delta {
    Delta(n, if paused then 0 else n, 0, if paused then n else 0, 0, 0)
  }

  function BulkApply(s: Store, entries: seq<Entry>, home: CounterKey, paused: bool): Store {
    var recorded := s.(
      rows := InsertAll(s.rows, entries, paused),
      counters := ApplyDelta(EnsureCounters(s.counters, home), home, BulkDelta(|entries|, paused)));
    if paused then recorded else SendAll(recorded, Deliveries(entries))
  }

  predicate KeyTwice(entries: seq<Entry>) {
    exists i, j | 0 <= i < j < |entries| :: RowKeyOf(entries[i].context) == RowKeyOf(entries[j].context)
  }

  function UntrackedItems(args: BulkArgs, n: nat): (deliveries: seq<Delivery>)
    requires n <= |args.items|
    ensures |deliveries| == n
  {
    if n == 0 then []
    else
      var item := args.items[n - 1];
      UntrackedItems(args, n - 1)
        + [Delivery(args.queueName, item.jobName, item.payload, item.opts.jobId, item.opts.attempts)]
  }

  /** What a bulk call decides before it writes: nothing to do, no context to track under, a key named
      twice, or entries for one insert. */
  datatype BulkPlan =
    | NoItems
    | AllUntracked(deliveries: seq<Delivery>)
    | Refused(home: CounterKey)
    | Accepted(entries: seq<Entry>, home: CounterKey, paused: bool, session: string)

  function PlanTracked(control: ImportControl.Control, args: BulkArgs, first: Context, sessions: seq<string>): BulkPlan
    requires |sessions| == |args.items|
  {
    var entries := Entries(args, first, sessions, |args.items|);
    if KeyTwice(entries) then Refused(HomeKey(args, first))
    else Accepted(entries, HomeKey(args, first), BulkPaused(control, args, first), first.sessionId)
  }

  function PlanBulk(control: ImportControl.Control, args: BulkArgs,
                    firstSession: string, sessions: seq<string>): BulkPlan
    requires |sessions| == |args.items|
  {
    if args.items == [] then NoItems else
    match CreateContext(FirstArgs(args), firstSession)
    case None => AllUntracked(UntrackedItems(args, |args.items|))
    case Some(first) => PlanTracked(control, args, first, sessions)
  }

  function BulkAfter(s: Store, plan: BulkPlan): Store {
    match plan
    case NoItems => s
    case AllUntracked(deliveries) => SendAll(s, deliveries)
    case Refused(home) => s.(counters := EnsureCounters(s.counters, home))
    case Accepted(entries, home, paused, _) => BulkApply(s, entries, home, paused)
  }

  function BulkReport(plan: BulkPlan): BulkResult {
    match plan
    case NoItems => BulkDone(0, 0, None)
    case AllUntracked(deliveries) => BulkDone(|deliveries|, 0, None)
    case Refused(_) => BulkConflict
    case Accepted(entries, _, paused, session) =>
      BulkDone(if paused then 0 else |entries|, if paused then |entries| else 0, Some(session))
  }

  /** `enqueueImportJobBulk`. */
  function BulkJob(s: Store, args: BulkArgs, firstSession: string, sessions: seq<string>): (Store, BulkResult)
    requires |sessions| == |args.items|
  {
    var plan := PlanBulk(s.control, args, firstSession, sessions);
    (BulkAfter(s, plan), BulkReport(plan))
  }

  // ---------------------------------------------------------------- one delivery's life

  /** What `beginImportRuntimeJob` passes on when the payload carries no context. */
  function FallbackArgs(d: Delivery, worker: string): EnqueueArgs {
    EnqueueArgs(d.queueName, d.jobName, d.payload.(execution := None), JobOptions(d.jobId, 0), None, None,
      Some(worker), Some(StageKey(d.queueName, None)), None, None, None, None, None, None)
  }

  function BeginContext(d: Delivery, worker: string, freshSession: string): Option<Context> {
    if d.payload.execution.Some? then d.payload.execution
    else CreateContext(FallbackArgs(d, worker), freshSession)
  }

  function BeginWrite(d: Delivery, context: Context, paused: bool): Write {
    Write(context, d.queueName, d.jobName, d.jobId, d.payload.Field("bronzeContactId"),
      if paused then Paused else Running, d.payload, d.payload, None, None)
  }

  function BeginTracked(s: Store, d: Delivery, context: Context): Store {
    var paused := Halted(s.control, context);
    var key := CounterKeyOf(context);
    s.(rows := Upsert(s.rows, BeginWrite(d, context, paused)),
       counters := ApplyDelta(EnsureCounters(s.counters, key), key,
         Delta(0, -1, if paused then 0 else 1, if paused then 1 else 0, 0, 0)))
  }

  /** `beginImportRuntimeJob`: the new state and whether the job was paused. */
  function BeginJob(s: Store, d: Delivery, worker: string, freshSession: string): (Store, bool) {
    match BeginContext(d, worker, freshSession)
    case None => (s, false)
    case Some(context) => (BeginTracked(s, d, context), Halted(s.control, context))
  }

  datatype Patch = Patch(checkpoint: Payload, resume: Option<Payload>, markPaused: bool)

  predicate ProgressPaused(control: ImportControl.Control, context: Context, patch: Patch) {
    patch.markPaused || Halted(control, context)
  }

  function ProgressWrite(control: ImportControl.Control, d: Delivery, context: Context, patch: Patch): Write {
    Write(context, context.queueName.GetOr(context.workerName), d.jobName, d.jobId,
      d.payload.Field("bronzeContactId"), if ProgressPaused(control, context, patch) then Paused else Running,
      patch.resume.GetOr(d.payload), patch.checkpoint, None, None)
  }

  /** `updateImportRuntimeProgress`: the row only, the job counters stay. */
  function ProgressJob(s: Store, d: Delivery, patch: Patch): Store {
    match d.payload.execution
    case None => s
    case Some(context) => s.(rows := Upsert(s.rows, ProgressWrite(s.control, d, context, patch)))
  }

  function CloseWrite(d: Delivery, context: Context,
                      state: JobState, checkpoint: Payload, error: Option<string>): Write {
    Write(context, context.queueName.GetOr(context.workerName), d.jobName, d.jobId,
      d.payload.Field("bronzeContactId"), state, d.payload, checkpoint, error, None)
  }

  /** `completeImportRuntimeJob`: always takes one off the paused counter. */
  function CompleteJob(s: Store, d: Delivery, checkpoint: Payload): Store {
    match d.payload.execution
    case None => s
    case Some(context) =>
      s.(rows := Upsert(s.rows, CloseWrite(d, context, Completed, checkpoint, None)),
         counters := ApplyDelta(s.counters, CounterKeyOf(context), Delta(0, 0, -1, -1, 1, 0)))
  }

  /** The stored message is cut at 4000 characters. */
  function FailWrite(d: Delivery, context: Context, message: string, progress: Payload): Write {
    CloseWrite(d, context, Failed, progress, Some(if |message| > 4000 then message[..4000] else message))
  }

  /** `failImportRuntimeJob`. */
  function FailJob(s: Store, d: Delivery, message: string, progress: Payload): Store {
    match d.payload.execution
    case None => s
    case Some(context) =>
      s.(rows := Upsert(s.rows, FailWrite(d, context, message, progress)),
         counters := ApplyDelta(s.counters, CounterKeyOf(context), Delta(0, 0, -1, 0, 0, 1)))
  }

  // ---------------------------------------------------------------- resume

  predicate Recovers(row: Row, recover: bool) {
    recover || row.state == Failed || row.state == Stale
  }

  predicate OverBudget(row: Row, recover: bool) {
    Recovers(row, recover) && row.attemptsUsed >= row.maxRecoveryAttempts
  }

  function ResumeDelivery(row: Row, jobId: string): Delivery {
    Delivery(row.queueName, row.jobName, row.resumePayload, Some(jobId), 1)
  }

  function RequeueDelta(state: JobState): Delta {
    Delta(0, 1, 0, if state == Paused then -1 else 0, 0, if state in {Failed, Stale} then -1 else 0)
  }

  function RequeuedRow(row: Row, recover: bool, jobId: string): Row {
    var recovers := Recovers(row, recover);
    row.(state := if recovers then Recovering else Queued, bullJobId := Some(jobId),
         attemptsUsed := if recovers then row.attemptsUsed + 1 else row.attemptsUsed)
  }

  predicate IsRequeued(row: Row, recover: bool) {
    row.resumePayload.NonEmpty() && !OverBudget(row, recover)
  }

  function RequeueRecorded(s: Store, id: RowKey, recover: bool, jobId: string): Store
    requires id in s.rows
  {
    var row := s.rows[id];
    var key := CounterKey(row.session, row.worker);
    s.(rows := s.rows[id := RequeuedRow(row, recover, jobId)],
       counters := ApplyDelta(EnsureCounters(s.counters, key), key, RequeueDelta(row.state)),
       recoveries := if Recovers(row, recover) then s.recoveries + [(id, jobId)] else s.recoveries)
  }

  function RequeueAs(s: Store, id: RowKey, recover: bool, jobId: string): Store
    requires id in s.rows
  {
    var row := s.rows[id];
    if !row.resumePayload.NonEmpty() then s
    else if OverBudget(row, recover) then s.(rows := s.rows[id := row.(state := TerminalErrorSkipped)])
    else Send(RequeueRecorded(s, id, recover, jobId), ResumeDelivery(row, jobId))
  }

  /** One row of a resume call: skipped, written off, or sent to the broker again. */
  function RequeueRow(s: Store, id: RowKey, recover: bool): Store
    requires id in s.rows
  {
    RequeueAs(s, id, recover, JobKeys.ResumeJobId(id.key, s.rows[id].attemptsUsed + 1))
  }

  // ---------------------------------------------------------------- runs

  /** One atomic step. A delivery is named by its arrival number. `retry` is the broker's choice to
      deliver a failed job again; `Redeliver` is a stalled job put back while it is still held. */
  datatype Event =
    | Enqueue(args: EnqueueArgs, freshSession: string)
    | Bulk(bulk: BulkArgs, firstSession: string, sessions: seq<string>)
    | Begin(delivery: nat, freshSession: string)
    | Progress(delivery: nat, patch: Patch)
    | Complete(delivery: nat, checkpoint: Payload)
    | Fail(delivery: nat, message: string, progress: Payload, retry: bool)
    | Redeliver(delivery: nat)
    | Requeue(id: RowKey, recover: bool)
    | Api(command: ImportControl.Command, who: ImportControl.Caller)

  predicate Enabled(s: Store, e: Event) {
    match e
    case Enqueue(_, _) => true
    case Bulk(bulk, _, sessions) => |sessions| == |bulk.items|
    case Begin(n, _) => n in s.pending
    case Progress(n, _) => n in s.inFlight
    case Complete(n, _) => n in s.inFlight
    case Fail(n, _, _, _) => n in s.inFlight
    case Redeliver(n) => n in s.inFlight
    case Requeue(id, _) => id in s.rows && s.rows[id].state in DEFAULT_STATES
    case Api(_, _) => true
  }

  function BeginDelivery(s: Store, n: nat, freshSession: string): Store
    requires n in s.pending
  {
    var d := s.pending[n];
    var begun := BeginJob(s.(pending := s.pending - {n}), d, d.queueName, freshSession);
    if begun.1 then begun.0 else begun.0.(inFlight := begun.0.inFlight[n := d])
  }

  function Step(s: Store, e: Event): Store {
    if !Enabled(s, e) then s else
    match e
    case Enqueue(args, session) => EnqueueJob(s, args, session)
    case Bulk(bulk, first, sessions) => BulkJob(s, bulk, first, sessions).0
    case Begin(n, session) => BeginDelivery(s, n, session)
    case Progress(n, patch) => ProgressJob(s, s.inFlight[n], patch)
    case Complete(n, checkpoint) => CompleteJob(s.(inFlight := s.inFlight - {n}), s.inFlight[n], checkpoint)
    case Fail(n, message, progress, retry) =>
      var failed := FailJob(s.(inFlight := s.inFlight - {n}), s.inFlight[n], message, progress);
      if retry then Send(failed, s.inFlight[n]) else failed
    case Redeliver(n) => Send(s, s.inFlight[n])
    case Requeue(id, recover) => RequeueRow(s, id, recover)
    case Api(command, who) => s.(control := ImportControl.Apply(s.control, command, who))
  }

  function Run(s: Store, events: seq<Event>): Store
    decreases |events|
  {
    if events == [] then s else Run(Step(s, events[0]), events[1..])
  }

  function Initial(control: ImportControl.Control): Store {
    Store(map[], map[], control, map[], map[], 0, [])
  }

  lemma OneStep(s: Store, e: Event)
    ensures Run(s, [e]) == Step(s, e)
  {
    assert [e][1..] == [];
    assert Run(Step(s, e), []) == Step(s, e);
  }

  lemma TwoSteps(s: Store, e1: Event, e2: Event)
    ensures Run(s, [e1, e2]) == Step(Step(s, e1), e2)
  {
    assert [e1, e2][1..] == [e2];
    OneStep(Step(s, e1), e2);
  }

  lemma ThreeSteps(s: Store, e1: Event, e2: Event, e3: Event)
    ensures Run(s, [e1, e2, e3]) == Step(Step(Step(s, e1), e2), e3)
  {
    assert [e1, e2, e3][1..] == [e2, e3];
    TwoSteps(Step(s, e1), e2, e3);
  }
}
