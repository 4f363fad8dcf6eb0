/** The counters against the rows: over runs in which the broker never retries on its own and no
    pause lands while a job runs, the counters are an exact index of the job rows. */
module RuntimeAgreement {
  import opened Options
  import opened ImportContext
  import opened RuntimeStore
  import opened RuntimeBulk
  import opened RuntimeIdentity
  import opened RuntimeDeliveries
  import opened Counting
  import ImportControl
  import JobKeys

  const QUEUED := {Queued, Recovering}
  const RUNNING := {Running}
  const PAUSED := {Paused}
  const COMPLETED := {Completed}
  const FAILED := {Failed, TerminalErrorSkipped}
  const ALL := {Queued, Running, Paused, Recovering, Completed, Failed, Stale, TerminalErrorSkipped, Cancelled, Deleted}

  function InState(key: CounterKey, states: set<JobState>): Row -> bool {
    (row: Row) => HomeOf(row) == key && row.state in states
  }

  ghost function RowsIn(rows: map<RowKey, Row>, key: CounterKey, states: set<JobState>): nat {
    Count(rows, InState(key, states))
  }

  ghost predicate AgreesAt(rows: map<RowKey, Row>, c: Counters, key: CounterKey) {
    && c.total == RowsIn(rows, key, ALL)
    && c.queued == RowsIn(rows, key, QUEUED)
    && c.running == RowsIn(rows, key, RUNNING)
    && c.completed == RowsIn(rows, key, COMPLETED)
    && c.failed == RowsIn(rows, key, FAILED)
    && c.paused <= RowsIn(rows, key, PAUSED)
  }

  ghost predicate AgreeTables(rows: map<RowKey, Row>, counters: map<CounterKey, Counters>) {
    forall key | key in counters :: AgreesAt(rows, counters[key], key)
  }

  /** The counters index the rows: every class exactly, the paused rows from below. */
  ghost predicate Agrees(s: Store) {
    AgreeTables(s.rows, s.counters)
  }

  ghost predicate PausedTables(rows: map<RowKey, Row>, counters: map<CounterKey, Counters>) {
    forall key | key in counters :: counters[key].paused == RowsIn(rows, key, PAUSED)
  }

  ghost predicate PausedExact(s: Store) {
    PausedTables(s.rows, s.counters)
  }

  // ---------------------------------------------------------------- deliveries and rows

  predicate Matches(rows: map<RowKey, Row>, d: Delivery, states: set<JobState>) {
    d.payload.execution.Some? ==>
      var id := RowKeyOf(d.payload.execution.value);
      id in rows && rows[id].resumePayload.execution == d.payload.execution && rows[id].state in states
  }

  predicate Distinct(a: Delivery, b: Delivery) {
    a.payload.execution.Some? && b.payload.execution.Some? ==>
      RowKeyOf(a.payload.execution.value) != RowKeyOf(b.payload.execution.value)
  }

  ghost predicate Queue(rows: map<RowKey, Row>, queue: map<nat, Delivery>, states: set<JobState>) {
    && (forall n | n in queue :: Matches(rows, queue[n], states))
    && (forall n, m | n in queue && m in queue && n != m :: Distinct(queue[n], queue[m]))
  }

  ghost predicate Queues(s: Store) {
    Queue(s.rows, s.pending, QUEUED) && Queue(s.rows, s.inFlight, RUNNING)
  }

  /** Every row is counted somewhere. */
  ghost predicate Counted(rows: map<RowKey, Row>, counters: set<CounterKey>) {
    forall id | id in rows :: HomeOf(rows[id]) in counters
  }

  ghost predicate RowsSettled(rows: map<RowKey, Row>) {
    forall id | id in rows :: AtHome(rows[id]) && rows[id].state != Stale
  }

  /** Every waiting delivery is the only one for a queued row, every held one for a running row. */
  ghost predicate Linked(s: Store) {
    RowsSettled(s.rows) && Counted(s.rows, s.counters.Keys) && Queues(s)
  }

  predicate Tracked(queue: map<nat, Delivery>, n: nat) {
    n in queue && queue[n].payload.execution.Some?
  }

  /** The bulk calls whose one charge is the change of the rows they insert. */
  ghost predicate PlanIndexes(rows: map<RowKey, Row>, plan: BulkPlan) {
    plan.Accepted? ==> SameHome(plan.entries, plan.home) && FreshKeys(rows, plan.entries)
  }

  /** The steps whose charge is the change of the rows they write: no key enqueued twice, no bulk call
      beyond one session and worker, no pause seen by a running job, and no paused row written off
      because its recovery budget is spent. */
  ghost predicate Indexes(s: Store, e: Event) {
    match e
    case Enqueue(args, session) =>
      CreateContext(args, session).Some? ==> RowKeyOf(CreateContext(args, session).value) !in s.rows
    case Bulk(bulk, first, sessions) =>
      Enabled(s, e) ==> PlanIndexes(s.rows, PlanBulk(s.control, bulk, first, sessions))
    case Progress(n, patch) =>
      Tracked(s.inFlight, n) ==> !ProgressPaused(s.control, s.inFlight[n].payload.execution.value, patch)
    case Requeue(id, recover) => id in s.rows ==> !(s.rows[id].state == Paused && OverBudget(s.rows[id], recover))
    case _ => true
  }

  /** The broker puts a tracked delivery back that a worker held. */
  predicate Resends(s: Store, e: Event) {
    match e
    case Fail(n, _, _, retry) => retry && Tracked(s.inFlight, n)
    case Redeliver(n) => Tracked(s.inFlight, n)
    case _ => false
  }

  ghost predicate Calm(s: Store, e: Event) {
    Proper(s, e) && Indexes(s, e) && !Resends(s, e)
  }

  ghost predicate CalmRun(s: Store, events: seq<Event>)
    decreases |events|
  {
    events == [] || (Calm(s, events[0]) && CalmRun(Step(s, events[0]), events[1..]))
  }

  // ---------------------------------------------------------------- one row changes

  function Weight(state: Option<JobState>, states: set<JobState>): int {
    if state.Some? && state.value in states then 1 else 0
  }

  function StateAt(rows: map<RowKey, Row>, id: RowKey): Option<JobState> {
    if id in rows then Some(rows[id].state) else None
  }

  /** A charge that moves the counters as the row moved between the classes; the paused counter
      may be charged less. */
  predicate FitsMove(before: Option<JobState>, after: Option<JobState>, d: Delta) {
    && d.total == Weight(after, ALL) - Weight(before, ALL)
    && d.queued == Weight(after, QUEUED) - Weight(before, QUEUED)
    && d.running == Weight(after, RUNNING) - Weight(before, RUNNING)
    && d.completed == Weight(after, COMPLETED) - Weight(before, COMPLETED)
    && d.failed == Weight(after, FAILED) - Weight(before, FAILED)
    && d.paused <= Weight(after, PAUSED) - Weight(before, PAUSED)
  }

  lemma MoveRow(rows: map<RowKey, Row>, id: RowKey, row: Row, key: CounterKey, states: set<JobState>)
    requires id in rows ==> HomeOf(rows[id]) == HomeOf(row)
    ensures RowsIn(rows[id := row], key, states)
         == RowsIn(rows, key, states)
          + (if HomeOf(row) == key then Weight(Some(row.state), states) - Weight(StateAt(rows, id), states) else 0)
  {
    CountPut(rows, InState(key, states), id, row);
  }

  lemma MoveKeepsAgreement(rows: map<RowKey, Row>, id: RowKey, row: Row, c: Counters, d: Delta, key: CounterKey)
    requires AgreesAt(rows, c, key)
    requires id in rows ==> HomeOf(rows[id]) == HomeOf(row)
    requires HomeOf(row) == key ==> FitsMove(StateAt(rows, id), Some(row.state), d)
    ensures AgreesAt(rows[id := row], if HomeOf(row) == key then Bump(c, d) else c, key)
  {
    MoveRow(rows, id, row, key, ALL);
    MoveRow(rows, id, row, key, QUEUED);
    MoveRow(rows, id, row, key, RUNNING);
    MoveRow(rows, id, row, key, PAUSED);
    MoveRow(rows, id, row, key, COMPLETED);
    MoveRow(rows, id, row, key, FAILED);
  }

  datatype Move = Still | Move(id: RowKey, row: Row)

  function WriteMove(rows: map<RowKey, Row>, w: Write): Move {
    Move(RowKeyOf(w.context), UpsertedRow(rows, w))
  }

  function HeldMove(s: Store, e: Event, d: Delivery, context: Context): Move {
    match e
    case Progress(_, patch) => WriteMove(s.rows, ProgressWrite(s.control, d, context, patch))
    case Complete(_, checkpoint) => WriteMove(s.rows, CloseWrite(d, context, Completed, checkpoint, None))
    case Fail(_, message, progress, _) => WriteMove(s.rows, FailWrite(d, context, message, progress))
    case _ => Still
  }

  function RequeueMove(s: Store, id: RowKey, recover: bool, jobId: string): Move
    requires id in s.rows
  {
    var row := s.rows[id];
    if !row.resumePayload.NonEmpty() then Still
    else if OverBudget(row, recover) then Move(id, row.(state := TerminalErrorSkipped))
    else Move(id, RequeuedRow(row, recover, jobId))
  }

  /** The one job row a step writes; a bulk call is taken entry by entry instead. */
  function MoveOf(s: Store, e: Event): Move {
    if !Enabled(s, e) then Still else
    match e
    case Enqueue(args, session) =>
      (match CreateContext(args, session)
       case None => Still
       case Some(context) =>
         WriteMove(s.rows, EnqueueWrite(args, context, Halted(s.control, context), EnqueueJobId(args.opts, context))))
    case Bulk(_, _, _) => Still
    case Begin(n, _) =>
      (match s.pending[n].payload.execution
       case None => Still
       case Some(context) => WriteMove(s.rows, BeginWrite(s.pending[n], context, Halted(s.control, context))))
    case Requeue(id, recover) => RequeueMove(s, id, recover, JobKeys.ResumeJobId(id.key, s.rows[id].attemptsUsed + 1))
    case Redeliver(_) => Still
    case Api(_, _) => Still
    case _ =>
      (match s.inFlight[e.delivery].payload.execution
       case None => Still
       case Some(context) => HeldMove(s, e, s.inFlight[e.delivery], context))
  }

  function Moved(rows: map<RowKey, Row>, move: Move): map<RowKey, Row> {
    if move.Still? then rows else rows[move.id := move.row]
  }

  lemma EnqueueMoves(s: Store, args: EnqueueArgs, context: Context, jobId: string, paused: bool)
    ensures EnqueueAs(s, args, context, jobId, paused).rows
         == Moved(s.rows, WriteMove(s.rows, EnqueueWrite(args, context, paused, jobId)))
  {
  }

  lemma RequeueMoves(s: Store, id: RowKey, recover: bool, jobId: string)
    requires id in s.rows
    ensures RequeueAs(s, id, recover, jobId).rows == Moved(s.rows, RequeueMove(s, id, recover, jobId))
  {
  }

  lemma BeginMoves(s: Store, n: nat, session: string)
    requires Sound(s) && n in s.pending
    ensures BeginDelivery(s, n, session).rows == Moved(s.rows, MoveOf(s, Begin(n, session)))
  {
    BeginContextOfSound(s, n, session);
  }

  lemma HeldMoves(s: Store, e: Event)
    requires Enabled(s, e) && (e.Progress? || e.Complete? || e.Fail?)
    ensures Step(s, e).rows == Moved(s.rows, MoveOf(s, e))
  {
    match e
    case Progress(n, patch) =>
      assert MoveOf(s, e) == (match s.inFlight[n].payload.execution
                              case None => Still
                              case Some(context) => HeldMove(s, e, s.inFlight[n], context));
    case Complete(n, checkpoint) =>
    case Fail(n, message, progress, retry) =>
  }

  lemma EnqueueEventMoves(s: Store, args: EnqueueArgs, session: string)
    ensures Step(s, Enqueue(args, session)).rows == Moved(s.rows, MoveOf(s, Enqueue(args, session)))
  {
    var derived := CreateContext(args, session);
    if derived.Some? {
      var context, jobId := derived.value, EnqueueJobId(args.opts, derived.value);
      var next := EnqueueAs(s, args, context, jobId, Halted(s.control, context));
      assert Step(s, Enqueue(args, session)) == next;
      EnqueueMoves(s, args, context, jobId, Halted(s.control, context));
    }
  }

  lemma RequeueEventMoves(s: Store, id: RowKey, recover: bool)
    requires Enabled(s, Requeue(id, recover))
    ensures Step(s, Requeue(id, recover)).rows == Moved(s.rows, MoveOf(s, Requeue(id, recover)))
  {
    var jobId := JobKeys.ResumeJobId(id.key, s.rows[id].attemptsUsed + 1);
    var next := RequeueAs(s, id, recover, jobId);
    assert Step(s, Requeue(id, recover)) == next;
    RequeueMoves(s, id, recover, jobId);
  }

  /** Every step but a bulk call writes exactly its one row. */
  lemma StepMoves(s: Store, e: Event)
    requires Sound(s) && !e.Bulk?
    ensures Step(s, e).rows == Moved(s.rows, MoveOf(s, e))
  {
    if Enabled(s, e) {
      match e
      case Enqueue(args, session) => EnqueueEventMoves(s, args, session);
      case Begin(n, session) => BeginMoves(s, n, session);
      case Progress(_, _) => HeldMoves(s, e);
      case Complete(_, _) => HeldMoves(s, e);
      case Fail(_, _, _, _) => HeldMoves(s, e);
      case Redeliver(_) =>
      case Requeue(id, recover) => RequeueEventMoves(s, id, recover);
      case Api(_, _) =>
    }
  }

  // ---------------------------------------------------------------- charges fit moves

  const NO_DELTA := Delta(0, 0, 0, 0, 0, 0)

  function ChargedDelta(charge: Charge): Delta {
    if charge.Charge? then charge.delta else NO_DELTA
  }

  predicate Fits(rows: map<RowKey, Row>, move: Move, charge: Charge) {
    if move.Still? then charge.NoCharge? else
      && (move.id in rows ==> HomeOf(rows[move.id]) == HomeOf(move.row))
      && AtHome(move.row) && move.row.state != Stale
      && (charge.Charge? ==> charge.key == HomeOf(move.row))
      && FitsMove(StateAt(rows, move.id), Some(move.row.state), ChargedDelta(charge))
  }

  /** An upsert by a delivery of its own row, from the state class its queue stands for. */
  lemma WriteFits(rows: map<RowKey, Row>, w: Write, charge: Charge)
    requires w.resumePayload.execution == Some(w.context) && w.state != Stale
    requires RowKeyOf(w.context) in rows ==>
      AtHome(rows[RowKeyOf(w.context)]) && rows[RowKeyOf(w.context)].resumePayload.execution == Some(w.context)
    requires charge.Charge? ==> charge.key == CounterKeyOf(w.context)
    requires FitsMove(StateAt(rows, RowKeyOf(w.context)), Some(w.state), ChargedDelta(charge))
    ensures Fits(rows, WriteMove(rows, w), charge)
  {
  }

  lemma ProgressFits(s: Store, n: nat, patch: Patch)
    requires Linked(s) && n in s.inFlight && Proper(s, Progress(n, patch)) && Indexes(s, Progress(n, patch))
    ensures Fits(s.rows, MoveOf(s, Progress(n, patch)), ChargeOf(s, Progress(n, patch)))
  {
    var d := s.inFlight[n];
    assert Matches(s.rows, d, RUNNING);
    if d.payload.execution.Some? {
      WriteFits(s.rows, ProgressWrite(s.control, d, d.payload.execution.value, patch), NoCharge);
    }
  }

  /** Closing takes a row from running to completed or failed; a completion takes off a paused job besides. */
  lemma ClosingFits()
    ensures FitsMove(Some(Running), Some(Completed), Delta(0, 0, -1, -1, 1, 0))
    ensures FitsMove(Some(Running), Some(Failed), Delta(0, 0, -1, 0, 0, 1))
  {
  }

  lemma HeldWriteFits(s: Store, n: nat, w: Write, d: Delta)
    requires Linked(s) && n in s.inFlight && s.inFlight[n].payload.execution == Some(w.context)
    requires w.resumePayload.execution == Some(w.context) && w.state != Stale
    requires FitsMove(Some(Running), Some(w.state), d)
    ensures Fits(s.rows, WriteMove(s.rows, w), Charge(CounterKeyOf(w.context), d))
  {
    assert Matches(s.rows, s.inFlight[n], RUNNING);
    WriteFits(s.rows, w, Charge(CounterKeyOf(w.context), d));
  }

  lemma CompleteFits(s: Store, n: nat, checkpoint: Payload)
    requires Linked(s) && n in s.inFlight
    ensures Fits(s.rows, MoveOf(s, Complete(n, checkpoint)), ChargeOf(s, Complete(n, checkpoint)))
  {
    var d := s.inFlight[n];
    ClosingFits();
    if d.payload.execution.Some? {
      HeldWriteFits(s, n, CloseWrite(d, d.payload.execution.value, Completed, checkpoint, None),
                    Delta(0, 0, -1, -1, 1, 0));
    }
  }

  lemma FailFits(s: Store, n: nat, message: string, progress: Payload, retry: bool)
    requires Linked(s) && n in s.inFlight
    ensures Fits(s.rows, MoveOf(s, Fail(n, message, progress, retry)), ChargeOf(s, Fail(n, message, progress, retry)))
  {
    var d := s.inFlight[n];
    ClosingFits();
    if d.payload.execution.Some? {
      HeldWriteFits(s, n, FailWrite(d, d.payload.execution.value, message, progress), Delta(0, 0, -1, 0, 0, 1));
    }
  }

  lemma BeginFits(s: Store, n: nat, session: string)
    requires Linked(s) && n in s.pending
    ensures Fits(s.rows, MoveOf(s, Begin(n, session)), ChargeOf(s, Begin(n, session)))
  {
    var d := s.pending[n];
    assert Matches(s.rows, d, QUEUED);
    if d.payload.execution.Some? {
      var context := d.payload.execution.value;
      BeginWriteFits(s.rows, d, context, Halted(s.control, context));
    }
  }

  lemma BeginWriteFits(rows: map<RowKey, Row>, d: Delivery, context: Context, paused: bool)
    requires RowsSettled(rows) && Matches(rows, d, QUEUED) && d.payload.execution == Some(context)
    ensures Fits(rows, WriteMove(rows, BeginWrite(d, context, paused)),
                 Charge(CounterKeyOf(context), BeginDelta(paused)))
  {
    WriteFits(rows, BeginWrite(d, context, paused), Charge(CounterKeyOf(context), BeginDelta(paused)));
  }

  lemma EnqueueFits(rows: map<RowKey, Row>, args: EnqueueArgs, context: Context, jobId: string, paused: bool)
    requires RowKeyOf(context) !in rows
    ensures Fits(rows, WriteMove(rows, EnqueueWrite(args, context, paused, jobId)),
                 Charge(CounterKeyOf(context), EnqueueDelta(paused)))
  {
    WriteFits(rows, EnqueueWrite(args, context, paused, jobId), Charge(CounterKeyOf(context), EnqueueDelta(paused)));
  }

  lemma RequeueAsFits(s: Store, id: RowKey, recover: bool, jobId: string)
    requires id in s.rows && CarriesOwnKey(id, s.rows[id]) && AtHome(s.rows[id])
    requires s.rows[id].state in {Paused, Failed} && !(s.rows[id].state == Paused && OverBudget(s.rows[id], recover))
    ensures Fits(s.rows, RequeueMove(s, id, recover, jobId), RequeueCharge(s.rows[id], recover))
  {
  }

  lemma RequeueFits(s: Store, id: RowKey, recover: bool)
    requires Sound(s) && Linked(s) && Enabled(s, Requeue(id, recover)) && Indexes(s, Requeue(id, recover))
    ensures Fits(s.rows, MoveOf(s, Requeue(id, recover)), ChargeOf(s, Requeue(id, recover)))
  {
    assert CarriesOwnKey(id, s.rows[id]);
    assert AtHome(s.rows[id]) && s.rows[id].state != Stale;
    RequeueAsFits(s, id, recover, JobKeys.ResumeJobId(id.key, s.rows[id].attemptsUsed + 1));
  }

  lemma EnqueueEventFits(s: Store, args: EnqueueArgs, session: string)
    requires Indexes(s, Enqueue(args, session))
    ensures Fits(s.rows, MoveOf(s, Enqueue(args, session)), ChargeOf(s, Enqueue(args, session)))
  {
    var derived := CreateContext(args, session);
    if derived.Some? {
      var context := derived.value;
      EnqueueFits(s.rows, args, context, EnqueueJobId(args.opts, context), Halted(s.control, context));
    }
  }

  /** The charge of a step on one row fits the move of that row. */
  lemma StepFits(s: Store, e: Event)
    requires Sound(s) && Linked(s) && Proper(s, e) && Indexes(s, e) && !e.Bulk?
    ensures Fits(s.rows, MoveOf(s, e), ChargeOf(s, e))
  {
    if Enabled(s, e) {
      match e
      case Enqueue(args, session) => EnqueueEventFits(s, args, session);
      case Begin(n, session) => BeginFits(s, n, session);
      case Progress(n, patch) => ProgressFits(s, n, patch);
      case Complete(n, checkpoint) => CompleteFits(s, n, checkpoint);
      case Fail(n, message, progress, retry) => FailFits(s, n, message, progress, retry);
      case Redeliver(_) =>
      case Requeue(id, recover) => RequeueFits(s, id, recover);
      case Api(_, _) =>
    }
  }

  lemma NoRowsAt(rows: map<RowKey, Row>, counters: set<CounterKey>, key: CounterKey, states: set<JobState>)
    requires Counted(rows, counters) && key !in counters
    ensures RowsIn(rows, key, states) == 0
  {
    CountNone(rows, InState(key, states));
  }

  /** Rows of a counter row not yet created: none. */
  lemma NoRowsUncounted(rows: map<RowKey, Row>, counters: set<CounterKey>, key: CounterKey)
    requires Counted(rows, counters) && key !in counters
    ensures AgreesAt(rows, ZERO, key)
  {
    NoRowsAt(rows, counters, key, ALL);
    NoRowsAt(rows, counters, key, QUEUED);
    NoRowsAt(rows, counters, key, RUNNING);
    NoRowsAt(rows, counters, key, COMPLETED);
    NoRowsAt(rows, counters, key, FAILED);
  }

  lemma FitsKeepsAgreementAt(
    rows: map<RowKey, Row>, counters: map<CounterKey, Counters>, move: Move, charge: Charge, key: CounterKey)
    requires AgreesAt(rows, Before(counters, key), key) && Fits(rows, move, charge)
    requires key in Charged(counters, charge)
    ensures AgreesAt(Moved(rows, move), Charged(counters, charge)[key], key)
  {
    ChargedAt(counters, charge, key);
    if move.Move? {
      MoveKeepsAgreement(rows, move.id, move.row, Before(counters, key), ChargedDelta(charge), key);
    }
  }

  lemma FitsKeepsAgreement(rows: map<RowKey, Row>, counters: map<CounterKey, Counters>, move: Move, charge: Charge)
    requires Counted(rows, counters.Keys)
    requires AgreeTables(rows, counters) && Fits(rows, move, charge)
    ensures AgreeTables(Moved(rows, move), Charged(counters, charge))
  {
    forall key | key in Charged(counters, charge)
      ensures AgreesAt(Moved(rows, move), Charged(counters, charge)[key], key)
    {
      if key !in counters {
        NoRowsUncounted(rows, counters.Keys, key);
      }
      assert AgreesAt(rows, Before(counters, key), key);
      FitsKeepsAgreementAt(rows, counters, move, charge, key);
    }
  }

  // ---------------------------------------------------------------- links survive calm steps

  /** Rewriting a row that no delivery in the queue belongs to. */
  lemma OtherRowsKeepQueue(rows: map<RowKey, Row>, queue: map<nat, Delivery>, states: set<JobState>,
                           id: RowKey, row: Row)
    requires Queue(rows, queue, states)
    requires forall n | n in queue && queue[n].payload.execution.Some? ::
        RowKeyOf(queue[n].payload.execution.value) != id
    ensures Queue(rows[id := row], queue, states)
  {
  }

  lemma AddToQueue(rows: map<RowKey, Row>, queue: map<nat, Delivery>, states: set<JobState>, n: nat, d: Delivery)
    requires Queue(rows, queue, states) && Matches(rows, d, states)
    requires forall m | m in queue :: Distinct(queue[m], d)
    ensures Queue(rows, queue[n := d], states)
  {
  }

  /** Taking a delivery out frees its row for rewriting. */
  lemma TakeFromQueue(rows: map<RowKey, Row>, queue: map<nat, Delivery>, states: set<JobState>, n: nat)
    requires Queue(rows, queue, states) && n in queue
    ensures Queue(rows, queue - {n}, states)
    ensures queue[n].payload.execution.Some? ==>
      forall m | m in queue - {n} && queue[m].payload.execution.Some? ::
        RowKeyOf(queue[m].payload.execution.value) != RowKeyOf(queue[n].payload.execution.value)
  {
    forall m | m in queue - {n} ensures Distinct(queue[m], queue[n]) {
    }
  }

  /** A row outside a class has no delivery in that class's queue. */
  lemma NotInQueue(rows: map<RowKey, Row>, queue: map<nat, Delivery>, states: set<JobState>, id: RowKey)
    requires Queue(rows, queue, states) && (id in rows ==> rows[id].state !in states)
    ensures forall n | n in queue && queue[n].payload.execution.Some? ::
        RowKeyOf(queue[n].payload.execution.value) != id
  {
    forall n | n in queue && queue[n].payload.execution.Some? ensures RowKeyOf(queue[n].payload.execution.value) != id {
      assert Matches(rows, queue[n], states);
    }
  }

  /** A fitting move leaves every row settled, and counted after the charge: a row that is not charged
      was there before. */
  lemma FitsKeepsRows(rows: map<RowKey, Row>, counters: map<CounterKey, Counters>, move: Move, charge: Charge)
    requires RowsSettled(rows) && Counted(rows, counters.Keys) && Fits(rows, move, charge)
    ensures RowsSettled(Moved(rows, move)) && Counted(Moved(rows, move), Charged(counters, charge).Keys)
  {
    assert counters.Keys <= Charged(counters, charge).Keys;
    if move.Move? && charge.NoCharge? {
      assert Weight(Some(move.row.state), ALL) == 1;
      assert move.id in rows;
    }
  }

  lemma EnqueueKeepsLinks(s: Store, args: EnqueueArgs, context: Context, jobId: string, paused: bool)
    requires Queues(s) && RowKeyOf(context) !in s.rows
    ensures Queues(EnqueueAs(s, args, context, jobId, paused))
  {
    var id := RowKeyOf(context);
    var row := UpsertedRow(s.rows, EnqueueWrite(args, context, paused, jobId));
    NotInQueue(s.rows, s.pending, QUEUED, id);
    NotInQueue(s.rows, s.inFlight, RUNNING, id);
    OtherRowsKeepQueue(s.rows, s.pending, QUEUED, id, row);
    OtherRowsKeepQueue(s.rows, s.inFlight, RUNNING, id, row);
    if !paused {
      AddToQueue(s.rows[id := row], s.pending, QUEUED, s.nextDelivery, EnqueueDelivery(args, context, jobId));
    }
  }

  lemma BeginKeepsLinks(s: Store, n: nat, session: string)
    requires Sound(s) && Linked(s) && n in s.pending
    ensures Queues(BeginDelivery(s, n, session))
  {
    var d := s.pending[n];
    BeginIsBegunAs(s, n, session);
    TakeFromQueue(s.rows, s.pending, QUEUED, n);
    assert Matches(s.rows, d, QUEUED);
    if d.payload.execution.Some? {
      var context := d.payload.execution.value;
      var id := RowKeyOf(context);
      var row := UpsertedRow(s.rows, BeginWrite(d, context, Halted(s.control, context)));
      NotInQueue(s.rows, s.inFlight, RUNNING, id);
      OtherRowsKeepQueue(s.rows, s.pending - {n}, QUEUED, id, row);
      OtherRowsKeepQueue(s.rows, s.inFlight, RUNNING, id, row);
      AddIfRunning(s.rows[id := row], s.inFlight, n, d);
    } else {
      AddToQueue(s.rows, s.inFlight, RUNNING, n, d);
    }
  }

  lemma AddIfRunning(rows: map<RowKey, Row>, queue: map<nat, Delivery>, n: nat, d: Delivery)
    requires Queue(rows, queue, RUNNING) && d.payload.execution.Some?
    requires var id := RowKeyOf(d.payload.execution.value);
             && id in rows && rows[id].resumePayload.execution == d.payload.execution
             && forall m | m in queue && queue[m].payload.execution.Some? ::
                  RowKeyOf(queue[m].payload.execution.value) != id
    ensures rows[RowKeyOf(d.payload.execution.value)].state == Running ==> Queue(rows, queue[n := d], RUNNING)
  {
    if rows[RowKeyOf(d.payload.execution.value)].state == Running {
      AddToQueue(rows, queue, RUNNING, n, d);
    }
  }

  /** A held delivery's row is rewritten: the other deliveries do not notice, nor does it while the
      row keeps running. */
  lemma HeldWriteKeepsLinks(s: Store, n: nat, w: Write)
    requires Linked(s) && n in s.inFlight && s.inFlight[n].payload.execution == Some(w.context)
    requires w.resumePayload.execution == Some(w.context)
    ensures Queue(Upsert(s.rows, w), s.pending, QUEUED)
    ensures Queue(Upsert(s.rows, w), s.inFlight - {n}, RUNNING)
    ensures w.state == Running ==> Queue(Upsert(s.rows, w), s.inFlight, RUNNING)
  {
    var id := RowKeyOf(w.context);
    var row := UpsertedRow(s.rows, w);
    assert Matches(s.rows, s.inFlight[n], RUNNING);
    TakeFromQueue(s.rows, s.inFlight, RUNNING, n);
    NotInQueue(s.rows, s.pending, QUEUED, id);
    OtherRowsKeepQueue(s.rows, s.pending, QUEUED, id, row);
    OtherRowsKeepQueue(s.rows, s.inFlight - {n}, RUNNING, id, row);
    if w.state == Running {
      AddToQueue(s.rows[id := row], s.inFlight - {n}, RUNNING, n, s.inFlight[n]);
      assert (s.inFlight - {n})[n := s.inFlight[n]] == s.inFlight;
    }
  }

  lemma ProgressKeepsLinks(s: Store, n: nat, patch: Patch)
    requires Linked(s) && n in s.inFlight && Calm(s, Progress(n, patch))
    ensures Queues(Step(s, Progress(n, patch)))
  {
    var d := s.inFlight[n];
    if d.payload.execution.Some? {
      HeldWriteKeepsLinks(s, n, ProgressWrite(s.control, d, d.payload.execution.value, patch));
    }
  }

  lemma CompleteKeepsLinks(s: Store, n: nat, checkpoint: Payload)
    requires Linked(s) && n in s.inFlight
    ensures Queues(Step(s, Complete(n, checkpoint)))
  {
    var d := s.inFlight[n];
    TakeFromQueue(s.rows, s.inFlight, RUNNING, n);
    if d.payload.execution.Some? {
      HeldWriteKeepsLinks(s, n, CloseWrite(d, d.payload.execution.value, Completed, checkpoint, None));
    }
  }

  lemma FailKeepsLinks(s: Store, e: Event)
    requires Linked(s) && e.Fail? && e.delivery in s.inFlight && !Resends(s, e)
    ensures Queues(Step(s, e))
  {
    var n, d := e.delivery, s.inFlight[e.delivery];
    TakeFromQueue(s.rows, s.inFlight, RUNNING, n);
    if d.payload.execution.Some? {
      HeldWriteKeepsLinks(s, n, FailWrite(d, d.payload.execution.value, e.message, e.progress));
    } else if e.retry {
      AddToQueue(s.rows, s.pending, QUEUED, s.nextDelivery, d);
    }
  }

  lemma RequeueKeepsLinks(s: Store, id: RowKey, recover: bool, jobId: string)
    requires Sound(s) && Linked(s) && Enabled(s, Requeue(id, recover))
    ensures Queues(RequeueAs(s, id, recover, jobId))
  {
    var row := s.rows[id];
    assert CarriesOwnKey(id, row);
    NotInQueue(s.rows, s.pending, QUEUED, id);
    NotInQueue(s.rows, s.inFlight, RUNNING, id);
    var next := if OverBudget(row, recover)
      then row.(state := TerminalErrorSkipped) else RequeuedRow(row, recover, jobId);
    OtherRowsKeepQueue(s.rows, s.pending, QUEUED, id, next);
    OtherRowsKeepQueue(s.rows, s.inFlight, RUNNING, id, next);
    if !OverBudget(row, recover) {
      AddToQueue(s.rows[id := next], s.pending, QUEUED, s.nextDelivery, ResumeDelivery(row, jobId));
    }
  }

  lemma EnqueueEventKeepsLinks(s: Store, args: EnqueueArgs, session: string)
    requires Linked(s) && Calm(s, Enqueue(args, session))
    ensures Queues(Step(s, Enqueue(args, session)))
  {
    var derived := CreateContext(args, session);
    if derived.Some? {
      var context, jobId := derived.value, EnqueueJobId(args.opts, derived.value);
      var next := EnqueueAs(s, args, context, jobId, Halted(s.control, context));
      assert Step(s, Enqueue(args, session)) == next;
      EnqueueKeepsLinks(s, args, context, jobId, Halted(s.control, context));
    } else {
      AddToQueue(s.rows, s.pending, QUEUED, s.nextDelivery, UntrackedDelivery(args));
    }
  }

  lemma HeldStepKeepsLinks(s: Store, e: Event)
    requires Linked(s) && Calm(s, e) && Enabled(s, e) && (e.Progress? || e.Complete? || e.Fail?)
    ensures Queues(Step(s, e))
  {
    match e
    case Progress(n, patch) => ProgressKeepsLinks(s, n, patch);
    case Complete(n, checkpoint) => CompleteKeepsLinks(s, n, checkpoint);
    case Fail(_, _, _, _) => FailKeepsLinks(s, e);
  }

  lemma BeginEventKeepsLinks(s: Store, n: nat, session: string)
    requires Sound(s) && Linked(s) && n in s.pending
    ensures Queues(Step(s, Begin(n, session)))
  {
    BeginKeepsLinks(s, n, session);
  }

  lemma RequeueEventKeepsLinks(s: Store, id: RowKey, recover: bool)
    requires Sound(s) && Linked(s) && Enabled(s, Requeue(id, recover))
    ensures Queues(Step(s, Requeue(id, recover)))
  {
    var jobId := JobKeys.ResumeJobId(id.key, s.rows[id].attemptsUsed + 1);
    var next := RequeueAs(s, id, recover, jobId);
    assert Step(s, Requeue(id, recover)) == next;
    RequeueKeepsLinks(s, id, recover, jobId);
  }

  lemma CalmStepKeepsQueues(s: Store, e: Event)
    requires Sound(s) && Linked(s) && Calm(s, e) && !e.Bulk?
    ensures Queues(Step(s, e))
  {
    if Enabled(s, e) {
      match e
      case Enqueue(args, session) => EnqueueEventKeepsLinks(s, args, session);
      case Begin(n, session) => BeginEventKeepsLinks(s, n, session);
      case Progress(_, _) => HeldStepKeepsLinks(s, e);
      case Complete(_, _) => HeldStepKeepsLinks(s, e);
      case Fail(_, _, _, _) => HeldStepKeepsLinks(s, e);
      case Redeliver(n) => AddToQueue(s.rows, s.pending, QUEUED, s.nextDelivery, s.inFlight[n]);
      case Requeue(id, recover) => RequeueEventKeepsLinks(s, id, recover);
      case Api(_, _) =>
    }
  }

  /** A step whose charge fits its move keeps the counters an index, and every row settled and counted. */
  lemma FittingStepKeepsIndex(s: Store, e: Event, t: Store)
    requires Sound(s) && Linked(s) && Proper(s, e) && Indexes(s, e) && !e.Bulk? && t == Step(s, e)
    ensures RowsSettled(t.rows) && Counted(t.rows, t.counters.Keys) && (Agrees(s) ==> Agrees(t))
  {
    StepFits(s, e);
    StepMoves(s, e);
    StepCharges(s, e);
    FitsKeepsRows(s.rows, s.counters, MoveOf(s, e), ChargeOf(s, e));
    if Agrees(s) {
      FitsKeepsAgreement(s.rows, s.counters, MoveOf(s, e), ChargeOf(s, e));
    }
  }

  /** A calm step other than a bulk call keeps rows and deliveries linked and the counters an index. */
  lemma CalmSingleKeepsIndex(s: Store, e: Event)
    requires Sound(s) && Linked(s) && Calm(s, e) && !e.Bulk?
    ensures Linked(Step(s, e)) && (Agrees(s) ==> Agrees(Step(s, e)))
  {
    FittingStepKeepsIndex(s, e, Step(s, e));
    CalmStepKeepsQueues(s, e);
  }

  // ---------------------------------------------------------------- bulk calls

  /** One entry of a bulk call under a new key, enqueued as the call's flags say. */
  lemma EntryKeepsIndex(s: Store, e: Entry, paused: bool)
    requires Linked(s) && RowKeyOf(e.context) !in s.rows
    ensures Linked(EnqueueEntryAs(s, e, paused)) && (Agrees(s) ==> Agrees(EnqueueEntryAs(s, e, paused)))
  {
    var jobId := EnqueueJobId(e.args.opts, e.context);
    var move := WriteMove(s.rows, EnqueueWrite(e.args, e.context, paused, jobId));
    var charge := Charge(CounterKeyOf(e.context), EnqueueDelta(paused));
    EnqueueFits(s.rows, e.args, e.context, jobId, paused);
    EnqueueMoves(s, e.args, e.context, jobId, paused);
    EnqueueCharges(s, e.args, e.context, jobId, paused);
    FitsKeepsRows(s.rows, s.counters, move, charge);
    EnqueueKeepsLinks(s, e.args, e.context, jobId, paused);
    if Agrees(s) {
      FitsKeepsAgreement(s.rows, s.counters, move, charge);
    }
  }

  lemma {:induction false} EntriesKeepIndex(s: Store, entries: seq<Entry>, paused: bool)
    requires Linked(s) && FreshKeys(s.rows, entries)
    ensures Linked(OneByOneAs(s, entries, paused)) && (Agrees(s) ==> Agrees(OneByOneAs(s, entries, paused)))
    decreases |entries|
  {
    if entries != [] {
      var e := entries[0];
      assert e in entries;
      EntryKeepsIndex(s, e, paused);
      TailKeepsFresh(s.rows, entries,
        UpsertedRow(s.rows, EnqueueWrite(e.args, e.context, paused, EnqueueJobId(e.args.opts, e.context))));
      EntriesKeepIndex(EnqueueEntryAs(s, e, paused), entries[1..], paused);
    }
  }

  /** A counter row opened at zero agrees: no row was counted there. */
  lemma OpenedKeepsIndex(s: Store, home: CounterKey)
    requires Linked(s)
    ensures var t := s.(counters := EnsureCounters(s.counters, home));
            Linked(t) && (Agrees(s) ==> Agrees(t))
  {
    if home !in s.counters {
      NoRowsUncounted(s.rows, s.counters.Keys, home);
    }
  }

  lemma EmptyBulk(s: Store, home: CounterKey, paused: bool)
    ensures BulkApply(s, [], home, paused) == s.(counters := EnsureCounters(s.counters, home))
  {
    var counters := EnsureCounters(s.counters, home);
    NothingCharged(counters, home);
    assert InsertAll(s.rows, [], paused) == s.rows && Deliveries([]) == [];
    assert SendAll(s.(counters := counters), []) == s.(counters := counters);
  }

  lemma BulkKeepsIndex(s: Store, entries: seq<Entry>, home: CounterKey, paused: bool)
    requires Linked(s) && SameHome(entries, home) && FreshKeys(s.rows, entries)
    ensures Linked(BulkApply(s, entries, home, paused)) && (Agrees(s) ==> Agrees(BulkApply(s, entries, home, paused)))
  {
    if entries == [] {
      EmptyBulk(s, home, paused);
      OpenedKeepsIndex(s, home);
    } else {
      BulkIsOneByOne(s, entries, home, paused);
      EntriesKeepIndex(s, entries, paused);
    }
  }

  lemma {:induction false} SendAllKeepsLinks(s: Store, deliveries: seq<Delivery>)
    requires Linked(s) && forall d | d in deliveries :: Untracked(d.payload)
    ensures Linked(SendAll(s, deliveries))
    decreases |deliveries|
  {
    if deliveries == [] {
      assert SendAll(s, deliveries) == s;
    } else {
      assert Untracked(deliveries[0].payload);
      AddToQueue(s.rows, s.pending, QUEUED, s.nextDelivery, deliveries[0]);
      SendAllKeepsLinks(Send(s, deliveries[0]), deliveries[1..]);
      assert SendAll(s, deliveries) == SendAll(Send(s, deliveries[0]), deliveries[1..]);
    }
  }

  lemma PlanKeepsIndex(s: Store, plan: BulkPlan)
    requires Linked(s) && PlanIndexes(s.rows, plan)
    requires plan.AllUntracked? ==> forall d | d in plan.deliveries :: Untracked(d.payload)
    ensures Linked(BulkAfter(s, plan)) && (Agrees(s) ==> Agrees(BulkAfter(s, plan)))
  {
    match plan
    case NoItems =>
    case AllUntracked(deliveries) => SendAllKeepsLinks(s, deliveries);
    case Refused(home) => OpenedKeepsIndex(s, home);
    case Accepted(entries, home, paused, _) => BulkKeepsIndex(s, entries, home, paused);
  }

  lemma CalmBulkKeepsIndex(s: Store, e: Event)
    requires Linked(s) && Calm(s, e) && e.Bulk?
    ensures Linked(Step(s, e)) && (Agrees(s) ==> Agrees(Step(s, e)))
  {
    if Enabled(s, e) {
      var plan := PlanBulk(s.control, e.bulk, e.firstSession, e.sessions);
      assert Step(s, e) == BulkAfter(s, plan);
      PlanKeepsIndex(s, plan);
    }
  }

  lemma CalmStepKeepsIndex(s: Store, e: Event)
    requires Sound(s) && Linked(s) && Calm(s, e)
    ensures Linked(Step(s, e)) && (Agrees(s) ==> Agrees(Step(s, e)))
  {
    if e.Bulk? {
      CalmBulkKeepsIndex(s, e);
    } else {
      CalmSingleKeepsIndex(s, e);
    }
  }

  /** How many entries insert a row of that session and worker which was not there. */
  function NewRows(known: set<RowKey>, entries: seq<Entry>, key: CounterKey): nat
    decreases |entries|
  {
    if entries == [] then 0
    else
      var e := entries[0];
      (if RowKeyOf(e.context) !in known && CounterKeyOf(e.context) == key then 1 else 0)
      + NewRows(known + {RowKeyOf(e.context)}, entries[1..], key)
  }

  lemma InsertedRowCounts(rows: map<RowKey, Row>, e: Entry, paused: bool, key: CounterKey)
    ensures RowsIn(rows[RowKeyOf(e.context) := BulkRow(rows, e, paused)], key, ALL) == RowsIn(rows, key, ALL)
          + (if RowKeyOf(e.context) !in rows && CounterKeyOf(e.context) == key then 1 else 0)
  {
    var id, row := RowKeyOf(e.context), BulkRow(rows, e, paused);
    MoveRow(rows, id, row, key, ALL);
    AnyStateCounts(row.state);
    if id in rows {
      AnyStateCounts(rows[id].state);
    }
  }

  lemma AnyStateCounts(state: JobState)
    ensures Weight(Some(state), ALL) == 1
  {
  }

  lemma {:induction false} InsertedRows(rows: map<RowKey, Row>, entries: seq<Entry>, paused: bool, key: CounterKey)
    ensures RowsIn(InsertAll(rows, entries, paused), key, ALL)
         == RowsIn(rows, key, ALL) + NewRows(rows.Keys, entries, key)
    decreases |entries|
  {
    if entries != [] {
      var e := entries[0];
      var next := rows[RowKeyOf(e.context) := BulkRow(rows, e, paused)];
      InsertedRowCounts(rows, e, paused, key);
      assert next.Keys == rows.Keys + {RowKeyOf(e.context)};
      InsertedRows(next, entries[1..], paused, key);
    }
  }

  lemma HeadKeyIsNew(entries: seq<Entry>)
    requires entries != [] && !KeyTwice(entries[1..])
    requires forall e | e in entries[1..] :: RowKeyOf(e.context) != RowKeyOf(entries[0].context)
    ensures !KeyTwice(entries)
  {
    forall i, j | 0 <= i < j < |entries| ensures RowKeyOf(entries[i].context) != RowKeyOf(entries[j].context) {
      assert entries[j] == entries[1..][j - 1];
      if i > 0 {
        assert entries[i] == entries[1..][i - 1];
      }
    }
  }

  /** Every entry is such a new row only if they all have that session and worker, and fresh keys. */
  lemma {:induction false} NewRowsAtMost(known: set<RowKey>, entries: seq<Entry>, key: CounterKey)
    ensures NewRows(known, entries, key) <= |entries|
    ensures NewRows(known, entries, key) == |entries| ==>
      SameHome(entries, key) && !KeyTwice(entries) && forall e | e in entries :: RowKeyOf(e.context) !in known
    decreases |entries|
  {
    if entries != [] {
      var id := RowKeyOf(entries[0].context);
      NewRowsAtMost(known + {id}, entries[1..], key);
      if NewRows(known, entries, key) == |entries| {
        forall e | e in entries[1..] ensures RowKeyOf(e.context) != id && RowKeyOf(e.context) !in known {
          assert RowKeyOf(e.context) !in known + {id};
        }
        HeadKeyIsNew(entries);
        assert forall e | e in entries :: e == entries[0] || e in entries[1..];
      }
    }
  }

  lemma TotalIsIndexed(rows: map<RowKey, Row>, counters: map<CounterKey, Counters>, key: CounterKey)
    requires AgreeTables(rows, counters) && (key in counters || Counted(rows, counters.Keys))
    ensures Before(counters, key).total == RowsIn(rows, key, ALL)
  {
    if key in counters {
      assert AgreesAt(rows, counters[key], key);
    } else {
      NoRowsAt(rows, counters.Keys, key, ALL);
    }
  }

  /** Exactly: a bulk call keeps the counters an index of the rows if and only if every entry has a fresh
      key and the session and worker the call charges. */
  lemma BulkKeepsIndexIff(s: Store, entries: seq<Entry>, home: CounterKey, paused: bool)
    requires Linked(s) && Agrees(s)
    ensures Agrees(BulkApply(s, entries, home, paused)) <==> SameHome(entries, home) && FreshKeys(s.rows, entries)
  {
    var t := BulkApply(s, entries, home, paused);
    if SameHome(entries, home) && FreshKeys(s.rows, entries) {
      BulkKeepsIndex(s, entries, home, paused);
    } else {
      InsertedRows(s.rows, entries, paused, home);
      TotalIsIndexed(s.rows, s.counters, home);
      NewRowsAtMost(s.rows.Keys, entries, home);
      ChargedTotal(s.counters, home, BulkDelta(|entries|, paused), home);
      if Agrees(t) {
        TotalIsIndexed(t.rows, t.counters, home);
      }
    }
  }

  // ---------------------------------------------------------------- whole runs

  /** Over every calm run the counters index the rows exactly. */
  lemma {:induction false} CountersIndexRows(s: Store, events: seq<Event>)
    requires Sound(s) && Linked(s) && Agrees(s) && CalmRun(s, events)
    ensures Agrees(Run(s, events)) && Linked(Run(s, events))
    decreases |events|
  {
    if events != [] {
      StepKeepsSound(s, events[0]);
      CalmStepKeepsIndex(s, events[0]);
      CountersIndexRows(Step(s, events[0]), events[1..]);
    }
  }

  // ---------------------------------------------------------------- the paused counter

  /** The completion of a tracked delivery. */
  predicate Completes(s: Store, e: Event) {
    e.Complete? && ChargeOf(s, e).Charge?
  }

  /** The one charge that is looser than its move: a completion while the paused counter is positive. */
  predicate PausedCharge(s: Store, e: Event) {
    Completes(s, e) && Before(s.counters, ChargeOf(s, e).key).paused > 0
  }

  predicate ExactPausedCharge(rows: map<RowKey, Row>, move: Move, charge: Charge) {
    move.Move? ==>
      ChargedDelta(charge).paused == Weight(Some(move.row.state), PAUSED) - Weight(StateAt(rows, move.id), PAUSED)
  }

  lemma EnqueuedPausedCharge(s: Store, args: EnqueueArgs, session: string)
    requires Indexes(s, Enqueue(args, session))
    ensures ExactPausedCharge(s.rows, MoveOf(s, Enqueue(args, session)), ChargeOf(s, Enqueue(args, session)))
  {
  }

  lemma BegunPausedCharge(s: Store, n: nat, session: string)
    requires Linked(s) && n in s.pending
    ensures ExactPausedCharge(s.rows, MoveOf(s, Begin(n, session)), ChargeOf(s, Begin(n, session)))
  {
    assert Matches(s.rows, s.pending[n], QUEUED);
  }

  /** A completion charges one paused job that its row never was; every other charge is exact. */
  lemma PausedChargeIsExact(s: Store, e: Event)
    requires Sound(s) && Linked(s) && Calm(s, e) && !e.Bulk?
    ensures !Completes(s, e) ==> ExactPausedCharge(s.rows, MoveOf(s, e), ChargeOf(s, e))
    ensures Completes(s, e) ==>
      ExactPausedCharge(s.rows, MoveOf(s, e), Charge(ChargeOf(s, e).key, ChargeOf(s, e).delta.(paused := 0)))
  {
    if Enabled(s, e) {
      match e
      case Enqueue(args, session) => EnqueuedPausedCharge(s, args, session);
      case Begin(n, session) => BegunPausedCharge(s, n, session);
      case Progress(_, _) => HeldPausedCharge(s, e);
      case Complete(_, _) => HeldPausedCharge(s, e);
      case Fail(_, _, _, _) => HeldPausedCharge(s, e);
      case Redeliver(_) =>
      case Requeue(id, recover) => RequeuedPausedCharge(s, id, recover);
      case Api(_, _) =>
    }
  }

  lemma RequeuedPausedCharge(s: Store, id: RowKey, recover: bool)
    requires Sound(s) && Linked(s) && Calm(s, Requeue(id, recover)) && Enabled(s, Requeue(id, recover))
    ensures ExactPausedCharge(s.rows, MoveOf(s, Requeue(id, recover)), ChargeOf(s, Requeue(id, recover)))
  {
    assert AtHome(s.rows[id]) && CarriesOwnKey(id, s.rows[id]);
  }

  lemma HeldPausedCharge(s: Store, e: Event)
    requires Linked(s) && Calm(s, e) && Enabled(s, e) && (e.Progress? || e.Complete? || e.Fail?)
    ensures !Completes(s, e) ==> ExactPausedCharge(s.rows, MoveOf(s, e), ChargeOf(s, e))
    ensures Completes(s, e) ==>
      ExactPausedCharge(s.rows, MoveOf(s, e), Charge(ChargeOf(s, e).key, ChargeOf(s, e).delta.(paused := 0)))
  {
    assert Matches(s.rows, s.inFlight[e.delivery], RUNNING);
  }

  /** One key at a time: an exact charge keeps the paused counter exact. */
  lemma ExactChargeAt(rows: map<RowKey, Row>, counters: map<CounterKey, Counters>,
                      move: Move, charge: Charge, key: CounterKey)
    requires Counted(rows, counters.Keys)
    requires PausedTables(rows, counters) && Fits(rows, move, charge) && ExactPausedCharge(rows, move, charge)
    requires key in Charged(counters, charge)
    ensures Charged(counters, charge)[key].paused == RowsIn(Moved(rows, move), key, PAUSED)
  {
    ChargedAt(counters, charge, key);
    if key !in counters {
      NoRowsAt(rows, counters.Keys, key, PAUSED);
    }
    if move.Move? {
      MoveRow(rows, move.id, move.row, key, PAUSED);
    }
  }

  lemma ExactChargeKeepsPaused(rows: map<RowKey, Row>, counters: map<CounterKey, Counters>, move: Move, charge: Charge)
    requires Counted(rows, counters.Keys)
    requires PausedTables(rows, counters) && Fits(rows, move, charge) && ExactPausedCharge(rows, move, charge)
    ensures PausedTables(Moved(rows, move), Charged(counters, charge))
  {
    forall key | key in Charged(counters, charge)
      ensures Charged(counters, charge)[key].paused == RowsIn(Moved(rows, move), key, PAUSED)
    {
      ExactChargeAt(rows, counters, move, charge, key);
    }
  }

  /** A completion takes one off the paused counter of its key and moves no paused row. */
  lemma CompletionTakesOnePaused(rows: map<RowKey, Row>, counters: map<CounterKey, Counters>,
                                 move: Move, charge: Charge)
    requires PausedTables(rows, counters) && charge.Charge? && charge.key in counters && charge.delta.paused == -1
    requires move.Move? ==> (move.id in rows ==> HomeOf(rows[move.id]) == HomeOf(move.row))
    requires move.Move? ==> Weight(Some(move.row.state), PAUSED) == Weight(StateAt(rows, move.id), PAUSED)
    ensures PausedTables(Moved(rows, move), Charged(counters, charge)) <==> counters[charge.key].paused == 0
  {
    var rows', counters' := Moved(rows, move), Charged(counters, charge);
    forall key | key in counters'
      ensures RowsIn(rows', key, PAUSED) == RowsIn(rows, key, PAUSED)
      ensures key in counters
      ensures counters'[key].paused
          == (if key == charge.key then Clamp(counters[key].paused - 1) else counters[key].paused)
    {
      ChargedAt(counters, charge, key);
      if move.Move? {
        MoveRow(rows, move.id, move.row, key, PAUSED);
      }
    }
    assert charge.key in counters';
  }

  lemma PausedStaysExactIffSingle(s: Store, e: Event, t: Store)
    requires Sound(s) && Linked(s) && Calm(s, e) && PausedExact(s) && !e.Bulk? && t == Step(s, e)
    ensures PausedExact(t) <==> !PausedCharge(s, e)
  {
    StepFits(s, e);
    StepMoves(s, e);
    StepCharges(s, e);
    PausedChargeIsExact(s, e);
    if Completes(s, e) {
      CompletionKeepsPausedIff(s, e, t);
    } else {
      ExactChargeKeepsPaused(s.rows, s.counters, MoveOf(s, e), ChargeOf(s, e));
    }
  }

  lemma CompletionKeepsPausedIff(s: Store, e: Event, t: Store)
    requires Sound(s) && PausedExact(s) && Completes(s, e)
    requires t.rows == Moved(s.rows, MoveOf(s, e)) && t.counters == Charged(s.counters, ChargeOf(s, e))
    requires Fits(s.rows, MoveOf(s, e), ChargeOf(s, e))
    requires ExactPausedCharge(s.rows, MoveOf(s, e), Charge(ChargeOf(s, e).key, ChargeOf(s, e).delta.(paused := 0)))
    ensures PausedExact(t) <==> !PausedCharge(s, e)
  {
    assert e.delivery in s.inFlight;
    CompletionTakesOnePaused(s.rows, s.counters, MoveOf(s, e), ChargeOf(s, e));
  }

  lemma EntryKeepsPaused(s: Store, e: Entry, paused: bool)
    requires Linked(s) && PausedExact(s) && RowKeyOf(e.context) !in s.rows
    ensures PausedExact(EnqueueEntryAs(s, e, paused))
  {
    var jobId := EnqueueJobId(e.args.opts, e.context);
    EnqueueFits(s.rows, e.args, e.context, jobId, paused);
    EnqueueMoves(s, e.args, e.context, jobId, paused);
    EnqueueCharges(s, e.args, e.context, jobId, paused);
    ExactChargeKeepsPaused(s.rows, s.counters, WriteMove(s.rows, EnqueueWrite(e.args, e.context, paused, jobId)),
                           Charge(CounterKeyOf(e.context), EnqueueDelta(paused)));
  }

  lemma {:induction false} EntriesKeepPaused(s: Store, entries: seq<Entry>, paused: bool)
    requires Linked(s) && PausedExact(s) && FreshKeys(s.rows, entries)
    ensures PausedExact(OneByOneAs(s, entries, paused))
    decreases |entries|
  {
    if entries != [] {
      var e := entries[0];
      assert e in entries;
      EntryKeepsPaused(s, e, paused);
      EntryKeepsIndex(s, e, paused);
      TailKeepsFresh(s.rows, entries,
        UpsertedRow(s.rows, EnqueueWrite(e.args, e.context, paused, EnqueueJobId(e.args.opts, e.context))));
      EntriesKeepPaused(EnqueueEntryAs(s, e, paused), entries[1..], paused);
    }
  }

  lemma OpenedKeepsPaused(s: Store, home: CounterKey)
    requires Linked(s) && PausedExact(s)
    ensures PausedExact(s.(counters := EnsureCounters(s.counters, home)))
  {
    if home !in s.counters {
      NoRowsAt(s.rows, s.counters.Keys, home, PAUSED);
    }
  }

  lemma AcceptedKeepsPaused(s: Store, entries: seq<Entry>, home: CounterKey, paused: bool, session: string)
    requires Linked(s) && PausedExact(s) && PlanIndexes(s.rows, Accepted(entries, home, paused, session))
    ensures PausedExact(BulkApply(s, entries, home, paused))
  {
    if entries == [] {
      EmptyBulk(s, home, paused);
      OpenedKeepsPaused(s, home);
    } else {
      BulkIsOneByOne(s, entries, home, paused);
      EntriesKeepPaused(s, entries, paused);
    }
  }

  lemma CalmBulkKeepsPaused(s: Store, e: Event)
    requires Linked(s) && PausedExact(s) && Calm(s, e) && e.Bulk? && Enabled(s, e)
    ensures PausedExact(Step(s, e))
  {
    var plan := PlanBulk(s.control, e.bulk, e.firstSession, e.sessions);
    assert Step(s, e) == BulkAfter(s, plan);
    match plan
    case NoItems =>
    case AllUntracked(_) =>
    case Refused(home) => OpenedKeepsPaused(s, home);
    case Accepted(entries, home, paused, session) => AcceptedKeepsPaused(s, entries, home, paused, session);
  }

  /** The paused counter stays exact over a calm step if and only if the step is not a completion
      that finds it positive. */
  lemma PausedStaysExactIff(s: Store, e: Event)
    requires Sound(s) && Linked(s) && Calm(s, e) && PausedExact(s)
    ensures PausedExact(Step(s, e)) <==> !PausedCharge(s, e)
  {
    if !e.Bulk? {
      PausedStaysExactIffSingle(s, e, Step(s, e));
    } else if Enabled(s, e) {
      CalmBulkKeepsPaused(s, e);
    }
  }

  ghost predicate PausedCalmRun(s: Store, events: seq<Event>)
    decreases |events|
  {
    events == []
    || (Calm(s, events[0]) && !PausedCharge(s, events[0]) && PausedCalmRun(Step(s, events[0]), events[1..]))
  }

  /** Until a completion finds it positive, the paused counter is exact as well. */
  lemma {:induction false} PausedIndexesRows(s: Store, events: seq<Event>)
    requires Sound(s) && Linked(s) && PausedExact(s) && PausedCalmRun(s, events)
    ensures PausedExact(Run(s, events))
    decreases |events|
  {
    if events != [] {
      StepKeepsSound(s, events[0]);
      CalmStepKeepsIndex(s, events[0]);
      PausedStaysExactIff(s, events[0]);
      PausedIndexesRows(Step(s, events[0]), events[1..]);
    }
  }

  // ---------------------------------------------------------------- spent recovery budgets

  lemma FailedIsIndexed(rows: map<RowKey, Row>, counters: map<CounterKey, Counters>, key: CounterKey)
    requires AgreeTables(rows, counters) && key in counters
    ensures counters[key].failed == RowsIn(rows, key, FAILED)
  {
    assert AgreesAt(rows, counters[key], key);
  }

  lemma WriteOffBreaksTables(rows: map<RowKey, Row>, counters: map<CounterKey, Counters>, id: RowKey, row: Row)
    requires id in rows && rows[id].state == Paused && row == rows[id].(state := TerminalErrorSkipped)
    requires HomeOf(row) in counters && AgreeTables(rows, counters)
    ensures !AgreeTables(rows[id := row], counters)
  {
    FailedIsIndexed(rows, counters, HomeOf(row));
    MoveRow(rows, id, row, HomeOf(row), FAILED);
    assert Weight(Some(row.state), FAILED) == 1 && Weight(StateAt(rows, id), FAILED) == 0;
    if AgreeTables(rows[id := row], counters) {
      FailedIsIndexed(rows[id := row], counters, HomeOf(row));
    }
  }

  lemma WriteOffBreaksAgreement(s: Store, id: RowKey, recover: bool, jobId: string)
    requires Agrees(s) && Counted(s.rows, s.counters.Keys) && id in s.rows && s.rows[id].resumePayload.NonEmpty()
    requires s.rows[id].state == Paused && OverBudget(s.rows[id], recover)
    ensures !Agrees(RequeueAs(s, id, recover, jobId))
  {
    WriteOffBreaksTables(s.rows, s.counters, id, s.rows[id].(state := TerminalErrorSkipped));
  }

  /** A resume keeps the counters an index of the rows if and only if it does not write off a
      paused row whose recovery budget is spent. */
  lemma RequeueKeepsAgreementIff(s: Store, id: RowKey, recover: bool)
    requires Sound(s) && Linked(s) && Agrees(s) && Enabled(s, Requeue(id, recover))
    ensures Agrees(Step(s, Requeue(id, recover))) <==> !(s.rows[id].state == Paused && OverBudget(s.rows[id], recover))
  {
    assert CarriesOwnKey(id, s.rows[id]);
    if s.rows[id].state == Paused && OverBudget(s.rows[id], recover) {
      var jobId := JobKeys.ResumeJobId(id.key, s.rows[id].attemptsUsed + 1);
      var next := RequeueAs(s, id, recover, jobId);
      assert Step(s, Requeue(id, recover)) == next;
      WriteOffBreaksAgreement(s, id, recover, jobId);
    } else {
      FittingStepKeepsIndex(s, Requeue(id, recover), Step(s, Requeue(id, recover)));
    }
  }

  // ---------------------------------------------------------------- pauses while a job runs

  /** A job paused while it runs, by its own patch or by the control flags, can be resumed afterwards if
      and only if its processor throws: a processor that returns has its row completed, and the default
      resume states no longer select it. */
  lemma PausedMidRunResumesIff(s: Store, n: nat, patch: Patch, close: Event)
    requires n in s.inFlight && s.inFlight[n].payload.execution.Some?
    requires ProgressPaused(s.control, s.inFlight[n].payload.execution.value, patch)
    requires (close.Complete? || close.Fail?) && close.delivery == n
    ensures var id := RowKeyOf(s.inFlight[n].payload.execution.value);
            var paused := Step(s, Progress(n, patch));
            var closed := Step(paused, close);
            && id in paused.rows && paused.rows[id].state == Paused
            && id in closed.rows && (closed.rows[id].state in DEFAULT_STATES <==> close.Fail?)
            && closed.rows[id].resumePayload == s.inFlight[n].payload
  {
    var context := s.inFlight[n].payload.execution.value;
    var paused := Step(s, Progress(n, patch));
    assert paused.inFlight == s.inFlight;
    HeldMoves(paused, close);
  }
}
