/** Job identity: every stored payload and every delivery names the row it belongs to. */
module RuntimeIdentity {
  import opened Options
  import opened ImportContext
  import opened RuntimeStore
  import opened RuntimeBulk
  import ImportControl
  import JobKeys

  /** A payload from which no context can be derived when its delivery begins. */
  predicate Untracked(payload: Payload) {
    && payload.execution.None?
    && (!HasText(payload.Field("tenantId")) || !HasText(payload.Field("batchId")))
  }

  /** The row's resume payload carries the row's own key. */
  predicate CarriesOwnKey(id: RowKey, row: Row) {
    row.resumePayload.execution.Some? && RowKeyOf(row.resumePayload.execution.value) == id
  }

  ghost predicate RowsKnown(rows: map<RowKey, Row>) {
    forall id | id in rows :: CarriesOwnKey(id, rows[id])
  }

  predicate Known(d: Delivery, rows: set<RowKey>) {
    match d.payload.execution
    case None => Untracked(d.payload)
    case Some(context) => RowKeyOf(context) in rows
  }

  ghost predicate QueueKnown(queue: map<nat, Delivery>, next: nat, rows: set<RowKey>) {
    forall n | n in queue :: n < next && Known(queue[n], rows)
  }

  /** What a worker holds was counted when it began. */
  ghost predicate HeldCounted(inFlight: map<nat, Delivery>, counters: set<CounterKey>) {
    forall n | n in inFlight && inFlight[n].payload.execution.Some? ::
      CounterKeyOf(inFlight[n].payload.execution.value) in counters
  }

  ghost predicate Sound(s: Store) {
    && RowsKnown(s.rows)
    && QueueKnown(s.pending, s.nextDelivery, s.rows.Keys)
    && QueueKnown(s.inFlight, s.nextDelivery, s.rows.Keys)
    && HeldCounted(s.inFlight, s.counters.Keys)
    && s.pending.Keys !! s.inFlight.Keys
  }

  /** What callers owe: deliveries sent without a context must not be ones a worker could still derive
      a context from, and a progress patch's resume payload keeps the job's context. */
  predicate Proper(s: Store, e: Event) {
    match e
    case Enqueue(args, session) => CreateContext(args, session).None? ==> Untracked(args.payload)
    case Bulk(bulk, first, sessions) =>
      Enabled(s, e) && PlanBulk(s.control, bulk, first, sessions).AllUntracked? ==>
        forall d | d in PlanBulk(s.control, bulk, first, sessions).deliveries :: Untracked(d.payload)
    case Progress(n, patch) =>
      n in s.inFlight && patch.resume.Some? ==> patch.resume.value.execution == s.inFlight[n].payload.execution
    case _ => true
  }

  ghost predicate ProperRun(s: Store, events: seq<Event>)
    decreases |events|
  {
    events == [] || (Proper(s, events[0]) && ProperRun(Step(s, events[0]), events[1..]))
  }

  lemma PutKeepsRows(rows: map<RowKey, Row>, id: RowKey, row: Row)
    requires RowsKnown(rows) && CarriesOwnKey(id, row)
    ensures RowsKnown(rows[id := row])
    ensures rows[id := row].Keys == rows.Keys + {id}
  {
  }

  lemma UpsertKeepsRows(rows: map<RowKey, Row>, w: Write)
    requires RowsKnown(rows) && w.resumePayload.execution.Some?
    requires RowKeyOf(w.resumePayload.execution.value) == RowKeyOf(w.context)
    ensures RowsKnown(Upsert(rows, w))
    ensures Upsert(rows, w).Keys == rows.Keys + {RowKeyOf(w.context)}
  {
    PutKeepsRows(rows, RowKeyOf(w.context), UpsertedRow(rows, w));
  }

  lemma DeltaKeys(counters: map<CounterKey, Counters>, key: CounterKey, d: Delta)
    ensures ApplyDelta(EnsureCounters(counters, key), key, d).Keys == counters.Keys + {key}
    ensures ApplyDelta(counters, key, d).Keys == counters.Keys
  {
  }

  /** Tables that only grow keep soundness. */
  lemma GrowthKeepsSound(s: Store, t: Store)
    requires Sound(s) && t.pending == s.pending && t.inFlight == s.inFlight && t.nextDelivery == s.nextDelivery
    requires RowsKnown(t.rows) && s.rows.Keys <= t.rows.Keys && s.counters.Keys <= t.counters.Keys
    ensures Sound(t)
  {
  }

  lemma SendKeepsSound(s: Store, d: Delivery)
    requires Sound(s) && Known(d, s.rows.Keys)
    ensures Sound(Send(s, d))
  {
  }

  lemma EnqueueKeepsSound(s: Store, args: EnqueueArgs, context: Context, jobId: string, paused: bool)
    requires Sound(s)
    ensures Sound(EnqueueAs(s, args, context, jobId, paused))
  {
    var recorded := EnqueueRecorded(s, args, context, jobId, paused);
    DeltaKeys(s.counters, CounterKeyOf(context), EnqueueDelta(paused));
    UpsertKeepsRows(s.rows, EnqueueWrite(args, context, paused, jobId));
    GrowthKeepsSound(s, recorded);
    SendKeepsSound(recorded, EnqueueDelivery(args, context, jobId));
  }

  // ---------------------------------------------------------------- bulk enqueue

  lemma InsertOneKeepsSound(s: Store, e: Entry, paused: bool)
    requires Sound(s)
    ensures Sound(InsertOne(s, e, paused)) && s.rows.Keys <= InsertOne(s, e, paused).rows.Keys
  {
    var id := RowKeyOf(e.context);
    var inserted := s.(rows := s.rows[id := BulkRow(s.rows, e, paused)]);
    PutKeepsRows(s.rows, id, BulkRow(s.rows, e, paused));
    GrowthKeepsSound(s, inserted);
    SendKeepsSound(inserted, EnqueueDelivery(e.args, e.context, EnqueueJobId(e.args.opts, e.context)));
  }

  lemma {:induction false} InsertEachKeepsSound(s: Store, entries: seq<Entry>, paused: bool)
    requires Sound(s)
    ensures Sound(InsertEach(s, entries, paused))
    decreases |entries|
  {
    if entries != [] {
      InsertOneKeepsSound(s, entries[0], paused);
      InsertEachKeepsSound(InsertOne(s, entries[0], paused), entries[1..], paused);
    }
  }

  lemma {:induction false} SendAllKeepsSound(s: Store, deliveries: seq<Delivery>)
    requires Sound(s) && forall d | d in deliveries :: Known(d, s.rows.Keys)
    ensures Sound(SendAll(s, deliveries))
    decreases |deliveries|
  {
    if deliveries != [] {
      SendKeepsSound(s, deliveries[0]);
      SendAllKeepsSound(Send(s, deliveries[0]), deliveries[1..]);
      assert SendAll(s, deliveries) == SendAll(Send(s, deliveries[0]), deliveries[1..]);
    } else {
      assert SendAll(s, deliveries) == s;
    }
  }

  /** Whatever a bulk call plans, soundness survives it. */
  lemma BulkKeepsSound(s: Store, plan: BulkPlan)
    requires Sound(s) && (plan.AllUntracked? ==> forall d | d in plan.deliveries :: Untracked(d.payload))
    ensures Sound(BulkAfter(s, plan))
  {
    match plan
    case NoItems =>
    case AllUntracked(deliveries) =>
      forall d | d in deliveries ensures Known(d, s.rows.Keys) {
        assert Untracked(d.payload);
      }
      SendAllKeepsSound(s, deliveries);
    case Refused(home) => GrowthKeepsSound(s, s.(counters := EnsureCounters(s.counters, home)));
    case Accepted(entries, home, paused, _) =>
      var counted := BulkCounted(s, |entries|, home, paused);
      DeltaKeys(s.counters, home, BulkDelta(|entries|, paused));
      GrowthKeepsSound(s, counted);
      InsertEachKeepsSound(counted, entries, paused);
      BulkIsInsertEach(s, entries, home, paused);
  }

  // ---------------------------------------------------------------- one delivery's life

  /** In a sound store an untracked delivery begins without touching rows or counters. */
  lemma BeginContextOfSound(s: Store, n: nat, session: string)
    requires Sound(s) && n in s.pending
    ensures BeginContext(s.pending[n], s.pending[n].queueName, session) == s.pending[n].payload.execution
  {
    var d := s.pending[n];
    if d.payload.execution.None? {
      assert Untracked(d.payload);
      assert TenantOf(FallbackArgs(d, d.queueName)) == d.payload.Field("tenantId");
      assert BatchOf(FallbackArgs(d, d.queueName)) == d.payload.Field("batchId");
    }
  }

  /** A delivery leaves the queue, for a worker or for good, while the tables keep what they know. */
  lemma TakeKeepsSound(s: Store, t: Store, n: nat)
    requires Sound(s) && n in s.pending
    requires t.pending == s.pending - {n} && t.nextDelivery == s.nextDelivery
    requires t.inFlight == s.inFlight || t.inFlight == s.inFlight[n := s.pending[n]]
    requires RowsKnown(t.rows) && s.rows.Keys <= t.rows.Keys && s.counters.Keys <= t.counters.Keys
    requires s.pending[n].payload.execution.Some?
        ==> CounterKeyOf(s.pending[n].payload.execution.value) in t.counters.Keys
    ensures Sound(t)
  {
    assert QueueKnown(t.pending, t.nextDelivery, t.rows.Keys);
    assert QueueKnown(t.inFlight, t.nextDelivery, t.rows.Keys);
    assert HeldCounted(t.inFlight, t.counters.Keys);
  }

  lemma TrackedBeginTables(s: Store, d: Delivery, context: Context)
    requires RowsKnown(s.rows) && RowKeyOf(context) in s.rows && d.payload.execution == Some(context)
    ensures var begun := BeginTracked(s, d, context);
            && RowsKnown(begun.rows) && begun.rows.Keys == s.rows.Keys
            && begun.counters.Keys == s.counters.Keys + {CounterKeyOf(context)}
            && begun.pending == s.pending && begun.inFlight == s.inFlight && begun.nextDelivery == s.nextDelivery
  {
    var paused := Halted(s.control, context);
    DeltaKeys(s.counters, CounterKeyOf(context), Delta(0, -1, if paused then 0 else 1, if paused then 1 else 0, 0, 0));
    UpsertKeepsRows(s.rows, BeginWrite(d, context, paused));
  }

  /** What a worker's begin comes to, by whether its delivery carries a context. */
  function BegunAs(s: Store, n: nat): Store
    requires n in s.pending
  {
    var d, taken := s.pending[n], s.(pending := s.pending - {n});
    match d.payload.execution
    case None => taken.(inFlight := s.inFlight[n := d])
    case Some(context) =>
      if Halted(s.control, context) then BeginTracked(taken, d, context)
      else BeginTracked(taken, d, context).(inFlight := s.inFlight[n := d])
  }

  lemma BeginIsBegunAs(s: Store, n: nat, session: string)
    requires Sound(s) && n in s.pending
    ensures BeginDelivery(s, n, session) == BegunAs(s, n)
  {
    BeginContextOfSound(s, n, session);
  }

  lemma TrackedBeginKeepsSound(s: Store, n: nat, context: Context)
    requires Sound(s) && n in s.pending && s.pending[n].payload.execution == Some(context)
    ensures var begun := BeginTracked(s.(pending := s.pending - {n}), s.pending[n], context);
            && Sound(begun) && Sound(begun.(inFlight := s.inFlight[n := s.pending[n]]))
            && begun.rows.Keys == s.rows.Keys
  {
    var begun := BeginTracked(s.(pending := s.pending - {n}), s.pending[n], context);
    assert Known(s.pending[n], s.rows.Keys);
    TrackedBeginTables(s.(pending := s.pending - {n}), s.pending[n], context);
    TakeKeepsSound(s, begun, n);
    TakeKeepsSound(s, begun.(inFlight := s.inFlight[n := s.pending[n]]), n);
  }

  lemma BegunAsKeepsSound(s: Store, n: nat)
    requires Sound(s) && n in s.pending
    ensures Sound(BegunAs(s, n)) && BegunAs(s, n).rows.Keys == s.rows.Keys
  {
    match s.pending[n].payload.execution
    case None => TakeKeepsSound(s, s.(pending := s.pending - {n}, inFlight := s.inFlight[n := s.pending[n]]), n);
    case Some(context) => TrackedBeginKeepsSound(s, n, context);
  }

  lemma BeginKeepsSound(s: Store, n: nat, session: string)
    requires Sound(s) && n in s.pending
    ensures Sound(BeginDelivery(s, n, session))
    ensures BeginDelivery(s, n, session).rows.Keys == s.rows.Keys
  {
    BeginIsBegunAs(s, n, session);
    BegunAsKeepsSound(s, n);
  }

  lemma CloseKeepsSound(s: Store, n: nat, state: JobState, checkpoint: Payload, error: Option<string>, d: Delta)
    requires Sound(s) && n in s.inFlight && s.inFlight[n].payload.execution.Some?
    ensures var context := s.inFlight[n].payload.execution.value;
            var closed := s.(inFlight := s.inFlight - {n},
              rows := Upsert(s.rows, CloseWrite(s.inFlight[n], context, state, checkpoint, error)),
              counters := ApplyDelta(s.counters, CounterKeyOf(context), d));
            Sound(closed) && closed.rows.Keys == s.rows.Keys && closed.counters.Keys == s.counters.Keys
  {
    var context := s.inFlight[n].payload.execution.value;
    assert Known(s.inFlight[n], s.rows.Keys);
    DeltaKeys(s.counters, CounterKeyOf(context), d);
    UpsertKeepsRows(s.rows, CloseWrite(s.inFlight[n], context, state, checkpoint, error));
  }

  lemma CompleteKeepsSound(s: Store, n: nat, checkpoint: Payload)
    requires Sound(s) && n in s.inFlight
    ensures Sound(Step(s, Complete(n, checkpoint))) && Step(s, Complete(n, checkpoint)).rows.Keys == s.rows.Keys
  {
    if s.inFlight[n].payload.execution.Some? {
      CloseKeepsSound(s, n, Completed, checkpoint, None, Delta(0, 0, -1, -1, 1, 0));
    }
  }

  lemma FailKeepsSound(s: Store, n: nat, message: string, progress: Payload, retry: bool)
    requires Sound(s) && n in s.inFlight
    ensures Sound(Step(s, Fail(n, message, progress, retry)))
    ensures Step(s, Fail(n, message, progress, retry)).rows.Keys == s.rows.Keys
  {
    var d := s.inFlight[n];
    if d.payload.execution.Some? {
      CloseKeepsSound(s, n, Failed, progress, Some(if |message| > 4000 then message[..4000] else message),
        Delta(0, 0, -1, 0, 0, 1));
    }
    SendKeepsSound(FailJob(s.(inFlight := s.inFlight - {n}), d, message, progress), d);
  }

  lemma ProgressKeepsSound(s: Store, n: nat, patch: Patch)
    requires Sound(s) && n in s.inFlight && Proper(s, Progress(n, patch))
    ensures Sound(Step(s, Progress(n, patch))) && Step(s, Progress(n, patch)).rows.Keys == s.rows.Keys
  {
    var d := s.inFlight[n];
    if d.payload.execution.Some? {
      var w := ProgressWrite(s.control, d, d.payload.execution.value, patch);
      assert Known(d, s.rows.Keys);
      UpsertKeepsRows(s.rows, w);
      GrowthKeepsSound(s, s.(rows := Upsert(s.rows, w)));
    }
  }

  lemma RequeueRecordedKeepsSound(s: Store, id: RowKey, recover: bool, jobId: string)
    requires Sound(s) && id in s.rows
    ensures Sound(RequeueRecorded(s, id, recover, jobId))
        && RequeueRecorded(s, id, recover, jobId).rows.Keys == s.rows.Keys
  {
    var row := s.rows[id];
    DeltaKeys(s.counters, CounterKey(row.session, row.worker), RequeueDelta(row.state));
    PutKeepsRows(s.rows, id, RequeuedRow(row, recover, jobId));
    GrowthKeepsSound(s, RequeueRecorded(s, id, recover, jobId));
  }

  lemma RequeueKeepsSound(s: Store, id: RowKey, recover: bool, jobId: string)
    requires Sound(s) && id in s.rows
    ensures Sound(RequeueAs(s, id, recover, jobId)) && RequeueAs(s, id, recover, jobId).rows.Keys == s.rows.Keys
  {
    var row := s.rows[id];
    if IsRequeued(row, recover) {
      RequeueRecordedKeepsSound(s, id, recover, jobId);
      SendKeepsSound(RequeueRecorded(s, id, recover, jobId), ResumeDelivery(row, jobId));
    } else {
      PutKeepsRows(s.rows, id, row.(state := TerminalErrorSkipped));
      GrowthKeepsSound(s, s.(rows := s.rows[id := row.(state := TerminalErrorSkipped)]));
    }
  }

  lemma EnqueueEventKeepsSound(s: Store, args: EnqueueArgs, session: string)
    requires Sound(s) && Proper(s, Enqueue(args, session))
    ensures Sound(Step(s, Enqueue(args, session)))
  {
    var derived := CreateContext(args, session);
    if derived.Some? {
      var context := derived.value;
      var next := EnqueueAs(s, args, context, EnqueueJobId(args.opts, context), Halted(s.control, context));
      assert Step(s, Enqueue(args, session)) == next;
      EnqueueKeepsSound(s, args, context, EnqueueJobId(args.opts, context), Halted(s.control, context));
    } else {
      SendKeepsSound(s, UntrackedDelivery(args));
    }
  }

  lemma BulkEventKeepsSound(s: Store, e: Event)
    requires Sound(s) && e.Bulk? && Enabled(s, e) && Proper(s, e)
    ensures Sound(Step(s, e))
  {
    var plan := PlanBulk(s.control, e.bulk, e.firstSession, e.sessions);
    assert Step(s, e) == BulkAfter(s, plan);
    BulkKeepsSound(s, plan);
  }

  lemma RequeueEventKeepsSound(s: Store, id: RowKey, recover: bool)
    requires Sound(s) && Enabled(s, Requeue(id, recover))
    ensures Sound(Step(s, Requeue(id, recover))) && Step(s, Requeue(id, recover)).rows.Keys == s.rows.Keys
  {
    var jobId := JobKeys.ResumeJobId(id.key, s.rows[id].attemptsUsed + 1);
    var next := RequeueAs(s, id, recover, jobId);
    assert Step(s, Requeue(id, recover)) == next;
    RequeueKeepsSound(s, id, recover, jobId);
  }

  lemma BeginEventKeepsSound(s: Store, n: nat, session: string)
    requires Sound(s) && n in s.pending
    ensures Sound(Step(s, Begin(n, session))) && Step(s, Begin(n, session)).rows.Keys == s.rows.Keys
  {
    var next := BeginDelivery(s, n, session);
    assert Step(s, Begin(n, session)) == next;
    BeginKeepsSound(s, n, session);
  }

  /** Soundness is kept by every step, and only an enqueue, single or bulk, adds a row. */
  lemma StepKeepsSound(s: Store, e: Event)
    requires Sound(s) && Proper(s, e)
    ensures Sound(Step(s, e))
    ensures !e.Enqueue? && !e.Bulk? ==> Step(s, e).rows.Keys == s.rows.Keys
  {
    if Enabled(s, e) {
      match e
      case Enqueue(args, session) => EnqueueEventKeepsSound(s, args, session);
      case Bulk(_, _, _) => BulkEventKeepsSound(s, e);
      case Begin(n, session) => BeginEventKeepsSound(s, n, session);
      case Progress(n, patch) => ProgressKeepsSound(s, n, patch);
      case Complete(n, checkpoint) => CompleteKeepsSound(s, n, checkpoint);
      case Fail(n, message, progress, retry) => FailKeepsSound(s, n, message, progress, retry);
      case Redeliver(n) => SendKeepsSound(s, s.inFlight[n]);
      case Requeue(id, recover) => RequeueEventKeepsSound(s, id, recover);
      case Api(_, _) =>
    }
  }

  lemma {:induction false} RunKeepsSound(s: Store, events: seq<Event>)
    requires Sound(s) && ProperRun(s, events)
    ensures Sound(Run(s, events))
    decreases |events|
  {
    if events != [] {
      StepKeepsSound(s, events[0]);
      RunKeepsSound(Step(s, events[0]), events[1..]);
    }
  }

  /** Job identity over whole runs: from an empty store, every row's resume payload carries the
      row's own key, and every tracked delivery's row exists, whether it waits or is held. */
  lemma IdentitySurvives(control: ImportControl.Control, events: seq<Event>)
    requires ProperRun(Initial(control), events)
    ensures var s := Run(Initial(control), events);
            && (forall id | id in s.rows :: CarriesOwnKey(id, s.rows[id]))
            && (forall n | n in s.pending && s.pending[n].payload.execution.Some? ::
                  RowKeyOf(s.pending[n].payload.execution.value) in s.rows)
            && (forall n | n in s.inFlight && s.inFlight[n].payload.execution.Some? ::
                  RowKeyOf(s.inFlight[n].payload.execution.value) in s.rows)
  {
    RunKeepsSound(Initial(control), events);
    SoundQueuesHaveRows(Run(Initial(control), events));
  }

  lemma SoundQueuesHaveRows(s: Store)
    requires Sound(s)
    ensures forall n | n in s.pending && s.pending[n].payload.execution.Some? ::
              RowKeyOf(s.pending[n].payload.execution.value) in s.rows
    ensures forall n | n in s.inFlight && s.inFlight[n].payload.execution.Some? ::
              RowKeyOf(s.inFlight[n].payload.execution.value) in s.rows
  {
    forall n | n in s.pending && s.pending[n].payload.execution.Some?
      ensures RowKeyOf(s.pending[n].payload.execution.value) in s.rows
    {
      assert Known(s.pending[n], s.rows.Keys);
    }
    forall n | n in s.inFlight && s.inFlight[n].payload.execution.Some?
      ensures RowKeyOf(s.inFlight[n].payload.execution.value) in s.rows
    {
      assert Known(s.inFlight[n], s.rows.Keys);
    }
  }

  /** Beginning a tracked delivery rewrites its own row and no other. */
  lemma BegunRow(s: Store, n: nat, session: string, context: Context)
    requires Sound(s) && n in s.pending && s.pending[n].payload.execution == Some(context)
    ensures var id, begun := RowKeyOf(context), BeginDelivery(s, n, session).rows;
            && id in s.rows && id in begun && begun == s.rows[id := begun[id]]
            && begun[id].state in {Running, Paused}
            && begun[id].attemptsUsed == s.rows[id].attemptsUsed && begun[id].session == s.rows[id].session
  {
    assert Known(s.pending[n], s.rows.Keys);
    BeginIsBegunAs(s, n, session);
  }

  /** A requeue sends one delivery, which carries the row's resume payload, and touches its row only. */
  lemma RequeueSends(s: Store, id: RowKey, recover: bool, jobId: string)
    requires id in s.rows && IsRequeued(s.rows[id], recover)
    ensures var t := RequeueAs(s, id, recover, jobId);
            && t.pending == s.pending[s.nextDelivery := ResumeDelivery(s.rows[id], jobId)]
            && t.rows == s.rows[id := t.rows[id]] && t.rows[id].session == s.rows[id].session
  {
  }

  /** A requeued row comes back to itself: the delivery sent for it begins that very row. */
  lemma ResumedDeliveryUpdatesItsRow(s: Store, id: RowKey, recover: bool, jobId: string, session: string, t: Store)
    requires Sound(s) && id in s.rows && IsRequeued(s.rows[id], recover)
    requires t == RequeueAs(s, id, recover, jobId)
    ensures s.nextDelivery in t.pending && id in t.rows
    ensures var begun := BeginDelivery(t, s.nextDelivery, session).rows;
            && begun.Keys == s.rows.Keys && begun == s.rows[id := begun[id]]
            && begun[id].state in {Running, Paused}
            && begun[id].attemptsUsed == t.rows[id].attemptsUsed && begun[id].session == s.rows[id].session
  {
    assert CarriesOwnKey(id, s.rows[id]);
    RequeueKeepsSound(s, id, recover, jobId);
    RequeueSends(s, id, recover, jobId);
    BegunRow(t, s.nextDelivery, session, s.rows[id].resumePayload.execution.value);
    RewrittenTwice(s.rows, t.rows, BeginDelivery(t, s.nextDelivery, session).rows, id);
  }

  lemma RewrittenTwice(first: map<RowKey, Row>, second: map<RowKey, Row>, third: map<RowKey, Row>, id: RowKey)
    requires id in first && id in second && id in third
    requires second == first[id := second[id]] && third == second[id := third[id]]
    ensures third.Keys == first.Keys && third == first[id := third[id]]
  {
  }

  /** A delivery added past this module with a tenant and a batch but no context: beginning it opens
      a row, and closing it changes nothing, so the row and the running counter stay open for good. */
  lemma StrayDeliveryIsNeverClosed(s: Store, d: Delivery, session: string, checkpoint: Payload, message: string)
    requires d.payload.execution.None?
    requires HasText(d.payload.Field("tenantId")) && HasText(d.payload.Field("batchId"))
    requires !Halted(s.control, CreateContext(FallbackArgs(d, d.queueName), session).value)
    ensures var context := CreateContext(FallbackArgs(d, d.queueName), session).value;
            var begun := BeginJob(s, d, d.queueName, session).0;
            && begun.rows[RowKeyOf(context)].state == Running
            && CompleteJob(begun, d, checkpoint) == begun
            && FailJob(begun, d, message, checkpoint) == begun
  {
    assert TenantOf(FallbackArgs(d, d.queueName)) == d.payload.Field("tenantId");
    assert BatchOf(FallbackArgs(d, d.queueName)) == d.payload.Field("batchId");
  }
}
