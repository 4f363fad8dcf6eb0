/** The counters against the broker, over every run: broker retries, stalled redeliveries and
    pauses that land while a job runs are all allowed. */
module RuntimeDeliveries {
  import opened Options
  import opened ImportContext
  import opened RuntimeStore
  import opened RuntimeBulk
  import opened RuntimeIdentity
  import opened Counting
  import ImportControl
  import JobKeys

  function For(key: CounterKey): Delivery -> bool {
    (d: Delivery) => d.payload.execution.Some? && CounterKeyOf(d.payload.execution.value) == key
  }

  /** Deliveries begun unpaused and not yet completed or failed. */
  ghost function Held(s: Store, key: CounterKey): nat {
    Count(s.inFlight, For(key))
  }

  ghost function Waiting(s: Store, key: CounterKey): nat {
    Count(s.pending, For(key))
  }

  ghost predicate RunningExact(s: Store) {
    forall key | key in s.counters :: s.counters[key].running == Held(s, key)
  }

  /** Counters not yet created hold nothing. */
  lemma UncountedHoldsNothing(s: Store, key: CounterKey)
    requires Sound(s) && key !in s.counters
    ensures Held(s, key) == 0
  {
    CountNone(s.inFlight, For(key));
  }

  lemma BeginMovesOne(s: Store, n: nat, session: string, key: CounterKey)
    requires Sound(s) && n in s.pending
    ensures var t, d := BeginDelivery(s, n, session), s.pending[n];
            var mine := if For(key)(d) then 1 else 0;
            && Waiting(t, key) == Waiting(s, key) - mine
            && Held(t, key)
              == Held(s, key) + (if mine == 1 && Halted(s.control, d.payload.execution.value) then 0 else mine)
  {
    CountDrop(s.pending, For(key), n);
    CountPut(s.inFlight, For(key), n, s.pending[n]);
    BeginIsBegunAs(s, n, session);
  }

  lemma CloseDropsOne(s: Store, n: nat, key: CounterKey)
    requires n in s.inFlight
    ensures Count(s.inFlight - {n}, For(key)) == Held(s, key) - (if For(key)(s.inFlight[n]) then 1 else 0)
  {
    CountDrop(s.inFlight, For(key), n);
  }

  lemma SendAddsOne(s: Store, d: Delivery, key: CounterKey)
    requires QueueKnown(s.pending, s.nextDelivery, s.rows.Keys)
    ensures Waiting(Send(s, d), key) == Waiting(s, key) + (if For(key)(d) then 1 else 0)
  {
    CountPut(s.pending, For(key), s.nextDelivery, d);
  }

  // ---------------------------------------------------------------- what one step charges

  datatype Charge = NoCharge | Charge(key: CounterKey, delta: Delta)

  function DeliveryCharge(d: Delivery, delta: Delta): Charge {
    if d.payload.execution.Some? then Charge(CounterKeyOf(d.payload.execution.value), delta) else NoCharge
  }

  function BeginDelta(paused: bool): Delta {
    Delta(0, -1, if paused then 0 else 1, if paused then 1 else 0, 0, 0)
  }

  function HomeOf(row: Row): CounterKey {
    CounterKey(row.session, row.worker)
  }

  function RequeueCharge(row: Row, recover: bool): Charge {
    if IsRequeued(row, recover) then Charge(HomeOf(row), RequeueDelta(row.state)) else NoCharge
  }

  /** A refused call has created its counter row and charges nothing to it. */
  function BulkCharge(plan: BulkPlan): Charge {
    match plan
    case NoItems => NoCharge
    case AllUntracked(_) => NoCharge
    case Refused(home) => Charge(home, BulkDelta(0, false))
    case Accepted(entries, home, paused, _) => Charge(home, BulkDelta(|entries|, paused))
  }

  /** The one counter row a step changes, and by how much before clamping. */
  function ChargeOf(s: Store, e: Event): Charge {
    if !Enabled(s, e) then NoCharge else
    match e
    case Enqueue(args, session) =>
      (match CreateContext(args, session)
       case None => NoCharge
       case Some(context) => Charge(CounterKeyOf(context), EnqueueDelta(Halted(s.control, context))))
    case Bulk(bulk, first, sessions) => BulkCharge(PlanBulk(s.control, bulk, first, sessions))
    case Begin(n, _) => DeliveryCharge(s.pending[n],
      BeginDelta(s.pending[n].payload.execution.Some? && Halted(s.control, s.pending[n].payload.execution.value)))
    case Progress(_, _) => NoCharge
    case Complete(n, _) => DeliveryCharge(s.inFlight[n], Delta(0, 0, -1, -1, 1, 0))
    case Fail(n, _, _, _) => DeliveryCharge(s.inFlight[n], Delta(0, 0, -1, 0, 0, 1))
    case Redeliver(_) => NoCharge
    case Requeue(id, recover) => RequeueCharge(s.rows[id], recover)
    case Api(_, _) => NoCharge
  }

  function Charged(counters: map<CounterKey, Counters>, charge: Charge): map<CounterKey, Counters> {
    match charge
    case NoCharge => counters
    case Charge(key, delta) => ApplyDelta(EnsureCounters(counters, key), key, delta)
  }

  lemma EnqueueCharges(s: Store, args: EnqueueArgs, context: Context, jobId: string, paused: bool)
    ensures EnqueueAs(s, args, context, jobId, paused).counters
         == Charged(s.counters, Charge(CounterKeyOf(context), EnqueueDelta(paused)))
  {
  }

  lemma NothingCharged(counters: map<CounterKey, Counters>, key: CounterKey)
    requires key in counters
    ensures ApplyDelta(counters, key, BulkDelta(0, false)) == counters
  {
    var c := counters[key];
    assert Bump(c, BulkDelta(0, false)) == c;
    assert counters[key := c] == counters;
  }

  lemma BulkCharges(s: Store, plan: BulkPlan)
    ensures BulkAfter(s, plan).counters == Charged(s.counters, BulkCharge(plan))
  {
    match plan
    case NoItems =>
    case AllUntracked(_) =>
    case Refused(home) => NothingCharged(EnsureCounters(s.counters, home), home);
    case Accepted(_, _, _, _) =>
  }

  lemma RecordedCharges(s: Store, id: RowKey, recover: bool, jobId: string)
    requires id in s.rows
    ensures RequeueRecorded(s, id, recover, jobId).counters
         == Charged(s.counters, Charge(HomeOf(s.rows[id]), RequeueDelta(s.rows[id].state)))
  {
  }

  lemma RequeueCharges(s: Store, id: RowKey, recover: bool, jobId: string)
    requires id in s.rows
    ensures RequeueAs(s, id, recover, jobId).counters == Charged(s.counters, RequeueCharge(s.rows[id], recover))
  {
    if IsRequeued(s.rows[id], recover) {
      RecordedCharges(s, id, recover, jobId);
    }
  }

  lemma BeginCharges(s: Store, n: nat, session: string)
    requires Sound(s) && n in s.pending
    ensures BeginDelivery(s, n, session).counters == Charged(s.counters, ChargeOf(s, Begin(n, session)))
  {
    BeginContextOfSound(s, n, session);
  }

  lemma CompleteCharges(s: Store, n: nat, checkpoint: Payload)
    requires Sound(s) && n in s.inFlight
    ensures Step(s, Complete(n, checkpoint)).counters == Charged(s.counters, ChargeOf(s, Complete(n, checkpoint)))
  {
    assert n in s.inFlight;
  }

  lemma FailCharges(s: Store, n: nat, message: string, progress: Payload, retry: bool)
    requires Sound(s) && n in s.inFlight
    ensures Step(s, Fail(n, message, progress, retry)).counters
         == Charged(s.counters, ChargeOf(s, Fail(n, message, progress, retry)))
  {
    assert n in s.inFlight;
  }

  lemma EnqueueEventCharges(s: Store, args: EnqueueArgs, session: string)
    ensures Step(s, Enqueue(args, session)).counters == Charged(s.counters, ChargeOf(s, Enqueue(args, session)))
  {
    var derived := CreateContext(args, session);
    if derived.Some? {
      var context, jobId := derived.value, EnqueueJobId(args.opts, derived.value);
      var next := EnqueueAs(s, args, context, jobId, Halted(s.control, context));
      assert Step(s, Enqueue(args, session)) == next;
      EnqueueCharges(s, args, context, jobId, Halted(s.control, context));
    }
  }

  lemma BulkEventCharges(s: Store, e: Event)
    requires e.Bulk? && Enabled(s, e)
    ensures Step(s, e).counters == Charged(s.counters, ChargeOf(s, e))
  {
    var plan := PlanBulk(s.control, e.bulk, e.firstSession, e.sessions);
    assert Step(s, e) == BulkAfter(s, plan) && ChargeOf(s, e) == BulkCharge(plan);
    BulkCharges(s, plan);
  }

  lemma RequeueEventCharges(s: Store, id: RowKey, recover: bool, t: Store)
    requires Enabled(s, Requeue(id, recover)) && t == RequeueRow(s, id, recover)
    ensures t.counters == Charged(s.counters, RequeueCharge(s.rows[id], recover))
  {
    RequeueCharges(s, id, recover, JobKeys.ResumeJobId(id.key, s.rows[id].attemptsUsed + 1));
  }

  /** Every step changes the counters by its one charge. */
  lemma StepCharges(s: Store, e: Event)
    requires Sound(s)
    ensures Step(s, e).counters == Charged(s.counters, ChargeOf(s, e))
  {
    if Enabled(s, e) {
      match e
      case Enqueue(args, session) => EnqueueEventCharges(s, args, session);
      case Bulk(_, _, _) => BulkEventCharges(s, e);
      case Begin(n, session) => BeginCharges(s, n, session);
      case Progress(n, patch) =>
      case Complete(n, checkpoint) => CompleteCharges(s, n, checkpoint);
      case Fail(n, message, progress, retry) => FailCharges(s, n, message, progress, retry);
      case Redeliver(n) =>
      case Requeue(id, recover) => RequeueEventCharges(s, id, recover, RequeueRow(s, id, recover));
      case Api(_, _) =>
    }
  }

  lemma ChargedAt(counters: map<CounterKey, Counters>, charge: Charge, key: CounterKey)
    requires key in Charged(counters, charge)
    ensures Charged(counters, charge)[key]
         == if charge.Charge? && charge.key == key then Bump(Before(counters, key), charge.delta) else counters[key]
    ensures !(charge.Charge? && charge.key == key) ==> key in counters
  {
  }

  /** What a charge takes to the running counter of one row. */
  function RunningOf(charge: Charge, key: CounterKey): int {
    if charge.Charge? && charge.key == key then charge.delta.running else 0
  }

  lemma EnqueueKeepsHeld(s: Store, args: EnqueueArgs, session: string)
    ensures Step(s, Enqueue(args, session)).inFlight == s.inFlight
    ensures forall key :: RunningOf(ChargeOf(s, Enqueue(args, session)), key) == 0
  {
    var derived := CreateContext(args, session);
    if derived.Some? {
      var context := derived.value;
      var next := EnqueueAs(s, args, context, EnqueueJobId(args.opts, context), Halted(s.control, context));
      assert Step(s, Enqueue(args, session)) == next;
    }
  }

  lemma PlanKeepsHeld(s: Store, plan: BulkPlan)
    ensures BulkAfter(s, plan).inFlight == s.inFlight
    ensures BulkCharge(plan).Charge? ==> BulkCharge(plan).delta.running == 0
  {
  }

  lemma BulkKeepsHeld(s: Store, e: Event)
    requires e.Bulk?
    ensures Step(s, e).inFlight == s.inFlight
    ensures forall key :: RunningOf(ChargeOf(s, e), key) == 0
  {
    if Enabled(s, e) {
      var plan := PlanBulk(s.control, e.bulk, e.firstSession, e.sessions);
      assert Step(s, e) == BulkAfter(s, plan) && ChargeOf(s, e) == BulkCharge(plan);
      PlanKeepsHeld(s, plan);
    }
  }

  lemma RequeueAsKeepsHeld(s: Store, id: RowKey, recover: bool, jobId: string)
    requires id in s.rows
    ensures RequeueAs(s, id, recover, jobId).inFlight == s.inFlight
  {
  }

  lemma RequeueKeepsHeld(s: Store, id: RowKey, recover: bool)
    ensures Step(s, Requeue(id, recover)).inFlight == s.inFlight
    ensures forall key :: RunningOf(ChargeOf(s, Requeue(id, recover)), key) == 0
  {
    if Enabled(s, Requeue(id, recover)) {
      RequeueAsKeepsHeld(s, id, recover, JobKeys.ResumeJobId(id.key, s.rows[id].attemptsUsed + 1));
    }
  }

  lemma BeginMovesHeld(s: Store, n: nat, session: string, key: CounterKey)
    requires Sound(s) && n in s.pending
    ensures Held(Step(s, Begin(n, session)), key) == Held(s, key) + RunningOf(ChargeOf(s, Begin(n, session)), key)
  {
    var next := BeginDelivery(s, n, session);
    assert Step(s, Begin(n, session)) == next;
    BeginMovesOne(s, n, session, key);
  }

  lemma CompleteMovesHeld(s: Store, e: Event, key: CounterKey)
    requires e.Complete? && e.delivery in s.inFlight
    ensures Held(Step(s, e), key) == Held(s, key) + RunningOf(ChargeOf(s, e), key)
  {
    assert Step(s, e).inFlight == s.inFlight - {e.delivery};
    CloseDropsOne(s, e.delivery, key);
  }

  lemma FailMovesHeld(s: Store, e: Event, key: CounterKey)
    requires e.Fail? && e.delivery in s.inFlight
    ensures Held(Step(s, e), key) == Held(s, key) + RunningOf(ChargeOf(s, e), key)
  {
    assert Step(s, e).inFlight == s.inFlight - {e.delivery};
    CloseDropsOne(s, e.delivery, key);
  }

  /** How one step moves the deliveries held for a counter row. */
  lemma StepMovesHeld(s: Store, e: Event, key: CounterKey)
    requires Sound(s)
    ensures Held(Step(s, e), key) == Held(s, key) + RunningOf(ChargeOf(s, e), key)
  {
    if Enabled(s, e) {
      match e
      case Enqueue(args, session) => EnqueueKeepsHeld(s, args, session);
      case Bulk(_, _, _) => BulkKeepsHeld(s, e);
      case Begin(n, session) => BeginMovesHeld(s, n, session, key);
      case Progress(_, _) =>
      case Complete(_, _) => CompleteMovesHeld(s, e, key);
      case Fail(_, _, _, _) => FailMovesHeld(s, e, key);
      case Redeliver(_) =>
      case Requeue(id, recover) => RequeueKeepsHeld(s, id, recover);
      case Api(_, _) =>
    }
  }

  lemma RunningExactAt(s: Store, e: Event, key: CounterKey)
    requires Sound(s) && RunningExact(s) && key in Step(s, e).counters
    ensures Step(s, e).counters[key].running == Held(Step(s, e), key)
  {
    if key !in s.counters {
      UncountedHoldsNothing(s, key);
    }
    StepCharges(s, e);
    ChargedAt(s.counters, ChargeOf(s, e), key);
    StepMovesHeld(s, e, key);
  }

  /** The running counter is exact after every step, so its clamp never takes effect. */
  lemma StepKeepsRunningExact(s: Store, e: Event)
    requires Sound(s) && RunningExact(s)
    ensures RunningExact(Step(s, e))
    ensures ChargeOf(s, e).Charge? ==>
              Before(s.counters, ChargeOf(s, e).key).running + ChargeOf(s, e).delta.running >= 0
  {
    var t := Step(s, e);
    forall key | key in t.counters ensures t.counters[key].running == Held(t, key) {
      RunningExactAt(s, e, key);
    }
    if ChargeOf(s, e).Charge? {
      if ChargeOf(s, e).key !in s.counters {
        UncountedHoldsNothing(s, ChargeOf(s, e).key);
      }
      StepMovesHeld(s, e, ChargeOf(s, e).key);
    }
  }

  /** Over every run, the running counter of each session and worker is the number of deliveries
      begun unpaused and not yet completed or failed. */
  lemma {:induction false} RunningIsExact(s: Store, events: seq<Event>)
    requires Sound(s) && RunningExact(s) && ProperRun(s, events)
    ensures RunningExact(Run(s, events))
    decreases |events|
  {
    if events != [] {
      StepKeepsSound(s, events[0]);
      StepKeepsRunningExact(s, events[0]);
      RunningIsExact(Step(s, events[0]), events[1..]);
    }
  }

  // ---------------------------------------------------------------- the queued counter

  ghost predicate QueuedBounded(s: Store) {
    forall key | key in s.counters :: s.counters[key].queued <= Waiting(s, key)
  }

  /** Rows and deliveries agree on the session, so a requeue is charged where its delivery counts. */
  predicate AtHome(row: Row) {
    row.resumePayload.execution.Some? && HomeOf(row) == CounterKeyOf(row.resumePayload.execution.value)
  }

  predicate SameSession(rows: map<RowKey, Row>, d: Delivery) {
    d.payload.execution.Some? ==>
      var context := d.payload.execution.value;
      RowKeyOf(context) in rows && rows[RowKeyOf(context)].session == context.sessionId
  }

  ghost predicate Homed(s: Store) {
    && (forall id | id in s.rows :: AtHome(s.rows[id]))
    && (forall n | n in s.pending :: SameSession(s.rows, s.pending[n]))
    && (forall n | n in s.inFlight :: SameSession(s.rows, s.inFlight[n]))
  }

  /** Entries whose row exists name its session and worker. */
  ghost predicate FitsRows(rows: map<RowKey, Row>, entries: seq<Entry>) {
    forall e | e in entries && RowKeyOf(e.context) in rows ::
      HomeOf(rows[RowKeyOf(e.context)]) == CounterKeyOf(e.context)
  }

  /** A key is never enqueued again under another session, and a bulk call keeps to the session and
      worker it charges. */
  ghost predicate KeepsSession(s: Store, e: Event) {
    match e
    case Enqueue(args, session) =>
      CreateContext(args, session).Some? ==>
        var context := CreateContext(args, session).value;
        RowKeyOf(context) in s.rows ==> s.rows[RowKeyOf(context)].session == context.sessionId
    case Bulk(bulk, first, sessions) =>
      Enabled(s, e) && PlanBulk(s.control, bulk, first, sessions).Accepted? ==>
        var plan := PlanBulk(s.control, bulk, first, sessions);
        SameHome(plan.entries, plan.home) && FitsRows(s.rows, plan.entries)
    case _ => true
  }

  ghost predicate OneSessionRun(s: Store, events: seq<Event>)
    decreases |events|
  {
    events == [] || (KeepsSession(s, events[0]) && OneSessionRun(Step(s, events[0]), events[1..]))
  }

  lemma SessionsKept(before: map<RowKey, Row>, after: map<RowKey, Row>, queue: map<nat, Delivery>)
    requires forall n | n in queue :: SameSession(before, queue[n])
    requires forall id | id in before :: id in after && after[id].session == before[id].session
    ensures forall n | n in queue :: SameSession(after, queue[n])
  {
  }

  lemma UpsertKeepsHome(s: Store, w: Write)
    requires Homed(s)
    requires w.resumePayload.execution == Some(w.context)
    requires RowKeyOf(w.context) in s.rows ==> s.rows[RowKeyOf(w.context)].session == w.context.sessionId
    ensures Homed(s.(rows := Upsert(s.rows, w)))
    ensures SameSession(Upsert(s.rows, w), Delivery("", "", w.resumePayload, None, 0))
  {
    SessionsKept(s.rows, Upsert(s.rows, w), s.pending);
    SessionsKept(s.rows, Upsert(s.rows, w), s.inFlight);
  }

  lemma RowChangeKeepsHome(s: Store, id: RowKey, row: Row)
    requires Homed(s) && AtHome(row) && (id in s.rows ==> row.session == s.rows[id].session)
    ensures Homed(s.(rows := s.rows[id := row]))
  {
    SessionsKept(s.rows, s.rows[id := row], s.pending);
    SessionsKept(s.rows, s.rows[id := row], s.inFlight);
  }

  lemma EnqueueKeepsHome(s: Store, args: EnqueueArgs, context: Context, jobId: string, paused: bool)
    requires Homed(s)
    requires RowKeyOf(context) in s.rows ==> s.rows[RowKeyOf(context)].session == context.sessionId
    ensures Homed(EnqueueAs(s, args, context, jobId, paused))
  {
    UpsertKeepsHome(s, EnqueueWrite(args, context, paused, jobId));
  }

  lemma InsertedRowIsHome(rows: map<RowKey, Row>, e: Entry, paused: bool)
    requires FitsRows(rows, [e])
    ensures var id, row := RowKeyOf(e.context), BulkRow(rows, e, paused);
            && AtHome(row) && row.session == e.context.sessionId
            && (id in rows ==> row.session == rows[id].session)
  {
    assert e in [e];
  }

  lemma InsertOneKeepsHome(s: Store, e: Entry, paused: bool)
    requires Homed(s) && FitsRows(s.rows, [e])
    ensures Homed(InsertOne(s, e, paused))
  {
    InsertedRowIsHome(s.rows, e, paused);
    RowChangeKeepsHome(s, RowKeyOf(e.context), BulkRow(s.rows, e, paused));
  }

  lemma {:induction false} InsertEachKeepsHome(s: Store, entries: seq<Entry>, paused: bool)
    requires Homed(s) && FitsRows(s.rows, entries) && !KeyTwice(entries)
    ensures Homed(InsertEach(s, entries, paused))
    decreases |entries|
  {
    if entries != [] {
      assert entries[0] in entries;
      InsertOneKeepsHome(s, entries[0], paused);
      forall e | e in entries[1..] ensures e in entries && RowKeyOf(e.context) != RowKeyOf(entries[0].context) {
        var j :| 1 <= j < |entries| && entries[j] == e;
      }
      TailNamesOnce(entries);
      InsertEachKeepsHome(InsertOne(s, entries[0], paused), entries[1..], paused);
    }
  }

  lemma BulkKeepsHome(s: Store, entries: seq<Entry>, home: CounterKey, paused: bool)
    requires Homed(s) && FitsRows(s.rows, entries) && !KeyTwice(entries)
    ensures Homed(BulkApply(s, entries, home, paused))
  {
    BulkIsInsertEach(s, entries, home, paused);
    InsertEachKeepsHome(BulkCounted(s, |entries|, home, paused), entries, paused);
  }

  /** Exactly: a bulk insert keeps rows and deliveries at home if and only if no entry names another
      session or worker than its stored row. */
  lemma BulkKeepsHomeIff(s: Store, entries: seq<Entry>, home: CounterKey, paused: bool)
    requires Homed(s) && !KeyTwice(entries)
    ensures Homed(BulkApply(s, entries, home, paused)) <==> FitsRows(s.rows, entries)
  {
    if FitsRows(s.rows, entries) {
      BulkKeepsHome(s, entries, home, paused);
    } else {
      var e :| e in entries && RowKeyOf(e.context) in s.rows
        && HomeOf(s.rows[RowKeyOf(e.context)]) != CounterKeyOf(e.context);
      InsertedAt(s.rows, entries, paused, e);
      assert !AtHome(BulkApply(s, entries, home, paused).rows[RowKeyOf(e.context)]);
    }
  }

  lemma RequeueKeepsHome(s: Store, id: RowKey, recover: bool, jobId: string)
    requires Homed(s) && Sound(s) && id in s.rows
    ensures Homed(RequeueAs(s, id, recover, jobId))
  {
    var row := s.rows[id];
    assert CarriesOwnKey(id, row);
    if IsRequeued(row, recover) {
      RowChangeKeepsHome(s, id, RequeuedRow(row, recover, jobId));
      SentKeepsHome(RequeueRecorded(s, id, recover, jobId), ResumeDelivery(row, jobId));
    } else {
      RowChangeKeepsHome(s, id, row.(state := TerminalErrorSkipped));
    }
  }

  lemma SentKeepsHome(s: Store, d: Delivery)
    requires Homed(s) && SameSession(s.rows, d)
    ensures Homed(Send(s, d))
  {
  }

  lemma BeginKeepsHome(s: Store, n: nat, session: string)
    requires Homed(s) && Sound(s) && n in s.pending
    ensures Homed(BeginDelivery(s, n, session))
  {
    BeginIsBegunAs(s, n, session);
    var d := s.pending[n];
    assert SameSession(s.rows, d);
    if d.payload.execution.Some? {
      var context := d.payload.execution.value;
      UpsertKeepsHome(s, BeginWrite(d, context, Halted(s.control, context)));
    }
  }

  lemma HeldWriteKeepsHome(s: Store, n: nat, w: Write)
    requires Homed(s) && n in s.inFlight && s.inFlight[n].payload.execution == Some(w.context)
    requires w.resumePayload.execution == Some(w.context)
    ensures Homed(s.(rows := Upsert(s.rows, w)))
    ensures Homed(s.(inFlight := s.inFlight - {n}, rows := Upsert(s.rows, w)))
    ensures Homed(Send(s.(inFlight := s.inFlight - {n}, rows := Upsert(s.rows, w)), s.inFlight[n]))
  {
    assert SameSession(s.rows, s.inFlight[n]);
    UpsertKeepsHome(s, w);
  }

  lemma ProgressKeepsHome(s: Store, n: nat, patch: Patch)
    requires Homed(s) && n in s.inFlight && Proper(s, Progress(n, patch))
    ensures Homed(Step(s, Progress(n, patch)))
  {
    var d := s.inFlight[n];
    if d.payload.execution.Some? {
      HeldWriteKeepsHome(s, n, ProgressWrite(s.control, d, d.payload.execution.value, patch));
    }
  }

  lemma CompleteKeepsHome(s: Store, n: nat, checkpoint: Payload)
    requires Homed(s) && n in s.inFlight
    ensures Homed(Step(s, Complete(n, checkpoint)))
  {
    var d := s.inFlight[n];
    if d.payload.execution.Some? {
      HeldWriteKeepsHome(s, n, CloseWrite(d, d.payload.execution.value, Completed, checkpoint, None));
    }
  }

  lemma FailKeepsHome(s: Store, n: nat, message: string, progress: Payload, retry: bool)
    requires Homed(s) && n in s.inFlight
    ensures Homed(Step(s, Fail(n, message, progress, retry)))
  {
    var d := s.inFlight[n];
    assert SameSession(s.rows, d);
    if d.payload.execution.Some? {
      HeldWriteKeepsHome(s, n, FailWrite(d, d.payload.execution.value, message, progress));
    }
  }

  lemma EnqueueEventKeepsHome(s: Store, args: EnqueueArgs, session: string)
    requires Homed(s) && Proper(s, Enqueue(args, session)) && KeepsSession(s, Enqueue(args, session))
    ensures Homed(Step(s, Enqueue(args, session)))
  {
    var derived := CreateContext(args, session);
    if derived.Some? {
      var context, jobId := derived.value, EnqueueJobId(args.opts, derived.value);
      var next := EnqueueAs(s, args, context, jobId, Halted(s.control, context));
      assert Step(s, Enqueue(args, session)) == next;
      EnqueueKeepsHome(s, args, context, jobId, Halted(s.control, context));
    } else {
      assert SameSession(s.rows, UntrackedDelivery(args)) by { assert args.payload.execution.None?; }
    }
  }

  lemma {:induction false} SendAllKeepsHome(s: Store, deliveries: seq<Delivery>)
    requires Homed(s) && forall d | d in deliveries :: Untracked(d.payload)
    ensures Homed(SendAll(s, deliveries))
    decreases |deliveries|
  {
    if deliveries == [] {
      assert SendAll(s, deliveries) == s;
    } else {
      assert Untracked(deliveries[0].payload);
      assert SameSession(s.rows, deliveries[0]);
      SendAllKeepsHome(Send(s, deliveries[0]), deliveries[1..]);
      assert SendAll(s, deliveries) == SendAll(Send(s, deliveries[0]), deliveries[1..]);
    }
  }

  lemma PlanKeepsHome(s: Store, plan: BulkPlan)
    requires Homed(s) && (plan.AllUntracked? ==> forall d | d in plan.deliveries :: Untracked(d.payload))
    requires plan.Accepted? ==> FitsRows(s.rows, plan.entries) && !KeyTwice(plan.entries)
    ensures Homed(BulkAfter(s, plan))
  {
    match plan
    case NoItems =>
    case AllUntracked(deliveries) => SendAllKeepsHome(s, deliveries);
    case Refused(home) =>
    case Accepted(entries, home, paused, _) => BulkKeepsHome(s, entries, home, paused);
  }

  lemma BulkEventKeepsHome(s: Store, e: Event)
    requires Homed(s) && e.Bulk? && Enabled(s, e) && Proper(s, e) && KeepsSession(s, e)
    ensures Homed(Step(s, e))
  {
    var plan := PlanBulk(s.control, e.bulk, e.firstSession, e.sessions);
    assert Step(s, e) == BulkAfter(s, plan);
    PlanKeepsHome(s, plan);
  }

  lemma RequeueEventKeepsHome(s: Store, id: RowKey, recover: bool)
    requires Homed(s) && Sound(s) && Enabled(s, Requeue(id, recover))
    ensures Homed(Step(s, Requeue(id, recover)))
  {
    var jobId := JobKeys.ResumeJobId(id.key, s.rows[id].attemptsUsed + 1);
    var next := RequeueAs(s, id, recover, jobId);
    assert Step(s, Requeue(id, recover)) == next;
    RequeueKeepsHome(s, id, recover, jobId);
  }

  lemma StepKeepsHome(s: Store, e: Event)
    requires Homed(s) && Sound(s) && Proper(s, e) && KeepsSession(s, e)
    ensures Homed(Step(s, e))
  {
    if Enabled(s, e) {
      match e
      case Enqueue(args, session) => EnqueueEventKeepsHome(s, args, session);
      case Bulk(_, _, _) => BulkEventKeepsHome(s, e);
      case Begin(n, session) => BeginKeepsHome(s, n, session);
      case Progress(n, patch) => ProgressKeepsHome(s, n, patch);
      case Complete(n, checkpoint) => CompleteKeepsHome(s, n, checkpoint);
      case Fail(n, message, progress, retry) => FailKeepsHome(s, n, message, progress, retry);
      case Redeliver(n) => assert SameSession(s.rows, s.inFlight[n]);
      case Requeue(id, recover) => RequeueEventKeepsHome(s, id, recover);
      case Api(_, _) =>
    }
  }

  /** The session premise, exactly: an enqueue keeps rows and deliveries at home if and only if its
      key is new or was enqueued under the same session before. */
  lemma EnqueueKeepsHomeIff(s: Store, args: EnqueueArgs, context: Context, jobId: string)
    requires Homed(s)
    ensures Homed(EnqueueTracked(s, args, context, jobId))
       <==> (RowKeyOf(context) in s.rows ==> s.rows[RowKeyOf(context)].session == context.sessionId)
  {
    var id := RowKeyOf(context);
    if id in s.rows && s.rows[id].session != context.sessionId {
      var row := EnqueueTracked(s, args, context, jobId).rows[id];
      assert row.session == s.rows[id].session && row.resumePayload.execution == Some(context);
      assert !AtHome(row);
    } else {
      EnqueueKeepsHome(s, args, context, jobId, Halted(s.control, context));
    }
  }

  /** What a charge takes to the queued counter of one row. */
  function QueuedOf(charge: Charge, key: CounterKey): int {
    if charge.Charge? && charge.key == key then charge.delta.queued else 0
  }

  lemma EnqueueMovesWaiting(s: Store, args: EnqueueArgs, context: Context, jobId: string, paused: bool, key: CounterKey)
    requires Sound(s)
    ensures Waiting(EnqueueAs(s, args, context, jobId, paused), key)
         == Waiting(s, key) + (if CounterKeyOf(context) == key && !paused then 1 else 0)
  {
    CountPut(s.pending, For(key), s.nextDelivery, EnqueueDelivery(args, context, jobId));
  }

  lemma EnqueueEventMovesWaiting(s: Store, args: EnqueueArgs, session: string, key: CounterKey)
    requires Sound(s)
    ensures Waiting(Step(s, Enqueue(args, session)), key)
         >= Waiting(s, key) + QueuedOf(ChargeOf(s, Enqueue(args, session)), key)
  {
    var derived := CreateContext(args, session);
    if derived.Some? {
      var context, jobId := derived.value, EnqueueJobId(args.opts, derived.value);
      var next := EnqueueAs(s, args, context, jobId, Halted(s.control, context));
      assert Step(s, Enqueue(args, session)) == next;
      EnqueueMovesWaiting(s, args, context, jobId, Halted(s.control, context), key);
    } else {
      SendAddsOne(s, UntrackedDelivery(args), key);
    }
  }

  lemma InsertOneMovesWaiting(s: Store, e: Entry, paused: bool, key: CounterKey)
    requires Sound(s)
    ensures Waiting(InsertOne(s, e, paused), key)
         == Waiting(s, key) + (if CounterKeyOf(e.context) == key && !paused then 1 else 0)
  {
    CountPut(s.pending, For(key), s.nextDelivery,
             EnqueueDelivery(e.args, e.context, EnqueueJobId(e.args.opts, e.context)));
  }

  lemma {:induction false} InsertEachMovesWaiting(s: Store, entries: seq<Entry>, paused: bool, key: CounterKey)
    requires Sound(s)
    ensures Waiting(InsertEach(s, entries, paused), key)
        == Waiting(s, key) + (if paused then 0 else Homes(entries, key))
    decreases |entries|
  {
    if entries != [] {
      InsertOneKeepsSound(s, entries[0], paused);
      InsertOneMovesWaiting(s, entries[0], paused, key);
      InsertEachMovesWaiting(InsertOne(s, entries[0], paused), entries[1..], paused, key);
    }
  }

  /** A bulk call adds, for each session and worker, the deliveries of the entries that name it. */
  lemma BulkMovesWaiting(s: Store, entries: seq<Entry>, home: CounterKey, paused: bool, key: CounterKey)
    requires Sound(s)
    ensures Waiting(BulkApply(s, entries, home, paused), key)
        == Waiting(s, key) + (if paused then 0 else Homes(entries, key))
  {
    var counted := BulkCounted(s, |entries|, home, paused);
    BulkIsInsertEach(s, entries, home, paused);
    DeltaKeys(s.counters, home, BulkDelta(|entries|, paused));
    GrowthKeepsSound(s, counted);
    InsertEachMovesWaiting(counted, entries, paused, key);
  }

  lemma {:induction false} SendAllMovesWaiting(s: Store, deliveries: seq<Delivery>, key: CounterKey)
    requires Sound(s) && forall d | d in deliveries :: Untracked(d.payload)
    ensures Waiting(SendAll(s, deliveries), key) == Waiting(s, key)
    decreases |deliveries|
  {
    if deliveries == [] {
      assert SendAll(s, deliveries) == s;
    } else {
      assert Untracked(deliveries[0].payload);
      SendAddsOne(s, deliveries[0], key);
      SendKeepsSound(s, deliveries[0]);
      SendAllMovesWaiting(Send(s, deliveries[0]), deliveries[1..], key);
      assert SendAll(s, deliveries) == SendAll(Send(s, deliveries[0]), deliveries[1..]);
    }
  }

  lemma BeginEventMovesWaiting(s: Store, n: nat, session: string, key: CounterKey)
    requires Sound(s) && n in s.pending
    ensures Waiting(Step(s, Begin(n, session)), key) >= Waiting(s, key) + QueuedOf(ChargeOf(s, Begin(n, session)), key)
  {
    var next := BeginDelivery(s, n, session);
    assert Step(s, Begin(n, session)) == next;
    BeginMovesOne(s, n, session, key);
  }

  lemma FailMovesWaiting(s: Store, e: Event, key: CounterKey)
    requires e.Fail? && e.delivery in s.inFlight && QueueKnown(s.pending, s.nextDelivery, s.rows.Keys)
    ensures Waiting(Step(s, e), key) >= Waiting(s, key) && QueuedOf(ChargeOf(s, e), key) == 0
  {
    CountPut(s.pending, For(key), s.nextDelivery, s.inFlight[e.delivery]);
  }

  lemma RedeliverMovesWaiting(s: Store, n: nat, key: CounterKey)
    requires n in s.inFlight && QueueKnown(s.pending, s.nextDelivery, s.rows.Keys)
    ensures Waiting(Step(s, Redeliver(n)), key) >= Waiting(s, key)
  {
    SendAddsOne(s, s.inFlight[n], key);
  }

  /** Any step but a bulk call or a resume adds at least as many waiting deliveries as it charges to the
      queued counter. */
  lemma StepMovesWaiting(s: Store, e: Event, key: CounterKey)
    requires Sound(s) && !e.Bulk? && !e.Requeue?
    ensures Waiting(Step(s, e), key) >= Waiting(s, key) + QueuedOf(ChargeOf(s, e), key)
  {
    if Enabled(s, e) {
      match e
      case Enqueue(args, session) => EnqueueEventMovesWaiting(s, args, session, key);
      case Begin(n, session) => BeginEventMovesWaiting(s, n, session, key);
      case Progress(_, _) =>
      case Complete(_, _) =>
      case Fail(_, _, _, _) => FailMovesWaiting(s, e, key);
      case Redeliver(n) => RedeliverMovesWaiting(s, n, key);
      case Api(_, _) =>
    }
  }

  lemma RequeueMovesWaiting(s: Store, id: RowKey, recover: bool, jobId: string, key: CounterKey)
    requires Sound(s) && id in s.rows
    ensures Waiting(RequeueAs(s, id, recover, jobId), key)
         == Waiting(s, key)
           + (if IsRequeued(s.rows[id], recover) && CounterKeyOf(s.rows[id].resumePayload.execution.value) == key
              then 1 else 0)
  {
    CountPut(s.pending, For(key), s.nextDelivery, ResumeDelivery(s.rows[id], jobId));
  }

  // ---------------------------------------------------------------- when the bound holds

  ghost predicate BoundedAt(s: Store, key: CounterKey) {
    key in s.counters ==> s.counters[key].queued <= Waiting(s, key)
  }

  /** A charge that queues one more under `home` asks for one more waiting delivery there. */
  lemma OneMoreQueuedAt(counters: map<CounterKey, Counters>, home: CounterKey, d: Delta, key: CounterKey)
    requires d.queued == 1 && key in Charged(counters, Charge(home, d))
    ensures Charged(counters, Charge(home, d))[key].queued
        == Before(counters, key).queued + (if key == home then 1 else 0)
  {
    ChargedAt(counters, Charge(home, d), key);
  }

  lemma RequeueBoundAt(s: Store, id: RowKey, recover: bool, jobId: string, key: CounterKey)
    requires Sound(s) && BoundedAt(s, key) && id in s.rows
    ensures var row := s.rows[id];
            var strays := IsRequeued(row, recover) && !AtHome(row) && key == HomeOf(row);
            BoundedAt(RequeueAs(s, id, recover, jobId), key) <==>
              (strays ==> Before(s.counters, key).queued < Waiting(s, key))
  {
    var row, t := s.rows[id], RequeueAs(s, id, recover, jobId);
    assert CarriesOwnKey(id, row);
    RequeueCharges(s, id, recover, jobId);
    RequeueMovesWaiting(s, id, recover, jobId, key);
    if IsRequeued(row, recover) {
      DeltaKeys(s.counters, HomeOf(row), RequeueDelta(row.state));
      if key in t.counters {
        OneMoreQueuedAt(s.counters, HomeOf(row), RequeueDelta(row.state), key);
      }
    }
  }

  /** A requeue keeps the bound if and only if it sends nothing, or the row is at home, or the counter
      it charges has a waiting delivery to spare. */
  lemma RequeueKeepsBoundIff(s: Store, id: RowKey, recover: bool, jobId: string)
    requires Sound(s) && QueuedBounded(s) && id in s.rows
    ensures QueuedBounded(RequeueAs(s, id, recover, jobId)) <==>
      (IsRequeued(s.rows[id], recover) && !AtHome(s.rows[id]) ==>
        Before(s.counters, HomeOf(s.rows[id])).queued < Waiting(s, HomeOf(s.rows[id])))
  {
    var t, home := RequeueAs(s, id, recover, jobId), HomeOf(s.rows[id]);
    var spare := IsRequeued(s.rows[id], recover) && !AtHome(s.rows[id])
      ==> Before(s.counters, home).queued < Waiting(s, home);
    forall key ensures BoundedAt(t, key) <==> (key == home ==> spare) {
      RequeueBoundAt(s, id, recover, jobId, key);
    }
    BoundedIffAt(t, home, spare);
  }

  lemma BulkBoundAt(s: Store, entries: seq<Entry>, home: CounterKey, paused: bool, key: CounterKey)
    requires Sound(s) && BoundedAt(s, key)
    ensures BoundedAt(BulkApply(s, entries, home, paused), key) <==>
      (key == home && !paused ==>
        Before(s.counters, home).queued + |entries| <= Waiting(s, home) + Homes(entries, home))
  {
    BulkMovesWaiting(s, entries, home, paused, key);
  }

  /** If one key's bound hangs on a condition and the others hold, so does the whole. */
  lemma BoundedIffAt(t: Store, home: CounterKey, condition: bool)
    requires forall key :: BoundedAt(t, key) <==> (key == home ==> condition)
    ensures QueuedBounded(t) <==> condition
  {
    if QueuedBounded(t) {
      assert BoundedAt(t, home);
    }
    if condition {
      forall key | key in t.counters ensures t.counters[key].queued <= Waiting(t, key) {
        assert BoundedAt(t, key);
      }
    }
  }

  /** A bulk call keeps the bound if and only if it is paused, or the deliveries it adds for its own
      session and worker, with those to spare, cover the whole charge. */
  lemma BulkKeepsBoundIff(s: Store, entries: seq<Entry>, home: CounterKey, paused: bool)
    requires Sound(s) && QueuedBounded(s)
    ensures QueuedBounded(BulkApply(s, entries, home, paused))
       <==> paused || Before(s.counters, home).queued + |entries| <= Waiting(s, home) + Homes(entries, home)
  {
    var t := BulkApply(s, entries, home, paused);
    var covered := paused || Before(s.counters, home).queued + |entries| <= Waiting(s, home) + Homes(entries, home);
    forall key ensures BoundedAt(t, key) <==> (key == home ==> covered) {
      BulkBoundAt(s, entries, home, paused, key);
    }
    BoundedIffAt(t, home, covered);
  }

  /** Where the counter has nothing to spare, that means: paused, or every entry has the session and
      worker the call charges. */
  lemma TightBulkKeepsBoundIff(s: Store, entries: seq<Entry>, home: CounterKey, paused: bool)
    requires Sound(s) && QueuedBounded(s) && Before(s.counters, home).queued == Waiting(s, home)
    ensures QueuedBounded(BulkApply(s, entries, home, paused)) <==> paused || SameHome(entries, home)
  {
    BulkKeepsBoundIff(s, entries, home, paused);
    HomesAtMost(entries, home);
  }

  /** The queued counter of the row a step charges has room for what the step does not send there: only
      bulk calls and resumes may need it. */
  ghost predicate HasRoom(s: Store, e: Event) {
    match e
    case Bulk(bulk, first, sessions) =>
      Enabled(s, e) ==> PlanHasRoom(s, PlanBulk(s.control, bulk, first, sessions))
    case Requeue(id, recover) =>
      Enabled(s, e) && IsRequeued(s.rows[id], recover) && !AtHome(s.rows[id]) ==>
        Before(s.counters, HomeOf(s.rows[id])).queued < Waiting(s, HomeOf(s.rows[id]))
    case _ => true
  }

  ghost predicate PlanHasRoom(s: Store, plan: BulkPlan) {
    plan.Accepted? && !plan.paused ==>
      Before(s.counters, plan.home).queued + |plan.entries| <= Waiting(s, plan.home) + Homes(plan.entries, plan.home)
  }

  lemma PlanKeepsBoundIff(s: Store, plan: BulkPlan)
    requires Sound(s) && QueuedBounded(s)
    requires plan.AllUntracked? ==> forall d | d in plan.deliveries :: Untracked(d.payload)
    ensures QueuedBounded(BulkAfter(s, plan)) <==> PlanHasRoom(s, plan)
  {
    match plan
    case NoItems =>
    case AllUntracked(deliveries) =>
      forall key | key in s.counters ensures s.counters[key].queued <= Waiting(SendAll(s, deliveries), key) {
        SendAllMovesWaiting(s, deliveries, key);
      }
    case Refused(home) =>
    case Accepted(entries, home, paused, _) => BulkKeepsBoundIff(s, entries, home, paused);
  }

  lemma BulkEventKeepsBoundIff(s: Store, e: Event)
    requires Sound(s) && QueuedBounded(s) && Proper(s, e) && e.Bulk? && Enabled(s, e)
    ensures QueuedBounded(Step(s, e)) <==> HasRoom(s, e)
  {
    var plan := PlanBulk(s.control, e.bulk, e.firstSession, e.sessions);
    assert Step(s, e) == BulkAfter(s, plan);
    PlanKeepsBoundIff(s, plan);
  }

  lemma RequeueEventKeepsBoundIff(s: Store, id: RowKey, recover: bool)
    requires Sound(s) && QueuedBounded(s) && Enabled(s, Requeue(id, recover))
    ensures QueuedBounded(Step(s, Requeue(id, recover))) <==> HasRoom(s, Requeue(id, recover))
  {
    var jobId := JobKeys.ResumeJobId(id.key, s.rows[id].attemptsUsed + 1);
    var next := RequeueAs(s, id, recover, jobId);
    assert Step(s, Requeue(id, recover)) == next;
    RequeueKeepsBoundIff(s, id, recover, jobId);
  }

  /** A charge covered by the deliveries it comes with keeps the bound. */
  lemma CoveredChargeAt(s: Store, t: Store, charge: Charge, key: CounterKey)
    requires BoundedAt(s, key) && t.counters == Charged(s.counters, charge)
    requires Waiting(t, key) >= Waiting(s, key) + QueuedOf(charge, key)
    ensures BoundedAt(t, key)
  {
    if key in t.counters {
      ChargedAt(s.counters, charge, key);
    }
  }

  lemma OtherStepKeepsBound(s: Store, e: Event, t: Store)
    requires Sound(s) && QueuedBounded(s) && !e.Bulk? && !e.Requeue? && t == Step(s, e)
    ensures QueuedBounded(t)
  {
    StepCharges(s, e);
    forall key | key in t.counters ensures t.counters[key].queued <= Waiting(t, key) {
      StepMovesWaiting(s, e, key);
      CoveredChargeAt(s, t, ChargeOf(s, e), key);
    }
  }

  /** Exactly: a step keeps the queued counters within the waiting deliveries if and only if the row it
      charges has room. */
  lemma StepKeepsBoundIff(s: Store, e: Event)
    requires Sound(s) && QueuedBounded(s) && Proper(s, e)
    ensures QueuedBounded(Step(s, e)) <==> HasRoom(s, e)
  {
    if Enabled(s, e) {
      match e
      case Bulk(_, _, _) => BulkEventKeepsBoundIff(s, e);
      case Requeue(id, recover) => RequeueEventKeepsBoundIff(s, id, recover);
      case _ => OtherStepKeepsBound(s, e, Step(s, e));
    }
  }

  /** With rows and deliveries at home, a step that keeps to its session needs no room. */
  lemma SteadyStepHasRoom(s: Store, e: Event)
    requires Homed(s) && QueuedBounded(s) && KeepsSession(s, e)
    ensures HasRoom(s, e)
  {
    if e.Bulk? && Enabled(s, e) {
      var plan := PlanBulk(s.control, e.bulk, e.firstSession, e.sessions);
      if plan.Accepted? {
        HomesAtMost(plan.entries, plan.home);
      }
    }
  }

  /** Over every run that keeps each key in one session, the queued counter never exceeds the
      waiting deliveries. */
  lemma {:induction false} QueuedIsBounded(s: Store, events: seq<Event>)
    requires Sound(s) && Homed(s) && QueuedBounded(s) && ProperRun(s, events) && OneSessionRun(s, events)
    ensures QueuedBounded(Run(s, events))
    decreases |events|
  {
    if events != [] {
      var e := events[0];
      StepKeepsSound(s, e);
      StepKeepsHome(s, e);
      SteadyStepHasRoom(s, e);
      StepKeepsBoundIff(s, e);
      QueuedIsBounded(Step(s, e), events[1..]);
    }
  }

  // ---------------------------------------------------------------- a run that breaks it

  /** A context carried by a payload, for the session given. */
  function CarriedContext(session: string): Context {
    Context("t", "b", session, "k", None, None, None, "w", "s", None, None, None)
  }

  function CarryingArgs(session: string): EnqueueArgs {
    EnqueueArgs("q", "j", Payload(map[], Some(CarriedContext(session))), JobOptions(None, 1), None, None, None, None,
                None, None, None, None, None, None)
  }

  /** The batch of those contexts, paused. */
  function PausedControl(): ImportControl.Control {
    ImportControl.Control(map[], map[ImportControl.BatchKey("t", "b") := ImportControl.Batch(ImportControl.Processing,
      map[ImportControl.CONTROL_KEY := ImportControl.Obj(map["batchPaused" := ImportControl.Bool(true)])])])
  }

  /** The premises of the next lemma are met by two such payloads. */
  lemma SecondSessionArises()
    ensures var x, y := CarriedContext("first"), CarriedContext("second");
            && CreateContext(CarryingArgs("first"), "") == Some(x)
            && CreateContext(CarryingArgs("second"), "") == Some(y)
            && RowKeyOf(x) == RowKeyOf(y) && x.workerName == y.workerName && x.sessionId != y.sessionId
            && Halted(PausedControl(), x) && Halted(PausedControl(), y)
  {
    assert 's' in "s" && !Blank("s");
    assert "first"[0] != "second"[0];
  }

  /** Without it the bound fails: one key enqueued under two sessions of a paused batch, then
      resumed, leaves a queued job in the first session and no delivery for it. */
  lemma SecondSessionOvercounts(control: ImportControl.Control, a: EnqueueArgs, x: Context, b: EnqueueArgs, y: Context)
    requires CreateContext(a, "") == Some(x) && CreateContext(b, "") == Some(y)
    requires RowKeyOf(x) == RowKeyOf(y) && x.workerName == y.workerName && x.sessionId != y.sessionId
    requires Halted(control, x) && Halted(control, y)
    ensures var s := Run(Initial(control), [Enqueue(a, ""), Enqueue(b, ""), Requeue(RowKeyOf(x), false)]);
            && CounterKeyOf(x) in s.counters
            && s.counters[CounterKeyOf(x)].queued == 1 && Waiting(s, CounterKeyOf(x)) == 0
  {
    var s0 := Initial(control);
    CountNone(s0.pending, For(CounterKeyOf(x)));
    var s2 := TwoPausedEnqueues(s0, a, x, EnqueueJobId(a.opts, x), b, y, EnqueueJobId(b.opts, y));
    ThreeSteps(s0, Enqueue(a, ""), Enqueue(b, ""), Requeue(RowKeyOf(x), false));
    assert Step(Step(s0, Enqueue(a, "")), Enqueue(b, "")) == s2;
    RequeueOfPaused(s2, RowKeyOf(x), CounterKeyOf(x));
  }

  lemma TwoPausedEnqueues(s: Store, a: EnqueueArgs, x: Context, idA: string, b: EnqueueArgs, y: Context, idB: string)
    returns (t: Store)
    requires Sound(s) && RowKeyOf(x) !in s.rows && CounterKeyOf(x) !in s.counters && Waiting(s, CounterKeyOf(x)) == 0
    requires RowKeyOf(x) == RowKeyOf(y) && x.workerName == y.workerName && x.sessionId != y.sessionId
    requires Halted(s.control, x) && Halted(s.control, y)
    ensures t == EnqueueTracked(EnqueueTracked(s, a, x, idA), b, y, idB)
    ensures Sound(t) && RowKeyOf(x) in t.rows && CounterKeyOf(x) in t.counters
    ensures var row := t.rows[RowKeyOf(x)];
            && row.state == Paused && row.worker == x.workerName
            && row.session == x.sessionId && row.resumePayload.execution == Some(y)
    ensures t.counters[CounterKeyOf(x)].queued == 0 && Waiting(t, CounterKeyOf(x)) == 0
  {
    var s1 := EnqueueTracked(s, a, x, idA);
    t := EnqueueTracked(s1, b, y, idB);
    PausedEnqueue(s, a, x, idA);
    PausedEnqueue(s1, b, y, idB);
  }

  lemma PausedEnqueue(s: Store, args: EnqueueArgs, context: Context, jobId: string)
    requires Sound(s) && Halted(s.control, context)
    ensures Sound(EnqueueTracked(s, args, context, jobId))
    ensures Waiting(EnqueueTracked(s, args, context, jobId), CounterKeyOf(context)) == Waiting(s, CounterKeyOf(context))
    ensures var t, id, key := EnqueueTracked(s, args, context, jobId), RowKeyOf(context), CounterKeyOf(context);
            && t.pending == s.pending && t.nextDelivery == s.nextDelivery && t.control == s.control
            && id in t.rows && t.rows[id].state == Paused && t.rows[id].worker == context.workerName
            && t.rows[id].session == (if id in s.rows then s.rows[id].session else context.sessionId)
            && t.rows[id].resumePayload.execution == Some(context)
            && key in t.counters && t.counters[key].queued == Before(s.counters, key).queued
            && forall other | other in s.counters && other != key ::
                 other in t.counters && t.counters[other] == s.counters[other]
  {
    EnqueueKeepsSound(s, args, context, jobId, true);
  }

  lemma RequeueOfPaused(s: Store, id: RowKey, key: CounterKey)
    requires Sound(s) && id in s.rows && s.rows[id].state == Paused
    requires key == CounterKey(s.rows[id].session, s.rows[id].worker) && key in s.counters
    requires CounterKeyOf(s.rows[id].resumePayload.execution.value) != key
    ensures var t := Step(s, Requeue(id, false));
            && key in t.counters && t.counters[key].queued == s.counters[key].queued + 1
            && Waiting(t, key) == Waiting(s, key)
  {
    RequeueMovesWaiting(s, id, false, JobKeys.ResumeJobId(id.key, s.rows[id].attemptsUsed + 1), key);
  }
}
