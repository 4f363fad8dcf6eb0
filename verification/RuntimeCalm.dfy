/** Exactly which steps keep the counters an index of the rows, and why a broker retry is not calm. */
module RuntimeCalm {
  import opened Options
  import opened ImportContext
  import opened RuntimeStore
  import opened RuntimeBulk
  import opened RuntimeIdentity
  import opened RuntimeDeliveries
  import opened RuntimeAgreement
  import opened Counting

  // ---------------------------------------------------------------- steps on linked rows

  lemma RunningIsIndexed(rows: map<RowKey, Row>, counters: map<CounterKey, Counters>, key: CounterKey)
    requires AgreeTables(rows, counters) && key in counters
    ensures counters[key].running == RowsIn(rows, key, RUNNING)
  {
    assert AgreesAt(rows, counters[key], key);
  }

  lemma PutMovesTotal(rows: map<RowKey, Row>, id: RowKey, row: Row, key: CounterKey)
    ensures RowsIn(rows[id := row], key, ALL) == RowsIn(rows, key, ALL)
          - (if id in rows && HomeOf(rows[id]) == key then 1 else 0) + (if HomeOf(row) == key then 1 else 0)
  {
    CountPut(rows, InState(key, ALL), id, row);
    AnyStateCounts(row.state);
    if id in rows {
      AnyStateCounts(rows[id].state);
    }
  }

  /** Writing a stored row and charging one more job: the row charged has no row for it, or the row left
      its old session and worker, where it is still counted. */
  lemma OneTooManyBreaksTables(rows: map<RowKey, Row>, counters: map<CounterKey, Counters>,
                               id: RowKey, row: Row, charge: Charge)
    requires Counted(rows, counters.Keys) && AgreeTables(rows, counters) && id in rows
    requires charge.Charge? && charge.delta.total == 1
    ensures !AgreeTables(rows[id := row], Charged(counters, charge))
  {
    var key, left := charge.key, HomeOf(rows[id]);
    var after, charged := rows[id := row], Charged(counters, charge);
    if AgreeTables(after, charged) {
      DeltaKeys(counters, key, charge.delta);
      TotalIsIndexed(rows, counters, key);
      TotalIsIndexed(after, charged, key);
      ChargedTotal(counters, key, charge.delta, key);
      PutMovesTotal(rows, id, row, key);
      TotalIsIndexed(rows, counters, left);
      TotalIsIndexed(after, charged, left);
      ChargedTotal(counters, key, charge.delta, left);
      PutMovesTotal(rows, id, row, left);
    }
  }

  lemma EnqueueKeepsIndexIff(s: Store, args: EnqueueArgs, session: string)
    requires Sound(s) && Linked(s) && Agrees(s) && Proper(s, Enqueue(args, session))
    ensures Agrees(Step(s, Enqueue(args, session))) <==> Indexes(s, Enqueue(args, session))
  {
    var e := Enqueue(args, session);
    if Indexes(s, e) {
      FittingStepKeepsIndex(s, e, Step(s, e));
    } else {
      var context := CreateContext(args, session).value;
      var paused, jobId := Halted(s.control, context), EnqueueJobId(args.opts, context);
      var next := EnqueueAs(s, args, context, jobId, paused);
      assert Step(s, e) == next;
      EnqueueCharges(s, args, context, jobId, paused);
      OneTooManyBreaksTables(s.rows, s.counters, RowKeyOf(context),
                             UpsertedRow(s.rows, EnqueueWrite(args, context, paused, jobId)),
                             Charge(CounterKeyOf(context), EnqueueDelta(paused)));
    }
  }

  lemma BulkEventKeepsIndexIff(s: Store, e: Event)
    requires Linked(s) && Agrees(s) && Proper(s, e) && e.Bulk? && Enabled(s, e)
    ensures Agrees(Step(s, e)) <==> Indexes(s, e)
  {
    var plan := PlanBulk(s.control, e.bulk, e.firstSession, e.sessions);
    assert Step(s, e) == BulkAfter(s, plan);
    if plan.Accepted? {
      BulkKeepsIndexIff(s, plan.entries, plan.home, plan.paused);
    } else {
      PlanKeepsIndex(s, plan);
    }
  }

  /** A running row that is marked paused is no longer among the running ones, and nothing is charged. */
  lemma PauseBreaksTables(rows: map<RowKey, Row>, counters: map<CounterKey, Counters>, id: RowKey, row: Row)
    requires AgreeTables(rows, counters) && id in rows && rows[id].state == Running && row.state == Paused
    requires HomeOf(rows[id]) == HomeOf(row) && HomeOf(row) in counters
    ensures !AgreeTables(rows[id := row], counters)
  {
    RunningIsIndexed(rows, counters, HomeOf(row));
    MoveRow(rows, id, row, HomeOf(row), RUNNING);
    if AgreeTables(rows[id := row], counters) {
      RunningIsIndexed(rows[id := row], counters, HomeOf(row));
    }
  }

  lemma PausedRow(s: Store, n: nat, patch: Patch, context: Context)
    requires Linked(s) && n in s.inFlight && s.inFlight[n].payload.execution == Some(context)
    requires ProgressPaused(s.control, context, patch)
    ensures var id := RowKeyOf(context);
            var row := UpsertedRow(s.rows, ProgressWrite(s.control, s.inFlight[n], context, patch));
            && id in s.rows && s.rows[id].state == Running && row.state == Paused
            && HomeOf(s.rows[id]) == HomeOf(row) && HomeOf(row) in s.counters
            && Step(s, Progress(n, patch)) == s.(rows := s.rows[id := row])
  {
    assert Matches(s.rows, s.inFlight[n], RUNNING);
    assert AtHome(s.rows[RowKeyOf(context)]);
  }

  lemma ProgressKeepsIndexIff(s: Store, n: nat, patch: Patch)
    requires Sound(s) && Linked(s) && Agrees(s) && Proper(s, Progress(n, patch)) && n in s.inFlight
    ensures Agrees(Step(s, Progress(n, patch))) <==> Indexes(s, Progress(n, patch))
  {
    var e, d := Progress(n, patch), s.inFlight[n];
    if Indexes(s, e) {
      FittingStepKeepsIndex(s, e, Step(s, e));
    } else {
      var context := d.payload.execution.value;
      PausedRow(s, n, patch, context);
      PauseBreaksTables(s.rows, s.counters, RowKeyOf(context),
                        UpsertedRow(s.rows, ProgressWrite(s.control, d, context, patch)));
    }
  }

  /** Exactly: a step keeps the counters an index of linked rows if and only if it enqueues no stored key,
      makes no bulk call beyond fresh keys of one session and worker, marks no running job paused and
      writes off no paused row. A broker retry is not among the steps that break it. */
  lemma StepKeepsIndexIff(s: Store, e: Event)
    requires Sound(s) && Linked(s) && Agrees(s) && Proper(s, e)
    ensures Agrees(Step(s, e)) <==> Indexes(s, e)
  {
    if Enabled(s, e) {
      match e
      case Enqueue(args, session) => EnqueueKeepsIndexIff(s, args, session);
      case Bulk(_, _, _) => BulkEventKeepsIndexIff(s, e);
      case Progress(n, patch) => ProgressKeepsIndexIff(s, n, patch);
      case Requeue(id, recover) => RequeueKeepsAgreementIff(s, id, recover);
      case _ => FittingStepKeepsIndex(s, e, Step(s, e));
    }
  }

  /** A delivery put back, and its row, which runs or has failed. */
  lemma ResentDelivery(s: Store, e: Event)
    requires Linked(s) && Resends(s, e)
    ensures var t, d := Step(s, e), s.inFlight[e.delivery];
            && t.pending == s.pending[s.nextDelivery := d]
            && Matches(t.rows, d, RUNNING + {Failed})
  {
    assert Matches(s.rows, s.inFlight[e.delivery], RUNNING);
  }

  /** It waits for a row that is not queued. */
  lemma ResendBreaksLinks(s: Store, e: Event, t: Store)
    requires Linked(s) && Resends(s, e) && t == Step(s, e)
    ensures !Linked(t)
  {
    ResentDelivery(s, e);
    assert !Matches(t.rows, t.pending[s.nextDelivery], QUEUED);
  }

  /** So calm steps are exactly the steps that keep rows and deliveries linked and the counters an index. */
  lemma CalmIsExact(s: Store, e: Event)
    requires Sound(s) && Linked(s) && Agrees(s) && Proper(s, e)
    ensures Linked(Step(s, e)) && Agrees(Step(s, e)) <==> Calm(s, e)
  {
    if Calm(s, e) {
      CalmStepKeepsIndex(s, e);
    } else {
      StepKeepsIndexIff(s, e);
      if Resends(s, e) {
        ResendBreaksLinks(s, e, Step(s, e));
      }
    }
  }

  // ---------------------------------------------------------------- beginning a row in any state

  /** Beginning takes a row off the queued ones, or off a class that no counter shows it leaving. */
  ghost predicate BeginFitsAt(rows: map<RowKey, Row>, c: Counters, state: JobState, key: CounterKey) {
    || state in QUEUED
    || (c.queued == 0 && (state in {Cancelled, Deleted} || (state == Paused && c.paused < RowsIn(rows, key, PAUSED))))
  }

  lemma BegunAgreesAtIff(rows: map<RowKey, Row>, c: Counters, id: RowKey, row: Row, paused: bool, key: CounterKey)
    requires id in rows && HomeOf(rows[id]) == key && HomeOf(row) == key && rows[id].state != Stale
    requires row.state == (if paused then Paused else Running) && AgreesAt(rows, c, key)
    ensures AgreesAt(rows[id := row], Bump(c, BeginDelta(paused)), key) <==> BeginFitsAt(rows, c, rows[id].state, key)
  {
    MoveRow(rows, id, row, key, ALL);
    MoveRow(rows, id, row, key, QUEUED);
    MoveRow(rows, id, row, key, RUNNING);
    MoveRow(rows, id, row, key, PAUSED);
    MoveRow(rows, id, row, key, COMPLETED);
    MoveRow(rows, id, row, key, FAILED);
    BegunWeights(rows[id].state, paused);
  }

  /** What a row counts for in each class before and after it begins. */
  lemma BegunWeights(state: JobState, paused: bool)
    ensures var after := Some(if paused then Paused else Running);
            && Weight(after, ALL) == 1 && Weight(after, QUEUED) == 0 && Weight(after, COMPLETED) == 0
            && Weight(after, RUNNING) == (if paused then 0 else 1) && Weight(after, PAUSED) == (if paused then 1 else 0)
            && Weight(after, FAILED) == 0 && Weight(Some(state), ALL) == 1
            && Weight(Some(state), QUEUED) == (if state in QUEUED then 1 else 0)
            && Weight(Some(state), RUNNING) == (if state == Running then 1 else 0)
            && Weight(Some(state), PAUSED) == (if state == Paused then 1 else 0)
            && Weight(Some(state), COMPLETED) == (if state == Completed then 1 else 0)
            && Weight(Some(state), FAILED) == (if state in {Failed, TerminalErrorSkipped} then 1 else 0)
  {
  }

  lemma OthersStillAgree(rows: map<RowKey, Row>, c: Counters, id: RowKey, row: Row, key: CounterKey)
    requires AgreesAt(rows, c, key) && HomeOf(row) != key && (id in rows ==> HomeOf(rows[id]) != key)
    ensures AgreesAt(rows[id := row], c, key)
  {
    CountPut(rows, InState(key, ALL), id, row);
    CountPut(rows, InState(key, QUEUED), id, row);
    CountPut(rows, InState(key, RUNNING), id, row);
    CountPut(rows, InState(key, PAUSED), id, row);
    CountPut(rows, InState(key, COMPLETED), id, row);
    CountPut(rows, InState(key, FAILED), id, row);
  }

  lemma BegunTablesIff(rows: map<RowKey, Row>, counters: map<CounterKey, Counters>, id: RowKey, row: Row, paused: bool)
    requires AgreeTables(rows, counters) && id in rows && HomeOf(rows[id]) == HomeOf(row) && HomeOf(row) in counters
    requires rows[id].state != Stale && row.state == (if paused then Paused else Running)
    ensures AgreeTables(rows[id := row], Charged(counters, Charge(HomeOf(row), BeginDelta(paused))))
       <==> BeginFitsAt(rows, counters[HomeOf(row)], rows[id].state, HomeOf(row))
  {
    var home := HomeOf(row);
    var charged := Charged(counters, Charge(home, BeginDelta(paused)));
    assert charged == counters[home := Bump(counters[home], BeginDelta(paused))];
    assert AgreesAt(rows, counters[home], home);
    BegunAgreesAtIff(rows, counters[home], id, row, paused, home);
    forall key | key in charged && key != home ensures AgreesAt(rows[id := row], charged[key], key) {
      assert AgreesAt(rows, counters[key], key);
      OthersStillAgree(rows, counters[key], id, row, key);
    }
    if AgreeTables(rows[id := row], charged) {
      assert AgreesAt(rows[id := row], charged[home], home);
    }
  }

  /** The row a begin writes and the counter it charges. */
  lemma BegunTables(s: Store, n: nat, session: string, context: Context)
    requires Sound(s) && n in s.pending && s.pending[n].payload.execution == Some(context)
    ensures var t, paused := BeginDelivery(s, n, session), Halted(s.control, context);
            && t.rows == s.rows[RowKeyOf(context) := UpsertedRow(s.rows, BeginWrite(s.pending[n], context, paused))]
            && t.counters == Charged(s.counters, Charge(CounterKeyOf(context), BeginDelta(paused)))
  {
    BeginIsBegunAs(s, n, session);
  }

  lemma BegunRowStays(rows: map<RowKey, Row>, d: Delivery, context: Context, paused: bool)
    requires RowsSettled(rows) && Matches(rows, d, ALL) && d.payload.execution == Some(context)
    ensures var id, row := RowKeyOf(context), UpsertedRow(rows, BeginWrite(d, context, paused));
            && id in rows && rows[id].state != Stale && row.state == (if paused then Paused else Running)
            && HomeOf(rows[id]) == HomeOf(row) == CounterKeyOf(context)
  {
    assert AtHome(rows[RowKeyOf(context)]);
  }

  /** Exactly when beginning a delivery keeps the index, whatever state its row is in: the row is queued, or
      the queued counter is at zero and the row leaves a class its counter does not fill. */
  lemma BeginKeepsIndexIff(s: Store, n: nat, session: string, context: Context)
    requires Sound(s) && RowsSettled(s.rows) && Counted(s.rows, s.counters.Keys) && Agrees(s)
    requires n in s.pending && s.pending[n].payload.execution == Some(context) && Matches(s.rows, s.pending[n], ALL)
    ensures RowKeyOf(context) in s.rows && CounterKeyOf(context) in s.counters
    ensures var key := CounterKeyOf(context);
            Agrees(BeginDelivery(s, n, session)) <==>
              BeginFitsAt(s.rows, s.counters[key], s.rows[RowKeyOf(context)].state, key)
  {
    var paused := Halted(s.control, context);
    BegunTables(s, n, session, context);
    BegunRowStays(s.rows, s.pending[n], context, paused);
    BegunTablesIff(s.rows, s.counters, RowKeyOf(context),
                   UpsertedRow(s.rows, BeginWrite(s.pending[n], context, paused)), paused);
  }

  lemma LiveStatesFit(rows: map<RowKey, Row>, d: Delivery)
    requires d.payload.execution.Some? && Matches(rows, d, RUNNING + {Failed})
    ensures Matches(rows, d, ALL)
    ensures forall c, key :: !BeginFitsAt(rows, c, rows[RowKeyOf(d.payload.execution.value)].state, key)
  {
  }

  lemma BeginOfResentBreaksIndex(s: Store, n: nat, session: string)
    requires Sound(s) && RowsSettled(s.rows) && Counted(s.rows, s.counters.Keys) && Agrees(s)
    requires Tracked(s.pending, n) && Matches(s.rows, s.pending[n], RUNNING + {Failed})
    ensures !Agrees(BeginDelivery(s, n, session))
  {
    LiveStatesFit(s.rows, s.pending[n]);
    BeginKeepsIndexIff(s, n, session, s.pending[n].payload.execution.value);
  }

  lemma ResentKeepsIndex(s: Store, e: Event, t: Store)
    requires Sound(s) && Linked(s) && Agrees(s) && Resends(s, e) && t == Step(s, e)
    ensures Sound(t) && RowsSettled(t.rows) && Counted(t.rows, t.counters.Keys) && Agrees(t)
  {
    StepKeepsSound(s, e);
    FittingStepKeepsIndex(s, e, t);
  }

  /** A broker retry keeps the index when it is made and breaks it when it begins: its row is counted as
      running or failed, and the begin takes it off the queued ones. */
  lemma RetryBreaksIndexAtBegin(s: Store, e: Event, session: string, t: Store)
    requires Sound(s) && Linked(s) && Agrees(s) && Resends(s, e) && t == Step(s, e)
    ensures Agrees(t) && s.nextDelivery in t.pending && !Agrees(BeginDelivery(t, s.nextDelivery, session))
  {
    ResentKeepsIndex(s, e, t);
    ResentDelivery(s, e);
    BeginOfResentBreaksIndex(t, s.nextDelivery, session);
  }
}
