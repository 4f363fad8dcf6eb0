/** A job written off with its recovery budget spent, under any limit: the run that leads there. */
module RuntimeWriteOff {
  import opened Options
  import opened ImportContext
  import opened RuntimeStore
  import opened RuntimeDeliveries
  import opened RuntimeAgreement
  import opened Counting
  import ImportControl
  import JobKeys

  lemma OnlyRow(rows: map<RowKey, Row>, id: RowKey, row: Row, states: set<JobState>)
    requires rows == map[id := row]
    ensures RowsIn(rows, HomeOf(row), states) == if row.state in states then 1 else 0
  {
    var none: map<RowKey, Row> := map[];
    CountNone(none, InState(HomeOf(row), states));
    assert rows == none[id := row];
    CountPut(none, InState(HomeOf(row), states), id, row);
  }

  /** A job is resumed in recover mode k times and once more, and every delivery sent for it begins;
      the first of them is delivery n. */
  function RecoverAgain(id: RowKey, k: nat, n: nat): seq<Event> {
    if k == 0 then [Requeue(id, true)]
    else [Requeue(id, true), Begin(n, "")] + RecoverAgain(id, k - 1, n + 1)
  }

  /** A store of one job, paused, with nothing at the broker; the next delivery is number `next`. */
  function OneJob(context: Context, row: Row, control: ImportControl.Control, next: nat,
                  log: seq<(RowKey, string)>): Store
  {
    Store(map[RowKeyOf(context) := row], map[CounterKeyOf(context) := Counters(1, 0, 0, 1, 0, 0)], control,
          map[], map[], next, log)
  }

  /** Its row, after `used` recoveries. */
  predicate PausedAfter(row: Row, context: Context, used: nat, limit: nat) {
    && row.state == Paused && row.attemptsUsed == used && row.maxRecoveryAttempts == limit
    && HomeOf(row) == CounterKeyOf(context) && row.resumePayload.execution == Some(context)
  }

  /** The counter row of the job still shows it paused; its row is written off. */
  ghost predicate WrittenOffUncounted(s: Store, context: Context) {
    var key := CounterKeyOf(context);
    && key in s.counters && s.counters[key].failed == 0 && s.counters[key].paused == 1
    && RowsIn(s.rows, key, FAILED) == 1 && RowsIn(s.rows, key, PAUSED) == 0
  }

  lemma PausedEnqueueLeaves(control: ImportControl.Control, args: EnqueueArgs, context: Context, jobId: string)
    returns (row: Row)
    ensures PausedAfter(row, context, 0, args.maxRecoveryAttempts.GetOr(DEFAULT_RECOVERY_ATTEMPTS))
    ensures EnqueueAs(Initial(control), args, context, jobId, true) == OneJob(context, row, control, 0, [])
  {
    row := UpsertedRow(map[], EnqueueWrite(args, context, true, jobId));
    assert Bump(ZERO, EnqueueDelta(true)) == Counters(1, 0, 0, 1, 0, 0);
  }

  /** The job sent again, its one delivery waiting. */
  function OneSentJob(context: Context, row: Row, d: Delivery, control: ImportControl.Control, next: nat,
                      log: seq<(RowKey, string)>): Store
  {
    Store(map[RowKeyOf(context) := row], map[CounterKeyOf(context) := Counters(1, 1, 0, 0, 0, 0)], control,
          map[next := d], map[], next + 1, log)
  }

  lemma RequeueOfOneJob(context: Context, row: Row, control: ImportControl.Control, next: nat,
                        log: seq<(RowKey, string)>, jobId: string, used: nat, limit: nat)
    requires PausedAfter(row, context, used, limit) && used < limit
    ensures RequeueAs(OneJob(context, row, control, next, log), RowKeyOf(context), true, jobId)
         == OneSentJob(context, RequeuedRow(row, true, jobId), ResumeDelivery(row, jobId), control, next,
                       log + [(RowKeyOf(context), jobId)])
  {
    assert Bump(Counters(1, 0, 0, 1, 0, 0), RequeueDelta(Paused)) == Counters(1, 1, 0, 0, 0, 0);
  }

  lemma BeginOfOneJob(context: Context, row: Row, d: Delivery, control: ImportControl.Control, next: nat,
                      log: seq<(RowKey, string)>) returns (after: Row)
    requires Halted(control, context) && d.payload.execution == Some(context) && HomeOf(row) == CounterKeyOf(context)
    ensures PausedAfter(after, context, row.attemptsUsed, DEFAULT_RECOVERY_ATTEMPTS)
    ensures BeginDelivery(OneSentJob(context, row, d, control, next, log), next, "")
         == OneJob(context, after, control, next + 1, log)
  {
    var rows := map[RowKeyOf(context) := row];
    after := UpsertedRow(rows, BeginWrite(d, context, true));
    assert Bump(Counters(1, 1, 0, 0, 0, 0), BeginDelta(true)) == Counters(1, 0, 0, 1, 0, 0);
    assert map[next := d] - {next} == map[];
  }

  /** The two stores a paused job goes through: at rest, and with its delivery waiting. */
  ghost predicate AtRest(context: Context, control: ImportControl.Control, s: Store, used: nat, limit: nat, next: nat) {
    exists row: Row, log :: PausedAfter(row, context, used, limit) && s == OneJob(context, row, control, next, log)
  }

  ghost predicate Sent(context: Context, control: ImportControl.Control, s: Store, used: nat, next: nat) {
    exists row: Row, d: Delivery, log ::
      && row.attemptsUsed == used && HomeOf(row) == CounterKeyOf(context) && d.payload.execution == Some(context)
      && s == OneSentJob(context, row, d, control, next, log)
  }

  lemma RestIsSent(context: Context, control: ImportControl.Control, s: Store, used: nat, limit: nat, next: nat)
    requires AtRest(context, control, s, used, limit, next) && used < limit
    ensures Sent(context, control, Step(s, Requeue(RowKeyOf(context), true)), used + 1, next)
  {
    var row: Row, log :| PausedAfter(row, context, used, limit) && s == OneJob(context, row, control, next, log);
    var id, jobId := RowKeyOf(context), JobKeys.ResumeJobId(context.runtimeJobKey, used + 1);
    var d, sent := ResumeDelivery(row, jobId), RequeuedRow(row, true, jobId);
    RequeueOfOneJob(context, row, control, next, log, jobId, used, limit);
    assert Step(s, Requeue(id, true)) == OneSentJob(context, sent, d, control, next, log + [(id, jobId)]);
  }

  lemma SentIsAtRest(context: Context, control: ImportControl.Control, s: Store, used: nat, next: nat)
    requires Halted(control, context) && Sent(context, control, s, used, next)
    ensures AtRest(context, control, Step(s, Begin(next, "")), used, DEFAULT_RECOVERY_ATTEMPTS, next + 1)
  {
    var row: Row, d: Delivery, log :|
      && row.attemptsUsed == used && HomeOf(row) == CounterKeyOf(context) && d.payload.execution == Some(context)
      && s == OneSentJob(context, row, d, control, next, log);
    var after := BeginOfOneJob(context, row, d, control, next, log);
    assert Step(s, Begin(next, "")) == OneJob(context, after, control, next + 1, log);
  }

  lemma SpentRestIsWrittenOff(
    context: Context, control: ImportControl.Control, s: Store, used: nat, limit: nat, next: nat)
    requires AtRest(context, control, s, used, limit, next) && used >= limit
    ensures WrittenOffUncounted(Step(s, Requeue(RowKeyOf(context), true)), context)
  {
    var row: Row, log :| PausedAfter(row, context, used, limit) && s == OneJob(context, row, control, next, log);
    var id, skipped := RowKeyOf(context), row.(state := TerminalErrorSkipped);
    assert OverBudget(row, true);
    assert Step(s, Requeue(id, true)) == s.(rows := map[id := skipped]);
    OnlyRow(map[id := skipped], id, skipped, FAILED);
    OnlyRow(map[id := skipped], id, skipped, PAUSED);
  }

  /** Runs under any transition function. */
  function RunOf(step: (Store, Event) -> Store, s: Store, events: seq<Event>): Store
    decreases |events|
  {
    if events == [] then s else RunOf(step, step(s, events[0]), events[1..])
  }

  lemma {:induction false} RunIsRunOfStep(s: Store, events: seq<Event>)
    ensures Run(s, events) == RunOf(Step, s, events)
    decreases |events|
  {
    if events != [] {
      RunIsRunOfStep(Step(s, events[0]), events[1..]);
    }
  }

  lemma RunOfTwo(step: (Store, Event) -> Store, s: Store, first: Event, second: Event, rest: seq<Event>)
    ensures RunOf(step, s, [first, second] + rest) == RunOf(step, step(step(s, first), second), rest)
  {
    var events := [first, second] + rest;
    assert events[1..] == [second] + rest && events[1..][1..] == rest;
  }

  /** What resuming and beginning do to a job, said of any transition function. */
  ghost predicate Sends(step: (Store, Event) -> Store, rest: (Store, nat, nat, nat) -> bool,
                        sent: (Store, nat, nat) -> bool, id: RowKey)
  {
    forall s: Store, used: nat, limit: nat, next: nat
      {:trigger rest(s, used, limit, next), step(s, Requeue(id, true))} ::
      rest(s, used, limit, next) && used < limit ==> sent(step(s, Requeue(id, true)), used + 1, next)
  }

  ghost predicate Rests(step: (Store, Event) -> Store, rest: (Store, nat, nat, nat) -> bool,
                        sent: (Store, nat, nat) -> bool)
  {
    forall s: Store, used: nat, next: nat {:trigger sent(s, used, next), step(s, Begin(next, ""))} ::
      sent(s, used, next) ==> rest(step(s, Begin(next, "")), used, DEFAULT_RECOVERY_ATTEMPTS, next + 1)
  }

  ghost predicate Ends(step: (Store, Event) -> Store, rest: (Store, nat, nat, nat) -> bool,
                       last: Store -> bool, id: RowKey)
  {
    forall s: Store, used: nat, limit: nat, next: nat
      {:trigger rest(s, used, limit, next), step(s, Requeue(id, true))} ::
      rest(s, used, limit, next) && used >= limit ==> last(step(s, Requeue(id, true)))
  }

  /** If resuming a job at rest with attempts left sends it, beginning it puts it to rest, and resuming it
      without any attempt left leaves what `last` says, then so do k recoveries and one more resume. */
  lemma {:induction false} RecoveriesSpendTheBudget(
    step: (Store, Event) -> Store, rest: (Store, nat, nat, nat) -> bool, sent: (Store, nat, nat) -> bool,
    last: Store -> bool, id: RowKey, s: Store, used: nat, limit: nat, next: nat, k: nat)
    requires Sends(step, rest, sent, id) && Rests(step, rest, sent) && Ends(step, rest, last, id)
    requires rest(s, used, limit, next)
    requires if k == 0 then used >= limit else used < limit && used + k == DEFAULT_RECOVERY_ATTEMPTS
    ensures last(RunOf(step, s, RecoverAgain(id, k, next)))
    decreases k
  {
    var requeued := step(s, Requeue(id, true));
    if k == 0 {
      assert [Requeue(id, true)][1..] == [];
      assert RunOf(step, requeued, []) == requeued;
    } else {
      var begun := step(requeued, Begin(next, ""));
      assert sent(requeued, used + 1, next);
      RunOfTwo(step, s, Requeue(id, true), Begin(next, ""), RecoverAgain(id, k - 1, next + 1));
      RecoveriesSpendTheBudget(step, rest, sent, last, id, begun, used + 1, DEFAULT_RECOVERY_ATTEMPTS, next + 1, k - 1);
    }
  }

  /** The recoveries after which the budget of a job enqueued under a pause is spent. */
  function SpentAfter(args: EnqueueArgs): nat {
    if args.maxRecoveryAttempts == Some(0) then 0 else DEFAULT_RECOVERY_ATTEMPTS
  }

  ghost function RestOf(context: Context, control: ImportControl.Control): (Store, nat, nat, nat) -> bool {
    (s: Store, used: nat, limit: nat, next: nat) => AtRest(context, control, s, used, limit, next)
  }

  ghost function SentOf(context: Context, control: ImportControl.Control): (Store, nat, nat) -> bool {
    (s: Store, used: nat, next: nat) => Sent(context, control, s, used, next)
  }

  ghost function WrittenOffOf(context: Context): Store -> bool {
    (s: Store) => WrittenOffUncounted(s, context)
  }

  lemma StepSends(context: Context, control: ImportControl.Control)
    ensures Sends(Step, RestOf(context, control), SentOf(context, control), RowKeyOf(context))
  {
    forall s: Store, used: nat, limit: nat, next: nat | AtRest(context, control, s, used, limit, next) && used < limit
      ensures Sent(context, control, Step(s, Requeue(RowKeyOf(context), true)), used + 1, next)
    {
      RestIsSent(context, control, s, used, limit, next);
    }
  }

  lemma StepRests(context: Context, control: ImportControl.Control)
    requires Halted(control, context)
    ensures Rests(Step, RestOf(context, control), SentOf(context, control))
  {
    forall s: Store, used: nat, next: nat | Sent(context, control, s, used, next)
      ensures AtRest(context, control, Step(s, Begin(next, "")), used, DEFAULT_RECOVERY_ATTEMPTS, next + 1)
    {
      SentIsAtRest(context, control, s, used, next);
    }
  }

  lemma StepEnds(context: Context, control: ImportControl.Control)
    ensures Ends(Step, RestOf(context, control), WrittenOffOf(context), RowKeyOf(context))
  {
    forall s: Store, used: nat, limit: nat, next: nat | AtRest(context, control, s, used, limit, next) && used >= limit
      ensures WrittenOffUncounted(Step(s, Requeue(RowKeyOf(context), true)), context)
    {
      SpentRestIsWrittenOff(context, control, s, used, limit, next);
    }
  }

  lemma RecoveredJobIsWrittenOff(context: Context, control: ImportControl.Control, s: Store, limit: nat, k: nat)
    requires Halted(control, context) && AtRest(context, control, s, 0, limit, 0)
    requires k == (if limit == 0 then 0 else DEFAULT_RECOVERY_ATTEMPTS)
    ensures WrittenOffUncounted(RunOf(Step, s, RecoverAgain(RowKeyOf(context), k, 0)), context)
  {
    StepSends(context, control);
    StepRests(context, control);
    StepEnds(context, control);
    RecoveriesSpendTheBudget(Step, RestOf(context, control), SentOf(context, control), WrittenOffOf(context),
                             RowKeyOf(context), s, 0, limit, 0, k);
  }

  /** Such a row arises under every limit: a job enqueued while a pause is on and resumed in recover mode
      again and again, three times under the default limit, is written off by the next resume, and the
      failed counter misses it. */
  lemma WrittenOffRowIsNotCounted(control: ImportControl.Control, args: EnqueueArgs, context: Context, s: Store)
    requires CreateContext(args, "") == Some(context) && Halted(control, context)
    requires s == Step(Initial(control), Enqueue(args, ""))
    ensures WrittenOffUncounted(Run(s, RecoverAgain(RowKeyOf(context), SpentAfter(args), 0)), context)
  {
    var row := PausedEnqueueLeaves(control, args, context, EnqueueJobId(args.opts, context));
    assert s == OneJob(context, row, control, 0, []);
    RunIsRunOfStep(s, RecoverAgain(RowKeyOf(context), SpentAfter(args), 0));
    RecoveredJobIsWrittenOff(context, control, s, args.maxRecoveryAttempts.GetOr(DEFAULT_RECOVERY_ATTEMPTS),
                             SpentAfter(args));
  }
}
