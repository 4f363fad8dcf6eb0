/** Resume calls drain the resumable rows, and recovery spends a bounded budget of attempts. */
module RuntimeRecovery {
  import opened Options
  import opened ImportContext
  import opened RuntimeStore
  import opened RuntimeBulk
  import opened RuntimeIdentity
  import opened RuntimeDeliveries
  import opened RuntimeAgreement
  import ImportControl
  import JobKeys

  // ---------------------------------------------------------------- attempts

  /** The resume ids of a job's recoveries, oldest first. */
  function RecoveryIds(log: seq<(RowKey, string)>, id: RowKey): seq<string> {
    if log == [] then []
    else
      var last := log[|log| - 1];
      RecoveryIds(log[..|log| - 1], id) + (if last.0 == id then [last.1] else [])
  }

  /** The ids of attempts 1, 2, ..., n. */
  function AttemptIds(key: string, n: nat): (ids: seq<string>)
    ensures |ids| == n && forall i | 0 <= i < n :: ids[i] == JobKeys.ResumeJobId(key, i + 1)
  {
    if n == 0 then [] else AttemptIds(key, n - 1) + [JobKeys.ResumeJobId(key, n)]
  }

  function Attempts(rows: map<RowKey, Row>, id: RowKey): nat {
    if id in rows then rows[id].attemptsUsed else 0
  }

  /** Each job's recoveries are exactly its attempts 1 to attemptsUsed, in order. */
  ghost predicate AttemptsLogged(s: Store) {
    forall id: RowKey :: RecoveryIds(s.recoveries, id) == AttemptIds(id.key, Attempts(s.rows, id))
  }

  /** A recovery limit the event writes for this job is at most `bound`. */
  ghost predicate LimitsJob(e: Event, id: RowKey, bound: nat) {
    match e
    case Enqueue(args, session) =>
      CreateContext(args, session).Some? && RowKeyOf(CreateContext(args, session).value) == id ==>
        args.maxRecoveryAttempts.GetOr(DEFAULT_RECOVERY_ATTEMPTS) <= bound
    case Bulk(bulk, first, sessions) =>
      |sessions| == |bulk.items| && bulk.items != [] && CreateContext(FirstArgs(bulk), first).Some? ==>
        LimitsEntries(Entries(bulk, CreateContext(FirstArgs(bulk), first).value, sessions, |bulk.items|), id, bound)
    case _ => true
  }

  ghost predicate LimitsEntries(entries: seq<Entry>, id: RowKey, bound: nat) {
    forall e | e in entries && RowKeyOf(e.context) == id ::
      e.args.maxRecoveryAttempts.GetOr(DEFAULT_RECOVERY_ATTEMPTS) <= bound
  }

  /** Every recovery limit a run writes for this job is at most `bound`; three is written by every later
      upsert. */
  ghost predicate LimitsWithin(id: RowKey, bound: nat, events: seq<Event>) {
    DEFAULT_RECOVERY_ATTEMPTS <= bound && forall e | e in events :: LimitsJob(e, id, bound)
  }

  predicate Budgeted(id: RowKey, bound: nat, rows: map<RowKey, Row>) {
    id in rows ==> rows[id].attemptsUsed <= bound && rows[id].maxRecoveryAttempts <= bound
  }

  lemma {:induction false} InsertKeepsAttempts(rows: map<RowKey, Row>, entries: seq<Entry>, paused: bool, id: RowKey)
    ensures Attempts(InsertAll(rows, entries, paused), id) == Attempts(rows, id)
    decreases |entries|
  {
    if entries != [] {
      InsertKeepsAttempts(rows[RowKeyOf(entries[0].context) := BulkRow(rows, entries[0], paused)],
                          entries[1..], paused, id);
    }
  }

  lemma BulkKeepsAttempts(s: Store, plan: BulkPlan, id: RowKey)
    ensures Attempts(BulkAfter(s, plan).rows, id) == Attempts(s.rows, id)
  {
    if plan.Accepted? {
      InsertKeepsAttempts(s.rows, plan.entries, plan.paused, id);
    }
  }

  /** A single write keeps the attempts of its row. */
  lemma MoveKeepsAttempts(s: Store, e: Event)
    requires !e.Requeue?
    ensures MoveOf(s, e).Move? ==> MoveOf(s, e).row.attemptsUsed == Attempts(s.rows, MoveOf(s, e).id)
  {
  }

  lemma MovedAttempts(rows: map<RowKey, Row>, move: Move, id: RowKey)
    requires move.Move? ==> move.row.attemptsUsed == Attempts(rows, move.id)
    ensures Attempts(Moved(rows, move), id) == Attempts(rows, id)
  {
  }

  /** Only a requeue changes a job's attempts used. */
  lemma WritesKeepAttempts(s: Store, e: Event, id: RowKey)
    requires Sound(s) && !e.Requeue?
    ensures Attempts(Step(s, e).rows, id) == Attempts(s.rows, id)
  {
    if e.Bulk? {
      if Enabled(s, e) {
        var plan := PlanBulk(s.control, e.bulk, e.firstSession, e.sessions);
        assert Step(s, e) == BulkAfter(s, plan);
        BulkKeepsAttempts(s, plan, id);
      }
    } else {
      StepMoves(s, e);
      MoveKeepsAttempts(s, e);
      MovedAttempts(s.rows, MoveOf(s, e), id);
    }
  }

  lemma BulkKeepsRecoveries(s: Store, plan: BulkPlan)
    ensures BulkAfter(s, plan).recoveries == s.recoveries
  {
  }

  lemma WritesKeepRecoveries(s: Store, e: Event)
    requires Sound(s) && !e.Requeue?
    ensures Step(s, e).recoveries == s.recoveries
  {
    if e.Begin? && Enabled(s, e) {
      BeginIsBegunAs(s, e.delivery, e.freshSession);
    } else if e.Bulk? && Enabled(s, e) {
      BulkKeepsRecoveries(s, PlanBulk(s.control, e.bulk, e.firstSession, e.sessions));
    }
  }

  lemma LogOneMore(log: seq<(RowKey, string)>, id: RowKey, jobId: string, other: RowKey)
    ensures RecoveryIds(log + [(id, jobId)], other) == RecoveryIds(log, other) + (if other == id then [jobId] else [])
  {
    assert (log + [(id, jobId)])[..|log|] == log;
  }

  /** What a requeue records: nothing, or one more attempt under its id. */
  lemma RequeueRecords(s: Store, id: RowKey, recover: bool, jobId: string)
    requires id in s.rows
    ensures var t := RequeueAs(s, id, recover, jobId);
            var spends := IsRequeued(s.rows[id], recover) && Recovers(s.rows[id], recover);
            && t.recoveries == (if spends then s.recoveries + [(id, jobId)] else s.recoveries)
            && forall other ::
                 Attempts(t.rows, other) == Attempts(s.rows, other) + (if other == id && spends then 1 else 0)
  {
    RequeueMoves(s, id, recover, jobId);
  }

  lemma RequeueAsLogsAttempt(s: Store, id: RowKey, recover: bool, jobId: string)
    requires AttemptsLogged(s) && id in s.rows
    requires jobId == JobKeys.ResumeJobId(id.key, Attempts(s.rows, id) + 1)
    ensures AttemptsLogged(RequeueAs(s, id, recover, jobId))
    ensures forall other :: Attempts(s.rows, other) <= Attempts(RequeueAs(s, id, recover, jobId).rows, other)
  {
    var t := RequeueAs(s, id, recover, jobId);
    RequeueRecords(s, id, recover, jobId);
    forall other: RowKey ensures RecoveryIds(t.recoveries, other) == AttemptIds(other.key, Attempts(t.rows, other)) {
      OneAttemptLogged(s, t, id, jobId, other);
    }
  }

  lemma OneAttemptLogged(s: Store, t: Store, id: RowKey, jobId: string, other: RowKey)
    requires RecoveryIds(s.recoveries, other) == AttemptIds(other.key, Attempts(s.rows, other))
    requires jobId == JobKeys.ResumeJobId(id.key, Attempts(s.rows, id) + 1)
    requires || (t.recoveries == s.recoveries && Attempts(t.rows, other) == Attempts(s.rows, other))
             || (t.recoveries == s.recoveries + [(id, jobId)]
                 && Attempts(t.rows, other) == Attempts(s.rows, other) + (if other == id then 1 else 0))
    ensures RecoveryIds(t.recoveries, other) == AttemptIds(other.key, Attempts(t.rows, other))
  {
    LogOneMore(s.recoveries, id, jobId, other);
  }

  lemma SameAttemptsLogged(s: Store, t: Store)
    requires AttemptsLogged(s) && t.recoveries == s.recoveries
    requires forall id :: Attempts(t.rows, id) == Attempts(s.rows, id)
    ensures AttemptsLogged(t)
  {
    forall id: RowKey ensures RecoveryIds(t.recoveries, id) == AttemptIds(id.key, Attempts(t.rows, id)) {
      assert RecoveryIds(s.recoveries, id) == AttemptIds(id.key, Attempts(s.rows, id));
    }
  }

  lemma RequeueKeepsAttempts(s: Store, id: RowKey, recover: bool)
    requires AttemptsLogged(s) && Enabled(s, Requeue(id, recover))
    ensures AttemptsLogged(Step(s, Requeue(id, recover)))
    ensures forall other :: Attempts(s.rows, other) <= Attempts(Step(s, Requeue(id, recover)).rows, other)
  {
    var jobId := JobKeys.ResumeJobId(id.key, s.rows[id].attemptsUsed + 1);
    var next := RequeueAs(s, id, recover, jobId);
    assert Step(s, Requeue(id, recover)) == next;
    RequeueAsLogsAttempt(s, id, recover, jobId);
  }

  lemma StepKeepsAttempts(s: Store, e: Event)
    requires Sound(s) && AttemptsLogged(s)
    ensures AttemptsLogged(Step(s, e))
    ensures forall id :: Attempts(s.rows, id) <= Attempts(Step(s, e).rows, id)
  {
    if e.Requeue? {
      if Enabled(s, e) {
        RequeueKeepsAttempts(s, e.id, e.recover);
      }
    } else {
      forall id ensures Attempts(Step(s, e).rows, id) == Attempts(s.rows, id) {
        WritesKeepAttempts(s, e, id);
      }
      WritesKeepRecoveries(s, e);
      SameAttemptsLogged(s, Step(s, e));
    }
  }

  lemma {:induction false} InsertKeepsBudget(rows: map<RowKey, Row>, entries: seq<Entry>, paused: bool,
                                             id: RowKey, bound: nat)
    requires Budgeted(id, bound, rows) && LimitsEntries(entries, id, bound)
    ensures Budgeted(id, bound, InsertAll(rows, entries, paused))
    decreases |entries|
  {
    if entries != [] {
      assert entries[0] in entries;
      InsertKeepsBudget(rows[RowKeyOf(entries[0].context) := BulkRow(rows, entries[0], paused)],
                        entries[1..], paused, id, bound);
    }
  }

  lemma BulkKeepsBudget(s: Store, e: Event, id: RowKey, bound: nat)
    requires e.Bulk? && Enabled(s, e) && Budgeted(id, bound, s.rows) && LimitsJob(e, id, bound)
    ensures Budgeted(id, bound, Step(s, e).rows)
  {
    var plan := PlanBulk(s.control, e.bulk, e.firstSession, e.sessions);
    assert Step(s, e) == BulkAfter(s, plan);
    if plan.Accepted? {
      InsertKeepsBudget(s.rows, plan.entries, plan.paused, id, bound);
    }
  }

  lemma MoveIsBudgeted(s: Store, e: Event, bound: nat)
    requires Sound(s) && Budgeted(MoveId(s, e), bound, s.rows) && DEFAULT_RECOVERY_ATTEMPTS <= bound
    requires LimitsJob(e, MoveId(s, e), bound)
    ensures MoveOf(s, e).Move? ==>
      MoveOf(s, e).row.attemptsUsed <= bound && MoveOf(s, e).row.maxRecoveryAttempts <= bound
  {
  }

  function MoveId(s: Store, e: Event): RowKey {
    if MoveOf(s, e).Move? then MoveOf(s, e).id else RowKey("", "")
  }

  lemma StepKeepsBudget(s: Store, e: Event, id: RowKey, bound: nat)
    requires Sound(s) && Budgeted(id, bound, s.rows) && DEFAULT_RECOVERY_ATTEMPTS <= bound && LimitsJob(e, id, bound)
    ensures Budgeted(id, bound, Step(s, e).rows)
  {
    if !Enabled(s, e) {
    } else if e.Bulk? {
      BulkKeepsBudget(s, e, id, bound);
    } else {
      StepMoves(s, e);
      if MoveId(s, e) == id {
        MoveIsBudgeted(s, e, bound);
      }
    }
  }

  /** Over every run: no job's attempts fall, and this job's attempts and recoveries stay within the
      largest limit ever written for it, the recoveries being exactly attempts 1 to attemptsUsed. */
  lemma {:induction false} RecoveriesAreBudgeted(s: Store, events: seq<Event>, id: RowKey, bound: nat)
    requires Sound(s) && AttemptsLogged(s) && Budgeted(id, bound, s.rows)
    requires ProperRun(s, events) && LimitsWithin(id, bound, events)
    ensures var t := Run(s, events);
            && AttemptsLogged(t) && Budgeted(id, bound, t.rows)
            && (forall other :: Attempts(s.rows, other) <= Attempts(t.rows, other))
            && |RecoveryIds(t.recoveries, id)| <= bound
    decreases |events|
  {
    if events != [] {
      assert events[0] in events;
      StepKeepsSound(s, events[0]);
      StepKeepsAttempts(s, events[0]);
      StepKeepsBudget(s, events[0], id, bound);
      RecoveriesAreBudgeted(Step(s, events[0]), events[1..], id, bound);
    } else {
      assert RecoveryIds(s.recoveries, id) == AttemptIds(id.key, Attempts(s.rows, id));
    }
  }

  /** So no two recoveries of a job share a resume id. */
  lemma RecoveryIdsDistinct(s: Store, id: RowKey, i: nat, j: nat)
    requires AttemptsLogged(s) && i < j < |RecoveryIds(s.recoveries, id)|
    ensures RecoveryIds(s.recoveries, id)[i] != RecoveryIds(s.recoveries, id)[j]
  {
    assert RecoveryIds(s.recoveries, id) == AttemptIds(id.key, Attempts(s.rows, id));
    JobKeys.SameJobDistinctAttempts(id.key, i + 1, j + 1);
  }

  /** Plain resumes are different: the next requeue of the row reuses the id exactly when this one
      spent no attempt. */
  lemma NextResumeIdRepeatsIff(s: Store, id: RowKey, recover: bool)
    requires id in s.rows && IsRequeued(s.rows[id], recover)
    ensures var t := RequeueRow(s, id, recover);
            && id in t.rows
            && var next, again := t.rows[id].attemptsUsed + 1, s.rows[id].attemptsUsed + 1;
            JobKeys.ResumeJobId(id.key, next) == JobKeys.ResumeJobId(id.key, again) <==> !Recovers(s.rows[id], recover)
  {
    var t := RequeueRow(s, id, recover);
    JobKeys.SameJobDistinctAttempts(id.key, t.rows[id].attemptsUsed + 1, s.rows[id].attemptsUsed + 1);
  }

  /** Beginning a job forgets the recovery limit it was enqueued with. */
  lemma BeginResetsLimit(s: Store, n: nat, session: string)
    requires Sound(s) && n in s.pending && s.pending[n].payload.execution.Some?
    ensures var id := RowKeyOf(s.pending[n].payload.execution.value);
            && id in BeginDelivery(s, n, session).rows
            && BeginDelivery(s, n, session).rows[id].maxRecoveryAttempts == DEFAULT_RECOVERY_ATTEMPTS
            && BeginDelivery(s, n, session).rows[id].attemptsUsed == Attempts(s.rows, id)
  {
    assert Known(s.pending[n], s.rows.Keys);
    BeginIsBegunAs(s, n, session);
  }

  // ---------------------------------------------------------------- draining

  datatype ResumeArgs = ResumeArgs(tenant: string, batch: string, worker: Option<string>, recover: bool)

  predicate Resumable(rows: map<RowKey, Row>, a: ResumeArgs, id: RowKey) {
    && id in rows && id.tenant == a.tenant && rows[id].batch == a.batch
    && rows[id].state in DEFAULT_STATES
    && (HasText(a.worker) ==> rows[id].worker == a.worker.value)
  }

  function Selected(rows: map<RowKey, Row>, a: ResumeArgs): set<RowKey> {
    set id | id in rows && Resumable(rows, a, id)
  }

  function Elements(page: seq<RowKey>): set<RowKey> {
    set id | id in page
  }

  predicate DistinctKeys(page: seq<RowKey>) {
    forall i, j | 0 <= i < j < |page| :: page[i] != page[j]
  }

  /** What the select statement may return: distinct resumable rows, a full page if there is one. */
  predicate IsPage(rows: map<RowKey, Row>, a: ResumeArgs, page: seq<RowKey>) {
    && DistinctKeys(page) && Elements(page) <= Selected(rows, a)
    && |page| == if |Selected(rows, a)| < PAGE_SIZE then |Selected(rows, a)| else PAGE_SIZE
  }

  function RequeueEvents(page: seq<RowKey>, recover: bool): seq<Event> {
    seq(|page|, i requires 0 <= i < |page| => Requeue(page[i], recover))
  }

  /** `resumeImportRuntimeJobs` over the rows it read. */
  function ResumeCall(s: Store, page: seq<RowKey>, recover: bool): Store {
    Run(s, RequeueEvents(page, recover))
  }

  /** The number of rows of a page that are sent to the broker again. */
  function RequeuedCount(rows: map<RowKey, Row>, page: seq<RowKey>, recover: bool): nat
    requires Elements(page) <= rows.Keys
  {
    if page == [] then 0
    else
      assert page[0] in Elements(page) && Elements(page[1..]) <= Elements(page);
      (if IsRequeued(rows[page[0]], recover) then 1 else 0) + RequeuedCount(rows, page[1..], recover)
  }

  lemma ResumeHead(s: Store, page: seq<RowKey>, recover: bool, next: Store)
    requires page != [] && next == Step(s, Requeue(page[0], recover))
    ensures ResumeCall(s, page, recover) == ResumeCall(next, page[1..], recover)
  {
    assert RequeueEvents(page, recover)[1..] == RequeueEvents(page[1..], recover);
  }

  lemma RequeueLeavesStates(s: Store, id: RowKey, recover: bool, jobId: string)
    requires id in s.rows && s.rows[id].resumePayload.NonEmpty()
    ensures var t := RequeueAs(s, id, recover, jobId);
            && t.rows == s.rows[id := t.rows[id]]
            && t.rows[id].state in {Queued, Recovering, TerminalErrorSkipped}
  {
    RequeueMoves(s, id, recover, jobId);
  }

  lemma RowLeavesSelection(before: map<RowKey, Row>, after: map<RowKey, Row>, a: ResumeArgs, id: RowKey)
    requires id in before && id in after && after == before[id := after[id]]
    requires after[id].state in {Queued, Recovering, TerminalErrorSkipped}
    ensures Selected(after, a) == Selected(before, a) - {id}
  {
  }

  lemma RequeueAsRemovesOne(s: Store, a: ResumeArgs, id: RowKey, jobId: string)
    requires id in Selected(s.rows, a) && s.rows[id].resumePayload.NonEmpty()
    ensures var rows := RequeueAs(s, id, a.recover, jobId).rows;
            && Selected(rows, a) == Selected(s.rows, a) - {id}
            && rows == s.rows[id := rows[id]]
  {
    RequeueLeavesStates(s, id, a.recover, jobId);
    RowLeavesSelection(s.rows, RequeueAs(s, id, a.recover, jobId).rows, a, id);
  }

  /** Requeueing one row takes exactly that row out of the resumable ones and leaves every other row alone. */
  lemma RequeueRemovesOne(s: Store, a: ResumeArgs, id: RowKey, next: Store)
    requires Sound(s) && id in Selected(s.rows, a) && next == RequeueRow(s, id, a.recover)
    ensures Selected(next.rows, a) == Selected(s.rows, a) - {id}
    ensures id in next.rows && next.rows == s.rows[id := next.rows[id]]
  {
    assert CarriesOwnKey(id, s.rows[id]);
    RequeueAsRemovesOne(s, a, id, JobKeys.ResumeJobId(id.key, s.rows[id].attemptsUsed + 1));
  }

  /** A resume call selects the paused, stale and failed rows of its tenant and batch, and of its worker if it
      names one. */
  lemma SelectsIff(rows: map<RowKey, Row>, a: ResumeArgs, id: RowKey)
    ensures id in Selected(rows, a) <==>
      && id in rows && id.tenant == a.tenant && rows[id].batch == a.batch
      && (rows[id].state == Paused || rows[id].state == Stale || rows[id].state == Failed)
      && (a.worker.None? || a.worker.value == "" || rows[id].worker == a.worker.value)
  {
  }

  lemma HeadOfPage(page: seq<RowKey>)
    requires page != [] && DistinctKeys(page)
    ensures DistinctKeys(page[1..]) && page[0] !in Elements(page[1..])
    ensures Elements(page) == {page[0]} + Elements(page[1..])
  {
    forall j | 0 <= j < |page[1..]| ensures page[1..][j] != page[0] {
      assert page[1..][j] == page[j + 1];
    }
  }

  lemma RequeueTakesOne(s: Store, a: ResumeArgs, id: RowKey, next: Store)
    requires Sound(s) && id in Selected(s.rows, a) && next == Step(s, Requeue(id, a.recover))
    ensures Sound(next) && Selected(next.rows, a) == Selected(s.rows, a) - {id}
    ensures id in next.rows && next.rows == s.rows[id := next.rows[id]]
  {
    StepKeepsSound(s, Requeue(id, a.recover));
    RequeueRemovesOne(s, a, id, next);
  }

  /** A resume call takes its whole page out of the resumable rows: every row is requeued or
      written off, because every row carries a payload to resume from. */
  lemma {:induction false} ResumeRemovesPage(s: Store, a: ResumeArgs, page: seq<RowKey>)
    requires Sound(s) && DistinctKeys(page) && Elements(page) <= Selected(s.rows, a)
    ensures Sound(ResumeCall(s, page, a.recover))
    ensures Selected(ResumeCall(s, page, a.recover).rows, a) == Selected(s.rows, a) - Elements(page)
    decreases |page|
  {
    if page == [] {
      assert RequeueEvents(page, a.recover) == [];
    } else {
      var next := Step(s, Requeue(page[0], a.recover));
      HeadOfPage(page);
      ResumeHead(s, page, a.recover, next);
      RequeueTakesOne(s, a, page[0], next);
      ResumeRemovesPage(next, a, page[1..]);
    }
  }

  lemma RequeueSendsOne(s: Store, id: RowKey, recover: bool, next: Store)
    requires id in s.rows && s.rows[id].state in DEFAULT_STATES && next == Step(s, Requeue(id, recover))
    ensures next.nextDelivery == s.nextDelivery + if IsRequeued(s.rows[id], recover) then 1 else 0
  {
  }

  /** One turn of the loop: the first row of the page is done, and the rest is still to do. */
  lemma ResumeTurn(s: Store, a: ResumeArgs, page: seq<RowKey>, next: Store)
    requires Sound(s) && page != [] && DistinctKeys(page) && Elements(page) <= Selected(s.rows, a)
    requires next == Step(s, Requeue(page[0], a.recover))
    ensures Sound(next) && DistinctKeys(page[1..]) && Elements(page[1..]) <= Selected(next.rows, a)
    ensures page[0] !in page[1..] && page[0] in s.rows && page[0] in next.rows
    ensures next.rows == s.rows[page[0] := next.rows[page[0]]]
    ensures next.nextDelivery == s.nextDelivery + if IsRequeued(s.rows[page[0]], a.recover) then 1 else 0
  {
    HeadOfPage(page);
    assert page[0] in Elements(page);
    RequeueTakesOne(s, a, page[0], next);
    RequeueSendsOne(s, page[0], a.recover, next);
  }

  /** A resume call leaves every row alone that is not of its page. */
  lemma {:induction false} ResumeSparesOthers(s: Store, a: ResumeArgs, page: seq<RowKey>, id: RowKey)
    requires Sound(s) && DistinctKeys(page) && Elements(page) <= Selected(s.rows, a)
    requires id in s.rows && id !in page
    ensures id in ResumeCall(s, page, a.recover).rows && ResumeCall(s, page, a.recover).rows[id] == s.rows[id]
    decreases |page|
  {
    if page == [] {
      assert RequeueEvents(page, a.recover) == [];
    } else {
      var next := Step(s, Requeue(page[0], a.recover));
      ResumeTurn(s, a, page, next);
      ResumeHead(s, page, a.recover, next);
      ResumeSparesOthers(next, a, page[1..], id);
    }
  }

  /** What a resume call reports as requeued is what it sends. */
  lemma {:induction false} ReportsWhatItSends(s: Store, a: ResumeArgs, page: seq<RowKey>)
    requires Sound(s) && DistinctKeys(page) && Elements(page) <= Selected(s.rows, a)
    requires Elements(page) <= s.rows.Keys
    ensures ResumeCall(s, page, a.recover).nextDelivery == s.nextDelivery + RequeuedCount(s.rows, page, a.recover)
    decreases |page|
  {
    if page == [] {
      assert RequeueEvents(page, a.recover) == [];
    } else {
      var next := Step(s, Requeue(page[0], a.recover));
      ResumeTurn(s, a, page, next);
      ResumeHead(s, page, a.recover, next);
      ReportsWhatItSends(next, a, page[1..]);
      CountElsewhere(s.rows, next.rows, page[1..], a.recover);
    }
  }

  lemma {:induction false} CountElsewhere(before: map<RowKey, Row>, after: map<RowKey, Row>, page: seq<RowKey>,
                                          recover: bool)
    requires Elements(page) <= before.Keys && Elements(page) <= after.Keys
    requires forall id | id in page :: after[id] == before[id]
    ensures RequeuedCount(after, page, recover) == RequeuedCount(before, page, recover)
  {
    if page != [] {
      CountElsewhere(before, after, page[1..], recover);
    }
  }

  lemma {:induction false} PageSize(page: seq<RowKey>)
    requires DistinctKeys(page)
    ensures |Elements(page)| == |page|
  {
    if page != [] {
      HeadOfPage(page);
      PageSize(page[1..]);
    }
  }

  /** Successive calls, each over a page the database may return at that point. */
  ghost predicate Pages(s: Store, a: ResumeArgs, pages: seq<seq<RowKey>>)
    decreases |pages|
  {
    pages == [] || (IsPage(s.rows, a, pages[0]) && Pages(ResumeCall(s, pages[0], a.recover), a, pages[1..]))
  }

  function ResumeCalls(s: Store, a: ResumeArgs, pages: seq<seq<RowKey>>): Store
    decreases |pages|
  {
    if pages == [] then s else ResumeCalls(ResumeCall(s, pages[0], a.recover), a, pages[1..])
  }

  /** Repeated resume calls drain: k calls take min(n, 1000k) of the n resumable rows, whatever order
      the database reads them in, so ceil(n/1000) calls leave none. */
  lemma {:induction false} ResumeDrains(s: Store, a: ResumeArgs, pages: seq<seq<RowKey>>)
    requires Sound(s) && Pages(s, a, pages)
    ensures var left := |Selected(s.rows, a)| - 1000 * |pages|;
            |Selected(ResumeCalls(s, a, pages).rows, a)| == if left < 0 then 0 else left
    ensures |pages| == (|Selected(s.rows, a)| + 999) / 1000
        ==> Selected(ResumeCalls(s, a, pages).rows, a) == {}
    decreases |pages|
  {
    if pages != [] {
      ResumeRemovesPage(s, a, pages[0]);
      PageSize(pages[0]);
      ResumeDrains(ResumeCall(s, pages[0], a.recover), a, pages[1..]);
    }
  }
}
