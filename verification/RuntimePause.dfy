/** Pauses hold: from a pause until its own resume, no delivery in its scope reaches its processor. */
module RuntimePause {
  import opened Options
  import opened ImportContext
  import opened RuntimeStore
  import opened RuntimeBulk
  import opened RuntimeIdentity
  import opened ImportControl
  import opened ControlRecords

  /** The tenant, the batch or the worker in that batch that a job belongs to. */
  predicate Covers(scope: Scope, context: Context) {
    match scope
    case TenantScope(tenant) => context.tenantId == tenant
    case BatchScope(batch) => BatchKey(context.tenantId, context.batchId) == batch
    case WorkerScope(batch, worker) =>
      BatchKey(context.tenantId, context.batchId) == batch && context.workerName == worker
  }

  predicate InScope(d: Delivery, scope: Scope) {
    d.payload.execution.Some? && Covers(scope, d.payload.execution.value)
  }

  /** The arrival numbers of the scope's deliveries that a processor holds. */
  function HeldOf(s: Store, scope: Scope): set<nat> {
    set n | n in s.inFlight && InScope(s.inFlight[n], scope)
  }

  lemma BulkSparesControl(s: Store, plan: BulkPlan)
    ensures BulkAfter(s, plan).control == s.control && BulkAfter(s, plan).inFlight == s.inFlight
  {
  }

  /** No step of the runtime writes control records. */
  lemma OnlyApiWritesControl(s: Store, e: Event)
    requires Sound(s) && !e.Api?
    ensures Step(s, e).control == s.control
  {
    if e.Begin? && Enabled(s, e) {
      BeginIsBegunAs(s, e.delivery, e.freshSession);
    } else if e.Bulk? && Enabled(s, e) {
      BulkSparesControl(s, PlanBulk(s.control, e.bulk, e.firstSession, e.sessions));
    }
  }

  /** A delivery in a paused scope begins paused, and no processor gets it. */
  lemma BeginInScopeIsPaused(s: Store, n: nat, session: string, scope: Scope)
    requires Sound(s) && PausedAt(s.control, scope) && n in s.pending && InScope(s.pending[n], scope)
    ensures BeginJob(s, s.pending[n], s.pending[n].queueName, session).1
    ensures BeginDelivery(s, n, session).inFlight == s.inFlight
  {
    BeginIsBegunAs(s, n, session);
    BeginContextOfSound(s, n, session);
    assert Halted(s.control, s.pending[n].payload.execution.value);
  }

  // ---------------------------------------------------------------- paused if and only if a scope is

  /** One of the scopes of a job is paused. */
  ghost predicate SomeScopePaused(control: Control, context: Context) {
    exists scope :: Covers(scope, context) && PausedAt(control, scope)
  }

  /** The flags a job reads are those of its own three scopes, and of no other. */
  lemma HaltedIff(control: Control, context: Context)
    ensures Halted(control, context) <==> SomeScopePaused(control, context)
  {
    var batch := BatchKey(context.tenantId, context.batchId);
    assert Covers(TenantScope(context.tenantId), context) && Covers(BatchScope(batch), context);
    assert Covers(WorkerScope(batch, context.workerName), context);
  }

  /** A tracked delivery begins paused, and reaches no processor, if and only if its tenant, its batch or its
      worker in that batch is paused; otherwise its row runs and a worker holds it. */
  lemma BeginIsPausedIff(s: Store, n: nat, session: string, context: Context, t: Store)
    requires Sound(s) && n in s.pending && s.pending[n].payload.execution == Some(context)
    requires t == BeginDelivery(s, n, session)
    ensures BeginJob(s, s.pending[n], s.pending[n].queueName, session).1 <==> SomeScopePaused(s.control, context)
    ensures n !in t.pending && (n in t.inFlight <==> !SomeScopePaused(s.control, context))
    ensures RowKeyOf(context) in t.rows
    ensures t.rows[RowKeyOf(context)].state == if SomeScopePaused(s.control, context) then Paused else Running
  {
    BeginIsBegunAs(s, n, session);
    HaltedIff(s.control, context);
  }

  /** A single enqueue is recorded as paused, with nothing sent, if and only if a scope of its context is
      paused; otherwise one delivery is sent. */
  lemma EnqueueIsPausedIff(s: Store, args: EnqueueArgs, session: string, context: Context, t: Store)
    requires CreateContext(args, session) == Some(context) && t == EnqueueJob(s, args, session)
    ensures RowKeyOf(context) in t.rows
    ensures t.rows[RowKeyOf(context)].state == if SomeScopePaused(s.control, context) then Paused else Queued
    ensures t.nextDelivery == s.nextDelivery + if SomeScopePaused(s.control, context) then 0 else 1
    ensures SomeScopePaused(s.control, context) ==> t.pending == s.pending
    ensures !SomeScopePaused(s.control, context) ==>
      t.pending == s.pending[s.nextDelivery := EnqueueDelivery(args, context, EnqueueJobId(args.opts, context))]
  {
    HaltedIff(s.control, context);
  }

  /** The context whose flags a bulk call reads: the first item's, under the worker the call names. */
  function BulkContext(args: BulkArgs, first: Context): Context {
    first.(workerName := args.workerName.GetOr(first.workerName))
  }

  lemma BulkPlanIsPausedIff(control: Control, args: BulkArgs, firstSession: string, sessions: seq<string>,
                            first: Context)
    requires |sessions| == |args.items| && args.items != []
    requires CreateContext(FirstArgs(args), firstSession) == Some(first)
    ensures var plan := PlanBulk(control, args, firstSession, sessions);
            plan.Accepted? ==> (plan.paused <==> SomeScopePaused(control, BulkContext(args, first)))
  {
    HaltedIff(control, BulkContext(args, first));
  }

  lemma {:induction false} SentStays(s: Store, deliveries: seq<Delivery>, n: nat)
    requires n in s.pending && n < s.nextDelivery
    ensures n in SendAll(s, deliveries).pending && SendAll(s, deliveries).pending[n] == s.pending[n]
    decreases |deliveries|
  {
    if deliveries != [] {
      SentStays(Send(s, deliveries[0]), deliveries[1..], n);
      assert SendAll(s, deliveries) == SendAll(Send(s, deliveries[0]), deliveries[1..]);
    } else {
      assert SendAll(s, deliveries) == s;
    }
  }

  lemma {:induction false} SentAt(s: Store, deliveries: seq<Delivery>, i: nat)
    requires i < |deliveries|
    ensures s.nextDelivery + i in SendAll(s, deliveries).pending
    ensures SendAll(s, deliveries).pending[s.nextDelivery + i] == deliveries[i]
    decreases |deliveries|
  {
    var sent, rest := Send(s, deliveries[0]), deliveries[1..];
    assert SendAll(s, deliveries) == SendAll(sent, rest);
    if i == 0 {
      SentStays(sent, rest, s.nextDelivery);
    } else {
      SentAt(sent, rest, i - 1);
    }
  }

  lemma {:induction false} DeliveryOf(entries: seq<Entry>, i: nat)
    requires i < |entries|
    ensures |Deliveries(entries)| == |entries|
    ensures Deliveries(entries)[i]
         == EnqueueDelivery(entries[i].args, entries[i].context, EnqueueJobId(entries[i].args.opts, entries[i].context))
  {
    if i > 0 {
      DeliveryOf(entries[1..], i - 1);
    } else if |entries| > 1 {
      DeliveryOf(entries[1..], 0);
    }
  }

  /** An accepted bulk call records every entry as paused, with nothing sent, or every entry as queued, with
      one delivery each in the order of the entries. */
  lemma BulkIsAllOrNothing(s: Store, entries: seq<Entry>, home: CounterKey, paused: bool, i: nat, t: Store)
    requires !KeyTwice(entries) && i < |entries| && t == BulkApply(s, entries, home, paused)
    ensures RowKeyOf(entries[i].context) in t.rows
    ensures t.rows[RowKeyOf(entries[i].context)].state == if paused then Paused else Queued
    ensures paused ==> t.pending == s.pending
    ensures !paused ==>
      && s.nextDelivery + i in t.pending && t.nextDelivery == s.nextDelivery + |entries|
      && t.pending[s.nextDelivery + i]
           == EnqueueDelivery(entries[i].args, entries[i].context,
                              EnqueueJobId(entries[i].args.opts, entries[i].context))
  {
    InsertedAt(s.rows, entries, paused, entries[i]);
    DeliveryOf(entries, i);
    var recorded := s.(rows := t.rows, counters := t.counters);
    SentAt(recorded, Deliveries(entries), i);
  }

  /** A progress report is paused if and only if its patch says so or a scope of the job is paused. */
  lemma ProgressIsPausedIff(s: Store, n: nat, patch: Patch, context: Context, t: Store)
    requires n in s.inFlight && s.inFlight[n].payload.execution == Some(context)
    requires t == ProgressJob(s, s.inFlight[n], patch)
    ensures RowKeyOf(context) in t.rows
    ensures t.rows[RowKeyOf(context)].state
         == if patch.markPaused || SomeScopePaused(s.control, context) then Paused else Running
  {
    HaltedIff(s.control, context);
  }

  // ---------------------------------------------------------------- a resumed scope starts again

  /** A pause command moves no other scope's flag. */
  lemma PauseCommandSparesOthers(c: Control, scope: Scope, paused: bool, who: Caller, other: Scope)
    requires other != scope
    ensures PausedAt(Apply(c, PauseCommand(scope, paused), who), other) <==> PausedAt(c, other)
  {
    if Writable(c, scope) {
      match scope
      case TenantScope(tenant) => if other.TenantScope? { GlobalPauseReadsBack(c, tenant, paused, who, other.tenant); }
      case BatchScope(batch) =>
        if !other.TenantScope? {
          BatchPauseReadsBack(c, batch, paused, who, other.batch, if other.WorkerScope? then other.worker else "");
        }
      case WorkerScope(batch, worker) =>
        if !other.TenantScope? {
          WorkerPauseReadsBack(
            c, batch, worker, paused, who, other.batch, if other.WorkerScope? then other.worker else "");
        }
    }
  }

  /** After a scope's own resume, with no other scope of the job paused, its next begin starts. */
  lemma ResumedScopeStarts(s: Store, scope: Scope, who: Caller, n: nat, session: string, context: Context, t: Store)
    requires Sound(s) && n in s.pending && s.pending[n].payload.execution == Some(context)
    requires Covers(scope, context) && Writable(s.control, scope)
    requires forall other | Covers(other, context) && other != scope :: !PausedAt(s.control, other)
    requires t == Step(s, Api(PauseCommand(scope, false), who))
    ensures n in t.pending && n in BeginDelivery(t, n, session).inFlight
    ensures RowKeyOf(context) in BeginDelivery(t, n, session).rows
    ensures BeginDelivery(t, n, session).rows[RowKeyOf(context)].state == Running
  {
    forall other | Covers(other, context) ensures !PausedAt(t.control, other) {
      PauseCommandReadsBack(s.control, scope, false, who);
      if other != scope {
        PauseCommandSparesOthers(s.control, scope, false, who, other);
      }
    }
    BeginIsPausedIff(t, n, session, context, BeginDelivery(t, n, session));
  }

  // ---------------------------------------------------------------- whole runs

  /** Only a begin hands a delivery to a worker. */
  lemma OthersHandNothing(s: Store, e: Event)
    requires !e.Begin?
    ensures forall n | n in Step(s, e).inFlight :: n in s.inFlight && Step(s, e).inFlight[n] == s.inFlight[n]
  {
    if e.Bulk? && Enabled(s, e) {
      BulkSparesControl(s, PlanBulk(s.control, e.bulk, e.firstSession, e.sessions));
    }
  }

  lemma BeginHandsItsOwn(s: Store, n: nat, session: string)
    requires Sound(s) && n in s.pending
    ensures var after := BeginDelivery(s, n, session).inFlight;
            after == s.inFlight || after == s.inFlight[n := s.pending[n]]
  {
    BeginIsBegunAs(s, n, session);
  }

  lemma BeginAddsNone(s: Store, n: nat, session: string, scope: Scope)
    requires Sound(s) && PausedAt(s.control, scope) && n in s.pending
    ensures HeldOf(BeginDelivery(s, n, session), scope) <= HeldOf(s, scope)
  {
    BeginHandsItsOwn(s, n, session);
    if InScope(s.pending[n], scope) {
      BeginInScopeIsPaused(s, n, session, scope);
    }
  }

  /** While a scope is paused a step holds no more of its deliveries than before. */
  lemma PausedStepAddsNone(s: Store, e: Event, scope: Scope)
    requires Sound(s) && PausedAt(s.control, scope)
    ensures HeldOf(Step(s, e), scope) <= HeldOf(s, scope)
  {
    if !e.Begin? {
      OthersHandNothing(s, e);
    } else if Enabled(s, e) {
      var after := BeginDelivery(s, e.delivery, e.freshSession);
      assert Step(s, e) == after;
      BeginAddsNone(s, e.delivery, e.freshSession, scope);
    }
  }

  predicate Resumes(e: Event, scope: Scope) {
    e.Api? && e.command == PauseCommand(scope, false)
  }

  lemma StepOfPaused(s: Store, e: Event, scope: Scope)
    requires Sound(s) && PausedAt(s.control, scope) && !Resumes(e, scope)
    ensures PausedAt(Step(s, e).control, scope) && HeldOf(Step(s, e), scope) <= HeldOf(s, scope)
  {
    PausedStepAddsNone(s, e, scope);
    if e.Api? {
      PauseLasts(s.control, e.command, e.who, scope);
    } else {
      OnlyApiWritesControl(s, e);
    }
  }

  /** From a pause until its own resume, over any run: the scope stays paused, so that every begin in it
      reports paused, and no processor starts on it. */
  lemma {:induction false} PausedScopeNeverStarts(s: Store, events: seq<Event>, scope: Scope)
    requires Sound(s) && ProperRun(s, events) && PausedAt(s.control, scope)
    requires forall e | e in events :: !Resumes(e, scope)
    ensures PausedAt(Run(s, events).control, scope)
    ensures HeldOf(Run(s, events), scope) <= HeldOf(s, scope)
    decreases |events|
  {
    if events != [] {
      assert events[0] in events;
      StepKeepsSound(s, events[0]);
      StepOfPaused(s, events[0], scope);
      PausedScopeNeverStarts(Step(s, events[0]), events[1..], scope);
    }
  }

  // ---------------------------------------------------------------- and nothing else stops a job

  lemma StepOfUnpaused(s: Store, e: Event, scope: Scope)
    requires Sound(s) && !PausedAt(s.control, scope) && !(e.Api? && Pauses(e.command, scope))
    ensures !PausedAt(Step(s, e).control, scope)
  {
    if e.Api? {
      OnlyItsOwnCommandPauses(s.control, e.command, e.who, scope);
    } else {
      OnlyApiWritesControl(s, e);
    }
  }

  /** Over any run a scope that is not paused stays so until its own pause command, or its batch's deletion. */
  lemma {:induction false} UnpausedStays(s: Store, events: seq<Event>, scope: Scope)
    requires Sound(s) && ProperRun(s, events) && !PausedAt(s.control, scope)
    requires forall e | e in events :: !(e.Api? && Pauses(e.command, scope))
    ensures Sound(Run(s, events)) && !PausedAt(Run(s, events).control, scope)
    decreases |events|
  {
    if events != [] {
      assert events[0] in events;
      StepKeepsSound(s, events[0]);
      StepOfUnpaused(s, events[0], scope);
      UnpausedStays(Step(s, events[0]), events[1..], scope);
    }
  }

  /** So a job none of whose three scopes was paused, at first or by any command since, starts at its begin. */
  lemma NeverPausedStarts(s: Store, events: seq<Event>, n: nat, session: string, context: Context, t: Store)
    requires Sound(s) && ProperRun(s, events) && t == Run(s, events)
    requires forall scope | Covers(scope, context) :: !PausedAt(s.control, scope)
    requires forall e, scope | e in events && Covers(scope, context) :: !(e.Api? && Pauses(e.command, scope))
    requires n in t.pending && t.pending[n].payload.execution == Some(context)
    ensures n in BeginDelivery(t, n, session).inFlight
  {
    forall scope | Covers(scope, context) ensures Sound(t) && !PausedAt(t.control, scope) {
      UnpausedStays(s, events, scope);
    }
    assert Covers(TenantScope(context.tenantId), context);
    BeginIsPausedIff(t, n, session, context, BeginDelivery(t, n, session));
  }
}
