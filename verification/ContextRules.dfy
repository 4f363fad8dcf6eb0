/** Where an enqueue takes its context from, and which two enqueues are one job. */
module ContextRules {
  import opened Options
  import opened ImportContext
  import opened RuntimeStore
  import opened JobKeys

  /** `value` is the first of the choices that is there. */
  ghost predicate FirstOf(value: Option<string>, choices: seq<Option<string>>) {
    if choices == [] then value == None
    else if choices[0].Some? then value == choices[0]
    else FirstOf(value, choices[1..])
  }

  lemma FirstOfTwo(a: Option<string>, b: Option<string>)
    ensures FirstOf(Or(a, b), [a, b])
  {
    assert [a, b][1..] == [b] && [b][1..] == [];
  }

  lemma FirstOfThree(a: Option<string>, b: Option<string>, c: Option<string>)
    ensures FirstOf(Or(a, Or(b, c)), [a, b, c])
  {
    FirstOfTwo(b, c);
    assert [a, b, c][1..] == [b, c];
  }

  lemma FirstOfFour(a: Option<string>, b: Option<string>, c: Option<string>, d: Option<string>)
    ensures FirstOf(Or(a, Or(b, Or(c, d))), [a, b, c, d])
  {
    FirstOfThree(b, c, d);
    assert [a, b, c, d][1..] == [b, c, d];
  }

  lemma FirstOfFive(a: Option<string>, b: Option<string>, c: Option<string>, d: Option<string>, e: Option<string>)
    ensures FirstOf(Or(a, Or(b, Or(c, Or(d, e)))), [a, b, c, d, e])
  {
    FirstOfFour(b, c, d, e);
    assert [a, b, c, d, e][1..] == [b, c, d, e];
  }

  // ---------------------------------------------------------------- where a context comes from

  /** The parent job's context, or nothing. */
  function ParentOf(args: EnqueueArgs): PartialContext {
    if args.parent.Some? then AsPartial(args.parent.value) else NO_PARTIAL
  }

  /** The kind of entity that a payload names by one of its ids. */
  function NamedBy(payload: Payload, field: string, entity: string): Option<string> {
    if payload.Field(field).Some? then Some(entity) else None
  }

  /** An embedded context is carried on; the call may give it another worker or stage, and nothing else. */
  lemma CarriedContext(args: EnqueueArgs, session: string, carried: Context, c: Context)
    requires args.payload.execution == Some(carried) && CreateContext(args, session) == Some(c)
    ensures c == carried.(workerName := c.workerName, stageKey := c.stageKey)
    ensures FirstOf(Some(c.workerName), [args.workerName, Some(carried.workerName)])
    ensures c.stageKey == StageKey(args.queueName, Or(args.stageKey, Some(carried.stageKey)))
  {
    FirstOfTwo(args.workerName, Some(carried.workerName));
  }

  /** Without one, a job is tracked if and only if a tenant and a batch are named: by the explicit context, or
      else by the parent's, or else by the payload. */
  lemma TrackedIff(args: EnqueueArgs, session: string, tenant: Option<string>, batch: Option<string>)
    requires args.payload.execution.None?
    requires FirstOf(tenant, [args.explicit.GetOr(NO_PARTIAL).tenantId, ParentOf(args).tenantId,
                              args.payload.Field("tenantId")])
    requires FirstOf(batch, [args.explicit.GetOr(NO_PARTIAL).batchId, ParentOf(args).batchId,
                             args.payload.Field("batchId")])
    ensures CreateContext(args, session).Some? <==> HasText(tenant) && HasText(batch)
    ensures CreateContext(args, session).Some? ==>
      CreateContext(args, session).value.tenantId == tenant.value
      && CreateContext(args, session).value.batchId == batch.value
  {
    var explicit, parent := args.explicit.GetOr(NO_PARTIAL), ParentOf(args);
    FirstOfThree(explicit.tenantId, parent.tenantId, args.payload.Field("tenantId"));
    FirstOfThree(explicit.batchId, parent.batchId, args.payload.Field("batchId"));
    FirstIsOne(tenant, TenantOf(args), [explicit.tenantId, parent.tenantId, args.payload.Field("tenantId")]);
    FirstIsOne(batch, BatchOf(args), [explicit.batchId, parent.batchId, args.payload.Field("batchId")]);
  }

  lemma FirstIsOne(a: Option<string>, b: Option<string>, choices: seq<Option<string>>)
    requires FirstOf(a, choices) && FirstOf(b, choices)
    ensures a == b
  {
  }

  /** Who the job works for: its worker, its session and its parent. */
  lemma DerivedOwners(args: EnqueueArgs, session: string, explicit: PartialContext, parent: PartialContext, c: Context)
    requires args.payload.execution.None? && CreateContext(args, session) == Some(c)
    requires explicit == args.explicit.GetOr(NO_PARTIAL) && parent == ParentOf(args)
    ensures c.queueName == Some(args.queueName)
    ensures FirstOf(Some(c.workerName), [args.workerName, explicit.workerName, Some(args.queueName)])
    ensures FirstOf(Some(c.sessionId), [explicit.sessionId, parent.sessionId, Some(session)])
    ensures FirstOf(c.parentRuntimeJobKey, [explicit.parentRuntimeJobKey, parent.runtimeJobKey])
    ensures FirstOf(c.correlationId, [args.correlationId, explicit.correlationId, parent.correlationId,
                                      args.payload.Field("correlationId")])
    ensures c.stageKey == StageKey(args.queueName, Or(args.stageKey, explicit.stageKey))
  {
    FirstOfThree(args.workerName, explicit.workerName, Some(args.queueName));
    FirstOfThree(explicit.sessionId, parent.sessionId, Some(session));
    FirstOfTwo(explicit.parentRuntimeJobKey, parent.runtimeJobKey);
    FirstOfFour(args.correlationId, explicit.correlationId, parent.correlationId, args.payload.Field("correlationId"));
  }

  /** What the job works on: the entity, and the scope in which it is to run once. */
  lemma DerivedSubject(args: EnqueueArgs, session: string, explicit: PartialContext, c: Context)
    requires args.payload.execution.None? && CreateContext(args, session) == Some(c)
    requires explicit == args.explicit.GetOr(NO_PARTIAL)
    ensures FirstOf(c.entityType, [args.entityType, explicit.entityType, args.payload.Field("entityType"),
                                   NamedBy(args.payload, "companyId", "company"),
                                   NamedBy(args.payload, "bronzeContactId", "bronze_contact")])
    ensures FirstOf(c.entityId, [args.entityId, explicit.entityId, args.payload.Field("entityId"),
                                 args.payload.Field("companyId"), args.payload.Field("bronzeContactId")])
    ensures FirstOf(c.idempotencyScope, [args.idempotencyScope, explicit.idempotencyScope,
                                         if HasText(args.opts.jobId) then args.opts.jobId else None])
  {
    var payload := args.payload;
    FirstOfFive(args.entityType, explicit.entityType, payload.Field("entityType"),
                NamedBy(payload, "companyId", "company"), NamedBy(payload, "bronzeContactId", "bronze_contact"));
    FirstOfFive(args.entityId, explicit.entityId, payload.Field("entityId"),
                payload.Field("companyId"), payload.Field("bronzeContactId"));
    FirstOfThree(args.idempotencyScope, explicit.idempotencyScope,
                 if HasText(args.opts.jobId) then args.opts.jobId else None);
  }

  /** A stage is the one named, unless that is blank, or else the one of the first prefix of the queue's name
      in the table, or else the import pipeline's. */
  lemma StageIsFirstPrefix(queueName: string, explicit: Option<string>, i: nat)
    requires i <= |STAGE_PREFIXES| && forall j | 0 <= j < i :: !(STAGE_PREFIXES[j].0 <= queueName)
    requires i < |STAGE_PREFIXES| ==> STAGE_PREFIXES[i].0 <= queueName
    requires explicit.Some? ==> forall c | c in explicit.value :: c in " \t\n\r"
    ensures StageKey(queueName, explicit) == if i == |STAGE_PREFIXES| then "import_pipeline" else STAGE_PREFIXES[i].1
    ensures forall stage: string | (exists c :: c in stage && c !in " \t\n\r") ::
      StageKey(queueName, Some(stage)) == stage
  {
    FirstPrefix(queueName, STAGE_PREFIXES, i);
  }

  lemma {:induction false} FirstPrefix(queueName: string, table: seq<(string, string)>, i: nat)
    requires i <= |table| && forall j | 0 <= j < i :: !(table[j].0 <= queueName)
    requires i < |table| ==> table[i].0 <= queueName
    ensures FirstStage(queueName, table) == if i == |table| then "import_pipeline" else table[i].1
  {
    if i > 0 {
      assert forall j | 0 <= j < i - 1 :: table[1..][j] == table[j + 1];
      FirstPrefix(queueName, table[1..], i - 1);
    }
  }

  // ---------------------------------------------------------------- which enqueues are one job

  /** The nine fields of a job whose key is derived can each be told from the rest of its preimage. */
  predicate PlainJob(args: EnqueueArgs, c: Context) {
    && Plain(args.queueName) && Plain(args.jobName) && Plain(c.workerName) && Plain(c.batchId)
    && Plain(c.entityType.GetOr("")) && Plain(c.entityId.GetOr("")) && Plain(c.idempotencyScope.GetOr(""))
    && Plain(c.correlationId.GetOr("")) && Plain(c.parentRuntimeJobKey.GetOr(""))
  }

  /** Two jobs leave out the same fields. */
  predicate NamesTheSame(a: EnqueueArgs, c: Context, b: EnqueueArgs, d: Context) {
    && (a.queueName == "" <==> b.queueName == "") && (a.jobName == "" <==> b.jobName == "")
    && (c.workerName == "" <==> d.workerName == "")
    && (HasText(c.entityType) <==> HasText(d.entityType)) && (HasText(c.entityId) <==> HasText(d.entityId))
    && (HasText(c.idempotencyScope) <==> HasText(d.idempotencyScope))
    && (HasText(c.correlationId) <==> HasText(d.correlationId))
    && (HasText(c.parentRuntimeJobKey) <==> HasText(d.parentRuntimeJobKey))
  }

  /** A derived key is that of the queue and job names and of seven fields of the context. */
  lemma DerivedKey(args: EnqueueArgs, session: string, c: Context)
    requires args.payload.execution.None? && CreateContext(args, session) == Some(c)
    ensures c.runtimeJobKey == args.explicit.GetOr(NO_PARTIAL).runtimeJobKey.GetOr(RuntimeJobKey(
      KeyArgs(args.queueName, args.jobName, c.workerName, c.batchId, c.entityType, c.entityId,
              c.idempotencyScope, c.correlationId, c.parentRuntimeJobKey)))
    ensures c.batchId != "" && c.tenantId != ""
  {
  }

  /** Two enqueues, neither of which carries or names a job key, get one row if and only if tenant, queue, job
      name, worker, batch, entity, scope, correlation and parent all agree, provided the fields are plain and
      the same ones are left out. */
  lemma SameRowIffSameJob(a: EnqueueArgs, sa: string, c: Context, b: EnqueueArgs, sb: string, d: Context)
    requires a.payload.execution.None? && CreateContext(a, sa) == Some(c)
    requires b.payload.execution.None? && CreateContext(b, sb) == Some(d)
    requires a.explicit.GetOr(NO_PARTIAL).runtimeJobKey.None? && b.explicit.GetOr(NO_PARTIAL).runtimeJobKey.None?
    requires PlainJob(a, c) && PlainJob(b, d) && NamesTheSame(a, c, b, d)
    ensures RowKeyOf(c) == RowKeyOf(d) <==>
      && c.tenantId == d.tenantId && a.queueName == b.queueName && a.jobName == b.jobName
      && c.workerName == d.workerName && c.batchId == d.batchId
      && (HasText(c.entityType) ==> c.entityType == d.entityType)
      && (HasText(c.entityId) ==> c.entityId == d.entityId)
      && (HasText(c.idempotencyScope) ==> c.idempotencyScope == d.idempotencyScope)
      && (HasText(c.correlationId) ==> c.correlationId == d.correlationId)
      && (HasText(c.parentRuntimeJobKey) ==> c.parentRuntimeJobKey == d.parentRuntimeJobKey)
  {
    DerivedKey(a, sa, c);
    DerivedKey(b, sb, d);
    PlainFieldsIdentify(
      KeyArgs(a.queueName, a.jobName, c.workerName, c.batchId, c.entityType, c.entityId,
              c.idempotencyScope, c.correlationId, c.parentRuntimeJobKey),
      KeyArgs(b.queueName, b.jobName, d.workerName, d.batchId, d.entityType, d.entityId,
              d.idempotencyScope, d.correlationId, d.parentRuntimeJobKey));
  }
}
