/** Execution contexts: what a job payload carries, and how an enqueue call derives it. */
module ImportContext {
  import opened Options
  import JobKeys

  datatype Context = Context(
    tenantId: string, batchId: string, sessionId: string, runtimeJobKey: string,
    parentRuntimeJobKey: Option<string>, correlationId: Option<string>, queueName: Option<string>,
    workerName: string, stageKey: string,
    entityType: Option<string>, entityId: Option<string>, idempotencyScope: Option<string>)

  /** `Partial<ImportExecutionContext>`. */
  datatype PartialContext = PartialContext(
    tenantId: Option<string>, batchId: Option<string>, sessionId: Option<string>,
    runtimeJobKey: Option<string>, parentRuntimeJobKey: Option<string>, correlationId: Option<string>,
    workerName: Option<string>, stageKey: Option<string>,
    entityType: Option<string>, entityId: Option<string>, idempotencyScope: Option<string>)

  const NO_PARTIAL := PartialContext(None, None, None, None, None, None, None, None, None, None, None)

  /** `getImportExecutionContext` of a running job, passed on as the explicit context. */
  function AsPartial(c: Context): PartialContext {
    PartialContext(Some(c.tenantId), Some(c.batchId), Some(c.sessionId), Some(c.runtimeJobKey), c.parentRuntimeJobKey,
                   c.correlationId, Some(c.workerName), Some(c.stageKey), c.entityType, c.entityId, c.idempotencyScope)
  }

  /** A job payload: its top-level string fields, and the embedded context when all six
      required context fields are strings. */
  datatype Payload = Payload(fields: map<string, string>, execution: Option<Context>) {

    function Field(name: string): Option<string> {
      if name in fields then Some(fields[name]) else None
    }

    /** `Object.keys(payload).length > 0`. */
    predicate NonEmpty() {
      fields != map[] || execution.Some?
    }
  }

  function WithContext(payload: Payload, context: Context): Payload {
    payload.(execution := Some(context))
  }

  datatype JobOptions = JobOptions(jobId: Option<string>, attempts: nat)

  datatype EnqueueArgs = EnqueueArgs(
    queueName: string, jobName: string, payload: Payload, opts: JobOptions,
    explicit: Option<PartialContext>, parent: Option<Context>,
    workerName: Option<string>, stageKey: Option<string>,
    entityType: Option<string>, entityId: Option<string>, contactId: Option<string>,
    idempotencyScope: Option<string>, correlationId: Option<string>, maxRecoveryAttempts: Option<nat>)

  // ---------------------------------------------------------------- stage keys

  const STAGE_PREFIXES: seq<(string, string)> := [
    ("ingest:", "ingest"), ("normalize:", "normalization"), ("enrich:bronze:anaf", "anaf_bronze"),
    ("validate:cui:", "validation"), ("pipeline:promote:bronze-silver", "promotion"),
    ("pipeline:orchestrate", "orchestrate"), ("enrich:", "enrichment"), ("discover:", "discovery"),
    ("geo:", "geography"), ("score:", "scoring"), ("aggregate:", "aggregation"), ("dedup:", "dedup"),
    ("hitl:", "hitl"), ("agri:", "agri"), ("scrape:", "scrape"), ("ai:", "ai")]

  function FirstStage(queueName: string, table: seq<(string, string)>): string {
    if table == [] then "import_pipeline"
    else if table[0].0 <= queueName then table[0].1
    else FirstStage(queueName, table[1..])
  }

  predicate Blank(text: string) {
    forall c | c in text :: c in " \t\n\r"
  }

  function StageKey(queueName: string, explicit: Option<string>): string {
    if explicit.Some? && !Blank(explicit.value) then explicit.value
    else FirstStage(queueName, STAGE_PREFIXES)
  }

  // ---------------------------------------------------------------- deriving the context

  function EntityTypeOf(payload: Payload): Option<string> {
    if payload.Field("entityType").Some? then payload.Field("entityType")
    else if payload.Field("companyId").Some? then Some("company")
    else if payload.Field("bronzeContactId").Some? then Some("bronze_contact")
    else None
  }

  function EntityIdOf(payload: Payload): Option<string> {
    Or(payload.Field("entityId"), Or(payload.Field("companyId"), payload.Field("bronzeContactId")))
  }

  function TenantOf(args: EnqueueArgs): Option<string> {
    Or(args.explicit.GetOr(NO_PARTIAL).tenantId,
       if args.parent.Some? then Some(args.parent.value.tenantId) else args.payload.Field("tenantId"))
  }

  function BatchOf(args: EnqueueArgs): Option<string> {
    Or(args.explicit.GetOr(NO_PARTIAL).batchId,
       if args.parent.Some? then Some(args.parent.value.batchId) else args.payload.Field("batchId"))
  }

  /** `createExecutionContextFromArgs`; `freshSession` is the id of the session row it inserts when
      neither the explicit nor the parent context names one. */
  function CreateContext(args: EnqueueArgs, freshSession: string): Option<Context> {
    if args.payload.execution.Some? then
      var carried := args.payload.execution.value;
      Some(carried.(
        workerName := args.workerName.GetOr(carried.workerName),
        stageKey := StageKey(args.queueName, Some(args.stageKey.GetOr(carried.stageKey)))))
    else if !HasText(TenantOf(args)) || !HasText(BatchOf(args)) then None
    else Some(DeriveContext(args, freshSession))
  }

  /** What a derived job key is made of. */
  function KeyArgsOf(args: EnqueueArgs): JobKeys.KeyArgs
    requires HasText(BatchOf(args))
  {
    var explicit := args.explicit.GetOr(NO_PARTIAL);
    var parentCorrelation := if args.parent.Some? then args.parent.value.correlationId else None;
    JobKeys.KeyArgs(
      args.queueName, args.jobName,
      args.workerName.GetOr(explicit.workerName.GetOr(args.queueName)),
      BatchOf(args).value,
      Or(args.entityType, Or(explicit.entityType, EntityTypeOf(args.payload))),
      Or(args.entityId, Or(explicit.entityId, EntityIdOf(args.payload))),
      Or(args.idempotencyScope,
         Or(explicit.idempotencyScope, if HasText(args.opts.jobId) then args.opts.jobId else None)),
      Or(args.correlationId, Or(explicit.correlationId, Or(parentCorrelation, args.payload.Field("correlationId")))),
      Or(explicit.parentRuntimeJobKey, if args.parent.Some? then Some(args.parent.value.runtimeJobKey) else None))
  }

  /** The job key: the one the explicit context names, or one derived. */
  function JobKeyOf(args: EnqueueArgs): string
    requires HasText(BatchOf(args))
  {
    args.explicit.GetOr(NO_PARTIAL).runtimeJobKey.GetOr(JobKeys.RuntimeJobKey(KeyArgsOf(args)))
  }

  function DeriveContext(args: EnqueueArgs, freshSession: string): Context
    requires HasText(TenantOf(args)) && HasText(BatchOf(args))
  {
    var explicit, parts := args.explicit.GetOr(NO_PARTIAL), KeyArgsOf(args);
    var sessionId := explicit.sessionId.GetOr(if args.parent.Some? then args.parent.value.sessionId else freshSession);
    Context(TenantOf(args).value, BatchOf(args).value, sessionId, JobKeyOf(args), parts.parentRuntimeJobKey,
            parts.correlationId, Some(args.queueName), parts.workerName,
            StageKey(args.queueName, Or(args.stageKey, explicit.stageKey)),
            parts.entityType, parts.entityId, parts.idempotencyScope)
  }
}
