/** Pause control: the JSON records that hold it, the API commands that change them, and the
    guarantee that a deleted batch stays paused. */
module ImportControl {
  import opened Options

  datatype Json = Null | Bool(b: bool) | Num(n: int) | Str(s: string) | Arr(items: seq<Json>) | Obj(fields: Record)

  type Record = map<string, Json>

  function Get(record: Record, key: string): Json {
    if key in record then record[key] else Null
  }

  function AsRecord(value: Json): Record {
    if value.Obj? then value.fields else map[]
  }

  /** JavaScript's `Boolean(value)`; a missing field reads as `Null`. */
  predicate Truthy(value: Json) {
    match value
    case Null => false
    case Bool(b) => b
    case Num(n) => n != 0
    case Str(s) => s != ""
    case Arr(_) => true
    case Obj(_) => true
  }

  /** What counts as false, and nothing else. */
  lemma FalsyIff(value: Json)
    ensures !Truthy(value) <==> value in {Null, Bool(false), Num(0), Str("")}
  {
  }

  function OnlyString(value: Json): Json {
    if value.Str? then value else Null
  }

  const SETTINGS_KEY := "importContactsControl"
  const CONTROL_KEY := "importExecutionControl"

  datatype BatchStatus = Pending | Processing | CompletedBatch | FailedBatch | CancelledBatch
  datatype Batch = Batch(status: BatchStatus, metadata: Record)
  datatype BatchKey = BatchKey(tenant: string, batch: string)
  datatype Control = Control(settings: map<string, Record>, batches: map<BatchKey, Batch>)

  // ---------------------------------------------------------------- reading

  function Settings(c: Control, tenant: string): Record {
    if tenant in c.settings then c.settings[tenant] else map[]
  }

  function Metadata(c: Control, key: BatchKey): Record {
    if key in c.batches then c.batches[key].metadata else map[]
  }

  function BatchControl(c: Control, key: BatchKey): Record {
    AsRecord(Get(Metadata(c, key), CONTROL_KEY))
  }

  predicate GlobalPaused(c: Control, tenant: string) {
    Truthy(Get(AsRecord(Get(Settings(c, tenant), SETTINGS_KEY)), "globalPaused"))
  }

  predicate BatchPaused(c: Control, key: BatchKey) {
    Truthy(Get(BatchControl(c, key), "batchPaused"))
  }

  predicate WorkerPaused(c: Control, key: BatchKey, worker: string) {
    Truthy(Get(AsRecord(Get(BatchControl(c, key), "workerPauses")), worker))
  }

  predicate IsPaused(c: Control, tenant: string, batch: string, worker: string) {
    || GlobalPaused(c, tenant)
    || BatchPaused(c, BatchKey(tenant, batch))
    || WorkerPaused(c, BatchKey(tenant, batch), worker)
  }

  /** `isImportBatchHidden`: hidden flag, or a textual deletion time. */
  predicate Hidden(metadata: Record) {
    var control := AsRecord(Get(metadata, CONTROL_KEY));
    Truthy(Get(control, "hidden")) || Get(control, "deletedAt").Str?
  }

  /** `readBatchImportControlState`, as the record it is spread back into. */
  function ReadBatchControl(metadata: Record): Record {
    var control := AsRecord(Get(metadata, CONTROL_KEY));
    var pauses := AsRecord(Get(control, "workerPauses"));
    map["batchPaused" := Bool(Truthy(Get(control, "batchPaused"))),
        "pausedAt" := OnlyString(Get(control, "pausedAt")),
        "pausedBy" := OnlyString(Get(control, "pausedBy")),
        "resumeRequestedAt" := OnlyString(Get(control, "resumeRequestedAt")),
        "workerPauses" := Obj(map w | w in pauses :: Bool(Truthy(pauses[w]))),
        "deleteRequested" := Bool(Truthy(Get(control, "deleteRequested"))),
        "deleteRequestedAt" := OnlyString(Get(control, "deleteRequestedAt")),
        "deleteRequestedBy" := OnlyString(Get(control, "deleteRequestedBy")),
        "hidden" := Bool(Truthy(Get(control, "hidden"))),
        "deletedAt" := OnlyString(Get(control, "deletedAt")),
        "deletedBy" := OnlyString(Get(control, "deletedBy")),
        "fileDeleted" := Bool(Truthy(Get(control, "fileDeleted")))]
  }

  // ---------------------------------------------------------------- writing

  /** One request: who asks, and when. */
  datatype Caller = Caller(now: string, actor: Option<string>) {
    function By(): Json { if actor.Some? then Str(actor.value) else Null }
  }

  function PauseFields(current: Record, flag: string, paused: bool, who: Caller): Record {
    current + map[
      flag := Bool(paused),
      "pausedAt" := if paused then Str(who.now) else Null,
      "pausedBy" := if paused then who.By() else Null,
      "resumeRequestedAt" := if paused then Get(current, "resumeRequestedAt") else Str(who.now)]
  }

  function FiniteNumber(value: Json): int {
    match value
    case Num(n) => n
    case Bool(b) => if b then 1 else 0
    case _ => 0
  }

  function SetGlobalPause(c: Control, tenant: string, paused: bool, who: Caller): Control {
    if tenant !in c.settings then c else
    var settings := c.settings[tenant];
    var current := AsRecord(Get(settings, SETTINGS_KEY));
    var next := PauseFields(current, "globalPaused", paused, who)
      ["version" := Num(FiniteNumber(Get(current, "version")) + 1)];
    c.(settings := c.settings[tenant := settings[SETTINGS_KEY := Obj(next)]])
  }

  function SetBatchControl(c: Control, key: BatchKey, next: Record): Control {
    if key !in c.batches then c else
    c.(batches := c.batches[key := c.batches[key].(metadata := c.batches[key].metadata[CONTROL_KEY := Obj(next)])])
  }

  function SetBatchPause(c: Control, key: BatchKey, paused: bool, who: Caller): Control {
    SetBatchControl(c, key, PauseFields(BatchControl(c, key), "batchPaused", paused, who))
  }

  function SetWorkerPause(c: Control, key: BatchKey, worker: string, paused: bool, who: Caller): Control {
    var current := BatchControl(c, key);
    var pauses := AsRecord(Get(current, "workerPauses"))[worker := Bool(paused)];
    SetBatchControl(c, key, current["workerPauses" := Obj(pauses)]
      ["workerPauseUpdatedAt" := Str(who.now)]["workerPauseUpdatedBy" := who.By()])
  }

  function MarkDeleteRequested(c: Control, key: BatchKey, who: Caller): Control {
    SetBatchControl(c, key, BatchControl(c, key)["deleteRequested" := Bool(true)]
      ["deleteRequestedAt" := Str(who.now)]["deleteRequestedBy" := who.By()])
  }

  /** The record a deletion leaves behind: the flags read before the request's own pause writes. */
  function DeletedControl(metadata: Record, fileDeleted: bool, who: Caller): Record {
    ReadBatchControl(metadata) + map[
      "batchPaused" := Bool(true), "deleteRequested" := Bool(true), "deleteRequestedAt" := Str(who.now),
      "deleteRequestedBy" := who.By(), "hidden" := Bool(true), "deletedAt" := Str(who.now),
      "deletedBy" := who.By(), "fileDeleted" := Bool(fileDeleted)]
  }

  // ---------------------------------------------------------------- the API commands

  /** The handlers that spread the stored metadata and write only their own fields. */
  datatype PatchKind = SaveMapping | QueueReprocess | QueueErrorReprocess | QueueAnaf | MigrateFile | RetryImport

  function PatchKeys(kind: PatchKind): set<string> {
    var reprocess := {"identityReprocessStatus", "identityReprocessQueuedAt", "identityReprocessSessionStartedAt",
      "identityReprocessSessionProcessedBaseRows", "identityReprocessCompletedAt", "identityReprocessFailedAt",
      "identityReprocessLastError", "identityReprocessStartedAt", "identityReprocessLastProgressAt",
      "identityReprocessPhase", "identityReprocessCursorCreatedAt", "identityReprocessCursorLastBronzeId",
      "identityReprocessCursorRowIndex", "identityReprocessPromotionCursorCreatedAt",
      "identityReprocessPromotionCursorLastBronzeId", "identityReprocessMode", "identityReprocessProcessedRows",
      "identityReprocessResolvedRows", "identityReprocessDuplicateSourceRows",
      "identityReprocessIdentityConflictRows", "identityReprocessInsufficientIdentifierRows",
      "identityReprocessPromotionQueued", "identityReprocessRunTotalRows"};
    match kind
    case SaveMapping => {"columnMapping", "uploadConfig"}
    case QueueReprocess => reprocess
    case QueueErrorReprocess => reprocess
    case QueueAnaf =>
      {"anafEnrichmentStatus", "anafEnrichmentQueuedAt", "anafEnrichmentTotalCuis", "anafEnrichmentTotalBatches"}
    case MigrateFile => {"storedPath", "legacyStoredPath", "storageMigratedAt"}
    case RetryImport =>
      {"uploadConfig", "storedPath", "legacyStoredPath", "storageMigratedAt", "retryQueuedAt", "lastError", "failedAt"}
  }

  datatype Command =
    | GlobalPause(tenant: string, paused: bool)
    | BatchPause(key: BatchKey, paused: bool)
    | WorkerPause(key: BatchKey, worker: string, paused: bool)
    | DeleteImport(key: BatchKey, fileDeleted: bool)
    | PatchMetadata(key: BatchKey, kind: PatchKind, patch: Record)
    | CancelImport(key: BatchKey)

  /** What one API command does to the stored control state, as one atomic step. */
  function Apply(c: Control, command: Command, who: Caller): Control {
    match command
    case GlobalPause(tenant, paused) => SetGlobalPause(c, tenant, paused, who)
    case BatchPause(key, paused) =>
      if key !in c.batches || Hidden(Metadata(c, key)) then c else SetBatchPause(c, key, paused, who)
    case WorkerPause(key, worker, paused) =>
      if key !in c.batches || Hidden(Metadata(c, key)) then c else SetWorkerPause(c, key, worker, paused, who)
    case DeleteImport(key, fileDeleted) =>
      if key !in c.batches || Hidden(Metadata(c, key)) || c.batches[key].status == CompletedBatch then c
      else c.(batches := c.batches[key := Batch(CancelledBatch,
        c.batches[key].metadata[CONTROL_KEY := Obj(DeletedControl(c.batches[key].metadata, fileDeleted, who))])])
    case PatchMetadata(key, kind, patch) =>
      if key !in c.batches || !(patch.Keys <= PatchKeys(kind)) then c
      else if kind == MigrateFile && Hidden(Metadata(c, key)) then c
      else if kind == RetryImport then
        if c.batches[key].status in {Processing, CompletedBatch} then c
        else c.(batches := c.batches[key := Batch(Pending, c.batches[key].metadata + patch)])
      else c.(batches := c.batches[key := c.batches[key].(metadata := c.batches[key].metadata + patch)])
    case CancelImport(key) =>
      if key !in c.batches || c.batches[key].status !in {Pending, Processing} then c
      else c.(batches := c.batches[key := c.batches[key].(status := CancelledBatch)])
  }

  // ---------------------------------------------------------------- pauses read back

  /** A batch pause or resume sets that batch's flag and nothing else that is read back. */
  lemma BatchPauseReadsBack(c: Control, key: BatchKey, paused: bool, who: Caller, other: BatchKey, worker: string)
    requires key in c.batches
    ensures var after := SetBatchPause(c, key, paused, who);
            && (BatchPaused(after, other) <==> if other == key then paused else BatchPaused(c, other))
            && (WorkerPaused(after, other, worker) <==> WorkerPaused(c, other, worker))
            && (Hidden(Metadata(after, other)) <==> Hidden(Metadata(c, other)))
            && after.settings == c.settings
  {
    var next := PauseFields(BatchControl(c, key), "batchPaused", paused, who);
    assert BatchControl(SetBatchPause(c, key, paused, who), key) == next;
    assert next["batchPaused"] == Bool(paused);
    assert Get(next, "workerPauses") == Get(BatchControl(c, key), "workerPauses");
    assert Get(next, "hidden") == Get(BatchControl(c, key), "hidden");
    assert Get(next, "deletedAt") == Get(BatchControl(c, key), "deletedAt");
  }

  /** A worker pause or resume sets the flag of that worker in that batch only. */
  lemma WorkerPauseReadsBack(c: Control, key: BatchKey, worker: string, paused: bool, who: Caller,
                             other: BatchKey, w: string)
    requires key in c.batches
    ensures var after := SetWorkerPause(c, key, worker, paused, who);
            && (WorkerPaused(after, other, w)
              <==> if other == key && w == worker then paused else WorkerPaused(c, other, w))
            && (BatchPaused(after, other) <==> BatchPaused(c, other))
            && (Hidden(Metadata(after, other)) <==> Hidden(Metadata(c, other)))
            && after.settings == c.settings
  {
    var current := BatchControl(c, key);
    var pauses := AsRecord(Get(current, "workerPauses"))[worker := Bool(paused)];
    var stamped := current["workerPauseUpdatedAt" := Str(who.now)]["workerPauseUpdatedBy" := who.By()];
    var next := stamped["workerPauses" := Obj(pauses)];
    assert BatchControl(SetWorkerPause(c, key, worker, paused, who), key) == next;
    assert Get(next, "workerPauses") == Obj(pauses);
    assert Get(next, "batchPaused") == Get(current, "batchPaused");
    assert Get(next, "hidden") == Get(current, "hidden");
    assert Get(next, "deletedAt") == Get(current, "deletedAt");
  }

  /** A global pause or resume sets that tenant's flag, and counts its version up. */
  lemma GlobalPauseReadsBack(c: Control, tenant: string, paused: bool, who: Caller, other: string)
    requires tenant in c.settings
    ensures var after := SetGlobalPause(c, tenant, paused, who);
            && (GlobalPaused(after, other) <==> if other == tenant then paused else GlobalPaused(c, other))
            && after.batches == c.batches
            && Version(after, tenant) == Version(c, tenant) + 1
  {
    var current := AsRecord(Get(c.settings[tenant], SETTINGS_KEY));
    var next :=
      PauseFields(current, "globalPaused", paused, who)["version" := Num(FiniteNumber(Get(current, "version")) + 1)];
    assert AsRecord(Get(Settings(SetGlobalPause(c, tenant, paused, who), tenant), SETTINGS_KEY)) == next;
    assert Get(next, "globalPaused") == Bool(paused);
  }

  function Version(c: Control, tenant: string): int {
    FiniteNumber(Get(AsRecord(Get(Settings(c, tenant), SETTINGS_KEY)), "version"))
  }

  /** Asking for a deletion is remembered, and pauses or hides nothing yet. */
  lemma DeleteRequestReadsBack(c: Control, key: BatchKey, who: Caller, worker: string)
    requires key in c.batches
    ensures var after := MarkDeleteRequested(c, key, who);
            && Truthy(Get(BatchControl(after, key), "deleteRequested"))
            && (BatchPaused(after, key) <==> BatchPaused(c, key))
            && (WorkerPaused(after, key, worker) <==> WorkerPaused(c, key, worker))
            && (Hidden(Metadata(after, key)) <==> Hidden(Metadata(c, key)))
  {
    var current := BatchControl(c, key);
    var next :=
      current["deleteRequested" := Bool(true)]["deleteRequestedAt" := Str(who.now)]["deleteRequestedBy" := who.By()];
    assert BatchControl(MarkDeleteRequested(c, key, who), key) == next;
    assert Get(next, "batchPaused") == Get(current, "batchPaused");
    assert Get(next, "workerPauses") == Get(current, "workerPauses");
    assert Get(next, "hidden") == Get(current, "hidden");
    assert Get(next, "deletedAt") == Get(current, "deletedAt");
  }

  // ---------------------------------------------------------------- pauses last

  /** What a pause stops: a tenant, one of its batches, or one worker of a batch. */
  datatype Scope =
    | TenantScope(tenant: string)
    | BatchScope(batch: BatchKey)
    | WorkerScope(batch: BatchKey, worker: string)

  predicate PausedAt(c: Control, scope: Scope) {
    match scope
    case TenantScope(tenant) => GlobalPaused(c, tenant)
    case BatchScope(batch) => BatchPaused(c, batch)
    case WorkerScope(batch, worker) => WorkerPaused(c, batch, worker)
  }

  function PauseCommand(scope: Scope, paused: bool): Command {
    match scope
    case TenantScope(tenant) => GlobalPause(tenant, paused)
    case BatchScope(batch) => BatchPause(batch, paused)
    case WorkerScope(batch, worker) => WorkerPause(batch, worker, paused)
  }

  /** A record to write the flag to, of a batch that is not hidden. */
  predicate Writable(c: Control, scope: Scope) {
    match scope
    case TenantScope(tenant) => tenant in c.settings
    case BatchScope(batch) => batch in c.batches && !Hidden(Metadata(c, batch))
    case WorkerScope(batch, _) => batch in c.batches && !Hidden(Metadata(c, batch))
  }

  /** A pause or resume command does what it says exactly where there is a record to write, and otherwise
      leaves the flag as it was. */
  lemma PauseCommandReadsBack(c: Control, scope: Scope, paused: bool, who: Caller)
    ensures PausedAt(Apply(c, PauseCommand(scope, paused), who), scope)
       <==> if Writable(c, scope) then paused else PausedAt(c, scope)
  {
    if Writable(c, scope) {
      match scope
      case TenantScope(tenant) => GlobalPauseReadsBack(c, tenant, paused, who, tenant);
      case BatchScope(batch) => BatchPauseReadsBack(c, batch, paused, who, batch, "");
      case WorkerScope(batch, worker) => WorkerPauseReadsBack(c, batch, worker, paused, who, batch, worker);
    }
  }

  lemma DeleteKeepsPauses(c: Control, key: BatchKey, fileDeleted: bool, who: Caller, scope: Scope)
    requires PausedAt(c, scope)
    ensures PausedAt(Apply(c, DeleteImport(key, fileDeleted), who), scope)
  {
    if key in c.batches && !Hidden(Metadata(c, key)) && c.batches[key].status != CompletedBatch {
      DeleteHidesAndPauses(c, key, fileDeleted, who);
      var after := Apply(c, DeleteImport(key, fileDeleted), who);
      match scope
      case TenantScope(_) =>
      case BatchScope(batch) => assert batch != key ==> Metadata(after, batch) == Metadata(c, batch);
      case WorkerScope(batch, worker) =>
        assert batch != key ==> Metadata(after, batch) == Metadata(c, batch);
        assert WorkerPaused(after, key, worker) <==> WorkerPaused(c, key, worker);
    }
  }

  lemma MetadataPatchKeepsControl(c: Control, command: Command, who: Caller, key: BatchKey)
    requires command.PatchMetadata? || command.CancelImport?
    ensures var after := Apply(c, command, who);
            && Get(Metadata(after, key), CONTROL_KEY) == Get(Metadata(c, key), CONTROL_KEY)
            && after.settings == c.settings
  {
    if command.PatchMetadata? {
      PatchKeysSpareControl(command.kind);
    }
    if key != command.key {
      assert Metadata(Apply(c, command, who), key) == Metadata(c, key);
    }
  }

  lemma MetadataPatchKeepsPauses(c: Control, command: Command, who: Caller, scope: Scope)
    requires PausedAt(c, scope) && (command.PatchMetadata? || command.CancelImport?)
    ensures PausedAt(Apply(c, command, who), scope)
  {
    MetadataPatchKeepsControl(c, command, who, if scope.TenantScope? then command.key else scope.batch);
  }

  /** A pause lasts until its own resume: no other command lifts it. */
  lemma PauseLasts(c: Control, command: Command, who: Caller, scope: Scope)
    requires PausedAt(c, scope) && command != PauseCommand(scope, false)
    ensures PausedAt(Apply(c, command, who), scope)
  {
    match command
    case GlobalPause(tenant, paused) =>
      if tenant in c.settings && scope.TenantScope? {
        GlobalPauseReadsBack(c, tenant, paused, who, scope.tenant);
      }
    case BatchPause(key, paused) =>
      if key in c.batches && !scope.TenantScope? {
        BatchPauseReadsBack(c, key, paused, who, scope.batch, if scope.WorkerScope? then scope.worker else "");
      }
    case WorkerPause(key, worker, paused) =>
      if key in c.batches && !scope.TenantScope? {
        WorkerPauseReadsBack(c, key, worker, paused, who, scope.batch, if scope.WorkerScope? then scope.worker else "");
      }
    case DeleteImport(key, fileDeleted) => DeleteKeepsPauses(c, key, fileDeleted, who, scope);
    case PatchMetadata(_, _, _) => MetadataPatchKeepsPauses(c, command, who, scope);
    case CancelImport(_) => MetadataPatchKeepsPauses(c, command, who, scope);
  }

  // ---------------------------------------------------------------- deletion is for good

  predicate Deleted(c: Control, key: BatchKey) {
    && key in c.batches
    && Hidden(Metadata(c, key))
    && BatchPaused(c, key)
  }

  lemma DeletedFlags(metadata: Record, fileDeleted: bool, who: Caller)
    ensures var written := DeletedControl(metadata, fileDeleted, who);
            var pauses := AsRecord(Get(AsRecord(Get(metadata, CONTROL_KEY)), "workerPauses"));
            && Get(written, "hidden") == Bool(true) && Get(written, "batchPaused") == Bool(true)
            && Get(written, "workerPauses") == Obj(map w | w in pauses :: Bool(Truthy(pauses[w])))
  {
    assert "hidden" in DeletedControl(metadata, fileDeleted, who);
    assert "workerPauses" in DeletedControl(metadata, fileDeleted, who);
  }

  lemma PausesReadBack(pauses: Record, worker: string)
    ensures Truthy(Get(map w | w in pauses :: Bool(Truthy(pauses[w])), worker)) <==> Truthy(Get(pauses, worker))
  {
  }

  /** A deletion that is accepted hides and pauses the batch and keeps every worker pause. */
  lemma DeleteHidesAndPauses(c: Control, key: BatchKey, fileDeleted: bool, who: Caller)
    requires key in c.batches && !Hidden(Metadata(c, key)) && c.batches[key].status != CompletedBatch
    ensures var after := Apply(c, DeleteImport(key, fileDeleted), who);
            && Deleted(after, key)
            && (forall worker :: WorkerPaused(after, key, worker) <==> WorkerPaused(c, key, worker))
            && (forall field | field in c.batches[key].metadata && field != CONTROL_KEY ::
                  field in Metadata(after, key) && Metadata(after, key)[field] == c.batches[key].metadata[field])
  {
    var after := Apply(c, DeleteImport(key, fileDeleted), who);
    var written := DeletedControl(c.batches[key].metadata, fileDeleted, who);
    DeletedFlags(c.batches[key].metadata, fileDeleted, who);
    assert Get(Metadata(after, key), CONTROL_KEY) == Obj(written);
    forall worker ensures WorkerPaused(after, key, worker) <==> WorkerPaused(c, key, worker) {
      PausesReadBack(AsRecord(Get(BatchControl(c, key), "workerPauses")), worker);
    }
  }

  lemma PatchKeysSpareControl(kind: PatchKind)
    ensures CONTROL_KEY !in PatchKeys(kind)
  {
    match kind
    case SaveMapping =>
    case QueueReprocess =>
    case QueueErrorReprocess =>
    case QueueAnaf =>
    case MigrateFile =>
    case RetryImport =>
  }

  lemma PauseSparesHidden(c: Control, key: BatchKey, other: BatchKey, paused: bool, who: Caller)
    requires key in c.batches && Hidden(Metadata(c, key))
    ensures key in Apply(c, BatchPause(other, paused), who).batches
    ensures Metadata(Apply(c, BatchPause(other, paused), who), key) == Metadata(c, key)
  {
    if other != key {
      ControlWriteIsLocal(c, other, PauseFields(BatchControl(c, other), "batchPaused", paused, who), key);
    }
  }

  lemma WorkerPauseSparesHidden(c: Control, key: BatchKey, other: BatchKey, worker: string, paused: bool, who: Caller)
    requires key in c.batches && Hidden(Metadata(c, key))
    ensures key in Apply(c, WorkerPause(other, worker, paused), who).batches
    ensures Metadata(Apply(c, WorkerPause(other, worker, paused), who), key) == Metadata(c, key)
  {
    if other != key {
      var pauses := AsRecord(Get(BatchControl(c, other), "workerPauses"))[worker := Bool(paused)];
      ControlWriteIsLocal(c, other, BatchControl(c, other)["workerPauses" := Obj(pauses)]
        ["workerPauseUpdatedAt" := Str(who.now)]["workerPauseUpdatedBy" := who.By()], key);
    }
  }

  /** Only pause, worker pause and delete write the control record, and a hidden batch refuses them. */
  lemma HiddenBatchKeepsControl(c: Control, key: BatchKey, command: Command, who: Caller)
    requires key in c.batches && Hidden(Metadata(c, key))
    ensures key in Apply(c, command, who).batches
    ensures Get(Metadata(Apply(c, command, who), key), CONTROL_KEY) == Get(Metadata(c, key), CONTROL_KEY)
  {
    match command
    case GlobalPause(tenant, paused) =>
    case BatchPause(other, paused) => PauseSparesHidden(c, key, other, paused, who);
    case WorkerPause(other, worker, paused) => WorkerPauseSparesHidden(c, key, other, worker, paused, who);
    case DeleteImport(other, fileDeleted) =>
    case PatchMetadata(other, kind, patch) => PatchKeysSpareControl(kind);
    case CancelImport(other) =>
  }

  lemma ControlWriteIsLocal(c: Control, written: BatchKey, next: Record, key: BatchKey)
    requires key in c.batches && written != key
    ensures key in SetBatchControl(c, written, next).batches
    ensures Metadata(SetBatchControl(c, written, next), key) == Metadata(c, key)
  {
  }

  /** No API command changes a deleted batch's control record. */
  lemma DeletedIsKept(c: Control, key: BatchKey, command: Command, who: Caller)
    requires Deleted(c, key)
    ensures Deleted(Apply(c, command, who), key)
    ensures BatchControl(Apply(c, command, who), key) == BatchControl(c, key)
  {
    var after := Apply(c, command, who);
    HiddenBatchKeepsControl(c, key, command, who);
    assert Get(Metadata(after, key), CONTROL_KEY) == Get(Metadata(c, key), CONTROL_KEY);
  }
}
