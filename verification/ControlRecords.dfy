/** What the control commands write beside the flags: who paused or deleted, and when, and what a batch keeps. */
module ControlRecords {
  import opened Options
  import opened ImportControl

  function ByWhom(who: Caller): Json {
    match who.actor
    case None => Null
    case Some(actor) => Str(actor)
  }

  // ---------------------------------------------------------------- what a stored record says

  /** A field of a record that is there and counts as true. */
  predicate Says(record: Record, field: string) {
    field in record && record[field] != Null && record[field] != Bool(false) && record[field] != Num(0)
    && record[field] != Str("")
  }

  /** A record within a record. */
  predicate Holds(record: Record, field: string) {
    field in record && record[field].Obj?
  }

  /** A scope is paused exactly if its own record says so; where a record is missing, or is none, it is not. */
  lemma PausedAtIff(c: Control, tenant: string, key: BatchKey, worker: string)
    ensures PausedAt(c, TenantScope(tenant)) <==>
      && tenant in c.settings && Holds(c.settings[tenant], "importContactsControl")
      && Says(c.settings[tenant]["importContactsControl"].fields, "globalPaused")
    ensures PausedAt(c, BatchScope(key)) <==>
      && key in c.batches && Holds(c.batches[key].metadata, "importExecutionControl")
      && Says(c.batches[key].metadata["importExecutionControl"].fields, "batchPaused")
    ensures PausedAt(c, WorkerScope(key, worker)) <==>
      && key in c.batches && Holds(c.batches[key].metadata, "importExecutionControl")
      && Holds(c.batches[key].metadata["importExecutionControl"].fields, "workerPauses")
      && Says(c.batches[key].metadata["importExecutionControl"].fields["workerPauses"].fields, worker)
  {
  }

  /** A batch is hidden exactly if its control record says so or holds a deletion time in text. */
  lemma HiddenIff(metadata: Record)
    ensures Hidden(metadata) <==>
      && Holds(metadata, "importExecutionControl")
      && var control := metadata["importExecutionControl"].fields;
         Says(control, "hidden") || ("deletedAt" in control && control["deletedAt"].Str?)
  {
  }

  // ---------------------------------------------------------------- stamps

  /** The record's flag is as asked, with the time and author of a pause, or the time of the request to resume;
      every other field is as before. */
  ghost predicate FlaggedAs(before: Record, after: Record, flag: string, paused: bool, who: Caller) {
    && Get(after, flag) == Bool(paused)
    && Get(after, "pausedAt") == (if paused then Str(who.now) else Null)
    && Get(after, "pausedBy") == (if paused then ByWhom(who) else Null)
    && Get(after, "resumeRequestedAt") == (if paused then Get(before, "resumeRequestedAt") else Str(who.now))
    && forall field | field !in {flag, "pausedAt", "pausedBy", "resumeRequestedAt"} ::
         Get(after, field) == Get(before, field)
  }

  lemma PausedFieldsRead(before: Record, flag: string, paused: bool, who: Caller)
    requires flag !in {"pausedAt", "pausedBy", "resumeRequestedAt"}
    ensures FlaggedAs(before, PauseFields(before, flag, paused, who), flag, paused, who)
  {
    assert "pausedAt"[6] == 'A' && "pausedBy"[6] == 'B' && "resumeRequestedAt"[0] == 'r';
  }

  /** A batch's pause and resume are stamped. */
  lemma BatchPauseIsStamped(c: Control, key: BatchKey, paused: bool, who: Caller)
    requires key in c.batches
    ensures FlaggedAs(BatchControl(c, key), BatchControl(SetBatchPause(c, key, paused, who), key),
                      "batchPaused", paused, who)
    ensures SetBatchPause(c, key, paused, who).batches[key].status == c.batches[key].status
  {
    assert "batchPaused"[0] == 'b' && "pausedAt"[0] == 'p' && "pausedBy"[0] == 'p' && "resumeRequestedAt"[0] == 'r';
    PausedFieldsRead(BatchControl(c, key), "batchPaused", paused, who);
  }

  /** So are a tenant's, whose record also counts its changes. */
  lemma GlobalPauseIsStamped(c: Control, tenant: string, paused: bool, who: Caller, before: Record, after: Record)
    requires tenant in c.settings && before == AsRecord(Get(c.settings[tenant], SETTINGS_KEY))
    requires after == AsRecord(Get(Settings(SetGlobalPause(c, tenant, paused, who), tenant), SETTINGS_KEY))
    ensures FlaggedAs(before["version" := Get(after, "version")], after, "globalPaused", paused, who)
    ensures Get(after, "version") == Num(1 + match Get(before, "version")
                                              case Num(n) => n
                                              case Bool(true) => 1
                                              case _ => 0)
  {
    assert "globalPaused"[0] == 'g' && "pausedAt"[0] == 'p' && "pausedBy"[0] == 'p' && "resumeRequestedAt"[0] == 'r';
    assert "version"[0] == 'v';
    PausedFieldsRead(before, "globalPaused", paused, who);
    assert after == PauseFields(before, "globalPaused", paused, who)["version" := Get(after, "version")];
  }

  /** A worker's pause or resume is stamped in fields of its own. */
  lemma WorkerPauseIsStamped(c: Control, key: BatchKey, worker: string, paused: bool, who: Caller, after: Record)
    requires key in c.batches && after == BatchControl(SetWorkerPause(c, key, worker, paused, who), key)
    ensures Get(after, "workerPauses")
         == Obj(AsRecord(Get(BatchControl(c, key), "workerPauses"))[worker := Bool(paused)])
    ensures Get(after, "workerPauseUpdatedAt") == Str(who.now) && Get(after, "workerPauseUpdatedBy") == ByWhom(who)
    ensures forall field | field !in {"workerPauses", "workerPauseUpdatedAt", "workerPauseUpdatedBy"} ::
        Get(after, field) == Get(BatchControl(c, key), field)
  {
    assert |"workerPauses"| == 12 && "workerPauseUpdatedAt"[18] == 'A' && "workerPauseUpdatedBy"[18] == 'B';
  }

  /** A request to delete is stamped. */
  lemma DeleteRequestIsStamped(c: Control, key: BatchKey, who: Caller, after: Record)
    requires key in c.batches && after == BatchControl(MarkDeleteRequested(c, key, who), key)
    ensures Get(after, "deleteRequested") == Bool(true)
    ensures Get(after, "deleteRequestedAt") == Str(who.now) && Get(after, "deleteRequestedBy") == ByWhom(who)
    ensures forall field | field !in {"deleteRequested", "deleteRequestedAt", "deleteRequestedBy"} ::
        Get(after, field) == Get(BatchControl(c, key), field)
  {
    assert |"deleteRequested"| == 15 && "deleteRequestedAt"[15] == 'A' && "deleteRequestedBy"[15] == 'B';
  }

  // ---------------------------------------------------------------- deletion

  /** A text that a stored record holds in the field, or nothing. */
  function TextAt(record: Record, field: string): Json {
    match Get(record, field)
    case Str(text) => Str(text)
    case _ => Null
  }

  /** A deletion cancels the batch and rewrites its control record, and nothing else. */
  lemma DeletionWrites(c: Control, key: BatchKey, fileDeleted: bool, who: Caller, after: Control)
    requires key in c.batches && after == Apply(c, DeleteImport(key, fileDeleted), who)
    ensures if Hidden(Metadata(c, key)) || c.batches[key].status == CompletedBatch then after.batches == c.batches
            else after.batches == c.batches[key := Batch(CancelledBatch,
              c.batches[key].metadata[CONTROL_KEY := Obj(DeletedControl(c.batches[key].metadata, fileDeleted, who))])]
    ensures after.settings == c.settings
  {
  }

  /** The fields a deletion writes. */
  function DeletionStamps(fileDeleted: bool, who: Caller): Record {
    map["batchPaused" := Bool(true), "deleteRequested" := Bool(true), "deleteRequestedAt" := Str(who.now),
        "deleteRequestedBy" := who.By(), "hidden" := Bool(true), "deletedAt" := Str(who.now),
        "deletedBy" := who.By(), "fileDeleted" := Bool(fileDeleted)]
  }

  lemma StampsRead(fileDeleted: bool, who: Caller, stamps: Record)
    requires stamps == DeletionStamps(fileDeleted, who)
    ensures "deletedAt" in stamps && stamps["deletedAt"] == Str(who.now)
    ensures "deletedBy" in stamps && stamps["deletedBy"] == ByWhom(who)
    ensures "deleteRequestedAt" in stamps && stamps["deleteRequestedAt"] == Str(who.now)
    ensures "deleteRequestedBy" in stamps && stamps["deleteRequestedBy"] == ByWhom(who)
    ensures "deleteRequested" in stamps && stamps["deleteRequested"] == Bool(true)
    ensures "fileDeleted" in stamps && stamps["fileDeleted"] == Bool(fileDeleted)
  {
    FieldNamesDiffer();
  }

  lemma Overlaid(read: Record, stamps: Record)
    ensures forall field | field in stamps :: Get(read + stamps, field) == stamps[field]
  {
  }

  /** The record says who deleted the batch and when, and whether its file went too. */
  lemma DeletionIsStamped(metadata: Record, fileDeleted: bool, who: Caller, after: Record)
    requires after == DeletedControl(metadata, fileDeleted, who)
    ensures Get(after, "deletedAt") == Str(who.now) && Get(after, "deletedBy") == ByWhom(who)
    ensures Get(after, "deleteRequestedAt") == Str(who.now) && Get(after, "deleteRequestedBy") == ByWhom(who)
    ensures Get(after, "deleteRequested") == Bool(true) && Get(after, "fileDeleted") == Bool(fileDeleted)
  {
    var read, stamps := ReadBatchControl(metadata), DeletionStamps(fileDeleted, who);
    StampsRead(fileDeleted, who, stamps);
    assert after == read + stamps;
    Overlaid(read, stamps);
  }

  /** The time and author of its pause stay those stored before, though the deletion itself pauses it. */
  lemma DeletionKeepsPauseStamps(metadata: Record, fileDeleted: bool, who: Caller, before: Record, after: Record)
    requires before == AsRecord(Get(metadata, CONTROL_KEY)) && after == DeletedControl(metadata, fileDeleted, who)
    ensures Get(after, "pausedAt") == TextAt(before, "pausedAt") && Get(after, "pausedBy") == TextAt(before, "pausedBy")
    ensures Get(after, "resumeRequestedAt") == TextAt(before, "resumeRequestedAt")
  {
    ReadKeepsPauseStamps(metadata, before, ReadBatchControl(metadata));
    NotOverwritten(ReadBatchControl(metadata), after, fileDeleted, who, "pausedAt");
    NotOverwritten(ReadBatchControl(metadata), after, fileDeleted, who, "pausedBy");
    NotOverwritten(ReadBatchControl(metadata), after, fileDeleted, who, "resumeRequestedAt");
  }

  lemma ReadKeepsPauseStamps(metadata: Record, before: Record, read: Record)
    requires before == AsRecord(Get(metadata, CONTROL_KEY)) && read == ReadBatchControl(metadata)
    ensures Get(read, "pausedAt") == TextAt(before, "pausedAt") && Get(read, "pausedBy") == TextAt(before, "pausedBy")
    ensures Get(read, "resumeRequestedAt") == TextAt(before, "resumeRequestedAt")
  {
    FieldNamesDiffer();
  }

  /** The names of the control record's fields differ in length or in one letter. */
  lemma FieldNamesDiffer()
    ensures |"pausedAt"| == |"pausedBy"| == 8 && "pausedAt"[6] != "pausedBy"[6]
    ensures |"resumeRequestedAt"| == |"deleteRequestedAt"| == |"deleteRequestedBy"| == 17
    ensures "resumeRequestedAt"[0] != "deleteRequestedAt"[0] && "resumeRequestedAt"[0] != "deleteRequestedBy"[0]
    ensures "deleteRequestedAt"[15] != "deleteRequestedBy"[15]
    ensures |"batchPaused"| == |"fileDeleted"| == 11 && "batchPaused"[0] != "fileDeleted"[0]
    ensures |"workerPauses"| == 12 && |"deleteRequested"| == 15 && |"hidden"| == 6
    ensures |"deletedAt"| == |"deletedBy"| == 9 && "deletedAt"[7] != "deletedBy"[7]
  {
  }

  lemma NotOverwritten(read: Record, after: Record, fileDeleted: bool, who: Caller, field: string)
    requires after == read + DeletionStamps(fileDeleted, who)
    requires field != "" && field[0] in {'p', 'r'}
    ensures Get(after, field) == Get(read, field)
  {
    assert "batchPaused"[0] == 'b' && "deleteRequested"[0] == 'd' && "hidden"[0] == 'h' && "deletedAt"[0] == 'd';
    assert "deletedBy"[0] == 'd' && "fileDeleted"[0] == 'f';
    assert "deleteRequestedAt"[0] == 'd' && "deleteRequestedBy"[0] == 'd';
  }

  // ---------------------------------------------------------------- nobody else pauses

  /** The commands that pause a scope: its own, and the deletion of a batch. */
  predicate Pauses(command: Command, scope: Scope) {
    || command == PauseCommand(scope, true)
    || (scope.BatchScope? && command.DeleteImport? && command.key == scope.batch)
  }

  lemma DeletionPausesNoOther(c: Control, key: BatchKey, fileDeleted: bool, who: Caller, scope: Scope)
    requires !PausedAt(c, scope) && scope != BatchScope(key)
    ensures !PausedAt(Apply(c, DeleteImport(key, fileDeleted), who), scope)
  {
    var after := Apply(c, DeleteImport(key, fileDeleted), who);
    if key in c.batches && !Hidden(Metadata(c, key)) && c.batches[key].status != CompletedBatch {
      DeleteHidesAndPauses(c, key, fileDeleted, who);
      if !scope.TenantScope? {
        if scope.batch != key {
          assert Metadata(after, scope.batch) == Metadata(c, scope.batch);
        } else {
          assert WorkerPaused(after, key, scope.worker) <==> WorkerPaused(c, key, scope.worker);
        }
      }
    }
  }

  /** A scope that is not paused is paused by its own pause command, or for a batch by its deletion, and by no
      other command. */
  lemma OnlyItsOwnCommandPauses(c: Control, command: Command, who: Caller, scope: Scope)
    requires !PausedAt(c, scope) && !Pauses(command, scope)
    ensures !PausedAt(Apply(c, command, who), scope)
  {
    match command
    case GlobalPause(tenant, paused) =>
      if tenant in c.settings && scope.TenantScope? {
        GlobalPauseReadsBack(c, tenant, paused, who, scope.tenant);
      }
    case BatchPause(key, paused) =>
      if key in c.batches && !scope.TenantScope? {
        BatchPauseReadsBack(c, key, paused, who, scope.batch, if scope.WorkerScope? then scope.worker else "");
      }
    case WorkerPause(key, worker, paused) =>
      if key in c.batches && !scope.TenantScope? {
        WorkerPauseReadsBack(c, key, worker, paused, who, scope.batch, if scope.WorkerScope? then scope.worker else "");
      }
    case DeleteImport(key, fileDeleted) => DeletionPausesNoOther(c, key, fileDeleted, who, scope);
    case PatchMetadata(key, _, _) =>
      MetadataPatchKeepsControl(c, command, who, if scope.TenantScope? then key else scope.batch);
    case CancelImport(key) =>
      MetadataPatchKeepsControl(c, command, who, if scope.TenantScope? then key else scope.batch);
  }

  // ---------------------------------------------------------------- the other commands

  /** Cancelling changes the status of a pending or processing batch, and nothing else. */
  lemma CancelsIff(c: Control, key: BatchKey, who: Caller, after: Control)
    requires key in c.batches && after == Apply(c, CancelImport(key), who)
    ensures if c.batches[key].status in {Pending, Processing}
            then after.batches == c.batches[key := Batch(CancelledBatch, c.batches[key].metadata)]
            else after.batches == c.batches
    ensures after.settings == c.settings
  {
  }

  /** A retry makes a batch pending again if and only if it is neither processing nor completed; the other
      metadata handlers keep the status, and only the storage migration minds a hidden batch. */
  lemma PatchesIff(c: Control, key: BatchKey, kind: PatchKind, patch: Record, who: Caller, after: Control)
    requires key in c.batches && patch.Keys <= PatchKeys(kind)
    requires after == Apply(c, PatchMetadata(key, kind, patch), who)
    ensures var batch := c.batches[key];
            var refused := match kind
                           case RetryImport => batch.status == Processing || batch.status == CompletedBatch
                           case MigrateFile => Hidden(batch.metadata)
                           case _ => false;
            after.batches == if refused then c.batches
              else c.batches[key := Batch(if kind == RetryImport then Pending else batch.status,
                                          batch.metadata + patch)]
    ensures after.settings == c.settings
  {
  }
}
