/** The control records as the API updates them in place: read, change, write back. */
module ControlTables {
  import opened Options
  import opened ImportControl

  datatype Reply = Done | NotFound | Refused

  /** The two marking writes of a deletion are overwritten by its last one. */
  lemma LastWriteWins(c: Control, key: BatchKey, batch: Batch, who: Caller)
    requires key in c.batches
    ensures var marked := SetBatchPause(MarkDeleteRequested(c, key, who), key, true, who);
            marked.settings == c.settings && marked.batches[key := batch] == c.batches[key := batch]
  {
  }

  class ControlDb {
    var settings: map<string, Record>
    var batches: map<BatchKey, Batch>

    ghost function Tables(): Control
      reads this
    {
      Control(settings, batches)
    }

    constructor (control: Control)
      ensures Tables() == control
    {
      settings, batches := control.settings, control.batches;
    }

    // ------------------------------------------------------------ the setters

    method SetTenantImportGlobalPause(tenant: string, paused: bool, who: Caller)
      modifies this`settings
      ensures Tables() == Apply(old(Tables()), GlobalPause(tenant, paused), who)
      ensures tenant in old(settings) ==> (PausedAt(Tables(), TenantScope(tenant)) <==> paused)
    {
      PauseCommandReadsBack(Tables(), TenantScope(tenant), paused, who);
      if tenant in settings {
        var current := AsRecord(Get(settings[tenant], SETTINGS_KEY));
        var next := PauseFields(current, "globalPaused", paused, who)
          ["version" := Num(FiniteNumber(Get(current, "version")) + 1)];
        settings := settings[tenant := settings[tenant][SETTINGS_KEY := Obj(next)]];
      }
    }

    method WriteBatchControl(key: BatchKey, next: Record)
      modifies this`batches
      ensures Tables() == SetBatchControl(old(Tables()), key, next)
    {
      if key in batches {
        batches := batches[key := batches[key].(metadata := batches[key].metadata[CONTROL_KEY := Obj(next)])];
      }
    }

    function CurrentControl(key: BatchKey): Record
      reads this
    {
      if key in batches then AsRecord(Get(batches[key].metadata, CONTROL_KEY)) else map[]
    }

    method SetBatchImportPause(key: BatchKey, paused: bool, who: Caller)
      modifies this`batches
      ensures Tables() == SetBatchPause(old(Tables()), key, paused, who)
    {
      WriteBatchControl(key, PauseFields(CurrentControl(key), "batchPaused", paused, who));
    }

    method SetBatchWorkerPause(key: BatchKey, worker: string, paused: bool, who: Caller)
      modifies this`batches
      ensures Tables() == SetWorkerPause(old(Tables()), key, worker, paused, who)
    {
      var current := CurrentControl(key);
      var workerPauses := AsRecord(Get(current, "workerPauses"))[worker := Bool(paused)];
      WriteBatchControl(key, current["workerPauses" := Obj(workerPauses)]
        ["workerPauseUpdatedAt" := Str(who.now)]["workerPauseUpdatedBy" := who.By()]);
    }

    method MarkImportBatchDeleteRequested(key: BatchKey, who: Caller)
      modifies this`batches
      ensures Tables() == MarkDeleteRequested(old(Tables()), key, who)
    {
      WriteBatchControl(key, CurrentControl(key)["deleteRequested" := Bool(true)]
        ["deleteRequestedAt" := Str(who.now)]["deleteRequestedBy" := who.By()]);
    }

    // ------------------------------------------------------------ the handlers

    /** `/imports/:id/pause`, and the flag of `/imports/:id/resume`. */
    method PauseImport(key: BatchKey, paused: bool, who: Caller) returns (reply: Reply)
      modifies this`batches
      ensures Tables() == Apply(old(Tables()), BatchPause(key, paused), who)
      ensures reply.Done? ==> (PausedAt(Tables(), BatchScope(key)) <==> paused)
      ensures reply.NotFound? <==> key !in old(batches) || Hidden(old(batches)[key].metadata)
    {
      if key !in batches || Hidden(batches[key].metadata) {
        return NotFound;
      }
      PauseCommandReadsBack(Tables(), BatchScope(key), paused, who);
      SetBatchImportPause(key, paused, who);
      return Done;
    }

    /** `/imports/:id/workers/:workerName/pause` and the flag of its resume. */
    method PauseImportWorker(key: BatchKey, worker: string, paused: bool, who: Caller) returns (reply: Reply)
      modifies this`batches
      ensures Tables() == Apply(old(Tables()), WorkerPause(key, worker, paused), who)
      ensures reply.Done? ==> (PausedAt(Tables(), WorkerScope(key, worker)) <==> paused)
      ensures reply.NotFound? <==> key !in old(batches) || Hidden(old(batches)[key].metadata)
    {
      if key !in batches || Hidden(batches[key].metadata) {
        return NotFound;
      }
      PauseCommandReadsBack(Tables(), WorkerScope(key, worker), paused, who);
      SetBatchWorkerPause(key, worker, paused, who);
      return Done;
    }

    /** `DELETE /imports/:id`: two marking writes, then one that starts over from the metadata read
        before them; `fileDeleted` is the outcome of removing the stored file. */
    method DeleteImport(key: BatchKey, fileDeleted: bool, who: Caller) returns (reply: Reply)
      modifies this`batches
      ensures Tables() == Apply(old(Tables()), Command.DeleteImport(key, fileDeleted), who)
      ensures reply.Done? ==> Deleted(Tables(), key)
      ensures reply.NotFound? <==> key !in old(batches) || Hidden(old(batches)[key].metadata)
    {
      if key !in batches || Hidden(batches[key].metadata) {
        return NotFound;
      }
      if batches[key].status == CompletedBatch {
        return Refused;
      }
      ghost var before := Tables();
      var currentMetadata := batches[key].metadata;
      MarkImportBatchDeleteRequested(key, who);
      SetBatchImportPause(key, true, who);
      var nextControl := DeletedControl(currentMetadata, fileDeleted, who);
      batches := batches[key := Batch(CancelledBatch, currentMetadata[CONTROL_KEY := Obj(nextControl)])];
      LastWriteWins(before, key, batches[key], who);
      DeleteHidesAndPauses(before, key, fileDeleted, who);
      return Done;
    }
  }
}
