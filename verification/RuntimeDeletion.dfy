/** Deleting a batch stops its jobs for good: its pause outlasts every later resume. */
module RuntimeDeletion {
  import opened RuntimeStore
  import opened RuntimeIdentity
  import opened RuntimePause
  import opened ImportControl

  lemma StepOfDeleted(s: Store, e: Event, key: BatchKey)
    requires Sound(s) && ImportControl.Deleted(s.control, key)
    ensures ImportControl.Deleted(Step(s, e).control, key)
    ensures BatchControl(Step(s, e).control, key) == BatchControl(s.control, key)
    ensures HeldOf(Step(s, e), BatchScope(key)) <= HeldOf(s, BatchScope(key))
  {
    PausedStepAddsNone(s, e, BatchScope(key));
    if e.Api? {
      DeletedIsKept(s.control, key, e.command, e.who);
    } else {
      OnlyApiWritesControl(s, e);
    }
  }

  /** Over every run after a deletion, with any API commands and any resumes in it, the batch's
      control record stays as the deletion left it and no processor starts on the batch again. */
  lemma {:induction false} DeletedBatchNeverStarts(s: Store, events: seq<Event>, key: BatchKey)
    requires Sound(s) && ProperRun(s, events) && ImportControl.Deleted(s.control, key)
    ensures BatchControl(Run(s, events).control, key) == BatchControl(s.control, key)
    ensures ImportControl.Deleted(Run(s, events).control, key)
    ensures HeldOf(Run(s, events), BatchScope(key)) <= HeldOf(s, BatchScope(key))
    decreases |events|
  {
    if events != [] {
      StepKeepsSound(s, events[0]);
      StepOfDeleted(s, events[0], key);
      DeletedBatchNeverStarts(Step(s, events[0]), events[1..], key);
    }
  }
}
