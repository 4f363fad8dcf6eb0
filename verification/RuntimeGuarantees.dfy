/** The invariants hold from the first moment: what every run of an empty runtime keeps. */
module RuntimeGuarantees {
  import opened RuntimeStore
  import opened RuntimeIdentity
  import opened RuntimeDeliveries
  import opened RuntimeAgreement
  import opened RuntimeRecovery
  import ImportControl

  lemma EmptyRuntimeFits(control: ImportControl.Control, id: RowKey, bound: nat)
    ensures var s := Initial(control);
            && Sound(s) && Linked(s) && Agrees(s) && PausedExact(s)
            && RunningExact(s) && Homed(s) && QueuedBounded(s)
            && AttemptsLogged(s) && Budgeted(id, bound, s.rows)
  {
  }

  /** Whatever the broker retries, whenever pauses land and whatever bulk calls are made: payloads name
      their rows, running counters are exact, and each job's recoveries stay within its own limits. */
  lemma EveryRuntimeIsAccounted(control: ImportControl.Control, events: seq<Event>, id: RowKey, bound: nat)
    requires ProperRun(Initial(control), events) && LimitsWithin(id, bound, events)
    ensures var t := Run(Initial(control), events);
            && Sound(t) && RunningExact(t) && AttemptsLogged(t) && Budgeted(id, bound, t.rows)
            && |RecoveryIds(t.recoveries, id)| <= bound
  {
    EmptyRuntimeFits(control, id, bound);
    RunKeepsSound(Initial(control), events);
    RunningIsExact(Initial(control), events);
    RecoveriesAreBudgeted(Initial(control), events, id, bound);
  }

  /** While each key keeps to one session, queued counters never exceed the waiting deliveries. */
  lemma SteadyRuntimeIsBounded(control: ImportControl.Control, events: seq<Event>)
    requires ProperRun(Initial(control), events) && OneSessionRun(Initial(control), events)
    ensures QueuedBounded(Run(Initial(control), events))
  {
    EmptyRuntimeFits(control, RowKey("", ""), 0);
    QueuedIsBounded(Initial(control), events);
  }

  /** In calm runs the counters are an exact index of the rows. */
  lemma CalmRuntimeIsIndexed(control: ImportControl.Control, events: seq<Event>)
    requires CalmRun(Initial(control), events)
    ensures Agrees(Run(Initial(control), events))
  {
    EmptyRuntimeFits(control, RowKey("", ""), 0);
    CountersIndexRows(Initial(control), events);
  }
}
