/** Resume ids at the broker, which drops an add under an id it still keeps: when a resume is lost, and why
    recoveries never are. */
module RuntimeResumeIds {
  import opened Options
  import opened ImportContext
  import opened RuntimeStore
  import opened RuntimeBulk
  import opened RuntimeIdentity
  import opened RuntimeDeliveries
  import opened RuntimeRecovery
  import JobKeys

  /** A queue and the id of a job there. */
  type Address = (string, string)

  /** The runtime, and the resume ids the broker still keeps: of jobs that wait, are held, or have finished
      and were not removed yet. */
  datatype Broker = Broker(store: Store, kept: set<Address>)

  function NextAddress(s: Store, id: RowKey): Address
    requires id in s.rows
  {
    (s.rows[id].queueName, JobKeys.ResumeJobId(id.key, s.rows[id].attemptsUsed + 1))
  }

  /** One row of a resume call, where the add is dropped if the queue keeps its id. */
  function ResumeById(b: Broker, id: RowKey, recover: bool): Broker
    requires id in b.store.rows
  {
    var address := NextAddress(b.store, id);
    if !IsRequeued(b.store.rows[id], recover) then b.(store := RequeueAs(b.store, id, recover, address.1))
    else if address in b.kept then b.(store := RequeueRecorded(b.store, id, recover, address.1))
    else Broker(RequeueAs(b.store, id, recover, address.1), b.kept + {address})
  }

  /** A step of the runtime, or the broker removing a finished job. */
  datatype Happening = Handles(e: Event) | Forgets(address: Address)

  function StepById(b: Broker, h: Happening): Broker {
    match h
    case Forgets(address) => b.(kept := b.kept - {address})
    case Handles(e) =>
      if e.Requeue? && Enabled(b.store, e) then ResumeById(b, e.id, e.recover) else b.(store := Step(b.store, e))
  }

  function RunById(b: Broker, happenings: seq<Happening>): Broker
    decreases |happenings|
  {
    if happenings == [] then b else RunById(StepById(b, happenings[0]), happenings[1..])
  }

  // ---------------------------------------------------------------- a dropped resume

  /** A resume is dropped if and only if its queue keeps the id; either way the id is kept from then on. */
  lemma ResumeIsDroppedIff(b: Broker, id: RowKey, recover: bool)
    requires id in b.store.rows && IsRequeued(b.store.rows[id], recover)
    ensures var t := ResumeById(b, id, recover);
            && (t.store.nextDelivery == b.store.nextDelivery <==> NextAddress(b.store, id) in b.kept)
            && (NextAddress(b.store, id) in b.kept ==> t.store.pending == b.store.pending)
            && NextAddress(b.store, id) in t.kept
  {
  }

  /** A resume goes to the queue and under the id it is told apart by, its row holds that id, sent or dropped,
      and no other id is kept for it. */
  lemma ResumeGoesToItsAddress(b: Broker, id: RowKey, recover: bool, address: Address, t: Broker)
    requires id in b.store.rows && IsRequeued(b.store.rows[id], recover) && address == NextAddress(b.store, id)
    requires t == ResumeById(b, id, recover)
    ensures t.kept == b.kept + {address}
    ensures id in t.store.rows && t.store.rows[id].bullJobId == Some(address.1)
    ensures address !in b.kept ==>
      && b.store.nextDelivery in t.store.pending
      && t.store.pending[b.store.nextDelivery].queueName == address.0
      && t.store.pending[b.store.nextDelivery].jobId == Some(address.1)
  {
  }

  /** A dropped resume marks its row as sent again, in a state the default resume does not select, and counts
      it as queued. */
  lemma DroppedResumeIsCounted(s: Store, id: RowKey, recover: bool, jobId: string)
    requires id in s.rows
    ensures var t, home := RequeueRecorded(s, id, recover, jobId), HomeOf(s.rows[id]);
            && t.rows[id].state in {Queued, Recovering}
            && home in t.counters && t.counters[home].queued == Before(s.counters, home).queued + 1
  {
    var home, d := HomeOf(s.rows[id]), RequeueDelta(s.rows[id].state);
    DeltaKeys(s.counters, home, d);
    OneMoreQueuedAt(s.counters, home, d, home);
  }

  lemma RecordedBoundAt(s: Store, id: RowKey, recover: bool, jobId: string, key: CounterKey)
    requires BoundedAt(s, key) && id in s.rows
    ensures BoundedAt(RequeueRecorded(s, id, recover, jobId), key)
       <==> (key == HomeOf(s.rows[id]) ==> Before(s.counters, key).queued < Waiting(s, key))
  {
    var home, d := HomeOf(s.rows[id]), RequeueDelta(s.rows[id].state);
    DeltaKeys(s.counters, home, d);
    if key in Charged(s.counters, Charge(home, d)) {
      OneMoreQueuedAt(s.counters, home, d, key);
    }
  }

  /** A dropped resume keeps the queued counters within the waiting deliveries if and only if its counter
      row had one to spare. */
  lemma DroppedResumeKeepsBoundIff(b: Broker, id: RowKey, recover: bool)
    requires QueuedBounded(b.store) && id in b.store.rows && IsRequeued(b.store.rows[id], recover)
    requires NextAddress(b.store, id) in b.kept
    ensures var home := HomeOf(b.store.rows[id]);
            QueuedBounded(ResumeById(b, id, recover).store) <==>
              Before(b.store.counters, home).queued < Waiting(b.store, home)
  {
    var s, home, t := b.store, HomeOf(b.store.rows[id]), ResumeById(b, id, recover).store;
    forall key ensures BoundedAt(t, key) <==> (key == home ==> Before(s.counters, home).queued < Waiting(s, home)) {
      RecordedBoundAt(s, id, recover, NextAddress(s, id).1, key);
    }
    BoundedIffAt(t, home, Before(s.counters, home).queued < Waiting(s, home));
  }

  lemma {:induction false} KeptStays(b: Broker, happenings: seq<Happening>, address: Address)
    requires address in b.kept && forall h | h in happenings :: h != Forgets(address)
    ensures address in RunById(b, happenings).kept
    decreases |happenings|
  {
    if happenings != [] {
      assert happenings[0] in happenings;
      assert forall h | h in happenings[1..] :: h in happenings;
      KeptStays(StepById(b, happenings[0]), happenings[1..], address);
    }
  }

  /** Over any run in which the broker does not forget a resume: a later resume of its row is dropped if
      no attempt was spent and the queue is the same. */
  lemma ResumedAgainIsDropped(b: Broker, id: RowKey, first: bool, happenings: seq<Happening>, second: bool, t: Broker)
    requires id in b.store.rows && IsRequeued(b.store.rows[id], first)
    requires forall h | h in happenings :: h != Forgets(NextAddress(b.store, id))
    requires t == RunById(ResumeById(b, id, first), happenings) && id in t.store.rows
    requires t.store.rows[id].queueName == b.store.rows[id].queueName
    requires t.store.rows[id].attemptsUsed == b.store.rows[id].attemptsUsed && IsRequeued(t.store.rows[id], second)
    ensures ResumeById(t, id, second).store.pending == t.store.pending
  {
    ResumeIsDroppedIff(b, id, first);
    KeptStays(ResumeById(b, id, first), happenings, NextAddress(b.store, id));
    ResumeIsDroppedIff(t, id, second);
  }

  /** A row sent again whose delivery begins under a pause is where it was. */
  lemma BegunIsPausedAgain(s: Store, id: RowKey, jobId: string, session: string, sent: Store)
    requires Sound(s) && id in s.rows && s.rows[id].state == Paused && s.rows[id].resumePayload.execution.Some?
    requires Halted(s.control, s.rows[id].resumePayload.execution.value)
    requires sent == RequeueAs(s, id, false, jobId)
    ensures s.nextDelivery in sent.pending
    ensures var t := BeginDelivery(sent, s.nextDelivery, session);
            && id in t.rows && t.rows[id].state == Paused && t.rows[id].queueName == s.rows[id].queueName
            && t.rows[id].attemptsUsed == s.rows[id].attemptsUsed
            && t.rows[id].resumePayload == s.rows[id].resumePayload && t.pending == s.pending
  {
    assert CarriesOwnKey(id, s.rows[id]);
    assert s.nextDelivery !in s.pending;
    assert s.pending[s.nextDelivery := ResumeDelivery(s.rows[id], jobId)] - {s.nextDelivery} == s.pending;
  }

  lemma BeginById(b: Broker, n: nat, session: string, t: Broker)
    requires n in b.store.pending && t == StepById(b, Handles(Begin(n, session)))
    ensures t == b.(store := BeginDelivery(b.store, n, session))
  {
  }

  lemma StillKept(b: Broker, id: RowKey, t: Broker)
    requires id in b.store.rows && b.store.rows[id].state == Paused && b.store.rows[id].resumePayload.execution.Some?
    requires id in t.store.rows && t.store.rows[id].state == Paused
    requires t.store.rows[id].queueName == b.store.rows[id].queueName
    requires t.store.rows[id].attemptsUsed == b.store.rows[id].attemptsUsed
    requires t.store.rows[id].resumePayload == b.store.rows[id].resumePayload
    requires t.kept == ResumeById(b, id, false).kept
    ensures ResumeById(t, id, false).store.pending == t.store.pending
  {
    ResumeIsDroppedIff(b, id, false);
    ResumeIsDroppedIff(t, id, false);
  }

  /** So a job that is resumed, begins under a pause, and is resumed again gets no second delivery while
      the broker keeps the first. */
  lemma PausedTwiceIsStranded(b: Broker, id: RowKey, session: string, resumed: Broker, t: Broker)
    requires Sound(b.store) && id in b.store.rows && b.store.rows[id].state == Paused
    requires b.store.rows[id].resumePayload.execution.Some?
    requires Halted(b.store.control, b.store.rows[id].resumePayload.execution.value)
    requires NextAddress(b.store, id) !in b.kept && resumed == ResumeById(b, id, false)
    requires t == StepById(resumed, Handles(Begin(b.store.nextDelivery, session)))
    ensures id in t.store.rows && t.store.rows[id].state == Paused && t.store.pending == b.store.pending
    ensures ResumeById(t, id, false).store.pending == t.store.pending
  {
    BegunIsPausedAgain(b.store, id, NextAddress(b.store, id).1, session, resumed.store);
    BeginById(resumed, b.store.nextDelivery, session, t);
    StillKept(b, id, t);
  }

  // ---------------------------------------------------------------- recoveries are never dropped

  /** The runtime's own steps of a run. */
  function Handled(happenings: seq<Happening>): seq<Event> {
    if happenings == [] then []
    else (if happenings[0].Handles? then [happenings[0].e] else []) + Handled(happenings[1..])
  }

  /** Every resume of the run is in recover mode, and of one of these rows. */
  predicate OnlyRecovers(happenings: seq<Happening>, ids: set<RowKey>) {
    forall h | h in happenings && h.Handles? && h.e.Requeue? :: h.e.recover && h.e.id in ids
  }

  predicate OneKeyEach(ids: set<RowKey>) {
    forall x, y | x in ids && y in ids && x.key == y.key :: x == y
  }

  /** No queue keeps the id of an attempt still to come. */
  ghost predicate IdsToCome(b: Broker, ids: set<RowKey>) {
    forall id, n: nat, queue | id in ids && n > Attempts(b.store.rows, id) ::
      (queue, JobKeys.ResumeJobId(id.key, n)) !in b.kept
  }

  lemma RecoveryIsSent(b: Broker, id: RowKey, ids: set<RowKey>)
    requires IdsToCome(b, ids) && OneKeyEach(ids) && id in ids && id in b.store.rows
    ensures var t := ResumeById(b, id, true);
            && t.store == RequeueAs(b.store, id, true, NextAddress(b.store, id).1) && IdsToCome(t, ids)
  {
    var t, address := ResumeById(b, id, true), NextAddress(b.store, id);
    assert (address.0, JobKeys.ResumeJobId(id.key, Attempts(b.store.rows, id) + 1)) !in b.kept;
    RequeueRecords(b.store, id, true, address.1);
    forall other, n: nat, queue | other in ids && n > Attempts(t.store.rows, other)
      ensures (queue, JobKeys.ResumeJobId(other.key, n)) !in t.kept
    {
      if IsRequeued(b.store.rows[id], true) && JobKeys.ResumeJobId(other.key, n) == address.1 {
        JobKeys.ResumeJobIdInjective(other.key, n, id.key, Attempts(b.store.rows, id) + 1);
      }
    }
  }

  lemma RecoveringStepIsTaken(b: Broker, e: Event, ids: set<RowKey>, t: Broker)
    requires Sound(b.store) && IdsToCome(b, ids) && OneKeyEach(ids) && t == StepById(b, Handles(e))
    requires e.Requeue? ==> e.recover && e.id in ids
    ensures t.store == Step(b.store, e) && IdsToCome(t, ids)
  {
    if e.Requeue? {
      if Enabled(b.store, e) {
        RecoveryIsSent(b, e.id, ids);
      }
    } else {
      forall id ensures Attempts(t.store.rows, id) == Attempts(b.store.rows, id) {
        WritesKeepAttempts(b.store, e, id);
      }
    }
  }

  lemma RunOfHandled(s: Store, happenings: seq<Happening>, t: Store)
    requires happenings != [] && happenings[0].Handles? && t == Step(s, happenings[0].e)
    ensures Run(s, Handled(happenings)) == Run(t, Handled(happenings[1..]))
    ensures ProperRun(s, Handled(happenings))
       <==> Proper(s, happenings[0].e) && ProperRun(t, Handled(happenings[1..]))
  {
    assert Handled(happenings)[1..] == Handled(happenings[1..]);
  }

  /** Where every resume recovers, no add is dropped, whatever the broker keeps or forgets: the runtime takes
      exactly the run that new ids would give. */
  lemma {:induction false} RecoveringRunsLoseNothing(b: Broker, happenings: seq<Happening>, ids: set<RowKey>)
    requires Sound(b.store) && IdsToCome(b, ids) && OneKeyEach(ids) && OnlyRecovers(happenings, ids)
    requires ProperRun(b.store, Handled(happenings))
    ensures RunById(b, happenings).store == Run(b.store, Handled(happenings))
    ensures IdsToCome(RunById(b, happenings), ids)
    decreases |happenings|
  {
    if happenings != [] {
      var h, t := happenings[0], StepById(b, happenings[0]);
      assert h in happenings;
      assert forall later | later in happenings[1..] :: later in happenings;
      if h.Handles? {
        RecoveringStepIsTaken(b, h.e, ids, t);
        RunOfHandled(b.store, happenings, t.store);
        StepKeepsSound(b.store, h.e);
      } else {
        assert Handled(happenings) == Handled(happenings[1..]);
      }
      RecoveringRunsLoseNothing(t, happenings[1..], ids);
    }
  }

  // ---------------------------------------------------------------- what survives dropped resumes

  lemma RecordedKeepsRunning(s: Store, id: RowKey, recover: bool, jobId: string)
    requires Sound(s) && RunningExact(s) && id in s.rows
    ensures RunningExact(RequeueRecorded(s, id, recover, jobId))
  {
    var t, home := RequeueRecorded(s, id, recover, jobId), HomeOf(s.rows[id]);
    forall key | key in t.counters ensures t.counters[key].running == Held(t, key) {
      if key !in s.counters {
        UncountedHoldsNothing(s, key);
      }
      ChargedAt(s.counters, Charge(home, RequeueDelta(s.rows[id].state)), key);
    }
  }

  lemma StepByIdKeepsRunning(b: Broker, h: Happening, t: Broker)
    requires Sound(b.store) && RunningExact(b.store) && t == StepById(b, h)
    requires h.Handles? ==> Proper(b.store, h.e)
    ensures Sound(t.store) && RunningExact(t.store)
  {
    if h.Handles? {
      StepKeepsSound(b.store, h.e);
      StepKeepsRunningExact(b.store, h.e);
      if h.e.Requeue? && Enabled(b.store, h.e) {
        RequeueRecordedKeepsSound(b.store, h.e.id, h.e.recover, NextAddress(b.store, h.e.id).1);
        RecordedKeepsRunning(b.store, h.e.id, h.e.recover, NextAddress(b.store, h.e.id).1);
      }
    }
  }

  ghost predicate ProperById(b: Broker, happenings: seq<Happening>)
    decreases |happenings|
  {
    happenings == []
    || ((happenings[0].Handles? ==> Proper(b.store, happenings[0].e))
        && ProperById(StepById(b, happenings[0]), happenings[1..]))
  }

  /** Identity and running counters survive every run, dropped resumes included. */
  lemma {:induction false} RunsByIdStayAccounted(b: Broker, happenings: seq<Happening>)
    requires Sound(b.store) && RunningExact(b.store) && ProperById(b, happenings)
    ensures Sound(RunById(b, happenings).store) && RunningExact(RunById(b, happenings).store)
    decreases |happenings|
  {
    if happenings != [] {
      StepByIdKeepsRunning(b, happenings[0], StepById(b, happenings[0]));
      RunsByIdStayAccounted(StepById(b, happenings[0]), happenings[1..]);
    }
  }
}
