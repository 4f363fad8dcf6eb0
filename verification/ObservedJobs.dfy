/** What a job shown in the runtime view says of its logs: its key, state, span and texts, and which live job
    took its place. */
module ObservedJobs {
  import opened Options
  import opened Texts
  import opened Counting
  import opened ObservedLogs

  // ---------------------------------------------------------------- the key

  /** Within a worker two jobs have one key if and only if their ids agree, or, without ids, their entities
      do; a job with an id shares the key of one without exactly if its id is `entity:` and that entity, or
      `unknown` where there is none. */
  lemma SameKeyIff(worker: string, j1: Option<string>, e1: Option<string>, j2: Option<string>, e2: Option<string>)
    ensures HasText(j1) && HasText(j2) ==>
      (RuntimeJobKey(worker, j1, e1) == RuntimeJobKey(worker, j2, e2) <==> j1 == j2)
    ensures HasText(j1) && !HasText(j2) ==>
      (RuntimeJobKey(worker, j1, e1) == RuntimeJobKey(worker, j2, e2) <==>
         j1 == Some(if HasText(e2) then "entity:" + e2.value else "unknown"))
    ensures !HasText(j1) && !HasText(j2) && (HasText(e1) || HasText(e2)) ==>
      (RuntimeJobKey(worker, j1, e1) == RuntimeJobKey(worker, j2, e2) <==> e1 == e2 || (!HasText(e1) && !HasText(e2)))
    ensures !HasText(j1) && !HasText(j2) && !HasText(e1) && !HasText(e2) ==>
      RuntimeJobKey(worker, j1, e1) == RuntimeJobKey(worker, j2, e2)
    ensures worker + ":" <= RuntimeJobKey(worker, j1, e1)
  {
    var x, y := Named(j1, e1), Named(j2, e2);
    KeyIsNamed(worker, j1, e1);
    KeyIsNamed(worker, j2, e2);
    var p := worker + ":";
    assert (p + x)[|p|..] == x && (p + y)[|p|..] == y;
    assert HasText(e1) ==> ("entity:" + e1.value)[7..] == e1.value && ("entity:" + e1.value)[0] == 'e';
    assert HasText(e2) ==> ("entity:" + e2.value)[7..] == e2.value && ("entity:" + e2.value)[0] == 'e';
    assert "unknown"[0] == 'u';
  }

  function Named(jobId: Option<string>, entityId: Option<string>): string {
    if HasText(jobId) then jobId.value else if HasText(entityId) then "entity:" + entityId.value else "unknown"
  }

  lemma KeyIsNamed(worker: string, jobId: Option<string>, entityId: Option<string>)
    ensures RuntimeJobKey(worker, jobId, entityId) == worker + ":" + Named(jobId, entityId)
  {
    assert worker + ":unknown" == worker + ":" + "unknown";
    assert HasText(entityId) ==> worker + ":entity:" + entityId.value == worker + ":" + ("entity:" + entityId.value);
  }

  /** The keys are listed in the order of their first logs: a log of the earlier key comes before all of the
      later one's. */
  lemma {:induction false} KeysByFirstLog(worker: string, logs: seq<Log>, i: nat, j: nat) returns (p: nat)
    requires i < j < |Keys(worker, logs)|
    ensures p < |logs| && KeyOf(worker, logs[p]) == Keys(worker, logs)[i]
    ensures forall q | 0 <= q <= p :: KeyOf(worker, logs[q]) != Keys(worker, logs)[j]
    decreases |logs|
  {
    var n := |logs| - 1;
    var rest := Keys(worker, logs[..n]);
    if j < |rest| {
      p := KeysByFirstLog(worker, logs[..n], i, j);
    } else {
      GroupsAreBuckets(worker, logs[..n], rest[i]);
      p := LogOfBucket(worker, logs[..n], rest[i]);
      forall q | 0 <= q <= p ensures KeyOf(worker, logs[q]) != Keys(worker, logs)[j] {
        KeyIsListed(worker, logs[..n], q);
      }
    }
  }

  lemma {:induction false} LogOfBucket(worker: string, logs: seq<Log>, key: string) returns (p: nat)
    requires Bucket(worker, logs, key) != []
    ensures p < |logs| && KeyOf(worker, logs[p]) == key
    decreases |logs|
  {
    p := |logs| - 1;
    if KeyOf(worker, logs[p]) != key {
      p := LogOfBucket(worker, logs[..p], key);
    }
  }

  // ---------------------------------------------------------------- the state

  predicate StandsAt(part: string, text: string, i: int) {
    0 <= i <= |text| - |part| && text[i..i + |part|] == part
  }

  /** `part` stands somewhere in `text`. */
  ghost predicate Occurs(part: string, text: string) {
    exists i :: StandsAt(part, text, i)
  }

  lemma {:induction false} ContainsIff(text: string, part: string)
    ensures Contains(text, part) <==> Occurs(part, text)
  {
    if |part| <= |text| {
      assert part <= text <==> StandsAt(part, text, 0);
      if !(part <= text) {
        assert text != [];
        ContainsIff(text[1..], part);
        forall i ensures i != 0 ==> (StandsAt(part, text, i) <==> StandsAt(part, text[1..], i - 1)) {
          if 1 <= i <= |text| - |part| {
            assert text[i..i + |part|] == text[1..][i - 1..i - 1 + |part|];
          }
        }
        if i :| StandsAt(part, text[1..], i) {
          assert StandsAt(part, text, i + 1);
        }
      }
    }
  }

  /** Lower case is the same text with no capital left. */
  lemma LowerIsTheSameText(text: string)
    ensures |Lower(text)| == |text| && Upper(Lower(text)) == Upper(text)
    ensures forall i | 0 <= i < |text| :: !('A' <= Lower(text)[i] <= 'Z')
  {
  }

  /** The latest log says that its job is over. */
  ghost predicate SaysOver(log: Log) {
    || (exists word :: word in {"done", "complete", "invalid", "skip"} && Occurs(word, Lower(log.step)))
    || (exists word :: word in {"finaliz", "sarit", "procesat cu succes"} && Occurs(word, Lower(log.message)))
  }

  lemma SaysDoneIff(log: Log)
    ensures SaysDone(Lower(log.step), Lower(log.message)) <==> SaysOver(log)
  {
    var step, message := Lower(log.step), Lower(log.message);
    forall word ensures Contains(step, word) <==> Occurs(word, step) {
      ContainsIff(step, word);
    }
    forall word ensures Contains(message, word) <==> Occurs(word, message) {
      ContainsIff(message, word);
    }
  }

  ghost predicate Any(logs: seq<Log>, level: Level) {
    exists log :: log in logs && log.level == level
  }

  /** A bronze job is in error if any log is, else in warning if any log is, else completed if the latest log
      says it is over, else running if that log starts something or is a step, and else merely seen. */
  lemma BronzeStateIff(logs: seq<Log>)
    requires logs != []
    ensures BronzeState(logs) == ErrorState <==> Any(logs, ErrorLevel)
    ensures BronzeState(logs) == WarningState <==> !Any(logs, ErrorLevel) && Any(logs, WarnLevel)
    ensures BronzeState(logs) == CompletedState <==>
      !Any(logs, ErrorLevel) && !Any(logs, WarnLevel) && SaysOver(logs[0])
    ensures BronzeState(logs) == RunningState <==>
      && !Any(logs, ErrorLevel) && !Any(logs, WarnLevel) && !SaysOver(logs[0])
      && (Occurs("start", Lower(logs[0].step)) || logs[0].level == StepLevel)
    ensures BronzeState(logs) == SeenState <==>
      && !Any(logs, ErrorLevel) && !Any(logs, WarnLevel) && !SaysOver(logs[0])
      && !Occurs("start", Lower(logs[0].step)) && logs[0].level != StepLevel
  {
    AnyLevelIff(logs, ErrorLevel);
    AnyLevelIff(logs, WarnLevel);
    SaysDoneIff(logs[0]);
    ContainsIff(Lower(logs[0].step), "start");
  }

  /** A silver job is in error or warning likewise, else running if the latest log is a step, else completed. */
  lemma SilverStateIff(logs: seq<Log>)
    requires logs != []
    ensures SilverState(logs) == ErrorState <==> Any(logs, ErrorLevel)
    ensures SilverState(logs) == WarningState <==> !Any(logs, ErrorLevel) && Any(logs, WarnLevel)
    ensures SilverState(logs) == RunningState <==>
      !Any(logs, ErrorLevel) && !Any(logs, WarnLevel) && logs[0].level == StepLevel
    ensures SilverState(logs) == CompletedState <==>
      !Any(logs, ErrorLevel) && !Any(logs, WarnLevel) && logs[0].level != StepLevel
  {
    AnyLevelIff(logs, ErrorLevel);
    AnyLevelIff(logs, WarnLevel);
  }

  lemma AnyLevelIff(logs: seq<Log>, level: Level)
    ensures AnyLevel(logs, level) <==> Any(logs, level)
  {
    if log :| log in logs && log.level == level {
      var i :| 0 <= i < |logs| && logs[i] == log;
    }
  }

  // ---------------------------------------------------------------- the rest of one job

  /** The job speaks of these logs: from the first created to the last, under the key of every one of them,
      with the texts of the latest. */
  ghost predicate SpeaksOf(job: Job, worker: string, logs: seq<Log>) {
    && (forall log | log in logs :: job.createdAt <= log.createdAt <= job.lastEventAt && job.key == KeyOf(worker, log))
    && (exists log :: log in logs && log.createdAt == job.createdAt)
    && (exists latest :: latest in logs && latest.createdAt == job.lastEventAt && SpeaksAs(job, latest))
  }

  predicate SpeaksAs(job: Job, latest: Log) {
    && job.jobId == latest.jobId && job.entityId == latest.entityId && job.durationMs == latest.durationMs
    && job.message == Some(latest.message)
    && job.failedReason == (if latest.level == ErrorLevel then Some(latest.message) else None)
  }

  lemma {:induction false} BucketHasOneKey(worker: string, logs: seq<Log>, key: string)
    ensures forall log | log in Bucket(worker, logs, key) :: KeyOf(worker, log) == key
  {
    if logs != [] {
      BucketHasOneKey(worker, logs[..|logs| - 1], key);
    }
  }

  /** With newest-first logs both kinds of job speak of the logs of their key, and are filed under it. */
  lemma JobsSpeakOfTheirLogs(worker: string, logs: seq<Log>, key: string, bucket: seq<Log>)
    requires NewestFirst(logs) && bucket == Bucket(worker, logs, key) && bucket != []
    ensures SpeaksOf(BronzeJob(worker, bucket), worker, bucket) && BronzeJob(worker, bucket).key == key
    ensures SpeaksOf(SilverJob(worker, bucket), worker, bucket) && SilverJob(worker, bucket).key == key
    ensures BronzeJob(worker, bucket).source == JobLogs && SilverJob(worker, bucket).source == SilverLogs
    ensures BronzeJob(worker, bucket).entityType == if HasText(bucket[0].entityId) then Some("bronze_contact") else None
    ensures SilverJob(worker, bucket).entityType == bucket[0].entityType
  {
    BucketKeepsOrder(worker, logs, key);
    BucketHasOneKey(worker, logs, key);
    var n := |bucket| - 1;
    assert bucket[0] in bucket && bucket[n] in bucket;
    assert SpeaksAs(BronzeJob(worker, bucket), bucket[0]) && SpeaksAs(SilverJob(worker, bucket), bucket[0]);
    forall log | log in bucket ensures bucket[n].createdAt <= log.createdAt <= bucket[0].createdAt {
      var i :| 0 <= i < |bucket| && bucket[i] == log;
    }
  }

  /** A merge of two jobs takes what the one with the later last event knows, the right one on a tie, and what
      only the other knows from that one. */
  lemma MergeTakesTheLater(left: Job, right: Job, later: Job, other: Job)
    requires (later, other) == if left.lastEventAt > right.lastEventAt then (left, right) else (right, left)
    ensures var merged := MergeObserved(left, right);
            && merged.key == later.key && merged.jobId == later.jobId && merged.source == MergedSource
            && merged.createdAt == other.createdAt && merged.lastEventAt == later.lastEventAt
            && merged.entityId == (if later.entityId.Some? then later.entityId else other.entityId)
            && merged.entityType == (if later.entityType.Some? then later.entityType else other.entityType)
            && merged.message == (if later.message.Some? then later.message else other.message)
            && merged.failedReason == (if later.failedReason.Some? then later.failedReason else other.failedReason)
            && merged.durationMs == (if later.durationMs.Some? then later.durationMs else other.durationMs)
    ensures MergeObserved(left, right).state
         == if ErrorState in {left.state, right.state} then ErrorState
            else if WarningState in {left.state, right.state} then WarningState else later.state
  {
  }

  /** Every job shown is filed under its own key. */
  lemma ShownUnderItsKey(worker: string, bronze: seq<Log>, silver: seq<Log>, key: string)
    requires NewestFirst(bronze) && NewestFirst(silver) && key in Observed(worker, bronze, silver)
    ensures Observed(worker, bronze, silver)[key].key == key
  {
    ObservedAt(worker, bronze, silver, key);
    if Bucket(worker, bronze, key) != [] {
      JobsSpeakOfTheirLogs(worker, bronze, key, Bucket(worker, bronze, key));
    }
    if Bucket(worker, silver, key) != [] {
      JobsSpeakOfTheirLogs(worker, silver, key, Bucket(worker, silver, key));
    }
  }

  lemma LeaderOfBoth(worker: string, b: seq<Log>, v: seq<Log>, job: Job, silverLeads: bool)
    requires b != [] && v != [] && job == JobFor(worker, b, v)
    requires silverLeads <==> v[0].createdAt >= b[0].createdAt
    ensures job.source == MergedSource && job.message == Some(if silverLeads then v[0].message else b[0].message)
    ensures job.lastEventAt == if silverLeads then v[0].createdAt else b[0].createdAt
    ensures job.createdAt == if silverLeads then b[|b| - 1].createdAt else v[|v| - 1].createdAt
  {
  }

  /** Where both sources have logs of a key, the one with the newest log leads, the silver one on a tie: it gives
      the message and the last event, and the other one the creation time. */
  lemma LaterSourceLeads(worker: string, bronze: seq<Log>, silver: seq<Log>, key: string, b: seq<Log>, v: seq<Log>,
                         silverLeads: bool)
    requires b == Bucket(worker, bronze, key) && v == Bucket(worker, silver, key) && b != [] && v != []
    requires silverLeads <==> v[0].createdAt >= b[0].createdAt
    ensures key in Observed(worker, bronze, silver)
    ensures var job := Observed(worker, bronze, silver)[key];
            && job.source == MergedSource && job.message == Some(if silverLeads then v[0].message else b[0].message)
            && job.lastEventAt == (if silverLeads then v[0].createdAt else b[0].createdAt)
            && job.createdAt == (if silverLeads then b[|b| - 1].createdAt else v[|v| - 1].createdAt)
  {
    ObservedAt(worker, bronze, silver, key);
    LeaderOfBoth(worker, b, v, Observed(worker, bronze, silver)[key], silverLeads);
  }

  /** The counts are those of the jobs in each of three states. */
  lemma CountsAreOfStates(observed: map<string, Job>, logs: nat)
    ensures var counts := BaseCounts(observed, logs);
            && counts.completed == |set key | key in observed && observed[key].state == CompletedState|
            && counts.warnings == |set key | key in observed && observed[key].state == WarningState|
            && counts.errors == |set key | key in observed && observed[key].state == ErrorState|
            && counts.observedLogs == logs && counts.observedJobs == |observed.Keys|
  {
    assert Where(observed, In(CompletedState)) == set key | key in observed && observed[key].state == CompletedState;
    assert Where(observed, In(WarningState)) == set key | key in observed && observed[key].state == WarningState;
    assert Where(observed, In(ErrorState)) == set key | key in observed && observed[key].state == ErrorState;
  }

  // ---------------------------------------------------------------- live jobs

  /** The job shown is the live one: its state, ids, entity and times are the queue's, while its last event, its
      duration and, where they have one, its message come from the logs it replaced. */
  predicate ShowsLive(job: Job, worker: string, live: LiveJob, logged: Option<Job>) {
    && job.key == RuntimeJobKey(worker, live.id, live.entityId) && job.state == LiveState(live.state)
    && job.jobId == live.id && job.entityId == live.entityId && job.entityType == live.entityType
    && job.createdAt == live.timestamp
    && match logged
       case None =>
         && job.source == QueueSource && job.message == live.failedReason && job.failedReason == live.failedReason
         && job.durationMs == None
         && job.lastEventAt == (if live.processedOn.Some? then live.processedOn.value else live.timestamp)
       case Some(before) =>
         && job.source == MergedSource && job.durationMs == before.durationMs && job.lastEventAt == before.lastEventAt
         && job.message == (if before.message.Some? then before.message else live.failedReason)
         && job.failedReason == (if live.failedReason.Some? then live.failedReason else before.failedReason)
  }

  /** A live job whose key no other live job has is shown in place of what its logs gave. */
  lemma {:induction false} LiveJobIsShown(worker: string, live: seq<LiveJob>, observed: map<string, Job>, i: nat,
                                          key: string)
    requires i < |live| && key == LiveKey(worker, live[i])
    requires forall j | 0 <= j < |live| && j != i :: LiveKey(worker, live[j]) != key
    ensures key in WithLive(worker, live, observed)
    ensures ShowsLive(WithLive(worker, live, observed)[key], worker, live[i],
                      if key in observed then Some(observed[key]) else None)
    decreases |live|
  {
    var n := |live| - 1;
    if i < n {
      LiveJobIsShown(worker, live[..n], observed, i, key);
    } else {
      LoggedStays(worker, live[..n], observed, key);
    }
  }

  /** What no live job has the key of is shown as its logs gave it. */
  lemma {:induction false} LoggedStays(worker: string, live: seq<LiveJob>, observed: map<string, Job>, key: string)
    requires forall j | 0 <= j < |live| :: LiveKey(worker, live[j]) != key
    ensures key in WithLive(worker, live, observed) <==> key in observed
    ensures key in observed ==> WithLive(worker, live, observed)[key] == observed[key]
    decreases |live|
  {
    if live != [] {
      LoggedStays(worker, live[..|live| - 1], observed, key);
    }
  }
}
