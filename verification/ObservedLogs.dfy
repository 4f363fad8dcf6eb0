/** The runtime view of one worker: its logs grouped into observed jobs, merged, counted and listed. */
module ObservedLogs {
  import opened Counting
  import opened Options
  import opened Texts

  datatype Level = InfoLevel | StepLevel | WarnLevel | ErrorLevel

  /** A log row of either source; times are milliseconds. */
  datatype Log = Log(
    jobId: Option<string>, entityId: Option<string>, entityType: Option<string>, level: Level,
    step: string, message: string, durationMs: Option<int>, createdAt: int)

  /** The states inferred from logs, and the queue's own word for a live job. */
  datatype JobState = ErrorState | WarningState | CompletedState | RunningState | SeenState | LiveState(name: string)

  datatype Source = JobLogs | SilverLogs | MergedSource | QueueSource

  datatype Job = Job(
    key: string, source: Source, state: JobState, jobId: Option<string>, entityId: Option<string>,
    entityType: Option<string>, message: Option<string>, failedReason: Option<string>, durationMs: Option<int>,
    createdAt: int, lastEventAt: int)

  function RuntimeJobKey(worker: string, jobId: Option<string>, entityId: Option<string>): string {
    if HasText(jobId) then worker + ":" + jobId.value
    else if HasText(entityId) then worker + ":entity:" + entityId.value
    else worker + ":unknown"
  }

  function KeyOf(worker: string, log: Log): string {
    RuntimeJobKey(worker, log.jobId, log.entityId)
  }

  // ---------------------------------------------------------------- grouping

  /** The logs of one key, in their order. */
  function Bucket(worker: string, logs: seq<Log>, key: string): seq<Log> {
    if logs == [] then []
    else
      Bucket(worker, logs[..|logs| - 1], key)
      + (if KeyOf(worker, logs[|logs| - 1]) == key then [logs[|logs| - 1]] else [])
  }

  predicate Distinct(keys: seq<string>) {
    forall i, j | 0 <= i < j < |keys| :: keys[i] != keys[j]
  }

  /** `keys` lists the keys of the logs, once each. */
  ghost predicate Covers(worker: string, logs: seq<Log>, keys: seq<string>) {
    && Distinct(keys)
    && (forall i | 0 <= i < |logs| :: KeyOf(worker, logs[i]) in keys)
    && forall key | key in keys :: Bucket(worker, logs, key) != []
  }

  /** The keys of the logs in the order they first appear, and the buckets by key. */
  function Keys(worker: string, logs: seq<Log>): seq<string> {
    if logs == [] then []
    else
      var rest, key := Keys(worker, logs[..|logs| - 1]), KeyOf(worker, logs[|logs| - 1]);
      if key in rest then rest else rest + [key]
  }

  function Groups(worker: string, logs: seq<Log>): map<string, seq<Log>> {
    if logs == [] then map[]
    else
      var rest, key := Groups(worker, logs[..|logs| - 1]), KeyOf(worker, logs[|logs| - 1]);
      rest[key := (if key in rest then rest[key] else []) + [logs[|logs| - 1]]]
  }

  lemma {:induction false} GroupsAreBuckets(worker: string, logs: seq<Log>, key: string)
    ensures key in Groups(worker, logs) <==> Bucket(worker, logs, key) != []
    ensures key in Groups(worker, logs) ==> Groups(worker, logs)[key] == Bucket(worker, logs, key)
    ensures key in Groups(worker, logs) <==> key in Keys(worker, logs)
  {
    if logs != [] {
      GroupsAreBuckets(worker, logs[..|logs| - 1], key);
      GroupsAreBuckets(worker, logs[..|logs| - 1], KeyOf(worker, logs[|logs| - 1]));
    }
  }

  lemma {:induction false} KeysAreDistinct(worker: string, logs: seq<Log>)
    ensures Distinct(Keys(worker, logs))
  {
    if logs != [] {
      KeysAreDistinct(worker, logs[..|logs| - 1]);
    }
  }

  /** Grouping lists every key once, with a non-empty bucket. */
  lemma KeysCover(worker: string, logs: seq<Log>)
    ensures Covers(worker, logs, Keys(worker, logs))
  {
    KeysAreDistinct(worker, logs);
    forall key | key in Keys(worker, logs) ensures Bucket(worker, logs, key) != [] {
      GroupsAreBuckets(worker, logs, key);
    }
    forall i | 0 <= i < |logs| ensures KeyOf(worker, logs[i]) in Keys(worker, logs) {
      KeyIsListed(worker, logs, i);
    }
  }

  lemma {:induction false} KeyIsListed(worker: string, logs: seq<Log>, i: nat)
    requires i < |logs|
    ensures KeyOf(worker, logs[i]) in Keys(worker, logs)
    decreases |logs|
  {
    if i < |logs| - 1 {
      KeyIsListed(worker, logs[..|logs| - 1], i);
    }
  }

  method GroupObservedLogsByRuntimeKey(worker: string, logs: seq<Log>)
    returns (keys: seq<string>, grouped: map<string, seq<Log>>)
    ensures keys == Keys(worker, logs) && grouped == Groups(worker, logs)
  {
    keys, grouped := [], map[];
    for i := 0 to |logs|
      invariant keys == Keys(worker, logs[..i]) && grouped == Groups(worker, logs[..i])
    {
      var log := logs[i];
      var key := KeyOf(worker, log);
      assert logs[..i + 1][..i] == logs[..i];
      GroupsAreBuckets(worker, logs[..i], key);
      var bucket := if key in grouped then grouped[key] else [];
      if key !in grouped {
        keys := keys + [key];
      }
      grouped := grouped[key := bucket + [log]];
    }
    assert logs[..|logs|] == logs;
  }

  lemma {:induction false} NoLogOfKey(worker: string, logs: seq<Log>, key: string)
    requires forall i | 0 <= i < |logs| :: KeyOf(worker, logs[i]) != key
    ensures Bucket(worker, logs, key) == []
  {
    if logs != [] {
      NoLogOfKey(worker, logs[..|logs| - 1], key);
    }
  }

  function TotalSize(worker: string, logs: seq<Log>, keys: seq<string>): nat {
    if keys == [] then 0 else |Bucket(worker, logs, keys[0])| + TotalSize(worker, logs, keys[1..])
  }

  lemma {:induction false} OneMoreLog(worker: string, logs: seq<Log>, log: Log, keys: seq<string>)
    requires Distinct(keys)
    ensures TotalSize(worker, logs + [log], keys)
        == TotalSize(worker, logs, keys) + (if KeyOf(worker, log) in keys then 1 else 0)
  {
    if keys != [] {
      assert (logs + [log])[..|logs|] == logs;
      OneMoreLog(worker, logs, log, keys[1..]);
    }
  }

  /** Every log lands in exactly one bucket: the buckets' sizes add up to the number of logs. */
  lemma {:induction false} BucketsPartition(worker: string, logs: seq<Log>, keys: seq<string>)
    requires Distinct(keys) && forall i | 0 <= i < |logs| :: KeyOf(worker, logs[i]) in keys
    ensures TotalSize(worker, logs, keys) == |logs|
    decreases |logs|
  {
    if logs == [] {
      EmptyBuckets(worker, keys);
    } else {
      var n := |logs| - 1;
      BucketsPartition(worker, logs[..n], keys);
      OneMoreLog(worker, logs[..n], logs[n], keys);
      assert logs[..n] + [logs[n]] == logs;
    }
  }

  lemma {:induction false} EmptyBuckets(worker: string, keys: seq<string>)
    ensures TotalSize(worker, [], keys) == 0
  {
    if keys != [] {
      EmptyBuckets(worker, keys[1..]);
    }
  }

  /** A log appears in the bucket of its key as often as among the logs, and in no other bucket. */
  lemma {:induction false} BucketHoldsItsLogs(worker: string, logs: seq<Log>, key: string, log: Log)
    ensures multiset(Bucket(worker, logs, key))[log] == if KeyOf(worker, log) == key then multiset(logs)[log] else 0
  {
    if logs != [] {
      var n := |logs| - 1;
      BucketHoldsItsLogs(worker, logs[..n], key, log);
      assert logs == logs[..n] + [logs[n]];
    }
  }

  predicate NewestFirst(logs: seq<Log>) {
    forall i, j | 0 <= i < j < |logs| :: logs[i].createdAt >= logs[j].createdAt
  }

  /** Grouping keeps the order of the logs within each bucket. */
  lemma {:induction false} BucketKeepsOrder(worker: string, logs: seq<Log>, key: string)
    requires NewestFirst(logs)
    ensures NewestFirst(Bucket(worker, logs, key))
    ensures forall log | log in Bucket(worker, logs, key) :: log in logs
  {
    if logs != [] {
      var n := |logs| - 1;
      BucketKeepsOrder(worker, logs[..n], key);
      var rest := Bucket(worker, logs[..n], key);
      forall i | 0 <= i < |rest| ensures rest[i].createdAt >= logs[n].createdAt {
        assert rest[i] in rest;
      }
    }
  }

  // ---------------------------------------------------------------- one job from its logs

  predicate Contains(text: string, part: string) {
    |part| <= |text| && (part <= text || Contains(text[1..], part))
  }

  predicate AnyLevel(logs: seq<Log>, level: Level) {
    exists i | 0 <= i < |logs| :: logs[i].level == level
  }

  predicate SaysDone(step: string, message: string) {
    || Contains(step, "done") || Contains(step, "complete") || Contains(step, "invalid") || Contains(step, "skip")
    || Contains(message, "finaliz") || Contains(message, "sarit") || Contains(message, "procesat cu succes")
  }

  function BronzeState(logs: seq<Log>): JobState
    requires logs != []
  {
    var step, message := Lower(logs[0].step), Lower(logs[0].message);
    if AnyLevel(logs, ErrorLevel) then ErrorState
    else if SaysDone(step, message) then (if AnyLevel(logs, WarnLevel) then WarningState else CompletedState)
    else if AnyLevel(logs, WarnLevel) then WarningState
    else if Contains(step, "start") || logs[0].level == StepLevel then RunningState
    else SeenState
  }

  function SilverState(logs: seq<Log>): JobState
    requires logs != []
  {
    if AnyLevel(logs, ErrorLevel) then ErrorState
    else if AnyLevel(logs, WarnLevel) then WarningState
    else if logs[0].level == StepLevel then RunningState
    else CompletedState
  }

  function ObservedJob(worker: string, logs: seq<Log>, source: Source, state: JobState, entityType: Option<string>): Job
    requires logs != []
  {
    var latest, earliest := logs[0], logs[|logs| - 1];
    Job(KeyOf(worker, latest), source, state, latest.jobId, latest.entityId, entityType, Some(latest.message),
        if latest.level == ErrorLevel then Some(latest.message) else None, latest.durationMs,
        earliest.createdAt, latest.createdAt)
  }

  function BronzeJob(worker: string, logs: seq<Log>): Job
    requires logs != []
  {
    ObservedJob(worker, logs, JobLogs, BronzeState(logs),
                if HasText(logs[0].entityId) then Some("bronze_contact") else None)
  }

  function SilverJob(worker: string, logs: seq<Log>): Job
    requires logs != []
  {
    ObservedJob(worker, logs, SilverLogs, SilverState(logs), logs[0].entityType)
  }

  // ---------------------------------------------------------------- merging the two sources

  function MergedState(primary: JobState, secondary: JobState): JobState {
    if primary == ErrorState || secondary == ErrorState then ErrorState
    else if primary == WarningState || secondary == WarningState then WarningState
    else primary
  }

  /** The job with the later last event, the right one on a tie, is the primary. */
  function MergeObserved(left: Job, right: Job): Job {
    var rightFirst := right.lastEventAt >= left.lastEventAt;
    var primary := if rightFirst then right else left;
    var secondary := if rightFirst then left else right;
    Job(primary.key, MergedSource, MergedState(primary.state, secondary.state), primary.jobId,
        Or(primary.entityId, secondary.entityId), Or(primary.entityType, secondary.entityType),
        Or(primary.message, secondary.message),
        Or(primary.failedReason, secondary.failedReason), Or(primary.durationMs, secondary.durationMs),
        secondary.createdAt, primary.lastEventAt)
  }

  predicate InOrder(job: Job) {
    job.createdAt <= job.lastEventAt
  }

  /** A merge reports the later last event and the worse state, and stays in order; but the creation time
      it reports is the earlier one exactly when the job that ended later also began no earlier. */
  lemma MergeOfOrdered(left: Job, right: Job)
    requires InOrder(left) && InOrder(right)
    ensures var merged := MergeObserved(left, right);
            && InOrder(merged)
            && merged.lastEventAt
              == (if left.lastEventAt >= right.lastEventAt then left.lastEventAt else right.lastEventAt)
            && (merged.state == ErrorState <==> left.state == ErrorState || right.state == ErrorState)
            && (merged.createdAt <= left.createdAt && merged.createdAt <= right.createdAt
                <==> if right.lastEventAt >= left.lastEventAt then left.createdAt <= right.createdAt
                     else right.createdAt <= left.createdAt)
  {
  }

  // ---------------------------------------------------------------- the persisted jobs

  /** The job shown for a key: from either source, or merged from both. */
  function JobFor(worker: string, bronze: seq<Log>, silver: seq<Log>): Job
    requires bronze != [] || silver != []
  {
    if silver == [] then BronzeJob(worker, bronze)
    else if bronze == [] then SilverJob(worker, silver)
    else MergeObserved(BronzeJob(worker, bronze), SilverJob(worker, silver))
  }

  /** `observed` shows one job for each key of either source, and nothing else. */
  ghost predicate Shows(worker: string, bronze: seq<Log>, silver: seq<Log>, observed: map<string, Job>) {
    forall key ::
      && (key in observed <==> Bucket(worker, bronze, key) != [] || Bucket(worker, silver, key) != [])
      && (key in observed ==> observed[key] == JobFor(worker, Bucket(worker, bronze, key), Bucket(worker, silver, key)))
  }

  function JobsList(keys: seq<string>, observed: map<string, Job>): seq<Job>
    requires forall key | key in keys :: key in observed
  {
    seq(|keys|, i requires 0 <= i < |keys| => observed[keys[i]])
  }

  predicate Filled(keys: seq<string>, grouped: map<string, seq<Log>>) {
    forall i | 0 <= i < |keys| :: keys[i] in grouped && grouped[keys[i]] != []
  }

  lemma GroupsFilled(worker: string, logs: seq<Log>)
    ensures Filled(Keys(worker, logs), Groups(worker, logs)) && Distinct(Keys(worker, logs))
  {
    KeysAreDistinct(worker, logs);
    forall i | 0 <= i < |Keys(worker, logs)|
      ensures Keys(worker, logs)[i] in Groups(worker, logs) && Groups(worker, logs)[Keys(worker, logs)[i]] != []
    {
      GroupsAreBuckets(worker, logs, Keys(worker, logs)[i]);
    }
  }

  /** The first loop: a job for each bronze group. */
  function Bronzes(worker: string, keys: seq<string>, grouped: map<string, seq<Log>>): map<string, Job>
    requires Filled(keys, grouped)
  {
    if keys == [] then map[]
    else
      var n := |keys| - 1;
      Bronzes(worker, keys[..n], grouped)[keys[n] := BronzeJob(worker, grouped[keys[n]])]
  }

  /** The second loop: each silver group merged in, or added. */
  function WithSilvers(worker: string, keys: seq<string>, grouped: map<string, seq<Log>>,
                       observed: map<string, Job>): map<string, Job>
    requires Filled(keys, grouped)
  {
    if keys == [] then observed
    else
      var n := |keys| - 1;
      var before, job := WithSilvers(worker, keys[..n], grouped, observed), SilverJob(worker, grouped[keys[n]]);
      before[keys[n] := if keys[n] in before then MergeObserved(before[keys[n]], job) else job]
  }

  function WithKeys(keys: seq<string>, more: seq<string>): seq<string> {
    if more == [] then keys
    else
      var before, last := WithKeys(keys, more[..|more| - 1]), more[|more| - 1];
      if last in before then before else before + [last]
  }

  lemma {:induction false} BronzesAt(worker: string, keys: seq<string>, grouped: map<string, seq<Log>>, key: string)
    requires Filled(keys, grouped)
    ensures key in Bronzes(worker, keys, grouped) <==> key in keys
    ensures key in keys ==> Bronzes(worker, keys, grouped)[key] == BronzeJob(worker, grouped[key])
  {
    if keys != [] {
      BronzesAt(worker, keys[..|keys| - 1], grouped, key);
      assert keys == keys[..|keys| - 1] + [keys[|keys| - 1]];
    }
  }

  lemma {:induction false} SilversAt(
    worker: string, keys: seq<string>, grouped: map<string, seq<Log>>, observed: map<string, Job>, key: string)
    requires Filled(keys, grouped) && Distinct(keys)
    ensures key in WithSilvers(worker, keys, grouped, observed) <==> key in observed || key in keys
    ensures key in observed && key !in keys ==> WithSilvers(worker, keys, grouped, observed)[key] == observed[key]
    ensures key in keys ==>
      var job := SilverJob(worker, grouped[key]);
      WithSilvers(worker, keys, grouped, observed)[key]
        == if key in observed then MergeObserved(observed[key], job) else job
  {
    if keys != [] {
      SilversAt(worker, keys[..|keys| - 1], grouped, observed, key);
      assert keys == keys[..|keys| - 1] + [keys[|keys| - 1]];
    }
  }

  lemma {:induction false} KeysListed(keys: seq<string>, more: seq<string>, key: string)
    ensures key in WithKeys(keys, more) <==> key in keys || key in more
  {
    if more != [] {
      KeysListed(keys, more[..|more| - 1], key);
      assert more == more[..|more| - 1] + [more[|more| - 1]];
    }
  }

  lemma {:induction false} KeysStayDistinct(keys: seq<string>, more: seq<string>)
    requires Distinct(keys)
    ensures Distinct(WithKeys(keys, more))
  {
    if more != [] {
      KeysStayDistinct(keys, more[..|more| - 1]);
    }
  }

  lemma FilledPrefix(keys: seq<string>, grouped: map<string, seq<Log>>, i: nat)
    requires Filled(keys, grouped) && i <= |keys|
    ensures Filled(keys[..i], grouped)
  {
  }

  lemma BronzeStep(worker: string, keys: seq<string>, grouped: map<string, seq<Log>>, i: nat)
    requires Filled(keys, grouped) && i < |keys|
    ensures Filled(keys[..i], grouped) && Filled(keys[..i + 1], grouped)
    ensures Bronzes(worker, keys[..i + 1], grouped)
        == Bronzes(worker, keys[..i], grouped)[keys[i] := BronzeJob(worker, grouped[keys[i]])]
  {
    assert keys[..i + 1][..i] == keys[..i];
  }

  lemma SilverStep(worker: string, b: seq<string>, bronze: map<string, seq<Log>>,
                   s: seq<string>, silver: map<string, seq<Log>>, i: nat)
    requires Filled(b, bronze) && Filled(s, silver) && Distinct(s) && i < |s|
    ensures Filled(s[..i], silver) && Filled(s[..i + 1], silver)
    ensures var before := WithSilvers(worker, s[..i], silver, Bronzes(worker, b, bronze));
            var job := SilverJob(worker, silver[s[i]]);
            && WithSilvers(worker, s[..i + 1], silver, Bronzes(worker, b, bronze))
            == before[s[i] := if s[i] in before then MergeObserved(before[s[i]], job) else job]
            && WithKeys(b, s[..i + 1]) == if s[i] in before then WithKeys(b, s[..i]) else WithKeys(b, s[..i]) + [s[i]]
  {
    FilledPrefix(s, silver, i);
    FilledPrefix(s, silver, i + 1);
    assert s[..i + 1][..i] == s[..i];
    SilversAt(worker, s[..i], silver, Bronzes(worker, b, bronze), s[i]);
    BronzesAt(worker, b, bronze, s[i]);
    KeysListed(b, s[..i], s[i]);
  }

  /** All jobs shown, and their keys in insertion order. */
  function Observed(worker: string, bronze: seq<Log>, silver: seq<Log>): map<string, Job> {
    GroupsFilled(worker, bronze);
    GroupsFilled(worker, silver);
    WithSilvers(worker, Keys(worker, silver), Groups(worker, silver),
                Bronzes(worker, Keys(worker, bronze), Groups(worker, bronze)))
  }

  function ObservedKeys(worker: string, bronze: seq<Log>, silver: seq<Log>): seq<string> {
    WithKeys(Keys(worker, bronze), Keys(worker, silver))
  }

  lemma ObservedAt(worker: string, bronze: seq<Log>, silver: seq<Log>, key: string)
    ensures key in Observed(worker, bronze, silver)
        <==> Bucket(worker, bronze, key) != [] || Bucket(worker, silver, key) != []
    ensures key in Observed(worker, bronze, silver) <==> key in ObservedKeys(worker, bronze, silver)
    ensures key in Observed(worker, bronze, silver) ==>
      Observed(worker, bronze, silver)[key] == JobFor(worker, Bucket(worker, bronze, key), Bucket(worker, silver, key))
  {
    GroupsFilled(worker, bronze);
    GroupsFilled(worker, silver);
    GroupsAreBuckets(worker, bronze, key);
    GroupsAreBuckets(worker, silver, key);
    BronzesAt(worker, Keys(worker, bronze), Groups(worker, bronze), key);
    SilversAt(worker, Keys(worker, silver), Groups(worker, silver),
              Bronzes(worker, Keys(worker, bronze), Groups(worker, bronze)), key);
    KeysListed(Keys(worker, bronze), Keys(worker, silver), key);
  }

  /** One job is shown for each key of either source, once, and nothing else. */
  lemma ObservedShows(worker: string, bronze: seq<Log>, silver: seq<Log>)
    ensures Shows(worker, bronze, silver, Observed(worker, bronze, silver))
    ensures Distinct(ObservedKeys(worker, bronze, silver))
  {
    KeysAreDistinct(worker, bronze);
    KeysStayDistinct(Keys(worker, bronze), Keys(worker, silver));
    forall key
      ensures key in Observed(worker, bronze, silver)
          <==> Bucket(worker, bronze, key) != [] || Bucket(worker, silver, key) != []
      ensures key in Observed(worker, bronze, silver) ==>
        Observed(worker, bronze, silver)[key]
          == JobFor(worker, Bucket(worker, bronze, key), Bucket(worker, silver, key))
    {
      ObservedAt(worker, bronze, silver, key);
    }
  }

  method BuildPersistedObservedJobs(worker: string, bronze: seq<Log>, silver: seq<Log>)
    returns (keys: seq<string>, observed: map<string, Job>)
    ensures keys == ObservedKeys(worker, bronze, silver) && observed == Observed(worker, bronze, silver)
  {
    var bronzeKeys, groupedBronze := GroupObservedLogsByRuntimeKey(worker, bronze);
    var silverKeys, groupedSilver := GroupObservedLogsByRuntimeKey(worker, silver);
    GroupsFilled(worker, bronze);
    GroupsFilled(worker, silver);
    observed := map[];
    for i := 0 to |bronzeKeys|
      invariant Filled(bronzeKeys[..i], groupedBronze) && observed == Bronzes(worker, bronzeKeys[..i], groupedBronze)
    {
      BronzeStep(worker, bronzeKeys, groupedBronze, i);
      observed := observed[bronzeKeys[i] := BronzeJob(worker, groupedBronze[bronzeKeys[i]])];
    }
    assert bronzeKeys[..|bronzeKeys|] == bronzeKeys;
    keys := bronzeKeys;
    ghost var bronzes := observed;
    for i := 0 to |silverKeys|
      invariant Filled(silverKeys[..i], groupedSilver)
          && observed == WithSilvers(worker, silverKeys[..i], groupedSilver, bronzes)
      invariant keys == WithKeys(bronzeKeys, silverKeys[..i])
    {
      var key := silverKeys[i];
      SilverStep(worker, bronzeKeys, groupedBronze, silverKeys, groupedSilver, i);
      var silverObserved := SilverJob(worker, groupedSilver[key]);
      if key in observed {
        observed := observed[key := MergeObserved(observed[key], silverObserved)];
      } else {
        keys := keys + [key];
        observed := observed[key := silverObserved];
      }
    }
    assert silverKeys[..|silverKeys|] == silverKeys;
  }

  lemma JobOfBucketInOrder(worker: string, logs: seq<Log>, key: string)
    requires NewestFirst(logs) && Bucket(worker, logs, key) != []
    ensures var bucket := Bucket(worker, logs, key);
            InOrder(BronzeJob(worker, bucket)) && InOrder(SilverJob(worker, bucket))
  {
    BucketKeepsOrder(worker, logs, key);
  }

  /** With both sources newest first, every shown job, merged or not, begins no later than it ends. */
  lemma ShownJobsAreInOrder(worker: string, bronze: seq<Log>, silver: seq<Log>, observed: map<string, Job>)
    requires NewestFirst(bronze) && NewestFirst(silver) && Shows(worker, bronze, silver, observed)
    ensures forall key | key in observed :: InOrder(observed[key])
  {
    forall key | key in observed ensures InOrder(observed[key]) {
      if Bucket(worker, bronze, key) != [] {
        JobOfBucketInOrder(worker, bronze, key);
      }
      if Bucket(worker, silver, key) != [] {
        JobOfBucketInOrder(worker, silver, key);
      }
    }
  }

  // ---------------------------------------------------------------- counts

  datatype WorkerCounts = WorkerCounts(completed: nat, warnings: nat, errors: nat, observedLogs: nat, observedJobs: nat)

  ghost function In(state: JobState): Job -> bool {
    (job: Job) => job.state == state
  }

  ghost function BaseCounts(observed: map<string, Job>, observedLogs: nat): WorkerCounts {
    WorkerCounts(Count(observed, In(CompletedState)), Count(observed, In(WarningState)),
                 Count(observed, In(ErrorState)),
                 observedLogs, |observed|)
  }

  function KeySet(worker: string, logs: seq<Log>): set<string> {
    set i | 0 <= i < |logs| :: KeyOf(worker, logs[i])
  }

  lemma {:induction false} FewKeys(worker: string, logs: seq<Log>)
    ensures |KeySet(worker, logs)| <= |logs|
  {
    if logs != [] {
      var n := |logs| - 1;
      FewKeys(worker, logs[..n]);
      assert KeySet(worker, logs) == KeySet(worker, logs[..n]) + {KeyOf(worker, logs[n])};
    }
  }

  lemma {:induction false} BucketHasKey(worker: string, logs: seq<Log>, key: string)
    ensures Bucket(worker, logs, key) != [] ==> key in KeySet(worker, logs)
  {
    if logs != [] {
      var n := |logs| - 1;
      BucketHasKey(worker, logs[..n], key);
      assert KeySet(worker, logs) == KeySet(worker, logs[..n]) + {KeyOf(worker, logs[n])};
    }
  }

  lemma SubsetSize<T>(a: set<T>, b: set<T>)
    requires a <= b
    ensures |a| <= |b|
  {
    assert b == a + (b - a);
  }

  lemma StatesAreApart(observed: map<string, Job>)
    ensures Count(observed, In(CompletedState)) + Count(observed, In(WarningState)) + Count(observed, In(ErrorState))
         <= |observed|
  {
    var c, w := Where(observed, In(CompletedState)), Where(observed, In(WarningState));
    var e := Where(observed, In(ErrorState));
    assert c !! w && (c + w) !! e;
    SubsetSize(c + w + e, observed.Keys);
  }

  /** Finished jobs are among the observed jobs, and there are no more jobs than logs. */
  lemma CountsFit(worker: string, bronze: seq<Log>, silver: seq<Log>, observed: map<string, Job>)
    requires Shows(worker, bronze, silver, observed)
    ensures var counts := BaseCounts(observed, |bronze| + |silver|);
            counts.completed + counts.warnings + counts.errors <= counts.observedJobs <= counts.observedLogs
  {
    StatesAreApart(observed);
    FewKeys(worker, bronze);
    FewKeys(worker, silver);
    forall key | key in observed ensures key in KeySet(worker, bronze) + KeySet(worker, silver) {
      BucketHasKey(worker, bronze, key);
      BucketHasKey(worker, silver, key);
    }
    SubsetSize(observed.Keys, KeySet(worker, bronze) + KeySet(worker, silver));
  }

  // ---------------------------------------------------------------- the list shown

  const SHOWN: nat := 120

  predicate JobsNewestFirst(jobs: seq<Job>) {
    forall i, j | 0 <= i < j < |jobs| :: jobs[i].lastEventAt >= jobs[j].lastEventAt
  }

  function Inserted(job: Job, jobs: seq<Job>): seq<Job> {
    if jobs == [] || job.lastEventAt >= jobs[0].lastEventAt then [job] + jobs
    else [jobs[0]] + Inserted(job, jobs[1..])
  }

  /** A stable sort, newest last event first. */
  function Sorted(jobs: seq<Job>): seq<Job> {
    if jobs == [] then [] else Inserted(jobs[0], Sorted(jobs[1..]))
  }

  function BuildRuntimeWorkerJobs(jobs: seq<Job>): seq<Job> {
    if |Sorted(jobs)| <= SHOWN then Sorted(jobs) else Sorted(jobs)[..SHOWN]
  }

  /** The jobs of one time stamp, in their order. */
  function OfTime(jobs: seq<Job>, time: int): seq<Job> {
    if jobs == [] then [] else (if jobs[0].lastEventAt == time then [jobs[0]] else []) + OfTime(jobs[1..], time)
  }

  lemma {:induction false} InsertedBelow(job: Job, jobs: seq<Job>, top: int)
    requires job.lastEventAt <= top && forall i | 0 <= i < |jobs| :: jobs[i].lastEventAt <= top
    ensures forall i | 0 <= i < |Inserted(job, jobs)| :: Inserted(job, jobs)[i].lastEventAt <= top
  {
    if jobs != [] && job.lastEventAt < jobs[0].lastEventAt {
      InsertedBelow(job, jobs[1..], top);
    }
  }

  lemma {:induction false} InsertedInOrder(job: Job, jobs: seq<Job>)
    requires JobsNewestFirst(jobs)
    ensures JobsNewestFirst(Inserted(job, jobs))
  {
    if jobs != [] && job.lastEventAt < jobs[0].lastEventAt {
      InsertedInOrder(job, jobs[1..]);
      InsertedBelow(job, jobs[1..], jobs[0].lastEventAt);
    }
  }

  lemma {:induction false} InsertedKeepsAll(job: Job, jobs: seq<Job>)
    ensures multiset(Inserted(job, jobs)) == multiset(jobs) + multiset{job}
  {
    if jobs != [] && job.lastEventAt < jobs[0].lastEventAt {
      InsertedKeepsAll(job, jobs[1..]);
      assert jobs == [jobs[0]] + jobs[1..];
    }
  }

  lemma OfTimeUnfolds(job: Job, jobs: seq<Job>, time: int)
    ensures OfTime([job] + jobs, time) == (if job.lastEventAt == time then [job] else []) + OfTime(jobs, time)
  {
    assert ([job] + jobs)[1..] == jobs;
  }

  lemma {:induction false} InsertedIsStable(job: Job, jobs: seq<Job>, time: int)
    ensures OfTime(Inserted(job, jobs), time) == (if job.lastEventAt == time then [job] else []) + OfTime(jobs, time)
  {
    if jobs == [] || job.lastEventAt >= jobs[0].lastEventAt {
      OfTimeUnfolds(job, jobs, time);
    } else {
      InsertedIsStable(job, jobs[1..], time);
      OfTimeUnfolds(jobs[0], Inserted(job, jobs[1..]), time);
      OfTimeUnfolds(jobs[0], jobs[1..], time);
      assert [jobs[0]] + jobs[1..] == jobs;
    }
  }

  lemma {:induction false} SortedFits(jobs: seq<Job>)
    ensures JobsNewestFirst(Sorted(jobs)) && multiset(Sorted(jobs)) == multiset(jobs) && |Sorted(jobs)| == |jobs|
  {
    if jobs != [] {
      SortedFits(jobs[1..]);
      InsertedInOrder(jobs[0], Sorted(jobs[1..]));
      InsertedKeepsAll(jobs[0], Sorted(jobs[1..]));
      assert jobs == [jobs[0]] + jobs[1..];
      assert |multiset(Sorted(jobs))| == |multiset(jobs)|;
    }
  }

  /** Jobs with the same last event keep their order. */
  lemma {:induction false} SortIsStable(jobs: seq<Job>, time: int)
    ensures OfTime(Sorted(jobs), time) == OfTime(jobs, time)
  {
    if jobs != [] {
      SortedFits(jobs[1..]);
      InsertedIsStable(jobs[0], Sorted(jobs[1..]), time);
      SortIsStable(jobs[1..], time);
    }
  }

  lemma PrefixIsNewest(sorted: seq<Job>, n: nat)
    requires JobsNewestFirst(sorted) && n <= |sorted|
    ensures multiset(sorted) == multiset(sorted[..n]) + multiset(sorted[n..])
    ensures forall job, left | job in sorted[..n] && left in sorted[n..] :: job.lastEventAt >= left.lastEventAt
  {
    assert sorted == sorted[..n] + sorted[n..];
    forall job, left | job in sorted[..n] && left in sorted[n..] ensures job.lastEventAt >= left.lastEventAt {
      var i :| 0 <= i < n && sorted[i] == job;
      var j :| 0 <= j < |sorted| - n && sorted[n..][j] == left;
      assert sorted[n + j] == left;
    }
  }

  /** The jobs the list leaves out. */
  function Omitted(jobs: seq<Job>): seq<Job> {
    if |Sorted(jobs)| <= SHOWN then [] else Sorted(jobs)[SHOWN..]
  }

  /** The list holds the newest 120 jobs, newest first: what it leaves out is no newer than what it shows. */
  lemma ShowsTheNewest(jobs: seq<Job>)
    ensures var shown, omitted := BuildRuntimeWorkerJobs(jobs), Omitted(jobs);
            && JobsNewestFirst(shown) && |shown| == (if |jobs| <= 120 then |jobs| else 120)
            && multiset(jobs) == multiset(shown) + multiset(omitted)
            && forall job, other | job in shown && other in omitted :: job.lastEventAt >= other.lastEventAt
  {
    SortedFits(jobs);
    if |Sorted(jobs)| > SHOWN {
      PrefixIsNewest(Sorted(jobs), SHOWN);
    }
  }

  // ---------------------------------------------------------------- live queue jobs

  /** A job as the queue reports it; the time it was added is always known. */
  datatype LiveJob = LiveJob(
    id: Option<string>, state: string, entityId: Option<string>, entityType: Option<string>,
    failedReason: Option<string>, timestamp: int, processedOn: Option<int>)

  datatype LiveCounts = LiveCounts(waiting: nat, active: nat, delayed: nat, prioritized: nat, failedLive: nat)

  const NONE_LIVE := LiveCounts(0, 0, 0, 0, 0)

  function LiveKey(worker: string, live: LiveJob): string {
    RuntimeJobKey(worker, live.id, live.entityId)
  }

  /** The live job takes the place of what its logs showed, and keeps their last event. */
  function LiveSnapshot(worker: string, live: LiveJob, existing: Option<Job>): Job {
    var seen := existing.Some?;
    Job(LiveKey(worker, live), if seen then MergedSource else QueueSource, LiveState(live.state), live.id,
        live.entityId, live.entityType,
        Or(if seen then existing.value.message else None, live.failedReason),
        Or(live.failedReason, if seen then existing.value.failedReason else None),
        if seen then existing.value.durationMs else None, live.timestamp,
        if seen then existing.value.lastEventAt else live.processedOn.GetOr(live.timestamp))
  }

  /** A live job is in order if and only if it was added no later than the last event it keeps: that of
      its logs, or else its start. */
  lemma LiveInOrderIff(worker: string, live: LiveJob, existing: Option<Job>)
    ensures InOrder(LiveSnapshot(worker, live, existing)) <==>
      (if existing.Some? then live.timestamp <= existing.value.lastEventAt
       else live.processedOn.Some? ==> live.timestamp <= live.processedOn.value)
  {
  }

  function WithLive(worker: string, live: seq<LiveJob>, observed: map<string, Job>): map<string, Job> {
    if live == [] then observed
    else
      var before, last := WithLive(worker, live[..|live| - 1], observed), live[|live| - 1];
      var key := LiveKey(worker, last);
      before[key := LiveSnapshot(worker, last, if key in before then Some(before[key]) else None)]
  }

  function LiveKeys(worker: string, live: seq<LiveJob>): seq<string> {
    seq(|live|, i requires 0 <= i < |live| => LiveKey(worker, live[i]))
  }

  /** `incrementRuntimeWorkerCount`: the other states are not counted. */
  method IncrementRuntimeWorkerCount(counts: LiveCounts, state: string) returns (after: LiveCounts)
    ensures after == Incremented(counts, state)
  {
    after := counts;
    if state == "waiting" {
      after := after.(waiting := after.waiting + 1);
      return;
    }
    if state == "active" {
      after := after.(active := after.active + 1);
      return;
    }
    if state == "delayed" {
      after := after.(delayed := after.delayed + 1);
      return;
    }
    if state == "prioritized" {
      after := after.(prioritized := after.prioritized + 1);
      return;
    }
    if state == "failed" {
      after := after.(failedLive := after.failedLive + 1);
    }
  }

  function One(yes: bool): nat {
    if yes then 1 else 0
  }

  function Incremented(c: LiveCounts, state: string): LiveCounts {
    LiveCounts(c.waiting + One(state == "waiting"), c.active + One(state == "active"),
               c.delayed + One(state == "delayed"),
               c.prioritized + One(state == "prioritized"), c.failedLive + One(state == "failed"))
  }

  function CountsOf(live: seq<LiveJob>): LiveCounts {
    if live == [] then NONE_LIVE else Incremented(CountsOf(live[..|live| - 1]), live[|live| - 1].state)
  }

  function InState(live: seq<LiveJob>, state: string): nat {
    if live == [] then 0 else InState(live[..|live| - 1], state) + One(live[|live| - 1].state == state)
  }

  /** Each live count is the number of live jobs in its state, and together they are at most all of them. */
  lemma {:induction false} LiveCountsFit(live: seq<LiveJob>)
    ensures var c := CountsOf(live);
            && c.waiting == InState(live, "waiting") && c.active == InState(live, "active")
            && c.delayed == InState(live, "delayed") && c.prioritized == InState(live, "prioritized")
            && c.failedLive == InState(live, "failed")
            && c.waiting + c.active + c.delayed + c.prioritized + c.failedLive <= |live|
  {
    if live != [] {
      LiveCountsFit(live[..|live| - 1]);
      StatesDiffer(live[|live| - 1].state);
    }
  }

  lemma StatesDiffer(state: string)
    ensures One(state == "waiting") + One(state == "active") + One(state == "delayed") + One(state == "prioritized")
          + One(state == "failed") <= 1
  {
    assert "waiting"[0] != "active"[0] && "waiting"[0] != "delayed"[0] && "waiting"[0] != "prioritized"[0];
    assert "waiting"[0] != "failed"[0] && "active"[0] != "delayed"[0] && "active"[0] != "prioritized"[0];
    assert "active"[0] != "failed"[0] && "delayed"[0] != "prioritized"[0] && "delayed"[0] != "failed"[0];
    assert "prioritized"[0] != "failed"[0];
  }

  lemma {:induction false} WithLiveAt(worker: string, live: seq<LiveJob>, observed: map<string, Job>, key: string)
    ensures key in WithLive(worker, live, observed) <==> key in observed || key in LiveKeys(worker, live)
    ensures key in WithLive(worker, live, observed) && !WithLive(worker, live, observed)[key].state.LiveState? ==>
      key in observed && WithLive(worker, live, observed)[key] == observed[key]
  {
    if live != [] {
      var n := |live| - 1;
      WithLiveAt(worker, live[..n], observed, key);
      assert LiveKeys(worker, live) == LiveKeys(worker, live[..n]) + [LiveKey(worker, live[n])];
    }
  }

  lemma ListsAgree(worker: string, live: seq<LiveJob>, observed: map<string, Job>, keys: seq<string>, key: string)
    requires key in observed <==> key in keys
    ensures key in WithKeys(keys, LiveKeys(worker, live)) <==> key in WithLive(worker, live, observed)
  {
    KeysListed(keys, LiveKeys(worker, live), key);
    WithLiveAt(worker, live, observed, key);
  }

  lemma LiveStep(worker: string, live: seq<LiveJob>, i: nat, observed: map<string, Job>, keys: seq<string>)
    requires i < |live|
    requires LiveKey(worker, live[i]) in observed <==> LiveKey(worker, live[i]) in keys
    ensures var before, key := WithLive(worker, live[..i], observed), LiveKey(worker, live[i]);
            var had := WithKeys(keys, LiveKeys(worker, live[..i]));
            && WithLive(worker, live[..i + 1], observed)
            == before[key := LiveSnapshot(worker, live[i], if key in before then Some(before[key]) else None)]
            && WithKeys(keys, LiveKeys(worker, live[..i + 1])) == (if key in before then had else had + [key])
            && CountsOf(live[..i + 1]) == Incremented(CountsOf(live[..i]), live[i].state)
  {
    assert live[..i + 1][..i] == live[..i];
    assert LiveKeys(worker, live[..i + 1])[..i] == LiveKeys(worker, live[..i]);
    ListsAgree(worker, live[..i], observed, keys, LiveKey(worker, live[i]));
  }

  method MergeLiveQueueJobs(worker: string, live: seq<LiveJob>, keys: seq<string>, observed: map<string, Job>)
    returns (allKeys: seq<string>, all: map<string, Job>, counts: LiveCounts)
    requires forall key :: key in observed <==> key in keys
    ensures all == WithLive(worker, live, observed) && allKeys == WithKeys(keys, LiveKeys(worker, live))
    ensures counts == CountsOf(live)
  {
    allKeys, all, counts := keys, observed, NONE_LIVE;
    for i := 0 to |live|
      invariant all == WithLive(worker, live[..i], observed) && allKeys == WithKeys(keys, LiveKeys(worker, live[..i]))
      invariant counts == CountsOf(live[..i])
    {
      LiveStep(worker, live, i, observed, keys);
      counts := IncrementRuntimeWorkerCount(counts, live[i].state);
      var key := LiveKey(worker, live[i]);
      if key in all {
        all := all[key := LiveSnapshot(worker, live[i], Some(all[key]))];
      } else {
        allKeys := allKeys + [key];
        all := all[key := LiveSnapshot(worker, live[i], None)];
      }
    }
    assert live[..|live|] == live;
  }

  // ---------------------------------------------------------------- the snapshot of one worker

  lemma ListedJobsAreShown(keys: seq<string>, all: map<string, Job>)
    requires forall key | key in keys :: key in all
    ensures forall job | job in BuildRuntimeWorkerJobs(JobsList(keys, all)) ::
        exists key :: key in all && all[key] == job
  {
    var list := JobsList(keys, all);
    ShowsTheNewest(list);
    forall job | job in BuildRuntimeWorkerJobs(list) ensures exists key :: key in all && all[key] == job {
      assert job in multiset(list);
      var i :| 0 <= i < |list| && list[i] == job;
      assert all[keys[i]] == job;
    }
  }

  /** What the snapshot lists: logs of both sources, with the live jobs over them. */
  function Snapshot(worker: string, bronze: seq<Log>, silver: seq<Log>, live: seq<LiveJob>): map<string, Job> {
    WithLive(worker, live, Observed(worker, bronze, silver))
  }

  /** Jobs without a live counterpart are in order, given newest-first logs. */
  lemma LoggedJobsAreInOrder(worker: string, bronze: seq<Log>, silver: seq<Log>, live: seq<LiveJob>)
    requires NewestFirst(bronze) && NewestFirst(silver)
    ensures forall key | key in Snapshot(worker, bronze, silver, live) ::
      || Snapshot(worker, bronze, silver, live)[key].state.LiveState?
      || InOrder(Snapshot(worker, bronze, silver, live)[key])
  {
    ObservedShows(worker, bronze, silver);
    ShownJobsAreInOrder(worker, bronze, silver, Observed(worker, bronze, silver));
    forall key | key in Snapshot(worker, bronze, silver, live)
      ensures || Snapshot(worker, bronze, silver, live)[key].state.LiveState?
              || InOrder(Snapshot(worker, bronze, silver, live)[key])
    {
      WithLiveAt(worker, live, Observed(worker, bronze, silver), key);
    }
  }

  lemma KeysListTheSnapshot(worker: string, bronze: seq<Log>, silver: seq<Log>, live: seq<LiveJob>)
    ensures forall key :: key in Observed(worker, bronze, silver) <==> key in ObservedKeys(worker, bronze, silver)
    ensures forall key :: key in WithKeys(ObservedKeys(worker, bronze, silver), LiveKeys(worker, live))
                     <==> key in Snapshot(worker, bronze, silver, live)
  {
    var observed, keys := Observed(worker, bronze, silver), ObservedKeys(worker, bronze, silver);
    forall key ensures key in observed <==> key in keys {
      ObservedAt(worker, bronze, silver, key);
    }
    forall key
      ensures key in WithKeys(keys, LiveKeys(worker, live)) <==> key in Snapshot(worker, bronze, silver, live)
    {
      ListsAgree(worker, live, observed, keys, key);
    }
  }

  predicate Listed(jobs: seq<Job>, candidate: Job) {
    candidate in jobs || (|jobs| == 120 && forall job | job in jobs :: job.lastEventAt >= candidate.lastEventAt)
  }

  /** A job that is not listed gave way to 120 others, none of them older. */
  lemma UnlistedGaveWay(keys: seq<string>, all: map<string, Job>, key: string)
    requires (forall k | k in keys :: k in all) && key in keys
    ensures var jobs := BuildRuntimeWorkerJobs(JobsList(keys, all));
            Listed(jobs, all[key])
  {
    var list := JobsList(keys, all);
    ShowsTheNewest(list);
    var i :| 0 <= i < |keys| && keys[i] == key;
    assert list[i] in multiset(list);
  }

  /** The list of a snapshot: newest first, the newest 120 of its jobs and no others, in order unless live. */
  lemma SnapshotList(worker: string, bronze: seq<Log>, silver: seq<Log>, live: seq<LiveJob>,
                     keys: seq<string>, jobs: seq<Job>)
    requires forall key :: key in keys <==> key in Snapshot(worker, bronze, silver, live)
    requires jobs == BuildRuntimeWorkerJobs(JobsList(keys, Snapshot(worker, bronze, silver, live)))
    ensures |jobs| <= 120 && JobsNewestFirst(jobs)
    ensures forall job | job in jobs ::
      exists key :: key in Snapshot(worker, bronze, silver, live) && Snapshot(worker, bronze, silver, live)[key] == job
    ensures forall key | key in Snapshot(worker, bronze, silver, live) ::
      Listed(jobs, Snapshot(worker, bronze, silver, live)[key])
    ensures NewestFirst(bronze) && NewestFirst(silver)
        ==> forall job | job in jobs :: job.state.LiveState? || InOrder(job)
  {
    var all := Snapshot(worker, bronze, silver, live);
    ShowsTheNewest(JobsList(keys, all));
    ListedJobsAreShown(keys, all);
    forall key | key in all ensures Listed(jobs, all[key]) {
      UnlistedGaveWay(keys, all, key);
    }
    if NewestFirst(bronze) && NewestFirst(silver) {
      LoggedJobsAreInOrder(worker, bronze, silver, live);
    }
  }

  method BuildRuntimeWorkerSnapshot(worker: string, bronze: seq<Log>, silver: seq<Log>, live: seq<LiveJob>)
    returns (jobs: seq<Job>, counts: LiveCounts)
    ensures |jobs| <= 120 && JobsNewestFirst(jobs) && counts == CountsOf(live)
    ensures forall job | job in jobs ::
      exists key :: key in Snapshot(worker, bronze, silver, live) && Snapshot(worker, bronze, silver, live)[key] == job
    ensures forall key | key in Snapshot(worker, bronze, silver, live) ::
      Listed(jobs, Snapshot(worker, bronze, silver, live)[key])
    ensures NewestFirst(bronze) && NewestFirst(silver)
        ==> forall job | job in jobs :: job.state.LiveState? || InOrder(job)
  {
    var keys, observed := BuildPersistedObservedJobs(worker, bronze, silver);
    KeysListTheSnapshot(worker, bronze, silver, live);
    var allKeys, all, liveCounts := MergeLiveQueueJobs(worker, live, keys, observed);
    jobs, counts := BuildRuntimeWorkerJobs(JobsList(allKeys, all)), liveCounts;
    SnapshotList(worker, bronze, silver, live, allKeys, jobs);
  }
}
