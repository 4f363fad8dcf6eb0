/** What the client's calls come to in every run, with lost messages, refused refreshes and expired tokens
    included: which call ends answered, which ends refused, and when the session is cleared. */
module ApiCalls {
  import opened Options
  import opened RefreshTokens
  import opened ApiClient

  // ---------------------------------------------------------------- what each event does

  /** All calls but `id` are as before. */
  ghost predicate SparesOthers(c: Client, after: Client, id: nat) {
    after.calls.Keys == c.calls.Keys + {id} && forall other | other in c.calls && other != id ::
        after.calls[other] == c.calls[other]
  }

  /** A new call sends one data request, and nothing else happens. */
  lemma StartSendsOnce(s: System, config: Config, id: nat, after: Client)
    requires Enabled(s, ApiClient.Start(id)) && after == ApiClient.Step(s, config, ApiClient.Start(id)).client
    ensures SparesOthers(s.client, after, id) && after.calls[id] == Call(AwaitingData, 1)
    ensures after.stored == s.client.stored && after.cookie == s.client.cookie && after.wire == s.client.wire
  {
  }

  /** An answered request ends its call, whether it was the first or the retry; the session stays. */
  lemma AnswerEndsCall(s: System, config: Config, id: nat, after: Client)
    requires Enabled(s, DataAnswered(id, false))
    requires after == ApiClient.Step(s, config, DataAnswered(id, false)).client
    ensures SparesOthers(s.client, after, id)
    ensures after.calls[id] == Call(Finished(false), s.client.calls[id].requests)
    ensures after.stored == s.client.stored && after.cookie == s.client.cookie && after.wire == s.client.wire
  {
  }

  /** A first request refused waits for the refresh under way, or for one that it sends with the cookie of
      that moment; no data request is sent, and the session stays. */
  lemma FirstRefusalWaits(s: System, config: Config, id: nat, after: Client)
    requires Enabled(s, DataAnswered(id, true)) && s.client.calls[id].phase == AwaitingData
    requires after == ApiClient.Step(s, config, DataAnswered(id, true)).client
    ensures SparesOthers(s.client, after, id) && after.refreshPromise.Some?
    ensures after.calls[id] == Call(AwaitingRefresh(after.refreshPromise.value), s.client.calls[id].requests)
    ensures s.client.refreshPromise.Some? ==>
      after.refreshPromise == s.client.refreshPromise && after.wire == s.client.wire
    ensures s.client.refreshPromise.None? ==>
      after.wire == s.client.wire[after.refreshPromise.value := Asking(s.client.cookie)]
    ensures after.stored == s.client.stored && after.cookie == s.client.cookie
  {
  }

  /** A refused retry ends its call as refused and clears the session. */
  lemma SecondRefusalEndsCall(s: System, config: Config, id: nat, after: Client)
    requires Enabled(s, DataAnswered(id, true)) && s.client.calls[id].phase == AwaitingRetry
    requires after == ApiClient.Step(s, config, DataAnswered(id, true)).client
    ensures SparesOthers(s.client, after, id) && !after.stored
    ensures after.calls[id] == Call(Finished(true), s.client.calls[id].requests)
    ensures after.cookie == s.client.cookie && after.wire == s.client.wire
  {
  }

  /** `after` has refresh `n` settled with that outcome: the session is stored if and only if it was granted,
      nobody waits for `n` any more, and all and only its waiters are woken, each with that outcome. */
  ghost predicate SettledWith(c: Client, after: Client, n: nat, granted: bool) {
    && (after.stored <==> granted)
    && after.refreshPromise == None && after.wire.Keys == c.wire.Keys - {n}
    && after.calls.Keys == c.calls.Keys
    && forall id | id in c.calls ::
         after.calls[id] == if c.calls[id].phase == AwaitingRefresh(n)
                            then Call(Resumable(granted), c.calls[id].requests) else c.calls[id]
  }

  /** A refresh ends as the server answered it, and only a granted one brings a new cookie. */
  lemma RefreshEndsAsAnswered(s: System, config: Config, n: nat, answer: Answer, after: Client)
    requires n in s.client.wire && s.client.wire[n] == Answering(answer)
    requires after == ApiClient.Step(s, config, RefreshAnswered(n)).client
    ensures SettledWith(s.client, after, n, answer.Granted?)
    ensures after.cookie == if answer.Granted? then Some(answer.token) else s.client.cookie
  {
  }

  /** A refresh whose message is lost ends as one that was not granted. */
  lemma LostRefreshEndsRefused(s: System, config: Config, n: nat, after: Client)
    requires n in s.client.wire && after == ApiClient.Step(s, config, MessageLost(n)).client
    ensures SettledWith(s.client, after, n, false) && after.cookie == s.client.cookie
  {
  }

  /** The server answers a refresh by the cookie that was sent: without one it refuses and changes nothing. */
  lemma RefreshIsServed(s: System, config: Config, n: nat, token: Option<Token>, delay: nat, active: bool,
                        after: System)
    requires n in s.client.wire && s.client.wire[n] == Asking(token)
    requires after == ApiClient.Step(s, config, ServerHandles(n, delay, active))
    ensures token == None ==>
      after.server == Later(s.server, delay) && after.client.wire == s.client.wire[n := Answering(MissingToken)]
    ensures token.Some? ==>
      var (server, answer) := Refresh(Later(s.server, delay), config, token.value, active);
      after.server == server && after.client.wire == s.client.wire[n := Answering(answer)]
    ensures after.client == s.client.(wire := after.client.wire)
  {
  }

  /** A call woken by a granted refresh sends its second data request. */
  lemma GrantedRefreshRetries(s: System, config: Config, id: nat, after: Client)
    requires id in s.client.calls && s.client.calls[id].phase == Resumable(true)
    requires after == ApiClient.Step(s, config, Resume(id)).client
    ensures SparesOthers(s.client, after, id)
    ensures after.calls[id] == Call(AwaitingRetry, s.client.calls[id].requests + 1)
    ensures after.stored == s.client.stored && after.cookie == s.client.cookie && after.wire == s.client.wire
  {
  }

  /** A call woken by a refresh that was not granted ends as refused, sends nothing and clears the session. */
  lemma FailedRefreshEndsRefused(s: System, config: Config, id: nat, after: Client)
    requires id in s.client.calls && s.client.calls[id].phase == Resumable(false)
    requires after == ApiClient.Step(s, config, Resume(id)).client
    ensures SparesOthers(s.client, after, id) && !after.stored
    ensures after.calls[id] == Call(Finished(true), s.client.calls[id].requests)
    ensures after.cookie == s.client.cookie && after.wire == s.client.wire
  {
  }

  // ---------------------------------------------------------------- any run

  predicate Possible(s: System, config: Config, events: seq<ApiClient.Event>)
    decreases |events|
  {
    events == [] || (Enabled(s, events[0]) && Possible(ApiClient.Step(s, config, events[0]), config, events[1..]))
  }

  function Play(s: System, config: Config, events: seq<ApiClient.Event>): System
    requires Possible(s, config, events)
    decreases |events|
  {
    if events == [] then s else Play(ApiClient.Step(s, config, events[0]), config, events[1..])
  }

  /** The data requests of a call that were refused in the run. */
  function Refusals(events: seq<ApiClient.Event>, id: nat): nat {
    if events == [] then 0 else Refusals(events[1..], id) + if events[0] == DataAnswered(id, true) then 1 else 0
  }

  /** Where a call stands says how many data requests it has sent, and which refresh it waits for. */
  predicate CallStands(call: Call, refreshPromise: Option<nat>) {
    match call.phase
    case AwaitingData => call.requests == 1
    case AwaitingRefresh(n) => call.requests == 1 && refreshPromise == Some(n)
    case Resumable(_) => call.requests == 1
    case AwaitingRetry => call.requests == 2
    case Finished(_) => 1 <= call.requests <= 2
  }

  ghost predicate Standing(c: Client) {
    SingleFlight(c) && forall id | id in c.calls :: CallStands(c.calls[id], c.refreshPromise)
  }

  lemma StepKeepsStanding(s: System, config: Config, e: ApiClient.Event)
    requires Standing(s.client) && Enabled(s, e)
    ensures Standing(ApiClient.Step(s, config, e).client)
  {
    match e
    case DataAnswered(id, refused) => assert CallStands(s.client.calls[id], s.client.refreshPromise);
    case ServerHandles(n, delay, active) =>
      assert ServeRefresh(s, config, n, delay, active).client.wire.Keys == s.client.wire.Keys;
    case Resume(id) => assert CallStands(s.client.calls[id], s.client.refreshPromise);
    case _ =>
  }

  /** How many of a call's data requests were refused, by where it stands. */
  function Refused(c: Client, id: nat): int {
    if id !in c.calls then 0 else
    match c.calls[id].phase
    case AwaitingData => 0
    case AwaitingRefresh(_) => 1
    case Resumable(_) => 1
    case AwaitingRetry => 1
    case Finished(refused) => c.calls[id].requests - if refused then 0 else 1
  }

  predicate EndedAnswered(c: Client, id: nat) {
    id in c.calls && c.calls[id].phase == Finished(false)
  }

  lemma DataAnsweredOfCall(s: System, config: Config, other: nat, refused: bool, id: nat, after: Client)
    requires Standing(s.client) && Enabled(s, DataAnswered(other, refused))
    requires after == TakeAnswer(s.client, other, refused)
    ensures id in after.calls <==> id in s.client.calls
    ensures EndedAnswered(after, id) <==> EndedAnswered(s.client, id) || (other == id && !refused)
    ensures Refused(after, id) == Refused(s.client, id) + if other == id && refused then 1 else 0
  {
    assert CallStands(s.client.calls[other], s.client.refreshPromise);
  }

  lemma ResumeOfCall(s: System, other: nat, id: nat, after: Client)
    requires Standing(s.client) && Enabled(s, Resume(other)) && after == TakeRefresh(s.client, other)
    ensures id in after.calls <==> id in s.client.calls
    ensures EndedAnswered(after, id) <==> EndedAnswered(s.client, id)
    ensures Refused(after, id) == Refused(s.client, id)
  {
    assert CallStands(s.client.calls[other], s.client.refreshPromise);
  }

  /** What a step means for one call: only its own start brings it in, only its own answers end it as answered
      or refuse it. */
  lemma StepOfCall(s: System, config: Config, e: ApiClient.Event, id: nat, after: Client)
    requires Standing(s.client) && Enabled(s, e) && after == ApiClient.Step(s, config, e).client
    ensures id in after.calls <==> id in s.client.calls || e == ApiClient.Start(id)
    ensures EndedAnswered(after, id) <==> EndedAnswered(s.client, id) || e == DataAnswered(id, false)
    ensures Refused(after, id) == Refused(s.client, id) + if e == DataAnswered(id, true) then 1 else 0
  {
    match e
    case DataAnswered(other, refused) => DataAnsweredOfCall(s, config, other, refused, id, after);
    case Resume(other) => ResumeOfCall(s, other, id, after);
    case ServerHandles(n, delay, active) => assert after.calls == s.client.calls;
    case _ =>
  }

  lemma {:induction false} RunOfCall(s: System, config: Config, events: seq<ApiClient.Event>, id: nat)
    requires Standing(s.client) && Possible(s, config, events)
    ensures var after := Play(s, config, events).client;
            && Standing(after)
            && (id in after.calls <==> id in s.client.calls || ApiClient.Start(id) in events)
            && (EndedAnswered(after, id) <==> EndedAnswered(s.client, id) || DataAnswered(id, false) in events)
            && Refused(after, id) == Refused(s.client, id) + Refusals(events, id)
    decreases |events|
  {
    if events != [] {
      StepOfCall(s, config, events[0], id, ApiClient.Step(s, config, events[0]).client);
      StepKeepsStanding(s, config, events[0]);
      RunOfCall(ApiClient.Step(s, config, events[0]), config, events[1..], id);
      assert events == [events[0]] + events[1..];
    }
  }

  /** In every run, from any server and cookie, a call sends at most two data requests; it ends as answered if
      and only if one of them was answered, and if it ends as refused, every one of them was refused. */
  lemma CallsEndAsTheirRequests(server: Server, cookie: Option<Token>, stored: bool, config: Config,
                                events: seq<ApiClient.Event>, id: nat, after: Client)
    requires Possible(System(server, Client(cookie, stored, None, map[], 0, map[])), config, events)
    requires after == Play(System(server, Client(cookie, stored, None, map[], 0, map[])), config, events).client
    ensures id in after.calls <==> ApiClient.Start(id) in events
    ensures id in after.calls ==> 1 <= after.calls[id].requests <= 2
    ensures (id in after.calls && after.calls[id].phase == Finished(false)) <==> DataAnswered(id, false) in events
    ensures id in after.calls && after.calls[id].phase == Finished(true) ==>
      Refusals(events, id) == after.calls[id].requests
  {
    RunOfCall(System(server, Client(cookie, stored, None, map[], 0, map[])), config, events, id);
    if id in after.calls {
      assert CallStands(after.calls[id], after.refreshPromise);
    }
  }

  /** An event that lets a call go on: its answer, its turn, or the next message of the refresh it waits for. */
  predicate MovesOn(c: Client, id: nat, e: ApiClient.Event) {
    match e
    case DataAnswered(other, _) => other == id
    case Resume(other) => other == id
    case ServerHandles(n, _, _) => id in c.calls && c.calls[id].phase == AwaitingRefresh(n)
    case RefreshAnswered(n) => id in c.calls && c.calls[id].phase == AwaitingRefresh(n)
    case _ => false
  }

  /** In every run no call is stranded: at most one refresh is on the wire, a waiting call waits for that one,
      and every call that has not ended can go on without any message being lost. */
  lemma NoCallIsStranded(server: Server, cookie: Option<Token>, stored: bool, config: Config,
                         events: seq<ApiClient.Event>, id: nat, after: System)
    requires Possible(System(server, Client(cookie, stored, None, map[], 0, map[])), config, events)
    requires after == Play(System(server, Client(cookie, stored, None, map[], 0, map[])), config, events)
    requires id in after.client.calls && !after.client.calls[id].phase.Finished?
    ensures |after.client.wire| <= 1
    ensures after.client.calls[id].phase.AwaitingRefresh? ==>
      after.client.wire.Keys == {after.client.calls[id].phase.refresh}
    ensures exists e :: Enabled(after, e) && MovesOn(after.client, id, e)
  {
    RunOfCall(System(server, Client(cookie, stored, None, map[], 0, map[])), config, events, id);
    var c := after.client;
    assert |c.wire| == |c.wire.Keys|;
    assert CallStands(c.calls[id], c.refreshPromise);
    var phase := c.calls[id].phase;
    var e := if phase.Resumable? then Resume(id)
             else if !phase.AwaitingRefresh? then DataAnswered(id, true)
             else if c.wire[phase.refresh].Asking? then ServerHandles(phase.refresh, 0, true)
             else RefreshAnswered(phase.refresh);
    assert Enabled(after, e) && MovesOn(c, id, e);
  }
}
