/** The browser's API client: concurrent calls that share one refresh, against the rotating server.
    Every event is the code between two awaits, so that any interleaving is a sequence of events. */
module ApiClient {
  import opened Options
  import opened RefreshTokens

  datatype Phase =
    | AwaitingData
    | AwaitingRefresh(refresh: nat)
    | Resumable(granted: bool)
    | AwaitingRetry
    | Finished(refused: bool)

  /** One `apiFetch`: where it stands, and the data requests it has sent. */
  datatype Call = Call(phase: Phase, requests: nat)

  /** A refresh request carries the cookie of the moment it is sent. */
  datatype Message = Asking(token: Option<Token>) | Answering(answer: Answer)

  datatype Client = Client(
    cookie: Option<Token>, stored: bool, refreshPromise: Option<nat>,
    wire: map<nat, Message>, nextRefresh: nat, calls: map<nat, Call>)

  datatype System = System(server: Server, client: Client)

  // ---------------------------------------------------------------- between two awaits

  /** `refreshAccessToken` up to its await: join the refresh under way, or send one. */
  function JoinRefresh(c: Client): (Client, nat) {
    if c.refreshPromise.Some? then (c, c.refreshPromise.value)
    else (c.(refreshPromise := Some(c.nextRefresh), wire := c.wire[c.nextRefresh := Asking(c.cookie)],
             nextRefresh := c.nextRefresh + 1), c.nextRefresh)
  }

  function Woken(calls: map<nat, Call>, n: nat, granted: bool): map<nat, Call> {
    map id | id in calls ::
      if calls[id].phase == AwaitingRefresh(n) then calls[id].(phase := Resumable(granted)) else calls[id]
  }

  /** The rest of `refreshAccessToken`: keep or clear the session, forget the promise, wake its callers. */
  function SettleRefresh(c: Client, n: nat, granted: bool): Client {
    c.(stored := granted, refreshPromise := None, wire := c.wire - {n}, calls := Woken(c.calls, n, granted))
  }

  function TakeCookie(c: Client, answer: Answer): Client {
    if answer.Granted? then c.(cookie := Some(answer.token)) else c
  }

  function Place(c: Client, id: nat, call: Call): Client {
    c.(calls := c.calls[id := call])
  }

  /** The answer to a data request: only a first request refused with 401 waits for a refresh. */
  function TakeAnswer(c: Client, id: nat, refused: bool): Client
    requires id in c.calls
  {
    var call := c.calls[id];
    if !refused then Place(c, id, call.(phase := Finished(false)))
    else if call.phase.AwaitingData? then
      var (joined, n) := JoinRefresh(c);
      Place(joined, id, call.(phase := AwaitingRefresh(n)))
    else Place(c.(stored := false), id, call.(phase := Finished(true)))
  }

  /** After the refresh: retry with the new token, or clear the session and give up. */
  function TakeRefresh(c: Client, id: nat): Client
    requires id in c.calls && c.calls[id].phase.Resumable?
  {
    var call := c.calls[id];
    if call.phase.granted then Place(c, id, Call(AwaitingRetry, call.requests + 1))
    else Place(c.(stored := false), id, call.(phase := Finished(true)))
  }

  // ---------------------------------------------------------------- runs

  datatype Event =
    | Start(id: nat)
    | DataAnswered(id: nat, refused: bool)
    | ServerHandles(n: nat, delay: nat, active: bool)
    | RefreshAnswered(n: nat)
    | MessageLost(n: nat)
    | Resume(id: nat)
    | OthersAct(request: RefreshTokens.Event)

  predicate Enabled(s: System, e: Event) {
    var c := s.client;
    match e
    case Start(id) => id !in c.calls
    case DataAnswered(id, _) => id in c.calls && (c.calls[id].phase.AwaitingData? || c.calls[id].phase.AwaitingRetry?)
    case ServerHandles(n, _, _) => n in c.wire && c.wire[n].Asking?
    case RefreshAnswered(n) => n in c.wire && c.wire[n].Answering?
    case MessageLost(n) => n in c.wire
    case Resume(id) => id in c.calls && c.calls[id].phase.Resumable?
    case OthersAct(_) => true
  }

  /** The server's side of a refresh request; a request without a cookie changes nothing. */
  function Serve(server: Server, config: Config, token: Option<Token>, active: bool): (Server, Answer) {
    if token.None? then (server, MissingToken) else Refresh(server, config, token.value, active)
  }

  function ServeRefresh(s: System, config: Config, n: nat, delay: nat, active: bool): System
    requires n in s.client.wire && s.client.wire[n].Asking?
  {
    var (server, answer) := Serve(Later(s.server, delay), config, s.client.wire[n].token, active);
    System(server, s.client.(wire := s.client.wire[n := Answering(answer)]))
  }

  function Step(s: System, config: Config, e: Event): System
    requires Enabled(s, e)
  {
    var c := s.client;
    match e
    case Start(id) => s.(client := Place(c, id, Call(AwaitingData, 1)))
    case DataAnswered(id, refused) => s.(client := TakeAnswer(c, id, refused))
    case ServerHandles(n, delay, active) => ServeRefresh(s, config, n, delay, active)
    case RefreshAnswered(n) =>
      s.(client := SettleRefresh(TakeCookie(c, c.wire[n].answer), n, c.wire[n].answer.Granted?))
    case MessageLost(n) => s.(client := SettleRefresh(c, n, false))
    case Resume(id) => s.(client := TakeRefresh(c, id))
    case OthersAct(request) => s.(server := RefreshTokens.Step(s.server, config, request))
  }

  // ---------------------------------------------------------------- calm runs

  predicate SparesFamily(op: Op, family: nat) {
    match op
    case DoLogin(_) => true
    case DoRefresh(token, _) => token.family != family
    case DoLogout(token) => token.family != family
  }

  /** Neither the signed token nor its stored record has expired by then. */
  predicate WithinLifetime(server: Server, delay: nat, token: Option<Token>) {
    token.Some? ==>
      && server.now + delay < token.value.expires
      && (token.value.jti in server.tokens ==> server.now + delay < server.tokens[token.value.jti].expiresAt)
  }

  /** No message is lost, the user stays active, tokens are presented within their lifetime, and
      nobody else holds a token of the family. */
  predicate Calm(s: System, family: nat, e: Event) {
    Enabled(s, e) &&
    match e
    case ServerHandles(n, delay, active) => active && WithinLifetime(s.server, delay, s.client.wire[n].token)
    case MessageLost(_) => false
    case OthersAct(request) => SparesFamily(request.op, family)
    case _ => true
  }

  predicate CalmRun(s: System, config: Config, family: nat, events: seq<Event>)
    decreases |events|
  {
    events == [] || (Calm(s, family, events[0]) && CalmRun(Step(s, config, events[0]), config, family, events[1..]))
  }

  function Run(s: System, config: Config, family: nat, events: seq<Event>): System
    requires CalmRun(s, config, family, events)
    decreases |events|
  {
    if events == [] then s else Run(Step(s, config, events[0]), config, family, events[1..])
  }

  // ---------------------------------------------------------------- the invariant

  /** The store holds the token's own record. */
  predicate Recorded(server: Server, token: Token) {
    token in server.issued && token.jti in server.tokens && server.tokens[token.jti].tokenHash == token
  }

  /** `token` is the live token of an unrevoked family. */
  predicate Current(server: Server, family: nat, token: Option<Token>) {
    token.Some? && token.value.family == family && Recorded(server, token.value) && family !in server.revoked
  }

  /** `token` is a token of the family that the server has already exchanged. */
  predicate Spent(server: Server, family: nat, token: Option<Token>) {
    token.Some? && token.value.family == family && token.value in server.accepted
  }

  /** A refresh is on the wire exactly while its promise is kept. */
  predicate SingleFlight(c: Client) {
    c.wire.Keys == if c.refreshPromise.Some? then {c.refreshPromise.value} else {}
  }

  /** The live token is in the cookie jar, or in the one answer under way. */
  predicate HoldsLive(s: System, family: nat) {
    var c := s.client;
    if c.refreshPromise.None? || c.refreshPromise.value !in c.wire then Current(s.server, family, c.cookie)
    else match c.wire[c.refreshPromise.value]
      case Asking(token) => token == c.cookie && Current(s.server, family, token)
      case Answering(answer) =>
        answer.Granted? && Current(s.server, family, Some(answer.token)) && Spent(s.server, family, c.cookie)
  }

  predicate CallFits(call: Call, refreshPromise: Option<nat>) {
    match call.phase
    case AwaitingData => call.requests == 1
    case AwaitingRefresh(n) => call.requests == 1 && refreshPromise == Some(n)
    case Resumable(granted) => call.requests == 1 && granted
    case AwaitingRetry => call.requests == 2
    case Finished(refused) => call.requests <= 2 && (refused ==> call.requests == 2)
  }

  ghost predicate CallsFit(c: Client) {
    forall id | id in c.calls :: CallFits(c.calls[id], c.refreshPromise)
  }

  /** The stored session is only ever cleared by a call whose retry was refused as well. */
  ghost predicate SessionKept(c: Client) {
    c.stored || exists id :: id in c.calls && c.calls[id].phase == Finished(true)
  }

  ghost predicate Good(s: System, family: nat) {
    && Sound(s.server)
    && SingleFlight(s.client)
    && HoldsLive(s, family)
    && CallsFit(s.client)
    && SessionKept(s.client)
  }

  // ---------------------------------------------------------------- one lemma for each event

  lemma PlaceKeepsGood(s: System, family: nat, id: nat, call: Call)
    requires Good(s, family) && CallFits(call, s.client.refreshPromise)
    requires id in s.client.calls ==> !s.client.calls[id].phase.Finished?
    ensures Good(s.(client := Place(s.client, id, call)), family)
  {
    var after := Place(s.client, id, call);
    if !s.client.stored {
      var other :| other in s.client.calls && s.client.calls[other].phase == Finished(true);
      assert after.calls[other].phase == Finished(true);
    }
  }

  lemma JoinKeepsGood(s: System, family: nat)
    requires Good(s, family)
    ensures var (joined, n) := JoinRefresh(s.client);
            Good(s.(client := joined), family) && joined.refreshPromise == Some(n) && joined.calls == s.client.calls
  {
  }

  lemma DataAnsweredKeepsGood(s: System, config: Config, family: nat, id: nat, refused: bool)
    requires Good(s, family) && Enabled(s, DataAnswered(id, refused))
    ensures Good(Step(s, config, DataAnswered(id, refused)), family)
  {
    var call := s.client.calls[id];
    assert CallFits(call, s.client.refreshPromise);
    if !refused {
      PlaceKeepsGood(s, family, id, call.(phase := Finished(false)));
    } else if call.phase.AwaitingData? {
      JoinKeepsGood(s, family);
      var (joined, n) := JoinRefresh(s.client);
      PlaceKeepsGood(s.(client := joined), family, id, call.(phase := AwaitingRefresh(n)));
    } else {
      var after := TakeAnswer(s.client, id, true);
      PlaceKeepsGood(s, family, id, call.(phase := Finished(true)));
      assert after.calls[id].phase == Finished(true);
    }
  }

  lemma ResumeKeepsGood(s: System, config: Config, family: nat, id: nat)
    requires Good(s, family) && Enabled(s, Resume(id))
    ensures Good(Step(s, config, Resume(id)), family)
  {
    var call := s.client.calls[id];
    assert CallFits(call, s.client.refreshPromise);
    PlaceKeepsGood(s, family, id, Call(AwaitingRetry, call.requests + 1));
  }

  /** The server's turn: the live token is rotated, and the answer carries its successor. */
  lemma ServingRotates(server: Server, config: Config, family: nat, token: Token, active: bool)
    requires Sound(server) && Current(server, family, Some(token))
    requires server.now < token.expires && server.now < server.tokens[token.jti].expiresAt
    ensures var (after, answer) := Refresh(server, config, token, active);
            && Sound(after) && (answer.Granted? <==> active)
            && (answer.Granted? ==> Current(after, family, Some(answer.token)) && Spent(after, family, Some(token)))
  {
    RefreshKeepsSound(server, config, token, active);
  }

  lemma ServerHandlesKeepsGood(s: System, config: Config, family: nat, n: nat, delay: nat)
    requires Good(s, family) && Calm(s, family, ServerHandles(n, delay, true))
    ensures Good(ServeRefresh(s, config, n, delay, true), family)
  {
    var after := ServeRefresh(s, config, n, delay, true);
    ServingRotates(Later(s.server, delay), config, family, s.client.cookie.value, true);
    assert after.client.wire.Keys == s.client.wire.Keys;
  }

  lemma RefreshAnsweredKeepsGood(s: System, config: Config, family: nat, n: nat)
    requires Good(s, family) && Enabled(s, RefreshAnswered(n))
    ensures Good(Step(s, config, RefreshAnswered(n)), family)
  {
    var after := Step(s, config, RefreshAnswered(n)).client;
    assert after.wire.Keys == {};
    forall id | id in after.calls ensures CallFits(after.calls[id], after.refreshPromise) {
      assert CallFits(s.client.calls[id], s.client.refreshPromise);
    }
  }

  /** What others do leaves the family's live token and its freedom from revocation alone. */
  lemma OthersSpareCurrent(server: Server, config: Config, family: nat, op: Op, token: Token)
    requires Sound(server) && Current(server, family, Some(token)) && SparesFamily(op, family)
    ensures Current(Handle(server, config, op), family, Some(token))
  {
  }

  lemma OthersKeepGood(s: System, config: Config, family: nat, request: RefreshTokens.Event)
    requires Good(s, family) && SparesFamily(request.op, family)
    ensures Good(Step(s, config, OthersAct(request)), family)
  {
    StepKeepsSound(s.server, config, request);
    var c := s.client;
    if c.refreshPromise.Some? && c.wire[c.refreshPromise.value].Answering? {
      OthersSpareCurrent(Later(s.server, request.delay), config,
                         family, request.op, c.wire[c.refreshPromise.value].answer.token);
    } else {
      OthersSpareCurrent(Later(s.server, request.delay), config, family, request.op, c.cookie.value);
    }
  }

  lemma StepKeepsGood(s: System, config: Config, family: nat, e: Event)
    requires Good(s, family) && Calm(s, family, e)
    ensures Good(Step(s, config, e), family)
  {
    match e
    case Start(id) => PlaceKeepsGood(s, family, id, Call(AwaitingData, 1));
    case DataAnswered(id, refused) => DataAnsweredKeepsGood(s, config, family, id, refused);
    case ServerHandles(n, delay, active) => ServerHandlesKeepsGood(s, config, family, n, delay);
    case RefreshAnswered(n) => RefreshAnsweredKeepsGood(s, config, family, n);
    case Resume(id) => ResumeKeepsGood(s, config, family, id);
    case OthersAct(request) => OthersKeepGood(s, config, family, request);
  }

  // ---------------------------------------------------------------- the client, in place

  class Browser {
    var cookie: Option<Token>
    var stored: bool
    var refreshPromise: Option<nat>
    var wire: map<nat, Message>
    var nextRefresh: nat
    var calls: map<nat, Call>

    ghost function State(): Client
      reads this
    {
      Client(cookie, stored, refreshPromise, wire, nextRefresh, calls)
    }

    constructor (cookie: Option<Token>, stored: bool)
      ensures State() == Client(cookie, stored, None, map[], 0, map[])
    {
      this.cookie, this.stored := cookie, stored;
      refreshPromise, wire, nextRefresh, calls := None, map[], 0, map[];
    }

    method RefreshAccessToken() returns (n: nat)
      modifies this`refreshPromise, this`wire, this`nextRefresh
      ensures (State(), n) == JoinRefresh(old(State()))
    {
      if refreshPromise.Some? { return refreshPromise.value; }
      n := nextRefresh;
      refreshPromise := Some(n);
      wire := wire[n := Asking(cookie)];
      nextRefresh := nextRefresh + 1;
    }

    /** The continuation of refresh `n`, once its answer is in; `None` is a failed fetch. */
    method RefreshSettles(n: nat, answer: Option<Answer>)
      requires n in wire
      modifies this
      ensures answer.Some?
          ==> State() == SettleRefresh(TakeCookie(old(State()), answer.value), n, answer.value.Granted?)
      ensures answer.None? ==> State() == SettleRefresh(old(State()), n, false)
    {
      wire := wire - {n};
      var granted := answer.Some? && answer.value.Granted?;
      if granted {
        cookie := Some(answer.value.token);
      }
      stored := granted;
      refreshPromise := None;
      calls := Woken(calls, n, granted);
    }

    method ApiFetch(id: nat)
      requires id !in calls
      modifies this`calls
      ensures State() == Place(old(State()), id, Call(AwaitingData, 1))
    {
      calls := calls[id := Call(AwaitingData, 1)];
    }

    /** The continuation of a data request; a first refusal goes through `handle401` with a retry allowed. */
    method DataArrives(id: nat, refused: bool)
      requires id in calls
      modifies this
      ensures State() == TakeAnswer(old(State()), id, refused)
    {
      var call := calls[id];
      if !refused {
        calls := calls[id := call.(phase := Finished(false))];
        return;
      }
      if call.phase.AwaitingData? {
        var n := RefreshAccessToken();
        calls := calls[id := call.(phase := AwaitingRefresh(n))];
        return;
      }
      stored := false;
      calls := calls[id := call.(phase := Finished(true))];
    }

    /** The continuation of `handle401` after its refresh. */
    method RefreshDone(id: nat)
      requires id in calls && calls[id].phase.Resumable?
      modifies this`stored, this`calls
      ensures State() == TakeRefresh(old(State()), id)
    {
      var call := calls[id];
      if call.phase.granted {
        calls := calls[id := Call(AwaitingRetry, call.requests + 1)];
      } else {
        stored := false;
        calls := calls[id := call.(phase := Finished(true))];
      }
    }
  }

  // ---------------------------------------------------------------- main results

  /** A client that has just logged in. */
  function LoggedIn(server: Server, config: Config, user: string): System {
    System(Login(server, config, user),
           Client(Some(NewToken(server, config, user, server.nextId + 1)), true, None, map[], 0, map[]))
  }

  lemma LoginStartsGood(server: Server, config: Config, user: string)
    requires Sound(server)
    ensures Good(LoggedIn(server, config, user), server.nextId + 1)
  {
    LoginKeepsSound(server, config, user);
  }

  lemma {:induction false} CalmRunsStayGood(s: System, config: Config, family: nat, events: seq<Event>)
    requires Good(s, family) && CalmRun(s, config, family, events)
    ensures Good(Run(s, config, family, events), family)
    decreases |events|
  {
    if events != [] {
      StepKeepsGood(s, config, family, events[0]);
      CalmRunsStayGood(Step(s, config, events[0]), config, family, events[1..]);
    }
  }

  /** One refresh at most is in flight, what it presents is the family's live token, the family is not
      revoked, no call sends more than two data requests, and none gives up before its retry was refused. */
  predicate SharesOneRefresh(s: System, family: nat) {
    && |s.client.wire| <= 1
    && (forall n | n in s.client.wire && s.client.wire[n].Asking? ::
          Current(s.server, family, s.client.wire[n].token))
    && !FamilyRevoked(s.server, family)
    && (forall id | id in s.client.calls :: s.client.calls[id].requests <= 2)
    && (forall id | id in s.client.calls && s.client.calls[id].phase == Finished(true) ::
          s.client.calls[id].requests == 2)
  }

  lemma GoodSharesOneRefresh(s: System, family: nat)
    requires Good(s, family)
    ensures SharesOneRefresh(s, family)
  {
    assert |s.client.wire| == |s.client.wire.Keys|;
    forall id | id in s.client.calls
      ensures s.client.calls[id].requests <= 2
      ensures s.client.calls[id].phase == Finished(true) ==> s.client.calls[id].requests == 2
    {
      assert CallFits(s.client.calls[id], s.client.refreshPromise);
    }
  }

  /** Every calm interleaving of concurrent calls after a login shares one refresh. */
  lemma ConcurrentCallsShareOneRefresh(server: Server, config: Config, user: string, events: seq<Event>)
    requires Sound(server)
    requires CalmRun(LoggedIn(server, config, user), config, server.nextId + 1, events)
    ensures SharesOneRefresh(Run(LoggedIn(server, config, user), config, server.nextId + 1, events), server.nextId + 1)
  {
    LoginStartsGood(server, config, user);
    CalmRunsStayGood(LoggedIn(server, config, user), config, server.nextId + 1, events);
    GoodSharesOneRefresh(Run(LoggedIn(server, config, user), config, server.nextId + 1, events), server.nextId + 1);
  }

  /** The user's status at the server decides: an inactive user's token is spent, and the client is
      left holding it. */
  lemma ServingKeepsTheLiveTokenIff(s: System, config: Config, family: nat, n: nat, delay: nat, active: bool)
    requires Good(s, family) && Enabled(s, ServerHandles(n, delay, active))
    requires WithinLifetime(s.server, delay, s.client.cookie)
    ensures HoldsLive(ServeRefresh(s, config, n, delay, active), family) <==> active
  {
    ServingRotates(Later(s.server, delay), config, family, s.client.cookie.value, active);
  }

  /** A lost message is harmless if and only if it is still a request: once the server has answered,
      the client keeps a token that was already spent. */
  lemma LossIsHarmlessIff(s: System, config: Config, family: nat, n: nat)
    requires Good(s, family) && Enabled(s, MessageLost(n))
    ensures HoldsLive(Step(s, config, MessageLost(n)), family) <==> s.client.wire[n].Asking?
  {
  }

  /** After a lost answer, the next refresh of the client revokes the family. */
  lemma LostAnswerRevokes(s: System, config: Config, family: nat, n: nat, id: nat, delay: nat, active: bool)
    requires Good(s, family) && n in s.client.wire && s.client.wire[n].Answering?
    requires id in s.client.calls && s.client.calls[id].phase.AwaitingData?
    requires s.server.now + delay < s.client.cookie.value.expires
    ensures var lost := Step(s, config, MessageLost(n));
            && Enabled(lost, DataAnswered(id, true))
            && var asked := Step(lost, config, DataAnswered(id, true));
            && Enabled(asked, ServerHandles(asked.client.nextRefresh - 1, delay, active))
            && FamilyRevoked(Step(asked, config, ServerHandles(asked.client.nextRefresh - 1, delay, active)).server,
                             family)
  {
    var lost := Step(s, config, MessageLost(n));
    assert lost.client.refreshPromise.None?;
  }
}
