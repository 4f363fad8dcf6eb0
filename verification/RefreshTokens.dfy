/** Refresh token rotation on the server: one-use tokens in families, kept in an expiring store. */
module RefreshTokens {
  import opened Digits
  import opened Options
  import opened Texts

  /** A signed refresh token. Token and family ids are fresh numbers. */
  datatype Token = Token(jti: nat, family: nat, user: string, expires: nat)

  /** A stored token; the digest of a token stands for the token itself: no collisions. */
  datatype Record = Record(family: nat, user: string, tokenHash: Token, expiresAt: nat)

  /** `issued` is the set of validly signed tokens; `accepted` the tokens refreshes have consumed. */
  datatype Server = Server(
    now: nat, tokens: map<nat, Record>, revoked: map<nat, nat>,
    issued: set<Token>, nextId: nat, accepted: set<Token>)

  /** Lifetimes in seconds: of the stored record, and of the signed token. */
  datatype Config = Config(storeLife: nat, jwtLife: nat)

  const MONTH: nat := 60 * 60 * 24 * 30

  const EMPTY := Server(0, map[], map[], {}, 0, {})

  // ---------------------------------------------------------------- lifetimes

  function UnitSeconds(unit: char): nat {
    match unit
    case 's' => 1
    case 'S' => 1
    case 'm' => 60
    case 'M' => 60
    case 'h' => 60 * 60
    case 'H' => 60 * 60
    case 'd' => 60 * 60 * 24
    case 'D' => 60 * 60 * 24
    case _ => 0
  }

  /** `parseDurationToSeconds`: thirty days for anything but digits and one unit letter. */
  function DurationSeconds(text: string): nat {
    var value := Trim(text);
    if |value| >= 2 && AllDigits(value[..|value| - 1]) && UnitSeconds(value[|value| - 1]) > 0
    then Number(value[..|value| - 1]) * UnitSeconds(value[|value| - 1])
    else MONTH
  }

  /** A whole number and one unit letter is read in that unit, whatever its case; anything else is thirty
      days. */
  lemma DurationsRead(digits: string, unit: char)
    requires digits != "" && AllDigits(digits) && !IsSpace(unit)
    ensures DurationSeconds(digits + [unit]) == match unit
      case 's' => Number(digits)
      case 'S' => Number(digits)
      case 'm' => Number(digits) * 60
      case 'M' => Number(digits) * 60
      case 'h' => Number(digits) * 3600
      case 'H' => Number(digits) * 3600
      case 'd' => Number(digits) * 86400
      case 'D' => Number(digits) * 86400
      case _ => MONTH
    ensures MONTH == 30 * 86400
  {
    var value := digits + [unit];
    assert IsDigit(value[0]) && value[|value| - 1] == unit && value[..|value| - 1] == digits;
    assert Trim(value) == value;
  }

  /** White space around it makes no difference. */
  lemma DurationsAreTrimmed(before: string, digits: string, unit: char, after: string)
    requires digits != "" && AllDigits(digits) && !IsSpace(unit)
    requires forall i | 0 <= i < |before| :: IsSpace(before[i])
    requires forall i | 0 <= i < |after| :: IsSpace(after[i])
    ensures DurationSeconds(before + (digits + [unit]) + after) == DurationSeconds(digits + [unit])
  {
    var value := digits + [unit];
    assert IsDigit(value[0]) && value[|value| - 1] == unit;
    TrimRemovesTheEnds(before, value, after);
    TrimRemovesTheEnds("", value, "");
    assert "" + value + "" == value;
  }

  lemma TrimsToItself(digits: string)
    requires digits != "" && AllDigits(digits)
    ensures Trim(digits + "d") == digits + "d"
  {
    assert IsDigit((digits + "d")[0]);
  }

  lemma InDays(digits: string, value: string)
    requires digits != "" && AllDigits(digits) && value == digits + "d" && Trim(value) == value
    ensures DurationSeconds(value) == Number(digits) * UnitSeconds('d')
  {
    assert value[..|value| - 1] == digits && value[|value| - 1] == 'd';
  }

  lemma ThirtyDays(n: nat)
    ensures n * UnitSeconds('d') <= MONTH <==> n <= 30
  {
  }

  /** In days, a configured lifetime is within the revocation period exactly up to thirty. */
  lemma DaysWithinMonth(digits: string)
    requires digits != "" && AllDigits(digits)
    ensures DurationSeconds(digits + "d") <= MONTH <==> Number(digits) <= 30
  {
    TrimsToItself(digits);
    InDays(digits, digits + "d");
    ThirtyDays(Number(digits));
  }

  // ---------------------------------------------------------------- the expiring store

  predicate Live(s: Server, jti: nat) {
    jti in s.tokens && s.now < s.tokens[jti].expiresAt
  }

  predicate FamilyRevoked(s: Server, family: nat) {
    family in s.revoked && s.now < s.revoked[family]
  }

  function Revoke(s: Server, family: nat): Server {
    s.(revoked := s.revoked[family := s.now + MONTH])
  }

  predicate HashValid(s: Server, token: Token) {
    Live(s, token.jti) && s.tokens[token.jti].tokenHash == token
  }

  // ---------------------------------------------------------------- the handlers

  predicate Verifies(s: Server, token: Token) {
    token in s.issued && s.now < token.expires
  }

  function NewToken(s: Server, config: Config, user: string, family: nat): Token {
    Token(s.nextId, family, user, s.now + config.jwtLife)
  }

  /** `issueAuthTokens` in a given family. */
  function Issue(s: Server, config: Config, user: string, family: nat): Server {
    var token := NewToken(s, config, user, family);
    s.(tokens := s.tokens[token.jti := Record(family, user, token, s.now + config.storeLife)],
       issued := s.issued + {token}, nextId := s.nextId + 1)
  }

  /** A successful login: a new family, numbered one past its first token. */
  function Login(s: Server, config: Config, user: string): Server {
    var issued := Issue(s, config, user, s.nextId + 1);
    issued.(nextId := s.nextId + 2)
  }

  datatype Answer =
    | Granted(token: Token)
    | MissingToken | InvalidToken | RevokedFamily | Invalidated | Reused | InactiveUser

  function Refresh(s: Server, config: Config, token: Token, active: bool): (Server, Answer) {
    if !Verifies(s, token) then (s, InvalidToken)
    else if FamilyRevoked(s, token.family) then (s, RevokedFamily)
    else if !HashValid(s, token) then (Revoke(s, token.family), Invalidated)
    else
      var consumed := s.(tokens := s.tokens - {token.jti}, accepted := s.accepted + {token});
      if !active then (consumed, InactiveUser)
      else (Issue(consumed, config, token.user, token.family),
            Granted(NewToken(consumed, config, token.user, token.family)))
  }

  function Logout(s: Server, token: Token): Server {
    if !Verifies(s, token) then s
    else
      var revoked := Revoke(s, token.family);
      if Live(revoked, token.jti) then revoked.(tokens := revoked.tokens - {token.jti}) else revoked
  }

  // ---------------------------------------------------------------- what was written reads back

  function Later(s: Server, delay: nat): Server {
    s.(now := s.now + delay)
  }

  /** A revocation lasts thirty days to the second, and touches no other family. */
  lemma RevocationLastsAMonth(s: Server, family: nat, delay: nat, other: nat)
    ensures FamilyRevoked(Later(Revoke(s, family), delay), other)
       <==> if other == family then delay < MONTH else FamilyRevoked(Later(s, delay), other)
  {
    assert MONTH > 0;
  }

  /** An issued token is valid for the stored lifetime and verifies for the signed one; the records of
      other tokens are untouched. */
  lemma IssuedTokenLives(s: Server, config: Config, user: string, family: nat, delay: nat, other: Token)
    ensures var token, after := NewToken(s, config, user, family), Later(Issue(s, config, user, family), delay);
            && (HashValid(after, token) <==> delay < config.storeLife)
            && (Verifies(after, token) <==> delay < config.jwtLife)
            && (other.jti != token.jti ==> (HashValid(after, other) <==> HashValid(Later(s, delay), other)))
  {
  }

  // ---------------------------------------------------------------- runs

  datatype Op = DoLogin(user: string) | DoRefresh(token: Token, active: bool) | DoLogout(token: Token)

  /** One request, handled in one atomic step `delay` seconds after the previous one. */
  datatype Event = Event(delay: nat, op: Op)

  function Handle(s: Server, config: Config, op: Op): Server {
    match op
    case DoLogin(user) => Login(s, config, user)
    case DoRefresh(token, active) => Refresh(s, config, token, active).0
    case DoLogout(token) => Logout(s, token)
  }

  function Step(s: Server, config: Config, e: Event): Server {
    Handle(Later(s, e.delay), config, e.op)
  }

  function Run(s: Server, config: Config, events: seq<Event>): Server
    decreases |events|
  {
    if events == [] then s else Run(Step(s, config, events[0]), config, events[1..])
  }

  // ---------------------------------------------------------------- one record per family

  ghost predicate IdsFresh(issued: set<Token>, nextId: nat) {
    && (forall t | t in issued :: t.jti < nextId && t.family < nextId)
    && (forall t, u | t in issued && u in issued && t.jti == u.jti :: t == u)
  }

  /** Each record is filed under its token's id and family. */
  ghost predicate Filed(tokens: map<nat, Record>, issued: set<Token>) {
    forall j | j in tokens ::
      tokens[j].tokenHash in issued && tokens[j].tokenHash.jti == j && tokens[j].tokenHash.family == tokens[j].family
  }

  ghost predicate OnePerFamily(tokens: map<nat, Record>) {
    forall i, j | i in tokens && j in tokens && tokens[i].family == tokens[j].family :: i == j
  }

  /** No accepted token has a record left. */
  ghost predicate Consumed(accepted: set<Token>, tokens: map<nat, Record>, issued: set<Token>) {
    forall t | t in accepted :: t in issued && t.jti !in tokens
  }

  ghost predicate Sound(s: Server) {
    && IdsFresh(s.issued, s.nextId)
    && Filed(s.tokens, s.issued)
    && OnePerFamily(s.tokens)
    && Consumed(s.accepted, s.tokens, s.issued)
    && (forall f | f in s.revoked :: f < s.nextId)
  }

  lemma IssueKeepsSound(s: Server, config: Config, user: string, family: nat)
    requires Sound(s) && family < s.nextId + 1
    requires forall j | j in s.tokens :: s.tokens[j].family != family
    ensures Sound(Issue(s, config, user, family))
  {
  }

  lemma LoginKeepsSound(s: Server, config: Config, user: string)
    requires Sound(s)
    ensures Sound(Login(s, config, user))
  {
  }

  lemma ConsumeKeepsSound(s: Server, token: Token)
    requires Sound(s) && token.jti in s.tokens && s.tokens[token.jti].tokenHash == token
    ensures var t := s.(tokens := s.tokens - {token.jti}, accepted := s.accepted + {token});
            Sound(t) && forall j | j in t.tokens :: t.tokens[j].family != token.family
  {
  }

  lemma RefreshKeepsSound(s: Server, config: Config, token: Token, active: bool)
    requires Sound(s)
    ensures Sound(Refresh(s, config, token, active).0)
  {
    if Verifies(s, token) && !FamilyRevoked(s, token.family) && HashValid(s, token) {
      ConsumeKeepsSound(s, token);
      if active {
        IssueKeepsSound(s.(tokens := s.tokens - {token.jti}, accepted := s.accepted + {token}),
                        config, token.user, token.family);
      }
    }
  }

  lemma LogoutKeepsSound(s: Server, token: Token)
    requires Sound(s)
    ensures Sound(Logout(s, token))
  {
  }

  lemma HandleKeepsSound(s: Server, config: Config, op: Op)
    requires Sound(s)
    ensures Sound(Handle(s, config, op))
  {
    match op
    case DoLogin(user) => LoginKeepsSound(s, config, user);
    case DoRefresh(token, active) => RefreshKeepsSound(s, config, token, active);
    case DoLogout(token) => LogoutKeepsSound(s, token);
  }

  lemma StepKeepsSound(s: Server, config: Config, e: Event)
    requires Sound(s)
    ensures Sound(Step(s, config, e))
  {
    HandleKeepsSound(Later(s, e.delay), config, e.op);
  }

  /** In every run each family has at most one unconsumed record, filed under its own token. */
  lemma {:induction false} RunsKeepOneRecordPerFamily(config: Config, events: seq<Event>, s: Server)
    requires Sound(s)
    ensures Sound(Run(s, config, events))
    decreases |events|
  {
    if events != [] {
      StepKeepsSound(s, config, events[0]);
      RunsKeepOneRecordPerFamily(config, events[1..], Step(s, config, events[0]));
    }
  }

  /** A token is accepted at most once: one already accepted is never rotated, and its family is
      revoked when it is presented again. */
  lemma AcceptedIsNeverRotated(s: Server, config: Config, token: Token, active: bool)
    requires Sound(s) && token in s.accepted
    ensures !Refresh(s, config, token, active).1.Granted?
    ensures Verifies(s, token) ==> FamilyRevoked(Refresh(s, config, token, active).0, token.family)
  {
  }

  /** Some token with this id has been accepted. */
  ghost predicate Used(s: Server, jti: nat) {
    exists t :: t in s.accepted && t.jti == jti
  }

  /** The event is a refresh that accepts, and so consumes, a token with this id. */
  predicate Accepts(s: Server, e: Event, jti: nat) {
    && e.op.DoRefresh? && e.op.token.jti == jti
    && var later := Later(s, e.delay);
       Verifies(later, e.op.token) && !FamilyRevoked(later, e.op.token.family) && HashValid(later, e.op.token)
  }

  function Acceptances(s: Server, config: Config, events: seq<Event>, jti: nat): nat
    decreases |events|
  {
    if events == [] then 0
    else
      (if Accepts(s, events[0], jti) then 1 else 0)
      + Acceptances(Step(s, config, events[0]), config, events[1..], jti)
  }

  lemma AcceptanceUses(s: Server, config: Config, e: Event, jti: nat)
    requires Sound(s)
    ensures Accepts(s, e, jti) ==> !Used(s, jti) && Used(Step(s, config, e), jti)
    ensures Used(s, jti) ==> Used(Step(s, config, e), jti)
  {
    if Accepts(s, e, jti) {
      assert e.op.token in Step(s, config, e).accepted;
    }
    if Used(s, jti) {
      var t :| t in s.accepted && t.jti == jti;
      assert t in Step(s, config, e).accepted;
    }
  }

  /** Over every run each token id is accepted at most once, and never if it was accepted before. */
  lemma {:induction false} EachIdIsAcceptedAtMostOnce(s: Server, config: Config, events: seq<Event>, jti: nat)
    requires Sound(s)
    ensures Acceptances(s, config, events, jti) <= if Used(s, jti) then 0 else 1
    decreases |events|
  {
    if events != [] {
      StepKeepsSound(s, config, events[0]);
      AcceptanceUses(s, config, events[0], jti);
      EachIdIsAcceptedAtMostOnce(Step(s, config, events[0]), config, events[1..], jti);
    }
  }

  /** What a presented token does to its unrevoked family: it is rotated if and only if it is the
      family's live token, and otherwise the family is revoked. */
  lemma RefreshRotatesIff(s: Server, config: Config, token: Token)
    requires Verifies(s, token) && !FamilyRevoked(s, token.family) && config.storeLife > 0
    ensures var (after, answer) := Refresh(s, config, token, true);
            && (answer.Granted? <==> HashValid(s, token))
            && (answer.Granted? ==>
                  && HashValid(after, answer.token) && answer.token.family == token.family
                  && !FamilyRevoked(after, token.family))
            && (!answer.Granted? ==> FamilyRevoked(after, token.family))
  {
  }

  // ---------------------------------------------------------------- revocation is final

  /** A record and its token serve until the first of them expires. */
  function ServesUntil(record: Record): nat {
    if record.expiresAt < record.tokenHash.expires then record.expiresAt else record.tokenHash.expires
  }

  /** The refresh lifetime: the stored or the signed one, whichever ends first. */
  function Lifetime(config: Config): nat {
    if config.storeLife < config.jwtLife then config.storeLife else config.jwtLife
  }

  /** No record serves longer than a lifetime from now. */
  ghost predicate Expiring(tokens: map<nat, Record>, latest: nat) {
    forall j | j in tokens :: ServesUntil(tokens[j]) <= latest
  }

  /** No record of a revoked family outlives the revocation. */
  ghost predicate Outlived(tokens: map<nat, Record>, revoked: map<nat, nat>) {
    forall j | j in tokens && tokens[j].family in revoked :: ServesUntil(tokens[j]) <= revoked[tokens[j].family]
  }

  ghost predicate Sealed(s: Server, config: Config) {
    && Expiring(s.tokens, s.now + Lifetime(config))
    && Outlived(s.tokens, s.revoked)
  }

  /** What one step owes: seals hold, revocations stay, and only unrevoked families are accepted. */
  ghost predicate KeepsSeals(s: Server, t: Server, config: Config) {
    && Sealed(t, config) && s.revoked.Keys <= t.revoked.Keys
    && forall u | u in t.accepted && u !in s.accepted :: u.family !in s.revoked
  }

  lemma RevokeKeepsSeals(s: Server, config: Config, family: nat)
    requires Sealed(s, config) && Lifetime(config) <= MONTH
    ensures KeepsSeals(s, Revoke(s, family), config)
  {
  }

  lemma ConsumeKeepsSeals(s: Server, config: Config, token: Token)
    requires Sealed(s, config) && token.family !in s.revoked
    ensures KeepsSeals(s, s.(tokens := s.tokens - {token.jti}, accepted := s.accepted + {token}), config)
  {
  }

  lemma IssueKeepsSeals(s: Server, config: Config, user: string, family: nat)
    requires Sealed(s, config) && family !in s.revoked
    ensures KeepsSeals(s, Issue(s, config, user, family), config)
  {
  }

  lemma RefreshKeepsSeals(s: Server, config: Config, token: Token, active: bool)
    requires Sound(s) && Sealed(s, config) && Lifetime(config) <= MONTH
    ensures KeepsSeals(s, Refresh(s, config, token, active).0, config)
  {
    if Verifies(s, token) && !FamilyRevoked(s, token.family) {
      if HashValid(s, token) {
        assert s.tokens[token.jti].family == token.family;
        assert token.family !in s.revoked;
        var consumed := s.(tokens := s.tokens - {token.jti}, accepted := s.accepted + {token});
        ConsumeKeepsSeals(s, config, token);
        IssueKeepsSeals(consumed, config, token.user, token.family);
      } else {
        RevokeKeepsSeals(s, config, token.family);
      }
    }
  }

  lemma LogoutKeepsSeals(s: Server, config: Config, token: Token)
    requires Sound(s) && Sealed(s, config) && Lifetime(config) <= MONTH
    ensures KeepsSeals(s, Logout(s, token), config)
  {
    if Verifies(s, token) {
      RevokeKeepsSeals(s, config, token.family);
    }
  }

  lemma HandleKeepsSeals(s: Server, config: Config, op: Op)
    requires Sound(s) && Sealed(s, config) && Lifetime(config) <= MONTH
    ensures KeepsSeals(s, Handle(s, config, op), config)
  {
    match op
    case DoLogin(user) => IssueKeepsSeals(s, config, user, s.nextId + 1);
    case DoRefresh(token, active) => RefreshKeepsSeals(s, config, token, active);
    case DoLogout(token) => LogoutKeepsSeals(s, config, token);
  }

  lemma WaitingKeepsSeals(s: Server, config: Config, delay: nat)
    requires Sound(s) && Sealed(s, config)
    ensures Sound(Later(s, delay)) && KeepsSeals(s, Later(s, delay), config)
  {
  }

  /** With a lifetime, stored or signed, of at most thirty days, no token of a revoked family is ever accepted
      again, not even after the revocation record itself has expired. */
  lemma {:induction false} RevokedStaysRevoked(s: Server, config: Config, events: seq<Event>)
    requires Sound(s) && Sealed(s, config) && Lifetime(config) <= MONTH
    ensures forall u | u in Run(s, config, events).accepted && u !in s.accepted :: u.family !in s.revoked
    decreases |events|
  {
    if events != [] {
      var later := Later(s, events[0].delay);
      WaitingKeepsSeals(s, config, events[0].delay);
      HandleKeepsSound(later, config, events[0].op);
      HandleKeepsSeals(later, config, events[0].op);
      RevokedStaysRevoked(Handle(later, config, events[0].op), config, events[1..]);
    }
  }

  // ---------------------------------------------------------------- what each handler answers and leaves

  /** In any state of the store, sound or not: a token whose id has a live record of another token is taken for
      stolen, and its family is revoked. */
  lemma ForeignRecordRevokes(s: Server, config: Config, token: Token, active: bool)
    requires Verifies(s, token) && !FamilyRevoked(s, token.family)
    requires Live(s, token.jti) && s.tokens[token.jti].tokenHash != token
    ensures Refresh(s, config, token, active) == (Revoke(s, token.family), Invalidated)
  {
  }

  /** A refresh that is not granted issues nothing: a token that does not verify, or of a revoked family,
      changes nothing; one without its own live record revokes its family; and the live token of an inactive
      user is consumed. */
  lemma RefusedRefreshLeaves(s: Server, config: Config, token: Token, active: bool)
    ensures var (t, answer) := Refresh(s, config, token, active);
            && (answer.Granted? <==>
                  active && Verifies(s, token) && !FamilyRevoked(s, token.family) && HashValid(s, token))
            && (!answer.Granted? ==> t.issued == s.issued && t.tokens.Keys <= s.tokens.Keys && t.nextId == s.nextId)
            && (answer in {InvalidToken, RevokedFamily} ==> t == s)
            && (answer == InvalidToken <==> !Verifies(s, token))
            && (answer == RevokedFamily <==> Verifies(s, token) && FamilyRevoked(s, token.family))
            && (answer == Invalidated ==> FamilyRevoked(t, token.family) && t.tokens == s.tokens)
            && (answer == InactiveUser ==> t.revoked == s.revoked && t.tokens == s.tokens - {token.jti})
            && answer !in {MissingToken, Reused}
  {
  }

  /** A logout with a token that verifies revokes its family and ends its record; the other families, and the
      other records, stay as they were. Any other token changes nothing. */
  lemma LogoutRevokes(s: Server, token: Token)
    ensures !Verifies(s, token) ==> Logout(s, token) == s
    ensures Verifies(s, token) ==>
      var t := Logout(s, token);
      && FamilyRevoked(t, token.family) && !Live(t, token.jti)
      && (forall f | f != token.family :: FamilyRevoked(t, f) <==> FamilyRevoked(s, f))
      && (forall j | j != token.jti ::
            (j in t.tokens <==> j in s.tokens) && (j in t.tokens ==> t.tokens[j] == s.tokens[j]))
      && t.issued == s.issued && t.accepted == s.accepted && t.now == s.now && t.nextId == s.nextId
  {
    assert MONTH > 0;
  }

  ghost predicate RevokedUntil(s: Server, family: nat, until: nat) {
    family in s.revoked && s.revoked[family] >= until
  }

  lemma StepKeepsRevoked(s: Server, config: Config, e: Event, family: nat, until: nat)
    requires RevokedUntil(s, family, until) && until <= s.now + MONTH
    ensures RevokedUntil(Step(s, config, e), family, until) && s.now <= Step(s, config, e).now
  {
  }

  lemma {:induction false} RunKeepsRevoked(s: Server, config: Config, events: seq<Event>, family: nat, until: nat)
    requires RevokedUntil(s, family, until) && until <= s.now + MONTH
    ensures RevokedUntil(Run(s, config, events), family, until)
    decreases |events|
  {
    if events != [] {
      StepKeepsRevoked(s, config, events[0], family, until);
      RunKeepsRevoked(Step(s, config, events[0]), config, events[1..], family, until);
    }
  }

  /** After a logout no run gets a refresh of the family granted within thirty days. */
  lemma LoggedOutForAMonth(s: Server, config: Config, token: Token, events: seq<Event>, t: Server, u: Token,
                           active: bool)
    requires Verifies(s, token) && t == Run(Logout(s, token), config, events) && t.now < s.now + MONTH
    requires u.family == token.family
    ensures !Refresh(t, config, u, active).1.Granted?
  {
    RunKeepsRevoked(Logout(s, token), config, events, token.family, s.now + MONTH);
  }

  /** A family revoked by the end of a first run and accepted again in a second. */
  ghost predicate Reopens(config: Config, before: seq<Event>, after: seq<Event>) {
    var s := Run(EMPTY, config, before);
    var t := Run(s, config, after);
    exists u | u in t.accepted && u !in s.accepted :: u.family in s.revoked
  }

  function Replay(config: Config): seq<Event> {
    var first := NewToken(EMPTY, config, "", 1);
    [Event(0, DoLogin("")), Event(0, DoRefresh(first, true)), Event(0, DoRefresh(first, true))]
  }

  /** With a longer lifetime: log in, refresh, replay the used token so that the family is revoked,
      and refresh with the rotated token once the revocation record has expired. */
  lemma LongLifetimeReopens(config: Config)
    requires MONTH < Lifetime(config)
    ensures Reopens(config, Replay(config), [Event(MONTH, DoRefresh(Token(2, 1, "", config.jwtLife), true))])
  {
    var first := NewToken(EMPTY, config, "", 1);
    var second := Token(2, 1, "", config.jwtLife);
    var e := Replay(config);
    var s1 := Step(EMPTY, config, e[0]);
    var s2 := Step(s1, config, e[1]);
    var s3 := Step(s2, config, e[2]);
    assert first == Token(0, 1, "", config.jwtLife);
    assert s1 == Server(0, map[0 := Record(1, "", first, config.storeLife)], map[], {first}, 2, {});
    assert s2.tokens == map[2 := Record(1, "", second, config.storeLife)] && s2.issued == {first, second};
    assert s3 == s2.(revoked := map[1 := MONTH]);
    assert e[1..] == [e[1], e[2]] && [e[1], e[2]][1..] == [e[2]] && [e[2]][1..] == [];
    assert Run(s2, config, [e[2]]) == Run(s3, config, []);
    assert Run(s1, config, [e[1], e[2]]) == s3;
    assert Run(EMPTY, config, e) == s3;
    var last := Event(MONTH, DoRefresh(second, true));
    var s4 := Step(s3, config, last);
    assert [last][1..] == [];
    assert Run(s3, config, [last]) == Run(s4, config, []);
    assert second in s4.accepted && second !in s3.accepted;
  }

  lemma StepKeepsSeals(s: Server, config: Config, e: Event, next: Server)
    requires Sound(s) && Sealed(s, config) && Lifetime(config) <= MONTH && next == Step(s, config, e)
    ensures Sealed(next, config)
  {
    var later := Later(s, e.delay);
    WaitingKeepsSeals(s, config, e.delay);
    HandleKeepsSeals(later, config, e.op);
  }

  /** The seals of every reachable server. */
  lemma {:induction false} RunsKeepSeals(s: Server, config: Config, events: seq<Event>, t: Server)
    requires Sound(s) && Sealed(s, config) && Lifetime(config) <= MONTH
    requires t == Run(s, config, events)
    ensures Sealed(t, config)
    decreases |events|
  {
    if events != [] {
      StepKeepsSound(s, config, events[0]);
      StepKeepsSeals(s, config, events[0], Step(s, config, events[0]));
      RunsKeepSeals(Step(s, config, events[0]), config, events[1..], t);
    }
  }

  lemma SealedFamilyIsRefused(s: Server, config: Config, u: Token, active: bool)
    requires Sound(s) && Sealed(s, config) && u.family in s.revoked
    ensures !Refresh(s, config, u, active).1.Granted?
  {
  }

  lemma NoRunReopens(s: Server, config: Config, events: seq<Event>, t: Server, u: Token, active: bool)
    requires Sound(s) && Sealed(s, config) && Lifetime(config) <= MONTH && u.family in s.revoked
    requires t == Run(s, config, events)
    ensures !Refresh(t, config, u, active).1.Granted?
  {
    RunsKeepOneRecordPerFamily(config, events, s);
    RunsKeepSeals(s, config, events, t);
    RunKeepsRevoked(s, config, events, u.family, 0);
    SealedFamilyIsRefused(t, config, u, active);
  }

  /** After a logout, with a lifetime, stored or signed, of at most thirty days, no later run gets a refresh
      of the family granted. */
  lemma LoggedOutForGood(s: Server, config: Config, token: Token, events: seq<Event>, t: Server, u: Token, active: bool)
    requires Sound(s) && Sealed(s, config) && Lifetime(config) <= MONTH
    requires Verifies(s, token) && t == Run(Logout(s, token), config, events) && u.family == token.family
    ensures !Refresh(t, config, u, active).1.Granted?
  {
    var out := Logout(s, token);
    LogoutKeepsSound(s, token);
    LogoutKeepsSeals(s, config, token);
    NoRunReopens(out, config, events, t, u, active);
  }

  /** Exactly: revocation is final in every run if and only if the stored or the signed lifetime is at
      most thirty days. */
  lemma RevocationIsFinalIff(config: Config)
    ensures (forall before, after :: !Reopens(config, before, after))
       <==> config.storeLife <= MONTH || config.jwtLife <= MONTH
  {
    if Lifetime(config) <= MONTH {
      forall before, after ensures !Reopens(config, before, after) {
        RunsKeepOneRecordPerFamily(config, before, EMPTY);
        RunsKeepSeals(EMPTY, config, before, Run(EMPTY, config, before));
        RevokedStaysRevoked(Run(EMPTY, config, before), config, after);
      }
    } else {
      LongLifetimeReopens(config);
    }
  }
}
