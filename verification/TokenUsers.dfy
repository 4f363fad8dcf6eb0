/** Whose tokens they are: a family belongs to the user who logged in, and a refresh never hands out another's. */
module TokenUsers {
  import opened RefreshTokens

  /** All tokens of a family are one user's, and each stored record is that of its token's user and family. */
  ghost predicate OneUserEach(s: Server) {
    && (forall a, b | a in s.issued && b in s.issued && a.family == b.family :: a.user == b.user)
    && (forall jti | jti in s.tokens ::
          s.tokens[jti].user == s.tokens[jti].tokenHash.user && s.tokens[jti].family == s.tokens[jti].tokenHash.family)
  }

  /** A login begins a family of its own with one token of that user, which verifies until a lifetime ends. */
  lemma LoginBeginsAFamily(s: Server, config: Config, user: string, t: Server, token: Token)
    requires Sound(s) && t == Login(s, config, user) && token == NewToken(s, config, user, s.nextId + 1)
    ensures t.issued == s.issued + {token} && token !in s.issued
    ensures token.user == user && forall other | other in s.issued :: other.family != token.family
    ensures t.tokens == s.tokens[token.jti := Record(token.family, user, token, s.now + config.storeLife)]
    ensures t.accepted == s.accepted && t.revoked == s.revoked
  {
  }

  /** A granted refresh hands out one new token, of the same user and family, and the presented one is used up. */
  lemma GrantIsTheSameUsers(s: Server, config: Config, token: Token, active: bool, t: Server, granted: Token)
    requires Sound(s) && Refresh(s, config, token, active) == (t, Granted(granted))
    ensures granted.user == token.user && granted.family == token.family
    ensures t.issued == s.issued + {granted} && granted !in s.issued && granted.jti != token.jti
    ensures t.tokens == (s.tokens - {token.jti})[granted.jti := Record(token.family, token.user, granted,
                                                                       s.now + config.storeLife)]
    ensures t.accepted == s.accepted + {token} && t.revoked == s.revoked
  {
  }

  lemma OneMoreToken(s: Server, t: Server, kept: map<nat, Record>, token: Token, expiresAt: nat)
    requires OneUserEach(s) && t.issued == s.issued + {token}
    requires forall other | other in s.issued && other.family == token.family :: other.user == token.user
    requires forall jti | jti in kept :: jti in s.tokens && kept[jti] == s.tokens[jti]
    requires t.tokens == kept[token.jti := Record(token.family, token.user, token, expiresAt)]
    ensures OneUserEach(t)
  {
  }

  lemma LoginKeepsOneUser(s: Server, config: Config, user: string)
    requires Sound(s) && OneUserEach(s)
    ensures OneUserEach(Login(s, config, user))
  {
    var t, token := Login(s, config, user), NewToken(s, config, user, s.nextId + 1);
    LoginBeginsAFamily(s, config, user, t, token);
    OneMoreToken(s, t, s.tokens, token, s.now + config.storeLife);
  }

  lemma RefreshKeepsOneUser(s: Server, config: Config, token: Token, active: bool, t: Server, answer: Answer)
    requires Sound(s) && OneUserEach(s) && (t, answer) == Refresh(s, config, token, active)
    ensures OneUserEach(t)
  {
    if answer.Granted? {
      GrantIsTheSameUsers(s, config, token, active, t, answer.token);
      assert token in s.issued;
      OneMoreToken(s, t, s.tokens - {token.jti}, answer.token, s.now + config.storeLife);
    }
  }

  lemma HandleKeepsOneUser(s: Server, config: Config, op: Op)
    requires Sound(s) && OneUserEach(s)
    ensures OneUserEach(Handle(s, config, op))
  {
    match op
    case DoLogin(user) => LoginKeepsOneUser(s, config, user);
    case DoRefresh(token, active) =>
      var (t, answer) := Refresh(s, config, token, active);
      RefreshKeepsOneUser(s, config, token, active, t, answer);
    case DoLogout(token) =>
  }

  /** Over every run each family is one user's. */
  lemma {:induction false} RunsKeepOneUser(s: Server, config: Config, events: seq<Event>)
    requires Sound(s) && OneUserEach(s)
    ensures OneUserEach(Run(s, config, events))
    decreases |events|
  {
    if events != [] {
      StepKeepsSound(s, config, events[0]);
      assert Sound(Later(s, events[0].delay)) && OneUserEach(Later(s, events[0].delay));
      HandleKeepsOneUser(Later(s, events[0].delay), config, events[0].op);
      RunsKeepOneUser(Step(s, config, events[0]), config, events[1..]);
    }
  }

  /** So in every run from an empty store, no refresh gives a user's family to anyone else: whatever it grants is
      of the user of every other token of the family. */
  lemma NoRefreshChangesHands(config: Config, events: seq<Event>, token: Token, active: bool, granted: Token,
                              other: Token)
    requires Refresh(Run(EMPTY, config, events), config, token, active).1 == Granted(granted)
    requires other in Run(EMPTY, config, events).issued && other.family == granted.family
    ensures other.user == granted.user
  {
    RunsKeepOneUser(EMPTY, config, events);
    RunsKeepOneRecordPerFamily(config, events, EMPTY);
    var s := Run(EMPTY, config, events);
    GrantIsTheSameUsers(s, config, token, active, Refresh(s, config, token, active).0, granted);
  }
}
