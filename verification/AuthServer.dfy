/** The auth routes as the server runs them, over a store whose keys expire. */
module AuthServer {
  import opened Options
  import opened RefreshTokens

  /** A key is present while the clock has not reached its expiry. */
  class RefreshTokenStore {
    var now: nat
    var tokens: map<nat, Record>
    var revoked: map<nat, nat>

    constructor ()
      ensures now == 0 && tokens == map[] && revoked == map[]
    {
      now, tokens, revoked := 0, map[], map[];
    }

    method StoreRefreshToken(jti: nat, family: nat, user: string, token: Token, expiresInSeconds: nat)
      modifies this`tokens
      ensures tokens == old(tokens)[jti := Record(family, user, token, old(now) + expiresInSeconds)]
    {
      tokens := tokens[jti := Record(family, user, token, now + expiresInSeconds)];
    }

    method Get(jti: nat) returns (raw: Option<Record>)
      ensures raw.Some? <==> jti in tokens && now < tokens[jti].expiresAt
      ensures raw.Some? ==> raw.value == tokens[jti]
    {
      if jti in tokens && now < tokens[jti].expiresAt {
        return Some(tokens[jti]);
      }
      return None;
    }

    method ConsumeRefreshToken(jti: nat) returns (raw: Option<Record>)
      modifies this`tokens
      ensures raw.Some? <==> jti in old(tokens) && now < old(tokens)[jti].expiresAt
      ensures raw.Some? ==> raw.value == old(tokens)[jti] && tokens == old(tokens) - {jti}
      ensures raw.None? ==> tokens == old(tokens)
    {
      raw := Get(jti);
      if raw.None? { return None; }
      tokens := tokens - {jti};
    }

    method VerifyRefreshTokenHash(jti: nat, token: Token) returns (valid: bool)
      ensures valid <==> jti in tokens && now < tokens[jti].expiresAt && tokens[jti].tokenHash == token
    {
      var raw := Get(jti);
      if raw.None? { return false; }
      return raw.value.tokenHash == token;
    }

    method RevokeRefreshFamily(family: nat)
      modifies this`revoked
      ensures revoked == old(revoked)[family := now + MONTH]
    {
      revoked := revoked[family := now + MONTH];
    }

    method IsRefreshFamilyRevoked(family: nat) returns (found: bool)
      ensures found <==> family in revoked && now < revoked[family]
    {
      return family in revoked && now < revoked[family];
    }
  }

  class AuthRoutes {
    const config: Config
    const store: RefreshTokenStore
    /** Every token ever signed: what signature verification accepts. */
    var issued: set<Token>
    var nextId: nat
    ghost var accepted: set<Token>

    ghost function State(): Server
      reads this, store
    {
      Server(store.now, store.tokens, store.revoked, issued, nextId, accepted)
    }

    constructor (config: Config)
      ensures this.config == config && fresh(store) && State() == EMPTY
    {
      this.config := config;
      store := new RefreshTokenStore();
      issued, nextId, accepted := {}, 0, {};
    }

    method NewTokenIds(existingFamilyId: Option<nat>) returns (jti: nat, family: nat)
      modifies this`nextId
      ensures jti == old(nextId)
      ensures existingFamilyId.Some? ==> family == existingFamilyId.value && nextId == old(nextId) + 1
      ensures existingFamilyId.None? ==> family == old(nextId) + 1 && nextId == old(nextId) + 2
    {
      jti := nextId;
      nextId := nextId + 1;
      if existingFamilyId.Some? { return jti, existingFamilyId.value; }
      family := nextId;
      nextId := nextId + 1;
    }

    method IssueAuthTokens(user: string, existingFamilyId: Option<nat>) returns (token: Token)
      modifies this`issued, this`nextId, store`tokens
      ensures existingFamilyId.Some? ==>
        State() == Issue(old(State()), config, user, existingFamilyId.value)
      ensures existingFamilyId.None? ==> State() == RefreshTokens.Login(old(State()), config, user)
      ensures token == NewToken(old(State()), config, user, existingFamilyId.GetOr(old(nextId) + 1))
    {
      var jti, family := NewTokenIds(existingFamilyId);
      token := Token(jti, family, user, store.now + config.jwtLife);
      issued := issued + {token};
      store.StoreRefreshToken(jti, family, user, token, config.storeLife);
    }

    /** Wrong password and inactive account both answer 401 and touch nothing. */
    method Login(user: string, passwordMatches: bool, active: bool) returns (token: Option<Token>)
      modifies this`issued, this`nextId, store`tokens
      ensures token.Some? <==> passwordMatches && active
      ensures State() == if token.Some? then RefreshTokens.Login(old(State()), config, user) else old(State())
      ensures token.Some? ==> token.value == NewToken(old(State()), config, user, old(nextId) + 1)
    {
      if !passwordMatches { return None; }
      if !active { return None; }
      var refreshToken := IssueAuthTokens(user, None);
      return Some(refreshToken);
    }

    /** The token in the body goes before the one in the cookie. */
    method Refresh(body: Option<Token>, cookie: Option<Token>, active: bool) returns (answer: Answer)
      modifies this, store
      ensures Or(body, cookie).None? ==> answer == MissingToken && State() == old(State())
      ensures Or(body, cookie).Some? ==>
        (State(), answer) == RefreshTokens.Refresh(old(State()), config, Or(body, cookie).value, active)
    {
      var presented := Or(body, cookie);
      if presented.None? { return MissingToken; }
      var token := presented.value;
      if token !in issued || token.expires <= store.now { return InvalidToken; }
      var familyRevoked := store.IsRefreshFamilyRevoked(token.family);
      if familyRevoked { return RevokedFamily; }
      var isHashValid := store.VerifyRefreshTokenHash(token.jti, token);
      if !isHashValid {
        store.RevokeRefreshFamily(token.family);
        return Invalidated;
      }
      var consumed := store.ConsumeRefreshToken(token.jti);
      if consumed.None? {
        store.RevokeRefreshFamily(token.family);
        return Reused;
      }
      accepted := accepted + {token};
      if !active { return InactiveUser; }
      var rotated := IssueAuthTokens(token.user, Some(token.family));
      return Granted(rotated);
    }

    method Logout(body: Option<Token>, cookie: Option<Token>)
      modifies store`tokens, store`revoked
      ensures Or(body, cookie).None? ==> State() == old(State())
      ensures Or(body, cookie).Some? ==>
        State() == RefreshTokens.Logout(old(State()), Or(body, cookie).value)
    {
      var presented := Or(body, cookie);
      if presented.None? { return; }
      var token := presented.value;
      if token !in issued || token.expires <= store.now { return; }
      store.RevokeRefreshFamily(token.family);
      var consumed := store.ConsumeRefreshToken(token.jti);
    }
  }
}
