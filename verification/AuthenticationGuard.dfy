/** The route guard, and its agreement with the record a token was minted from. */
module AuthenticationGuard {
  import opened Wrappers
  import opened Strings
  import opened UserRepository
  import opened UserService
  import opened AuthenticationService
  import P = PasswordRefinement

  /** Metadata set by decorators on the handler and on its controller class. */
  datatype Route = Route(
    handlerPublic: Option<bool>,
    classPublic: Option<bool>,
    handlerRoles: Option<seq<Role>>,
    classRoles: Option<seq<Role>>)

  datatype Verdict = Allowed | Denied | NotAuthenticated

  /** Tokens that verify at this moment; only the service signs. */
  type Tokens = map<string, AccessTokenPayload>

  predicate IsRoutePublic(route: Route)
  {
    GetOr(if route.handlerPublic.Some? then route.handlerPublic else route.classPublic, false)
  }

  function AuthorizedRoles(route: Route): seq<Role>
  {
    GetOr(route.handlerRoles, []) + GetOr(route.classRoles, [])
  }

  /** lodash `intersection`, duplicates of the first list kept once. */
  function Intersection(a: seq<Role>, b: seq<Role>): (r: seq<Role>)
    ensures forall x :: x in r <==> x in a && x in b
  {
    if a == [] then []
    else
      var rest := Intersection(a[..|a| - 1], b);
      var x := a[|a| - 1];
      if x in b && x !in rest then rest + [x] else rest
  }

  predicate IsUserAuthorized(route: Route, payload: AccessTokenPayload)
  {
    if payload.sub == ADMIN_USER_NAME then true
    else if Admin in payload.roles then true
    else Intersection(AuthorizedRoles(route), payload.roles) != []
  }

  function ExtractTokenFromHeader(authorization: Option<string>): Option<string>
  {
    if authorization.None? then None
    else
      var parts := Split(authorization.value, ' ');
      if parts[0] == "Bearer" && |parts| > 1 then Some(parts[1]) else None
  }

  function CanActivate(route: Route, authorization: Option<string>, tokens: Tokens): Verdict
  {
    if IsRoutePublic(route) then Allowed
    else
      match ExtractTokenFromHeader(authorization)
      case None => NotAuthenticated
      case Some(token) =>
        if token !in tokens then NotAuthenticated
        else if IsUserAuthorized(route, tokens[token]) then Allowed
        else Denied
  }

  /** The handler's mark if there is one, else the class's. */
  ghost predicate Public(route: Route)
  {
    route.handlerPublic == Some(true) || (route.handlerPublic.None? && route.classPublic == Some(true))
  }

  /** The policy in plain terms, on a login and its roles. */
  ghost predicate Policy(route: Route, login: string, roles: seq<Role>)
  {
    Public(route) || LetsIn(route, login, roles)
  }

  ghost predicate LetsIn(route: Route, login: string, roles: seq<Role>)
  {
    || login == ADMIN_USER_NAME
    || Admin in roles
    || exists r :: r in roles && ((route.handlerRoles.Some? && r in route.handlerRoles.value)
                                 || (route.classRoles.Some? && r in route.classRoles.value))
  }

  // ------------------------------------------------------------------ the header

  /** "Bearer", one space, the token, and anything after a further space. */
  ghost predicate IsBearerHeader(header: string, token: string)
  {
    || header == "Bearer" + [' '] + token
    || exists rest :: header == BearerHeaderWith(token, rest)
  }

  function BearerHeaderWith(token: string, rest: string): string
  {
    "Bearer" + [' '] + (token + [' '] + rest)
  }

  lemma HeaderFromToken(header: string, token: string)
    requires ExtractTokenFromHeader(Some(header)) == Some(token)
    ensures ' ' !in token && IsBearerHeader(header, token)
  {
    var parts := Split(header, ' ');
    JoinOfSplit(header, ' ');
    SplitIsFree(header, ' ');
    assert parts == ["Bearer"] + parts[1..] && parts[1..] == [token] + parts[2..];
    hide Split, Join;
    JoinHead("Bearer", parts[1..], ' ');
    if |parts| == 2 {
      assert parts[1..] == [token];
      JoinOne(token);
    } else {
      JoinHead(token, parts[2..], ' ');
      assert header == BearerHeaderWith(token, Join(parts[2..], ' '));
    }
  }

  lemma JoinOne(s: string)
    ensures Join([s], ' ') == s
  {
  }

  lemma TokenFromHeader(header: string, token: string)
    requires ' ' !in token && IsBearerHeader(header, token)
    ensures ExtractTokenFromHeader(Some(header)) == Some(token)
  {
    hide Split;
    if header == "Bearer" + [' '] + token {
      SplitHead("Bearer", ' ', token);
      SplitHead(token, ' ', "");
    } else {
      var rest :| header == BearerHeaderWith(token, rest);
      SplitHead("Bearer", ' ', token + [' '] + rest);
      SplitHead(token, ' ', rest);
    }
  }

  /** A token is read from exactly the headers of that form, and is free of spaces. */
  lemma BearerHeaderIff(header: string, token: string)
    ensures ExtractTokenFromHeader(Some(header)) == Some(token) <==> ' ' !in token && IsBearerHeader(header, token)
  {
    if ExtractTokenFromHeader(Some(header)) == Some(token) {
      HeaderFromToken(header, token);
    }
    if ' ' !in token && IsBearerHeader(header, token) {
      TokenFromHeader(header, token);
    }
    hide ExtractTokenFromHeader, IsBearerHeader;
  }

  // ------------------------------------------------------------------ decisions

  /** With a live token, the guard decides by the policy on what the token says. */
  lemma GuardDecidesByPolicy(route: Route, token: string, tokens: Tokens)
    requires token in tokens && ' ' !in token
    ensures CanActivate(route, Some("Bearer " + token), tokens)
         == if Policy(route, tokens[token].sub, tokens[token].roles) then Allowed else Denied
  {
    assert "Bearer " + token == "Bearer" + [' '] + token;
    BearerHeaderIff("Bearer " + token, token);
    hide ExtractTokenFromHeader;
    var common := Intersection(AuthorizedRoles(route), tokens[token].roles);
    if common != [] { assert common[0] in common; }
  }

  /** The header is a bearer header of this token, and the token is live. */
  ghost predicate Presents(authorization: Option<string>, tokens: Tokens, token: string)
  {
    && authorization.Some? && token in tokens && ' ' !in token
    && (authorization.value == "Bearer " + token || exists rest :: authorization.value == BearerHeaderWith(token, rest))
  }

  lemma PresentsWhatIsExtracted(authorization: Option<string>, tokens: Tokens, token: string)
    ensures Presents(authorization, tokens, token) <==> ExtractTokenFromHeader(authorization) == Some(token) && token in tokens
  {
    assert "Bearer " + token == "Bearer" + [' '] + token;
    if authorization.Some? { BearerHeaderIff(authorization.value, token); }
    hide ExtractTokenFromHeader, BearerHeaderWith;
  }

  lemma AuthorizedIffLetIn(route: Route, payload: AccessTokenPayload)
    ensures IsUserAuthorized(route, payload) <==> LetsIn(route, payload.sub, payload.roles)
  {
    var common := Intersection(AuthorizedRoles(route), payload.roles);
    if common != [] { assert common[0] in common; }
  }

  ghost predicate PresentsLetIn(route: Route, authorization: Option<string>, tokens: Tokens, lets: bool)
  {
    exists token :: Presents(authorization, tokens, token) && LetsIn(route, tokens[token].sub, tokens[token].roles) == lets
  }

  /**
   * Main result, for every route, header and set of live tokens: the guard allows exactly the public
   * routes and the bearers of a live token that the policy lets in, denies exactly the bearers of one
   * that it does not, and answers everyone else that they are not authenticated.
   */
  lemma GuardDecides(route: Route, authorization: Option<string>, tokens: Tokens)
    ensures CanActivate(route, authorization, tokens) == Allowed <==> Public(route) || PresentsLetIn(route, authorization, tokens, true)
    ensures CanActivate(route, authorization, tokens) == Denied <==> !Public(route) && PresentsLetIn(route, authorization, tokens, false)
    ensures CanActivate(route, authorization, tokens) == NotAuthenticated <==>
              !Public(route) && !exists token :: Presents(authorization, tokens, token)
  {
    var extracted := ExtractTokenFromHeader(authorization);
    forall token ensures Presents(authorization, tokens, token) <==> extracted == Some(token) && token in tokens {
      PresentsWhatIsExtracted(authorization, tokens, token);
    }
    hide ExtractTokenFromHeader, Presents, LetsIn, IsUserAuthorized;
    if extracted.Some? && extracted.value in tokens {
      AuthorizedIffLetIn(route, tokens[extracted.value]);
      assert Presents(authorization, tokens, extracted.value);
    }
  }

  /** More roles never lose access. */
  lemma AccessIsMonotone(route: Route, sub: string, modified: int, fewer: seq<Role>, more: seq<Role>)
    requires forall r :: r in fewer ==> r in more
    requires IsUserAuthorized(route, AccessTokenPayload(sub, fewer, modified))
    ensures IsUserAuthorized(route, AccessTokenPayload(sub, more, modified))
  {
    var common := Intersection(AuthorizedRoles(route), fewer);
    if common != [] { assert common[0] in Intersection(AuthorizedRoles(route), more); }
  }

  // ------------------------------------------------------------------ agreement over runs

  datatype State = State(store: Store, tokens: Tokens)

  datatype Label =
    | Do(c: P.Call)
    | Login(login: string, password: Password, token: string)   // with the text the signer produces
    | Expire(token: string)

  /** A successful login; two logins may yield one token text only for one payload. */
  predicate Mints(s: State, l: Label)
  {
    && l.Login? && ' ' !in l.token
    && var payload := LoginUser(s.store, l.login, l.password);
    && payload.Ok? && (l.token in s.tokens ==> s.tokens[l.token] == payload.value)
  }

  function Next(s: State, l: Label): State
  {
    match l
    case Do(c) => s.(store := P.Exec(s.store, c).store)
    case Login(login, password, token) =>
      if Mints(s, l) then s.(tokens := s.tokens[token := LoginUser(s.store, login, password).value]) else s
    case Expire(token) => s.(tokens := s.tokens - {token})
  }

  function Exec(s: State, ls: seq<Label>): State
  {
    if ls == [] then s else Next(Exec(s, ls[..|ls| - 1]), ls[|ls| - 1])
  }

  lemma {:induction false} TokenStays(s: State, ls: seq<Label>, token: string)
    requires token in s.tokens && Expire(token) !in ls
    ensures token in Exec(s, ls).tokens && Exec(s, ls).tokens[token] == s.tokens[token]
    decreases |ls|
  {
    if ls != [] {
      TokenStays(s, ls[..|ls| - 1], token);
      hide P.Exec, Exec;
    }
  }

  /**
   * Main result: until it expires, the token minted at login is accepted exactly when the policy holds
   * of the record as it was at login, whatever happens to the store in between.
   */
  lemma AgreesWithRecordAtLogin(s: State, l: Label, ls: seq<Label>, route: Route)
    requires Mints(s, l) && Expire(l.token) !in ls
    ensures l.login in s.store
    ensures CanActivate(route, Some("Bearer " + l.token), Exec(Next(s, l), ls).tokens)
         == if Policy(route, l.login, s.store[l.login].roles) then Allowed else Denied
  {
    TokenStays(Next(s, l), ls, l.token);
    GuardDecidesByPolicy(route, l.token, Exec(Next(s, l), ls).tokens);
    hide Exec, CanActivate, Policy;
  }

  /** The n-th step of the run minted this token for a record the policy lets in. */
  ghost predicate MintedFor(s: State, ls: seq<Label>, n: nat, token: string, route: Route)
  {
    n < |ls| && ls[n].Login? && ls[n].token == token && Mints(Exec(s, ls[..n]), ls[n])
    && ls[n].login in Exec(s, ls[..n]).store
    && Policy(route, ls[n].login, Exec(s, ls[..n]).store[ls[n].login].roles)
  }

  lemma {:induction false} TokensComeFromLogins(s: State, ls: seq<Label>, token: string)
    requires s.tokens == map[] && token in Exec(s, ls).tokens
    ensures exists n: nat :: n < |ls| && ls[n].Login? && ls[n].token == token && Mints(Exec(s, ls[..n]), ls[n])
              && Exec(s, ls).tokens[token] == LoginUser(Exec(s, ls[..n]).store, ls[n].login, ls[n].password).value
    decreases |ls|
  {
    var init := ls[..|ls| - 1];
    var before, l := Exec(s, init), ls[|ls| - 1];
    if l.Login? && l.token == token && Mints(before, l) {
      assert ls[..|init|] == init;
    } else {
      TokensComeFromLogins(s, init, token);
      var n: nat :| n < |init| && init[n].Login? && init[n].token == token && Mints(Exec(s, init[..n]), init[n])
              && before.tokens[token] == LoginUser(Exec(s, init[..n]).store, init[n].login, init[n].password).value;
      assert init[..n] == ls[..n] && init[n] == ls[n];
    }
  }

  /** In every run, whoever passes a non-public route holds a token that a successful login minted for a record the policy lets in. */
  lemma AcceptedMeansMinted(s: State, ls: seq<Label>, route: Route, authorization: Option<string>)
    requires s.tokens == map[] && !Public(route)
    requires CanActivate(route, authorization, Exec(s, ls).tokens) == Allowed
    ensures ExtractTokenFromHeader(authorization).Some?
    ensures exists n: nat :: MintedFor(s, ls, n, ExtractTokenFromHeader(authorization).value, route)
  {
    var token := ExtractTokenFromHeader(authorization).value;
    hide ExtractTokenFromHeader, Exec, Next;
    TokensComeFromLogins(s, ls, token);
    var n: nat :| n < |ls| && ls[n].Login? && ls[n].token == token && Mints(Exec(s, ls[..n]), ls[n])
              && Exec(s, ls).tokens[token] == LoginUser(Exec(s, ls[..n]).store, ls[n].login, ls[n].password).value;
    var payload := Exec(s, ls).tokens[token];
    var common := Intersection(AuthorizedRoles(route), payload.roles);
    if common != [] { assert common[0] in common; }
    assert MintedFor(s, ls, n, token, route);
  }
}
