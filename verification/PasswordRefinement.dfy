/**
 * Sequentially, the user store is a plain map from logins to passwords: hashes, salts, roles,
 * descriptions and timestamps never show in who can log in, nor in which calls succeed.
 */
module PasswordRefinement {
  import opened Wrappers
  import opened UserRepository
  import opened UserService
  import opened AuthenticationService

  datatype Operation =
    | Create(login: string, password: Password, roles: seq<Role>, description: Option<string>)
    | CreateAdmin(defaultPassword: Password)
    | Update(who: Option<string>, newRoles: Option<seq<Role>>, newDescription: Option<string>)
    | Remove(login: string)
    | UpdatePassword(login: string, current: Password, password: Password)
    | ResetAdminPassword(isEnabled: Option<bool>, defaultPassword: Password)
    | GetAllUsers

  /** A call, with the salt it draws and the time it reads. */
  datatype Call = Call(op: Operation, salt: nat, now: int)

  function Exec(store: Store, c: Call): Outcome
  {
    match c.op
    case Create(login, password, roles, description) => CreateUser(store, login, password, roles, description, c.salt, c.now)
    case CreateAdmin(password) => CreateAdminUser(store, password, c.salt, c.now)
    case Update(who, roles, description) => UpdateUser(store, who, roles, description, c.now)
    case Remove(login) => RemoveUser(store, login)
    case UpdatePassword(login, current, password) => ChangePassword(store, login, current, password, c.salt, c.now)
    case ResetAdminPassword(isEnabled, password) => ResetAdmin(store, isEnabled, password, c.salt, c.now)
    case GetAllUsers => Outcome(store, Ok(()))
  }

  function ExecAll(store: Store, calls: seq<Call>): Store
  {
    if calls == [] then store else Exec(ExecAll(store, calls[..|calls| - 1]), calls[|calls| - 1]).store
  }

  // ------------------------------------------------------------------ the plain map

  type Passwords = map<string, Password>

  datatype PlainOutcome = PlainOutcome(passwords: Passwords, result: Result<(), UserError>)

  function SetIf(p: Passwords, login: string, password: Password, error: Option<UserError>): PlainOutcome
  {
    if error.Some? then PlainOutcome(p, Err(error.value)) else PlainOutcome(p[login := Effective(password)], Ok(()))
  }

  predicate Knows(p: Passwords, login: string, password: Password)
  {
    login in p && p[login] == Effective(password)
  }

  function PlainExec(p: Passwords, op: Operation): PlainOutcome
  {
    match op
    case Create(login, password, _, _) =>
      SetIf(p, login, password, if login == ADMIN_USER_NAME then Some(Forbidden) else if login in p then Some(AlreadyExists) else None)
    case CreateAdmin(password) =>
      SetIf(p, ADMIN_USER_NAME, password, if ADMIN_USER_NAME in p then Some(AlreadyExists) else None)
    case Update(who, _, _) =>
      PlainOutcome(p, if who.None? then Err(BadRequest) else if who.value == ADMIN_USER_NAME then Err(Forbidden)
                      else if who.value in p then Ok(()) else Err(UnknownUser))
    case Remove(login) =>
      if login == ADMIN_USER_NAME then PlainOutcome(p, Err(Forbidden))
      else if login in p then PlainOutcome(p - {login}, Ok(())) else PlainOutcome(p, Err(UnknownUser))
    case UpdatePassword(login, current, password) =>
      SetIf(p, login, password, if Knows(p, login, current) then None else Some(Unauthorized))
    case ResetAdminPassword(isEnabled, password) =>
      SetIf(p, ADMIN_USER_NAME, password,
            if isEnabled.None? then Some(NotInitialized) else if !isEnabled.value then Some(Forbidden)
            else if ADMIN_USER_NAME in p then None else Some(UnknownUser))
    case GetAllUsers => PlainOutcome(p, Ok(()))
  }

  function PlainExecAll(p: Passwords, calls: seq<Call>): Passwords
  {
    if calls == [] then p else PlainExec(PlainExecAll(p, calls[..|calls| - 1]), calls[|calls| - 1].op).passwords
  }

  function PasswordsOf(store: Store): Passwords
  {
    map login | login in store :: store[login].passwordHash.password
  }

  // ------------------------------------------------------------------ refinement

  /** One call does to the store what it does to the plain map, and answers the same. */
  lemma StepRefines(store: Store, c: Call)
    ensures PlainOutcome(PasswordsOf(Exec(store, c).store), Exec(store, c).result) == PlainExec(PasswordsOf(store), c.op)
  {
    hide PasswordsOf, StoreCreate, StoreUpdate, StoreRemove;
    match c.op
    case Create(login, password, roles, description) =>
      CreateShows(store, login, CreateUserData(HashPassword(password, c.salt), description, roles), c.now);
    case CreateAdmin(password) =>
      CreateShows(store, ADMIN_USER_NAME, AdminData(password, c.salt), c.now);
    case Update(who, roles, description) =>
      if who.Some? { UpdateShows(store, who.value, UpdateUserData(None, description, roles), c.now); }
    case Remove(login) => RemoveShows(store, login);
    case UpdatePassword(login, current, password) =>
      UpdateShows(store, login, UpdateUserData(Some(HashPassword(password, c.salt)), None, None), c.now);
    case ResetAdminPassword(_, password) =>
      UpdateShows(store, ADMIN_USER_NAME, UpdateUserData(Some(HashPassword(password, c.salt)), None, None), c.now);
    case GetAllUsers =>
  }

  lemma CreateShows(store: Store, login: string, data: CreateUserData, now: int)
    ensures var o, p := StoreCreate(store, login, data, now), PasswordsOf(store);
            if login in p then o == Outcome(store, Err(AlreadyExists))
            else o.result == Ok(()) && PasswordsOf(o.store) == p[login := data.passwordHash.password]
  {
  }

  lemma UpdateShows(store: Store, login: string, data: UpdateUserData, now: int)
    ensures var o, p := StoreUpdate(store, login, data, now), PasswordsOf(store);
            if login !in p then o == Outcome(store, Err(UnknownUser))
            else o.result == Ok(()) && PasswordsOf(o.store) == if data.passwordHash.Some? then p[login := data.passwordHash.value.password] else p
    ensures forall plain :: Authenticated(store, login, plain).Ok? <==> Knows(PasswordsOf(store), login, plain)
    ensures forall plain :: Authenticated(store, login, plain).Err? ==> Authenticated(store, login, plain).error == Unauthorized
  {
  }

  lemma RemoveShows(store: Store, login: string)
    ensures var o, p := StoreRemove(store, login), PasswordsOf(store);
            if login !in p then o == Outcome(store, Err(UnknownUser))
            else o.result == Ok(()) && PasswordsOf(o.store) == p - {login}
  {
  }

  lemma {:induction false} RunRefines(store: Store, calls: seq<Call>)
    ensures PasswordsOf(ExecAll(store, calls)) == PlainExecAll(PasswordsOf(store), calls)
    decreases |calls|
  {
    hide Exec, PlainExec, PasswordsOf;
    if calls != [] {
      RunRefines(store, calls[..|calls| - 1]);
      StepRefines(ExecAll(store, calls[..|calls| - 1]), calls[|calls| - 1]);
    }
  }

  /**
   * Main result: after any run of calls on any store, a login succeeds exactly when the plain map
   * holds that password for that login, up to bcrypt's 72 bytes.
   */
  lemma LoginAfterRunIff(store: Store, calls: seq<Call>, login: string, password: Password)
    ensures LoginUser(ExecAll(store, calls), login, password).Ok? <==>
            Knows(PlainExecAll(PasswordsOf(store), calls), login, password)
  {
    RunRefines(store, calls);
    hide ExecAll, PlainExecAll;
  }

  /** A comparison succeeds exactly when the passwords agree in their first 72 bytes. */
  lemma ComparesFirst72Bytes(p: Password, q: Password, salt: nat)
    ensures ComparePasswords(p, HashPassword(q, salt)) <==>
              (if |p| < 72 then p else p[..72]) == (if |q| < 72 then q else q[..72])
  {
    assert |p| == 72 ==> p[..72] == p;
    assert |q| == 72 ==> q[..72] == q;
  }

  /** Within that limit the effective password is the password. */
  lemma ShortPasswordsAreExact(p: Password, q: Password, salt: nat)
    requires |p| <= 72 && |q| <= 72
    ensures ComparePasswords(p, HashPassword(q, salt)) <==> p == q
  {
  }

  /** What a successful call makes of one login's password. */
  function AfterSuccess(op: Operation, login: string, before: Option<Password>): Option<Password>
  {
    match op
    case Create(who, password, _, _) => if who == login then Some(Effective(password)) else before
    case CreateAdmin(password) => if login == ADMIN_USER_NAME then Some(Effective(password)) else before
    case Remove(who) => if who == login then None else before
    case UpdatePassword(who, _, password) => if who == login then Some(Effective(password)) else before
    case ResetAdminPassword(_, password) => if login == ADMIN_USER_NAME then Some(Effective(password)) else before
    case _ => before
  }

  /** The last password set for `login` by a successful call since it was last created or removed. */
  function LastPassword(store: Store, calls: seq<Call>, login: string): Option<Password>
  {
    if calls == [] then (if login in store then Some(store[login].passwordHash.password) else None)
    else
      var init, c := calls[..|calls| - 1], calls[|calls| - 1];
      var before := LastPassword(store, init, login);
      if Exec(ExecAll(store, init), c).result.Err? then before
      else AfterSuccess(c.op, login, before)
  }

  lemma {:induction false} LastPasswordIsKept(store: Store, calls: seq<Call>, login: string)
    ensures var after := ExecAll(store, calls);
            LastPassword(store, calls, login) == if login in after then Some(after[login].passwordHash.password) else None
    decreases |calls|
  {
    if calls != [] {
      var init := calls[..|calls| - 1];
      LastPasswordIsKept(store, init, login);
      LastPasswordStep(ExecAll(store, init), calls[|calls| - 1], login);
      hide Exec;
    }
  }

  /** What one call does to the password of one login. */
  lemma LastPasswordStep(store: Store, c: Call, login: string)
    ensures var o := Exec(store, c);
            var before := if login in store then Some(store[login].passwordHash.password) else None;
            (if login in o.store then Some(o.store[login].passwordHash.password) else None) ==
              if o.result.Err? then before
              else AfterSuccess(c.op, login, before)
  {
  }

  /** Main result, told by history: a login succeeds exactly with the last password set for it. */
  lemma LoginIffLastPassword(store: Store, calls: seq<Call>, login: string, password: Password)
    ensures LoginUser(ExecAll(store, calls), login, password).Ok? <==>
            LastPassword(store, calls, login) == Some(Effective(password))
  {
    LastPasswordIsKept(store, calls, login);
    hide ExecAll, LastPassword;
  }
}
