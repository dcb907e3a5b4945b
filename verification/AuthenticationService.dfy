/** Login and password changes. */
module AuthenticationService {
  import opened Wrappers
  import opened UserRepository
  import opened UserService

  /** What a token says; signing is the guard's concern. */
  datatype AccessTokenPayload = AccessTokenPayload(sub: string, roles: seq<Role>, modified: int)

  class Authenticator {
    const repository: Repository

    constructor (repository: Repository)
      ensures this.repository == repository
    {
      this.repository := repository;
    }

    method Login(login: string, password: Password) returns (r: Result<AccessTokenPayload, UserError>)
      ensures r == LoginUser(repository.userStore, login, password)
    {
      var user := GetAuthenticatedUserOrThrow(login, password);
      if user.Err? {
        return Err(user.error);
      }
      r := Ok(AccessTokenPayload(login, user.value.roles, user.value.modified));
    }

    method GetAuthenticatedUserOrThrow(userLogin: string, password: Password) returns (r: Result<UserData, UserError>)
      ensures r == Authenticated(repository.userStore, userLogin, password)
    {
      var user := repository.GetByLogin(userLogin);
      if user.None? {
        return Err(Unauthorized);
      }
      var isPasswordCorrect := ComparePasswords(password, user.value.passwordHash);
      if !isPasswordCorrect {
        return Err(Unauthorized);
      }
      r := Ok(user.value);
    }

    method UpdatePassword(userLogin: string, currentPassword: Password, newPassword: Password, salt: nat, now: int)
      returns (r: Result<(), UserError>)
      modifies repository
      ensures Outcome(repository.userStore, r) == ChangePassword(old(repository.userStore), userLogin, currentPassword, newPassword, salt, now)
    {
      var user := GetAuthenticatedUserOrThrow(userLogin, currentPassword);
      if user.Err? {
        return Err(user.error);
      }
      r := UpdateUserPassword(userLogin, newPassword, salt, now);
    }

    /** `isEnabled` is the stored setting, absent when the settings were never initialised. */
    method ResetAdminPassword(isEnabled: Option<bool>, defaultPassword: Password, salt: nat, now: int) returns (r: Result<(), UserError>)
      modifies repository
      ensures Outcome(repository.userStore, r) == ResetAdmin(old(repository.userStore), isEnabled, defaultPassword, salt, now)
    {
      if isEnabled.None? {
        return Err(NotInitialized);
      }
      if !isEnabled.value {
        return Err(Forbidden);
      }
      r := UpdateUserPassword(ADMIN_USER_NAME, defaultPassword, salt, now);
    }

    method UpdateUserPassword(userLogin: string, newPassword: Password, salt: nat, now: int) returns (r: Result<(), UserError>)
      modifies repository
      ensures Outcome(repository.userStore, r) == SetPassword(old(repository.userStore), userLogin, newPassword, salt, now)
    {
      var passwordHash := HashPassword(newPassword, salt);
      r := repository.Update(userLogin, UpdateUserData(Some(passwordHash), None, None), now);
    }
  }

  function Authenticated(store: Store, login: string, password: Password): Result<UserData, UserError>
  {
    if login in store && ComparePasswords(password, store[login].passwordHash) then Ok(store[login]) else Err(Unauthorized)
  }

  function LoginUser(store: Store, login: string, password: Password): Result<AccessTokenPayload, UserError>
  {
    match Authenticated(store, login, password)
    case Ok(user) => Ok(AccessTokenPayload(login, user.roles, user.modified))
    case Err(e) => Err(e)
  }

  function SetPassword(store: Store, login: string, password: Password, salt: nat, now: int): Outcome
  {
    StoreUpdate(store, login, UpdateUserData(Some(HashPassword(password, salt)), None, None), now)
  }

  function ChangePassword(store: Store, login: string, current: Password, new_: Password, salt: nat, now: int): Outcome
  {
    match Authenticated(store, login, current)
    case Ok(_) => SetPassword(store, login, new_, salt, now)
    case Err(e) => Outcome(store, Err(e))
  }

  function ResetAdmin(store: Store, isEnabled: Option<bool>, defaultPassword: Password, salt: nat, now: int): Outcome
  {
    if isEnabled.None? then Outcome(store, Err(NotInitialized))
    else if !isEnabled.value then Outcome(store, Err(Forbidden))
    else SetPassword(store, ADMIN_USER_NAME, defaultPassword, salt, now)
  }

  /** A successful password change reaches the hash and the stamp of that user, and nothing else in the store. */
  lemma PasswordChangeKeepsTheRest(store: Store, login: string, current: Password, new_: Password, salt: nat, now: int, other: string)
    ensures var o := ChangePassword(store, login, current, new_, salt, now);
            && (o.result.Ok? <==> login in store && ComparePasswords(current, store[login].passwordHash))
            && (o.result.Ok? ==>
                  && login in o.store
                  && var before, after := store[login], o.store[login];
                  && ComparePasswords(new_, after.passwordHash) && after.modified == now
                  && after.roles == before.roles && after.description == before.description
                  && after.login == before.login && after.created == before.created)
            && (other != login ==> Found(o.store, other) == Found(store, other))
  {
    UpdateChangesFields(store, login, UpdateUserData(Some(HashPassword(new_, salt)), None, None), now);
    ReadsAfterCalls(store, login, other, CreateUserData(HashPassword(new_, salt), None, []), UpdateUserData(Some(HashPassword(new_, salt)), None, None), now);
  }

  /** The token of a login says who logged in, with the roles and the stamp stored then. */
  lemma LoginSays(store: Store, login: string, password: Password)
    ensures var r := LoginUser(store, login, password);
            && (r.Ok? <==> login in store && ComparePasswords(password, store[login].passwordHash))
            && (r.Ok? ==> r.value.sub == login && r.value.roles == store[login].roles && r.value.modified == store[login].modified)
            && (r.Err? ==> r.error == Unauthorized)
  {
  }
}
