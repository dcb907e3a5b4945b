/** User management on top of the repository; the admin login is reserved. */
module UserService {
  import opened Wrappers
  import opened UserRepository

  const ADMIN_USER_NAME := "admin"

  function AdminData(defaultPassword: Password, salt: nat): CreateUserData
  {
    CreateUserData(HashPassword(defaultPassword, salt), Some("The default admin user"), [Admin])
  }

  class Service {
    const repository: Repository

    constructor (repository: Repository)
      ensures this.repository == repository
    {
      this.repository := repository;
    }

    /** Every user without its hash. Nothing that existed before is modified, the store included. */
    method GetAllUsers() returns (users: seq<UserRecord>, ghost keys: seq<string>)
      ensures |keys| == |users| && forall k :: k in keys <==> k in repository.userStore
      ensures forall i :: 0 <= i < |users| ==>
        fresh(users[i]) && keys[i] in repository.userStore && users[i].Shows(repository.userStore[keys[i]]) && users[i].passwordHash.None?
    {
      users, keys := repository.GetAll();
      for n := 0 to |users|
        invariant forall i :: 0 <= i < |users| ==> fresh(users[i]) && users[i].Shows(repository.userStore[keys[i]])
        invariant forall i :: 0 <= i < n ==> users[i].passwordHash.None?
      {
        users[n].passwordHash := None;
      }
    }

    method Create(login: string, password: Password, roles: seq<Role>, description: Option<string>, salt: nat, now: int)
      returns (r: Result<(), UserError>)
      modifies repository
      ensures Outcome(repository.userStore, r) == CreateUser(old(repository.userStore), login, password, roles, description, salt, now)
    {
      if login == ADMIN_USER_NAME {
        return Err(Forbidden);
      }
      var passwordHash := HashPassword(password, salt);
      r := repository.Create(login, CreateUserData(passwordHash, description, roles), now);
    }

    method Update(login: Option<string>, roles: Option<seq<Role>>, description: Option<string>, now: int) returns (r: Result<(), UserError>)
      modifies repository
      ensures Outcome(repository.userStore, r) == UpdateUser(old(repository.userStore), login, roles, description, now)
    {
      if login.None? {
        return Err(BadRequest);
      }
      if login.value == ADMIN_USER_NAME {
        return Err(Forbidden);
      }
      r := repository.Update(login.value, UpdateUserData(None, description, roles), now);
    }

    method Remove(login: string) returns (r: Result<(), UserError>)
      modifies repository
      ensures Outcome(repository.userStore, r) == RemoveUser(old(repository.userStore), login)
    {
      if login == ADMIN_USER_NAME {
        return Err(Forbidden);
      }
      r := repository.Remove(login);
    }

    method CreateAdmin(defaultPassword: Password, salt: nat, now: int) returns (r: Result<(), UserError>)
      modifies repository
      ensures Outcome(repository.userStore, r) == CreateAdminUser(old(repository.userStore), defaultPassword, salt, now)
    {
      r := repository.Create(ADMIN_USER_NAME, AdminData(defaultPassword, salt), now);
    }
  }

  function CreateUser(store: Store, login: string, password: Password, roles: seq<Role>, description: Option<string>, salt: nat, now: int): Outcome
  {
    if login == ADMIN_USER_NAME then Outcome(store, Err(Forbidden))
    else StoreCreate(store, login, CreateUserData(HashPassword(password, salt), description, roles), now)
  }

  function UpdateUser(store: Store, login: Option<string>, roles: Option<seq<Role>>, description: Option<string>, now: int): Outcome
  {
    if login.None? then Outcome(store, Err(BadRequest))
    else if login.value == ADMIN_USER_NAME then Outcome(store, Err(Forbidden))
    else StoreUpdate(store, login.value, UpdateUserData(None, description, roles), now)
  }

  function RemoveUser(store: Store, login: string): Outcome
  {
    if login == ADMIN_USER_NAME then Outcome(store, Err(Forbidden)) else StoreRemove(store, login)
  }

  function CreateAdminUser(store: Store, defaultPassword: Password, salt: nat, now: int): Outcome
  {
    StoreCreate(store, ADMIN_USER_NAME, AdminData(defaultPassword, salt), now)
  }

  // ------------------------------------------------------------------ what the calls leave in a record

  /** A successful update gives the roles and the description that were given, keeps those that were not, and keeps the password. */
  lemma UpdatedUserHas(store: Store, login: string, roles: Option<seq<Role>>, description: Option<string>, now: int)
    ensures var o := UpdateUser(store, Some(login), roles, description, now);
            && (o.result.Ok? <==> login != "admin" && login in store)
            && (o.result.Ok? ==>
                  && login in o.store
                  && var before, after := store[login], o.store[login];
                  && after.roles == (match roles case Some(given) => given case None => before.roles)
                  && after.description == (match description case Some(given) => Some(given) case None => before.description)
                  && after.passwordHash == before.passwordHash && after.login == before.login
                  && after.created == before.created && after.modified == now)
  {
    UpdateChangesFields(store, login, UpdateUserData(None, description, roles), now);
  }

  /** A successful creation gives exactly the roles and the description that were given. */
  lemma CreatedUserHas(store: Store, login: string, password: Password, roles: seq<Role>, description: Option<string>, salt: nat, now: int)
    ensures var o := CreateUser(store, login, password, roles, description, salt, now);
            && (o.result.Ok? <==> login != "admin" && login !in store)
            && (o.result.Ok? ==>
                  && login in o.store
                  && var after := o.store[login];
                  && after.roles == roles && after.description == description && ComparePasswords(password, after.passwordHash)
                  && after.login == login && after.created == now && after.modified == now)
  {
    CreateSetsFields(store, login, CreateUserData(HashPassword(password, salt), description, roles), now);
  }

  /** The admin is created with the admin role alone. */
  lemma CreatedAdminHas(store: Store, defaultPassword: Password, salt: nat, now: int)
    ensures var o := CreateAdminUser(store, defaultPassword, salt, now);
            && (o.result.Ok? <==> "admin" !in store)
            && (o.result.Ok? ==>
                  && "admin" in o.store
                  && var after := o.store["admin"];
                  && after.roles == [Admin] && after.description == Some("The default admin user")
                  && ComparePasswords(defaultPassword, after.passwordHash) && after.login == "admin" && after.created == now && after.modified == now)
  {
    CreateSetsFields(store, "admin", AdminData(defaultPassword, salt), now);
  }
}
