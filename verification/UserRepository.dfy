/** The user store: records keyed by login, with an ideal password hash. */
module UserRepository {
  import opened Wrappers

  newtype byte = x: int | 0 <= x < 256

  type Password = seq<byte>

  /** bcrypt reads 72 bytes of a password and ignores the rest. */
  const BCRYPT_LIMIT := 72

  function Effective(p: Password): Password
  {
    if |p| <= BCRYPT_LIMIT then p else p[..BCRYPT_LIMIT]
  }

  datatype Hash = Hash(password: Password, salt: nat)

  function HashPassword(plain: Password, salt: nat): Hash
  {
    Hash(Effective(plain), salt)
  }

  predicate ComparePasswords(plain: Password, hash: Hash)
  {
    Effective(plain) == hash.password
  }

  datatype Role = Admin | User | ReadOnly

  datatype UserData = UserData(
    login: string,
    passwordHash: Hash,
    description: Option<string>,
    roles: seq<Role>,
    created: int,
    modified: int)

  datatype CreateUserData = CreateUserData(passwordHash: Hash, description: Option<string>, roles: seq<Role>)

  datatype UpdateUserData = UpdateUserData(
    passwordHash: Option<Hash>,
    description: Option<string>,
    roles: Option<seq<Role>>)

  type Store = map<string, UserData>

  datatype UserError = AlreadyExists | UnknownUser | Forbidden | BadRequest | Unauthorized | NotInitialized

  function GetOr<T>(o: Option<T>, default: T): T
  {
    if o.Some? then o.value else default
  }

  function NewRecord(login: string, data: CreateUserData, now: int): UserData
  {
    UserData(login, data.passwordHash, data.description, data.roles, now, now)
  }

  /** The spread of the stored record, the changes and the new timestamp. */
  function Merged(user: UserData, data: UpdateUserData, now: int): UserData
  {
    UserData(user.login,
             GetOr(data.passwordHash, user.passwordHash),
             if data.description.Some? then data.description else user.description,
             GetOr(data.roles, user.roles),
             user.created,
             now)
  }

  /** A record read from the store: its own object, whose fields the reader may delete. */
  class UserRecord {
    var login: string
    var passwordHash: Option<Hash>
    var description: Option<string>
    var roles: seq<Role>
    var created: int
    var modified: int

    constructor (data: UserData)
      ensures Shows(data) && passwordHash == Some(data.passwordHash)
    {
      login, passwordHash, description := data.login, Some(data.passwordHash), data.description;
      roles, created, modified := data.roles, data.created, data.modified;
    }

    /** Everything but the hash is as stored. */
    ghost predicate Shows(data: UserData)
      reads this
    {
      login == data.login && description == data.description && roles == data.roles
      && created == data.created && modified == data.modified
    }
  }

  class Repository {
    var userStore: Store

    constructor (store: Store)
      ensures userStore == store
    {
      userStore := store;
    }

    method GetByLogin(userLogin: string) returns (user: Option<UserData>)
      ensures user.Some? <==> userLogin in userStore
      ensures user.Some? ==> user == Found(userStore, userLogin)
    {
      user := if userLogin in userStore then Some(userStore[userLogin]) else None;
    }

    /** One new object per stored user; the store is not cached, so no object is shared. */
    method GetAll() returns (users: seq<UserRecord>, ghost keys: seq<string>)
      ensures |keys| == |users| && forall k :: k in keys <==> k in userStore
      ensures forall i, j :: 0 <= i < j < |users| ==> users[i] != users[j] && keys[i] != keys[j]
      ensures forall i :: 0 <= i < |users| ==>
        fresh(users[i]) && keys[i] in userStore && users[i].Shows(userStore[keys[i]]) && users[i].passwordHash == Some(userStore[keys[i]].passwordHash)
    {
      users, keys := [], [];
      var left := userStore.Keys;
      while left != {}
        invariant left <= userStore.Keys && |keys| == |users|
        invariant forall k :: k in userStore <==> k in keys || k in left
        invariant forall k :: k in keys ==> k !in left
        invariant forall i, j :: 0 <= i < j < |users| ==> users[i] != users[j] && keys[i] != keys[j]
        invariant forall i :: 0 <= i < |users| ==>
          fresh(users[i]) && keys[i] in userStore && users[i].Shows(userStore[keys[i]]) && users[i].passwordHash == Some(userStore[keys[i]].passwordHash)
        decreases left
      {
        var key :| key in left;
        var record := new UserRecord(userStore[key]);
        users, keys := users + [record], keys + [key];
        left := left - {key};
      }
    }

    method Create(userLogin: string, data: CreateUserData, now: int) returns (r: Result<(), UserError>)
      modifies this
      ensures Outcome(userStore, r) == StoreCreate(old(userStore), userLogin, data, now)
    {
      if userLogin in userStore {
        return Err(AlreadyExists);
      }
      userStore := userStore[userLogin := NewRecord(userLogin, data, now)];
      r := Ok(());
    }

    method Update(userLogin: string, data: UpdateUserData, now: int) returns (r: Result<(), UserError>)
      modifies this
      ensures Outcome(userStore, r) == StoreUpdate(old(userStore), userLogin, data, now)
    {
      var user := GetByLogin(userLogin);
      if user.None? {
        return Err(UnknownUser);
      }
      userStore := userStore[userLogin := Merged(user.value, data, now)];
      r := Ok(());
    }

    method Remove(userLogin: string) returns (r: Result<(), UserError>)
      modifies this
      ensures Outcome(userStore, r) == StoreRemove(old(userStore), userLogin)
    {
      if userLogin !in userStore {
        return Err(UnknownUser);
      }
      userStore := userStore - {userLogin};
      r := Ok(());
    }
  }

  /** The store after a call, and what the call answered. */
  datatype Outcome = Outcome(store: Store, result: Result<(), UserError>)

  function StoreCreate(store: Store, login: string, data: CreateUserData, now: int): Outcome
  {
    if login in store then Outcome(store, Err(AlreadyExists))
    else Outcome(store[login := NewRecord(login, data, now)], Ok(()))
  }

  function StoreUpdate(store: Store, login: string, data: UpdateUserData, now: int): Outcome
  {
    if login !in store then Outcome(store, Err(UnknownUser))
    else Outcome(store[login := Merged(store[login], data, now)], Ok(()))
  }

  function StoreRemove(store: Store, login: string): Outcome
  {
    if login !in store then Outcome(store, Err(UnknownUser))
    else Outcome(store - {login}, Ok(()))
  }

  function Found(store: Store, login: string): Option<UserData>
  {
    if login in store then Some(store[login]) else None
  }

  /**
   * What a read finds after a call. A call reaches the record of its login only: it adds that record
   * if there was none, keeps the login and creation time of one that was there, or takes it away, and
   * fails exactly when it changes nothing.
   */
  lemma ReadsAfterCalls(store: Store, login: string, read: string, data: CreateUserData, changes: UpdateUserData, now: int)
    ensures var before := Found(store, read);
            var created, updated, removed := StoreCreate(store, login, data, now), StoreUpdate(store, login, changes, now), StoreRemove(store, login);
            && (read != login ==> Found(created.store, read) == Found(updated.store, read) == Found(removed.store, read) == before)
            && (read == login && before.Some? ==>
                  && created == Outcome(store, Err(AlreadyExists))
                  && updated.result.Ok? && removed.result.Ok? && Found(removed.store, read).None?
                  && var after := Found(updated.store, read);
                  && after.Some? && after.value.login == before.value.login && after.value.created == before.value.created
                  && after.value.modified == now
                  && (changes.passwordHash.None? ==> after.value.passwordHash == before.value.passwordHash))
            && (read == login && before.None? ==>
                  && updated == Outcome(store, Err(UnknownUser)) && removed == Outcome(store, Err(UnknownUser))
                  && created.result.Ok? && Found(created.store, read).Some?
                  && Found(created.store, read).value.login == login && Found(created.store, read).value.created == Found(created.store, read).value.modified == now)
  {
  }

  /** What an update leaves in each field: the given value, or the one that was there. */
  lemma UpdateChangesFields(store: Store, login: string, changes: UpdateUserData, now: int)
    ensures var o := StoreUpdate(store, login, changes, now);
            o.result.Ok? ==>
              && login in store && login in o.store
              && var before, after := store[login], o.store[login];
              && after.roles == (match changes.roles case Some(roles) => roles case None => before.roles)
              && after.description == (match changes.description case Some(d) => Some(d) case None => before.description)
              && after.passwordHash == (match changes.passwordHash case Some(h) => h case None => before.passwordHash)
              && after.login == before.login && after.created == before.created && after.modified == now
  {
  }

  /** What a creation leaves in each field: what was given. */
  lemma CreateSetsFields(store: Store, login: string, data: CreateUserData, now: int)
    ensures var o := StoreCreate(store, login, data, now);
            o.result.Ok? ==>
              && login !in store && login in o.store
              && var after := o.store[login];
              && after.roles == data.roles && after.description == data.description && after.passwordHash == data.passwordHash
              && after.login == login && after.created == now && after.modified == now
  {
  }
}
