/**
 * The same services with calls overlapping: each call is stopped at its awaits, so a call may write
 * a record it read long ago. A step is one stretch of code between two awaits, or the commit of a
 * queued write; a run is any sequence of steps.
 */
module UserInterleaving {
  import opened Wrappers
  import opened UserRepository
  import opened UserService
  import P = PasswordRefinement

  datatype Operation =
    | Create(login: string, passwordHash: Hash, roles: seq<Role>, description: Option<string>)
    | CreateAdmin(passwordHash: Hash)
    | Update(login: string, newRoles: Option<seq<Role>>, newDescription: Option<string>)
    | Remove(login: string)
    | UpdatePassword(login: string, current: Password, passwordHash: Hash)
    | ResetAdminPassword(passwordHash: Hash)

  /** Where a call is stopped. `Loaded` and `Writing` hold what was read earlier. */
  datatype Flight =
    | Hashed(login: string, data: CreateUserData)
    | Verifying(login: string, current: Password, passwordHash: Hash)
    | Loading(login: string, changes: UpdateUserData)
    | Loaded(login: string, snapshot: UserData, changes: UpdateUserData)
    | Writing(login: string, record: UserData)
    | Checking(login: string)
    | Removing(login: string)
    | Ended

  datatype State = State(store: Store, flights: map<nat, Flight>, clock: int)

  datatype Label = Begin(id: nat, op: Operation) | Continue(id: nat) | SetClock(time: int)

  function OnlyHash(h: Hash): UpdateUserData
  {
    UpdateUserData(Some(h), None, None)
  }

  /** The guards of the service, up to the first await. */
  function Started(op: Operation): Flight
  {
    match op
    case Create(login, h, roles, description) =>
      if login == ADMIN_USER_NAME then Ended else Hashed(login, CreateUserData(h, description, roles))
    case CreateAdmin(h) => Hashed(ADMIN_USER_NAME, CreateUserData(h, Some("The default admin user"), [Admin]))
    case Update(login, roles, description) =>
      if login == ADMIN_USER_NAME then Ended else Loading(login, UpdateUserData(None, description, roles))
    case Remove(login) => if login == ADMIN_USER_NAME then Ended else Checking(login)
    case UpdatePassword(login, current, h) => Verifying(login, current, h)
    case ResetAdminPassword(h) => Loading(ADMIN_USER_NAME, OnlyHash(h))
  }

  /** One stretch of a call: it reads the store and the clock as they are now. */
  function Continued(f: Flight, store: Store, clock: int): Flight
  {
    match f
    case Hashed(login, data) => if login in store then Ended else Writing(login, NewRecord(login, data, clock))
    case Verifying(login, current, h) =>
      if login in store && ComparePasswords(current, store[login].passwordHash) then Loading(login, OnlyHash(h)) else Ended
    case Loading(login, changes) => if login in store then Loaded(login, store[login], changes) else Ended
    case Loaded(login, snapshot, changes) => Writing(login, Merged(snapshot, changes, clock))
    case Checking(login) => if login in store then Removing(login) else Ended
    case _ => Ended
  }

  /** A queued put or delete reaches the store whole. */
  function Committed(f: Flight, store: Store): Store
  {
    match f
    case Writing(login, record) => store[login := record]
    case Removing(login) => store - {login}
    case _ => store
  }

  function Next(s: State, l: Label): State
  {
    match l
    case Begin(id, op) => if id in s.flights then s else s.(flights := s.flights[id := Started(op)])
    case Continue(id) =>
      if id !in s.flights then s
      else State(Committed(s.flights[id], s.store), s.flights[id := Continued(s.flights[id], s.store, s.clock)], s.clock)
    case SetClock(time) => s.(clock := time)
  }

  function Exec(s: State, ls: seq<Label>): State
  {
    if ls == [] then s else Next(Exec(s, ls[..|ls| - 1]), ls[|ls| - 1])
  }

  // ------------------------------------------------------------------ what survives any interleaving

  predicate RecordOk(login: string, record: UserData)
  {
    record.login == login && (login == ADMIN_USER_NAME ==> record.roles == [Admin])
  }

  /** The invariant carried over what a stopped call read, however stale. */
  predicate FlightOk(f: Flight)
  {
    match f
    case Hashed(login, data) => login == ADMIN_USER_NAME ==> data.roles == [Admin]
    case Loading(login, changes) => login == ADMIN_USER_NAME ==> changes.roles.None?
    case Loaded(login, snapshot, changes) => RecordOk(login, snapshot) && (login == ADMIN_USER_NAME ==> changes.roles.None?)
    case Writing(login, record) => RecordOk(login, record)
    case Checking(login) => login != ADMIN_USER_NAME
    case Removing(login) => login != ADMIN_USER_NAME
    case _ => true
  }

  ghost predicate Inv(s: State)
  {
    && (forall login :: login in s.store ==> RecordOk(login, s.store[login]))
    && (forall id :: id in s.flights ==> FlightOk(s.flights[id]))
  }

  lemma StepKeepsInv(s: State, l: Label)
    requires Inv(s)
    ensures Inv(Next(s, l))
    ensures ADMIN_USER_NAME in s.store ==> ADMIN_USER_NAME in Next(s, l).store
  {
  }

  /**
   * Main result. Under every interleaving each stored record carries the login it is stored under, and
   * the admin, once there at any point of the run, is there at every later one with the admin role alone.
   */
  lemma {:induction false} EveryInterleavingKeepsInv(s: State, ls: seq<Label>, n: nat)
    requires Inv(s) && n <= |ls|
    ensures Inv(Exec(s, ls))
    ensures ADMIN_USER_NAME in Exec(s, ls[..n]).store ==>
              && ADMIN_USER_NAME in Exec(s, ls).store
              && Exec(s, ls).store[ADMIN_USER_NAME].roles == [Admin]
    decreases |ls|
  {
    hide Next, Started, Continued, Committed;
    if ls == [] {
      assert ls[..n] == [];
    } else {
      var init := ls[..|ls| - 1];
      var m := if n < |ls| then n else |init|;
      EveryInterleavingKeepsInv(s, init, m);
      StepKeepsInv(Exec(s, init), ls[|ls| - 1]);
      assert n < |ls| ==> init[..m] == ls[..n];
      assert ls[..|ls|] == ls;
    }
  }

  // ------------------------------------------------------------------ timestamps

  predicate Stamped(record: UserData, clock: int)
  {
    record.created <= record.modified <= clock
  }

  predicate FlightStamped(f: Flight, clock: int)
  {
    match f
    case Loaded(_, snapshot, _) => Stamped(snapshot, clock)
    case Writing(_, record) => Stamped(record, clock)
    case _ => true
  }

  ghost predicate TimeInv(s: State)
  {
    && (forall login :: login in s.store ==> Stamped(s.store[login], s.clock))
    && (forall id :: id in s.flights ==> FlightStamped(s.flights[id], s.clock))
  }

  predicate ClockGoesOn(s: State, l: Label)
  {
    l.SetClock? ==> s.clock <= l.time
  }

  ghost predicate MonotoneClock(s: State, ls: seq<Label>)
  {
    forall n :: 0 <= n < |ls| ==> ClockGoesOn(Exec(s, ls[..n]), ls[n])
  }

  lemma StepKeepsTimeInv(s: State, l: Label)
    requires TimeInv(s) && ClockGoesOn(s, l)
    ensures TimeInv(Next(s, l))
  {
  }

  /** As long as the clock is never set back, no record is modified before it is created. */
  lemma {:induction false} MonotoneClockKeepsOrder(s: State, ls: seq<Label>)
    requires TimeInv(s) && MonotoneClock(s, ls)
    ensures TimeInv(Exec(s, ls))
    decreases |ls|
  {
    hide Next, ClockGoesOn;
    if ls != [] {
      var init := ls[..|ls| - 1];
      assert forall n :: 0 <= n < |init| ==> init[..n] == ls[..n] && init[n] == ls[n];
      MonotoneClockKeepsOrder(s, init);
      assert ClockGoesOn(Exec(s, ls[..|init|]), ls[|init|]);
      StepKeepsTimeInv(Exec(s, init), ls[|ls| - 1]);
    }
  }

  predicate Ordered(record: UserData)
  {
    record.created <= record.modified
  }

  predicate FlightOrdered(f: Flight)
  {
    match f
    case Loaded(_, snapshot, _) => Ordered(snapshot)
    case Writing(_, record) => Ordered(record)
    case _ => true
  }

  /** Every record is in order: those stored, those read, and those about to be written. */
  ghost predicate InOrder(s: State)
  {
    && (forall login :: login in s.store ==> Ordered(s.store[login]))
    && (forall id :: id in s.flights ==> FlightOrdered(s.flights[id]))
  }

  ghost predicate AlwaysInOrder(s: State, ls: seq<Label>)
  {
    forall n :: 0 <= n <= |ls| ==> InOrder(Exec(s, ls[..n]))
  }

  /** An edit is stamped no earlier than its record was created. */
  predicate StampsLate(s: State, l: Label)
  {
    l.Continue? && l.id in s.flights && s.flights[l.id].Loaded? ==> s.flights[l.id].snapshot.created <= s.clock
  }

  ghost predicate AllStampLate(s: State, ls: seq<Label>)
  {
    forall n :: 0 <= n < |ls| ==> StampsLate(Exec(s, ls[..n]), ls[n])
  }

  lemma StepInOrderIff(s: State, l: Label)
    requires InOrder(s)
    ensures InOrder(Next(s, l)) <==> StampsLate(s, l)
  {
    if !StampsLate(s, l) {
      assert Next(s, l).flights[l.id] == Continued(s.flights[l.id], s.store, s.clock);
      assert !FlightOrdered(Next(s, l).flights[l.id]);
    }
  }

  /**
   * From records in order, under any interleaving and any clock, every record is in order at every
   * point of the run if and only if each edit is stamped at a clock not below its record's creation.
   */
  lemma {:induction false} AlwaysInOrderIff(s: State, ls: seq<Label>)
    requires InOrder(s)
    ensures AlwaysInOrder(s, ls) <==> AllStampLate(s, ls)
    decreases |ls|
  {
    hide Next, InOrder, StampsLate;
    if ls == [] {
      assert forall n :: n == 0 ==> ls[..n] == [];
    } else {
      var init, l := ls[..|ls| - 1], ls[|ls| - 1];
      AlwaysInOrderIff(s, init);
      assert ls == init + [l];
      PrefixesSplit(s, init, l);
      if InOrder(Exec(s, init)) { StepInOrderIff(Exec(s, init), l); }
    }
  }

  lemma PrefixesSplit(s: State, init: seq<Label>, l: Label)
    ensures AlwaysInOrder(s, init + [l]) <==> AlwaysInOrder(s, init) && InOrder(Exec(s, init + [l]))
    ensures AllStampLate(s, init + [l]) <==> AllStampLate(s, init) && StampsLate(Exec(s, init), l)
    ensures AlwaysInOrder(s, init) ==> InOrder(Exec(s, init))
  {
    hide Exec, InOrder, StampsLate;
    var ls := init + [l];
    assert forall n :: 0 <= n <= |init| ==> init[..n] == ls[..n];
    assert ls[..|ls|] == ls && ls[..|init|] == init && init[..|init|] == init && ls[|init|] == l;
  }

  /** A user is created, the clock is set back (which this API offers), and the user is edited. */
  function ClockSetBack(login: string, h: Hash, earlier: int): seq<Label>
  {
    [Begin(0, Create(login, h, [User], None)), Continue(0), Continue(0), SetClock(earlier),
     Begin(1, Update(login, None, None)), Continue(1), Continue(1), Continue(1)]
  }

  lemma ModifiedBeforeCreated(login: string, h: Hash, time: int, earlier: int)
    requires login != ADMIN_USER_NAME && earlier < time
    ensures var after := Exec(State(map[], map[], time), ClockSetBack(login, h, earlier)).store;
            login in after && after[login].created == time && after[login].modified == earlier
  {
    var s := State(map[], map[], time);
    var ls := ClockSetBack(login, h, earlier);
    var record := NewRecord(login, CreateUserData(h, None, [User]), time);
    var changes := UpdateUserData(None, None, None);
    TwoSteps(s, ls[0], ls[1]);
    MoreSteps(s, ls, 3);
    MoreSteps(s, ls, 5);
    MoreSteps(s, ls, 7);
    hide Exec;
    var created := State(map[login := record], map[0 := Ended], earlier);
    var read := created.(flights := map[0 := Ended, 1 := Loaded(login, record, changes)]);
    assert Next(Next(s, ls[0]), ls[1]) == State(map[], map[0 := Writing(login, record)], time);
    assert Exec(s, ls[..4]) == created;
    assert Next(Next(created, ls[4]), ls[5]) == read;
    assert Exec(s, ls[..6]) == read;
    var written := Merged(record, changes, earlier);
    assert Next(read, ls[6]) == created.(flights := map[0 := Ended, 1 := Writing(login, written)]);
  }

  /** The prefix of length n + 1, two steps after the one of length n - 1. */
  lemma MoreSteps(s: State, ls: seq<Label>, n: nat)
    requires 0 < n < |ls|
    ensures Exec(s, ls[..n + 1]) == Next(Next(Exec(s, ls[..n - 1]), ls[n - 1]), ls[n])
    ensures ls[..|ls|] == ls && (|ls| >= 2 ==> ls[..2] == [ls[0], ls[1]])
  {
    hide Next;
    assert ls[..n + 1][..n] == ls[..n] && ls[..n][..n - 1] == ls[..n - 1];
  }

  // ------------------------------------------------------------------ a call on its own

  /** The operation a sequential call starts, if it gets past its settings check. */
  function OperationOf(c: P.Call): Option<Operation>
  {
    match c.op
    case Create(login, password, roles, description) => Some(Create(login, HashPassword(password, c.salt), roles, description))
    case CreateAdmin(password) => Some(CreateAdmin(HashPassword(password, c.salt)))
    case Update(who, roles, description) => if who.Some? then Some(Update(who.value, roles, description)) else None
    case Remove(login) => Some(Remove(login))
    case UpdatePassword(login, current, password) => Some(UpdatePassword(login, current, HashPassword(password, c.salt)))
    case ResetAdminPassword(isEnabled, password) =>
      if isEnabled == Some(true) then Some(ResetAdminPassword(HashPassword(password, c.salt))) else None
    case GetAllUsers => None
  }

  function ContinueTimes(s: State, id: nat, k: nat): State
  {
    if k == 0 then s else Next(ContinueTimes(s, id, k - 1), Continue(id))
  }

  /** A call nobody overlaps ends within four steps, with the store the sequential service leaves. */
  lemma AloneIsSequential(s: State, id: nat, c: P.Call)
    requires id !in s.flights && OperationOf(c).Some? && c.now == s.clock
    ensures var end := ContinueTimes(Next(s, Begin(id, OperationOf(c).value)), id, 4);
            end.store == P.Exec(s.store, c).store && id in end.flights && end.flights[id] == Ended
  {
    var f0 := Started(OperationOf(c).value);
    var f1, t1 := Continued(f0, s.store, s.clock), Committed(f0, s.store);
    var f2, t2 := Continued(f1, t1, s.clock), Committed(f1, t1);
    var f3, t3 := Continued(f2, t2, s.clock), Committed(f2, t2);
    var f4, t4 := Continued(f3, t3, s.clock), Committed(f3, t3);
    assert t4 == P.Exec(s.store, c).store && f4 == Ended;
    hide Started, Continued, Committed, P.Exec;
    var begun := Next(s, Begin(id, OperationOf(c).value));
    var s1, s2, s3 := ContinueTimes(begun, id, 1), ContinueTimes(begun, id, 2), ContinueTimes(begun, id, 3);
    assert s1 == Next(ContinueTimes(begun, id, 0), Continue(id)) && s2 == Next(s1, Continue(id)) && s3 == Next(s2, Continue(id));
    assert s1.store == t1 && s1.flights[id] == f1;
    assert s2.store == t2 && s2.flights[id] == f2;
    assert s3.store == t3 && s3.flights[id] == f3;
  }

  // ------------------------------------------------------------------ what does not survive

  lemma TwoSteps(s: State, a: Label, b: Label)
    ensures Exec(s, [a, b]) == Next(Next(s, a), b)
  {
    hide Next;
    assert [a, b][..1] == [a] && [a][..0] == [];
    assert Exec(s, [a]) == Next(Exec(s, []), a);
  }

  /** An edit of roles or description that was read before a password change puts the old password back. */
  lemma StaleEditRevertsPassword(s: State, edit: nat, change: nat)
    requires edit in s.flights && change in s.flights
    requires s.flights[edit].Loaded? && s.flights[edit].changes.passwordHash.None?
    requires s.flights[change].Writing? && s.flights[change].login == s.flights[edit].login
    ensures var login := s.flights[edit].login;
            var changed := Next(s, Continue(change)).store;
            var after := Exec(s, [Continue(change), Continue(edit), Continue(edit)]).store;
            && login in changed && changed[login].passwordHash == s.flights[change].record.passwordHash
            && login in after && after[login].passwordHash == s.flights[edit].snapshot.passwordHash
  {
    var ls := [Continue(change), Continue(edit), Continue(edit)];
    MoreSteps(s, ls, 2);
    assert Exec(s, ls[..1]) == Next(s, ls[0]) by { assert ls[..1][..0] == []; }
    hide Exec;
  }

  /** A write queued before a removal is committed brings the removed user back. */
  lemma QueuedWriteResurrects(s: State, edit: nat, removal: nat)
    requires edit in s.flights && removal in s.flights
    requires s.flights[edit].Writing? && s.flights[removal].Removing? && s.flights[edit].login == s.flights[removal].login
    ensures s.flights[edit].login !in Next(s, Continue(removal)).store
    ensures var after := Exec(s, [Continue(removal), Continue(edit)]).store;
            s.flights[edit].login in after && after[s.flights[edit].login] == s.flights[edit].record
  {
    TwoSteps(s, Continue(removal), Continue(edit));
  }
}
