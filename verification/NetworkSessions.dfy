/**
 * Any sequence of calls of the service, with timeouts and outside changes between them, is a run of
 * the protocol in which each request writes and reads under its own checkpoint. So what is proved of
 * such runs holds of the service.
 */
module NetworkSessions {
  import opened Wrappers
  import opened ConnectionSettingsAdapter
  import opened NetworkManager
  import opened NetworkTransactions
  import opened TransactionRefinement
  import opened EffectRefinement
  import opened SerialRefinement
  import opened NetworkSettingsService

  function AfterCalls(x: Session, calls: seq<Call>): Session
  {
    if calls == [] then x else AfterCall(AfterCalls(x, calls[..|calls| - 1]), calls[|calls| - 1])
  }

  // ------------------------------------------------------------------ sessions as runs

  /** This pending request is what that re-apply waits for. */
  ghost predicate IsPending(s: State, r: nat, job: Deferred)
  {
    && r in s.requests && s.requests[r].stage.Scheduled?
    && job == Deferred(s.requests[r].device, s.requests[r].stage.settings, s.requests[r].stage.version)
  }

  /** The requests behind the waiting re-applies, in order, among the first `used` numbers. */
  ghost predicate Represents(s: State, x: Session, waiting: seq<nat>, used: nat)
  {
    && s.nm == x.manager && |waiting| == |x.immediates|
    && (forall r :: r in s.requests ==> r < used)
    && (forall i :: 0 <= i < |waiting| ==> IsPending(s, waiting[i], x.immediates[i]))
    && (forall i, j :: 0 <= i < j < |waiting| ==> waiting[i] != waiting[j])
  }

  /** The run leads from one state to the other, as OwnRun says, each checkpoint created over what its request edited. */
  ghost predicate Reaches(s: State, run: seq<Label>, t: State)
  {
    OwnRun(s, run, t) && AllBuildOn(s, run)
  }

  lemma Stays(s: State)
    ensures Reaches(s, [], s)
  {
  }

  lemma Grows(s: State, run: seq<Label>, t: State, l: Label)
    requires Reaches(s, run, t) && OwnStep(t, l) && BuildsOn(t, l)
    ensures Reaches(s, run + [l], Next(t, l))
  {
    hide Next, OwnStep, BuildsOn;
    OwnRunGrows(s, run, t, l);
    CarrySplit(s, run, l);
  }

  lemma Joins(s: State, a: seq<Label>, t: State, b: seq<Label>, u: State)
    requires Reaches(s, a, t) && Reaches(t, b, u)
    ensures Reaches(s, a + b, u)
  {
    hide Next, OwnStep, BuildsOn;
    OwnRunsJoin(s, a, t, b, u);
    forall n | 0 <= n < |a + b| ensures BuildsOn(Exec(s, (a + b)[..n]), (a + b)[n]) {
      if n < |a| {
        assert (a + b)[..n] == a[..n];
      } else {
        assert (a + b)[..n] == a + b[..n - |a|];
        ExecAppend(s, a, b[..n - |a|]);
        assert BuildsOn(Exec(Exec(s, a), b[..n - |a|]), b[n - |a|]);
      }
    }
  }

  /** Where a request stands once it was answered. */
  ghost predicate EndsAs(dev: Option<Device>, q: Request, result: Result<string, Reason>)
  {
    match result
    case Ok(id) => dev.Some? && q.stage == Scheduled(dev.value.profile, id, dev.value.version)
    case Err(reason) => q.stage == FailedBefore(reason) || (q.stage.FailedAfter? && reason == CallFailed)
  }

  /** One update as its request leaves it: ended as it is answered. */
  ghost predicate AnswersIn(s: State, r: nat, c: Call, t: State)
    requires c.Submit?
  {
    var a := Answer(s.nm, c.device, c.ipv4, c.ipv6, c.rejected);
    && t.nm == a.manager && r in t.requests
    && t.requests == s.requests[r := t.requests[r]]
    && t.requests[r].device == c.device
    && EndsAs(DeviceAt(t, c.device), t.requests[r], a.result)
  }

  /** The state with one request where it stands. */
  function With(s: State, r: nat, c: Call, stage: Stage): State
    requires c.Submit?
  {
    s.(requests := s.requests[r := Request(c.device, c.ipv4, c.ipv6, stage)])
  }

  /** Where a request stands before its checkpoint. */
  function Early(s: State, c: Call): Stage
    requires c.Submit?
  {
    if c.device !in s.nm.devices then FailedBefore(NoDevice)
    else if !s.nm.devices[c.device].isActive then FailedBefore(NotActive)
    else
      match EditedConnection(s.nm.devices[c.device].profile, c.ipv4, c.ipv6)
      case Ok(settings) => Prepared(settings)
      case Err(reason) => FailedBefore(reason)
  }

  /** The sequential update is the run of its request's own steps. */
  lemma SubmitIsARun(s: State, r: nat, c: Call) returns (run: seq<Label>, t: State)
    requires c.Submit? && r !in s.requests
    ensures Reaches(s, run, t) && AnswersIn(s, r, c, t)
  {
    hide Reaches, EditedConnection, Concluded, AnswersIn;
    run := EditsAs(s, r, c);
    t := With(s, r, c, Early(s, c));
    if Early(s, c).Prepared? {
      var rest, u := PreparedIsARun(t, r, c.rejected);
      Joins(s, run, t, rest, u);
      ConclusionAnswers(s, r, c, u);
      run, t := run + rest, u;
    } else {
      RejectionAnswers(s, r, c);
    }
  }

  lemma EditsAs(s: State, r: nat, c: Call) returns (run: seq<Label>)
    requires c.Submit? && r !in s.requests
    ensures Reaches(s, run, With(s, r, c, Early(s, c)))
  {
    hide Reaches, EditedConnection, Next;
    run := BeginsAs(s, r, c);
    if c.device in s.nm.devices && s.nm.devices[c.device].isActive {
      var resolved := With(s, r, c, Resolved);
      EditStep(resolved, r);
      Grows(s, run, resolved, Advance(r));
      run := run + [Advance(r)];
      assert Next(resolved, Advance(r)) == With(s, r, c, Early(s, c));
    }
  }

  lemma RejectionAnswers(s: State, r: nat, c: Call)
    requires c.Submit? && !Early(s, c).Prepared?
    ensures AnswersIn(s, r, c, With(s, r, c, Early(s, c)))
  {
    hide EditedConnection;
  }

  lemma ConclusionAnswers(s: State, r: nat, c: Call, t: State)
    requires c.Submit? && Early(s, c).Prepared?
    requires t.nm == Concluded(With(s, r, c, Early(s, c)), r, c.rejected).0
    requires t.requests == With(s, r, c, Concluded(With(s, r, c, Early(s, c)), r, c.rejected).1).requests
    ensures AnswersIn(s, r, c, t)
  {
    CheckpointIdRoundTrip(Decimal(s.nm.created));
    hide EditedConnection, CheckpointPath, CheckpointId, Decimal;
  }

  /** A request begins, finds its device and its connection, or fails. */
  lemma BeginsAs(s: State, r: nat, c: Call) returns (run: seq<Label>)
    requires c.Submit? && r !in s.requests
    ensures Reaches(s, run, With(s, r, c,
              if c.device !in s.nm.devices then FailedBefore(NoDevice)
              else if !s.nm.devices[c.device].isActive then FailedBefore(NotActive) else Resolved))
  {
    hide Reaches, Next;
    Stays(s);
    BeginStep(s, r, c.device, c.ipv4, c.ipv6);
    Grows(s, [], s, Begin(r, c.device, c.ipv4, c.ipv6));
    run := [] + [Begin(r, c.device, c.ipv4, c.ipv6)];
    var started, found := With(s, r, c, Started), With(s, r, c, Found);
    StartStep(started, r);
    Grows(s, run, started, Advance(r));
    run := run + [Advance(r)];
    if c.device !in s.nm.devices {
      assert Next(started, Advance(r)) == With(s, r, c, FailedBefore(NoDevice));
      return;
    }
    assert Next(started, Advance(r)) == found;
    FoundStep(found, r);
    Grows(s, run, found, Advance(r));
    run := run + [Advance(r)];
    assert Next(found, Advance(r)) == With(s, r, c, if s.nm.devices[c.device].isActive then Resolved else FailedBefore(NotActive));
  }

  /** What becomes of a prepared request that runs on its own to its answer. */
  function Concluded(s: State, r: nat, rejected: Rejected): (Manager, Stage)
    requires r in s.requests && s.requests[r].stage.Prepared? && s.requests[r].device in s.nm.devices
  {
    var q := s.requests[r];
    var settings, id := q.stage.settings, Decimal(s.nm.created);
    match s.nm.CheckpointCreate(q.device)
    case None => (s.nm, FailedBefore(Refused))
    case Some(made) =>
      match rejected
      case UpdateCall => (made, FailedAfter(settings, id, false))
      case VersionCall => (made.Update(q.device, settings), FailedAfter(settings, id, true))
      case Nothing => (made.Update(q.device, settings), Scheduled(settings, id, s.nm.devices[q.device].version))
  }

  lemma PreparedIsARun(s: State, r: nat, rejected: Rejected) returns (run: seq<Label>, t: State)
    requires r in s.requests && s.requests[r].stage.Prepared? && s.requests[r].device in s.nm.devices
    requires var q := s.requests[r]; EditedConnection(s.nm.devices[q.device].profile, q.ipv4, q.ipv6) == Ok(q.stage.settings)
    ensures Reaches(s, run, t)
    ensures t.nm == Concluded(s, r, rejected).0
    ensures t.requests == s.requests[r := s.requests[r].(stage := Concluded(s, r, rejected).1)]
  {
    hide Next, Reaches, Owns, Manager.CheckpointCreate, Manager.Update, Decimal, EditedConnection;
    Stays(s);
    Grows(s, [], s, Advance(r));
    run, t := [] + [Advance(r)], Next(s, Advance(r));
    PreparedSteps(s, r);
    if s.nm.devices[s.requests[r].device].checkpoint.Some? {
      Refuses(s, r);
      return;
    }
    OwnIsLive(s, r);
    if rejected.UpdateCall? {
      FailStep(t, r);
      Grows(s, run, t, Fail(r));
      run, t := run + [Fail(r)], Next(t, Fail(r));
      return;
    }
    WriteStep(t, r);
    Grows(s, run, t, Advance(r));
    run, t := run + [Advance(r)], Next(t, Advance(r));
    FailStep(t, r);
    ReadVersionStep(t, r);
    var last := if rejected.VersionCall? then Fail(r) else Advance(r);
    Grows(s, run, t, last);
    run, t := run + [last], Next(t, last);
  }

  lemma Refuses(s: State, r: nat)
    requires r in s.requests && s.requests[r].device in s.nm.devices && s.nm.devices[s.requests[r].device].checkpoint.Some?
    ensures s.nm.CheckpointCreate(s.requests[r].device).None?
  {
  }

  /** A request that just made its checkpoint, or wrote under it, owns it. */
  lemma OwnIsLive(s: State, r: nat)
    requires r in s.requests && s.requests[r].stage.Prepared? && s.requests[r].device in s.nm.devices
    requires s.nm.devices[s.requests[r].device].checkpoint.None?
    ensures Owns(Next(s, Advance(r)), r, s.requests[r].device)
    ensures Owns(Next(Next(s, Advance(r)), Advance(r)), r, s.requests[r].device)
    ensures s.nm.CheckpointCreate(s.requests[r].device).Some?
    ensures var d, t := s.requests[r].device, Next(Next(s, Advance(r)), Advance(r));
            d in Next(s, Advance(r)).nm.devices && d in t.nm.devices && t.nm.devices[d].version == s.nm.devices[d].version
  {
    hide Next, CheckpointPath;
    CreateStep(s, r);
    CheckpointIdRoundTrip(Decimal(s.nm.created));
    WriteStep(Next(s, Advance(r)), r);
  }

  lemma PreparedSteps(s: State, r: nat)
    requires r in s.requests && s.requests[r].stage.Prepared? && s.requests[r].device in s.nm.devices
    ensures s.nm.devices[s.requests[r].device].checkpoint.Some? ==> Next(s, Advance(r)) == Move(s, r, FailedBefore(Refused))
    ensures s.nm.devices[s.requests[r].device].checkpoint.None? ==>
      var q := s.requests[r];
      var nm := s.nm.CheckpointCreate(q.device);
      nm.Some? && Next(s, Advance(r)) ==
        State(nm.value, s.requests[r := q.(stage := Guarded(q.stage.settings, Decimal(s.nm.created)))],
              s.log + [CheckpointCreated(r, q.device)])
  {
    if s.nm.devices[s.requests[r].device].checkpoint.None? {
      CreateStep(s, r);
      CheckpointIdRoundTrip(Decimal(s.nm.created));
    }
  }

  // ------------------------------------------------------------------ whole sessions

  /** A session as a run: where it leads, and which requests the waiting re-applies belong to. */
  datatype Trace = Trace(run: seq<Label>, end: State, waiting: seq<nat>, used: nat)

  ghost predicate Follows(s: State, x: Session, trace: Trace)
  {
    Reaches(s, trace.run, trace.end) && Represents(trace.end, x, trace.waiting, trace.used)
  }

  lemma CallIsARun(s: State, x: Session, before: Trace, c: Call) returns (after: Trace)
    requires Follows(s, x, before)
    ensures Follows(s, AfterCall(x, c), after) && before.run <= after.run && before.used <= after.used
  {
    hide Reaches;
    var t := before.end;
    match c {
      case Submit(_, _, _, _) => after := SubmitFollows(s, x, before, c);
      case RunImmediate => after := ImmediateFollows(s, x, before);
      case Confirm(id) =>
        ConfirmSteps(t, id);
        after := One(s, before, Commit(id));
      case TimesOut(d) =>
        TimeoutSteps(t, d);
        after := One(s, before, Timeout(d));
      case Outside(d, settings) =>
        OutsideSteps(t, d, settings);
        after := One(s, before, Activate(d, settings));
    }
  }

  lemma One(s: State, before: Trace, l: Label) returns (after: Trace)
    requires Reaches(s, before.run, before.end) && OwnStep(before.end, l) && BuildsOn(before.end, l)
    ensures Reaches(s, after.run, after.end) && before.run <= after.run
    ensures after == Trace(after.run, Next(before.end, l), before.waiting, before.used)
  {
    hide Reaches, Next;
    Grows(s, before.run, before.end, l);
    after := Trace(before.run + [l], Next(before.end, l), before.waiting, before.used);
  }

  lemma ConfirmSteps(s: State, id: string)
    ensures Next(s, Commit(id)).requests == s.requests
    ensures Next(s, Commit(id)).nm == AfterCall(Session(s.nm, []), Confirm(id)).manager
  {
    hide Manager.CheckpointDestroy, CheckpointPath;
  }

  lemma TimeoutSteps(s: State, d: string)
    ensures Next(s, Timeout(d)).requests == s.requests
    ensures Next(s, Timeout(d)).nm == AfterCall(Session(s.nm, []), TimesOut(d)).manager
  {
    hide Decimal;
  }

  lemma OutsideSteps(s: State, d: string, settings: Connection)
    ensures Next(s, Activate(d, settings)).requests == s.requests
    ensures Next(s, Activate(d, settings)).nm == AfterCall(Session(s.nm, []), Outside(d, settings)).manager
  {
    hide Manager.Activate;
  }

  lemma ImmediateFollows(s: State, x: Session, before: Trace) returns (after: Trace)
    requires Follows(s, x, before)
    ensures Follows(s, AfterCall(x, RunImmediate), after) && before.run <= after.run && before.used == after.used
  {
    hide Reaches, Next;
    after := before;
    if x.immediates != [] && x.immediates[0].device in x.manager.devices {
      var r := before.waiting[0];
      assert IsPending(before.end, r, x.immediates[0]);
      ReapplyStep(before.end, r);
      after := One(s, before, Advance(r));
      after := after.(waiting := before.waiting[1..]);
      hide Manager.Reapply;
      var y := AfterCall(x, RunImmediate);
      forall i | 0 <= i < |after.waiting| ensures IsPending(after.end, after.waiting[i], y.immediates[i]) {
        assert IsPending(before.end, before.waiting[i + 1], x.immediates[i + 1]);
      }
    }
  }

  lemma SubmitFollows(s: State, x: Session, before: Trace, c: Call) returns (after: Trace)
    requires c.Submit? && Follows(s, x, before)
    ensures Follows(s, AfterCall(x, c), after) && before.run <= after.run && after.used == before.used + 1
    ensures AnswersIn(before.end, before.used, c, after.end)
  {
    hide Reaches, Answer;
    var r := before.used;
    var rest, t := SubmitIsARun(before.end, r, c);
    Joins(s, before.run, before.end, rest, t);
    var ok := Answer(x.manager, c.device, c.ipv4, c.ipv6, c.rejected).result.Ok?;
    after := Trace(before.run + rest, t, if ok then before.waiting + [r] else before.waiting, r + 1);
    var y := AfterCall(x, c);
    forall i | 0 <= i < |before.waiting| ensures before.waiting[i] != r && IsPending(t, before.waiting[i], x.immediates[i]) {
      assert IsPending(before.end, before.waiting[i], x.immediates[i]);
    }
    if ok { assert IsPending(t, r, y.immediates[|x.immediates|]); }
  }

  /** The state a session starts from. */
  function Fresh(nm: Manager): State
  {
    State(nm, map[], [])
  }

  lemma {:induction false} CallsAreARun(s: State, x: Session, before: Trace, calls: seq<Call>) returns (after: Trace)
    requires Follows(s, x, before)
    ensures Follows(s, AfterCalls(x, calls), after) && before.run <= after.run
    decreases |calls|
  {
    hide Follows;
    if calls == [] {
      after := before;
    } else {
      after := CallsAreARun(s, x, before, calls[..|calls| - 1]);
      after := CallIsARun(s, AfterCalls(x, calls[..|calls| - 1]), after, calls[|calls| - 1]);
    }
  }

  /**
   * Main result, for the service: every sequence of its calls, with timeouts and outside changes
   * between them and rejected bus calls within them, is a run of the protocol that is transactional,
   * fully undone and serial. So these properties fail by overlap, or by a timeout inside an update, only.
   */
  lemma SessionsAreTransactional(nm: Manager, calls: seq<Call>) returns (run: seq<Label>)
    requires Initial(Fresh(nm))
    ensures Exec(Fresh(nm), run).nm == AfterCalls(Session(nm, []), calls).manager
    ensures Transactional(Fresh(nm), run) && FullyUndone(Fresh(nm), run) && Serial(Fresh(nm), run)
  {
    hide Exec, Transactional, FullyUndone, Serial, AllOwn, AllBuildOn, AfterCalls, AllLandSafely;
    var start := Begun(nm);
    var trace := CallsAreARun(Fresh(nm), Session(nm, []), start, calls);
    OwnStepsSuffice(Fresh(nm), trace.run);
    BuildingOnSuffices(Fresh(nm), trace.run);
    run := trace.run;
  }

  lemma Begun(nm: Manager) returns (trace: Trace)
    ensures Follows(Fresh(nm), Session(nm, []), trace)
  {
    Stays(Fresh(nm));
    hide Reaches;
    trace := Trace([], Fresh(nm), [], 0);
  }

  // ------------------------------------------------------------------ confirm or undo, in terms of calls

  lemma {:induction false} RunKeeps(s: State, ls: seq<Label>, r: nat)
    requires Past(s, r) && Wrote(s.requests[r].stage)
    ensures Keeps(s, Exec(s, ls), r)
    decreases |ls|
  {
    hide Next;
    if ls != [] {
      RunKeeps(s, ls[..|ls| - 1], r);
      StepKeeps(Exec(s, ls[..|ls| - 1]), ls[|ls| - 1], r);
    }
  }

  /** The traces of an accepted update and of any calls after it. */
  lemma UpdateTraces(nm: Manager, pre: seq<Call>, c: Call, more: seq<Call>) returns (run: seq<Label>, rest: seq<Label>, r: nat)
    requires Initial(Fresh(nm)) && c.Submit?
    ensures var x := AfterCalls(Session(nm, []), pre);
            var mid, end := Exec(Fresh(nm), run), Exec(Fresh(nm), run + rest);
            && mid.nm == AfterCall(x, c).manager && end.nm == AfterCalls(AfterCall(x, c), more).manager
            && r in mid.requests && mid.requests[r].device == c.device
            && EndsAs(DeviceAt(mid, c.device), mid.requests[r], Answer(x.manager, c.device, c.ipv4, c.ipv6, c.rejected).result)
            && AllLandSafely(Fresh(nm), run + rest)
  {
    var s, x := Fresh(nm), Session(nm, []);
    var a := Begun(nm);
    hide Answer, AfterCall, Exec, AllOwn, AllLandSafely, EndsAs, Initial;
    var b := CallsAreARun(s, x, a, pre);
    var m := SubmitFollows(s, AfterCalls(x, pre), b, c);
    var e := CallsAreARun(s, AfterCall(AfterCalls(x, pre), c), m, more);
    OwnStepsSuffice(s, e.run);
    run, rest, r := m.run, e.run[|m.run|..], b.used;
    assert run + rest == e.run;
  }

  /** In any session, the update behind a live checkpoint is the one that confirming it stands for. */
  lemma UpdateProposes(nm: Manager, pre: seq<Call>, c: Call, more: seq<Call>, id: string, d: string, x: Session, y: Session)
      returns (run: seq<Label>, rest: seq<Label>, r: nat)
    requires Initial(Fresh(nm)) && c.Submit? && c.device == d
    requires x == AfterCalls(Session(nm, []), pre) && y == AfterCalls(AfterCall(x, c), more)
    requires Answer(x.manager, d, c.ipv4, c.ipv6, c.rejected).result == Ok(id)
    requires d in y.manager.devices && y.manager.devices[d].Holds(CheckpointPath(id))
    ensures var mid, end := Exec(Fresh(nm), run), Exec(Fresh(nm), run + rest);
            && mid.nm == AfterCall(x, c).manager && end.nm == y.manager && d in mid.nm.devices
            && Proposes(end, r, d) && end.requests[r].stage.id == id
            && end.requests[r].stage.settings == mid.nm.devices[d].profile
            && AllLandSafely(Fresh(nm), run + rest)
  {
    run, rest, r := UpdateTraces(nm, pre, c, more);
    hide Exec, AllLandSafely, Answer, AfterCall, AfterCalls, Next, CheckpointPath, Initial;
    ExecAppend(Fresh(nm), run, rest);
    RunKeeps(Exec(Fresh(nm), run), rest, r);
  }

  /**
   * In any session: once an update was answered with an id, and as long as its checkpoint is live
   * whatever was called in between, confirming the id leaves exactly its settings in the profile and
   * changes nothing else, and the timeout leaves the profile and the applied connection it found.
   */
  lemma UpdateEndsEitherWay(nm: Manager, pre: seq<Call>, c: Call, more: seq<Call>, id: string, x: Session, y: Session)
    requires Initial(Fresh(nm)) && c.Submit?
    requires x == AfterCalls(Session(nm, []), pre) && y == AfterCalls(AfterCall(x, c), more)
    requires Answer(x.manager, c.device, c.ipv4, c.ipv6, c.rejected).result == Ok(id)
    requires c.device in y.manager.devices && y.manager.devices[c.device].Holds(CheckpointPath(id))
    ensures var d := c.device;
            && d in x.manager.devices
            && var found := x.manager.devices[d];
            var confirmed, expired := AfterCall(y, Confirm(id)).manager, AfterCall(y, TimesOut(d)).manager;
            && EditedConnection(found.profile, c.ipv4, c.ipv6) == Ok(y.manager.devices[d].profile)
            && confirmed == y.manager.(devices := y.manager.devices[d := y.manager.devices[d].(checkpoint := None)])
            && d in expired.devices && expired.devices[d].checkpoint.None?
            && expired.devices[d].profile == found.profile && expired.devices[d].applied == found.applied
  {
    var d := c.device;
    AnswerIsAllOrNothing(x.manager, d, c.ipv4, c.ipv6, c.rejected);
    assert AfterCall(x, c).manager == Answer(x.manager, d, c.ipv4, c.ipv6, c.rejected).manager;
    hide Exec, AllLandSafely, EditedConnection, Answer, AfterCalls, Next, CheckpointPath, Decimal, Initial, Owns;
    var run, rest, r := UpdateProposes(nm, pre, c, more, id, d, x, y);
    var mid, end := Exec(Fresh(nm), run), Exec(Fresh(nm), run + rest);
    ConfirmingCommits(Fresh(nm), run + rest, r, d, end);
    ConfirmSteps(end, id);
    StartIsValid(nm, run);
    ExecAppend(Fresh(nm), run, rest);
    SnapshotOf(mid, rest, d, x.manager.created, end);
  }

  lemma StartIsValid(nm: Manager, run: seq<Label>)
    requires Initial(Fresh(nm))
    ensures Exec(Fresh(nm), run).nm.Valid()
  {
    hide Exec;
    RunsKeepInv(Fresh(nm), run);
  }

  lemma SnapshotOf(mid: State, rest: seq<Label>, d: string, n: nat, end: State)
    requires mid.nm.Valid() && end == Exec(mid, rest) && d in mid.nm.devices && d in end.nm.devices
    requires mid.nm.devices[d].checkpoint.Some? && mid.nm.devices[d].checkpoint.value.number == n < mid.nm.created
    requires end.nm.devices[d].Holds(CheckpointPath(Decimal(n)))
    ensures end.nm.devices[d].checkpoint == mid.nm.devices[d].checkpoint
  {
    hide Exec;
    CheckpointPathsAreDistinct(end.nm.devices[d].checkpoint.value.number, Decimal(n));
    DecimalIsInjective(end.nm.devices[d].checkpoint.value.number, n);
    RunsMove(mid, rest);
    assert DeviceRunMoves(mid.nm.devices[d], end.nm.devices[d], mid.nm.created);
  }

  // ------------------------------------------------------------------ confirmed updates, in terms of calls

  /** The call makes a checkpoint on the device. */
  predicate Opens(x: Session, c: Call, d: string)
  {
    c.Submit? && c.device == d && Answer(x.manager, d, c.ipv4, c.ipv6, c.rejected).manager != x.manager
  }

  /** The call confirms the device's live checkpoint. */
  predicate ConfirmsOn(x: Session, c: Call, d: string)
  {
    c.Confirm? && d in x.manager.devices && x.manager.devices[d].Holds(CheckpointPath(c.id))
  }

  /** The update behind the device's live checkpoint, once it is written. */
  function OpenUpdate(x: Session, calls: seq<Call>, d: string): seq<Edit>
  {
    if calls == [] then []
    else
      var init, c := calls[..|calls| - 1], calls[|calls| - 1];
      var before := AfterCalls(x, init);
      if Opens(before, c, d) then (if c.rejected.UpdateCall? then [] else [Edit(d, c.ipv4, c.ipv6)])
      else if ConfirmsOn(before, c, d) || c == TimesOut(d) then []
      else OpenUpdate(x, init, d)
  }

  /** The updates confirmed on a device, in the order of confirmation. */
  function ConfirmedUpdates(x: Session, calls: seq<Call>, d: string): seq<Edit>
  {
    if calls == [] then []
    else
      var init, c := calls[..|calls| - 1], calls[|calls| - 1];
      ConfirmedUpdates(x, init, d) + if ConfirmsOn(AfterCalls(x, init), c, d) then OpenUpdate(x, init, d) else []
  }

  /** The device falls back to what was confirmed, and its profile is that with the open update. */
  ghost predicate IsSerial(start: Connection, y: Session, d: string, confirmed: seq<Edit>, open: seq<Edit>)
  {
    && d in y.manager.devices && |open| <= 1
    && y.manager.devices[d].Fallback() == EditedInTurn(start, confirmed)
    && y.manager.devices[d].profile == EditedInTurn(start, confirmed + open)
  }

  /** What one call does to a device's profile and snapshot. */
  lemma CallOnDevice(x: Session, c: Call, d: string)
    requires d in x.manager.devices
    ensures d in AfterCall(x, c).manager.devices
    ensures var a, b := x.manager.devices[d], AfterCall(x, c).manager.devices[d];
            if Opens(x, c, d) then
              && a.checkpoint.None? && b.checkpoint.Some? && b.Fallback() == a.profile
              && b.profile == if c.rejected.UpdateCall? then a.profile else EditedBy(a.profile, Edit(d, c.ipv4, c.ipv6))
            else if ConfirmsOn(x, c, d) then b.checkpoint.None? && b.profile == a.profile
            else if c == TimesOut(d) then b.checkpoint.None? && b.profile == a.Fallback()
            else b.profile == a.profile && b.checkpoint == a.checkpoint
  {
    if c.Submit? {
      AnswerIsAllOrNothing(x.manager, c.device, c.ipv4, c.ipv6, c.rejected);
      hide Answer, EditedConnection, CheckpointPath, Decimal;
    } else {
      hide Answer, EditedBy, CheckpointPath, Decimal;
    }
  }

  /**
   * In every session a device falls back to what its confirmed updates alone leave, one after another,
   * and its profile is that with the open update, whatever else was tried, refused, rejected or timed out.
   */
  lemma {:induction false} SessionsAreSerial(nm: Manager, calls: seq<Call>, d: string)
    requires d in nm.devices && nm.devices[d].checkpoint.None?
    ensures var x := Session(nm, []);
            IsSerial(nm.devices[d].profile, AfterCalls(x, calls), d, ConfirmedUpdates(x, calls, d), OpenUpdate(x, calls, d))
    ensures AfterCalls(Session(nm, []), calls).manager.devices[d].checkpoint.None? ==> OpenUpdate(Session(nm, []), calls, d) == []
    decreases |calls|
  {
    hide AfterCall, Opens, ConfirmsOn, EditedInTurn, EditedBy;
    var x, start := Session(nm, []), nm.devices[d].profile;
    if calls == [] {
      OneEdit(start, Edit(d, None, None));
      assert ConfirmedUpdates(x, calls, d) + OpenUpdate(x, calls, d) == [];
    } else {
      var init, c := calls[..|calls| - 1], calls[|calls| - 1];
      SessionsAreSerial(nm, init, d);
      var confirmed, open := ConfirmedUpdates(x, init, d), OpenUpdate(x, init, d);
      CallOnDevice(AfterCalls(x, init), c, d);
      assert confirmed + [] == confirmed && (confirmed + open) + [] == confirmed + open;
      if Opens(AfterCalls(x, init), c, d) {
        OpensDoesNotConfirm(AfterCalls(x, init), c, d);
        InTurnThen(start, confirmed, [Edit(d, c.ipv4, c.ipv6)]);
        OneEdit(EditedInTurn(start, confirmed), Edit(d, c.ipv4, c.ipv6));
      }
    }
  }

  lemma OpensDoesNotConfirm(x: Session, c: Call, d: string)
    requires Opens(x, c, d)
    ensures c.Submit? && !ConfirmsOn(x, c, d) && c != TimesOut(d)
  {
  }
}
