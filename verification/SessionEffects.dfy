/**
 * When what is confirmed comes into effect. A re-apply waits until the response is out, and is refused
 * if the version moved on, so in a session the profile and the connection in effect can part for good.
 */
module SessionEffects {
  import opened Wrappers
  import opened ConnectionSettingsAdapter
  import opened NetworkManager
  import opened NetworkTransactions
  import opened SerialRefinement
  import opened NetworkSettingsService
  import opened NetworkSessions

  // ------------------------------------------------------------------ what the waiting re-applies will do

  /** The settings of the first waiting re-apply that holds the device's version. */
  function Armed(jobs: seq<Deferred>, d: string, version: nat): Option<Connection>
  {
    if jobs == [] then None
    else if jobs[0].device == d && jobs[0].version == version then Some(jobs[0].settings)
    else Armed(jobs[1..], d, version)
  }

  /** What will be in effect on the device once the waiting re-applies have run. */
  function WillBe(x: Session, d: string): Connection
    requires d in x.manager.devices
  {
    var armed := Armed(x.immediates, d, x.manager.devices[d].version);
    if armed.Some? then armed.value else x.manager.devices[d].applied
  }

  /** Versions that wait were read before, and no waiting re-apply asks for whatever version there is. */
  ghost predicate VersionsWereRead(x: Session)
  {
    && (forall d :: d in x.manager.devices ==> x.manager.devices[d].version > 0)
    && forall i :: 0 <= i < |x.immediates| ==> WasRead(x, x.immediates[i])
  }

  predicate WasRead(x: Session, job: Deferred)
  {
    job.device in x.manager.devices && 0 < job.version <= x.manager.devices[job.device].version
  }

  function RunAll(x: Session, n: nat): Session
    decreases n
  {
    if n == 0 then x else RunAll(AfterCall(x, Call.RunImmediate), n - 1)
  }

  lemma {:induction false} NoneArmed(jobs: seq<Deferred>, d: string, version: nat)
    ensures Armed(jobs, d, version).None? <==> forall i :: 0 <= i < |jobs| ==> !(jobs[i].device == d && jobs[i].version == version)
  {
    if jobs != [] {
      NoneArmed(jobs[1..], d, version);
      assert forall i :: 1 <= i < |jobs| ==> jobs[i] == jobs[1..][i - 1];
    }
  }

  lemma {:induction false} ArmedAppend(jobs: seq<Deferred>, job: Deferred, d: string, version: nat)
    ensures Armed(jobs + [job], d, version) ==
            if Armed(jobs, d, version).Some? then Armed(jobs, d, version)
            else if job.device == d && job.version == version then Some(job.settings) else None
  {
    if jobs == [] {
      assert jobs + [job] == [job] && [job][1..] == [];
    } else {
      ArmedAppend(jobs[1..], job, d, version);
      assert (jobs + [job])[1..] == jobs[1..] + [job];
    }
  }

  /** Running one of them leaves what will be in effect. */
  lemma ImmediateKeepsWillBe(x: Session, d: string)
    requires VersionsWereRead(x) && d in x.manager.devices
    ensures var y := AfterCall(x, Call.RunImmediate);
            VersionsWereRead(y) && d in y.manager.devices && WillBe(y, d) == WillBe(x, d)
            && y.manager.devices[d].profile == x.manager.devices[d].profile && y.manager.devices[d].checkpoint == x.manager.devices[d].checkpoint
  {
    if x.immediates != [] {
      var job, rest := x.immediates[0], x.immediates[1..];
      assert WasRead(x, job);
      var y := AfterCall(x, Call.RunImmediate);
      forall i | 0 <= i < |rest| ensures WasRead(y, rest[i]) { assert WasRead(x, x.immediates[i + 1]); }
      if job.device == d && job.version == x.manager.devices[d].version {
        NoneArmed(rest, d, y.manager.devices[d].version);
        forall i | 0 <= i < |rest| ensures rest[i].device == d ==> rest[i].version <= job.version { assert WasRead(x, x.immediates[i + 1]); }
      }
    }
  }

  /** Partner of WillBe: once all of them have run, that is what is in effect. */
  lemma {:induction false} RunningAllGetsThere(x: Session, d: string)
    requires VersionsWereRead(x) && d in x.manager.devices
    ensures var y := RunAll(x, |x.immediates|);
            y.immediates == [] && d in y.manager.devices && y.manager.devices[d].applied == WillBe(x, d)
            && y.manager.devices[d].profile == x.manager.devices[d].profile
    decreases |x.immediates|
  {
    if x.immediates != [] {
      ImmediateKeepsWillBe(x, d);
      assert WasRead(x, x.immediates[0]);
      RunningAllGetsThere(AfterCall(x, Call.RunImmediate), d);
    }
  }

  // ------------------------------------------------------------------ in step

  /** The profile will be in effect once the waiting re-applies have run, and so will the snapshot of a live checkpoint if it comes back. */
  ghost predicate InStep(x: Session, d: string)
  {
    && d in x.manager.devices
    && var dev := x.manager.devices[d];
    && WillBe(x, d) == dev.profile
    && (dev.checkpoint.Some? ==> dev.checkpoint.value.applied == dev.checkpoint.value.profile)
  }

  /**
   * The call leaves the device in step: an update that makes a checkpoint finds the profile in effect,
   * and no re-apply armed to come before its own with other settings; and nothing else than the
   * profile is put into effect from outside.
   */
  predicate KeepsInStep(x: Session, c: Call, d: string)
    requires d in x.manager.devices
  {
    var dev := x.manager.devices[d];
    var armed := Armed(x.immediates, d, dev.version);
    && (Opens(x, c, d) ==>
          && dev.applied == dev.profile
          && match c.rejected
             case UpdateCall => true
             case Nothing => armed.None? || armed.value == EditedBy(dev.profile, Edit(d, c.ipv4, c.ipv6))
             case VersionCall => dev.profile == EditedBy(dev.profile, Edit(d, c.ipv4, c.ipv6)))
    && (c.Outside? && c.device == d ==> c.settings == dev.profile)
  }

  /** Every call keeps the versions that wait among those that were read. */
  lemma StepReads(x: Session, c: Call)
    requires VersionsWereRead(x)
    ensures VersionsWereRead(AfterCall(x, c)) && AfterCall(x, c).manager.devices.Keys == x.manager.devices.Keys
  {
    var y := AfterCall(x, c);
    if c.Submit? {
      SubmitKeepsVersions(x, c);
      hide AfterCall, VersionsWereRead;
    } else {
      hide Answer, CheckpointPath, Decimal;
      assert forall d :: d in x.manager.devices ==> y.manager.devices[d].version >= x.manager.devices[d].version;
      var gone := if c.RunImmediate? then |x.immediates| - |y.immediates| else 0;
      forall i | 0 <= i < |y.immediates| ensures WasRead(y, y.immediates[i]) { assert WasRead(x, x.immediates[i + gone]); }
    }
  }

  lemma SubmitKeepsVersions(x: Session, c: Call)
    requires c.Submit? && VersionsWereRead(x)
    ensures VersionsWereRead(AfterCall(x, c)) && AfterCall(x, c).manager.devices.Keys == x.manager.devices.Keys
  {
    AnswerIsAllOrNothing(x.manager, c.device, c.ipv4, c.ipv6, c.rejected);
    hide Answer, EditedConnection, CheckpointPath, Decimal;
    var y := AfterCall(x, c);
    forall i | 0 <= i < |y.immediates| ensures WasRead(y, y.immediates[i]) {
      if i < |x.immediates| { assert WasRead(x, x.immediates[i]); }
    }
  }

  /** Main step: a call leaves the device in step exactly when it keeps it so. */
  lemma StepInStepIff(x: Session, c: Call, d: string)
    requires VersionsWereRead(x) && InStep(x, d)
    ensures InStep(AfterCall(x, c), d) <==> KeepsInStep(x, c, d)
  {
    match c {
      case Submit(_, _, _, _) => SubmitInStepIff(x, c, d);
      case RunImmediate => ImmediateKeepsWillBe(x, d); hide AfterCall, WillBe, Armed, VersionsWereRead;
      case Confirm(_) => ConfirmStaysInStep(x, c, d);
      case TimesOut(_) => NewVersionInStepIff(x, c, d);
      case Outside(_, _) => NewVersionInStepIff(x, c, d);
    }
  }

  lemma ConfirmStaysInStep(x: Session, c: Call, d: string)
    requires c.Confirm? && InStep(x, d)
    ensures InStep(AfterCall(x, c), d)
  {
    hide CheckpointPath, Decimal, Armed;
  }

  /** After a timeout or an outside change no waiting re-apply of the device is armed any more. */
  lemma NewVersionInStepIff(x: Session, c: Call, d: string)
    requires (c.TimesOut? || c.Outside?) && VersionsWereRead(x) && InStep(x, d)
    ensures InStep(AfterCall(x, c), d) <==> KeepsInStep(x, c, d)
  {
    var y := AfterCall(x, c);
    if y.manager.devices[d].version > x.manager.devices[d].version {
      NoneArmed(x.immediates, d, y.manager.devices[d].version);
      assert forall i :: 0 <= i < |x.immediates| ==> WasRead(x, x.immediates[i]);
    }
    hide Armed;
  }

  lemma SubmitInStepIff(x: Session, c: Call, d: string)
    requires c.Submit? && InStep(x, d)
    ensures d in AfterCall(x, c).manager.devices
    ensures InStep(AfterCall(x, c), d) <==> KeepsInStep(x, c, d)
  {
    AnswerIsAllOrNothing(x.manager, c.device, c.ipv4, c.ipv6, c.rejected);
    hide Answer, EditedConnection, CheckpointPath, Decimal, Armed;
    var y := AfterCall(x, c);
    if |y.immediates| > |x.immediates| {
      ArmedAppend(x.immediates, y.immediates[|x.immediates|], d, x.manager.devices[d].version);
    }
  }

  // ------------------------------------------------------------------ whole sessions

  ghost predicate AlwaysInStep(x: Session, calls: seq<Call>, d: string)
  {
    forall n :: 0 <= n <= |calls| ==> InStep(AfterCalls(x, calls[..n]), d)
  }

  ghost predicate AllKeepInStep(x: Session, calls: seq<Call>, d: string)
  {
    forall n :: 0 <= n < |calls| ==>
      d in AfterCalls(x, calls[..n]).manager.devices && KeepsInStep(AfterCalls(x, calls[..n]), calls[n], d)
  }

  /**
   * Main result. From a start in step, a device is in step at every point of a session if and only if
   * each update that makes a checkpoint on it finds its profile in effect and no other re-apply armed,
   * and nothing but the profile is put into effect from outside.
   */
  lemma {:induction false} AlwaysInStepIff(x: Session, calls: seq<Call>, d: string)
    requires VersionsWereRead(x) && InStep(x, d)
    ensures VersionsWereRead(AfterCalls(x, calls)) && d in AfterCalls(x, calls).manager.devices
    ensures AlwaysInStep(x, calls, d) <==> AllKeepInStep(x, calls, d)
    decreases |calls|
  {
    hide AfterCall, KeepsInStep, VersionsWereRead;
    if calls == [] {
      assert forall n :: n == 0 ==> calls[..n] == [];
    } else {
      var init, c := calls[..|calls| - 1], calls[|calls| - 1];
      AlwaysInStepIff(x, init, d);
      hide InStep;
      assert calls == init + [c];
      CallsSplit(x, init, c, d);
      StepReads(AfterCalls(x, init), c);
      if InStep(AfterCalls(x, init), d) { StepInStepIff(AfterCalls(x, init), c, d); }
    }
  }

  lemma CallsSplit(x: Session, init: seq<Call>, c: Call, d: string)
    requires d in AfterCalls(x, init).manager.devices
    ensures AlwaysInStep(x, init + [c], d) <==> AlwaysInStep(x, init, d) && InStep(AfterCalls(x, init + [c]), d)
    ensures AllKeepInStep(x, init + [c], d) <==> AllKeepInStep(x, init, d) && KeepsInStep(AfterCalls(x, init), c, d)
    ensures AlwaysInStep(x, init, d) ==> InStep(AfterCalls(x, init), d)
  {
    hide AfterCalls, InStep, KeepsInStep;
    var calls := init + [c];
    assert forall n :: 0 <= n <= |init| ==> init[..n] == calls[..n];
    assert calls[..|calls|] == calls && calls[..|init|] == init && init[..|init|] == init && calls[|init|] == c;
  }

  /**
   * In such a session a device with no re-apply waiting, or once those that wait have run, has in
   * effect what its confirmed updates leave, with the open one on top if there is one.
   */
  lemma ConfirmedIsInEffect(nm: Manager, calls: seq<Call>, d: string)
    requires VersionsWereRead(Session(nm, [])) && d in nm.devices && nm.devices[d].checkpoint.None?
    requires nm.devices[d].applied == nm.devices[d].profile && AllKeepInStep(Session(nm, []), calls, d)
    ensures var x := Session(nm, []);
            var y := AfterCalls(x, calls);
            var end := RunAll(y, |y.immediates|);
            && d in end.manager.devices
            && end.manager.devices[d].applied ==
                 EditedInTurn(nm.devices[d].profile, ConfirmedUpdates(x, calls, d) + OpenUpdate(x, calls, d))
  {
    hide AfterCall, AfterCalls, KeepsInStep, EditedInTurn, ConfirmedUpdates, OpenUpdate;
    SessionsAreSerial(nm, calls, d);
    AlwaysInStepIff(Session(nm, []), calls, d);
    assert calls[..|calls|] == calls && InStep(AfterCalls(Session(nm, []), calls[..|calls|]), d);
    RunningAllGetsThere(AfterCalls(Session(nm, []), calls), d);
  }

  // ------------------------------------------------------------------ what is confirmed and never in effect

  /** Two updates, the first one confirmed before its re-apply has run. */
  function LostEffect(a: Edit, b: Edit, n: nat): seq<Call>
  {
    [Submit(a.device, a.ipv4, a.ipv6, Rejected.Nothing)] + [Confirm(Decimal(n))] + [Submit(b.device, b.ipv4, b.ipv6, Rejected.Nothing)]
      + [Call.RunImmediate] + [TimesOut(a.device)] + [Call.RunImmediate]
  }

  lemma CallsThen(x: Session, calls: seq<Call>, c: Call)
    ensures AfterCalls(x, calls + [c]) == AfterCall(AfterCalls(x, calls), c)
  {
    hide AfterCall;
    assert (calls + [c])[..|calls|] == calls;
  }

  lemma SubmitsOn(x: Session, e: Edit, settings: Connection)
    requires e.device in x.manager.devices && x.manager.devices[e.device].isActive && x.manager.devices[e.device].checkpoint.None?
    requires EditedConnection(x.manager.devices[e.device].profile, e.ipv4, e.ipv6) == Ok(settings)
    ensures var d, y := e.device, AfterCall(x, Submit(e.device, e.ipv4, e.ipv6, Rejected.Nothing));
            var dev := x.manager.devices[d];
            && d in y.manager.devices && y.manager.created == x.manager.created + 1
            && y.manager.devices[d] == dev.(profile := settings, checkpoint := Some(Checkpoint(x.manager.created, dev.profile, dev.applied)))
            && y.immediates == x.immediates + [Deferred(d, settings, dev.version)]
  {
    hide EditedConnection, CheckpointPath, CheckpointId, Decimal;
  }

  lemma ConfirmsItsOwn(x: Session, d: string)
    requires d in x.manager.devices && x.manager.devices[d].checkpoint.Some?
    ensures var y := AfterCall(x, Confirm(Decimal(x.manager.devices[d].checkpoint.value.number)));
            && d in y.manager.devices && y.manager.devices[d] == x.manager.devices[d].(checkpoint := None)
            && y.manager.created == x.manager.created && y.immediates == x.immediates
  {
    assert x.manager.devices[d].Holds(CheckpointPath(Decimal(x.manager.devices[d].checkpoint.value.number)));
    hide CheckpointPath, Decimal;
  }

  /**
   * The first update's re-apply runs under the second one's checkpoint and is undone with it: at the end
   * the profile holds the confirmed settings, what was in effect before still is, and nothing waits.
   */
  lemma ConfirmedNeverInEffect(nm: Manager, a: Edit, mine: Connection, b: Edit, other: Connection)
    requires a.device in nm.devices && a.device == b.device
    requires var dev := nm.devices[a.device];
             && dev.isActive && dev.checkpoint.None? && dev.version > 0 && dev.applied != mine
             && EditedConnection(dev.profile, a.ipv4, a.ipv6) == Ok(mine) && EditedConnection(mine, b.ipv4, b.ipv6) == Ok(other)
    ensures var d, y := a.device, AfterCalls(Session(nm, []), LostEffect(a, b, nm.created));
            && d in y.manager.devices && y.manager.devices[d].checkpoint.None? && y.immediates == []
            && y.manager.devices[d].profile == mine && y.manager.devices[d].applied == nm.devices[d].applied != mine
  {
    var x, d := Session(nm, []), a.device;
    var c1, c2, c3 := Submit(a.device, a.ipv4, a.ipv6, Rejected.Nothing), Confirm(Decimal(nm.created)), Submit(b.device, b.ipv4, b.ipv6, Rejected.Nothing);
    CallsThen(x, [], c1);
    assert [] + [c1] == [c1] && AfterCalls(x, []) == x;
    CallsThen(x, [c1], c2);
    CallsThen(x, [c1] + [c2], c3);
    CallsThen(x, [c1] + [c2] + [c3], Call.RunImmediate);
    CallsThen(x, [c1] + [c2] + [c3] + [Call.RunImmediate], TimesOut(d));
    CallsThen(x, [c1] + [c2] + [c3] + [Call.RunImmediate] + [TimesOut(d)], Call.RunImmediate);
    hide AfterCalls, AfterCall, EditedConnection, Decimal;
    SubmitsOn(x, a, mine);
    ConfirmsItsOwn(AfterCall(x, c1), d);
    var y := AfterCall(AfterCall(x, c1), c2);
    SubmitsOn(y, b, other);
    UndoneWithIt(AfterCall(y, c3), d, mine, other);
  }

  /** Two re-applies of one version: the first takes effect, the timeout undoes it, the second is refused. */
  lemma UndoneWithIt(x: Session, d: string, mine: Connection, other: Connection)
    requires d in x.manager.devices && x.manager.devices[d].checkpoint.Some? && x.manager.devices[d].version > 0
    requires var v := x.manager.devices[d].version; x.immediates == [Deferred(d, mine, v), Deferred(d, other, v)]
    ensures var y := AfterCall(AfterCall(AfterCall(x, Call.RunImmediate), TimesOut(d)), Call.RunImmediate);
            var cp := x.manager.devices[d].checkpoint.value;
            && d in y.manager.devices && y.manager.devices[d].checkpoint.None? && y.immediates == []
            && y.manager.devices[d].profile == cp.profile && y.manager.devices[d].applied == cp.applied
  {
    assert x.immediates[1..] == [Deferred(d, other, x.manager.devices[d].version)];
  }
}
