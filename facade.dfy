/** The entry-point template every exported verb of the API layer follows:
    check the identifiers, take the per-sandbox lock in the verb's mode
    (released by `defer unlock()`), fetch the sandbox from storage, delegate
    to one or more Sandbox methods, and for some verbs persist the sandbox
    afterwards. `Spec` states what each verb does; the lemmas below state
    what the template guarantees for every verb. */
module Facade {
  import opened Calls
  import opened Defer

  /** The exported verbs that follow the template. */
  datatype Verb =
    | DeleteSandbox
    | FetchSandbox
    | StartSandbox
    | StopSandbox(force: bool)
    | StatusSandbox
    | CreateContainer
    | DeleteContainer
    | StartContainer
    | StopContainer
    | EnterContainer
    | StatusContainer
    | KillContainer(all: bool)
    | ProcessListContainer
    | UpdateContainer
    | StatsContainer
    | StatsSandbox
    | PauseContainer
    | ResumeContainer
    | AddDevice
    | AddInterface
    | RemoveInterface
    | ListInterfaces
    | UpdateRoutes
    | ListRoutes
    | CleanupContainer(force: bool)

  /** The lock mode each verb requests: `rLockSandbox` for these six verbs,
      `rwLockSandbox` for every other one. */
  function ModeOf(v: Verb): LockMode {
    match v
    case EnterContainer | ProcessListContainer | StatsContainer | StatsSandbox | ListInterfaces | ListRoutes => Shared
    case _ => Exclusive
  }

  /** The verbs that take a container identifier and check it. */
  predicate NeedsContainerID(v: Verb) {
    match v
    case DeleteContainer | StartContainer | StopContainer | EnterContainer | StatusContainer
       | KillContainer(_) | ProcessListContainer | UpdateContainer | StatsContainer
       | PauseContainer | ResumeContainer | CleanupContainer(_) => true
    case _ => false
  }

  /** The verbs that call `storeSandbox` after their Sandbox method succeeds. */
  predicate Persists(v: Verb) {
    v.StartSandbox? || v.StopSandbox? || v.CreateContainer?
  }

  /** The verbs whose work after the fetch is one Sandbox method call. */
  predicate SingleDelegate(v: Verb) {
    !(v.FetchSandbox? || v.StatusSandbox? || v.StatusContainer? || v.StatsSandbox? || v.CleanupContainer?)
  }

  /** The sentinel for an empty sandbox identifier; `StopSandbox` alone uses
      `ErrNeedSandbox`. */
  function MissingSandbox(v: Verb): Error {
    if v.StopSandbox? then ErrNeedSandbox else ErrNeedSandboxID
  }

  /** The identifier checks that open every verb, sandbox identifier first. */
  function Validate(v: Verb, sandboxID: string, containerID: string): Status {
    if sandboxID == "" then Err(MissingSandbox(v))
    else if NeedsContainerID(v) && containerID == "" then Err(ErrNeedContainerID)
    else Ok
  }

  /** Facts about the fetched sandbox that steer a verb's control flow: the
      agent's `longLiveConn()` answer, the identifiers of its containers in
      the order the container map is ranged over, and how many containers
      `GetAllContainers()` reports after the container delete of a cleanup. */
  datatype Fetched = Fetched(longLiveConn: bool, containerIDs: seq<string>, remaining: nat)

  /** The Sandbox method a single-delegate verb calls. */
  function Delegate(v: Verb, containerID: string): Call
    requires SingleDelegate(v)
  {
    match v
    case DeleteSandbox => Delete
    case StartSandbox => Start
    case StopSandbox(force) => Stop(force)
    case CreateContainer => Call.CreateContainer
    case DeleteContainer => Call.DeleteContainer(containerID)
    case StartContainer => Call.StartContainer(containerID)
    case StopContainer => Call.StopContainer(containerID, false)
    case EnterContainer => Call.EnterContainer(containerID)
    case KillContainer(all) => Call.KillContainer(containerID, all)
    case ProcessListContainer => Call.ProcessListContainer(containerID)
    case UpdateContainer => Call.UpdateContainer(containerID)
    case StatsContainer => Call.StatsContainer(containerID)
    case PauseContainer => Call.PauseContainer(containerID)
    case ResumeContainer => Call.ResumeContainer(containerID)
    case AddDevice => Call.AddDevice
    case AddInterface => Call.AddInterface
    case RemoveInterface => Call.RemoveInterface
    case ListInterfaces => Call.ListInterfaces
    case UpdateRoutes => Call.UpdateRoutes
    case ListRoutes => Call.ListRoutes
  }

  /** One `StatsContainer` call per container, in range order. */
  function StatsSteps(ids: seq<string>): (steps: seq<Step>)
    ensures |steps| == |ids|
    ensures forall i :: 0 <= i < |ids| ==> steps[i] == Must(Call.StatsContainer(ids[i]))
  {
    if ids == [] then [] else [Must(Call.StatsContainer(ids[0]))] + StatsSteps(ids[1..])
  }

  /** Fetching the sandbox; `CleanupContainer` then defers `s.Release()`. */
  function FetchStep(v: Verb, sandboxID: string): Step {
    if v.CleanupContainer? then Step(Call.FetchSandbox(sandboxID), false, [Deferred(Release, Always)], [])
    else Must(Call.FetchSandbox(sandboxID))
  }

  /** What a verb does once it holds the lock and the fetched sandbox. */
  function Body(v: Verb, containerID: string, f: Fetched): seq<Step> {
    if v.FetchSandbox? then
      // a long-lived agent connection restarts the console proxy; on failure
      // the sandbox is released before the error is returned
      if f.longLiveConn then [Step(StartProxy, false, [], [Release])] else []
    else if v.StatusSandbox? || v.StatusContainer? then
      []
    else if v.StatsSandbox? then
      [Must(Stats)] + StatsSteps(f.containerIDs)
    else if v.CleanupContainer? then
      // under force the first three failures are ignored; the final Delete's is not
      [Step(Call.StopContainer(containerID, v.force), v.force, [], []),
       Step(Call.DeleteContainer(containerID), v.force, [], [])]
      + (if f.remaining == 0 then [Step(Stop(v.force), v.force, [], []), Must(Delete)] else [])
    else
      [Must(Delegate(v, containerID))] + (if Persists(v) then [Must(StoreSandbox)] else [])
  }

  function Plan(v: Verb, sandboxID: string, containerID: string, f: Fetched): seq<Step> {
    [LockStep(ModeOf(v), sandboxID), FetchStep(v, sandboxID)] + Body(v, containerID, f)
  }

  /** The error a verb returns and the collaborator calls it makes. */
  function Spec(v: Verb, sandboxID: string, containerID: string, o: Oracle, f: Fetched): Outcome {
    var invalid := Validate(v, sandboxID, containerID);
    if invalid.Err? then Outcome(invalid, []) else Run(Plan(v, sandboxID, containerID, f), o)
  }

  /** The deferred calls that fire once the sandbox is fetched: the unlock,
      preceded by the cleanup's `s.Release()`. */
  function Unlocking(v: Verb, sandboxID: string): seq<Call> {
    if v.CleanupContainer? then [Release, UnlockSandbox(ModeOf(v), sandboxID)] else [UnlockSandbox(ModeOf(v), sandboxID)]
  }

  /** The single-delegate verbs and `FetchSandbox`, as their Go bodies are
      written: each early return runs the deferred unlock. */
  method Invoke(v: Verb, sandboxID: string, containerID: string, o: Oracle, f: Fetched)
    returns (err: Status, trace: seq<Call>)
    requires SingleDelegate(v) || v.FetchSandbox?
    ensures Outcome(err, trace) == Spec(v, sandboxID, containerID, o, f)
  {
    if sandboxID == "" {
      return Err(MissingSandbox(v)), [];
    }
    if NeedsContainerID(v) && containerID == "" {
      return Err(ErrNeedContainerID), [];
    }
    var mode := ModeOf(v);
    trace := [LockSandbox(mode, sandboxID)];
    err := o(LockSandbox(mode, sandboxID));
    if err.Err? {
      LockFails(v, sandboxID, containerID, o, f);
      return;
    }
    var deferred := [Deferred(UnlockSandbox(mode, sandboxID), Always)];
    trace := trace + [Call.FetchSandbox(sandboxID)];
    err := o(Call.FetchSandbox(sandboxID));
    if err.Err? {
      FetchFails(v, sandboxID, containerID, o, f);
      var ran := RunDeferred(deferred, err);
      return err, trace + ran;
    }
    FetchSucceeds(v, sandboxID, containerID, o, f);
    var executed;
    err, executed := Proceed(v, containerID, o, f);
    var ran := RunDeferred(deferred, err);
    UnwindUnlock(mode, sandboxID, err);
    trace := trace + executed + ran;
  }

  /** The part of `Invoke` after a successful fetch: the proxy restart of
      `FetchSandbox`, or the Sandbox method of a single-delegate verb
      followed by `storeSandbox` for a persisting verb whose method succeeded. */
  method Proceed(v: Verb, containerID: string, o: Oracle, f: Fetched) returns (err: Status, executed: seq<Call>)
    requires SingleDelegate(v) || v.FetchSandbox?
    ensures Exec(Body(v, containerID, f), o) == Progress(executed, err, [])
  {
    BodyRegistersNothing(v, containerID, f, o);
    if v.FetchSandbox? {
      FetchBody(containerID, f, o);
      executed, err := [], Ok;
      if f.longLiveConn {
        executed := [StartProxy];
        err := o(StartProxy);
        if err.Err? {
          executed := executed + [Release];
        }
      }
    } else {
      DelegateBody(v, containerID, f, o);
      var call := Delegate(v, containerID);
      executed := [call];
      err := o(call);
      if err.Ok? && Persists(v) {
        executed := executed + [StoreSandbox];
        err := o(StoreSandbox);
      }
    }
  }

  lemma UnwindUnlock(mode: LockMode, sandboxID: string, err: Status)
    ensures Unwind([Deferred(UnlockSandbox(mode, sandboxID), Always)], err) == [UnlockSandbox(mode, sandboxID)]
  {
    assert [Deferred(UnlockSandbox(mode, sandboxID), Always)][..0] == [];
  }

  /** What the body of a single-delegate verb does: its Sandbox method, then
      `storeSandbox` for a persisting verb whose method succeeded. */
  lemma {:induction false} DelegateBody(v: Verb, containerID: string, f: Fetched, o: Oracle)
    requires SingleDelegate(v)
    ensures var call, pb := Delegate(v, containerID), Exec(Body(v, containerID, f), o);
            && (o(call).Err? || !Persists(v) ==> pb.executed == [call] && pb.err == o(call))
            && (o(call).Ok? && Persists(v) ==> pb.executed == [call] + [StoreSandbox] && pb.err == o(StoreSandbox))
  {
    var call := Delegate(v, containerID);
    ExecSingle(Must(call), o);
    if Persists(v) {
      assert Body(v, containerID, f) == [Must(call)] + [Must(StoreSandbox)];
      ExecSingle(Must(StoreSandbox), o);
      if o(call).Ok? {
        ExecAppendPasses([Must(call)], [Must(StoreSandbox)], o);
      } else {
        ExecAppendFails([Must(call)], [Must(StoreSandbox)], o);
      }
    } else {
      assert Body(v, containerID, f) == [Must(call)];
    }
  }

  /** What the body of `FetchSandbox` does: restart the proxy for a
      long-lived agent connection, releasing the sandbox if that fails. */
  lemma {:induction false} FetchBody(containerID: string, f: Fetched, o: Oracle)
    ensures var pb := Exec(Body(Verb.FetchSandbox, containerID, f), o);
            && (!f.longLiveConn ==> pb.executed == [] && pb.err == Ok)
            && (f.longLiveConn ==>
                  && pb.executed == [StartProxy] + (if o(StartProxy).Err? then [Release] else [])
                  && pb.err == o(StartProxy))
  {
    if f.longLiveConn {
      ExecSingle(Step(StartProxy, false, [], [Release]), o);
    }
  }

  /** A failed lock is the only call, and its error is returned. */
  lemma {:induction false} LockFails(v: Verb, sandboxID: string, containerID: string, o: Oracle, f: Fetched)
    requires Validate(v, sandboxID, containerID).Ok?
    requires o(LockSandbox(ModeOf(v), sandboxID)).Err?
    ensures Spec(v, sandboxID, containerID, o, f)
         == Outcome(o(LockSandbox(ModeOf(v), sandboxID)), [LockSandbox(ModeOf(v), sandboxID)])
  {
    var prefix := [LockStep(ModeOf(v), sandboxID), FetchStep(v, sandboxID)];
    assert Plan(v, sandboxID, containerID, f) == prefix + Body(v, containerID, f);
    assert prefix[0] == LockStep(ModeOf(v), sandboxID);
    ExecAppendFails(prefix, Body(v, containerID, f), o);
  }

  /** After a failed fetch only the unlock runs, and the fetch error is returned. */
  lemma {:induction false} FetchFails(v: Verb, sandboxID: string, containerID: string, o: Oracle, f: Fetched)
    requires Validate(v, sandboxID, containerID).Ok?
    requires o(LockSandbox(ModeOf(v), sandboxID)).Ok? && o(Call.FetchSandbox(sandboxID)).Err?
    ensures Spec(v, sandboxID, containerID, o, f)
         == Outcome(o(Call.FetchSandbox(sandboxID)),
                    [LockSandbox(ModeOf(v), sandboxID), Call.FetchSandbox(sandboxID), UnlockSandbox(ModeOf(v), sandboxID)])
  {
    var lockStep, fetchStep := LockStep(ModeOf(v), sandboxID), FetchStep(v, sandboxID);
    var prefix := [lockStep, fetchStep];
    assert Plan(v, sandboxID, containerID, f) == prefix + Body(v, containerID, f);
    assert prefix[0] == lockStep && prefix[1..] == [fetchStep];
    ExecSingle(fetchStep, o);
    ExecAppendFails(prefix, Body(v, containerID, f), o);
    UnwindUnlock(ModeOf(v), sandboxID, o(fetchStep.call));
  }

  /** Taking the lock and fetching the sandbox, both successfully. */
  lemma PrefixPasses(v: Verb, sandboxID: string, o: Oracle)
    requires o(LockSandbox(ModeOf(v), sandboxID)).Ok? && o(Call.FetchSandbox(sandboxID)).Ok?
    ensures Exec([LockStep(ModeOf(v), sandboxID), FetchStep(v, sandboxID)], o)
         == Progress([LockSandbox(ModeOf(v), sandboxID)] + [Call.FetchSandbox(sandboxID)], Ok,
                     [Deferred(UnlockSandbox(ModeOf(v), sandboxID), Always)] + FetchStep(v, sandboxID).registers)
  {
    ExecCons(LockStep(ModeOf(v), sandboxID), [FetchStep(v, sandboxID)], o);
    ExecSingle(FetchStep(v, sandboxID), o);
  }

  /** The deferred stack of a fetched sandbox unwinds to the cleanup's
      `Release`, if any, then the unlock. */
  lemma TailUnwinds(v: Verb, sandboxID: string, err: Status)
    ensures Unwind([Deferred(UnlockSandbox(ModeOf(v), sandboxID), Always)] + FetchStep(v, sandboxID).registers + [], err)
         == Unlocking(v, sandboxID)
  {
    var unlock := [Deferred(UnlockSandbox(ModeOf(v), sandboxID), Always)];
    var regs := FetchStep(v, sandboxID).registers;
    assert unlock + regs + [] == unlock + regs;
    UnwindAppend(unlock, regs, err);
    UnwindUnlock(ModeOf(v), sandboxID, err);
    ReleaseUnwind(v, sandboxID, err);
  }

  /** After a successful fetch the body runs, then the deferred calls: the
      cleanup's `Release`, and the unlock last. */
  lemma {:induction false} FetchSucceeds(v: Verb, sandboxID: string, containerID: string, o: Oracle, f: Fetched)
    requires Validate(v, sandboxID, containerID).Ok?
    requires o(LockSandbox(ModeOf(v), sandboxID)).Ok? && o(Call.FetchSandbox(sandboxID)).Ok?
    ensures var pb := Exec(Body(v, containerID, f), o);
            Spec(v, sandboxID, containerID, o, f)
              == Outcome(pb.err, [LockSandbox(ModeOf(v), sandboxID)] + [Call.FetchSandbox(sandboxID)]
                                 + pb.executed + Unlocking(v, sandboxID))
  {
    var prefix := [LockStep(ModeOf(v), sandboxID), FetchStep(v, sandboxID)];
    var body := Body(v, containerID, f);
    assert Plan(v, sandboxID, containerID, f) == prefix + body;
    PrefixPasses(v, sandboxID, o);
    ExecAppendPasses(prefix, body, o);
    BodyRegistersNothing(v, containerID, f, o);
    TailUnwinds(v, sandboxID, Exec(body, o).err);
  }

  lemma ReleaseUnwind(v: Verb, sandboxID: string, err: Status)
    ensures Unwind(FetchStep(v, sandboxID).registers, err) == if v.CleanupContainer? then [Release] else []
  {
    if v.CleanupContainer? {
      assert FetchStep(v, sandboxID).registers[..0] == [];
    }
  }

  /** The template, for every verb whose identifiers pass the checks: the
      lock is the first call; if it fails nothing else happens; otherwise
      the fetch is the second call, a failed fetch only unlocks, and after a
      successful fetch the body runs and the unlock is the last call. */
  lemma {:induction false} Template(v: Verb, sandboxID: string, containerID: string, o: Oracle, f: Fetched)
    requires Validate(v, sandboxID, containerID).Ok?
    ensures var lock, fetch := LockSandbox(ModeOf(v), sandboxID), Call.FetchSandbox(sandboxID);
            var unlock := UnlockSandbox(ModeOf(v), sandboxID);
            var out, body := Spec(v, sandboxID, containerID, o, f), Exec(Body(v, containerID, f), o);
            && (o(lock).Err? ==> out == Outcome(o(lock), [lock]))
            && (o(lock).Ok? && o(fetch).Err? ==> out == Outcome(o(fetch), [lock, fetch, unlock]))
            && (o(lock).Ok? && o(fetch).Ok? ==>
                  out == Outcome(body.err, [lock] + [fetch] + body.executed + Unlocking(v, sandboxID)))
  {
    var lock, fetch := LockSandbox(ModeOf(v), sandboxID), Call.FetchSandbox(sandboxID);
    if o(lock).Err? {
      LockFails(v, sandboxID, containerID, o, f);
    } else if o(fetch).Err? {
      FetchFails(v, sandboxID, containerID, o, f);
    } else {
      FetchSucceeds(v, sandboxID, containerID, o, f);
    }
  }

  lemma {:induction false} BodyRegistersNothing(v: Verb, containerID: string, f: Fetched, o: Oracle)
    ensures Exec(Body(v, containerID, f), o).registered == []
  {
    NoRegistrations(Body(v, containerID, f), o);
  }

  /** An empty sandbox identifier is rejected before any lock or fetch, with
      `ErrNeedSandbox` for `StopSandbox` and `ErrNeedSandboxID` otherwise. */
  lemma {:induction false} RejectsMissingSandboxID(v: Verb, containerID: string, o: Oracle, f: Fetched)
    ensures Spec(v, "", containerID, o, f).trace == []
    ensures Spec(v, "", containerID, o, f).err
         == if v.StopSandbox? then Err(ErrNeedSandbox) else Err(ErrNeedSandboxID)
  {
  }

  /** The sandbox identifier is checked first; then, for the verbs that take
      one, an empty container identifier is rejected with
      `ErrNeedContainerID`, again before any call. Verbs that take no
      container identifier go on to take the lock. */
  lemma {:induction false} RejectsMissingContainerID(v: Verb, sandboxID: string, o: Oracle, f: Fetched)
    requires sandboxID != ""
    ensures NeedsContainerID(v) ==> Spec(v, sandboxID, "", o, f) == Outcome(Err(ErrNeedContainerID), [])
    ensures !NeedsContainerID(v) ==> Spec(v, sandboxID, "", o, f).trace[0] == LockSandbox(ModeOf(v), sandboxID)
  {
    if !NeedsContainerID(v) {
      Template(v, sandboxID, "", o, f);
    }
  }

  /** A trace that starts with `lock` and contains `unlock` exactly when
      the lock was taken, and then only as its last call. */
  predicate UnlockPairedIn(trace: seq<Call>, lock: Call, unlock: Call, locked: bool) {
    && trace != []
    && trace[0] == lock
    && (locked <==> unlock in trace)
    && (unlock in trace ==> trace[|trace| - 1] == unlock && unlock !in trace[..|trace| - 1])
  }

  /** Unlock is paired with lock: once the lock is taken, the matching
      unlock (same mode, same sandbox) is the last call and happens exactly
      once; when the lock fails no unlock happens. */
  lemma {:induction false} UnlockPaired(v: Verb, sandboxID: string, containerID: string, o: Oracle, f: Fetched)
    requires Validate(v, sandboxID, containerID).Ok?
    ensures var lock := LockSandbox(ModeOf(v), sandboxID);
            UnlockPairedIn(Spec(v, sandboxID, containerID, o, f).trace, lock, UnlockSandbox(ModeOf(v), sandboxID), o(lock).Ok?)
  {
    var lock, fetch := LockSandbox(ModeOf(v), sandboxID), Call.FetchSandbox(sandboxID);
    var unlock := UnlockSandbox(ModeOf(v), sandboxID);
    if o(lock).Err? {
      LockFails(v, sandboxID, containerID, o, f);
      assert UnlockPairedIn([lock], lock, unlock, false);
    } else if o(fetch).Err? {
      FetchFails(v, sandboxID, containerID, o, f);
      assert [lock, fetch, unlock][..2] == [lock, fetch];
      assert UnlockPairedIn([lock, fetch, unlock], lock, unlock, true);
    } else {
      FetchSucceeds(v, sandboxID, containerID, o, f);
      UnlockLast(v, sandboxID, containerID, o, f);
    }
  }

  /** After a successful fetch the unlock is the last call and no earlier
      call unlocks. */
  lemma UnlockLast(v: Verb, sandboxID: string, containerID: string, o: Oracle, f: Fetched)
    ensures var lock, unlock := LockSandbox(ModeOf(v), sandboxID), UnlockSandbox(ModeOf(v), sandboxID);
            var init := [lock] + [Call.FetchSandbox(sandboxID)] + Exec(Body(v, containerID, f), o).executed;
            UnlockPairedIn(init + Unlocking(v, sandboxID), lock, unlock, true)
  {
    var unlock := UnlockSandbox(ModeOf(v), sandboxID);
    var executed := Exec(Body(v, containerID, f), o).executed;
    var init := [LockSandbox(ModeOf(v), sandboxID)] + [Call.FetchSandbox(sandboxID)] + executed;
    var release := if v.CleanupContainer? then [Release] else [];
    assert Unlocking(v, sandboxID) == release + [unlock];
    LastOf(init, release, unlock);
    BodyExecutesNoUnlock(v, containerID, f, o, unlock);
  }

  /** The last element of `init + (r + [u])` is `u`, and `init + r` precedes it. */
  lemma LastOf<T>(init: seq<T>, r: seq<T>, u: T)
    ensures var t := init + (r + [u]);
            |t| > 0 && t[|t| - 1] == u && t[..|t| - 1] == init + r
  {
    var t := init + (r + [u]);
    assert t[..|t| - 1] == init + r;
  }

  /** No call a verb's body makes is an unlock. */
  lemma BodyExecutesNoUnlock(v: Verb, containerID: string, f: Fetched, o: Oracle, unlock: Call)
    requires unlock.UnlockSandbox?
    ensures unlock !in Exec(Body(v, containerID, f), o).executed
  {
    var body := Body(v, containerID, f);
    if unlock in Exec(body, o).executed {
      ExecutedFromPlan(body, o, unlock);
      var i :| 0 <= i < |body| && (unlock == body[i].call || unlock in body[i].onFailure);
      BodyNeverUnlocks(v, containerID, f, i);
    }
  }

  /** No step of a verb's body unlocks. */
  lemma {:induction false} BodyNeverUnlocks(v: Verb, containerID: string, f: Fetched, i: nat)
    requires i < |Body(v, containerID, f)|
    ensures !Body(v, containerID, f)[i].call.UnlockSandbox?
    ensures forall c :: c in Body(v, containerID, f)[i].onFailure ==> !c.UnlockSandbox?
  {
    var body := Body(v, containerID, f);
    if v.StatsSandbox? && i > 0 {
      assert body[i] == StatsSteps(f.containerIDs)[i - 1];
    }
  }

  /** `storeSandbox` runs only for `StartSandbox`, `StopSandbox` and
      `CreateContainer`, only under the exclusive lock, and only right after
      their Sandbox method succeeded; conversely a successful persisting verb
      has stored the sandbox. No store ever follows a failure. */
  lemma {:induction false} StoreOnlyAfterSuccessfulMutation(v: Verb, sandboxID: string, containerID: string, o: Oracle, f: Fetched)
    ensures var out := Spec(v, sandboxID, containerID, o, f);
            StoreSandbox in out.trace ==>
              && Persists(v) && ModeOf(v) == Exclusive
              && out.trace == [LockSandbox(Exclusive, sandboxID), Call.FetchSandbox(sandboxID),
                               Delegate(v, containerID), StoreSandbox, UnlockSandbox(Exclusive, sandboxID)]
              && o(Delegate(v, containerID)).Ok?
              && out.err == o(StoreSandbox)
    ensures var out := Spec(v, sandboxID, containerID, o, f);
            Persists(v) && out.err.Ok? ==> StoreSandbox in out.trace
  {
    if Validate(v, sandboxID, containerID).Ok? {
      var lock, fetch := LockSandbox(ModeOf(v), sandboxID), Call.FetchSandbox(sandboxID);
      if o(lock).Err? {
        LockFails(v, sandboxID, containerID, o, f);
      } else if o(fetch).Err? {
        FetchFails(v, sandboxID, containerID, o, f);
      } else if Persists(v) {
        PersistingRun(v, sandboxID, containerID, o, f);
      } else {
        FetchSucceeds(v, sandboxID, containerID, o, f);
        NoStoreAfterFetch(v, sandboxID, containerID, o, f);
      }
    }
  }

  /** A persisting verb past its fetch: its Sandbox method, then the store
      only when that method succeeded, then the unlock. */
  lemma PersistingRun(v: Verb, sandboxID: string, containerID: string, o: Oracle, f: Fetched)
    requires Persists(v) && Validate(v, sandboxID, containerID).Ok?
    requires o(LockSandbox(ModeOf(v), sandboxID)).Ok? && o(Call.FetchSandbox(sandboxID)).Ok?
    ensures var lock, fetch := LockSandbox(Exclusive, sandboxID), Call.FetchSandbox(sandboxID);
            var call, unlock := Delegate(v, containerID), UnlockSandbox(Exclusive, sandboxID);
            && ModeOf(v) == Exclusive
            && (o(call).Ok? ==> Spec(v, sandboxID, containerID, o, f) == Outcome(o(StoreSandbox), [lock, fetch, call, StoreSandbox, unlock]))
            && (o(call).Err? ==> Spec(v, sandboxID, containerID, o, f) == Outcome(o(call), [lock, fetch, call, unlock]))
  {
    FetchSucceeds(v, sandboxID, containerID, o, f);
    DelegateBody(v, containerID, f, o);
  }

  /** Past the fetch, a verb that does not persist makes no store call. */
  lemma NoStoreAfterFetch(v: Verb, sandboxID: string, containerID: string, o: Oracle, f: Fetched)
    requires !Persists(v)
    ensures StoreSandbox !in [LockSandbox(ModeOf(v), sandboxID)] + [Call.FetchSandbox(sandboxID)]
                             + Exec(Body(v, containerID, f), o).executed
                             + Unlocking(v, sandboxID)
  {
    var body := Body(v, containerID, f);
    if StoreSandbox in Exec(body, o).executed {
      ExecutedFromPlan(body, o, StoreSandbox);
      var i :| 0 <= i < |body| && (StoreSandbox == body[i].call || StoreSandbox in body[i].onFailure);
      BodyNeverStores(v, containerID, f, i);
    }
  }

  /** Only the body of a persisting verb calls `storeSandbox`. */
  lemma {:induction false} BodyNeverStores(v: Verb, containerID: string, f: Fetched, i: nat)
    requires !Persists(v) && i < |Body(v, containerID, f)|
    ensures Body(v, containerID, f)[i].call != StoreSandbox
    ensures StoreSandbox !in Body(v, containerID, f)[i].onFailure
  {
    var body := Body(v, containerID, f);
    if v.StatsSandbox? && i > 0 {
      assert body[i] == StatsSteps(f.containerIDs)[i - 1];
    }
  }
}
