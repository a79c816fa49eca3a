/** `CleanupContainer`: under the exclusive lock, stop and delete one
    container and, once no container is left, stop and delete the sandbox
    too. `s.Release()` is deferred right after the fetch, so it runs before
    the unlock on every return after a successful fetch. */
module Cleanup {
  import opened Calls
  import opened Defer
  import opened Facade

  /** The cleanup as its Go body reads after the fetch: each failure returns
      its error unless `force` is set, except the final `s.Delete()`, whose
      error is always returned; with containers left it returns nil before
      touching the sandbox. */
  function CleanupSteps(containerID: string, force: bool, remaining: nat, o: Oracle): Progress {
    var stopC, deleteC := Call.StopContainer(containerID, force), Call.DeleteContainer(containerID);
    if o(stopC).Err? && !force then Progress([stopC], o(stopC), [])
    else if o(deleteC).Err? && !force then Progress([stopC, deleteC], o(deleteC), [])
    else if remaining > 0 then Progress([stopC, deleteC], Ok, [])
    else if o(Stop(force)).Err? && !force then Progress([stopC, deleteC, Stop(force)], o(Stop(force)), [])
    else Progress([stopC, deleteC, Stop(force), Delete], o(Delete), [])
  }

  /** Stopping and deleting the sandbox once no container is left. */
  lemma {:induction false} TeardownSteps(force: bool, o: Oracle)
    ensures Exec([Step(Stop(force), force, [], []), Must(Delete)], o)
         == if o(Stop(force)).Err? && !force then Progress([Stop(force)], o(Stop(force)), [])
            else Progress([Stop(force), Delete], o(Delete), [])
  {
    var s3, s4 := Step(Stop(force), force, [], []), Must(Delete);
    assert [s3, s4] == [s3] + [s4];
    ExecCons(s3, [s4], o);
    ExecSingle(s4, o);
  }

  /** The step plan of the cleanup verb runs exactly as the Go body reads. */
  lemma {:induction false} CleanupBody(containerID: string, force: bool, f: Fetched, o: Oracle)
    ensures Exec(Body(Verb.CleanupContainer(force), containerID, f), o) == CleanupSteps(containerID, force, f.remaining, o)
  {
    var s1 := Step(Call.StopContainer(containerID, force), force, [], []);
    var s2 := Step(Call.DeleteContainer(containerID), force, [], []);
    var tail: seq<Step> := if f.remaining == 0 then [Step(Stop(force), force, [], []), Must(Delete)] else [];
    assert Body(Verb.CleanupContainer(force), containerID, f) == [s1] + ([s2] + tail);
    ExecCons(s1, [s2] + tail, o);
    ExecCons(s2, tail, o);
    if f.remaining == 0 {
      TeardownSteps(force, o);
    }
  }

  /** After a successful lock and fetch: the cleanup runs, then
      `s.Release()`, then the unlock. */
  lemma CleanupFetched(sandboxID: string, containerID: string, force: bool, o: Oracle, f: Fetched)
    requires sandboxID != "" && containerID != ""
    requires o(LockSandbox(Exclusive, sandboxID)).Ok? && o(Call.FetchSandbox(sandboxID)).Ok?
    ensures var cs := CleanupSteps(containerID, force, f.remaining, o);
            Spec(Verb.CleanupContainer(force), sandboxID, containerID, o, f)
              == Outcome(cs.err, [LockSandbox(Exclusive, sandboxID)] + [Call.FetchSandbox(sandboxID)] + cs.executed
                                 + [Release, UnlockSandbox(Exclusive, sandboxID)])
  {
    FetchSucceeds(Verb.CleanupContainer(force), sandboxID, containerID, o, f);
    CleanupBody(containerID, force, f, o);
  }

  /** The cleanup verb end to end: a failed lock is the only call; a failed
      fetch only unlocks; after a successful fetch the cleanup runs, then
      `s.Release()`, then the unlock. */
  lemma {:induction false} CleanupOutcome(sandboxID: string, containerID: string, force: bool, o: Oracle, f: Fetched)
    requires sandboxID != "" && containerID != ""
    ensures var lock, fetch := LockSandbox(Exclusive, sandboxID), Call.FetchSandbox(sandboxID);
            var unlock := UnlockSandbox(Exclusive, sandboxID);
            var out, cs := Spec(Verb.CleanupContainer(force), sandboxID, containerID, o, f),
                           CleanupSteps(containerID, force, f.remaining, o);
            && (o(lock).Err? ==> out == Outcome(o(lock), [lock]))
            && (o(lock).Ok? && o(fetch).Err? ==> out == Outcome(o(fetch), [lock, fetch, unlock]))
            && (o(lock).Ok? && o(fetch).Ok? ==> out == Outcome(cs.err, [lock] + [fetch] + cs.executed + [Release, unlock]))
  {
    var v, lock, fetch := Verb.CleanupContainer(force), LockSandbox(Exclusive, sandboxID), Call.FetchSandbox(sandboxID);
    if o(lock).Err? {
      LockFails(v, sandboxID, containerID, o, f);
    } else if o(fetch).Err? {
      FetchFails(v, sandboxID, containerID, o, f);
    } else {
      CleanupFetched(sandboxID, containerID, force, o, f);
    }
  }

  /** `CleanupContainer` as its Go body is written, with every early return
      running the deferred `s.Release()` and unlock. */
  method CleanupContainer(sandboxID: string, containerID: string, force: bool, o: Oracle, f: Fetched)
    returns (err: Status, trace: seq<Call>)
    ensures Outcome(err, trace) == Spec(Verb.CleanupContainer(force), sandboxID, containerID, o, f)
  {
    if sandboxID == "" {
      return Err(ErrNeedSandboxID), [];
    }
    if containerID == "" {
      return Err(ErrNeedContainerID), [];
    }
    var v := Verb.CleanupContainer(force);
    var lock, fetch := LockSandbox(Exclusive, sandboxID), Call.FetchSandbox(sandboxID);
    trace := [lock];
    err := o(lock);
    if err.Err? {
      LockFails(v, sandboxID, containerID, o, f);
      return;
    }
    var deferred := [Deferred(UnlockSandbox(Exclusive, sandboxID), Always)];
    trace := trace + [fetch];
    err := o(fetch);
    if err.Err? {
      FetchFails(v, sandboxID, containerID, o, f);
      var ran := RunDeferred(deferred, err);
      UnwindUnlock(Exclusive, sandboxID, err);
      return err, trace + ran;
    }
    CleanupFetched(sandboxID, containerID, force, o, f);
    deferred := deferred + [Deferred(Release, Always)];
    var executed;
    err, executed := StopAndDelete(containerID, force, o, f.remaining);
    trace := Finish(trace + executed, deferred, err, sandboxID);
  }

  /** The part of the Go body after `defer s.Release()`: every `return`
      there leaves through the deferred calls, which `Finish` runs. */
  method StopAndDelete(containerID: string, force: bool, o: Oracle, remaining: nat)
    returns (err: Status, executed: seq<Call>)
    ensures Progress(executed, err, []) == CleanupSteps(containerID, force, remaining, o)
  {
    executed := [Call.StopContainer(containerID, force)];
    err := o(Call.StopContainer(containerID, force));
    if err.Err? && !force {
      return;
    }
    executed := executed + [Call.DeleteContainer(containerID)];
    err := o(Call.DeleteContainer(containerID));
    if err.Err? && !force {
      return;
    }
    if remaining > 0 {
      return Ok, executed;
    }
    executed := executed + [Stop(force)];
    err := o(Stop(force));
    if err.Err? && !force {
      return;
    }
    executed := executed + [Delete];
    err := o(Delete);
  }

  /** Returning after a successful fetch: the deferred calls run, the
      `s.Release()` registered last first, then the unlock. */
  method Finish(trace: seq<Call>, deferred: seq<Deferred>, err: Status, ghost sandboxID: string) returns (done: seq<Call>)
    requires deferred == [Deferred(UnlockSandbox(Exclusive, sandboxID), Always), Deferred(Release, Always)]
    ensures done == trace + [Release, UnlockSandbox(Exclusive, sandboxID)]
  {
    var ran := RunDeferred(deferred, err);
    UnwindUnlock(Exclusive, sandboxID, err);
    assert deferred[..1] == [Deferred(UnlockSandbox(Exclusive, sandboxID), Always)];
    done := trace + ran;
  }

  // What the source promises about the cleanup.

  /** Under `force` every step runs; the result is nil with containers left
      and otherwise the error of `s.Delete()`. */
  lemma ForcedSteps(containerID: string, remaining: nat, o: Oracle)
    ensures CleanupSteps(containerID, true, remaining, o)
         == Progress([Call.StopContainer(containerID, true), Call.DeleteContainer(containerID)]
                     + (if remaining == 0 then [Stop(true), Delete] else []),
                     if remaining > 0 then Ok else o(Delete), [])
  {
  }

  /** With `force` set, the failures of `StopContainer`, `DeleteContainer`
      and `s.Stop` are ignored and every step runs; the result is nil when
      containers remain and otherwise the error of the final `s.Delete()`. */
  lemma {:induction false} ForceIgnoresAllButDelete(sandboxID: string, containerID: string, o: Oracle, f: Fetched)
    requires sandboxID != "" && containerID != ""
    requires o(LockSandbox(Exclusive, sandboxID)).Ok? && o(Call.FetchSandbox(sandboxID)).Ok?
    ensures var out := Spec(Verb.CleanupContainer(true), sandboxID, containerID, o, f);
            && out.err == (if f.remaining > 0 then Ok else o(Delete))
            && out.trace
               == [LockSandbox(Exclusive, sandboxID)] + [Call.FetchSandbox(sandboxID)]
                  + [Call.StopContainer(containerID, true), Call.DeleteContainer(containerID)]
                  + (if f.remaining == 0 then [Stop(true), Delete] else [])
                  + [Release, UnlockSandbox(Exclusive, sandboxID)]
  {
    CleanupFetched(sandboxID, containerID, true, o, f);
    ForcedSteps(containerID, f.remaining, o);
    AppendAssoc([LockSandbox(Exclusive, sandboxID)] + [Call.FetchSandbox(sandboxID)],
                [Call.StopContainer(containerID, true), Call.DeleteContainer(containerID)],
                if f.remaining == 0 then [Stop(true), Delete] else []);
  }

  /** Without `force` the steps stop at the first failure, whose error is
      returned: nil exactly when every step reached succeeds. */
  lemma UnforcedSteps(containerID: string, remaining: nat, o: Oracle)
    ensures var cs := CleanupSteps(containerID, false, remaining, o);
            && |cs.executed| >= 2 - (if o(Call.StopContainer(containerID, false)).Err? then 1 else 0)
            && (cs.err.Ok?
                <==> && o(Call.StopContainer(containerID, false)).Ok? && o(Call.DeleteContainer(containerID)).Ok?
                     && (remaining == 0 ==> o(Stop(false)).Ok? && o(Delete).Ok?))
            && (cs.err.Err? ==> cs.err == o(cs.executed[|cs.executed| - 1]))
  {
  }

  /** The last calls of a cleanup that fetched the sandbox. */
  lemma EndsWithRelease(prefix: seq<Call>, executed: seq<Call>, unlock: Call)
    requires |executed| > 0
    ensures var t := prefix + executed + [Release, unlock];
            && |t| == |prefix| + |executed| + 2
            && t[|t| - 2..] == [Release, unlock]
            && t[|t| - 3] == executed[|executed| - 1]
  {
    var t := prefix + executed + [Release, unlock];
    assert t[|t| - 2..] == [Release, unlock];
  }

  /** Without `force`, the cleanup fails fast: it returns nil exactly when
      every step it reaches succeeds, and on a failure the failing call is
      the last one before `s.Release()` and the unlock, and its error is
      returned. */
  lemma {:induction false} NonForceFailsFast(sandboxID: string, containerID: string, o: Oracle, f: Fetched)
    requires sandboxID != "" && containerID != ""
    requires o(LockSandbox(Exclusive, sandboxID)).Ok? && o(Call.FetchSandbox(sandboxID)).Ok?
    ensures var out := Spec(Verb.CleanupContainer(false), sandboxID, containerID, o, f);
            out.err.Ok?
            <==> && o(Call.StopContainer(containerID, false)).Ok? && o(Call.DeleteContainer(containerID)).Ok?
                 && (f.remaining == 0 ==> o(Stop(false)).Ok? && o(Delete).Ok?)
    ensures var out := Spec(Verb.CleanupContainer(false), sandboxID, containerID, o, f);
            out.err.Err? ==>
              && |out.trace| >= 5
              && out.trace[|out.trace| - 2..] == [Release, UnlockSandbox(Exclusive, sandboxID)]
              && out.err == o(out.trace[|out.trace| - 3])
  {
    CleanupFetched(sandboxID, containerID, false, o, f);
    UnforcedSteps(containerID, f.remaining, o);
    var cs := CleanupSteps(containerID, false, f.remaining, o);
    EndsWithRelease([LockSandbox(Exclusive, sandboxID)] + [Call.FetchSandbox(sandboxID)], cs.executed,
                    UnlockSandbox(Exclusive, sandboxID));
  }

  /** The sandbox is stopped and deleted only when no container is left
      after the container delete, and only when the earlier steps succeeded
      or were forced; in that case it always is. */
  lemma {:induction false} SandboxDeletedOnlyWhenEmpty(sandboxID: string, containerID: string, force: bool, o: Oracle, f: Fetched)
    requires sandboxID != "" && containerID != ""
    ensures var out := Spec(Verb.CleanupContainer(force), sandboxID, containerID, o, f);
            Delete in out.trace || Stop(force) in out.trace ==> f.remaining == 0
    ensures var out := Spec(Verb.CleanupContainer(force), sandboxID, containerID, o, f);
            Delete in out.trace
            <==> && o(LockSandbox(Exclusive, sandboxID)).Ok? && o(Call.FetchSandbox(sandboxID)).Ok?
                 && f.remaining == 0
                 && (force || (o(Call.StopContainer(containerID, false)).Ok? && o(Call.DeleteContainer(containerID)).Ok?
                               && o(Stop(false)).Ok?))
  {
    var v, lock, fetch := Verb.CleanupContainer(force), LockSandbox(Exclusive, sandboxID), Call.FetchSandbox(sandboxID);
    if o(lock).Err? {
      LockFails(v, sandboxID, containerID, o, f);
    } else if o(fetch).Err? {
      FetchFails(v, sandboxID, containerID, o, f);
    } else {
      CleanupFetched(sandboxID, containerID, force, o, f);
      TeardownOnlyWhenEmpty(containerID, force, f.remaining, o);
      var cs := CleanupSteps(containerID, force, f.remaining, o);
      var unlock := UnlockSandbox(Exclusive, sandboxID);
      assert Delete in [lock] + [fetch] + cs.executed + [Release, unlock] <==> Delete in cs.executed;
      assert Stop(force) in [lock] + [fetch] + cs.executed + [Release, unlock] <==> Stop(force) in cs.executed;
    }
  }

  lemma TeardownOnlyWhenEmpty(containerID: string, force: bool, remaining: nat, o: Oracle)
    ensures var cs := CleanupSteps(containerID, force, remaining, o);
            && (Stop(force) in cs.executed ==> remaining == 0)
            && (Delete in cs.executed
                <==> remaining == 0
                     && (force || (o(Call.StopContainer(containerID, false)).Ok? && o(Call.DeleteContainer(containerID)).Ok?
                                   && o(Stop(false)).Ok?)))
  {
  }

  /** `s.Release()` runs exactly when the fetch succeeded, and then it is
      the second-to-last call, just before the unlock. */
  lemma {:induction false} ReleaseIffFetched(sandboxID: string, containerID: string, force: bool, o: Oracle, f: Fetched)
    requires sandboxID != "" && containerID != ""
    ensures var out := Spec(Verb.CleanupContainer(force), sandboxID, containerID, o, f);
            Release in out.trace <==> o(LockSandbox(Exclusive, sandboxID)).Ok? && o(Call.FetchSandbox(sandboxID)).Ok?
    ensures var out := Spec(Verb.CleanupContainer(force), sandboxID, containerID, o, f);
            Release in out.trace ==>
              |out.trace| >= 4 && out.trace[|out.trace| - 2..] == [Release, UnlockSandbox(Exclusive, sandboxID)]
  {
    var v, lock, fetch := Verb.CleanupContainer(force), LockSandbox(Exclusive, sandboxID), Call.FetchSandbox(sandboxID);
    if o(lock).Err? {
      LockFails(v, sandboxID, containerID, o, f);
    } else if o(fetch).Err? {
      FetchFails(v, sandboxID, containerID, o, f);
    } else {
      CleanupFetched(sandboxID, containerID, force, o, f);
      var cs := CleanupSteps(containerID, force, f.remaining, o);
      assert Release !in cs.executed;
      EndsWithRelease([lock] + [fetch], cs.executed, UnlockSandbox(Exclusive, sandboxID));
    }
  }
}
