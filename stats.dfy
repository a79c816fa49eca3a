/** `StatsSandbox`: under the shared lock, the sandbox's own statistics and
    then those of each container, in the order the container map is ranged.
    The first failure aborts the whole call with empty results. */
module Stats {
  import opened Calls
  import opened Defer
  import opened Facade
  import opened Reports

  /** A statistics payload; its contents are opaque to the API layer. */
  datatype Reading = Reading(value: nat)

  /** The zero values `SandboxStats{}` and `ContainerStats{}`. */
  const NoReading := Reading(0)

  /** The payload `s.Stats()` and `s.StatsContainer(id)` return on success. */
  type Meter = Call -> Reading

  /** The error of the first container whose statistics fail, nil if none does. */
  function FirstContainerError(ids: seq<string>, o: Oracle): Status {
    if ids == [] then Ok
    else
      var before := FirstContainerError(ids[..|ids| - 1], o);
      if before.Err? then before else o(Call.StatsContainer(ids[|ids| - 1]))
  }

  /** One payload per container, in range order. */
  function Readings(ids: seq<string>, read: Meter): (r: seq<Reading>)
    ensures |r| == |ids|
    ensures forall i :: 0 <= i < |ids| ==> r[i] == read(Call.StatsContainer(ids[i]))
  {
    seq(|ids|, i requires 0 <= i < |ids| => read(Call.StatsContainer(ids[i])))
  }

  datatype StatsResult = StatsResult(sandboxStats: Reading, containerStats: seq<Reading>, err: Status)

  /** What `StatsSandbox` returns, read off its Go body: empty results with
      the first error of the identifier check, the lock, the fetch,
      `s.Stats()` and the containers in range order; otherwise every payload
      and nil. */
  function StatsSandboxResult(sandboxID: string, o: Oracle, read: Meter, ids: seq<string>): StatsResult {
    var lock, fetch := LockSandbox(Shared, sandboxID), Call.FetchSandbox(sandboxID);
    if sandboxID == "" then StatsResult(NoReading, [], Err(ErrNeedSandboxID))
    else if o(lock).Err? then StatsResult(NoReading, [], o(lock))
    else if o(fetch).Err? then StatsResult(NoReading, [], o(fetch))
    else Measured(o, read, ids)
  }

  /** What `StatsSandbox` returns once it holds the fetched sandbox. */
  function Measured(o: Oracle, read: Meter, ids: seq<string>): StatsResult {
    if o(Call.Stats).Err? then StatsResult(NoReading, [], o(Call.Stats))
    else if FirstContainerError(ids, o).Err? then StatsResult(NoReading, [], FirstContainerError(ids, o))
    else StatsResult(read(Call.Stats), Readings(ids, read), Ok)
  }

  /** `StatsSandbox` as written: `s` is the sandbox the fetch returns and
      `order` the order its container map is ranged in. */
  method StatsSandbox(sandboxID: string, o: Oracle, read: Meter, s: Sandbox, order: seq<string>)
    returns (sandboxStats: Reading, containerStats: seq<Reading>, err: Status, trace: seq<Call>)
    requires KeysOf(s, order)
    ensures StatsResult(sandboxStats, containerStats, err) == StatsSandboxResult(sandboxID, o, read, ContainerIDs(s, order))
    ensures Outcome(err, trace) == Spec(Verb.StatsSandbox, sandboxID, "", o, Fetched(false, ContainerIDs(s, order), 0))
  {
    var ids := ContainerIDs(s, order);
    if sandboxID == "" {
      return NoReading, [], Err(ErrNeedSandboxID), [];
    }
    var v, f := Verb.StatsSandbox, Fetched(false, ids, 0);
    var lock, fetch := LockSandbox(Shared, sandboxID), Call.FetchSandbox(sandboxID);
    trace := [lock];
    err := o(lock);
    if err.Err? {
      LockFails(v, sandboxID, "", o, f);
      return NoReading, [], err, trace;
    }
    var deferred := [Deferred(UnlockSandbox(Shared, sandboxID), Always)];
    trace := trace + [fetch];
    err := o(fetch);
    var ran;
    if err.Err? {
      FetchFails(v, sandboxID, "", o, f);
      ran := RunDeferred(deferred, err);
      UnwindUnlock(Shared, sandboxID, err);
      return NoReading, [], err, trace + ran;
    }
    FetchSucceeds(v, sandboxID, "", o, f);
    var executed;
    sandboxStats, containerStats, err, executed := Measure(ids, o, read);
    ran := RunDeferred(deferred, err);
    UnwindUnlock(Shared, sandboxID, err);
    trace := trace + executed + ran;
  }

  /** The part of `StatsSandbox` after the fetch: `s.Stats()`, then the
      container loop; any failure empties both results. */
  method Measure(ids: seq<string>, o: Oracle, read: Meter)
    returns (sandboxStats: Reading, containerStats: seq<Reading>, err: Status, executed: seq<Call>)
    ensures StatsResult(sandboxStats, containerStats, err) == Measured(o, read, ids)
    ensures Exec(Body(Verb.StatsSandbox, "", Fetched(false, ids, 0)), o) == Progress(executed, err, [])
  {
    StatsBody(o, ids);
    executed := [Call.Stats];
    err := o(Call.Stats);
    if err.Err? {
      return NoReading, [], err, executed;
    }
    sandboxStats := read(Call.Stats);
    var ran;
    containerStats, err, ran := ContainerReadings(ids, o, read);
    if err.Err? {
      sandboxStats := NoReading;
    }
    executed := executed + ran;
  }

  /** `StatsSandbox` end to end once its identifier passes the check: the
      lock, the fetch and `s.Stats()` each end the call with the unlock when
      they fail; otherwise the container loop runs before the unlock. */
  lemma {:induction false} StatsOutcome(sandboxID: string, o: Oracle, ids: seq<string>)
    requires sandboxID != ""
    ensures var lock, fetch := LockSandbox(Shared, sandboxID), Call.FetchSandbox(sandboxID);
            var unlock := UnlockSandbox(Shared, sandboxID);
            var out, loop := Spec(Verb.StatsSandbox, sandboxID, "", o, Fetched(false, ids, 0)), Exec(StatsSteps(ids), o);
            && (o(lock).Err? ==> out == Outcome(o(lock), [lock]))
            && (o(lock).Ok? && o(fetch).Err? ==> out == Outcome(o(fetch), [lock, fetch, unlock]))
            && (o(lock).Ok? && o(fetch).Ok? && o(Call.Stats).Err? ==>
                  out == Outcome(o(Call.Stats), [lock, fetch, Call.Stats, unlock]))
            && (o(lock).Ok? && o(fetch).Ok? && o(Call.Stats).Ok? ==>
                  out == Outcome(loop.err, [lock] + [fetch] + ([Call.Stats] + loop.executed) + [unlock]))
  {
    Template(Verb.StatsSandbox, sandboxID, "", o, Fetched(false, ids, 0));
    StatsBody(o, ids);
  }

  /** The body of `StatsSandbox`: `s.Stats()`, then the container loop. */
  lemma {:induction false} StatsBody(o: Oracle, ids: seq<string>)
    ensures var loop := Exec(StatsSteps(ids), o);
            Exec(Body(Verb.StatsSandbox, "", Fetched(false, ids, 0)), o)
            == if o(Call.Stats).Err? then Progress([Call.Stats], o(Call.Stats), [])
               else Progress([Call.Stats] + loop.executed, loop.err, [])
  {
    assert Body(Verb.StatsSandbox, "", Fetched(false, ids, 0)) == [Must(Call.Stats)] + StatsSteps(ids);
    ExecCons(Must(Call.Stats), StatsSteps(ids), o);
    NoRegistrations(StatsSteps(ids), o);
  }

  /** The loop of `StatsSandbox`: one `s.StatsContainer` call per container
      in range order, returning empty results at the first failure. */
  method ContainerReadings(ids: seq<string>, o: Oracle, read: Meter)
    returns (stats: seq<Reading>, err: Status, executed: seq<Call>)
    ensures Exec(StatsSteps(ids), o) == Progress(executed, err, [])
    ensures err == FirstContainerError(ids, o)
    ensures stats == if err.Ok? then Readings(ids, read) else []
  {
    stats, err, executed := [], Ok, [];
    assert StatsSteps(ids)[..0] == [] && ids[..0] == [];
    for i := 0 to |ids|
      invariant Exec(StatsSteps(ids)[..i], o) == Progress(executed, Ok, [])
      invariant FirstContainerError(ids[..i], o) == Ok
      invariant stats == Readings(ids[..i], read)
      invariant err == Ok
    {
      var call := Call.StatsContainer(ids[i]);
      ReadingStep(ids, i, o, read, executed);
      executed := executed + [call];
      err := o(call);
      if err.Err? {
        assert Exec(StatsSteps(ids), o) == Progress(executed, err, []);
        return [], err, executed;
      }
      stats := stats + [read(call)];
    }
    ExecWhole(StatsSteps(ids), |ids|, o);
    assert ids[..|ids|] == ids;
    assert Exec(StatsSteps(ids), o) == Progress(executed, err, []);
  }

  /** One turn of the loop, for the plan, the first failure and the payloads. */
  lemma {:induction false} ReadingStep(ids: seq<string>, i: nat, o: Oracle, read: Meter, executed: seq<Call>)
    requires i < |ids| && Exec(StatsSteps(ids)[..i], o) == Progress(executed, Ok, [])
    requires FirstContainerError(ids[..i], o) == Ok
    ensures var call := Call.StatsContainer(ids[i]);
            && (o(call).Ok? ==> Exec(StatsSteps(ids)[..i + 1], o) == Progress(executed + [call], Ok, []))
            && (o(call).Ok? ==> FirstContainerError(ids[..i + 1], o) == Ok)
            && (o(call).Err? ==> Exec(StatsSteps(ids), o) == Progress(executed + [call], o(call), []))
            && (o(call).Err? ==> FirstContainerError(ids, o) == o(call))
            && Readings(ids[..i + 1], read) == Readings(ids[..i], read) + [read(call)]
  {
    PlanStep(ids, i, o, executed);
    PrefixStep(ids, i, o, read);
    if o(Call.StatsContainer(ids[i])).Err? {
      FirstContainerErrorSticks(ids, i + 1, o);
    }
  }

  lemma PrefixStep(ids: seq<string>, i: nat, o: Oracle, read: Meter)
    requires i < |ids|
    ensures FirstContainerError(ids[..i + 1], o)
         == if FirstContainerError(ids[..i], o).Err? then FirstContainerError(ids[..i], o) else o(Call.StatsContainer(ids[i]))
    ensures Readings(ids[..i + 1], read) == Readings(ids[..i], read) + [read(Call.StatsContainer(ids[i]))]
  {
    assert ids[..i + 1][..i] == ids[..i];
  }

  lemma {:induction false} PlanStep(ids: seq<string>, i: nat, o: Oracle, executed: seq<Call>)
    requires i < |ids| && Exec(StatsSteps(ids)[..i], o) == Progress(executed, Ok, [])
    ensures var call := Call.StatsContainer(ids[i]);
            && (o(call).Ok? ==> Exec(StatsSteps(ids)[..i + 1], o) == Progress(executed + [call], Ok, []))
            && (o(call).Err? ==> Exec(StatsSteps(ids), o) == Progress(executed + [call], o(call), []))
  {
    var plan := StatsSteps(ids);
    assert plan[i] == Must(Call.StatsContainer(ids[i]));
    ExecExtend(plan, i, o);
  }

  /** Once a prefix has a failing container, later containers do not change
      the first failure. */
  lemma {:induction false} FirstContainerErrorSticks(ids: seq<string>, k: nat, o: Oracle)
    requires k <= |ids| && FirstContainerError(ids[..k], o).Err?
    ensures FirstContainerError(ids, o) == FirstContainerError(ids[..k], o)
    decreases |ids| - k
  {
    if k < |ids| {
      var longer := ids[..k + 1];
      assert longer[..k] == ids[..k];
      FirstContainerErrorSticks(ids, k + 1, o);
    } else {
      assert ids[..k] == ids;
    }
  }

  /** The first failure is nil exactly when every container's statistics
      succeed; otherwise it is the error of some container all of whose
      predecessors succeeded. */
  lemma {:induction false} FirstContainerErrorIsFirst(ids: seq<string>, o: Oracle)
    ensures FirstContainerError(ids, o).Ok? <==> forall i :: 0 <= i < |ids| ==> o(Call.StatsContainer(ids[i])).Ok?
    ensures FirstContainerError(ids, o).Err? ==>
              exists k :: 0 <= k < |ids| && FirstContainerError(ids, o) == o(Call.StatsContainer(ids[k]))
                          && forall i :: 0 <= i < k ==> o(Call.StatsContainer(ids[i])).Ok?
  {
    if ids != [] {
      var init := ids[..|ids| - 1];
      FirstContainerErrorIsFirst(init, o);
      assert forall i :: 0 <= i < |init| ==> init[i] == ids[i];
      if FirstContainerError(init, o).Err? {
        var k :| 0 <= k < |init| && FirstContainerError(init, o) == o(Call.StatsContainer(init[k]))
                 && forall i :: 0 <= i < k ==> o(Call.StatsContainer(init[i])).Ok?;
        assert FirstContainerError(ids, o) == o(Call.StatsContainer(ids[k]));
      } else {
        assert FirstContainerError(ids, o) == o(Call.StatsContainer(ids[|ids| - 1]));
      }
    }
  }

  /** All or nothing: `StatsSandbox` returns nil exactly when the sandbox's
      and every container's statistics succeed, and then one payload per
      container in range order; any failure returns empty results. When the
      range order visits every container once, there is one payload per
      container of the sandbox. */
  lemma {:induction false} StatsAllOrNothing(sandboxID: string, o: Oracle, read: Meter, s: Sandbox, order: seq<string>)
    requires KeysOf(s, order)
    ensures var ids := ContainerIDs(s, order);
            var r := StatsSandboxResult(sandboxID, o, read, ids);
            && (r.err.Ok? <==>
                  && sandboxID != "" && o(LockSandbox(Shared, sandboxID)).Ok? && o(Call.FetchSandbox(sandboxID)).Ok?
                  && o(Call.Stats).Ok? && forall i :: 0 <= i < |ids| ==> o(Call.StatsContainer(ids[i])).Ok?)
            && (r.err.Ok? ==>
                  && r.sandboxStats == read(Call.Stats)
                  && |r.containerStats| == |order|
                  && forall i :: 0 <= i < |order| ==>
                       r.containerStats[i] == read(Call.StatsContainer(s.containers[order[i]].id)))
            && (r.err.Err? ==> r.sandboxStats == NoReading && r.containerStats == [])
    ensures Enumerates(s, order) && StatsSandboxResult(sandboxID, o, read, ContainerIDs(s, order)).err.Ok? ==>
              |StatsSandboxResult(sandboxID, o, read, ContainerIDs(s, order)).containerStats| == |s.containers|
  {
    FirstContainerErrorIsFirst(ContainerIDs(s, order), o);
    if Enumerates(s, order) {
      DistinctKeysCount(s.containers.Keys, order);
    }
  }
}
