/** The read side of the API layer: the status of one container, of one
    sandbox and of every stored sandbox, and the statistics of a sandbox and
    its containers. The statuses are pure lookups over the fetched sandbox;
    `StatusSandbox` and `StatsSandbox` range over the sandbox's container map
    and fail fast, while `ListSandbox` ranges over the stored sandbox
    identifiers and skips every one whose status fails. */
module Reports {
  import opened Calls
  import opened Defer
  import opened Facade

  /** The stored fields of a container that its status reports. */
  datatype Container = Container(
    id: string, state: string, pid: int, startTime: string, rootFs: string, annotations: map<string, string>)

  /** A fetched sandbox: its own fields, and its containers keyed by identifier. */
  datatype Sandbox = Sandbox(
    id: string, state: string, hypervisor: string, annotations: map<string, string>,
    containers: map<string, Container>)

  datatype ContainerStatus = ContainerStatus(
    id: string, state: string, pid: int, startTime: string, rootFs: string, annotations: map<string, string>)

  datatype SandboxStatus = SandboxStatus(
    id: string, state: string, hypervisor: string, containersStatus: seq<ContainerStatus>,
    annotations: map<string, string>)

  /** The zero values `ContainerStatus{}` and `SandboxStatus{}`. */
  const NoContainerStatus := ContainerStatus("", "", 0, "", "", map[])
  const NoSandboxStatus := SandboxStatus("", "", "", [], map[])

  /** Neither status verb consults the facts `Fetched` records. */
  const NoFacts := Fetched(false, [], 0)

  /** `statusContainer`: the stored container's fields when the identifier
      is a key of the container map, the empty status otherwise; it never
      fails. */
  function StatusContainerOf(s: Sandbox, containerID: string): (st: ContainerStatus)
    ensures containerID in s.containers ==>
              var c := s.containers[containerID];
              && st.id == c.id && st.state == c.state && st.pid == c.pid
              && st.startTime == c.startTime && st.rootFs == c.rootFs && st.annotations == c.annotations
    ensures containerID !in s.containers ==> st == NoContainerStatus
  {
    if containerID in s.containers then
      var c := s.containers[containerID];
      ContainerStatus(c.id, c.state, c.pid, c.startTime, c.rootFs, c.annotations)
    else NoContainerStatus
  }

  /** A range order over a sandbox's container map: keys of the map. */
  predicate KeysOf(s: Sandbox, order: seq<string>) {
    forall i :: 0 <= i < |order| ==> order[i] in s.containers
  }

  /** A range order that visits every key of the map exactly once, as Go's
      `range` does. */
  predicate Enumerates(s: Sandbox, order: seq<string>) {
    && KeysOf(s, order)
    && (forall k :: k in s.containers ==> k in order)
    && (forall i, j :: 0 <= i < j < |order| ==> order[i] != order[j])
  }

  /** The identifiers the containers carry, in range order; the loops of
      `StatusSandbox` and `StatsSandbox` look containers up by these, not by
      their keys. */
  function ContainerIDs(s: Sandbox, order: seq<string>): (ids: seq<string>)
    requires KeysOf(s, order)
    ensures |ids| == |order|
    ensures forall i :: 0 <= i < |order| ==> ids[i] == s.containers[order[i]].id
  {
    seq(|order|, i requires 0 <= i < |order| => s.containers[order[i]].id)
  }

  /** One status per container, in range order. */
  function Statuses(s: Sandbox, ids: seq<string>): (r: seq<ContainerStatus>)
    ensures |r| == |ids|
    ensures forall i :: 0 <= i < |ids| ==> r[i] == StatusContainerOf(s, ids[i])
  {
    if ids == [] then [] else Statuses(s, ids[..|ids| - 1]) + [StatusContainerOf(s, ids[|ids| - 1])]
  }

  /** The status `StatusSandbox` builds from a fetched sandbox. */
  function Report(s: Sandbox, order: seq<string>): SandboxStatus
    requires KeysOf(s, order)
  {
    SandboxStatus(s.id, s.state, s.hypervisor, Statuses(s, ContainerIDs(s, order)), s.annotations)
  }

  datatype StatusResult = StatusResult(status: SandboxStatus, err: Status)

  /** What `StatusSandbox` returns, read off its Go body: the zero status
      with the first error of the identifier check, the lock and the fetch,
      and otherwise the report with nil. */
  function StatusSandboxResult(sandboxID: string, o: Oracle, s: Sandbox, order: seq<string>): StatusResult
    requires KeysOf(s, order)
  {
    var lock, fetch := LockSandbox(Exclusive, sandboxID), Call.FetchSandbox(sandboxID);
    if sandboxID == "" then StatusResult(NoSandboxStatus, Err(ErrNeedSandboxID))
    else if o(lock).Err? then StatusResult(NoSandboxStatus, o(lock))
    else if o(fetch).Err? then StatusResult(NoSandboxStatus, o(fetch))
    else StatusResult(Report(s, order), Ok)
  }

  /** `StatusSandbox` as written: `s` is the sandbox the fetch returns and
      `order` the order its container map is ranged in. */
  method StatusSandbox(sandboxID: string, o: Oracle, s: Sandbox, order: seq<string>)
    returns (status: SandboxStatus, err: Status, trace: seq<Call>)
    requires KeysOf(s, order)
    ensures StatusResult(status, err) == StatusSandboxResult(sandboxID, o, s, order)
    ensures Outcome(err, trace) == Spec(Verb.StatusSandbox, sandboxID, "", o, NoFacts)
  {
    var v := Verb.StatusSandbox;
    if sandboxID == "" {
      return NoSandboxStatus, Err(ErrNeedSandboxID), [];
    }
    var lock, fetch := LockSandbox(Exclusive, sandboxID), Call.FetchSandbox(sandboxID);
    trace := [lock];
    err := o(lock);
    if err.Err? {
      LockFails(v, sandboxID, "", o, NoFacts);
      return NoSandboxStatus, err, trace;
    }
    var deferred := [Deferred(UnlockSandbox(Exclusive, sandboxID), Always)];
    trace := trace + [fetch];
    err := o(fetch);
    if err.Err? {
      FetchFails(v, sandboxID, "", o, NoFacts);
      var ran := RunDeferred(deferred, err);
      UnwindUnlock(Exclusive, sandboxID, err);
      return NoSandboxStatus, err, trace + ran;
    }
    FetchSucceeds(v, sandboxID, "", o, NoFacts);
    status := Describe(s, order);
    var ran := RunDeferred(deferred, err);
    UnwindUnlock(Exclusive, sandboxID, err);
    assert Exec(Body(v, "", NoFacts), o) == Progress([], Ok, []);
    assert trace + [] == trace;
    trace := trace + ran;
  }

  /** The part of `StatusSandbox` after the fetch: the sandbox's own fields
      and the status of each of its containers. */
  method Describe(s: Sandbox, order: seq<string>) returns (status: SandboxStatus)
    requires KeysOf(s, order)
    ensures status == Report(s, order)
  {
    var list := ContainerStatuses(s, order);
    status := SandboxStatus(s.id, s.state, s.hypervisor, list, s.annotations);
  }

  /** The loop of `StatusSandbox`: the status of each container, looked up
      by the identifier it carries, in range order. `statusContainer` never
      returns an error, so the loop's early return is unreachable. */
  method ContainerStatuses(s: Sandbox, order: seq<string>) returns (list: seq<ContainerStatus>)
    requires KeysOf(s, order)
    ensures list == Statuses(s, ContainerIDs(s, order))
  {
    list := [];
    ghost var ids := ContainerIDs(s, order);
    for i := 0 to |order|
      invariant list == Statuses(s, ids[..i])
    {
      var st := StatusContainerOf(s, s.containers[order[i]].id);
      assert ids[..i + 1][..i] == ids[..i];
      list := list + [st];
    }
    assert ids[..|order|] == ids;
  }

  /** The report holds one status per container of the sandbox, each that
      of the container stored under its key, provided every container
      carries its own key as identifier. */
  lemma {:induction false} ReportOnePerContainer(s: Sandbox, order: seq<string>)
    requires Enumerates(s, order)
    requires forall k :: k in s.containers ==> s.containers[k].id == k
    ensures var r := Report(s, order).containersStatus;
            && |r| == |s.containers|
            && forall i :: 0 <= i < |r| ==> r[i] == StatusContainerOf(s, order[i]) && r[i].id == order[i]
  {
    DistinctKeysCount(s.containers.Keys, order);
  }

  /** A sequence of distinct elements that covers a set has the set's size. */
  lemma {:induction false} DistinctKeysCount(keys: set<string>, order: seq<string>)
    requires forall i :: 0 <= i < |order| ==> order[i] in keys
    requires forall k :: k in keys ==> k in order
    requires forall i, j :: 0 <= i < j < |order| ==> order[i] != order[j]
    ensures |keys| == |order|
    decreases |order|
  {
    if order == [] {
      assert keys == {};
    } else {
      var last := order[|order| - 1];
      var init := order[..|order| - 1];
      forall k | k in keys - {last} ensures k in init {
        var i :| 0 <= i < |order| && order[i] == k;
        assert i < |order| - 1;
        assert init[i] == k;
      }
      DistinctKeysCount(keys - {last}, init);
    }
  }

  /** What `StatusContainer` returns: the checks, lock and fetch of every
      verb, then the lookup, which never fails. */
  function StatusContainerResult(sandboxID: string, containerID: string, o: Oracle, s: Sandbox): (ContainerStatus, Status) {
    var lock, fetch := LockSandbox(Exclusive, sandboxID), Call.FetchSandbox(sandboxID);
    if sandboxID == "" then (NoContainerStatus, Err(ErrNeedSandboxID))
    else if containerID == "" then (NoContainerStatus, Err(ErrNeedContainerID))
    else if o(lock).Err? then (NoContainerStatus, o(lock))
    else if o(fetch).Err? then (NoContainerStatus, o(fetch))
    else (StatusContainerOf(s, containerID), Ok)
  }

  /** `StatusContainer` as written. */
  method StatusContainer(sandboxID: string, containerID: string, o: Oracle, s: Sandbox)
    returns (status: ContainerStatus, err: Status, trace: seq<Call>)
    ensures (status, err) == StatusContainerResult(sandboxID, containerID, o, s)
    ensures Outcome(err, trace) == Spec(Verb.StatusContainer, sandboxID, containerID, o, NoFacts)
  {
    var v := Verb.StatusContainer;
    if sandboxID == "" {
      return NoContainerStatus, Err(ErrNeedSandboxID), [];
    }
    if containerID == "" {
      return NoContainerStatus, Err(ErrNeedContainerID), [];
    }
    var lock, fetch := LockSandbox(Exclusive, sandboxID), Call.FetchSandbox(sandboxID);
    trace := [lock];
    err := o(lock);
    if err.Err? {
      LockFails(v, sandboxID, containerID, o, NoFacts);
      return NoContainerStatus, err, trace;
    }
    var deferred := [Deferred(UnlockSandbox(Exclusive, sandboxID), Always)];
    trace := trace + [fetch];
    err := o(fetch);
    var ran := RunDeferred(deferred, err);
    UnwindUnlock(Exclusive, sandboxID, err);
    if err.Err? {
      FetchFails(v, sandboxID, containerID, o, NoFacts);
      return NoContainerStatus, err, trace + ran;
    }
    FetchSucceeds(v, sandboxID, containerID, o, NoFacts);
    assert Exec(Body(v, containerID, NoFacts), o) == Progress([], Ok, []);
    assert trace + [] == trace;
    status := StatusContainerOf(s, containerID);
    trace := trace + ran;
  }

  /** The two status verbs agree on a stored sandbox. `StatusSandbox` runs
      under the outcomes `o` and `StatusContainer`, a separate call with its
      own lock and fetch, under `o2`; both fetch the same stored sandbox `s`.
      When `StatusSandbox` succeeds and the second call's lock and fetch
      succeed, and each container carries its own key as a non-empty
      identifier, `StatusContainer` returns the entry `StatusSandbox`
      reported for that container, with nil. */
  lemma {:induction false} StatusVerbsAgree(sandboxID: string, o: Oracle, o2: Oracle, s: Sandbox, order: seq<string>, i: nat)
    requires KeysOf(s, order) && i < |order| && order[i] != "" && s.containers[order[i]].id == order[i]
    requires StatusSandboxResult(sandboxID, o, s, order).err.Ok?
    requires o2(LockSandbox(Exclusive, sandboxID)).Ok? && o2(Call.FetchSandbox(sandboxID)).Ok?
    ensures StatusContainerResult(sandboxID, order[i], o2, s)
         == (StatusSandboxResult(sandboxID, o, s, order).status.containersStatus[i], Ok)
  {
  }
}
