/** Sandbox creation with rollback (`createSandboxFromConfig`) and the entry
    point that creates and then starts a sandbox (`RunSandbox`).

    Creation runs its steps in a fixed order. After `createSandbox`,
    `createNetwork` and `startVM` succeed, a rollback closure is deferred that
    fires only when the named `err` result is non-nil at return: `s.Delete()`,
    `s.removeNetwork()` and `s.stopVM()`. They fire last-in-first-out. */
module Creation {
  import opened Calls
  import opened Defer

  /** `createSandbox`, followed by the deferred `s.Delete()` rollback. */
  const CreateStep := Step(NewSandbox, false, [Deferred(Delete, OnError)], [])
  /** `s.createNetwork()`, followed by the deferred `s.removeNetwork()` rollback. */
  const NetworkStep := Step(CreateNetwork, false, [Deferred(RemoveNetwork, OnError)], [])
  /** `s.startVM()`, followed by the deferred `s.stopVM()` rollback. */
  const VMStep := Step(StartVM, false, [Deferred(StopVM, OnError)], [])
  /** `s.postCreatedNetwork()`, whose result is discarded. */
  const PostStep := Step(PostCreatedNetwork, true, [], [])

  /** The cgroup steps, run only when the sandbox configuration asks for
      `SandboxCgroupOnly`. */
  function CgroupSteps(cgroupOnly: bool): seq<Step> {
    if cgroupOnly then [Must(CreateCgroupManager), Must(SetupSandboxCgroup)] else []
  }

  function CgroupCalls(cgroupOnly: bool): seq<Call> {
    if cgroupOnly then [CreateCgroupManager] + [SetupSandboxCgroup] else []
  }

  /** The steps of `createSandboxFromConfig`, in order. */
  function CreationPlan(cgroupOnly: bool): seq<Step> {
    [CreateStep, NetworkStep] + CgroupSteps(cgroupOnly)
    + [VMStep, PostStep, Must(GetAndStoreGuestDetails), Must(CreateContainers), Must(StoreSandbox)]
  }

  /** What creation returns and every call it makes. */
  function CreationRun(cgroupOnly: bool, o: Oracle): Outcome {
    Run(CreationPlan(cgroupOnly), o)
  }

  /** The forward calls up to the cgroup steps. */
  function Networked(cgroupOnly: bool): seq<Call> {
    [NewSandbox] + [CreateNetwork] + CgroupCalls(cgroupOnly)
  }

  /** The forward calls up to a running virtual machine. */
  function Booted(cgroupOnly: bool): seq<Call> {
    Networked(cgroupOnly) + [StartVM] + [PostCreatedNetwork]
  }

  /** The forward calls of a creation in which every step succeeds. */
  function ForwardCalls(cgroupOnly: bool): seq<Call> {
    Booted(cgroupOnly) + [GetAndStoreGuestDetails] + [CreateContainers] + [StoreSandbox]
  }

  /** The rollbacks pending once the sandbox and its network exist. */
  function NetworkRollbacks(): seq<Deferred> {
    [Deferred(Delete, OnError)] + [Deferred(RemoveNetwork, OnError)]
  }

  /** The rollbacks pending once the virtual machine is up. */
  function VMRollbacks(): seq<Deferred> {
    NetworkRollbacks() + [Deferred(StopVM, OnError)]
  }

  /** The sandbox and its network exist. */
  predicate NetworkUp(o: Oracle) {
    o(NewSandbox).Ok? && o(CreateNetwork).Ok?
  }

  /** The cgroup steps, when they run, succeed. */
  predicate CgroupReady(cgroupOnly: bool, o: Oracle) {
    !cgroupOnly || (o(CreateCgroupManager).Ok? && o(SetupSandboxCgroup).Ok?)
  }

  /** The virtual machine is up. */
  predicate VMUp(cgroupOnly: bool, o: Oracle) {
    NetworkUp(o) && CgroupReady(cgroupOnly, o) && o(StartVM).Ok?
  }

  /** Every step whose error counts succeeds. */
  predicate AllSucceed(cgroupOnly: bool, o: Oracle) {
    VMUp(cgroupOnly, o) && o(GetAndStoreGuestDetails).Ok? && o(CreateContainers).Ok? && o(StoreSandbox).Ok?
  }

  /** The rollback calls. */
  predicate IsRollback(c: Call) {
    c == Delete || c == RemoveNetwork || c == StopVM
  }

  /** `createSandboxFromConfig` as written: each failing step returns its
      error, and at every return the deferred rollbacks registered so far
      run against the named `err` result. */
  method CreateSandboxFromConfig(cgroupOnly: bool, o: Oracle) returns (err: Status, trace: seq<Call>)
    ensures Outcome(err, trace) == CreationRun(cgroupOnly, o)
  {
    var deferred: seq<Deferred> := [];

    // s, err := createSandbox(...)
    trace := [NewSandbox];
    err := o(NewSandbox);
    if err.Err? {
      CreateFails(cgroupOnly, o);
      var ran := RunDeferred(deferred, err);
      return err, trace + ran;
    }
    deferred := [Deferred(Delete, OnError)];

    // err = s.createNetwork()
    trace := trace + [CreateNetwork];
    err := o(CreateNetwork);
    if err.Err? {
      NetworkFails(cgroupOnly, o);
      var ran := RunDeferred(deferred, err);
      return err, trace + ran;
    }
    deferred := deferred + [Deferred(RemoveNetwork, OnError)];

    if cgroupOnly {
      // these errors are scoped to their `if`; `return nil, err` assigns
      // them to the named result before the rollbacks run
      trace := trace + [CreateCgroupManager];
      var cgErr := o(CreateCgroupManager);
      if cgErr.Err? {
        err := cgErr;
        CgroupFails(cgroupOnly, o);
        var ran := RunDeferred(deferred, err);
        return err, trace + ran;
      }
      trace := trace + [SetupSandboxCgroup];
      cgErr := o(SetupSandboxCgroup);
      if cgErr.Err? {
        err := cgErr;
        CgroupFails(cgroupOnly, o);
        var ran := RunDeferred(deferred, err);
        return err, trace + ran;
      }
    }
    assert trace == Networked(cgroupOnly);

    // err = s.startVM()
    trace := trace + [StartVM];
    err := o(StartVM);
    if err.Err? {
      VMFails(cgroupOnly, o);
      var ran := RunDeferred(deferred, err);
      return err, trace + ran;
    }
    deferred := deferred + [Deferred(StopVM, OnError)];

    // s.postCreatedNetwork(), result ignored
    trace := trace + [PostCreatedNetwork];

    // err = s.getAndStoreGuestDetails()
    trace := trace + [GetAndStoreGuestDetails];
    err := o(GetAndStoreGuestDetails);
    if err.Err? {
      GuestDetailsFail(cgroupOnly, o);
      var ran := RunDeferred(deferred, err);
      return err, trace + ran;
    }

    // err = s.createContainers()
    trace := trace + [CreateContainers];
    err := o(CreateContainers);
    if err.Err? {
      ContainersFail(cgroupOnly, o);
      var ran := RunDeferred(deferred, err);
      return err, trace + ran;
    }

    // err = s.storeSandbox()
    trace := trace + [StoreSandbox];
    err := o(StoreSandbox);
    if err.Err? {
      StoreFails(cgroupOnly, o);
      var ran := RunDeferred(deferred, err);
      return err, trace + ran;
    }

    Succeeds(cgroupOnly, o);
    var ran := RunDeferred(deferred, err);
    return err, trace + ran;
  }

  /** One more step of a plan, taken from a state where every earlier step
      has passed. */
  lemma {:induction false} Advance(plan: seq<Step>, k: nat, o: Oracle, trace: seq<Call>, deferred: seq<Deferred>, st: Step)
    requires k < |plan| && plan[k] == st && st.onFailure == []
    requires Exec(plan[..k], o) == Progress(trace, Ok, deferred)
    ensures Passes(st, o) ==> Exec(plan[..k + 1], o) == Progress(trace + [st.call], Ok, deferred + Registers(st, o))
    ensures !Passes(st, o) ==> Run(plan, o) == Outcome(o(st.call), trace + [st.call] + Unwind(deferred, o(st.call)))
  {
    ExecExtend(plan, k, o);
    assert trace + [st.call] + st.onFailure == trace + [st.call];
  }

  // The stages of creation, each stated as the engine computes it: the
  // calls made so far, then the pending rollbacks unwound.

  /** `createSandbox` fails: no rollback is pending. */
  lemma {:induction false} CreateFails(cgroupOnly: bool, o: Oracle)
    requires o(NewSandbox).Err?
    ensures CreationRun(cgroupOnly, o) == Outcome(o(NewSandbox), [NewSandbox] + Unwind([], o(NewSandbox)))
  {
    var plan := CreationPlan(cgroupOnly);
    assert plan[..0] == [];
    Advance(plan, 0, o, [], [], CreateStep);
    assert [] + [NewSandbox] == [NewSandbox];
  }

  lemma {:induction false} SandboxDone(cgroupOnly: bool, o: Oracle)
    requires o(NewSandbox).Ok?
    ensures Exec(CreationPlan(cgroupOnly)[..1], o) == Progress([NewSandbox], Ok, [Deferred(Delete, OnError)])
  {
    var plan := CreationPlan(cgroupOnly);
    assert plan[..0] == [];
    Advance(plan, 0, o, [], [], CreateStep);
    assert [] + [NewSandbox] == [NewSandbox];
    assert [] + [Deferred(Delete, OnError)] == [Deferred(Delete, OnError)];
  }

  /** `createNetwork` fails: only the sandbox's rollback is pending. */
  lemma {:induction false} NetworkFails(cgroupOnly: bool, o: Oracle)
    requires o(NewSandbox).Ok? && o(CreateNetwork).Err?
    ensures CreationRun(cgroupOnly, o)
         == Outcome(o(CreateNetwork), [NewSandbox] + [CreateNetwork] + Unwind([Deferred(Delete, OnError)], o(CreateNetwork)))
  {
    SandboxDone(cgroupOnly, o);
    Advance(CreationPlan(cgroupOnly), 1, o, [NewSandbox], [Deferred(Delete, OnError)], NetworkStep);
  }

  lemma {:induction false} NetworkDone(cgroupOnly: bool, o: Oracle)
    requires NetworkUp(o)
    ensures Exec(CreationPlan(cgroupOnly)[..2], o) == Progress([NewSandbox] + [CreateNetwork], Ok, NetworkRollbacks())
  {
    SandboxDone(cgroupOnly, o);
    Advance(CreationPlan(cgroupOnly), 1, o, [NewSandbox], [Deferred(Delete, OnError)], NetworkStep);
  }

  /** A cgroup step fails: the sandbox's and the network's rollbacks are pending. */
  lemma {:induction false} CgroupFails(cgroupOnly: bool, o: Oracle)
    requires NetworkUp(o) && !CgroupReady(cgroupOnly, o)
    ensures var pre := [NewSandbox] + [CreateNetwork];
            && (o(CreateCgroupManager).Err? ==>
                  CreationRun(cgroupOnly, o)
                  == Outcome(o(CreateCgroupManager),
                             pre + [CreateCgroupManager] + Unwind(NetworkRollbacks(), o(CreateCgroupManager))))
            && (o(CreateCgroupManager).Ok? ==>
                  CreationRun(cgroupOnly, o)
                  == Outcome(o(SetupSandboxCgroup),
                             pre + [CreateCgroupManager] + [SetupSandboxCgroup]
                             + Unwind(NetworkRollbacks(), o(SetupSandboxCgroup))))
  {
    var plan := CreationPlan(cgroupOnly);
    var pre := [NewSandbox] + [CreateNetwork];
    NetworkDone(cgroupOnly, o);
    Advance(plan, 2, o, pre, NetworkRollbacks(), Must(CreateCgroupManager));
    if o(CreateCgroupManager).Ok? {
      assert NetworkRollbacks() + [] == NetworkRollbacks();
      Advance(plan, 3, o, pre + [CreateCgroupManager], NetworkRollbacks(), Must(SetupSandboxCgroup));
    }
  }

  lemma {:induction false} CgroupsDone(cgroupOnly: bool, o: Oracle)
    requires NetworkUp(o) && CgroupReady(cgroupOnly, o)
    ensures var n := 2 + |CgroupSteps(cgroupOnly)|;
            && n + 5 == |CreationPlan(cgroupOnly)|
            && Exec(CreationPlan(cgroupOnly)[..n], o) == Progress(Networked(cgroupOnly), Ok, NetworkRollbacks())
  {
    var plan := CreationPlan(cgroupOnly);
    var pre := [NewSandbox] + [CreateNetwork];
    NetworkDone(cgroupOnly, o);
    if cgroupOnly {
      Advance(plan, 2, o, pre, NetworkRollbacks(), Must(CreateCgroupManager));
      assert NetworkRollbacks() + [] == NetworkRollbacks();
      Advance(plan, 3, o, pre + [CreateCgroupManager], NetworkRollbacks(), Must(SetupSandboxCgroup));
      assert pre + [CreateCgroupManager] + [SetupSandboxCgroup] == Networked(cgroupOnly);
    } else {
      assert pre + [] == pre;
    }
  }

  /** `startVM` fails: the sandbox's and the network's rollbacks are pending. */
  lemma {:induction false} VMFails(cgroupOnly: bool, o: Oracle)
    requires NetworkUp(o) && CgroupReady(cgroupOnly, o) && o(StartVM).Err?
    ensures CreationRun(cgroupOnly, o)
         == Outcome(o(StartVM), Networked(cgroupOnly) + [StartVM] + Unwind(NetworkRollbacks(), o(StartVM)))
  {
    CgroupsDone(cgroupOnly, o);
    Advance(CreationPlan(cgroupOnly), 2 + |CgroupSteps(cgroupOnly)|, o, Networked(cgroupOnly), NetworkRollbacks(), VMStep);
  }

  lemma {:induction false} VMDone(cgroupOnly: bool, o: Oracle)
    requires VMUp(cgroupOnly, o)
    ensures var n := 4 + |CgroupSteps(cgroupOnly)|;
            && n + 3 == |CreationPlan(cgroupOnly)|
            && Exec(CreationPlan(cgroupOnly)[..n], o) == Progress(Booted(cgroupOnly), Ok, VMRollbacks())
  {
    var plan := CreationPlan(cgroupOnly);
    var n := 2 + |CgroupSteps(cgroupOnly)|;
    CgroupsDone(cgroupOnly, o);
    Advance(plan, n, o, Networked(cgroupOnly), NetworkRollbacks(), VMStep);
    Advance(plan, n + 1, o, Networked(cgroupOnly) + [StartVM], VMRollbacks(), PostStep);
    assert VMRollbacks() + [] == VMRollbacks();
  }

  /** `getAndStoreGuestDetails` fails: all three rollbacks are pending. */
  lemma {:induction false} GuestDetailsFail(cgroupOnly: bool, o: Oracle)
    requires VMUp(cgroupOnly, o) && o(GetAndStoreGuestDetails).Err?
    ensures CreationRun(cgroupOnly, o)
         == Outcome(o(GetAndStoreGuestDetails),
                    Booted(cgroupOnly) + [GetAndStoreGuestDetails] + Unwind(VMRollbacks(), o(GetAndStoreGuestDetails)))
  {
    VMDone(cgroupOnly, o);
    Advance(CreationPlan(cgroupOnly), 4 + |CgroupSteps(cgroupOnly)|, o, Booted(cgroupOnly), VMRollbacks(),
            Must(GetAndStoreGuestDetails));
  }

  lemma {:induction false} GuestDetailsDone(cgroupOnly: bool, o: Oracle)
    requires VMUp(cgroupOnly, o) && o(GetAndStoreGuestDetails).Ok?
    ensures Exec(CreationPlan(cgroupOnly)[..5 + |CgroupSteps(cgroupOnly)|], o)
         == Progress(Booted(cgroupOnly) + [GetAndStoreGuestDetails], Ok, VMRollbacks())
  {
    VMDone(cgroupOnly, o);
    Advance(CreationPlan(cgroupOnly), 4 + |CgroupSteps(cgroupOnly)|, o, Booted(cgroupOnly), VMRollbacks(),
            Must(GetAndStoreGuestDetails));
    assert VMRollbacks() + [] == VMRollbacks();
  }

  /** `createContainers` fails: all three rollbacks are pending. */
  lemma {:induction false} ContainersFail(cgroupOnly: bool, o: Oracle)
    requires VMUp(cgroupOnly, o) && o(GetAndStoreGuestDetails).Ok? && o(CreateContainers).Err?
    ensures CreationRun(cgroupOnly, o)
         == Outcome(o(CreateContainers),
                    Booted(cgroupOnly) + [GetAndStoreGuestDetails] + [CreateContainers]
                    + Unwind(VMRollbacks(), o(CreateContainers)))
  {
    GuestDetailsDone(cgroupOnly, o);
    Advance(CreationPlan(cgroupOnly), 5 + |CgroupSteps(cgroupOnly)|, o, Booted(cgroupOnly) + [GetAndStoreGuestDetails],
            VMRollbacks(), Must(CreateContainers));
  }

  lemma {:induction false} ContainersDone(cgroupOnly: bool, o: Oracle)
    requires VMUp(cgroupOnly, o) && o(GetAndStoreGuestDetails).Ok? && o(CreateContainers).Ok?
    ensures Exec(CreationPlan(cgroupOnly)[..6 + |CgroupSteps(cgroupOnly)|], o)
         == Progress(Booted(cgroupOnly) + [GetAndStoreGuestDetails] + [CreateContainers], Ok, VMRollbacks())
  {
    GuestDetailsDone(cgroupOnly, o);
    Advance(CreationPlan(cgroupOnly), 5 + |CgroupSteps(cgroupOnly)|, o, Booted(cgroupOnly) + [GetAndStoreGuestDetails],
            VMRollbacks(), Must(CreateContainers));
    assert VMRollbacks() + [] == VMRollbacks();
  }

  /** `storeSandbox` fails: all three rollbacks are pending. */
  lemma {:induction false} StoreFails(cgroupOnly: bool, o: Oracle)
    requires VMUp(cgroupOnly, o) && o(GetAndStoreGuestDetails).Ok? && o(CreateContainers).Ok? && o(StoreSandbox).Err?
    ensures CreationRun(cgroupOnly, o)
         == Outcome(o(StoreSandbox), ForwardCalls(cgroupOnly) + Unwind(VMRollbacks(), o(StoreSandbox)))
  {
    ContainersDone(cgroupOnly, o);
    Advance(CreationPlan(cgroupOnly), 6 + |CgroupSteps(cgroupOnly)|, o,
            Booted(cgroupOnly) + [GetAndStoreGuestDetails] + [CreateContainers], VMRollbacks(), Must(StoreSandbox));
  }

  /** Every step succeeds: every forward call is made and the pending
      rollbacks are unwound with a nil error. */
  lemma {:induction false} Succeeds(cgroupOnly: bool, o: Oracle)
    requires AllSucceed(cgroupOnly, o)
    ensures CreationRun(cgroupOnly, o) == Outcome(Ok, ForwardCalls(cgroupOnly) + Unwind(VMRollbacks(), Ok))
  {
    var plan := CreationPlan(cgroupOnly);
    var n := 6 + |CgroupSteps(cgroupOnly)|;
    ContainersDone(cgroupOnly, o);
    Advance(plan, n, o, Booted(cgroupOnly) + [GetAndStoreGuestDetails] + [CreateContainers], VMRollbacks(),
            Must(StoreSandbox));
    ExecWhole(plan, n + 1, o);
    assert VMRollbacks() + [] == VMRollbacks();
  }

  /** The rollback stacks creation can hold: on an error the most recently
      registered rollback runs first; on success none runs. */
  lemma Rollbacks(err: Status)
    ensures err.Err? ==> Unwind([Deferred(Delete, OnError)], err) == [Delete]
    ensures err.Err? ==> Unwind(NetworkRollbacks(), err) == [RemoveNetwork, Delete]
    ensures err.Err? ==> Unwind(VMRollbacks(), err) == [StopVM, RemoveNetwork, Delete]
    ensures Unwind(VMRollbacks(), Ok) == []
  {
    var d, r, v := Deferred(Delete, OnError), Deferred(RemoveNetwork, OnError), Deferred(StopVM, OnError);
    assert [d][..0] == [];
    assert Unwind([d], Ok) == [];
    assert NetworkRollbacks() == [d, r] && [d, r][..1] == [d];
    assert Unwind([d, r], Ok) == [];
    assert VMRollbacks() == [d, r, v] && [d, r, v][..2] == [d, r];
  }

  // What the source promises about creation, read off the stages.

  /** If `createSandbox` fails nothing is rolled back; if `createNetwork`
      fails only `s.Delete()` runs. Either error is returned. */
  lemma {:induction false} EarlyFailures(cgroupOnly: bool, o: Oracle)
    ensures o(NewSandbox).Err? ==> CreationRun(cgroupOnly, o) == Outcome(o(NewSandbox), [NewSandbox])
    ensures o(NewSandbox).Ok? && o(CreateNetwork).Err? ==>
              CreationRun(cgroupOnly, o) == Outcome(o(CreateNetwork), [NewSandbox, CreateNetwork, Delete])
  {
    Rollbacks(o(CreateNetwork));
    if o(NewSandbox).Err? {
      CreateFails(cgroupOnly, o);
      assert Unwind([], o(NewSandbox)) == [];
    } else if o(CreateNetwork).Err? {
      NetworkFails(cgroupOnly, o);
    }
  }

  /** The first of the cgroup steps and `startVM` to fail. */
  function MiddleFailed(cgroupOnly: bool, o: Oracle): Call {
    if cgroupOnly && o(CreateCgroupManager).Err? then CreateCgroupManager
    else if cgroupOnly && o(SetupSandboxCgroup).Err? then SetupSandboxCgroup
    else StartVM
  }

  /** The calls creation makes up to the first cgroup step or `startVM` that fails. */
  function MiddleAttempted(cgroupOnly: bool, o: Oracle): seq<Call> {
    var pre := [NewSandbox] + [CreateNetwork];
    if cgroupOnly && o(CreateCgroupManager).Err? then pre + [CreateCgroupManager]
    else if cgroupOnly && o(SetupSandboxCgroup).Err? then pre + [CreateCgroupManager] + [SetupSandboxCgroup]
    else Networked(cgroupOnly) + [StartVM]
  }

  /** The steps after `postCreatedNetwork` that run, up to the first that fails. */
  function LateAttempted(o: Oracle): seq<Call> {
    if o(GetAndStoreGuestDetails).Err? then [GetAndStoreGuestDetails]
    else if o(CreateContainers).Err? then [GetAndStoreGuestDetails, CreateContainers]
    else [GetAndStoreGuestDetails, CreateContainers, StoreSandbox]
  }

  lemma {:induction false} CgroupFailure(cgroupOnly: bool, o: Oracle)
    requires NetworkUp(o) && !CgroupReady(cgroupOnly, o)
    ensures var failed := MiddleFailed(cgroupOnly, o);
            && o(failed).Err?
            && CreationRun(cgroupOnly, o) == Outcome(o(failed), MiddleAttempted(cgroupOnly, o) + [RemoveNetwork, Delete])
  {
    CgroupFails(cgroupOnly, o);
    Rollbacks(o(MiddleFailed(cgroupOnly, o)));
  }

  lemma {:induction false} VMFailure(cgroupOnly: bool, o: Oracle)
    requires NetworkUp(o) && CgroupReady(cgroupOnly, o) && o(StartVM).Err?
    ensures var failed := MiddleFailed(cgroupOnly, o);
            && o(failed).Err?
            && CreationRun(cgroupOnly, o) == Outcome(o(failed), MiddleAttempted(cgroupOnly, o) + [RemoveNetwork, Delete])
  {
    VMFails(cgroupOnly, o);
    Rollbacks(o(StartVM));
  }

  /** A cgroup step or `startVM` fails: that step's error is returned, no
      later step runs, and `removeNetwork` then `s.Delete()` run; `stopVM`
      does not, since the VM never started. */
  lemma {:induction false} MiddleFailures(cgroupOnly: bool, o: Oracle)
    requires NetworkUp(o) && !VMUp(cgroupOnly, o)
    ensures var failed := MiddleFailed(cgroupOnly, o);
            && o(failed).Err?
            && CreationRun(cgroupOnly, o) == Outcome(o(failed), MiddleAttempted(cgroupOnly, o) + [RemoveNetwork, Delete])
    ensures StopVM !in CreationRun(cgroupOnly, o).trace
  {
    if !CgroupReady(cgroupOnly, o) {
      CgroupFailure(cgroupOnly, o);
    } else {
      VMFailure(cgroupOnly, o);
    }
    if cgroupOnly {
      assert StopVM !in MiddleAttempted(cgroupOnly, o);
    }
  }

  lemma {:induction false} GuestDetailsFailure(cgroupOnly: bool, o: Oracle)
    requires VMUp(cgroupOnly, o) && o(GetAndStoreGuestDetails).Err?
    ensures CreationRun(cgroupOnly, o)
         == Outcome(o(GetAndStoreGuestDetails), Booted(cgroupOnly) + LateAttempted(o) + [StopVM, RemoveNetwork, Delete])
  {
    GuestDetailsFail(cgroupOnly, o);
    Rollbacks(o(GetAndStoreGuestDetails));
  }

  lemma {:induction false} ContainersFailure(cgroupOnly: bool, o: Oracle)
    requires VMUp(cgroupOnly, o) && o(GetAndStoreGuestDetails).Ok? && o(CreateContainers).Err?
    ensures CreationRun(cgroupOnly, o)
         == Outcome(o(CreateContainers), Booted(cgroupOnly) + LateAttempted(o) + [StopVM, RemoveNetwork, Delete])
  {
    ContainersFail(cgroupOnly, o);
    Rollbacks(o(CreateContainers));
    var b := Booted(cgroupOnly);
    assert b + [GetAndStoreGuestDetails] + [CreateContainers] == b + [GetAndStoreGuestDetails, CreateContainers];
  }

  lemma {:induction false} StoreFailure(cgroupOnly: bool, o: Oracle)
    requires VMUp(cgroupOnly, o) && o(GetAndStoreGuestDetails).Ok? && o(CreateContainers).Ok? && o(StoreSandbox).Err?
    ensures CreationRun(cgroupOnly, o)
         == Outcome(o(StoreSandbox), Booted(cgroupOnly) + LateAttempted(o) + [StopVM, RemoveNetwork, Delete])
  {
    StoreFails(cgroupOnly, o);
    Rollbacks(o(StoreSandbox));
    var b := Booted(cgroupOnly);
    assert ForwardCalls(cgroupOnly) == b + [GetAndStoreGuestDetails, CreateContainers, StoreSandbox];
  }

  /** A step after `startVM` fails: its error is returned, no later step
      runs, and the rollbacks run as `stopVM`, `removeNetwork`, `s.Delete()`. */
  lemma {:induction false} LateFailures(cgroupOnly: bool, o: Oracle)
    requires VMUp(cgroupOnly, o) && !AllSucceed(cgroupOnly, o)
    ensures var attempted := LateAttempted(o);
            && o(attempted[|attempted| - 1]).Err?
            && CreationRun(cgroupOnly, o)
               == Outcome(o(attempted[|attempted| - 1]), Booted(cgroupOnly) + attempted + [StopVM, RemoveNetwork, Delete])
  {
    if o(GetAndStoreGuestDetails).Err? {
      GuestDetailsFailure(cgroupOnly, o);
    } else if o(CreateContainers).Err? {
      ContainersFailure(cgroupOnly, o);
    } else {
      StoreFailure(cgroupOnly, o);
    }
  }

  /** Every step succeeds: nil is returned after every forward call, and no
      rollback runs. */
  lemma {:induction false} Success(cgroupOnly: bool, o: Oracle)
    requires AllSucceed(cgroupOnly, o)
    ensures CreationRun(cgroupOnly, o) == Outcome(Ok, ForwardCalls(cgroupOnly))
  {
    Succeeds(cgroupOnly, o);
    Rollbacks(Ok);
    assert ForwardCalls(cgroupOnly) + [] == ForwardCalls(cgroupOnly);
  }

  /** Creation fails as soon as a step whose error counts fails. */
  lemma {:induction false} FailureReturnsError(cgroupOnly: bool, o: Oracle)
    requires !AllSucceed(cgroupOnly, o)
    ensures CreationRun(cgroupOnly, o).err.Err?
  {
    if !NetworkUp(o) {
      EarlyFailures(cgroupOnly, o);
    } else if !VMUp(cgroupOnly, o) {
      MiddleFailures(cgroupOnly, o);
    } else {
      LateFailures(cgroupOnly, o);
    }
  }

  /** The forward calls, in order, ending with `storeSandbox`; none is a rollback. */
  lemma ForwardCallsInOrder(cgroupOnly: bool)
    ensures ForwardCalls(cgroupOnly)
         == [NewSandbox, CreateNetwork] + CgroupCalls(cgroupOnly)
            + [StartVM, PostCreatedNetwork, GetAndStoreGuestDetails, CreateContainers, StoreSandbox]
    ensures forall c :: c in ForwardCalls(cgroupOnly) ==> !IsRollback(c)
  {
    var f := ForwardCalls(cgroupOnly);
    if cgroupOnly {
      assert f == [NewSandbox, CreateNetwork, CreateCgroupManager, SetupSandboxCgroup, StartVM, PostCreatedNetwork,
                   GetAndStoreGuestDetails, CreateContainers, StoreSandbox];
    } else {
      assert f == [NewSandbox, CreateNetwork, StartVM, PostCreatedNetwork, GetAndStoreGuestDetails, CreateContainers,
                   StoreSandbox];
    }
  }

  /** Creation returns nil exactly when every step whose error counts
      succeeds; then every forward call has been made, `storeSandbox` last,
      and no rollback runs. */
  lemma {:induction false} SuccessIff(cgroupOnly: bool, o: Oracle)
    ensures CreationRun(cgroupOnly, o).err.Ok? <==> AllSucceed(cgroupOnly, o)
    ensures var out := CreationRun(cgroupOnly, o);
            out.err.Ok? ==>
              && out.trace == ForwardCalls(cgroupOnly)
              && out.trace[|out.trace| - 1] == StoreSandbox
              && forall c :: c in out.trace ==> !IsRollback(c)
  {
    ForwardCallsInOrder(cgroupOnly);
    if AllSucceed(cgroupOnly, o) {
      Success(cgroupOnly, o);
    } else {
      FailureReturnsError(cgroupOnly, o);
    }
  }

  /** The calls made before the rollbacks never include a rollback. */
  lemma AttemptedHoldsNoRollback(cgroupOnly: bool, o: Oracle)
    ensures forall c :: c in MiddleAttempted(cgroupOnly, o) ==> !IsRollback(c)
    ensures forall c :: c in Booted(cgroupOnly) + LateAttempted(o) ==> !IsRollback(c)
  {
    ForwardCallsInOrder(cgroupOnly);
    var f := ForwardCalls(cgroupOnly);
    assert MiddleAttempted(cgroupOnly, o) <= f;
    assert Booted(cgroupOnly) + LateAttempted(o) <= f;
  }

  /** No orphaned resource and no spurious rollback: each rollback runs
      exactly when its forward step succeeded and creation as a whole failed. */
  lemma {:induction false} RollbackIffCreated(cgroupOnly: bool, o: Oracle)
    ensures var out := CreationRun(cgroupOnly, o);
            && (Delete in out.trace <==> o(NewSandbox).Ok? && out.err.Err?)
            && (RemoveNetwork in out.trace <==> NetworkUp(o) && out.err.Err?)
            && (StopVM in out.trace <==> VMUp(cgroupOnly, o) && out.err.Err?)
  {
    AttemptedHoldsNoRollback(cgroupOnly, o);
    if AllSucceed(cgroupOnly, o) {
      SuccessIff(cgroupOnly, o);
    } else if !NetworkUp(o) {
      EarlyFailures(cgroupOnly, o);
    } else if !VMUp(cgroupOnly, o) {
      MiddleFailures(cgroupOnly, o);
    } else {
      LateFailures(cgroupOnly, o);
    }
  }

  /** The outcome of `postCreatedNetwork` never affects creation. */
  lemma {:induction false} PostCreatedNetworkIgnored(cgroupOnly: bool, o: Oracle, o2: Oracle)
    requires forall c :: c != PostCreatedNetwork ==> o(c) == o2(c)
    ensures CreationRun(cgroupOnly, o) == CreationRun(cgroupOnly, o2)
  {
    var plan := CreationPlan(cgroupOnly);
    forall i | 0 <= i < |plan| && plan[i].call == PostCreatedNetwork
      ensures plan[i].tolerated && plan[i].registers == []
    {
      assert plan[i] == PostStep;
    }
    ExecIgnores(plan, o, o2, PostCreatedNetwork);
  }

  // RunSandbox

  /** Locking the new sandbox exclusively and starting it: a failed lock
      stops there; otherwise `Start` runs and the unlock follows it. */
  function StartPlan(sandboxID: string): seq<Step> {
    [LockStep(Exclusive, sandboxID), Must(Start)]
  }

  /** What `RunSandbox` returns and the calls it makes: creation, and if it
      succeeded, the start under the lock. */
  function Running(cgroupOnly: bool, sandboxID: string, o: Oracle): Outcome {
    var created := CreationRun(cgroupOnly, o);
    if created.err.Err? then created
    else
      var started := Run(StartPlan(sandboxID), o);
      Outcome(started.err, created.trace + started.trace)
  }

  /** `RunSandbox` as written. `sandboxID` is the identifier of the sandbox
      creation produced; it is not checked. */
  method RunSandbox(cgroupOnly: bool, sandboxID: string, o: Oracle) returns (err: Status, trace: seq<Call>)
    ensures Outcome(err, trace) == Running(cgroupOnly, sandboxID, o)
  {
    err, trace := CreateSandboxFromConfig(cgroupOnly, o);
    if err.Err? {
      return;
    }
    var started;
    err, started := LockAndStart(sandboxID, o);
    trace := trace + started;
  }

  /** The tail of `RunSandbox`: take the exclusive lock, defer the unlock,
      start the sandbox. */
  method LockAndStart(sandboxID: string, o: Oracle) returns (err: Status, trace: seq<Call>)
    ensures Outcome(err, trace) == Run(StartPlan(sandboxID), o)
  {
    var lock := LockSandbox(Exclusive, sandboxID);
    StartUnderLock(sandboxID, o);
    trace := [lock];
    err := o(lock);
    if err.Err? {
      return;
    }
    var deferred := [Deferred(UnlockSandbox(Exclusive, sandboxID), Always)];
    trace := trace + [Start];
    err := o(Start);
    var ran := RunDeferred(deferred, err);
    assert deferred[..0] == [];
    trace := trace + ran;
  }

  /** The start: the lock comes first; if it is taken, `Start` runs, the
      unlock follows, and `Start`'s error is returned. */
  lemma {:induction false} StartUnderLock(sandboxID: string, o: Oracle)
    ensures var lock := LockSandbox(Exclusive, sandboxID);
            Run(StartPlan(sandboxID), o)
            == if o(lock).Err? then Outcome(o(lock), [lock])
               else Outcome(o(Start), [lock] + [Start] + [UnlockSandbox(Exclusive, sandboxID)])
  {
    var lockStep, startStep := LockStep(Exclusive, sandboxID), Must(Start);
    var unlock := Deferred(UnlockSandbox(Exclusive, sandboxID), Always);
    assert StartPlan(sandboxID) == [lockStep] + [startStep];
    ExecCons(lockStep, [startStep], o);
    ExecSingle(startStep, o);
    if o(lockStep.call).Ok? {
      assert [unlock] + [] == [unlock];
      assert Exec(StartPlan(sandboxID), o) == Progress([lockStep.call] + [Start], o(Start), [unlock]);
      assert [unlock][..0] == [];
      assert Unwind([unlock], o(Start)) == [unlock.call];
    } else {
      assert [lockStep.call] + [] == [lockStep.call];
      assert Exec(StartPlan(sandboxID), o) == Progress([lockStep.call], o(lockStep.call), []);
    }
  }

  /** `RunSandbox` returns creation's error unchanged when creation fails,
      without locking or starting the sandbox. */
  lemma {:induction false} RunSandboxCreationFails(cgroupOnly: bool, sandboxID: string, o: Oracle)
    requires !AllSucceed(cgroupOnly, o)
    ensures Running(cgroupOnly, sandboxID, o) == CreationRun(cgroupOnly, o)
    ensures Running(cgroupOnly, sandboxID, o).err.Err?
  {
    FailureReturnsError(cgroupOnly, o);
  }

  /** The calls `RunSandbox` makes once creation has succeeded, given
      whether the lock was taken. */
  function StartedCalls(cgroupOnly: bool, sandboxID: string, locked: bool): seq<Call> {
    var lock := LockSandbox(Exclusive, sandboxID);
    ForwardCalls(cgroupOnly) + (if locked then [lock] + [Start] + [UnlockSandbox(Exclusive, sandboxID)] else [lock])
  }

  lemma StartedCallsHoldNoRollback(cgroupOnly: bool, sandboxID: string, locked: bool)
    ensures forall c :: c in StartedCalls(cgroupOnly, sandboxID, locked) ==> !IsRollback(c)
    ensures StoreSandbox !in StartedCalls(cgroupOnly, sandboxID, locked)[|ForwardCalls(cgroupOnly)|..]
  {
    ForwardCallsInOrder(cgroupOnly);
    var fwd, lock := ForwardCalls(cgroupOnly), LockSandbox(Exclusive, sandboxID);
    var started := if locked then [lock] + [Start] + [UnlockSandbox(Exclusive, sandboxID)] else [lock];
    assert (fwd + started)[|fwd|..] == started;
  }

  /** Once creation has succeeded, the sandbox is locked exclusively and
      started; nothing is rolled back even if the lock or `Start` fails, and
      the sandbox is not stored again after `Start`. */
  lemma {:induction false} RunSandboxStarted(cgroupOnly: bool, sandboxID: string, o: Oracle)
    requires AllSucceed(cgroupOnly, o)
    ensures var out, lock := Running(cgroupOnly, sandboxID, o), LockSandbox(Exclusive, sandboxID);
            && out.err == (if o(lock).Err? then o(lock) else o(Start))
            && out.trace == StartedCalls(cgroupOnly, sandboxID, o(lock).Ok?)
            && (forall c :: c in out.trace ==> !IsRollback(c))
            && StoreSandbox !in out.trace[|ForwardCalls(cgroupOnly)|..]
  {
    RunningAfterCreation(cgroupOnly, sandboxID, o);
    StartUnderLock(sandboxID, o);
    StartedCallsHoldNoRollback(cgroupOnly, sandboxID, o(LockSandbox(Exclusive, sandboxID)).Ok?);
  }

  lemma {:induction false} RunningAfterCreation(cgroupOnly: bool, sandboxID: string, o: Oracle)
    requires AllSucceed(cgroupOnly, o)
    ensures var started := Run(StartPlan(sandboxID), o);
            Running(cgroupOnly, sandboxID, o) == Outcome(started.err, ForwardCalls(cgroupOnly) + started.trace)
  {
    Success(cgroupOnly, o);
  }
}
