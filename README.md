# Sandbox API entry points, modelled in Dafny

This project models the entry-point layer of the virtcontainers runtime
(`src/runtime/virtcontainers/api.go`). Every exported verb in that file
except `CreateSandbox`, `RunSandbox` and `ListSandbox` follows the same
template:

1. It checks that the sandbox identifier, and for container verbs the
   container identifier, is non-empty.
2. It takes the per-sandbox lock, in read mode (`rLockSandbox`) or write
   mode (`rwLockSandbox`), and defers its release.
3. It fetches the sandbox from storage.
4. It calls the verb's Sandbox methods, if any: none for the status verbs,
   which read the fetched sandbox, and `startProxy` in `FetchSandbox` only
   for a long-lived agent connection.
5. Some verbs then persist the sandbox with `storeSandbox`.

`createSandboxFromConfig` is a sequence of creation steps. Three of them,
`createSandbox`, `createNetwork` and `startVM`, register a deferred
rollback, which runs only if creation fails; the cgroup steps and
`createContainers` register none.

## How the model works

The collaborators (the lock manager, storage, the Sandbox methods, the
hypervisor, the network) are not modelled. Each is represented by the
error it would return. An `Oracle` (`Calls.Oracle`) maps every
collaborator call to the status that call returns. An outcome is the error
the entry point returns plus the *trace*: every collaborator call it made,
in order, including the deferred ones that run at return.

- `Calls` is the shared vocabulary: errors (the three sentinels and
  opaque backend errors), lock modes, and collaborator calls.
- `Defer` is the execution discipline. It defines these pieces:
  - A *plan*: a straight-line list of fallible calls. Each call's error is
    either returned or tolerated. A call may register deferred calls, and
    may make explicit calls before returning its error.
  - `Exec`: runs a plan forward to its first blocking failure.
  - `Unwind`: Go's last-in-first-out processing of `defer` at return.
    `unlock()` always fires; the rollback closures fire only on a non-nil
    named `err`.
  - `Run`: composes `Exec` and `Unwind`.
  - `RunDeferred`: the imperative version of the unwinding, proved equal
    to `Unwind`.
- `Facade` states the template for every verb at once.
  - `Spec` gives the reference outcome of each verb.
  - `Invoke` is the imperative body of the verbs that call a single
    Sandbox method, and of `FetchSandbox`.
  - The lemmas prove the layer's guarantees: identifier checks come before
    any call; the unlock pairs with the lock; `storeSandbox` runs only
    after a successful mutation.
- `Creation` covers `createSandboxFromConfig` with its rollbacks, and
  `RunSandbox`.
- `Cleanup` covers `CleanupContainer`, including its `force` semantics.
- `Reports` covers `StatusContainer` / `statusContainer` and
  `StatusSandbox`.
- `Stats` covers `StatsSandbox`.
- `Listing` covers `ListSandbox`.

Each verb whose body holds real control flow has an imperative method that
follows the Go code branch by branch. Each such method is proved to return
the same error, result and trace as the verb's reference function. The
properties are proved about those functions.

## Model

| member | source | states |
|---|---|---|
| Defer.RunDeferred | src/runtime/virtcontainers/api.go:80-96 | Deferred calls fire last-registered first at return; an `Always` entry (`defer unlock()`) always fires, an `OnError` rollback only on a non-nil error (equals `Unwind`) |
| Defer.UnwindOnError | src/runtime/virtcontainers/api.go:80-119 | On an error every registered deferred call fires, exactly once, in reverse registration order |
| Defer.UnwindOnSuccess | src/runtime/virtcontainers/api.go:80-119 | On success no rollback closure fires |
| Defer.ExecOkIffAllPass | src/runtime/virtcontainers/api.go:150-165 | A straight-line body returns nil exactly when no step's error is returned |
| Defer.ExecFirstFailure | src/runtime/virtcontainers/api.go:150-165 | At the first failing step, the calls before it and that step's own call are made, nothing after it; its error is returned; only earlier steps' deferrals are pending |
| Defer.ExecAllPass | src/runtime/virtcontainers/api.go:150-167 | When no step fails, every call is made in order, nil is returned, and every successful step's deferrals are registered |
| Defer.ExecIgnores | src/runtime/virtcontainers/api.go:121 | A call whose error is always ignored and that registers nothing cannot change a run's outcome |
| Defer.ExecutedFromPlan | src/runtime/virtcontainers/api.go:196-203 | Every call a run makes is a step's own call or one of its explicit calls on failure (such as `s.Release()` in `FetchSandbox`) |
| Facade.Invoke | src/runtime/virtcontainers/api.go:142-907 | The single-delegate verbs and `FetchSandbox`, branch by branch as written, return the error and make the calls `Spec` gives |
| Facade.Proceed | src/runtime/virtcontainers/api.go:196-907 | After the fetch: the proxy restart (releasing the sandbox on failure) for a long-lived agent connection, or the Sandbox method followed, on success, by `storeSandbox` for persisting verbs; equals the body's forward run |
| Facade.RejectsMissingSandboxID | src/runtime/virtcontainers/api.go:146-148 | An empty sandbox identifier is rejected before any lock or fetch, with `ErrNeedSandbox` for `StopSandbox` (250-252) and `ErrNeedSandboxID` for every other verb |
| Facade.RejectsMissingContainerID | src/runtime/virtcontainers/api.go:428-434 | With a sandbox identifier given, the container verbs reject an empty container identifier before any call; the other verbs go on to take the lock |
| Facade.LockFails | src/runtime/virtcontainers/api.go:150-153 | A failed lock is the only call, and its error is returned |
| Facade.FetchFails | src/runtime/virtcontainers/api.go:156-160 | After a failed fetch only the unlock runs, and the fetch error is returned |
| Facade.FetchSucceeds | src/runtime/virtcontainers/api.go:150-167 | After a successful lock and fetch the body runs, then the deferred cleanup's `s.Release()` when there is one, then the unlock; the body's error is returned |
| Facade.Template | src/runtime/virtcontainers/api.go:142-168 | Every verb past the identifier checks: lock only; or lock, fetch, unlock; or lock, fetch, body, deferred calls |
| Facade.DelegateBody | src/runtime/virtcontainers/api.go:232-239 | A single-delegate body calls its Sandbox method, then `storeSandbox` only if that call succeeded and the verb persists |
| Facade.FetchBody | src/runtime/virtcontainers/api.go:194-203 | `FetchSandbox` restarts the proxy only for a long-lived agent connection, and releases the sandbox before returning a proxy failure |
| Facade.UnlockPaired | src/runtime/virtcontainers/api.go:150-154 | Once the lock is taken, the matching unlock (same mode and sandbox) runs exactly once, as the last call; when the lock fails there is no unlock |
| Facade.StoreOnlyAfterSuccessfulMutation | src/runtime/virtcontainers/api.go:232-239 | `storeSandbox` runs only for `StartSandbox`, `StopSandbox` and `CreateContainer`, under the write lock and right after their Sandbox method succeeded, and its error is returned; a successful persisting verb has stored |
| Facade.PersistingRun | src/runtime/virtcontainers/api.go:226-241 | A persisting verb past the fetch: the delegate, then the store only if the delegate succeeded, then the unlock |
| Facade.ModeOf | src/runtime/virtcontainers/api.go:508-907 | The lock mode of each verb: `rLockSandbox` (shared) for `EnterContainer`, `ProcessListContainer`, `StatsContainer`, `StatsSandbox`, `ListInterfaces` and `ListRoutes` (lines 520, 627, 683, 707, 849, 895); `rwLockSandbox` (exclusive) at every other call site |
| Facade.NeedsContainerID | src/runtime/virtcontainers/api.go:428-434 | The verbs that check the container identifier after the sandbox identifier: every container verb and `CleanupContainer` |
| Facade.Persists | src/runtime/virtcontainers/api.go:232-239 | The verbs that call `storeSandbox` after their Sandbox method: `StartSandbox`, `StopSandbox` and `CreateContainer` |
| Facade.MissingSandbox | src/runtime/virtcontainers/api.go:250-252 | The sentinel for an empty sandbox identifier: `ErrNeedSandbox` in `StopSandbox`, `ErrNeedSandboxID` everywhere else |
| Facade.Delegate | src/runtime/virtcontainers/api.go:142-907 | The Sandbox method each single-delegate verb calls after the fetch, with its container identifier and flags |
| Facade.Body | src/runtime/virtcontainers/api.go:142-960 | What each verb does once it holds the lock and the sandbox: the delegate and store, the proxy restart of `FetchSandbox`, nothing for the status verbs, `s.Stats()` and one `StatsContainer` per container, or the cleanup steps with their `force` tolerance |
| Facade.Spec | src/runtime/virtcontainers/api.go:142-960 | The reference outcome of every verb: the identifier checks, then the lock, the fetch and the body, followed by the deferred calls |
| Creation.CreateSandboxFromConfig | src/runtime/virtcontainers/api.go:69-138 | Creation branch by branch as written, including the deferred rollbacks, equals the reference run of the creation plan |
| Creation.CreationPlan | src/runtime/virtcontainers/api.go:74-135 | The creation steps in source order, with the rollback each successful resource step registers, the cgroup steps only under `SandboxCgroupOnly`, and `postCreatedNetwork` tolerated |
| Creation.Rollbacks | src/runtime/virtcontainers/api.go:80-119 | On an error the pending rollbacks run most recent first (`stopVM`, `removeNetwork`, `s.Delete()`); on success none runs |
| Creation.EarlyFailures | src/runtime/virtcontainers/api.go:74-96 | A failing `createSandbox` rolls back nothing; a failing `createNetwork` rolls back only `s.Delete()`; either error is returned |
| Creation.MiddleFailures | src/runtime/virtcontainers/api.go:99-112 | A failing cgroup step or `startVM` returns its error, runs no later step, and rolls back the network then the sandbox, never `stopVM` |
| Creation.LateFailures | src/runtime/virtcontainers/api.go:123-135 | A failing guest-details, container-creation or store step returns its error and rolls back `stopVM`, `removeNetwork`, `s.Delete()` |
| Creation.Success | src/runtime/virtcontainers/api.go:69-137 | When every step succeeds, nil is returned after every forward call, and no rollback runs |
| Creation.SuccessIff | src/runtime/virtcontainers/api.go:69-137 | Creation returns nil exactly when every step whose error counts succeeds; then `storeSandbox` is the last call and nothing was rolled back |
| Creation.FailureReturnsError | src/runtime/virtcontainers/api.go:74-135 | Any counted step failing makes creation fail |
| Creation.ForwardCallsInOrder | src/runtime/virtcontainers/api.go:74-135 | The forward calls in source order, the cgroup steps only when configured, none of them a rollback |
| Creation.RollbackIffCreated | src/runtime/virtcontainers/api.go:80-119 | No orphaned resource and no spurious rollback: each rollback runs exactly when its resource was created and creation failed |
| Creation.PostCreatedNetworkIgnored | src/runtime/virtcontainers/api.go:121 | The result of `postCreatedNetwork` never affects creation |
| Creation.RunSandbox | src/runtime/virtcontainers/api.go:281-304 | `RunSandbox` as written: creation, then the write lock and `s.Start()`, equals `Running` |
| Creation.LockAndStart | src/runtime/virtcontainers/api.go:291-303 | The start under the write lock with its deferred unlock equals the reference run of that plan |
| Creation.StartUnderLock | src/runtime/virtcontainers/api.go:291-303 | A failed lock is the only call; otherwise `Start` runs, the unlock follows it, and `Start`'s error is returned |
| Creation.RunSandboxCreationFails | src/runtime/virtcontainers/api.go:286-289 | A creation failure is returned unchanged, with no lock and no start |
| Creation.RunSandboxStarted | src/runtime/virtcontainers/api.go:291-303 | After a successful creation: lock, start, unlock; no rollback even when the lock or `Start` fails, and no second store |
| Cleanup.CleanupContainer | src/runtime/virtcontainers/api.go:912-960 | `CleanupContainer` as written, every early return passing through the deferred `s.Release()` and unlock, equals `Spec` |
| Cleanup.CleanupSteps | src/runtime/virtcontainers/api.go:937-959 | The cleanup after the fetch: each failure returns its error unless `force` is set, the final `s.Delete()` error always; with containers left it returns nil before touching the sandbox |
| Cleanup.StopAndDelete | src/runtime/virtcontainers/api.go:937-959 | The steps after the fetch, as written, equal `CleanupSteps` |
| Cleanup.Finish | src/runtime/virtcontainers/api.go:928-935 | Returning after the fetch appends `s.Release()` and then the unlock |
| Cleanup.CleanupBody | src/runtime/virtcontainers/api.go:937-959 | The cleanup's step plan runs exactly as the Go body reads |
| Cleanup.CleanupFetched | src/runtime/virtcontainers/api.go:930-959 | After a successful lock and fetch: the cleanup steps, then `s.Release()`, then the unlock |
| Cleanup.CleanupOutcome | src/runtime/virtcontainers/api.go:924-959 | A failed lock is the only call; a failed fetch only unlocks; otherwise the steps, `s.Release()`, the unlock |
| Cleanup.ForceIgnoresAllButDelete | src/runtime/virtcontainers/api.go:937-959 | Under `force` the failures of the container stop, the container delete and `s.Stop` are ignored and every step runs; the result is nil with containers left, otherwise the error of `s.Delete()` |
| Cleanup.NonForceFailsFast | src/runtime/virtcontainers/api.go:937-959 | Without `force`, nil exactly when every step reached succeeds; on failure the failing call comes right before `s.Release()` and the unlock, and its error is returned |
| Cleanup.SandboxDeletedOnlyWhenEmpty | src/runtime/virtcontainers/api.go:947-957 | The sandbox is stopped or deleted only when no container is left; it is deleted exactly when the fetch succeeded, none is left, and the earlier steps succeeded or were forced |
| Cleanup.ReleaseIffFetched | src/runtime/virtcontainers/api.go:930-935 | `s.Release()` runs exactly when the fetch succeeded, and then it is the second-to-last call, just before the unlock |
| Reports.StatusContainerOf | src/runtime/virtcontainers/api.go:567-582 | The stored container's fields when the identifier is a key of the container map; the empty status otherwise, never an error |
| Reports.StatusSandboxResult | src/runtime/virtcontainers/api.go:347-386 | What `StatusSandbox` returns: the zero status with the error of the identifier check, the lock or the fetch, otherwise the report with nil |
| Reports.StatusContainerResult | src/runtime/virtcontainers/api.go:541-565 | What `StatusContainer` returns: the empty status with the error of either identifier check, the lock or the fetch, otherwise the lookup with nil |
| Reports.StatusContainer | src/runtime/virtcontainers/api.go:541-565 | `StatusContainer` as written: both identifier checks, write lock, fetch, then the lookup; the result equals `StatusContainerResult` and the trace equals `Spec` |
| Reports.StatusSandbox | src/runtime/virtcontainers/api.go:347-386 | `StatusSandbox` as written: the result equals `StatusSandboxResult` and the trace equals `Spec` |
| Reports.Describe | src/runtime/virtcontainers/api.go:375-384 | The sandbox's own fields and the status of each container form the report |
| Reports.ContainerStatuses | src/runtime/virtcontainers/api.go:366-373 | The loop collects the status of each container, looked up by the identifier it carries, in range order |
| Reports.ReportOnePerContainer | src/runtime/virtcontainers/api.go:366-384 | With every container keyed by its own identifier, the report holds exactly one status per container, each that of the container under its key |
| Reports.StatusVerbsAgree | src/runtime/virtcontainers/api.go:541-582 | For one stored sandbox whose containers carry their own keys: when `StatusSandbox` succeeds, a separate `StatusContainer` call whose own lock and fetch succeed returns, with nil, the entry `StatusSandbox` reported for that container |
| Stats.StatsSandbox | src/runtime/virtcontainers/api.go:699-733 | `StatsSandbox` as written: the result equals `StatsSandboxResult` and the trace equals `Spec` |
| Stats.StatsSandboxResult | src/runtime/virtcontainers/api.go:699-733 | What `StatsSandbox` returns: empty results with the first error of the identifier check, the lock, the fetch, `s.Stats()` and the containers in range order, otherwise every reading with nil |
| Stats.Measure | src/runtime/virtcontainers/api.go:718-731 | After the fetch: `s.Stats()`, then the container loop; any failure empties both results |
| Stats.ContainerReadings | src/runtime/virtcontainers/api.go:723-729 | One `StatsContainer` call per container in range order, stopping at the first failure and returning its error with no readings; otherwise every reading in order |
| Stats.StatsOutcome | src/runtime/virtcontainers/api.go:699-733 | The lock, the fetch and `s.Stats()` each end the call when they fail (with the unlock once locked); otherwise the container loop runs before the unlock |
| Stats.FirstContainerErrorIsFirst | src/runtime/virtcontainers/api.go:723-729 | The loop's error is nil exactly when every container's statistics succeed; otherwise it is the error of the first container that fails |
| Stats.StatsAllOrNothing | src/runtime/virtcontainers/api.go:699-733 | Nil exactly when every call succeeds, and then one reading per container in range order; on any failure both results are empty |
| Listing.ListResult | src/runtime/virtcontainers/api.go:307-344 | Only the storage driver, opening the directory (unless it does not exist) and reading it can fail; a missing directory is an empty listing |
| Listing.Collected | src/runtime/virtcontainers/api.go:333-343 | The listing of the directory entries: the status of each entry whose `StatusSandbox` succeeds, in directory order |
| Listing.ListSandbox | src/runtime/virtcontainers/api.go:307-344 | `ListSandbox` as written, its loop skipping failing statuses, equals `ListResult` |
| Listing.SkipsFailingEntry | src/runtime/virtcontainers/api.go:334-337 | A sandbox whose status fails neither aborts the listing nor appears in it |
| Listing.KeepsSucceedingEntry | src/runtime/virtcontainers/api.go:334-340 | A sandbox whose status succeeds appears in the listing, at its place in directory order |
| Listing.CollectedSound | src/runtime/virtcontainers/api.go:333-343 | Every listed status is the successful status of a listed identifier, and there are no more of them than identifiers |
| Listing.CollectedComplete | src/runtime/virtcontainers/api.go:333-343 | When every status succeeds, every identifier is listed, in directory order |

## Left out

- Tracing (`trace`, the spans of every verb), `SetLogger` and `init`
  (api.go:26-56) have no effect on results or collaborator calls.
- `CreateSandbox` (60-67) only wraps `createSandboxFromConfig` in a span, so
  it is modelled by `Creation.CreateSandboxFromConfig`.
- The lock manager's semantics are outside this layer and are not modelled:
  reader/writer exclusion, contention, concurrency. The model records the
  mode each verb requests and that every taken lock is released exactly
  once, last.
- Payloads are not modelled: OCI specs, resources, processes, devices,
  interfaces, routes, signals, the hypervisor configuration a sandbox
  status carries, and the statistics values. Collaborators are
  represented only by the error each call returns. The statistics readings
  are an input function.
- The Sandbox methods, the agent, the hypervisor, the network and the
  persistence driver are collaborators. Their internal behaviour is not
  modelled; only their results are inputs.
- `Listing.ListSandbox`: reading the run-storage directory is an input
  (`Storage`), and `dir.Close()` is left out. The listing's own collaborator
  calls are not traced, because each nested `StatusSandbox` call is modelled
  by its result.
- Go's map iteration order is unspecified. The order in which a container
  map is ranged is therefore an input (`order`), and
  `Reports.ReportOnePerContainer` and `Stats.StatsAllOrNothing` assume only
  that it visits every key once.
- `GetAllContainers()` in `CleanupContainer` is represented by the number
  of containers it reports (`Fetched.remaining`).
- `s.agent.longLiveConn()` in `FetchSandbox` is an input
  (`Fetched.longLiveConn`).
- `RunSandbox` locks the identifier of the sandbox that creation returns.
  That identifier is a parameter of the model.

## Behaviour of the code worth noting

- `StatusSandbox` and `StatusContainer` take the write lock
  (`rwLockSandbox`) although they only read. `FetchSandbox` takes it too;
  it may restart the proxy for a long-lived agent connection.
- Only `StartSandbox`, `StopSandbox` and `CreateContainer` persist the
  sandbox after delegating. No other verb does.
- `statusContainer` never fails. An unknown container identifier yields the
  empty status with a nil error, so the error check in `StatusSandbox`'s
  loop never fires.
- `RunSandbox` does not check the identifier and does not store the sandbox
  after `Start`. It rolls nothing back when the lock or `Start` fails after
  a successful creation.
- Under `force`, `CleanupContainer` still returns the error of the final
  `s.Delete()`.
