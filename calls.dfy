/** Vocabulary shared by the whole model of the sandbox API layer: the errors
    it returns, the outcome of a collaborator call, the two lock modes and the
    collaborator calls it makes. Every collaborator (lock registry, persistence,
    the Sandbox object's own methods) lives outside this layer, so a call is
    recorded by name and its outcome is an input. */
module Calls {

  /** Errors an entry point can return. The three sentinels are raised by the
      API layer itself; every other error comes from a collaborator and is
      opaque here. */
  datatype Error =
    | ErrNeedSandboxID
    | ErrNeedContainerID
    | ErrNeedSandbox
    | Backend(code: nat)

  /** A Go `error` result: nil or an error value. */
  datatype Status = Ok | Err(error: Error)

  /** `rLockSandbox` takes the shared mode, `rwLockSandbox` the exclusive one. */
  datatype LockMode = Shared | Exclusive

  /** Every collaborator call the API layer makes, with the arguments that
      matter to its control flow. */
  datatype Call =
      // per-sandbox lock registry and persistence
    | LockSandbox(mode: LockMode, sandboxID: string)
    | UnlockSandbox(mode: LockMode, sandboxID: string)
    | FetchSandbox(sandboxID: string)
      // createSandbox: builds the in-memory sandbox from its configuration
    | NewSandbox
      // Sandbox methods used while creating a sandbox
    | CreateNetwork
    | CreateCgroupManager
    | SetupSandboxCgroup
    | StartVM
    | PostCreatedNetwork
    | GetAndStoreGuestDetails
    | CreateContainers
    | StoreSandbox
    | StopVM
    | RemoveNetwork
      // Sandbox methods used by the other entry points
    | Delete
    | Start
    | Stop(force: bool)
    | Release
    | StartProxy
    | Stats
    | CreateContainer
    | DeleteContainer(containerID: string)
    | StartContainer(containerID: string)
    | StopContainer(containerID: string, force: bool)
    | EnterContainer(containerID: string)
    | KillContainer(containerID: string, all: bool)
    | ProcessListContainer(containerID: string)
    | UpdateContainer(containerID: string)
    | StatsContainer(containerID: string)
    | PauseContainer(containerID: string)
    | ResumeContainer(containerID: string)
    | AddDevice
    | AddInterface
    | RemoveInterface
    | ListInterfaces
    | UpdateRoutes
    | ListRoutes

  /** The error result each collaborator call would return. */
  type Oracle = Call -> Status
}
