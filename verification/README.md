# Replica lifecycle of the ukfaas provider, verified in Dafny

ukfaas runs functions as unikernel machines. A *machine store* creates, clones, claims and destroys
machines under two locks and with many goroutines; a *network controller* keeps track of the addresses of
each service, in one of two implementations (its own load balancer with a health table, or Caddy); a
*function store* keeps the deployed functions and a cache of images; the HTTP *handlers* call the stores.
This project models these parts and proves what they keep, over every run and every interleaving.

`dafny verify dfyconfig.toml` checks everything.

## How the model is built

| file | what it models |
|---|---|
| `LoadBalancer.dfy` | the random load balancer, with its copy loop over a preallocated list |
| `InternalController.dfy` | the provider's own network controller: balancers, health table, instance counter |
| `Caddy.dfy`, `CaddyTools.dfy` | the Caddy controller, Go slices that share a backing array, paths of services |
| `Registry.dfy` | one abstract registry that both controllers refine |
| `BalancerRace.dfy` | calls that interleave inside `AddServiceIP` and `DeleteServiceIP` |
| `FunctionStore.dfy` | functions and the image cache |
| `MachineStore.dfy` | machines as objects that share label and annotation maps |
| `Lifecycle.dfy`, `LifecycleInv.dfy` | the machine store as a state machine, and its inductive invariant |
| `HealthCheck.dfy` | what one look of the health checker at a machine does |
| `Refinement.dfy` | the object-level `NewMachine`, `CloneMachine`, `DeleteMachine` and health check as steps of the state machine |
| `Safety.dfy`, `Scaling.dfy`, `Conservation.dfy`, `SplitClaims.dfy` | what follows over whole runs |
| `SetUp.dfy` | runs that lead to states with any number of machines |
| `Provider.dfy`, `SplitDelete.dfy` | the handlers, and sequences of requests |
| `Threats.dfy`, `Overlap.dfy` | handlers side by side, and when removing a function is harmless |
| `Common.dfy` | sequences and sums shared by the above |

Objects that the program changes in place are classes; each method is proved against a function on values,
and the laws are lemmas about these functions. What goroutines do side by side is the state machine in
`Lifecycle.dfy`: a step is one action between two points where another goroutine can run, `Enabled` says
when it can be taken and `Apply` what it does. Its registry steps, each of which stands for a whole call,
are the very functions that the controller class is proved against. Theorems about runs hold for every
sequence of enabled steps; they are safety properties, and nothing is claimed about progress.

## What is assumed

The code relies on the following without enforcing it. Each is a guard of a step or a precondition.

- The bridge hands out an address that no machine has which has not been given to `DeleteServiceIP`
  (`FreshIP`), and a UID is fresh (`FreshUid`).
- `Stop` gives nothing, or a machine with the same metadata that is not running. Create and Start keep the
  metadata. Netlink calls succeed.
- A machine is destroyed only after its address was registered (the guard of `Deregister`). The guard is
  exactly what is needed, `Safety.DeregisterSafeIffRegistered`, and the code can violate it,
  `SetUp.UnregisteredVictimIsReachable`.
- Where a theorem asks for `atomicClaims`, no worker picks a machine while another one has picked but not
  yet marked one. Where it does not, picking and marking are separate steps.
- With `atomicProbes` a probe reads and stores its health entry in one step; without, the entry may be
  deleted in between and come back (`Safety.LateProbeRevivesEntry`).
- `Range` and `GetReplicas` look at the instance map at one moment. There is one health checker.
- In the state machine `AddServiceIP` and `DeleteServiceIP` are one step each. In the code each loads,
  rebuilds and stores the balancer without a lock, and `AddInstance` and the counter read a field and write
  it later. `BalancerRace` has these as steps. With every read and every write a step of its own, calls on
  one service are safe in all schedules only if there is at most one of them
  (`BalancerRace.SplitSafeIff`). If each `AddInstance` and each change of the counter is one step,
  registrations on a balancer that is there are safe as well, and nothing else is (`BalancerRace.SafeIff`).
  Calls that do not overlap have the one-step effect (`BalancerRace.AloneIsOneStep`). The theorems about the
  contents of the registry rest on this assumption: `Safety.BalancersHoldLiveMachines`,
  `Safety.DeregisterSafeIffRegistered`, `Safety.ReachableSweepFits`, `SplitClaims.DropsByOneAreSafe` and what
  `Provider.Handlers.Invoke` says of its endpoint. What is proved about machines, the bridge and the number
  of replicas does not depend on what the registry holds.
- The network controller of the state machine is the internal one, whose deletions never return an error.
  With Caddy a failed reload returns an error after the cache has changed (pkg/network/caddy/caddy.go:96);
  the machine then stays in the instance map, and the health checker can delete its address a second time.
- Deployments bring their own label and annotation maps (`Fits`), which is what a decoded request does.

## Where the code differs from what one may expect

- `DeleteMachine` picks and marks a machine without anything in between keeping others from picking the
  same one. A scale-down by two or more can delete an address twice, which panics or miscounts, or end with
  a machine too many; one that deletes at most one machine always reaches its target
  (`SplitClaims.SplitScaleDownIff`). So a delete handler can leave a running machine of a deleted function
  behind, exactly when it has two or more machines to stop (`SplitDelete`).
- Overlapping registry calls on one service can lose an address or bring a deleted one back, with atomic
  claims too. Any two calls can: two registrations that both read the list before either writes it, and,
  even if each `AddInstance` were one step, a deletion beside any other call and two first registrations
  (`BalancerRace`).
- A handler that finds a function before an overlapping delete handler removes it can start a machine of it
  afterwards (`Overlap.RemovedFunctionCanRun`). `Overlap.RemovalIsHarmlessIff` says exactly when a removal is
  harmless.
- A registration does not notice that Start has failed, so an address can stay listed for good without a
  machine (`Safety.FailedStartLeaksAddress`).
- Error returns between Lock and Unlock of the bridge lock keep the lock for good.
- The internal controller's `DeleteService` ranges over positions instead of addresses, so it leaves health
  entries behind, and it returns an error even when it succeeds. A deletion for an unknown service lowers
  the counter.
- A clone's label map is its source's annotation map. It works because a shared map is only ever written
  for one identity.
- `CreateMachine` writes labels before the last calls that can fail.
- A machine that the health checker finds stopped is not marked in the table; it stays listed as Running
  until `destroyMachine` has ended, or for good if that fails.

## Model

| member | source | states |
|---|---|---|
| `Safety.BalancersHoldLiveMachines` | `pkg/store/machine.go:246-290` | With each AddServiceIP and DeleteServiceIP as one step: in every reachable state of any interleaving, a service's balancer lists exactly the addresses of its calls that are registered and not yet given to DeleteServiceIP, each once, for one call each, and in no other service's balancer; that includes calls whose Start failed. The counter is the sum of the balancer sizes, and with atomic probes the health keys are exactly the listed addresses. |
| `Safety.FailedStartLeaksAddress` | `pkg/store/machine.go:501-532` | When Start fails and the registration comes through all the same, every later balancer lists an address that no stored machine has. |
| `Safety.ReachableSweepFits` | `pkg/network/internal/controller.go:171-187` | With registry calls and probes as one step each: in every reachable state the counter equals the number of health entries, a probe divides by zero only at the largest value of the counter, and otherwise a sweep takes n*floor(300/(n+1)) seconds, under 300. |
| `Safety.DeletedAtMostOnce` | `pkg/store/machine.go:205-229` | For the internal controller, whose deletions never return an error: DeleteServiceIP is called at most once per machine in any run; a machine it was called for is Running in the table only while the health checker itself is finishing with it. |
| `Safety.DeregisterSafeIffRegistered` | `pkg/store/machine.go:256-260` | For a goroutine about to delete a machine's address, the call neither panics nor miscounts if and only if the address has been registered. |
| `SetUp.UnregisteredVictimIsReachable` | `pkg/store/machine.go:501-538` | The code does not enforce that: a concrete run claims a stored machine whose registration goroutine has not come through yet. |
| `SetUp.PopulationIsReachable` | `pkg/store/machine.go:349-540` | For every number there is a run, at every granularity, to a state with that many machines of the service running, stored and registered, the lock free and the service quiet: the hypotheses of the counterexamples are met. |
| `Safety.BridgeLosesNothing` | `pkg/store/machine.go:420-499` | At most one createMachine call is between Lock and Unlock; the bridge's list is the initial one and then exactly one interface per call that completed Update, each under its own UID and with the address that call uses. |
| `Safety.FailureInsideFreezesTheBridge` | `pkg/store/machine.go:430-432` | A call inside the critical section can return with an error at any point; that keeps the lock, and from then on no run changes the bridge or gives out an address. |
| `Safety.FailedCallHasNoMachine` | `pkg/store/machine.go:349-540` | A createMachine call that returns with an error, wherever that is, never has a machine in either map, in any later run. |
| `Safety.RegistrationStaysPossible` | `pkg/store/machine.go:501-526` | The registration of a call can come through at any time after Create, also after Start has failed, and stays possible until it does. |
| `Safety.RegistrationEffect` | `pkg/network/internal/controller.go:64-70` | A registration puts the call's address last in its service's balancer, with the health entry that the first request gave, counts it, and changes nothing else. |
| `Safety.EntryCanBeProbed` | `pkg/network/internal/controller.go:173-180` | Every address in the health table that is not being probed can be probed at any time, with either answer; a read and a write with nothing in between are one whole probe. |
| `Safety.ProbeEffect` | `pkg/network/internal/controller.go:173-180` | A probe writes the health it has found, at once or later, and touches nothing else. |
| `Safety.LateProbeRevivesEntry` | `pkg/network/internal/controller.go:173-180` | A probe split into a read and a later write brings the health entry of an address back that was deleted in between, and no balancer lists the address. |
| `Safety.CountTail` | `pkg/store/machine.go:443-449` | The interfaces added to the bridge are as many as the calls that completed Update. |
| `Safety.InvKept` | `pkg/store/machine.go:89-540` | One step of any goroutine keeps the whole inductive invariant, for every granularity of claims and probes. |
| `Safety.InvOverRuns` | `pkg/store/machine.go:89-540` | So does every run, of any length and in any interleaving. |
| `HealthCheck.GoneMachineIsCleared` | `pkg/store/machine.go:110-131` | A stored machine that is recorded as Running and registered but found not to run: the check deletes its address under its service, takes it out of both maps, or keeps it as one that does not run, and gives the lock back. |
| `HealthCheck.GivenUpCheck` | `pkg/store/machine.go:231-247` | If its destruction gives up before the address is deleted, only what asking has written into the stored machine stays behind, and the lock is given back. |
| `HealthCheck.RunningMachineIsLeft` | `pkg/store/machine.go:115-124` | A check of a machine that runs, or that the platform cannot be asked about, leaves everything as it was. |
| `HealthCheck.ClearingIsFinished` | `pkg/store/machine.go:110-131` | Between finding a machine gone and the end of its destruction the lock is not given back, no scale operation begins and no other machine is checked. |
| `Safety.NetKept` | `pkg/network/internal/controller.go:47-95` | With each registry call as one step, every step keeps the balancers, the health table and the counter in agreement with the live machines. |
| `Safety.ProbeKeepsNet` | `pkg/network/internal/controller.go:173-180` | Neither whole probes nor probes split into a read and a later write disturb the balancers or the counter. |
| `LifecycleInv.AddressKept` | `pkg/store/machine.go:449-462` | A call has an address from Update on and not before. |
| `LifecycleInv.RegisterKept` | `pkg/store/machine.go:501-526` | A registration is spawned after Create only, and registers its address once. |
| `LifecycleInv.InstancesKept` | `pkg/store/machine.go:537` | A stored machine's service is the one its createMachine call was made for. |
| `LifecycleInv.InterfacesKept` | `pkg/store/machine.go:538` | The interface map holds the address that the machine's own call got, and only for calls that completed. |
| `LifecycleInv.LogKept` | `pkg/store/machine.go:246-260` | Under the assumption that a machine is destroyed only after its registration, DeleteServiceIP is only called for machines in both maps. |
| `LifecycleInv.LockKept` | `pkg/store/machine.go:110-111` | Without healthChecklock there is no destroying goroutine; its holder fixes whether they are workers or the health checker. |
| `LifecycleInv.TargetKept` | `pkg/store/machine.go:205-229` | A goroutine that destroys works on a stored machine, and a scale operation's worker on one of its own service. |
| `LifecycleInv.CriticalKept` | `pkg/store/machine.go:420-452` | Only the holder of the bridge lock is inside, and what it has read is still what the bridge holds. |
| `LifecycleInv.WriteAppends` | `pkg/store/machine.go:443-462` | Writing back the whole list that was read appends exactly one interface, and the search in the answer finds the call's own address. |
| `LifecycleInv.BridgeKept` | `pkg/store/machine.go:443-462` | Every step keeps the bridge an extension of the initial list by one interface per completed Update. |
| `LifecycleInv.DistinctKept` | `pkg/store/machine.go:449-462` | Machines that still have their address have it alone, given that the bridge hands out unused addresses. |
| `LifecycleInv.RegisterKeepsNet` | `pkg/store/machine.go:523` | A late registration, as one step, adds an address that no balancer has, and keeps the tables in agreement. |
| `LifecycleInv.DeregisterKeepsNet` | `pkg/store/machine.go:256-260` | A deletion of a registered machine's address, as one step, neither panics nor disturbs any other machine's entry. |
| `LifecycleInv.RunningOnlyByStore` | `pkg/store/machine.go:537` | A machine only becomes Running when its own createMachine call stores it, so one that has left Running never returns to it. |
| `LifecycleInv.RunningEndsInHand` | `pkg/store/machine.go:224-227` | Only a goroutine that has picked a machine can end its Running state. |
| `LifecycleInv.MarkedKept` | `pkg/store/machine.go:224-228` | A machine in a worker's destroyMachine is not Running any more; the mark comes first. |
| `LifecycleInv.PickedIsFree` | `pkg/store/machine.go:205-224` | With atomic claims a picked machine is in nobody else's hands and its address has not been deleted. |
| `LifecycleInv.AloneKept` | `pkg/store/machine.go:109-131` | With atomic claims no machine is ever in two goroutines' hands. |
| `LifecycleInv.LoggedKept` | `pkg/store/machine.go:256-263` | With atomic claims the log of deletions never repeats a machine. |
| `Scaling.NeverBelowTarget` | `pkg/store/machine.go:179-191` | For every interleaving, claims atomic or split: while a scale operation holds the lock the service never has fewer running machines than the smaller of what was counted and what was asked for. |
| `Scaling.WorkersFindMachines` | `pkg/store/machine.go:162-178` | A clone fails to find a machine only if none was running when the operation counted; a deletion never fails to find one. |
| `Scaling.OnlyMarksEndRunning` | `pkg/store/machine.go:218-229` | During a scale operation only a worker's mark takes a machine out of Running. |
| `Scaling.FloorKept` | `pkg/store/machine.go:179-191` | Running machines never fall below the target plus the workers that have yet to mark one. |
| `Scaling.FloorOverRuns` | `pkg/store/machine.go:161-194` | The lower bound holds over every run. |
| `Conservation.ScaleReachesTarget` | `pkg/store/machine.go:161-194` | With atomic claims and no other creation for the service: for every schedule the running count stays between what was counted and what was asked for, ends at the requested number less one per failed clone, is exact when all creations succeed, and other services' machines are untouched. |
| `Conservation.ConservedKept` | `pkg/store/machine.go:166-192` | Running machines, workers still to come and failed clones add up to the target after every step. |
| `Conservation.RunningStep` | `pkg/store/machine.go:161-229` | The exact change of the set of running machines in every kind of step of a scale operation. |
| `Conservation.SetsStep` | `pkg/store/machine.go:166-192` | A step that brings a worker to its outcome moves exactly that worker; no other step changes the account. |
| `Conservation.SourceKept` | `pkg/store/machine.go:299-305` | With a machine to clone from no cloning worker ends empty-handed; without one all of them do. |
| `Conservation.OthersKept` | `pkg/store/machine.go:161-229` | A scale operation leaves other services' machines as they were. |
| `Conservation.StaysBetween` | `pkg/store/machine.go:166-191` | The running count never overshoots and never undershoots on the way. |
| `Conservation.EndsAtTarget` | `pkg/store/machine.go:192` | When all workers are done only the failed clones are missing. |
| `Conservation.ScalingToSameIsNothing` | `pkg/store/machine.go:161-194` | Scaling to the number that runs already spawns nobody, can end at once, and changes nothing. |
| `SplitClaims.ScaleDownByTwoCanBreak` | `pkg/store/machine.go:219-227` | With selecting and marking split, from every state with a completely set-up running machine, every scale-down by two or more has a schedule in which two workers get that machine and the second DeleteServiceIP panics or miscounts. |
| `SplitClaims.SplitScaleDownIff` | `pkg/store/machine.go:179-191` | With split claims, in every state that any run leads to: a scale-down that nothing else interferes with ends with exactly the requested number of running machines in every schedule if and only if it takes away at most one machine. |
| `SplitClaims.LargeDropMissesTarget` | `pkg/store/machine.go:218-229` | Every drop of two or more has a schedule without a crash that ends one machine too many: two workers mark the same machine and give up, and every other worker takes one. |
| `SplitClaims.SmallDropReachesTarget` | `pkg/store/machine.go:161-194` | An operation that takes away at most one machine, or adds some, does with split claims what it does with atomic ones. |
| `SplitClaims.SmallDropsAreAtomic` | `pkg/store/machine.go:219-227` | If no scale operation takes away more than one machine, split and atomic claims have the same runs. |
| `SplitClaims.DropsByOneAreSafe` | `pkg/store/machine.go:179-191` | Then, with registry calls as one step each, every address is deleted at most once and the balancers are exact in every schedule, without assuming atomic claims. |
| `BalancerRace.SafeIff` | `pkg/network/internal/controller.go:47-95` | AddServiceIP and DeleteServiceIP split into load, extend or rebuild, and store, with each AddInstance and each change of the counter as one step: in every schedule of overlapping calls on one service nothing panics, the list ends with exactly the right addresses, and health entries and counter agree with it, if and only if there is at most one call, or all are additions and the service has a balancer already. Otherwise some schedule takes all calls to their end and leaves the wrong list. |
| `BalancerRace.SplitSafeIff` | `pkg/network/internal/random.go:26-30` | The same with the read and the write of AddInstance and of the counter as steps of their own: all three tables are right in every schedule if and only if there is at most one call; otherwise some schedule leaves the wrong list. |
| `BalancerRace.AdditionsCollide` | `pkg/network/internal/random.go:26-30` | Any two additions to a balancer that is there have a schedule in which all calls end and the list is wrong: both read it before either writes it. |
| `BalancerRace.CallsAreAccesses` | `pkg/network/internal/random.go:26-30` | Every run with AddInstance and the counter as one step is a run with their reads and writes apart. |
| `BalancerRace.NothingLostWithBalancer` | `pkg/network/internal/controller.go:53-70` | With each AddInstance and each change of the counter as one step: if the service has a balancer, no schedule of any number of registrations loses an address, and health entries and counter end in agreement with the list. |
| `BalancerRace.OneCallIsSafe` | `pkg/network/internal/controller.go:47-95` | One call alone has exactly its effect on the list, the health entries and the counter at either granularity, also the first addition to a service without a balancer. |
| `BalancerRace.CollisionIsUnsafe` | `pkg/network/internal/controller.go:80-90` | Even with each AddInstance as one step, a deletion beside any other call, and two first additions, have a schedule in which all calls are made to their end and the list is wrong. |
| `BalancerRace.AloneIsAtomic` | `pkg/network/internal/controller.go:47-95` | A call made while nobody else is in the middle of one has its effect on all three tables in one piece. |
| `BalancerRace.AloneIsOneStep` | `pkg/network/internal/controller.go:47-95` | And that is the effect on the controller's tables that the one-step model has, the counter's wrap-around included. |
| `BalancerRace.DeletionWithoutBalancer` | `pkg/network/internal/controller.go:75-95` | Deleting an address from a service that has no balancer drops the health entry and counts down all the same, in the steps and in the one-step model. |
| `BalancerRace.DeletionOfAbsent` | `pkg/network/internal/controller.go:80-95` | Deleting an address that the list does not have panics before any table changes; only if the list is empty it comes through, and counts down. |
| `BalancerRace.FirstAddressesCanBeLost` | `pkg/network/internal/controller.go:58-69` | If the service has no balancer, two or more first registrations have a start after which one address is lost in every continuation. |
| `BalancerRace.OrphanedForever` | `pkg/network/internal/controller.go:64-69` | At either granularity, an address in a balancer that is neither stored nor in anyone's hands is never listed again. |
| `MachineStore.Store.constructor` | `pkg/store/machine.go:537-538` | An empty store over a network controller is valid. |
| `MachineStore.Store.WriteMaps` | `pkg/store/machine.go:478-481` | Writing the labels leaves all stored machines' labels intact if and only if no machine of another identity holds the written map. |
| `MachineStore.Store.PrepareMaps` | `pkg/store/machine.go:468-481` | The given maps are taken by reference, or new ones made, and labelled for the request; with fitting maps sharing stays within one identity. |
| `MachineStore.Store.CreateMachine` | `pkg/store/machine.go:349-540` | Stores one new machine that holds the very maps it was given, under its UID with its interface; labels of others survive if and only if creation failed before writing labels or nobody of another identity holds the label map, also when creation fails later. Only the given maps and new ones come into use. |
| `MachineStore.Store.NewMachine` | `pkg/store/machine.go:325-347` | The deployment's own maps become the machine's, the labels under the three written-out keys are the deployment's service, image and namespace, the file system is recorded if it exists, all machines' labels stay intact, and only its own and new maps come into use. |
| `MachineStore.Store.Execute` | `pkg/store/machine.go:299-347` | Over any sequence of creations, clonings and deletions, with any failures and with deployments whose maps are separate: after every prefix the right machines are stored; a new one's labels are its deployment's service, image and namespace, a clone's are those of a machine of its service, and they never change. |
| `MachineStore.Store.CloneMachine` | `pkg/store/machine.go:299-323` | A clone is made from a running machine of the service: its three labels are the source's, its file system too, and the source's annotation map becomes both its label map and its annotation map. |
| `MachineStore.Store.GetReplicas` | `pkg/store/machine.go:139-154` | The count is the number of stored machines that run and whose service label is the service. |
| `MachineStore.Store.GetFunctionMachine` | `pkg/store/machine.go:196-216` | Gives a Running machine of the service, or nothing exactly when there is none. |
| `MachineStore.Store.ClaimMachine` | `pkg/store/machine.go:219-227` | Takes exactly one machine out of the service's running machines. |
| `MachineStore.Store.DeleteAddress` | `pkg/store/machine.go:246-260` | The address is deleted under the service the machine was created for; if the platform fails first or there is no interface, nothing happens. |
| `MachineStore.Store.Conclude` | `pkg/store/machine.go:276-290` | A machine that is gone leaves both maps; one that is not is stored as not running. |
| `MachineStore.Store.DestroyMachine` | `pkg/store/machine.go:231-297` | Deletes the address first, and changes the maps only after that has worked; a platform error before that changes nothing. |
| `MachineStore.Store.DeleteMachine` | `pkg/store/machine.go:218-229` | Whatever becomes of the destruction, a platform error before it included, exactly the claimed machine stops running, its address is deleted under that service if at all, nothing changes about the others, and labels stay intact. |
| `MachineStore.Store.CheckMachine` | `pkg/store/machine.go:109-131` | One entry of a health check: exactly a machine that is recorded as Running and does not run is destroyed, its address deleted under its service label exactly when the platform answers, an interface is stored and the deletion goes through; everything else is left alone. |
| `Refinement.DeleteMachine` | `pkg/store/machine.go:218-297` | The object-level DeleteMachine refines the state machine: what it does to the store is what its steps (select, mark, then deregister and stop, or give up, also on a platform error) do to the state that represents the store. |
| `Refinement.NewMachine` | `pkg/store/machine.go:325-347` | So does NewMachine, with the deployment's own maps and any failure: its steps are those from the beginning of the call to the two stores into the maps, or to the point where it gives up. |
| `Refinement.CloneMachine` | `pkg/store/machine.go:299-323` | So does a worker's CloneMachine, which shares its source's annotation map, whichever running machine it takes; without one it takes the step of a clone that finds nothing. |
| `Refinement.CheckMachine` | `pkg/store/machine.go:109-131` | So does the health checker's look at one machine, whatever the platform answers and however far the destruction comes. |
| `InternalController.AddKeepsAgreement` | `pkg/network/internal/controller.go:64-70` | Adding an unused address keeps every address in one balancer once, count and size sum equal, and health keys equal to the listed addresses. |
| `InternalController.DelKeepsAgreement` | `pkg/network/internal/controller.go:80-92` | Deleting an address the service has never panics, takes out exactly that address, and keeps the three tables in agreement. |
| `InternalController.DelOfAbsentBreaks` | `pkg/network/internal/controller.go:80-92` | Deleting one it does not have panics if the service has others, and otherwise leaves the counter one off. |
| `InternalController.DelServiceLeavesKeys` | `pkg/network/internal/controller.go:97-113` | After a service deletion the count matches but its addresses stay in the health table; the keys are exact again if and only if the service had none. |
| `InternalController.RunsAgree` | `pkg/network/internal/controller.go:47-116` | Over every run of such additions, deletions, service deletions and probes the count equals the sum of all sizes and every listed address has a health entry; without service deletions the keys are exact. |
| `InternalController.DelayDefined` | `pkg/network/internal/controller.go:181` | The pause divides by zero for exactly one value of the counter, lies within 300 seconds either way, and is 300/(count+1) for every real count. |
| `InternalController.RunsSweepShortly` | `pkg/network/internal/controller.go:171-187` | After every run of additions, deletions and probes from an empty controller, the counter equals the number of health entries; no probe divides by zero unless that is the largest value of the counter, and a sweep over the table sleeps n*floor(300/(n+1)) seconds, under 300. |
| `InternalController.HealthIsCounted` | `pkg/network/internal/controller.go:64-92` | While the health keys are exact, there are as many health entries as the balancers list addresses, and the counter says so. |
| `InternalController.SweepUnderFiveMinutes` | `pkg/network/internal/controller.go:181-182` | For every value of the counter but the largest one, that many pauses take n*floor(300/(n+1)) seconds, also where the divisor reads as negative. |
| `InternalController.UnknownDeletesBreakTheDelay` | `pkg/network/internal/controller.go:91-92` | Deletions for unknown services do wrap the counter and make the next probe divide by zero. |
| `InternalController.FindableIffAvailable` | `pkg/network/internal/controller.go:159-168` | Some draw finds an endpoint exactly when an address is available, and every draw does exactly when all are. |
| `InternalController.FirstHitIsHealthy` | `pkg/network/internal/controller.go:129-138` | An endpoint that is given is the first address the draws come to whose health entry is true; none is given exactly when every draw comes to an address without an entry or with a false one. |
| `InternalController.AvailableBounds` | `pkg/network/internal/controller.go:159-168` | Available addresses are those whose health entry is true: there is one exactly when the count is positive, and all are exactly when it is the length of the list. |
| `InternalController.AvailableCounts` | `pkg/network/internal/controller.go:159-168` | The count is the number of positions in the list whose address has a true health entry. |
| `InternalController.InternalNetworkController.AddServiceIP` | `pkg/network/internal/controller.go:47-73` | The mutable controller's new tables are those of the specification; balancer objects are extended in place and never shared between services. |
| `InternalController.InternalNetworkController.DeleteServiceIP` | `pkg/network/internal/controller.go:75-95` | Likewise; a panic of the balancer comes before any table has changed. |
| `InternalController.InternalNetworkController.DeleteService` | `pkg/network/internal/controller.go:97-116` | Likewise; the loop over positions removes no health entry and the result is always an error. |
| `InternalController.InternalNetworkController.AvailableIPs` | `pkg/network/internal/controller.go:144-169` | Counts the service's addresses whose health entry is there and true, and fails for an unknown service. |
| `InternalController.InternalNetworkController.ResolveServiceEndpoint` | `pkg/network/internal/controller.go:118-142` | Within max(size, 5) draws gives the first address drawn whose health entry is there and true; otherwise every draw came to one that is not. |
| `InternalController.InternalNetworkController.RunHealthChecks` | `pkg/network/internal/controller.go:173-185` | One sweep brings every entry up to date and sleeps once per entry; it fails only by division by zero. With agreeing tables it does not fail and takes under 300 seconds. |
| `LoadBalancer.RandomLoadBalancer.AddInstance` | `pkg/network/internal/random.go:26-30` | Appends in place and hands the same object back. |
| `LoadBalancer.RandomLoadBalancer.DeleteInstance` | `pkg/network/internal/random.go:32-48` | The copy loop stays in bounds exactly when there is nothing to copy or the address is present; the result is a new balancer and the old one is unchanged. |
| `LoadBalancer.RandomLoadBalancer.NextInstance` | `pkg/network/internal/random.go:50-56` | A draw picks the address at that position; an empty balancer is an error. |
| `LoadBalancer.RemovedOnce` | `pkg/network/internal/random.go:36-43` | For an address that occurs once, deletion is exact order-preserving removal. |
| `LoadBalancer.RemovedPads` | `pkg/network/internal/random.go:36-43` | For one that occurs k times, the others keep their order and k-1 unset addresses follow; deletion of an absent one overruns the list. |
| `Caddy.CaddyController.GetConfig` | `pkg/network/caddy/caddy.go:99-125` | For every iteration order, the permanent routes as an unchanged prefix and then one route per cached service with its upstreams in order, also when append writes into the permanent routes' backing array. |
| `Caddy.Append` | `pkg/network/caddy/caddy.go:119-122` | Go's append: in place while there is room, else into a new array; the slice it was given keeps its elements. |
| `Caddy.RoutesAreOnePerService` | `pkg/network/caddy/caddy.go:101-123` | In every order the added routes are one per cached service, each with its path, its upstreams and the fixed proxy settings, and for slash-free names no two have the same path. |
| `Caddy.CaddyController.ReloadConfig` | `pkg/network/caddy/caddy.go:127-152` | Sends exactly that configuration and changes neither the cache nor the permanent routes. |
| `Caddy.CaddyController.AddServiceIP` | `pkg/network/caddy/caddy.go:41-58` | The service's entries gain the address with port 8123 at the end, whether or not Caddy is reached, and the whole configuration is sent. |
| `Caddy.CaddyController.DeleteServiceIP` | `pkg/network/caddy/caddy.go:74-97` | The other addresses' entries stay in order; a service that loses its last one loses its key; what is sent is the configuration after the change. |
| `Caddy.CaddyController.DeleteService` | `pkg/network/caddy/caddy.go:60-72` | Removes the service's key and nothing else, and sends the configuration without it. |
| `Caddy.CaddyController.AvailableIPs` | `pkg/network/caddy/caddy.go:165-174` | The number of cached entries; unknown services are an error. |
| `Caddy.CaddyController.ResolveServiceEndpoint` | `pkg/network/caddy/caddy.go:154-163` | A path is given exactly for services with an address, and reads back as the service's name; behind the permanent routes, in whatever order the others were sent, it does what PathsLead says. |
| `Caddy.PathsLead` | `pkg/network/caddy/caddy.go:101-123` | Behind any permanent routes, a cached service's path has a route with its upstreams. For slash-free names every route with that path has these upstreams if and only if that holds of the permanent routes, and the path of a service that is not cached has no route if and only if no permanent route has it. |
| `Caddy.DeletableIffColonFree` | `pkg/network/caddy/caddy.go:85` | An added address can be deleted again if and only if it has no colon. |
| `Caddy.HostOfEntry` | `pkg/network/caddy/caddy.go:85` | The part of an entry in front of its first colon is the address if and only if that is colon-free. |
| `Registry.BothRefine` | `pkg/network/internal/controller.go:47-95` | Internal controller and Caddy cache stay in step with one abstract table over every allowed run, whatever reloading answers. |
| `Registry.ControllersAgree` | `pkg/store/machine.go:156-159` | From empty controllers both list the same addresses in the same order per service, and no other list has Caddy's entries; the available replicas agree if and only if all of the service's addresses are healthy. |
| `Registry.InternalStep` | `pkg/network/internal/controller.go:47-95` | One allowed operation keeps the internal controller in step with the table and does not panic. |
| `Registry.CaddyStep` | `pkg/network/caddy/caddy.go:41-97` | One allowed operation keeps the Caddy cache in step with the table. |
| `Registry.KeptIsWithout` | `pkg/network/caddy/caddy.go:84-88` | On colon-free addresses Caddy's text filter is exact removal. |
| `CaddyTools.WordRunIsLongest` | `pkg/network/caddy/tools.go:11` | The captured group is the longest prefix of word characters. |
| `CaddyTools.FindMatchIsLeftmost` | `pkg/network/caddy/tools.go:14` | The search finds the leftmost match, and none exactly when there is none. |
| `CaddyTools.SlashFreeReadBack` | `pkg/network/caddy/tools.go:24-37` | Reading back a slash-free name's path gives its longest word prefix, or the path itself if that is empty. |
| `CaddyTools.FirstNameIsRead` | `pkg/network/caddy/tools.go:9-32` | In any text, the name read is the word after the first occurrence of the prefix that has one. |
| `CaddyTools.RoundTripIff` | `pkg/network/caddy/tools.go:24-37` | Making a path of a name and reading it back gives the name exactly when it is a non-empty word of ASCII letters, digits and underscores, or has a slash and nothing in it that the pattern finds. |
| `CaddyTools.SamePathIff` | `pkg/network/caddy/tools.go:32-37` | Two names have the same path if and only if they are equal or one of them is the other one's path; so the printer is injective on slash-free names. |
| `FunctionStore.Functions.AddFunction` | `pkg/store/function.go:66-179` | The search loop and the digest-keyed cache compute the specified result, store and pull. |
| `FunctionStore.Functions.UpdateFunction` | `pkg/store/function.go:247-273` | Another image means deleting and adding; the same image keeps package, directory and cache and replaces the request; an unknown function changes nothing. |
| `FunctionStore.Functions.DeleteFunction` | `pkg/store/function.go:181-185` | Removes the function and keeps the cache. |
| `FunctionStore.Functions.GetFunction` | `pkg/store/function.go:237-245` | The stored function, or an error when there is none. |
| `FunctionStore.Select` | `pkg/store/function.go:90-117` | The first manifest that matches the reference and converts. |
| `FunctionStore.AddUsesFirstUsable` | `pkg/store/function.go:90-176` | A stored function comes from the first manifest that converts and whose name and version annotations with a colon between them are the reference: its package is the cached one of the digest or the manifest's own, which is then pulled, its directory is named by the digest and by no other, and it is stored with the request. |
| `FunctionStore.FirstMatchIsSelected` | `pkg/store/function.go:88-115` | Conversely, for every name and version, the first convertible manifest with these annotations is selected for the reference made of them. |
| `FunctionStore.OutcomesOfAdd` | `pkg/store/function.go:66-180` | Which error an addition ends with, for every case, and that nothing is stored then. |
| `FunctionStore.AddKeepsCoherence` | `pkg/store/function.go:123-176` | Adding keeps every function's package the cached one of its directory's digest, changes no cache entry and pulls no cached digest. |
| `FunctionStore.UpdateKeepsCoherence` | `pkg/store/function.go:247-273` | So does updating. |
| `FunctionStore.StoredIffDeployable` | `pkg/store/function.go:66-179` | Adding works if and only if the service is new, the image name parses, manifests are listed, and the first usable one has a long enough digest and a target that is cached or can be fetched. |
| `FunctionStore.PulledIff` | `pkg/store/function.go:126-156` | A digest is pulled if and only if the service is new and the first usable manifest has that digest, which is not cached, and the preparations work; the pull is kept if and only if it succeeds and fetches a target. |
| `FunctionStore.UpdateLosesFunctionIff` | `pkg/store/function.go:258-262` | An update loses the function if and only if the image changes and the new one is not deployable. |
| `FunctionStore.RunsAreCoherent` | `pkg/store/function.go:66-273` | Over every run of additions, updates and deletions: coherent, cache entries never change, and a cached digest is never pulled again. |
| `Provider.RunningMachinesAreDeployed` | `pkg/provider/handlers/delete.go:58-67` | After any sequence of completed deploy, scale, delete and invoke handlers, with any background steps and failures, every Running machine's service is in the function store. |
| `Provider.NothingRunsAfterDelete` | `pkg/provider/handlers/delete.go:58-67` | Once a delete handler has completed, no machine of the function runs. |
| `Provider.HandledKeeps` | `pkg/provider/handlers/scale.go:57-61` | Every completed handler leads from a consistent pair of stores to one. |
| `Provider.ScaledKeeps` | `pkg/store/machine.go:161-194` | A whole scale operation keeps the stores consistent, and one to zero leaves no running machine of the service. |
| `Provider.ScaledReaches` | `pkg/store/machine.go:161-194` | A whole scale operation, waiting included, has exactly the effect that all its schedules have in common. |
| `Provider.RescalingReaches` | `pkg/provider/handlers/scale.go:57-61` | A handled scaling of a stored function: from zero a createMachine call for it comes first; then in any case a scale operation counts, and ends with the requested number of running machines less one per failed clone. |
| `Provider.LaunchedRuns` | `pkg/provider/handlers/scale.go:58-60` | The createMachine call of a handler is one for its function, begins after the handler does and has returned when it goes on. |
| `SplitDelete.SplitDeleteIff` | `pkg/provider/handlers/delete.go:58-67` | With split claims, after a delete handler every running machine belongs to a deployed function in every schedule if and only if at most one machine had to be stopped. |
| `SplitDelete.DeletedFunctionCanKeepRunning` | `pkg/provider/handlers/delete.go:58-67` | From an empty provider, deploying any deployable function, scaling it to two and deleting it has a run that leaves a running machine of a function that is no longer there. |
| `Provider.Handlers.Deploy` | `pkg/provider/handlers/deploy.go:87-100` | Adds the function and then runs one createMachine call for it; nothing more happens when the function is not stored. |
| `Provider.Handlers.Scale` | `pkg/provider/handlers/scale.go:57-61` | From zero one createMachine call comes first, whatever its result; in both cases a scale operation follows, at whose end the requested number of machines runs, less the clones that failed. |
| `Provider.Handlers.Delete` | `pkg/provider/handlers/delete.go:58-67` | Scales to zero until none runs, and only then removes the function and nothing else. |
| `Provider.Handlers.Invoke` | `pkg/provider/handlers/invoke.go:29-56` | From zero one createMachine call comes first; an endpoint was healthy when last probed, and is the address of a registered call for that very function that was not given to DeleteServiceIP, which includes calls whose Start failed. |
| `Provider.Handlers.ScaleMachinesTo` | `pkg/store/machine.go:161-194` | Waits for the lock, counts and spawns, waits for the workers, and gives the lock back; the operation's effect is the one proved for all schedules. |
| `Provider.Handlers.Run` | `pkg/store/machine.go:167-191` | Goroutines beside a handler take the steps of a schedule that can be taken at their turn. |
| `Provider.RunsArePlayed` | `pkg/store/machine.go:167-191` | Every run of background steps is what some schedule comes to, so schedules leave out no interleaving. |
| `Provider.ActualNameOfQualified` | `pkg/provider/handlers/invoke.go:30-33` | A function answers to its name with and without the namespace suffix, of which exactly one is taken off. |
| `Overlap.RemovalIsHarmlessIff` | `pkg/provider/handlers/delete.go:58-67` | Deploy, scale, invoke and delete handlers side by side, in any scene they can come to: after a removal no machine of the function runs in any continuation without a new deployment if and only if at the removal none runs, no call can still store one, and no handler that has the function at hand can begin one. A call or handler that the frozen bridge keeps out does not count. |
| `Overlap.GuardedOverlapsAreSafe` | `pkg/provider/handlers/delete.go:58-67` | From an empty provider, in any run of handlers side by side whose removals all meet that condition, every running machine belongs to a stored function. |
| `Overlap.DeleteAloneIsHarmless` | `pkg/provider/handlers/delete.go:58-67` | A delete handler's removal meets that condition, with atomic claims and whatever handlers of other functions do meanwhile, if no other handler has the function at hand when it gets the lock, no other creation for it is under way, and nobody gets hold of it until the removal. |
| `Overlap.RemovedFunctionCanRun` | `pkg/provider/handlers/scale.go:57-61` | From an empty provider: a scale handler that finds a function and counts no machine, while a delete handler runs from its beginning to its end, has a continuation in which a machine of the removed function runs. |
| `Overlap.ClearKept` | `pkg/provider/handlers/scale.go:57-61` | No act of any handler or goroutine brings a threat to a function that nobody gets hold of. |
| `Overlap.HandledIsPlayed` | `pkg/provider/handlers/scale.go:57-61` | Whatever a completed handler does by itself is a run of the handlers side by side, so the two descriptions of the handlers agree. |
| `Threats.UnthreatenedKept` | `pkg/store/machine.go:349-540` | If none of a service's machines runs and none of its calls can store one, only a new call for it changes that. |
| `Threats.ThreatComesTrue` | `pkg/store/machine.go:420-540` | If one runs, or a call can get behind the bridge lock or is there, steps of calls already begun lead to a running machine of the service, whoever holds the bridge lock. |

## Left out

- Safety.BalancersHoldLiveMachines: takes every AddServiceIP and DeleteServiceIP as one step, because with overlapping calls the property is false of the code; `BalancerRace.SafeIff` and `BalancerRace.SplitSafeIff` have the exact conditions.
- Safety.NetKept: the same, for one step.
- LifecycleInv.RegisterKeepsNet: the same, for a registration.
- LifecycleInv.DeregisterKeepsNet: the same, for a deletion.
- SplitClaims.DropsByOneAreSafe: the same; only the claims are split there.
- Safety.ReachableSweepFits: the same, for the counter and the health table.
- BalancerRace.SafeIff: takes each AddInstance and each change of the counter as one step; `BalancerRace.SplitSafeIff` takes them apart.
- BalancerRace.NothingLostWithBalancer: takes each AddInstance and each change of the counter as one step, because with the read and the write apart it is false; `BalancerRace.AdditionsCollide` has the run.
- LifecycleInv.LogKept: registration before destruction is the guard of the step, which the code does not enforce (`SetUp.UnregisteredVictimIsReachable`).
- HTTP, JSON, status codes, namespaces, secrets and logging in the handlers: only the order of store calls is modelled.
- containerd, OCI pulls, kraftkit machine control, bridge and netlink internals, qemu, volumes and file copies: their results are parameters or choices of the step.
- pkg/provider/handlers/update.go: it takes the update branch only for a missing function, so its stop-and-recreate part is never reached; `FunctionStore.Functions.UpdateFunction` is modelled directly.
- The standalone `Deploy` function in pkg/provider/handlers/deploy.go: a straight line of external calls that the provider does not use.
- Progress: whether a scale operation, a registration or a probe ever ends. A handler's contract speaks of the case that it has been completed.
- Go memory-model races on unsynchronised maps and fields: every read and every write is atomic.
- The `size` field of a balancer while registry calls overlap: `BalancerRace` takes it to be the length of the list.
- Handlers that overlap, in `Provider.dfy`: there they run one after another, each beside any steps of the goroutines that are already there, given as a schedule. `Overlap.dfy` has them side by side, with the names of the stored functions for the function store, and without the lookup of an endpoint.
- Handlers with the Caddy controller: the state machine, and with it the handler theorems, is about the internal one.
- Randomness and fairness of the load balancer: draws are an arbitrary sequence of numbers.
- Creation times, and the directory that is removed again when a pull fails.
- Joining a digest that contains path separators or dots to the image directory: digests are taken as plain names.
- A failed conversion of a manifest is taken to return no package.
- The width of a balancer's size and of replica counts: only the instance counter wraps around.
- Parsing of resolved endpoints as URLs: the address or the path is the result.
- Concurrent calls of AddFunction for the same service.
- cmd/, pkg/logs, listing, info and status handlers, configuration and install scripts: input and output only.
