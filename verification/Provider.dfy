/**
  The provider's handlers: the order in which they change the function store and the machine store.
  A handler is given the schedule of everything that runs beside it as a list of steps; steps that
  cannot be taken at their turn are passed over, so the list stands for any interleaving.
 */
module Provider {
  import opened Common
  import opened InternalController
  import opened Lifecycle
  import opened LifecycleInv
  import opened Safety
  import opened Scaling
  import opened Conservation
  import F = FunctionStore

  /** Steps of goroutines that are already there; handlers run one after another. */
  predicate Background(step: Step) {
    !step.Begin? && !step.StartScale? && !step.EndScale?
  }

  /** Every running machine, and every machine still to be stored, is for one of these functions. */
  ghost predicate Backed(st: State, functions: set<string>) {
    && (forall u :: RunningSomewhere(st, u) ==> st.instances[u].service in functions)
    && (forall u :: u in st.calls && PreStore(st.calls[u].pc) ==> st.calls[u].service in functions)
  }

  lemma BackedKept(mode: Mode, st: State, step: Step, functions: set<string>)
    requires InstancesInv(st) && Backed(st, functions) && Enabled(mode, st, step)
    requires step.Begin? ==> step.service in functions
    ensures Backed(Apply(mode, st, step), functions)
  {
    var st' := Apply(mode, st, step);
    forall u | RunningSomewhere(st', u) ensures st'.instances[u].service in functions {
      RunningOnlyByStore(mode, st, step, u);
    }
    if step.Clone? {
      assert RunningSomewhere(st, step.source);
    }
    forall u | u in st'.calls && PreStore(st'.calls[u].pc) ensures st'.calls[u].service in functions {
    }
  }

  /** Every call that has not returned, except `but`, is the clone of a worker of the current scale operation. */
  ghost predicate CallsOwned(st: State, but: set<Uid>) {
    forall u :: u in st.calls && Active(st.calls[u].pc) && u !in but ==> exists t :: Is(st, t, Cloning(u))
  }

  lemma CallsOwnedKept(mode: Mode, st: State, step: Step, but: set<Uid>)
    requires ShapeInv(st) && LockInv(st) && CallsOwned(st, but) && Enabled(mode, st, step)
    requires step.Begin? ==> step.uid in but
    ensures CallsOwned(Apply(mode, st, step), but)
  {
    var st' := Apply(mode, st, step);
    forall u | u in st'.calls && Active(st'.calls[u].pc) && u !in but ensures exists t :: Is(st', t, Cloning(u)) {
      if step.Clone? && u == step.uid {
        assert Is(st', Worker(step.w), Cloning(u));
      } else {
        var t :| Is(st, t, Cloning(u));
        assert Up(st) && !step.EndScale?;
        CloneGoesOn(mode, st, step, t, u);
      }
    }
  }

  /** No call is under way and no scale operation either. */
  ghost predicate Idle(st: State) {
    !st.holder.Scaling? && CallsOwned(st, {})
  }

  lemma IdleHasNoActiveCall(st: State)
    requires ShapeInv(st) && Idle(st)
    ensures forall u :: u in st.calls ==> !Active(st.calls[u].pc)
    ensures forall service :: Quiet(st, service)
  {
    assert forall t, u :: !Is(st, t, Cloning(u));
  }

  /** All that is kept at every moment. */
  ghost predicate Good(base: seq<Iface>, mode: Mode, st: State, functions: set<string>, but: set<Uid>) {
    && Inv(base, mode, st) && ShapeInv(st) && FloorInv(st)
    && Backed(st, functions) && CallsOwned(st, but)
  }

  lemma GoodKept(base: seq<Iface>, mode: Mode, st: State, step: Step, functions: set<string>, but: set<Uid>)
    requires Good(base, mode, st, functions, but) && Enabled(mode, st, step)
    requires step.Begin? ==> step.service in functions && step.uid in but
    ensures Good(base, mode, Apply(mode, st, step), functions, but)
  {
    InvKept(base, mode, st, step);
    ShapeKept(mode, st, step);
    FloorKept(mode, st, step);
    BackedKept(mode, st, step, functions);
    CallsOwnedKept(mode, st, step, but);
  }

  lemma ScalingKept(mode: Mode, st: State, step: Step)
    requires LockInv(st) && Enabled(mode, st, step) && Background(step)
    ensures Apply(mode, st, step).holder.Scaling? <==> st.holder.Scaling?
  {
    if ByCall(step) {
      CallsLeaveTasks(mode, st, step);
    }
  }

  ghost predicate AllBackground(steps: seq<Step>) {
    forall i :: 0 <= i < |steps| ==> Background(steps[i])
  }

  lemma {:induction false} GoodOverRuns(base: seq<Iface>, mode: Mode, st: State, steps: seq<Step>,
                                        functions: set<string>, but: set<Uid>)
    requires Good(base, mode, st, functions, but) && Exec(mode, st, steps).Some?
    requires AllBackground(steps)
    ensures Good(base, mode, Exec(mode, st, steps).value, functions, but)
    ensures Exec(mode, st, steps).value.holder.Scaling? <==> st.holder.Scaling?
    decreases |steps|
  {
    if steps != [] {
      GoodKept(base, mode, st, steps[0], functions, but);
      ScalingKept(mode, st, steps[0]);
      GoodOverRuns(base, mode, Apply(mode, st, steps[0]), steps[1..], functions, but);
    }
  }

  ghost predicate NoneRunning(st: State, service: string) {
    forall u :: !IsRunning(st, service, u)
  }

  /** Outside scale operations and calls, nothing makes a machine run. */
  lemma NoneRunningKept(mode: Mode, st: State, step: Step, service: string)
    requires InstancesInv(st) && ShapeInv(st) && Idle(st) && NoneRunning(st, service) && Enabled(mode, st, step)
    ensures NoneRunning(Apply(mode, st, step), service)
  {
    IdleHasNoActiveCall(st);
    forall u ensures !IsRunning(Apply(mode, st, step), service, u) {
      assert !IsRunning(st, service, u);
      if RunningSomewhere(Apply(mode, st, step), u) {
        RunningOnlyByStore(mode, st, step, u);
      }
    }
  }

  lemma {:induction false} NoneRunningOverRuns(base: seq<Iface>, mode: Mode, st: State, steps: seq<Step>,
                                               functions: set<string>, service: string)
    requires Good(base, mode, st, functions, {}) && !st.holder.Scaling? && Exec(mode, st, steps).Some?
    requires AllBackground(steps)
    requires NoneRunning(st, service)
    ensures NoneRunning(Exec(mode, st, steps).value, service)
    decreases |steps|
  {
    if steps != [] {
      GoodKept(base, mode, st, steps[0], functions, {});
      ScalingKept(mode, st, steps[0]);
      NoneRunningKept(mode, st, steps[0], service);
      NoneRunningOverRuns(base, mode, Apply(mode, st, steps[0]), steps[1..], functions, service);
    }
  }

  // ---------------------------------------------------------------- names

  const NAMESPACE_SUFFIX := ".openfaas-fn"

  predicate HasSuffix(s: string, suffix: string) {
    |suffix| <= |s| && s[|s| - |suffix|..] == suffix
  }

  function TrimSuffix(s: string, suffix: string): string {
    if HasSuffix(s, suffix) then s[..|s| - |suffix|] else s
  }

  function ActualName(name: string): string {
    if '.' in name then TrimSuffix(name, NAMESPACE_SUFFIX) else name
  }

  /** A function answers to its name with and without the namespace; only one suffix is taken off. */
  lemma ActualNameOfQualified(name: string)
    ensures ActualName(name + ".openfaas-fn") == name
    ensures ActualName(name) == name <==> !exists plain :: name == plain + ".openfaas-fn"
  {
    var full := name + NAMESPACE_SUFFIX;
    assert full[|name|] == NAMESPACE_SUFFIX[0] == '.';
    assert full[|full| - |NAMESPACE_SUFFIX|..] == NAMESPACE_SUFFIX && full[..|name|] == name;
    if HasSuffix(name, NAMESPACE_SUFFIX) {
      var n := |name| - |NAMESPACE_SUFFIX|;
      assert name[n] == name[n..][0] == '.';
      assert name == name[..n] + ".openfaas-fn";
    }
    forall plain ensures name == plain + ".openfaas-fn" ==> HasSuffix(name, NAMESPACE_SUFFIX) {
      assert (plain + NAMESPACE_SUFFIX)[|plain|..] == NAMESPACE_SUFFIX;
    }
  }

  // ---------------------------------------------------------------- the handlers

  /** What a schedule comes to: background steps that can be taken at their turn are, others are passed over. */
  function Played(mode: Mode, st: State, schedule: seq<Step>): State
    decreases |schedule|
  {
    if schedule == [] then st
    else if Background(schedule[0]) && Enabled(mode, st, schedule[0]) then
      Played(mode, Apply(mode, st, schedule[0]), schedule[1..])
    else Played(mode, st, schedule[1..])
  }

  /** Schedules cover every run of the background: a run is the schedule of its own steps. */
  lemma {:induction false} RunsArePlayed(mode: Mode, st: State, steps: seq<Step>)
    requires AllBackground(steps) && Exec(mode, st, steps).Some?
    ensures Played(mode, st, steps) == Exec(mode, st, steps).value
    decreases |steps|
  {
    if steps != [] {
      RunsArePlayed(mode, Apply(mode, st, steps[0]), steps[1..]);
    }
  }

  lemma {:induction false} PlayedSnoc(mode: Mode, st: State, schedule: seq<Step>, step: Step)
    ensures Played(mode, st, schedule + [step]) == Played(mode, Played(mode, st, schedule), [step])
    decreases |schedule|
  {
    if schedule == [] {
      assert schedule + [step] == [step];
    } else {
      assert (schedule + [step])[1..] == schedule[1..] + [step];
      var next := if Background(schedule[0]) && Enabled(mode, st, schedule[0]) then Apply(mode, st, schedule[0]) else st;
      PlayedSnoc(mode, next, schedule[1..], step);
    }
  }

  /** Other goroutines' steps alone lead from one state to the other. */
  ghost predicate Leads(mode: Mode, from: State, to: State) {
    exists steps :: AllBackground(steps) && Exec(mode, from, steps) == Some(to)
  }

  /** A createMachine call for the service has run from its beginning to its return. */
  ghost predicate Launched(mode: Mode, from: State, service: string, uid: Uid, to: State) {
    && FreshUid(from, uid) && Leads(mode, Apply(mode, from, Begin(uid, service)), to)
    && uid in to.calls && !Active(to.calls[uid].pc)
  }

  /** The effect of a scale operation between its count and the end of its last worker. */
  ghost predicate Reached(counted: State, ended: State, service: string, target: nat) {
    && ended.holder == Scaling(service, Running(counted, service), target)
    && Running(ended, service) == (if Running(counted, service) < target then target - |Lost(ended)| else target)
    && (Running(counted, service) == 0 ==> Running(ended, service) == 0)
    && OthersSame(counted.instances, ended, service)
  }

  /** The stretch of a scale operation in which it has the lock. */
  ghost predicate Worked(mode: Mode, counted: State, service: string, target: nat, ended: State) {
    && counted.holder.Free? && Leads(mode, Apply(mode, counted, StartScale(service, target)), ended)
    && Enabled(mode, ended, EndScale)
  }

  /** A whole scale operation: waiting for the lock, working with it, and what happens before the caller goes on. */
  ghost predicate Scaled(mode: Mode, from: State, service: string, target: nat, to: State) {
    exists counted, ended ::
      Leads(mode, from, counted) && Worked(mode, counted, service, target, ended)
      && Leads(mode, Apply(mode, ended, EndScale), to)
  }

  // ---------------------------------------------------------------- sequences of requests

  /** Both stores, as values. */
  datatype World = World(store: F.Store, st: State)

  /** What a handler is asked for; Idling is the time between two requests. */
  datatype Request =
    | Deploying(req: Deployment, env: F.Outside, uid: Uid)
    | Rescaling(name: string, target: nat, uid: Uid)
    | Deleting(name: string)
    | Invoking(functionName: string, uid: Uid)
    | Idling

  /** The request has been handled to its end. */
  ghost predicate Handled(mode: Mode, before: World, request: Request, after: World) {
    var from, to := before.st, after.st;
    match request
    case Deploying(req, env, uid) =>
      && after.store == F.Add(before.store, req, env).store
      && (if F.Add(before.store, req, env).outcome.Stored? then Launched(mode, from, req.service, uid, to) else to == from)
    case Rescaling(name, target, uid) =>
      && after.store == before.store
      && (if name !in before.store.functions then to == from
          else if Running(from, name) > 0 then Scaled(mode, from, name, target, to)
          else exists mid :: Launched(mode, from, name, uid, mid) && Scaled(mode, mid, name, target, to))
    case Deleting(name) =>
      && after.store == F.Delete(before.store, name)
      && (if name in before.store.functions then Scaled(mode, from, name, 0, to) else to == from)
    case Invoking(functionName, uid) =>
      && after.store == before.store
      && (if ActualName(functionName) in before.store.functions && Running(from, ActualName(functionName)) == 0
          then Launched(mode, from, ActualName(functionName), uid, to) else to == from)
    case Idling => after.store == before.store && Leads(mode, from, to)
  }

  /** Between two requests every running machine's service is in the function store. */
  ghost predicate Backing(w: World) {
    forall u :: RunningSomewhere(w.st, u) ==> w.st.instances[u].service in w.store.functions
  }

  ghost predicate Consistent(base: seq<Iface>, mode: Mode, w: World) {
    F.Coherent(w.store) && Good(base, mode, w.st, w.store.functions.Keys, {}) && Idle(w.st)
  }

  lemma LeadsKeeps(base: seq<Iface>, mode: Mode, from: State, to: State, functions: set<string>)
    requires Good(base, mode, from, functions, {}) && Idle(from) && Leads(mode, from, to)
    ensures Good(base, mode, to, functions, {}) && Idle(to)
  {
    var steps :| AllBackground(steps) && Exec(mode, from, steps) == Some(to);
    GoodOverRuns(base, mode, from, steps, functions, {});
  }

  lemma LaunchedKeeps(base: seq<Iface>, mode: Mode, from: State, service: string, uid: Uid, to: State,
                      functions: set<string>)
    requires Good(base, mode, from, functions, {}) && Idle(from) && service in functions && Launched(mode, from, service, uid, to)
    ensures Good(base, mode, to, functions, {}) && Idle(to)
  {
    var steps :| AllBackground(steps) && Exec(mode, Apply(mode, from, Begin(uid, service)), steps) == Some(to);
    CallRuns(base, mode, from, service, uid, steps, functions);
  }

  lemma ScaledKeeps(base: seq<Iface>, mode: Mode, from: State, service: string, target: nat, to: State,
                    functions: set<string>)
    requires Good(base, mode, from, functions, {}) && Idle(from) && Scaled(mode, from, service, target, to)
    ensures Good(base, mode, to, functions, {}) && Idle(to)
    ensures mode.atomicClaims && target == 0 ==> NoneRunning(to, service)
  {
    var counted, ended :|
      Leads(mode, from, counted) && Worked(mode, counted, service, target, ended) && Leads(mode, Apply(mode, ended, EndScale), to);
    LeadsKeeps(base, mode, from, counted, functions);
    WorkedKeeps(base, mode, counted, service, target, ended, functions);
    var steps :| AllBackground(steps) && Exec(mode, Apply(mode, ended, EndScale), steps) == Some(to);
    UnlockRuns(base, mode, ended, steps, functions, service);
  }

  lemma WorkedKeeps(base: seq<Iface>, mode: Mode, counted: State, service: string, target: nat, ended: State,
                    functions: set<string>)
    requires Good(base, mode, counted, functions, {}) && Idle(counted) && Worked(mode, counted, service, target, ended)
    ensures Good(base, mode, ended, functions, {})
    ensures mode.atomicClaims ==> Reached(counted, ended, service, target) && (target == 0 ==> NoneRunning(ended, service))
  {
    var steps :| AllBackground(steps) && Exec(mode, Apply(mode, counted, StartScale(service, target)), steps) == Some(ended);
    WorkRuns(base, mode, counted, service, target, steps, functions);
  }

  /** With atomic claims a scale operation has exactly the effect that all its schedules have in common. */
  lemma ScaledReaches(base: seq<Iface>, mode: Mode, from: State, service: string, target: nat, to: State,
                      functions: set<string>)
    returns (counted: State, ended: State)
    requires mode.atomicClaims && Good(base, mode, from, functions, {}) && Idle(from) && Scaled(mode, from, service, target, to)
    ensures Leads(mode, from, counted) && Worked(mode, counted, service, target, ended)
    ensures Leads(mode, Apply(mode, ended, EndScale), to) && Reached(counted, ended, service, target)
  {
    counted, ended :|
      Leads(mode, from, counted) && Worked(mode, counted, service, target, ended) && Leads(mode, Apply(mode, ended, EndScale), to);
    LeadsKeeps(base, mode, from, counted, functions);
    WorkedKeeps(base, mode, counted, service, target, ended, functions);
  }

  lemma HandledKeeps(base: seq<Iface>, mode: Mode, before: World, request: Request, after: World)
    requires mode.atomicClaims && Consistent(base, mode, before) && Handled(mode, before, request, after)
    ensures Consistent(base, mode, after)
  {
    var from, to, functions := before.st, after.st, before.store.functions.Keys;
    match request
    case Deploying(req, env, uid) => DeployKeeps(base, mode, before, req, env, uid, after);
    case Rescaling(name, target, uid) =>
      if name in functions {
        if Running(from, name) > 0 {
          ScaledKeeps(base, mode, from, name, target, to, functions);
        } else {
          var mid :| Launched(mode, from, name, uid, mid) && Scaled(mode, mid, name, target, to);
          LaunchedKeeps(base, mode, from, name, uid, mid, functions);
          ScaledKeeps(base, mode, mid, name, target, to, functions);
        }
      }
    case Deleting(name) => DeleteKeeps(base, mode, before, name, after);
    case Invoking(functionName, uid) =>
      var name := ActualName(functionName);
      if name in functions && Running(from, name) == 0 {
        LaunchedKeeps(base, mode, from, name, uid, to, functions);
      }
    case Idling => LeadsKeeps(base, mode, from, to, functions);
  }

  /** A launched call is for that service, and its steps begin with its beginning. */
  lemma LaunchedRuns(mode: Mode, from: State, service: string, uid: Uid, to: State) returns (steps: seq<Step>)
    requires Launched(mode, from, service, uid, to)
    ensures AllBackground(steps) && Exec(mode, from, [Begin(uid, service)] + steps) == Some(to)
    ensures uid in to.calls && to.calls[uid].service == service && !Active(to.calls[uid].pc)
  {
    steps :| AllBackground(steps) && Exec(mode, Apply(mode, from, Begin(uid, service)), steps) == Some(to);
    ExecCons(mode, from, [Begin(uid, service)] + steps);
    assert ([Begin(uid, service)] + steps)[1..] == steps;
    CallStays(mode, Apply(mode, from, Begin(uid, service)), steps, uid);
  }

  /**
    What scaling a stored function does: from zero a createMachine call for it runs first; then, in any
    case, a scale operation brings its running machines to the target, less the clones that failed.
   */
  lemma RescalingReaches(base: seq<Iface>, mode: Mode, before: World, name: string, target: nat, uid: Uid, after: World)
    returns (mid: State, counted: State, ended: State)
    requires mode.atomicClaims && Consistent(base, mode, before) && name in before.store.functions
    requires Handled(mode, before, Rescaling(name, target, uid), after)
    ensures if Running(before.st, name) > 0 then mid == before.st else Launched(mode, before.st, name, uid, mid)
    ensures Leads(mode, mid, counted) && Worked(mode, counted, name, target, ended)
    ensures Leads(mode, Apply(mode, ended, EndScale), after.st)
    ensures Running(ended, name) == if Running(counted, name) < target then target - |Lost(ended)| else target
  {
    var functions := before.store.functions.Keys;
    if Running(before.st, name) > 0 {
      mid := before.st;
    } else {
      mid :| Launched(mode, before.st, name, uid, mid) && Scaled(mode, mid, name, target, after.st);
      LaunchedKeeps(base, mode, before.st, name, uid, mid, functions);
    }
    counted, ended := ScaledReaches(base, mode, mid, name, target, after.st, functions);
  }

  lemma GoodMonotone(base: seq<Iface>, mode: Mode, st: State, functions: set<string>, more: set<string>)
    requires Good(base, mode, st, functions, {}) && functions <= more
    ensures Good(base, mode, st, more, {})
  {
  }

  lemma DeployKeeps(base: seq<Iface>, mode: Mode, before: World, req: Deployment, env: F.Outside, uid: Uid,
                    after: World)
    requires Consistent(base, mode, before) && Handled(mode, before, Deploying(req, env, uid), after)
    ensures Consistent(base, mode, after)
  {
    F.AddKeepsCoherence(before.store, req, env);
    F.AddGrows(before.store, req, env);
    var functions := after.store.functions.Keys;
    GoodMonotone(base, mode, before.st, before.store.functions.Keys, functions);
    if F.Add(before.store, req, env).outcome.Stored? {
      LaunchedKeeps(base, mode, before.st, req.service, uid, after.st, functions);
    }
  }

  lemma DeleteKeeps(base: seq<Iface>, mode: Mode, before: World, name: string, after: World)
    requires mode.atomicClaims && Consistent(base, mode, before) && Handled(mode, before, Deleting(name), after)
    ensures Consistent(base, mode, after)
  {
    var functions := before.store.functions.Keys;
    F.DeleteKeepsCoherence(before.store, name);
    assert after.store.functions.Keys == functions - {name};
    if name in functions {
      ScaledKeeps(base, mode, before.st, name, 0, after.st, functions);
      GoodWithout(base, mode, after.st, functions, name);
    } else {
      assert functions - {name} == functions;
    }
  }

  /** A run of the provider: requests handled one after another, and the worlds between them. */
  ghost predicate History(mode: Mode, worlds: seq<World>, requests: seq<Request>) {
    && |worlds| == |requests| + 1
    && forall i :: 0 <= i < |requests| ==> Handled(mode, worlds[i], requests[i], worlds[i + 1])
  }

  lemma {:induction false} HistoryKeeps(base: seq<Iface>, mode: Mode, worlds: seq<World>, requests: seq<Request>,
                                        n: nat)
    requires mode.atomicClaims && History(mode, worlds, requests) && n < |worlds| && Consistent(base, mode, worlds[0])
    ensures Consistent(base, mode, worlds[n])
  {
    if n > 0 {
      var before, after := worlds[n - 1], worlds[n];
      HistoryKeeps(base, mode, worlds, requests, n - 1);
      HandledKeeps(base, mode, before, requests[n - 1], after);
    }
  }

  /**
    After any sequence of deployments, scalings, deletions and calls, whatever runs beside them and
    whichever of their machine creations and destructions fail, every running machine belongs to a
    function that is still deployed.
   */
  lemma RunningMachinesAreDeployed(mode: Mode, bridge: seq<Iface>, worlds: seq<World>, requests: seq<Request>, n: nat)
    requires mode.atomicClaims && History(mode, worlds, requests) && n < |worlds|
    requires worlds[0] == World(F.Store(map[], map[]), Initial(bridge))
    ensures Backing(worlds[n])
    ensures F.Coherent(worlds[n].store)
  {
    InvInitially(bridge, mode);
    HistoryKeeps(bridge, mode, worlds, requests, n);
  }

  /** Once a deletion is through, no machine of the function runs. */
  lemma NothingRunsAfterDelete(mode: Mode, bridge: seq<Iface>, worlds: seq<World>, requests: seq<Request>, n: nat)
    requires mode.atomicClaims && History(mode, worlds, requests) && n < |requests|
    requires worlds[0] == World(F.Store(map[], map[]), Initial(bridge))
    requires requests[n].Deleting?
    ensures NoneRunning(worlds[n + 1].st, requests[n].name)
  {
    RunningMachinesAreDeployed(mode, bridge, worlds, requests, n + 1);
    assert Handled(mode, worlds[n], requests[n], worlds[n + 1]);
    assert requests[n].name !in worlds[n + 1].store.functions;
  }

  // ---------------------------------------------------------------- the handlers' own code

  class Handlers {
    const fStore: F.Functions
    const mode: Mode
    ghost const base: seq<Iface>
    var st: State

    /** In particular: every running machine's service is in the function store. */
    ghost predicate Valid()
      reads this, fStore
    {
      mode.atomicClaims && Consistent(base, mode, Now())
    }

    ghost function Now(): World
      reads this, fStore
    {
      World(fStore.State(), st)
    }

    /** Valid in the middle of a handler, while the call `but` may still be under way. */
    ghost predicate Steady(but: set<Uid>)
      reads this, fStore
    {
      mode.atomicClaims && F.Coherent(fStore.State()) && Good(base, mode, st, fStore.metaData.Keys, but)
    }

    constructor (fStore: F.Functions, bridge: seq<Iface>, atomicProbes: bool)
      requires F.Coherent(fStore.State())
      ensures Valid() && this.fStore == fStore && st == Initial(bridge)
    {
      this.fStore := fStore;
      mode := Mode(true, atomicProbes);
      base := bridge;
      st := Initial(bridge);
    }

    /** Lets the other goroutines run for a while. */
    method Run(schedule: seq<Step>) returns (ghost ran: seq<Step>)
      modifies this`st
      ensures Exec(mode, old(st), ran) == Some(st)
      ensures AllBackground(ran) && Leads(mode, old(st), st)
      ensures st == Played(mode, old(st), schedule)
    {
      ran := [];
      for i := 0 to |schedule|
        invariant Exec(mode, old(st), ran) == Some(st)
        invariant AllBackground(ran)
        invariant st == Played(mode, old(st), schedule[..i])
      {
        var step := schedule[i];
        assert schedule[..i + 1] == schedule[..i] + [step];
        PlayedSnoc(mode, old(st), schedule[..i], step);
        if Background(step) && Enabled(mode, st, step) {
          ExecSnoc(mode, old(st), ran, st, step);
          st := Apply(mode, st, step);
          ran := ran + [step];
        }
      }
      assert schedule[..|schedule|] == schedule;
    }

    /** The createMachine call of a handler, with the fresh `uid`; done when the call has returned. */
    method NewMachine(service: string, uid: Uid, schedule: seq<Step>) returns (done: bool, ok: bool)
      requires Valid() && service in fStore.metaData && FreshUid(st, uid)
      modifies this`st
      ensures Steady({uid})
      ensures done ==> Valid() && Launched(mode, old(st), service, uid, st)
      ensures ok <==> uid in st.calls && st.calls[uid].pc.Complete?
      ensures ok ==> done
    {
      ghost var before := st;
      st := Apply(mode, st, Begin(uid, service));
      ghost var ran := Run(schedule);
      CallRuns(base, mode, before, service, uid, ran, fStore.metaData.Keys);
      done := !Active(st.calls[uid].pc);
      ok := st.calls[uid].pc.Complete?;
    }

    /** Waits for healthChecklock. */
    method AwaitLock(before: seq<Step>) returns (free: bool)
      requires Valid()
      modifies this`st
      ensures Valid() && free == st.holder.Free? && Leads(mode, old(st), st)
    {
      ghost var start := st;
      ghost var ran := Run(before);
      GoodOverRuns(base, mode, start, ran, fStore.metaData.Keys, {});
      free := st.holder.Free?;
    }

    /** Counts, spawns the workers and waits for them. */
    method Work(service: string, target: nat, during: seq<Step>) returns (done: bool)
      requires Valid() && st.holder.Free?
      modifies this`st
      ensures Steady({})
      ensures done ==> Worked(mode, old(st), service, target, st) && Reached(old(st), st, service, target)
      ensures done && target == 0 ==> NoneRunning(st, service)
    {
      ghost var before := st;
      st := Apply(mode, st, StartScale(service, target));
      ghost var ran := Run(during);
      WorkRuns(base, mode, before, service, target, ran, fStore.metaData.Keys);
      done := Enabled(mode, st, EndScale);
    }

    /** Gives the lock back. */
    method Unlock(ghost service: string, after: seq<Step>)
      requires Steady({}) && Enabled(mode, st, EndScale)
      modifies this`st
      ensures Valid() && Leads(mode, Apply(mode, old(st), EndScale), st)
      ensures old(NoneRunning(st, service)) ==> NoneRunning(st, service)
    {
      ghost var before := st;
      st := Apply(mode, st, EndScale);
      ghost var ran := Run(after);
      UnlockRuns(base, mode, before, ran, fStore.metaData.Keys, service);
    }

    /**
      A whole scale operation; done when it has got the lock and all its workers have ended. `counted` is
      the moment of its count, `ended` the end of its last worker.
     */
    method ScaleMachinesTo(service: string, target: nat, before: seq<Step>, during: seq<Step>, after: seq<Step>)
      returns (done: bool, ghost counted: State, ghost ended: State)
      requires Valid()
      modifies this`st
      ensures Steady({})
      ensures done ==> Valid() && Scaled(mode, old(st), service, target, st)
      ensures done ==>
                && Leads(mode, old(st), counted) && Worked(mode, counted, service, target, ended)
                && Leads(mode, Apply(mode, ended, EndScale), st) && Reached(counted, ended, service, target)
      ensures done && target == 0 ==> NoneRunning(st, service)
    {
      done := AwaitLock(before);
      counted, ended := st, st;
      if done {
        done := Work(service, target, during);
        ended := st;
      }
      if done {
        Unlock(service, after);
      }
    }

    /** Deploying: the function is added first, then its first machine is created. */
    method Deploy(req: Deployment, env: F.Outside, uid: Uid, schedule: seq<Step>) returns (done: bool, ok: bool, added: F.Outcome)
      requires Valid() && FreshUid(st, uid)
      modifies this`st, fStore
      ensures Steady({uid})
      ensures done ==> Valid() && Handled(mode, old(Now()), Deploying(req, env, uid), Now())
      ensures ok ==> req.service in fStore.metaData && uid in st.calls && st.calls[uid].pc.Complete?
      ensures added == F.Add(old(fStore.State()), req, env).outcome
      ensures done && added.Stored? ==> Launched(mode, old(st), req.service, uid, st)
      ensures !added.Stored? ==> done && !ok && st == old(st)
    {
      F.AddKeepsCoherence(fStore.State(), req, env);
      F.AddGrows(fStore.State(), req, env);
      ghost var keys := fStore.metaData.Keys;
      var r, _ := fStore.AddFunction(req, env);
      GoodMonotone(base, mode, st, keys, fStore.metaData.Keys);
      if !r.Stored? {
        return true, false, r;
      }
      added := r;
      done, ok := NewMachine(req.service, uid, schedule);
    }

    /** From zero, a machine of a stored function; done when there is one or the call has returned without one. */
    method FirstMachine(name: string, uid: Uid, creating: seq<Step>) returns (done: bool)
      requires Valid() && FreshUid(st, uid) && name in fStore.metaData
      modifies this`st
      ensures Steady({uid})
      ensures done ==>
                Valid() && if Running(old(st), name) > 0 then st == old(st) else Launched(mode, old(st), name, uid, st)
    {
      if Running(st, name) > 0 {
        return true;
      }
      var ok;
      done, ok := NewMachine(name, uid, creating);
    }

    /**
      Scaling: from zero a first machine is created from the stored function, whether or not that works
      out. From there, `mid`, the scale operation brings the machines that run to the target, less the
      clones that failed.
     */
    method Scale(name: string, target: nat, uid: Uid, creating: seq<Step>, before: seq<Step>, during: seq<Step>, after: seq<Step>)
      returns (done: bool, ghost mid: State, ghost counted: State, ghost ended: State)
      requires Valid() && FreshUid(st, uid)
      modifies this`st
      ensures Steady({uid})
      ensures done ==> Valid() && Handled(mode, old(Now()), Rescaling(name, target, uid), Now())
      ensures name !in fStore.metaData ==> done && st == old(st)
      ensures done && name in fStore.metaData ==>
                && (if Running(old(st), name) > 0 then mid == old(st) else Launched(mode, old(st), name, uid, mid))
                && Leads(mode, mid, counted) && Worked(mode, counted, name, target, ended)
                && Leads(mode, Apply(mode, ended, EndScale), st)
                && Running(ended, name) == (if Running(counted, name) < target then target - |Lost(ended)| else target)
    {
      mid, counted, ended := st, st, st;
      ghost var store := fStore.State();
      var found := fStore.GetFunction(name);
      if found.None? {
        return true, mid, counted, ended;
      }
      done := FirstMachine(name, uid, creating);
      mid := st;
      if done {
        done, counted, ended := ScaleMachinesTo(name, target, before, during, after);
      }
      assert fStore.State() == store;
    }

    /** Deleting: all machines are stopped first, then the function is removed. */
    method Delete(name: string, before: seq<Step>, during: seq<Step>, after: seq<Step>)
      returns (done: bool, ghost counted: State, ghost ended: State)
      requires Valid()
      modifies this`st, fStore
      ensures Steady({})
      ensures done ==> Valid() && Handled(mode, old(Now()), Deleting(name), Now())
      ensures !done ==> fStore.State() == old(fStore.State())
      ensures done ==> fStore.metaData == old(fStore.metaData) - {name} && NoneRunning(st, name)
      ensures done && name in old(fStore.metaData) ==>
                && Leads(mode, old(st), counted) && Worked(mode, counted, name, 0, ended) && Running(ended, name) == 0
                && Leads(mode, Apply(mode, ended, EndScale), st)
      ensures name !in old(fStore.metaData) ==> done && st == old(st)
    {
      counted, ended := st, st;
      if !fStore.FunctionExists(name) {
        assert fStore.metaData - {name} == fStore.metaData;
        NotStoredNotRunning(base, mode, st, fStore.metaData.Keys, name);
        return true, counted, ended;
      }
      done, counted, ended := ScaleMachinesTo(name, 0, before, during, after);
      if done {
        F.DeleteKeepsCoherence(fStore.State(), name);
        GoodWithout(base, mode, st, fStore.metaData.Keys, name);
        ghost var keys := fStore.metaData.Keys;
        fStore.DeleteFunction(name);
        assert fStore.metaData.Keys == keys - {name};
      }
    }

    /**
      Resolving a function for a call: from zero a machine is created first. An endpoint that is handed
      out is the address of a registered createMachine call for that very function, was not given to
      DeleteServiceIP, and was healthy when last probed.
     */
    method Invoke(functionName: string, uid: Uid, creating: seq<Step>, draws: seq<nat>)
      returns (done: bool, r: Option<Resolution>)
      requires Valid() && FreshUid(st, uid)
      modifies this`st
      ensures Steady({uid})
      ensures done ==> Valid() && Handled(mode, old(Now()), Invoking(functionName, uid), Now())
      ensures done && ActualName(functionName) in fStore.metaData && Running(old(st), ActualName(functionName)) == 0 ==>
                Launched(mode, old(st), ActualName(functionName), uid, st)
      ensures ActualName(functionName) !in fStore.metaData || Running(old(st), ActualName(functionName)) > 0 ==> done && st == old(st)
      ensures done && r.None? <==>
                done && (ActualName(functionName) in fStore.metaData ==>
                           Running(old(st), ActualName(functionName)) == 0 && uid in st.calls && !st.calls[uid].pc.Complete?)
      ensures done && r.Some? ==> r.value == Resolve(st.net, ActualName(functionName), draws)
      ensures done && r.Some? && r.value.Endpoint? ==>
                && r.value.ip in st.net.health && st.net.health[r.value.ip]
                && exists u :: Live(st, u, ActualName(functionName), r.value.ip)
    {
      var name := ActualName(functionName);
      var found := fStore.GetFunction(name);
      if found.None? {
        return true, None;
      }
      if Running(st, name) == 0 {
        var ok;
        done, ok := NewMachine(name, uid, creating);
        if !done || !ok {
          return done, None;
        }
      }
      done, r := true, Some(Resolve(st.net, name, draws));
      if r.value.Endpoint? {
        EndpointIsLive(mode, st, name, draws);
      }
    }
  }

  /** An endpoint that a lookup gives is the address of a registered call for the service. */
  lemma EndpointIsLive(mode: Mode, st: State, service: string, draws: seq<nat>)
    requires NetInv(mode, st) && Resolve(st.net, service, draws).Endpoint?
    ensures var ip := Resolve(st.net, service, draws).ip; ip in st.net.health && st.net.health[ip]
    ensures exists u :: Live(st, u, service, Resolve(st.net, service, draws).ip)
  {
    FirstHitIsHealthy(st.net.balancers[service], st.net.health, draws);
    assert Holds(st.net.balancers, service, Resolve(st.net, service, draws).ip);
  }

  /** From the count to any later moment of the operation. */
  lemma WorkRuns(base: seq<Iface>, mode: Mode, st: State, service: string, target: nat, steps: seq<Step>,
                 functions: set<string>)
    requires Good(base, mode, st, functions, {}) && Idle(st) && st.holder.Free? && AllBackground(steps)
    requires Exec(mode, Apply(mode, st, StartScale(service, target)), steps).Some?
    ensures var end := Exec(mode, Apply(mode, st, StartScale(service, target)), steps).value;
            && Good(base, mode, end, functions, {})
            && (mode.atomicClaims && Enabled(mode, end, EndScale) ==>
                  Reached(st, end, service, target) && (target == 0 ==> NoneRunning(end, service)))
  {
    var start := Apply(mode, st, StartScale(service, target));
    IdleHasNoActiveCall(st);
    GoodKept(base, mode, st, StartScale(service, target), functions, {});
    GoodOverRuns(base, mode, start, steps, functions, {});
    var end := Exec(mode, start, steps).value;
    if mode.atomicClaims && Enabled(mode, end, EndScale) {
      ScaleReachesTarget(mode, base, st, service, target, steps, end);
      if target == 0 {
        NoneLeft(end, service);
      }
    }
  }

  /** Ending the operation and letting others run keeps a service without running machines as it is. */
  lemma UnlockRuns(base: seq<Iface>, mode: Mode, st: State, steps: seq<Step>, functions: set<string>, service: string)
    requires Good(base, mode, st, functions, {}) && Enabled(mode, st, EndScale) && AllBackground(steps)
    requires Exec(mode, Apply(mode, st, EndScale), steps).Some?
    ensures var end := Exec(mode, Apply(mode, st, EndScale), steps).value;
            Good(base, mode, end, functions, {}) && Idle(end) && (NoneRunning(st, service) ==> NoneRunning(end, service))
  {
    var start := Apply(mode, st, EndScale);
    GoodKept(base, mode, st, EndScale, functions, {});
    GoodOverRuns(base, mode, start, steps, functions, {});
    if NoneRunning(st, service) {
      forall u ensures !IsRunning(start, service, u) {
        assert !IsRunning(st, service, u);
      }
      NoneRunningOverRuns(base, mode, start, steps, functions, service);
    }
  }

  lemma NotStoredNotRunning(base: seq<Iface>, mode: Mode, st: State, functions: set<string>, name: string)
    requires Good(base, mode, st, functions, {}) && name !in functions
    ensures NoneRunning(st, name)
  {
    forall u ensures !IsRunning(st, name, u) {
      assert RunningSomewhere(st, u) ==> st.instances[u].service in functions;
    }
  }

  /** A function without running machines or calls can be removed. */
  lemma GoodWithout(base: seq<Iface>, mode: Mode, st: State, functions: set<string>, service: string)
    requires Good(base, mode, st, functions, {}) && Idle(st) && NoneRunning(st, service)
    ensures Good(base, mode, st, functions - {service}, {})
  {
    IdleHasNoActiveCall(st);
    forall u | RunningSomewhere(st, u) ensures st.instances[u].service in functions - {service} {
      assert !IsRunning(st, service, u);
    }
  }

  /** From the beginning of a createMachine call to any later moment. */
  lemma CallRuns(base: seq<Iface>, mode: Mode, st: State, service: string, uid: Uid, steps: seq<Step>,
                 functions: set<string>)
    requires Good(base, mode, st, functions, {}) && Idle(st) && FreshUid(st, uid) && service in functions && AllBackground(steps)
    requires Exec(mode, Apply(mode, st, Begin(uid, service)), steps).Some?
    ensures var end := Exec(mode, Apply(mode, st, Begin(uid, service)), steps).value;
            && Good(base, mode, end, functions, {uid}) && uid in end.calls
            && (!Active(end.calls[uid].pc) ==> Good(base, mode, end, functions, {}) && Idle(end))
  {
    var start := Apply(mode, st, Begin(uid, service));
    assert Good(base, mode, st, functions, {uid});
    GoodKept(base, mode, st, Begin(uid, service), functions, {uid});
    GoodOverRuns(base, mode, start, steps, functions, {uid});
    CallStays(mode, start, steps, uid);
  }

  lemma {:induction false} CallStays(mode: Mode, st: State, steps: seq<Step>, uid: Uid)
    requires uid in st.calls && Exec(mode, st, steps).Some?
    ensures uid in Exec(mode, st, steps).value.calls
    ensures Exec(mode, st, steps).value.calls[uid].service == st.calls[uid].service
    decreases |steps|
  {
    if steps != [] {
      CallKept(mode, st, steps[0], uid);
      CallStays(mode, Apply(mode, st, steps[0]), steps[1..], uid);
    }
  }

  lemma NoneLeft(st: State, service: string)
    requires Running(st, service) == 0
    ensures NoneRunning(st, service)
  {
    forall u ensures !IsRunning(st, service, u) {
      assert u !in RunningSet(st, service);
    }
  }
}
