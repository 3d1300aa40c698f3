/** What split claims mean for the delete handler. */
module SplitDelete {
  import opened Common
  import opened Lifecycle
  import opened LifecycleInv
  import opened Scaling
  import opened Conservation
  import opened SplitClaims
  import opened Provider
  import opened SetUp

  // ---------------------------------------------------------------- waiting does not add machines

  lemma IdleStepsAddNone(mode: Mode, st: State, step: Step, service: string)
    requires InstancesInv(st) && TargetInv(st) && LockInv(st) && ShapeInv(st) && Idle(st) && Enabled(mode, st, step)
    ensures RunningSet(Apply(mode, st, step), service) <= RunningSet(st, service)
  {
    IdleHasNoActiveCall(st);
    InstancesKept(mode, st, step);
    forall u | IsRunning(Apply(mode, st, step), service, u) ensures IsRunning(st, service, u) {
      RunningOnlyByStore(mode, st, step, u);
      CallKept(mode, st, step, u);
    }
  }

  lemma {:induction false} WaitingAddsNone(base: seq<Iface>, mode: Mode, st: State, steps: seq<Step>,
                                           functions: set<string>, service: string)
    requires Good(base, mode, st, functions, {}) && Idle(st) && AllBackground(steps) && Exec(mode, st, steps).Some?
    ensures Running(Exec(mode, st, steps).value, service) <= Running(st, service)
    decreases |steps|
  {
    if steps != [] {
      var next := Apply(mode, st, steps[0]);
      GoodKept(base, mode, st, steps[0], functions, {});
      ScalingKept(mode, st, steps[0]);
      IdleStepsAddNone(mode, st, steps[0], service);
      SubsetSize(RunningSet(next, service), RunningSet(st, service));
      WaitingAddsNone(base, mode, next, steps[1..], functions, service);
    }
  }

  // ---------------------------------------------------------------- deleting

  /** With at most one machine to stop, deleting does what it should. */
  lemma SmallDeleteIsBacked(base: seq<Iface>, mode: Mode, before: World, name: string, after: World)
    requires Consistent(base, mode, before) && name in before.store.functions && Running(before.st, name) <= 1
    requires Handled(mode, before, Deleting(name), after)
    ensures NoneRunning(after.st, name) && Backing(after)
  {
    var functions := before.store.functions.Keys;
    var counted, ended :|
      && Leads(mode, before.st, counted) && Worked(mode, counted, name, 0, ended)
      && Leads(mode, Apply(mode, ended, EndScale), after.st);
    LeadsKeeps(base, mode, before.st, counted, functions);
    var waiting :| AllBackground(waiting) && Exec(mode, before.st, waiting) == Some(counted);
    WaitingAddsNone(base, mode, before.st, waiting, functions, name);
    WorkedKeeps(base, mode, counted, name, 0, ended, functions);
    SmallWorkEmpties(base, mode, counted, name, ended, functions);
    var rest :| AllBackground(rest) && Exec(mode, Apply(mode, ended, EndScale), rest) == Some(after.st);
    UnlockRuns(base, mode, ended, rest, functions, name);
    GoodWithout(base, mode, after.st, functions, name);
  }

  lemma SmallWorkEmpties(base: seq<Iface>, mode: Mode, counted: State, name: string, ended: State,
                         functions: set<string>)
    requires Good(base, mode, counted, functions, {}) && Idle(counted) && Running(counted, name) <= 1
    requires Worked(mode, counted, name, 0, ended)
    ensures NoneRunning(ended, name)
  {
    IdleHasNoActiveCall(counted);
    var steps :| AllBackground(steps) && Exec(mode, Apply(mode, counted, StartScale(name, 0)), steps) == Some(ended);
    if mode.atomicClaims {
      ScaleReachesTarget(mode, base, counted, name, 0, steps, ended);
    } else {
      SmallDropReachesTarget(base, mode.atomicProbes, counted, name, 0, steps, ended);
    }
    NoneLeft(ended, name);
  }

  /** With two or more, it can leave one running and the function gone. */
  lemma LargeDeleteLeavesOne(mode: Mode, before: World, name: string) returns (after: World)
    requires !mode.atomicClaims && before.st.holder.Free? && name in before.store.functions && Running(before.st, name) >= 2
    ensures Handled(mode, before, Deleting(name), after)
    ensures Running(after.st, name) == 1 && !Backing(after)
  {
    var ended := LargeDropLeads(mode, before.st, name);
    after := World(F.Delete(before.store, name), Apply(mode, ended, EndScale));
    StaysPut(mode, before.st);
    StaysPut(mode, after.st);
    assert Scaled(mode, before.st, name, 0, after.st);
    OneIsLeft(after, ended, name);
  }

  lemma LargeDropLeads(mode: Mode, st: State, name: string) returns (ended: State)
    requires !mode.atomicClaims && st.holder.Free? && Running(st, name) >= 2
    ensures Worked(mode, st, name, 0, ended) && Running(ended, name) == 1
  {
    var steps;
    steps, ended := LargeDropMissesTarget(mode, st, name, 0);
    forall i | 0 <= i < |steps| ensures Background(steps[i]) {
      assert steps[i] in steps;
    }
    assert Leads(mode, Apply(mode, st, StartScale(name, 0)), ended);
  }

  lemma OneIsLeft(after: World, ended: State, name: string)
    requires after.st.instances == ended.instances && Running(ended, name) == 1 && name !in after.store.functions
    ensures Running(after.st, name) == 1 && !Backing(after)
  {
    assert RunningSet(after.st, name) == RunningSet(ended, name);
    var u := SomeRunning(after.st, name);
    assert RunningSomewhere(after.st, u);
  }

  lemma StaysPut(mode: Mode, st: State)
    ensures Leads(mode, st, st)
  {
    assert AllBackground([]) && Exec(mode, st, []) == Some(st);
  }

  /**
    The exact condition for the delete handler with split claims: in every schedule all running machines
    belong to deployed functions afterwards if and only if at most one machine had to be stopped.
   */
  lemma SplitDeleteIff(base: seq<Iface>, mode: Mode, before: World, name: string)
    requires !mode.atomicClaims && Consistent(base, mode, before) && before.st.holder.Free? && name in before.store.functions
    ensures (forall after :: Handled(mode, before, Deleting(name), after) ==> Backing(after)) <==> Running(before.st, name) <= 1
  {
    if Running(before.st, name) <= 1 {
      forall after | Handled(mode, before, Deleting(name), after) ensures Backing(after) {
        SmallDeleteIsBacked(base, mode, before, name, after);
      }
    } else {
      var after := LargeDeleteLeavesOne(mode, before, name);
    }
  }

  // ---------------------------------------------------------------- from an empty provider

  lemma {:induction false} BirthIsBackground(uid: Uid, ip: IP)
    ensures AllBackground(Steps(uid, ip))
  {
  }

  /** Creating the next machine is what a deployment does. */
  lemma LaunchesNext(mode: Mode, st: State, service: string, n: nat)
    requires AllSetUp(st, service, n)
    ensures Launched(mode, st, service, n, After(st, service, n)) && AllSetUp(After(st, service, n), service, n + 1)
  {
    OneMoreSetUp(st, service, n);
    var begun := Apply(mode, st, Begin(n, service));
    IsBorn(mode, begun, n, Address(n));
    BirthIsBackground(n, Address(n));
    assert Leads(mode, begun, After(st, service, n));
  }

  /** Scaling up by one clones a machine. */
  lemma ScalesUpByOne(mode: Mode, st: State, service: string, n: nat)
    requires AllSetUp(st, service, n) && n > 0
    ensures Scaled(mode, st, service, n + 1, After(st, service, n))
  {
    OneMoreSetUp(st, service, n);
    AllAreRunning(st, service, n);
    var ended := Cloned(mode, st, service, n);
    assert Worked(mode, st, service, n + 1, ended);
    assert Apply(mode, ended, EndScale) == After(st, service, n);
    StaysPut(mode, st);
    StaysPut(mode, After(st, service, n));
  }

  /** What the state is once the one worker's clone has begun. */
  function WithClone(st: State, service: string, n: nat): State {
    st.(calls := st.calls[n := Call(service, Preparing)],
        holder := Scaling(service, n, n + 1), tasks := map[Worker(0) := Cloning(n)])
  }

  lemma CloneBegins(mode: Mode, st: State, service: string, n: nat)
    requires AllSetUp(st, service, n) && n > 0 && Running(st, service) == n && FreshUid(st, n)
    ensures Enabled(mode, Apply(mode, st, StartScale(service, n + 1)), Clone(0, 0, n))
    ensures Apply(mode, Apply(mode, st, StartScale(service, n + 1)), Clone(0, 0, n)) == WithClone(st, service, n)
  {
    var s0 := Apply(mode, st, StartScale(service, n + 1));
    assert SetUpOne(st, service, 0);
    assert s0.tasks == Spawn(1) == map[Worker(0) := Spawned];
    assert s0.tasks[Worker(0) := Cloning(n)] == map[Worker(0) := Cloning(n)];
  }

  lemma Cloned(mode: Mode, st: State, service: string, n: nat) returns (ended: State)
    requires AllSetUp(st, service, n) && n > 0 && Running(st, service) == n && FreshUid(st, n) && FreshIP(st, Address(n))
    ensures Leads(mode, Apply(mode, st, StartScale(service, n + 1)), ended) && Enabled(mode, ended, EndScale)
    ensures ended == After(st, service, n).(holder := Scaling(service, n, n + 1), tasks := map[Worker(0) := Cloning(n)])
  {
    CloneBegins(mode, st, service, n);
    ended := Born(WithClone(st, service, n), n, Address(n));
    BornFromClone(mode, st, service, n);
    CloneIsBegun(st, service, n);
    IsBorn(mode, WithClone(st, service, n), n, Address(n));
    BirthIsBackground(n, Address(n));
    PrependedLeads(mode, Apply(mode, st, StartScale(service, n + 1)), Clone(0, 0, n), Steps(n, Address(n)), ended);
  }

  lemma CloneIsBegun(st: State, service: string, n: nat)
    requires AllSetUp(st, service, n) && FreshIP(st, Address(n))
    ensures Begun(WithClone(st, service, n), n) && FreshIP(WithClone(st, service, n), Address(n))
    ensures WithClone(st, service, n).bridgeLock.None?
  {
  }

  lemma BornFromClone(mode: Mode, st: State, service: string, n: nat)
    ensures Enabled(mode, Born(WithClone(st, service, n), n, Address(n)), EndScale)
    ensures Born(WithClone(st, service, n), n, Address(n)) ==
            After(st, service, n).(holder := Scaling(service, n, n + 1), tasks := map[Worker(0) := Cloning(n)])
  {
  }

  lemma PrependedLeads(mode: Mode, s0: State, step: Step, steps: seq<Step>, end: State)
    requires Enabled(mode, s0, step) && Background(step) && AllBackground(steps)
    requires Exec(mode, Apply(mode, s0, step), steps) == Some(end)
    ensures Leads(mode, s0, end)
  {
    var all := [step] + steps;
    BeginsWith(mode, s0, step, steps);
    assert AllBackground(all);
  }

  lemma DeploysFirst(mode: Mode, req: Deployment, env: F.Outside) returns (one: World)
    requires F.Deployable(map[], env)
    ensures Handled(mode, World(F.Store(map[], map[]), Initial([])), Deploying(req, env, 0), one)
    ensures req.service in one.store.functions && AllSetUp(one.st, req.service, 1)
  {
    F.StoredIffDeployable(F.Store(map[], map[]), req, env);
    NoneSetUp(req.service);
    LaunchesNext(mode, Initial([]), req.service, 0);
    one := World(F.Add(F.Store(map[], map[]), req, env).store, After(Initial([]), req.service, 0));
  }

  lemma RescalesToTwo(mode: Mode, one: World, name: string) returns (two: World)
    requires name in one.store.functions && AllSetUp(one.st, name, 1)
    ensures Handled(mode, one, Rescaling(name, 2, 1), two)
    ensures two.store == one.store && AllSetUp(two.st, name, 2)
  {
    AllAreRunning(one.st, name, 1);
    OneMoreSetUp(one.st, name, 1);
    ScalesUpByOne(mode, one.st, name, 1);
    two := World(one.store, After(one.st, name, 1));
  }

  /**
    This does come about: from an empty provider, deploying any function that can be deployed, scaling
    it to two and deleting it can leave a running machine of a function that is no longer there.
   */
  lemma DeletedFunctionCanKeepRunning(mode: Mode, req: Deployment, env: F.Outside)
    returns (worlds: seq<World>, requests: seq<Request>)
    requires !mode.atomicClaims && F.Deployable(map[], env)
    ensures requests == [Deploying(req, env, 0), Rescaling(req.service, 2, 1), Deleting(req.service)]
    ensures History(mode, worlds, requests) && worlds[0] == World(F.Store(map[], map[]), Initial([]))
    ensures !Backing(worlds[3])
  {
    var name, empty := req.service, World(F.Store(map[], map[]), Initial([]));
    var one := DeploysFirst(mode, req, env);
    var two := RescalesToTwo(mode, one, name);
    AllAreRunning(two.st, name, 2);
    var after := LargeDeleteLeavesOne(mode, two, name);
    worlds, requests := ThreeHandled(mode, empty, Deploying(req, env, 0), one, Rescaling(name, 2, 1), two, Deleting(name), after);
  }

  lemma ThreeHandled(mode: Mode, w0: World, a: Request, w1: World, b: Request, w2: World, c: Request, w3: World)
    returns (worlds: seq<World>, requests: seq<Request>)
    requires Handled(mode, w0, a, w1) && Handled(mode, w1, b, w2) && Handled(mode, w2, c, w3)
    ensures worlds == [w0, w1, w2, w3] && requests == [a, b, c] && History(mode, worlds, requests)
  {
    worlds, requests := [w0, w1, w2, w3], [a, b, c];
    forall i | 0 <= i < 3 ensures Handled(mode, worlds[i], requests[i], worlds[i + 1]) {
      if i == 0 {
        assert Handled(mode, w0, a, w1);
      } else if i == 1 {
        assert Handled(mode, w1, b, w2);
      } else {
        assert Handled(mode, w2, c, w3);
      }
    }
  }
}
