/** The machine store's own code takes the steps of the state machine. */
module Refinement {
  import opened Common
  import opened InternalController
  import opened Lifecycle
  import opened LifecycleInv
  import opened HealthCheck
  import opened SetUp
  import FunctionStore
  import M = MachineStore

  function Machines(view: map<nat, M.Shown>): map<Uid, Machine> {
    map u | u in view :: Machine(view[u].service, view[u].running)
  }

  /** The state has the machines, interfaces and tables that the store has. */
  ghost predicate Represents(st: State, view: map<nat, M.Shown>, networks: map<nat, IP>, net: Tables) {
    st.instances == Machines(view) && st.interfaces == networks && st.net == net
  }

  /** Worker `w` is about to call DeleteMachine, and whatever it picks has been registered if it has an address. */
  ghost predicate CanDelete(mode: Mode, st: State, w: nat, service: string) {
    && InScale(st, w, Spawned, false) && st.holder.service == service && InstancesInv(st)
    && (forall t :: t in st.tasks ==> !st.tasks[t].Selected?)
    && (forall u :: u in st.interfaces ==> u in st.registered)
  }

  /** The steps that a call of DeleteMachine takes, by what it returns. */
  function StepsOf(w: nat, claimed: Option<Uid>, ok: bool, gone: bool): seq<Step> {
    if claimed.None? then [SelectNothing(w)]
    else if !ok then [Select(w, claimed.value), Mark(w), Abort(Worker(w))]
    else [Select(w, claimed.value), Mark(w)] + [Deregister(Worker(w)), if gone then StopGone(Worker(w)) else StopKept(Worker(w))]
  }

  function Marked(st: State, w: nat, u: Uid): State
    requires st.holder.Scaling?
  {
    st.(tasks := st.tasks[Worker(w) := Destroying(u)], instances := st.instances[u := Machine(st.holder.service, false)])
  }

  lemma ClaimRuns(mode: Mode, st: State, w: nat, service: string, u: Uid)
    requires CanDelete(mode, st, w, service) && IsRunning(st, service, u)
    ensures Exec(mode, st, [Select(w, u), Mark(w)]) == Some(Marked(st, w, u))
  {
    var s1 := Apply(mode, st, Select(w, u));
    ExecTwo(mode, st, Select(w, u), Mark(w), s1);
    assert s1.tasks[Worker(w) := Destroying(u)] == st.tasks[Worker(w) := Destroying(u)];
  }

  /** The effect of the steps on what the store keeps. */
  ghost predicate Effect(st: State, st': State, claimed: Option<Uid>, ok: bool, gone: bool, service: string)
    requires ok ==> claimed.Some? && claimed.value in st.interfaces && DelIP(st.net, service, st.interfaces[claimed.value]).Some?
  {
    && st'.net == (if ok then DelIP(st.net, service, st.interfaces[claimed.value]).value else st.net)
    && st'.interfaces == (if ok && gone then st.interfaces - {claimed.value} else st.interfaces)
    && st'.instances ==
         (if claimed.None? then st.instances
          else if ok && gone then st.instances - {claimed.value}
          else st.instances[claimed.value := Machine(service, false)])
  }

  lemma DestroyRuns(mode: Mode, st: State, w: nat, service: string, u: Uid, gone: bool) returns (st': State)
    requires CanDelete(mode, st, w, service) && IsRunning(st, service, u) && u in st.interfaces
    requires DelIP(st.net, service, st.interfaces[u]).Some?
    ensures Exec(mode, st, StepsOf(w, Some(u), true, gone)) == Some(st') && Effect(st, st', Some(u), true, gone, service)
  {
    var marked := Marked(st, w, u);
    ClaimRuns(mode, st, w, service, u);
    var stop := if gone then StopGone(Worker(w)) else StopKept(Worker(w));
    var s3 := Apply(mode, marked, Deregister(Worker(w)));
    st' := Apply(mode, s3, stop);
    ExecTwo(mode, marked, Deregister(Worker(w)), stop, s3);
    ExecAppend(mode, st, [Select(w, u), Mark(w)], [Deregister(Worker(w)), stop]);
    assert gone ==> st'.instances == st.instances - {u};
    assert !gone ==> st'.instances == st.instances[u := Machine(service, false)];
  }

  lemma GiveUpRuns(mode: Mode, st: State, w: nat, service: string, u: Uid) returns (st': State)
    requires CanDelete(mode, st, w, service) && IsRunning(st, service, u)
    ensures Exec(mode, st, StepsOf(w, Some(u), false, false)) == Some(st') && Effect(st, st', Some(u), false, false, service)
  {
    ClaimRuns(mode, st, w, service, u);
    st' := Apply(mode, Marked(st, w, u), Abort(Worker(w)));
    ExecSnoc(mode, st, [Select(w, u), Mark(w)], Marked(st, w, u), Abort(Worker(w)));
    assert [Select(w, u), Mark(w)] + [Abort(Worker(w))] == StepsOf(w, Some(u), false, false);
  }

  lemma NothingRuns(mode: Mode, st: State, w: nat, service: string) returns (st': State)
    requires CanDelete(mode, st, w, service) && Running(st, service) == 0
    ensures Exec(mode, st, [SelectNothing(w)]) == Some(st') && Effect(st, st', None, false, false, service)
  {
    st' := Apply(mode, st, SelectNothing(w));
    ExecCons(mode, st, [SelectNothing(w)]);
  }

  lemma StepsRun(mode: Mode, st: State, w: nat, service: string, claimed: Option<Uid>, ok: bool, gone: bool)
    returns (st': State)
    requires CanDelete(mode, st, w, service) && (ok ==> claimed.Some?)
    requires if claimed.Some? then IsRunning(st, service, claimed.value) else Running(st, service) == 0
    requires ok ==> claimed.value in st.interfaces && DelIP(st.net, service, st.interfaces[claimed.value]).Some?
    ensures Exec(mode, st, StepsOf(w, claimed, ok, gone)) == Some(st') && Effect(st, st', claimed, ok, gone, service)
  {
    if claimed.None? {
      st' := NothingRuns(mode, st, w, service);
    } else if ok {
      st' := DestroyRuns(mode, st, w, service, claimed.value, gone);
    } else {
      st' := GiveUpRuns(mode, st, w, service, claimed.value);
    }
  }

  /** The machines that a store's GetReplicas counts are those that the state machine counts. */
  lemma SameMachinesRun(st: State, view: map<nat, M.Shown>, service: string)
    requires st.instances == Machines(view)
    ensures RunningSet(st, service) == M.ServingIn(view, service)
  {
  }

  /** The effect on the state, and the effect on what the store shows, are the same. */
  lemma EffectIsShown(st: State, st': State, view: map<nat, M.Shown>, view': map<nat, M.Shown>,
                      claimed: Option<Uid>, ok: bool, gone: bool, service: string)
    requires ok ==> claimed.Some? && claimed.value in st.interfaces && DelIP(st.net, service, st.interfaces[claimed.value]).Some?
    requires Effect(st, st', claimed, ok, gone, service) && st.instances == Machines(view)
    requires view' == if claimed.None? then view
                      else if ok && gone then view - {claimed.value} else view[claimed.value := M.Shown(service, false)]
    ensures st'.instances == Machines(view')
  {
  }

  /**
    A worker's call of DeleteMachine: what it does to the store is what its steps do to the state that
    represents the store.
   */
  method DeleteMachine(store: M.Store, service: string, platform: bool, gone: bool, ghost mode: Mode, ghost st: State,
                       ghost w: nat)
    returns (claimed: Option<Uid>, ok: bool, ghost st': State)
    requires store.Valid() && store.network.Valid()
    requires Represents(st, store.View(), store.networks, store.network.State()) && CanDelete(mode, st, w, service)
    modifies store`instances, store`networks, store.network, set u | u in store.instances :: store.instances[u]
    ensures store.Valid() && store.network.Valid()
    ensures Exec(mode, st, StepsOf(w, claimed, ok, gone)) == Some(st')
    ensures ok <==> claimed.Some? && platform && claimed.value in st.interfaces
                    && DelIP(st.net, service, st.interfaces[claimed.value]).Some?
    ensures Represents(st', store.View(), store.networks, store.network.State())
  {
    ghost var view := store.View();
    SameMachinesRun(st, view, service);
    claimed, ok := store.DeleteMachine(service, platform, gone);
    assert claimed.Some? ==> claimed.value in RunningSet(st, service);
    st' := StepsRun(mode, st, w, service, claimed, ok, gone);
    EffectIsShown(st, st', view, store.View(), claimed, ok, gone, service);
  }

  // ---------------------------------------------------------------- creations

  /** A createMachine call that begins now can go through: its UID and address are fresh, and the bridge is free. */
  ghost predicate CanCreate(st: State, uid: Uid, ip: IP) {
    InstancesInv(st) && FreshUid(st, uid) && FreshIP(st, ip) && st.bridgeLock.None? && uid !in st.pending
  }

  /** What is left of a createMachine call that has begun, by where it gives up; its registration comes later. */
  function Rest(uid: Uid, ip: IP, running: bool, failure: M.Failure): seq<Step> {
    var created := [TakeBridge(uid), ReadBridge(uid)] + [WriteBridge(uid, ip), Create(uid)];
    match failure
    case Never => created + [StoreInstance(uid, running), StoreInterface(uid)]
    case BeforeLabels => [FailEarly(uid)]
    case AfterLabels => created + [FailStart(uid)]
  }

  /** The effect of a creation on what the store keeps. */
  ghost predicate Creates(st: State, st': State, uid: Uid, service: string, ip: IP, running: bool, ok: bool) {
    && st'.net == st.net
    && st'.instances == (if ok then st.instances[uid := Machine(service, running)] else st.instances)
    && st'.interfaces == (if ok then st.interfaces[uid := ip] else st.interfaces)
  }

  lemma RestRuns(mode: Mode, st: State, uid: Uid, ip: IP, running: bool, failure: M.Failure) returns (st': State)
    requires Begun(st, uid) && st.bridgeLock.None? && FreshIP(st, ip)
    ensures Exec(mode, st, Rest(uid, ip, running, failure)) == Some(st')
    ensures Creates(st, st', uid, st.calls[uid].service, ip, running, failure.Never?)
  {
    var created := [TakeBridge(uid), ReadBridge(uid)] + [WriteBridge(uid, ip), Create(uid)];
    IsAddressed(mode, st, uid, ip);
    match failure {
      case Never =>
        ReturnsUnlisted(mode, st, uid, ip, running);
        ExecAppend(mode, st, created, [StoreInstance(uid, running), StoreInterface(uid)]);
        st' := Unlisted(st, uid, ip, running);
      case BeforeLabels =>
        ExecCons(mode, st, [FailEarly(uid)]);
        st' := Apply(mode, st, FailEarly(uid));
      case AfterLabels =>
        ExecSnoc(mode, st, created, Addressed(st, uid, ip), FailStart(uid));
        st' := Apply(mode, Addressed(st, uid, ip), FailStart(uid));
    }
  }

  /** A deployment whose package is no target does not begin a call. */
  function CreationSteps(target: bool, uid: Uid, service: string, ip: IP, running: bool,
                         failure: M.Failure): seq<Step> {
    if target then [Begin(uid, service)] + Rest(uid, ip, running, failure) else []
  }

  lemma CreationRuns(mode: Mode, st: State, target: bool, uid: Uid, service: string, ip: IP, running: bool,
                     failure: M.Failure)
    returns (st': State)
    requires CanCreate(st, uid, ip)
    ensures Exec(mode, st, CreationSteps(target, uid, service, ip, running, failure)) == Some(st')
    ensures Creates(st, st', uid, service, ip, running, target && failure.Never?)
  {
    if target {
      var begun := Apply(mode, st, Begin(uid, service));
      st' := RestRuns(mode, begun, uid, ip, running, failure);
      BeginsWith(mode, st, Begin(uid, service), Rest(uid, ip, running, failure));
    } else {
      st' := st;
    }
  }

  /** Worker `w` is about to call CloneMachine. */
  ghost predicate CanClone(st: State, w: nat, service: string) {
    InScale(st, w, Spawned, true) && st.holder.service == service
  }

  function CloneSteps(w: nat, source: Option<Uid>, uid: Uid, ip: IP, running: bool, failure: M.Failure): seq<Step> {
    if source.None? then [CloneNothing(w)] else [Clone(w, source.value, uid)] + Rest(uid, ip, running, failure)
  }

  lemma CloneRuns(mode: Mode, st: State, w: nat, service: string, source: Option<Uid>, uid: Uid, ip: IP, running: bool,
                  failure: M.Failure) returns (st': State)
    requires CanCreate(st, uid, ip) && CanClone(st, w, service)
    requires if source.Some? then IsRunning(st, service, source.value) else Running(st, service) == 0
    ensures Exec(mode, st, CloneSteps(w, source, uid, ip, running, failure)) == Some(st')
    ensures Creates(st, st', uid, service, ip, running, source.Some? && failure.Never?)
  {
    if source.Some? {
      var begun := Apply(mode, st, Clone(w, source.value, uid));
      st' := RestRuns(mode, begun, uid, ip, running, failure);
      BeginsWith(mode, st, Clone(w, source.value, uid), Rest(uid, ip, running, failure));
    } else {
      st' := Apply(mode, st, CloneNothing(w));
      ExecCons(mode, st, [CloneNothing(w)]);
    }
  }

  lemma CreationIsShown(st: State, st': State, view: map<nat, M.Shown>, view': map<nat, M.Shown>,
                        uid: Uid, service: string, ip: IP, running: bool, ok: bool)
    requires Creates(st, st', uid, service, ip, running, ok) && st.instances == Machines(view)
    requires view' == if ok then view[uid := M.Shown(service, running)] else view
    ensures st'.instances == Machines(view')
  {
  }

  /** A handler's call of NewMachine: what it does to the store is what its steps do to the state. */
  method NewMachine(store: M.Store, meta: FunctionStore.FunctionMetaData, uid: nat, ip: IP, volumes: bool,
                    running: bool,
                    failure: M.Failure, ghost mode: Mode, ghost st: State)
    returns (ok: bool, ghost st': State)
    requires store.Valid() && store.FitsDeployment(meta.deployment)
    requires Represents(st, store.View(), store.networks, store.network.State()) && CanCreate(st, uid, ip)
    modifies store`instances, store`networks, store`owner, meta.deployment.labels, meta.deployment.annotations
    ensures store.Valid()
    ensures Exec(mode, st, CreationSteps(meta.package.target, uid, meta.deployment.service, ip, running, failure)) == Some(st')
    ensures Represents(st', store.View(), store.networks, store.network.State())
  {
    ghost var view := store.View();
    assert uid !in st.instances;
    ok := store.NewMachine(meta, uid, ip, volumes, running, failure);
    st' := CreationRuns(mode, st, meta.package.target, uid, meta.deployment.service, ip, running, failure);
    CreationIsShown(st, st', view, store.View(), uid, meta.deployment.service, ip, running, ok);
  }

  /** A worker's call of CloneMachine, whichever running machine it takes for its source. */
  method CloneMachine(store: M.Store, service: string, uid: nat, ip: IP, volumes: bool, running: bool,
                      failure: M.Failure,
                      ghost mode: Mode, ghost st: State, ghost w: nat)
    returns (ok: bool, ghost source: Option<Uid>, ghost st': State)
    requires store.Valid()
    requires Represents(st, store.View(), store.networks, store.network.State())
    requires CanCreate(st, uid, ip) && CanClone(st, w, service)
    modifies store`instances, store`networks, store`owner, set u | u in store.instances :: store.instances[u].annotations
    ensures store.Valid()
    ensures Exec(mode, st, CloneSteps(w, source, uid, ip, running, failure)) == Some(st')
    ensures Represents(st', store.View(), store.networks, store.network.State())
    ensures ok <==> source.Some? && failure.Never?
  {
    ghost var view := store.View();
    SameMachinesRun(st, view, service);
    assert forall u :: u in store.instances ==> (M.Serving(store.instances[u], service) <==> u in RunningSet(st, service));
    source := if u :| u in RunningSet(st, service) then Some(u) else None;
    ghost var cloned;
    ok, cloned := store.CloneMachine(service, uid, ip, volumes, running, failure);
    if ok {
      source := Some(cloned);
    }
    st' := CloneRuns(mode, st, w, service, source, uid, ip, running, failure);
    CreationIsShown(st, st', view, store.View(), uid, service, ip, running, ok);
  }

  // ---------------------------------------------------------------- health checks

  /** The steps of checking one machine, by whether it is recorded as Running and by what becomes of it. */
  function CheckSteps(u: Uid, running: bool, destroyed: bool, inPlace: bool, ok: bool, gone: bool): seq<Step> {
    if !running then []
    else if !destroyed then [StartCheck(u), EndCheck]
    else if !ok then [StartCheck(u), CheckGone(inPlace)] + [Abort(Checker), EndCheck]
    else [StartCheck(u), CheckGone(inPlace)] + [Deregister(Checker), if gone then StopGone(Checker) else StopKept(Checker), EndCheck]
  }

  /** The health checker is about to look at a machine; if that has an address, it has been registered. */
  ghost predicate CanCheck(st: State) {
    st.holder.Free? && LockInv(st) && InstancesInv(st) && forall u :: u in st.interfaces ==> u in st.registered
  }

  /** The effect of a check on what the store keeps. */
  ghost predicate Checks(st: State, st': State, u: Uid, destroyed: bool, inPlace: bool, ok: bool, gone: bool)
    requires u in st.instances
    requires ok ==> destroyed && u in st.interfaces && DelIP(st.net, st.instances[u].service, st.interfaces[u]).Some?
  {
    && st'.holder.Free?
    && st'.net == (if ok then DelIP(st.net, st.instances[u].service, st.interfaces[u]).value else st.net)
    && st'.interfaces == (if ok && gone then st.interfaces - {u} else st.interfaces)
    && st'.instances ==
         (if ok && gone then st.instances - {u}
          else if ok || (destroyed && inPlace) then st.instances[u := Machine(st.instances[u].service, false)]
          else st.instances)
  }

  lemma CheckRuns(mode: Mode, st: State, u: Uid, destroyed: bool, inPlace: bool, ok: bool, gone: bool) returns (st': State)
    requires CanCheck(st) && u in st.instances && (destroyed ==> st.instances[u].running)
    requires ok ==> destroyed && u in st.interfaces && DelIP(st.net, st.instances[u].service, st.interfaces[u]).Some?
    ensures Exec(mode, st, CheckSteps(u, st.instances[u].running, destroyed, inPlace, ok, gone)) == Some(st')
    ensures Checks(st, st', u, destroyed, inPlace, ok, gone)
  {
    if !st.instances[u].running {
      st' := st;
    } else if !destroyed {
      RunningMachineIsLeft(mode, st, u);
      st' := st;
    } else if ok {
      GoneMachineIsCleared(mode, st, u, inPlace, gone);
      st' := Exec(mode, st, CheckSteps(u, true, true, inPlace, true, gone)).value;
    } else {
      GivenUpCheck(mode, st, u, inPlace);
      st' := Exec(mode, st, CheckSteps(u, true, true, inPlace, false, gone)).value;
    }
  }

  lemma CheckIsShown(st: State, st': State, view: map<nat, M.Shown>, view': map<nat, M.Shown>,
                     u: Uid, destroyed: bool, inPlace: bool, ok: bool, gone: bool)
    requires u in st.instances && (ok ==> destroyed && u in st.interfaces && DelIP(st.net, st.instances[u].service, st.interfaces[u]).Some?)
    requires Checks(st, st', u, destroyed, inPlace, ok, gone) && st.instances == Machines(view)
    requires view' == if destroyed then M.AfterCheck(view, u, st.instances[u].service, inPlace, ok, gone) else view
    ensures st'.instances == Machines(view')
  {
  }

  /** The health checker's look at one machine: what it does to the store is what its steps do to the state. */
  method CheckMachine(store: M.Store, u: nat, answer: Option<bool>, inPlace: bool, platform: bool, gone: bool,
                      ghost mode: Mode, ghost st: State)
    returns (destroyed: bool, ok: bool, ghost st': State)
    requires store.Valid() && store.network.Valid() && u in store.instances
    requires Represents(st, store.View(), store.networks, store.network.State()) && CanCheck(st)
    modifies store`instances, store`networks, store.network, store.instances[u]
    ensures store.Valid() && store.network.Valid()
    ensures destroyed <==> old(store.instances[u].running) && answer == Some(false)
    ensures ok <==> destroyed && platform && u in st.interfaces && DelIP(st.net, st.instances[u].service, st.interfaces[u]).Some?
    ensures Exec(mode, st, CheckSteps(u, old(store.instances[u].running), destroyed, inPlace, ok, gone)) == Some(st')
    ensures st'.holder.Free? && Represents(st', store.View(), store.networks, store.network.State())
  {
    ghost var view := store.View();
    assert st.instances[u] == Machine(M.Get(store.instances[u].labels.m, M.SERVICE), store.instances[u].running);
    destroyed, ok := store.CheckMachine(u, answer, inPlace, platform, gone);
    st' := CheckRuns(mode, st, u, destroyed, inPlace, ok, gone);
    CheckIsShown(st, st', view, store.View(), u, destroyed, inPlace, ok, gone);
  }
}
