/**
  States that really come about: any number of machines of a service, created one after the other, each
  running, stored in both maps and registered, while nobody is in the middle of anything.
 */
module SetUp {
  import opened Common
  import opened InternalController
  import opened Lifecycle
  import opened LifecycleInv
  import opened Safety
  import opened Conservation

  /** What is left of a successful creation once it has begun, with the registration right after Create. */
  function Steps(uid: Uid, ip: IP): seq<Step> {
    ([TakeBridge(uid), ReadBridge(uid)] + [WriteBridge(uid, ip), Create(uid)])
    + ([Register(uid, true), StoreInstance(uid, true)] + [StoreInterface(uid)])
  }

  function AtPc(st: State, uid: Uid, pc: Pc): map<Uid, Call>
    requires uid in st.calls
  {
    st.calls[uid := Call(st.calls[uid].service, pc)]
  }

  /** The call has the bridge lock and has read the bridge. */
  function Reading(st: State, uid: Uid): State
    requires uid in st.calls
  {
    st.(calls := AtPc(st, uid, Read(st.bridge)), bridgeLock := Some(uid))
  }

  /** The call has its address and has released the lock. */
  function Addressed(st: State, uid: Uid, ip: IP): State
    requires uid in st.calls
  {
    st.(calls := AtPc(st, uid, Created), bridgeLock := None,
        bridge := st.bridge + [Iface(uid, ip)], ips := st.ips[uid := ip], pending := st.pending + {uid})
  }

  /** The machine is registered and in the instance map. */
  function Entered(st: State, uid: Uid, ip: IP): State
    requires uid in st.calls
  {
    Addressed(st, uid, ip).(
      calls := AtPc(st, uid, Stored(true)), pending := st.pending, registered := st.registered + {uid},
      net := AddIP(st.net, st.calls[uid].service, ip, true),
      instances := st.instances[uid := Machine(st.calls[uid].service, true)])
  }

  /** The call has returned. */
  function Born(st: State, uid: Uid, ip: IP): State
    requires uid in st.calls
  {
    Entered(st, uid, ip).(calls := AtPc(st, uid, Complete(true)), interfaces := st.interfaces[uid := ip])
  }

  /** The call has just begun, and its UID is on no interface. */
  ghost predicate Begun(st: State, uid: Uid) {
    At(st, uid, Preparing) && uid !in st.pending && forall i :: 0 <= i < |st.bridge| ==> st.bridge[i].uid != uid
  }

  lemma ReadsBridge(mode: Mode, st: State, uid: Uid)
    requires Begun(st, uid) && st.bridgeLock.None?
    ensures Exec(mode, st, [TakeBridge(uid), ReadBridge(uid)]) == Some(Reading(st, uid))
  {
    var s1 := Apply(mode, st, TakeBridge(uid));
    ExecTwo(mode, st, TakeBridge(uid), ReadBridge(uid), s1);
    assert AtPc(s1, uid, Read(st.bridge)) == AtPc(st, uid, Read(st.bridge));
  }

  lemma GetsAddress(mode: Mode, st: State, uid: Uid, ip: IP)
    requires Begun(st, uid) && FreshIP(st, ip)
    ensures Exec(mode, Reading(st, uid), [WriteBridge(uid, ip), Create(uid)]) == Some(Addressed(st, uid, ip))
  {
    var s0 := Reading(st, uid);
    LookupAppended(st.bridge, uid, ip);
    var s1 := Apply(mode, s0, WriteBridge(uid, ip));
    ExecTwo(mode, s0, WriteBridge(uid, ip), Create(uid), s1);
    assert AtPc(s1, uid, Created) == AtPc(st, uid, Created);
  }

  lemma GetsEntered(mode: Mode, st: State, uid: Uid, ip: IP)
    requires Begun(st, uid)
    ensures Exec(mode, Addressed(st, uid, ip), [Register(uid, true), StoreInstance(uid, true)]) == Some(Entered(st, uid, ip))
  {
    var s0 := Addressed(st, uid, ip);
    var s1 := Apply(mode, s0, Register(uid, true));
    assert s0.pending - {uid} == st.pending;
    ExecTwo(mode, s0, Register(uid, true), StoreInstance(uid, true), s1);
    assert AtPc(s1, uid, Stored(true)) == AtPc(st, uid, Stored(true));
  }

  lemma Returns(mode: Mode, st: State, uid: Uid, ip: IP)
    requires Begun(st, uid)
    ensures Exec(mode, Entered(st, uid, ip), [StoreInterface(uid)]) == Some(Born(st, uid, ip))
  {
    var s0 := Entered(st, uid, ip);
    assert AtPc(s0, uid, Complete(true)) == AtPc(st, uid, Complete(true));
    ExecCons(mode, s0, [StoreInterface(uid)]);
  }

  lemma IsAddressed(mode: Mode, st: State, uid: Uid, ip: IP)
    requires Begun(st, uid) && st.bridgeLock.None? && FreshIP(st, ip)
    ensures Exec(mode, st, [TakeBridge(uid), ReadBridge(uid)] + [WriteBridge(uid, ip), Create(uid)]) == Some(Addressed(st, uid, ip))
  {
    ReadsBridge(mode, st, uid);
    GetsAddress(mode, st, uid, ip);
    ExecAppend(mode, st, [TakeBridge(uid), ReadBridge(uid)], [WriteBridge(uid, ip), Create(uid)]);
  }

  lemma IsBorn(mode: Mode, st: State, uid: Uid, ip: IP)
    requires Begun(st, uid) && st.bridgeLock.None? && FreshIP(st, ip)
    ensures Exec(mode, st, Steps(uid, ip)) == Some(Born(st, uid, ip))
  {
    IsAddressed(mode, st, uid, ip);
    GetsEntered(mode, st, uid, ip);
    Returns(mode, st, uid, ip);
    ExecAppend(mode, Addressed(st, uid, ip), [Register(uid, true), StoreInstance(uid, true)], [StoreInterface(uid)]);
    ExecAppend(mode, st, Steps(uid, ip)[..4], Steps(uid, ip)[4..]);
    assert Steps(uid, ip)[..4] == [TakeBridge(uid), ReadBridge(uid)] + [WriteBridge(uid, ip), Create(uid)];
    assert Steps(uid, ip)[4..] == [Register(uid, true), StoreInstance(uid, true)] + [StoreInterface(uid)];
    assert Steps(uid, ip)[..4] + Steps(uid, ip)[4..] == Steps(uid, ip);
  }

  /** Addresses that differ for different machines. */
  function Address(n: nat): (ip: IP)
    ensures |ip.text| == n + 1
  {
    IP(seq(n + 1, _ => '1'))
  }

  predicate Earlier(u: Uid, n: nat) {
    u < n
  }

  function Below(n: nat): set<Uid> {
    set u: Uid | u < n && Earlier(u, n)
  }

  /** Machine `u` is running, stored in both maps and registered. */
  ghost predicate SetUpOne(st: State, service: string, u: Uid) {
    && u in st.calls && st.calls[u] == Call(service, Complete(true)) && u in st.ips && st.ips[u] == Address(u)
    && IsRunning(st, service, u) && u in st.interfaces && u in st.registered
  }

  /** Machines 0 to n-1 are completely set up, and that is all there is. */
  ghost predicate AllSetUp(st: State, service: string, n: nat) {
    && st.holder.Free? && st.tasks == map[] && st.bridgeLock.None? && st.log == [] && st.pending == {}
    && st.calls.Keys == Below(n) && st.ips.Keys == Below(n) && st.instances.Keys == Below(n)
    && (forall i :: 0 <= i < |st.bridge| ==> st.bridge[i].uid < n)
    && (forall u :: u in Below(n) ==> SetUpOne(st, service, u))
  }

  function After(st: State, service: string, n: nat): State {
    Born(st.(calls := st.calls[n := Call(service, Preparing)]), n, Address(n))
  }

  lemma NextIsFresh(st: State, service: string, n: nat)
    requires AllSetUp(st, service, n)
    ensures FreshUid(st, n) && FreshIP(st, Address(n))
  {
    forall u | u in st.ips ensures st.ips[u] != Address(n) {
      assert SetUpOne(st, service, u);
    }
  }

  lemma StaysSetUp(st: State, service: string, n: nat, u: Uid)
    requires SetUpOne(st, service, u) && u != n
    ensures SetUpOne(After(st, service, n), service, u)
  {
  }

  lemma NextSetUp(st: State, service: string, n: nat)
    ensures SetUpOne(After(st, service, n), service, n)
  {
  }

  lemma OneMoreKeys(st: State, service: string, n: nat)
    requires AllSetUp(st, service, n)
    ensures var st' := After(st, service, n);
            && st'.calls.Keys == Below(n + 1) && st'.ips.Keys == Below(n + 1) && st'.instances.Keys == Below(n + 1)
            && forall i :: 0 <= i < |st'.bridge| ==> st'.bridge[i].uid < n + 1
  {
    assert Below(n + 1) == Below(n) + {n};
  }

  lemma OneMoreSetUp(st: State, service: string, n: nat)
    requires AllSetUp(st, service, n)
    ensures FreshUid(st, n) && FreshIP(st, Address(n))
    ensures AllSetUp(After(st, service, n), service, n + 1)
  {
    NextIsFresh(st, service, n);
    OneMoreKeys(st, service, n);
    forall u | u in Below(n + 1) ensures SetUpOne(After(st, service, n), service, u) {
      if u == n {
        NextSetUp(st, service, n);
      } else {
        assert u in Below(n);
        StaysSetUp(st, service, n, u);
      }
    }
  }

  lemma OneMoreBorn(mode: Mode, service: string, n: nat, before: seq<Step>, st: State)
    requires Exec(mode, Initial([]), before) == Some(st) && AllSetUp(st, service, n)
    ensures Exec(mode, Initial([]), before + [Begin(n, service)] + Steps(n, Address(n))) == Some(After(st, service, n))
  {
    OneMoreSetUp(st, service, n);
    var begun := Apply(mode, st, Begin(n, service));
    ExecSnoc(mode, Initial([]), before, st, Begin(n, service));
    IsBorn(mode, begun, n, Address(n));
    ExecAppend(mode, Initial([]), before + [Begin(n, service)], Steps(n, Address(n)));
  }

  lemma NoneSetUp(service: string)
    ensures AllSetUp(Initial([]), service, 0)
  {
    assert Below(0) == {};
  }

  /** The steps lead to the state, for every granularity. */
  ghost predicate LeadsTo(steps: seq<Step>, st: State) {
    forall mode :: Runs(mode, steps, st)
  }

  predicate Runs(mode: Mode, steps: seq<Step>, st: State) {
    Exec(mode, Initial([]), steps) == Some(st)
  }

  lemma OneMore(service: string, n: nat, before: seq<Step>, st: State) returns (steps: seq<Step>, st': State)
    requires LeadsTo(before, st) && AllSetUp(st, service, n)
    ensures LeadsTo(steps, st') && AllSetUp(st', service, n + 1)
  {
    steps, st' := before + [Begin(n, service)] + Steps(n, Address(n)), After(st, service, n);
    forall mode ensures Runs(mode, steps, st') {
      assert Runs(mode, before, st);
      OneMoreBorn(mode, service, n, before, st);
    }
    OneMoreSetUp(st, service, n);
  }

  lemma {:induction false} Populate(service: string, n: nat) returns (steps: seq<Step>, st: State)
    ensures LeadsTo(steps, st) && AllSetUp(st, service, n)
  {
    if n == 0 {
      steps, st := [], Initial([]);
      NoneSetUp(service);
    } else {
      var before, was := Populate(service, n - 1);
      steps, st := OneMore(service, n - 1, before, was);
    }
  }

  lemma {:induction false} BelowSize(n: nat)
    ensures |Below(n)| == n
  {
    if n == 0 {
      assert Below(0) == {};
    } else {
      BelowSize(n - 1);
      assert Below(n) == Below(n - 1) + {n - 1};
    }
  }

  lemma AllAreRunning(st: State, service: string, n: nat)
    requires AllSetUp(st, service, n)
    ensures Running(st, service) == n && Quiet(st, service)
  {
    BelowSize(n);
    forall u ensures u in RunningSet(st, service) <==> u in Below(n) {
      assert u in Below(n) ==> SetUpOne(st, service, u);
    }
    assert RunningSet(st, service) == Below(n);
    forall u | u in st.calls ensures !PreStore(st.calls[u].pc) {
      assert SetUpOne(st, service, u);
    }
  }

  /**
    Whatever the granularity, any number of machines of a service can be running at once with everything
    in order, the service quiet and healthChecklock free.
   */
  lemma PopulationIsReachable(mode: Mode, service: string, n: nat) returns (st: State)
    ensures Reachable(mode, [], st) && AllSetUp(st, service, n) && Running(st, service) == n
    ensures Base(st) && BridgeHolds([], st) && NetInv(mode, st) && Quiet(st, service)
  {
    var steps;
    steps, st := Populate(service, n);
    AllAreRunning(st, service, n);
    var atomic := Mode(true, mode.atomicProbes);
    assert Reachable(mode, [], st) && Reachable(atomic, [], st) by {
      assert Runs(mode, steps, st) && Runs(atomic, steps, st);
    }
    ReachableInv([], atomic, st);
  }

  // ---------------------------------------------------------------- destroyed before it is registered

  /** Create machine 0, store it, and have a scale-down to zero claim it before it is registered. */
  function EarlyClaim(service: string, ip: IP): seq<Step> {
    [Begin(0, service)] + (([TakeBridge(0), ReadBridge(0)] + [WriteBridge(0, ip), Create(0)])
    + [StoreInstance(0, true), StoreInterface(0)] + [StartScale(service, 0), Select(0, 0), Mark(0)])
  }

  /** The call has returned, but its registration has not come through. */
  function Unlisted(st: State, uid: Uid, ip: IP, running: bool): State
    requires uid in st.calls
  {
    Addressed(st, uid, ip).(
      calls := AtPc(st, uid, Complete(running)), interfaces := st.interfaces[uid := ip],
      instances := st.instances[uid := Machine(st.calls[uid].service, running)])
  }

  lemma ReturnsUnlisted(mode: Mode, st: State, uid: Uid, ip: IP, running: bool)
    requires Begun(st, uid)
    ensures Exec(mode, Addressed(st, uid, ip), [StoreInstance(uid, running), StoreInterface(uid)]) ==
            Some(Unlisted(st, uid, ip, running))
  {
    var s0 := Addressed(st, uid, ip);
    var s1 := Apply(mode, s0, StoreInstance(uid, running));
    ExecTwo(mode, s0, StoreInstance(uid, running), StoreInterface(uid), s1);
    assert AtPc(s1, uid, Complete(running)) == AtPc(st, uid, Complete(running));
  }

  lemma ClaimsOnly(mode: Mode, st: State, service: string, u: Uid) returns (end: State)
    requires st.holder.Free? && RunningSet(st, service) == {u}
    ensures Exec(mode, st, [StartScale(service, 0), Select(0, u), Mark(0)]) == Some(end)
    ensures Is(end, Worker(0), Destroying(u)) && end.interfaces == st.interfaces && end.registered == st.registered
  {
    var s1 := Apply(mode, st, StartScale(service, 0));
    assert s1.tasks == Spawn(1) == map[Worker(0) := Spawned] && u in RunningSet(st, service);
    var s2 := Apply(mode, s1, Select(0, u));
    end := Apply(mode, s2, Mark(0));
    ExecThree(mode, st, StartScale(service, 0), Select(0, u), Mark(0), s1, s2);
  }

  /** The assumption does not hold by itself: a machine can be claimed before its address is registered. */
  lemma UnregisteredVictimIsReachable(mode: Mode, service: string, ip: IP)
    ensures var end := Exec(mode, Initial([]), EarlyClaim(service, ip));
            end.Some? && Is(end.value, Worker(0), Destroying(0)) && 0 in end.value.interfaces && 0 !in end.value.registered
  {
    var begun := Apply(mode, Initial([]), Begin(0, service));
    var first, second := [TakeBridge(0), ReadBridge(0)] + [WriteBridge(0, ip), Create(0)], [StoreInstance(0, true), StoreInterface(0)];
    var third := [StartScale(service, 0), Select(0, 0), Mark(0)];
    IsAddressed(mode, begun, 0, ip);
    ReturnsUnlisted(mode, begun, 0, ip, true);
    ExecAppend(mode, begun, first, second);
    OnlyOneRuns(begun, service, ip);
    var end := ClaimsOnly(mode, Unlisted(begun, 0, ip, true), service, 0);
    ExecAppend(mode, begun, first + second, third);
    BeginsWith(mode, Initial([]), Begin(0, service), first + second + third);
  }

  lemma OnlyOneRuns(begun: State, service: string, ip: IP)
    requires At(begun, 0, Preparing) && begun.calls[0].service == service && begun.instances == map[]
    ensures RunningSet(Unlisted(begun, 0, ip, true), service) == {0}
  {
  }

  lemma BeginsWith(mode: Mode, st: State, step: Step, steps: seq<Step>)
    requires Enabled(mode, st, step)
    ensures Exec(mode, st, [step] + steps) == Exec(mode, Apply(mode, st, step), steps)
  {
    ExecCons(mode, st, [step] + steps);
    assert ([step] + steps)[1..] == steps;
  }
}
