/**
  The machine store as a state machine: every step is one action of one goroutine between two points
  where others can run. Goroutines are createMachine calls, the workers that ScaleMachinesTo spawns,
  the health checker, the goroutines that register an address, and the network prober.
 */
module Lifecycle {
  import opened Common
  import opened InternalController

  /** Each createMachine call draws one fresh UID, which also names the call. */
  type Uid = nat

  datatype Iface = Iface(uid: Uid, ip: IP)

  /** Where a createMachine call stands. */
  datatype Pc =
    | Preparing                        // before the bridge lock
    | Locked                           // holds the bridge lock
    | Read(interfaces: seq<Iface>)     // has read the bridge
    | Updated                          // has written the bridge; knows its address
    | Created                          // machine created, bridge lock released, registration spawned
    | Stored(running: bool)            // in the instance map
    | Complete(running: bool)          // in both maps; the call has returned
    | Failed                           // returned with an error

  datatype Call = Call(service: string, pc: Pc)

  /** What matters of a stored machine: its service label and whether its state is Running. */
  datatype Machine = Machine(service: string, running: bool)

  /** Where a destroying or cloning goroutine stands. */
  datatype Task =
    | Spawned                  // has not picked a machine
    | Selected(uid: Uid)       // has picked a machine to destroy
    | Destroying(uid: Uid)     // in destroyMachine, before DeleteServiceIP
    | Stopping(uid: Uid)       // in destroyMachine, after DeleteServiceIP
    | Cloning(uid: Uid)        // in the createMachine call of that UID
    | Finished

  /** Goroutine identities: the health checker, or the i-th worker of the current scale operation. */
  datatype Tid = Checker | Worker(index: nat)

  /** Who holds healthChecklock. A scale operation remembers what it counted when it got the lock. */
  datatype Holder = Free | Checking | Scaling(service: string, seen: nat, target: nat)

  datatype State = State(
    calls: map<Uid, Call>,
    bridgeLock: Option<Uid>,
    bridge: seq<Iface>,
    ips: map<Uid, IP>,            // address of every call that completed Update
    pending: set<Uid>,            // calls whose registration goroutine is still trying
    registered: set<Uid>,         // calls whose address AddServiceIP was called for
    instances: map<Uid, Machine>,
    interfaces: map<Uid, IP>,
    holder: Holder,
    tasks: map<Tid, Task>,
    net: Tables,
    log: seq<Uid>,                // machines DeleteServiceIP was called for, in order
    probing: set<IP>              // entries the prober has read and not yet written back
  )

  /**
    Granularity of two places in the code. An atomic claim means that no worker picks a machine while
    another one has picked but not yet marked; an atomic probe reads and writes its entry in one step.
   */
  datatype Mode = Mode(atomicClaims: bool, atomicProbes: bool)

  datatype Step =
    | Begin(uid: Uid, service: string)
    | FailEarly(uid: Uid)
    | TakeBridge(uid: Uid)
    | ReadBridge(uid: Uid)
    | WriteBridge(uid: Uid, ip: IP)
    | FailInside(uid: Uid)
    | Create(uid: Uid)
    | FailStart(uid: Uid)
    | StoreInstance(uid: Uid, running: bool)
    | StoreInterface(uid: Uid)
    | Register(uid: Uid, healthy: bool)
    | ProbeWhole(ip: IP, healthy: bool)
    | ProbeRead(ip: IP)
    | ProbeWrite(ip: IP, healthy: bool)
    | StartScale(service: string, target: nat)
    | Clone(w: nat, source: Uid, uid: Uid)
    | CloneNothing(w: nat)
    | Select(w: nat, uid: Uid)
    | SelectNothing(w: nat)
    | Mark(w: nat)
    | EndScale
    | StartCheck(uid: Uid)
    | CheckGone(inPlace: bool)
    | EndCheck
    | Abort(t: Tid)
    | Deregister(t: Tid)
    | StopGone(t: Tid)
    | StopKept(t: Tid)

  function Initial(bridge: seq<Iface>): State {
    State(map[], None, bridge, map[], {}, {}, map[], map[], Free, map[], EMPTY, [], {})
  }

  // ---------------------------------------------------------------- observations

  predicate IsRunning(st: State, service: string, uid: Uid) {
    uid in st.instances && st.instances[uid] == Machine(service, true)
  }

  function RunningSet(st: State, service: string): set<Uid> {
    set uid | uid in st.instances && IsRunning(st, service, uid)
  }

  /** GetReplicas. */
  function Running(st: State, service: string): nat {
    |RunningSet(st, service)|
  }

  /** The call can still store a machine. */
  predicate Active(pc: Pc) {
    !pc.Complete? && !pc.Failed?
  }

  /** Between Lock and Unlock of the bridge lock. */
  predicate InCritical(pc: Pc) {
    pc.Locked? || pc.Read? || pc.Updated?
  }

  predicate Is(st: State, t: Tid, task: Task) {
    t in st.tasks && st.tasks[t] == task
  }

  predicate Done(st: State, task: Task) {
    match task
    case Finished => true
    case Cloning(uid) => uid in st.calls && !Active(st.calls[uid].pc)
    case _ => false
  }

  /** The first interface of that UID in a bridge's list. */
  function Lookup(interfaces: seq<Iface>, uid: Uid): Option<IP> {
    if interfaces == [] then None
    else if interfaces[0].uid == uid then Some(interfaces[0].ip)
    else Lookup(interfaces[1..], uid)
  }

  /** The machine a goroutine in destroyMachine works on. */
  function Victim(task: Task): Option<Uid> {
    match task
    case Destroying(uid) => Some(uid)
    case Stopping(uid) => Some(uid)
    case _ => None
  }

  /** The steps of createMachine calls, as opposed to those of registrations, probes and tasks. */
  predicate ByCall(step: Step) {
    || step.Begin? || step.FailEarly? || step.TakeBridge? || step.ReadBridge? || step.WriteBridge?
    || step.FailInside? || step.Create? || step.FailStart? || step.StoreInstance? || step.StoreInterface?
  }

  // ---------------------------------------------------------------- when a step can be taken

  predicate At(st: State, uid: Uid, pc: Pc) {
    uid in st.calls && st.calls[uid].pc == pc
  }

  predicate InScale(st: State, w: nat, task: Task, up: bool) {
    st.holder.Scaling? && Is(st, Worker(w), task) && (up <==> st.holder.seen < st.holder.target)
  }

  /** The bridge never hands out an address that a machine still has: one not yet given to DeleteServiceIP. */
  predicate FreshIP(st: State, ip: IP) {
    forall u :: u in st.ips && u !in st.log ==> st.ips[u] != ip
  }

  predicate FreshUid(st: State, uid: Uid) {
    uid !in st.calls && forall i :: 0 <= i < |st.bridge| ==> st.bridge[i].uid != uid
  }

  predicate Enabled(mode: Mode, st: State, step: Step) {
    match step
    case Begin(uid, _) => FreshUid(st, uid)
    case FailEarly(uid) => At(st, uid, Preparing)
    case TakeBridge(uid) => At(st, uid, Preparing) && st.bridgeLock.None?
    case ReadBridge(uid) => At(st, uid, Locked)
    case WriteBridge(uid, ip) => uid in st.calls && st.calls[uid].pc.Read? && FreshIP(st, ip)
    case FailInside(uid) => uid in st.calls && InCritical(st.calls[uid].pc)
    case Create(uid) => At(st, uid, Updated)
    case FailStart(uid) => At(st, uid, Created)
    case StoreInstance(uid, _) => At(st, uid, Created)
    case StoreInterface(uid) => uid in st.calls && st.calls[uid].pc.Stored? && uid in st.ips
    case Register(uid, _) => uid in st.pending && uid in st.calls && uid in st.ips
    case ProbeWhole(ip, _) => ip in st.net.health
    case ProbeRead(ip) => !mode.atomicProbes && ip in st.net.health
    case ProbeWrite(ip, _) => ip in st.probing
    case StartScale(_, _) => st.holder.Free?
    case Clone(w, source, uid) =>
      InScale(st, w, Spawned, true) && IsRunning(st, st.holder.service, source) && FreshUid(st, uid)
    case CloneNothing(w) => InScale(st, w, Spawned, true) && Running(st, st.holder.service) == 0
    case Select(w, uid) =>
      && InScale(st, w, Spawned, false) && IsRunning(st, st.holder.service, uid)
      && (mode.atomicClaims ==> forall t :: t in st.tasks ==> !st.tasks[t].Selected?)
    case SelectNothing(w) => InScale(st, w, Spawned, false) && Running(st, st.holder.service) == 0
    case Mark(w) => st.holder.Scaling? && Worker(w) in st.tasks && st.tasks[Worker(w)].Selected?
    case EndScale => st.holder.Scaling? && forall t :: t in st.tasks ==> Done(st, st.tasks[t])
    case StartCheck(uid) => st.holder.Free? && uid in st.instances && st.instances[uid].running
    case CheckGone(_) => Checker in st.tasks && st.tasks[Checker].Selected?
    case EndCheck => Checker in st.tasks && (st.tasks[Checker].Selected? || st.tasks[Checker].Finished?)
    case Abort(t) => t in st.tasks && st.tasks[t].Destroying?
    case Deregister(t) =>
      // Assumed of every run: a machine is only destroyed once its address has been registered.
      && t in st.tasks && st.tasks[t].Destroying? && st.tasks[t].uid in st.interfaces
      && st.tasks[t].uid in st.registered && Dereg(st, st.tasks[t].uid).Some?
    case StopGone(t) => t in st.tasks && st.tasks[t].Stopping?
    case StopKept(t) => t in st.tasks && st.tasks[t].Stopping? && st.tasks[t].uid in st.calls
  }

  /** The call of DeleteServiceIP for a machine; None when it panics. */
  function Dereg(st: State, uid: Uid): Option<Tables> {
    if uid in st.calls && uid in st.interfaces then DelIP(st.net, st.calls[uid].service, st.interfaces[uid]) else None
  }

  // ---------------------------------------------------------------- what a step does

  function GoTo(st: State, uid: Uid, pc: Pc): map<Uid, Call>
    requires uid in st.calls
  {
    st.calls[uid := st.calls[uid].(pc := pc)]
  }

  function Spawn(n: nat): map<Tid, Task> {
    map i: nat | i < n :: Worker(i) := Spawned
  }

  function Apply(mode: Mode, st: State, step: Step): State
    requires Enabled(mode, st, step)
  {
    match step
    case Begin(uid, service) => st.(calls := st.calls[uid := Call(service, Preparing)])
    case FailEarly(uid) => st.(calls := GoTo(st, uid, Failed))
    case TakeBridge(uid) => st.(calls := GoTo(st, uid, Locked), bridgeLock := Some(uid))
    case ReadBridge(uid) => st.(calls := GoTo(st, uid, Read(st.bridge)))
    case WriteBridge(uid, ip) =>
      // The whole list that was read goes back with one interface more; the answer is searched for it.
      var written := st.calls[uid].pc.interfaces + [Iface(uid, ip)];
      st.(calls := GoTo(st, uid, Updated), bridge := written, ips := st.ips[uid := Found(written, uid)])
    case FailInside(uid) => st.(calls := GoTo(st, uid, Failed))
    case Create(uid) => st.(calls := GoTo(st, uid, Created), bridgeLock := None, pending := st.pending + {uid})
    case FailStart(uid) => st.(calls := GoTo(st, uid, Failed))
    case StoreInstance(uid, running) =>
      st.(calls := GoTo(st, uid, Stored(running)), instances := st.instances[uid := Machine(st.calls[uid].service, running)])
    case StoreInterface(uid) =>
      st.(calls := GoTo(st, uid, Complete(st.calls[uid].pc.running)), interfaces := st.interfaces[uid := st.ips[uid]])
    case Register(uid, healthy) =>
      st.(pending := st.pending - {uid}, registered := st.registered + {uid},
          net := AddIP(st.net, st.calls[uid].service, st.ips[uid], healthy))
    case ProbeWhole(ip, healthy) => st.(net := Probe(st.net, ip, healthy))
    case ProbeRead(ip) => st.(probing := st.probing + {ip})
    case ProbeWrite(ip, healthy) => st.(probing := st.probing - {ip}, net := Probe(st.net, ip, healthy))
    case StartScale(service, target) =>
      var seen := Running(st, service);
      st.(holder := Scaling(service, seen, target), tasks := Spawn(if seen < target then target - seen else seen - target))
    case Clone(w, source, uid) =>
      st.(calls := st.calls[uid := Call(st.instances[source].service, Preparing)], tasks := st.tasks[Worker(w) := Cloning(uid)])
    case CloneNothing(w) => st.(tasks := st.tasks[Worker(w) := Finished])
    case Select(w, uid) => st.(tasks := st.tasks[Worker(w) := Selected(uid)])
    case SelectNothing(w) => st.(tasks := st.tasks[Worker(w) := Finished])
    case Mark(w) =>
      var uid := st.tasks[Worker(w)].uid;
      st.(tasks := st.tasks[Worker(w) := Destroying(uid)], instances := st.instances[uid := Machine(st.holder.service, false)])
    case EndScale => st.(holder := Free, tasks := map[])
    case StartCheck(uid) => st.(holder := Checking, tasks := map[Checker := Selected(uid)])
    case CheckGone(inPlace) =>
      // Asking for the state may or may not write it into the stored machine.
      var uid := st.tasks[Checker].uid;
      st.(tasks := st.tasks[Checker := Destroying(uid)],
          instances := if inPlace && uid in st.instances then st.instances[uid := st.instances[uid].(running := false)] else st.instances)
    case EndCheck => st.(holder := Free, tasks := map[])
    case Abort(t) => st.(tasks := st.tasks[t := Finished])
    case Deregister(t) =>
      var uid := st.tasks[t].uid;
      st.(tasks := st.tasks[t := Stopping(uid)], net := Dereg(st, uid).value, log := st.log + [uid])
    case StopGone(t) =>
      var uid := st.tasks[t].uid;
      st.(tasks := st.tasks[t := Finished], instances := st.instances - {uid}, interfaces := st.interfaces - {uid})
    case StopKept(t) =>
      var uid := st.tasks[t].uid;
      st.(tasks := st.tasks[t := Finished], instances := st.instances[uid := Machine(st.calls[uid].service, false)])
  }

  /** The address createMachine takes from the updated list; unset when its interface is not in there. */
  function Found(interfaces: seq<Iface>, uid: Uid): IP {
    match Lookup(interfaces, uid)
    case Some(ip) => ip
    case None => IP("")
  }

  /** Executes the steps in order; None as soon as one of them cannot be taken. */
  function Exec(mode: Mode, st: State, steps: seq<Step>): Option<State>
    decreases |steps|
  {
    if steps == [] then Some(st)
    else if Enabled(mode, st, steps[0]) then Exec(mode, Apply(mode, st, steps[0]), steps[1..])
    else None
  }

  /** A state that some interleaving leads to. */
  ghost predicate Reachable(mode: Mode, bridge: seq<Iface>, st: State) {
    exists steps :: Exec(mode, Initial(bridge), steps) == Some(st)
  }

  lemma {:induction false} ExecAppend(mode: Mode, st: State, before: seq<Step>, after: seq<Step>)
    ensures Exec(mode, st, before + after) ==
            match Exec(mode, st, before) { case None => None case Some(mid) => Exec(mode, mid, after) }
    decreases |before|
  {
    if before == [] {
      assert before + after == after;
    } else {
      assert (before + after)[1..] == before[1..] + after;
      if Enabled(mode, st, before[0]) {
        ExecAppend(mode, Apply(mode, st, before[0]), before[1..], after);
      }
    }
  }

  /** One step more at the end of a run. */
  lemma ExecSnoc(mode: Mode, st: State, steps: seq<Step>, mid: State, step: Step)
    requires Exec(mode, st, steps) == Some(mid) && Enabled(mode, mid, step)
    ensures Exec(mode, st, steps + [step]) == Some(Apply(mode, mid, step))
  {
    ExecAppend(mode, st, steps, [step]);
    assert Exec(mode, Apply(mode, mid, step), []) == Some(Apply(mode, mid, step));
  }

  lemma ExecTwo(mode: Mode, s0: State, a: Step, b: Step, s1: State)
    requires Enabled(mode, s0, a) && s1 == Apply(mode, s0, a) && Enabled(mode, s1, b)
    ensures Exec(mode, s0, [a, b]) == Some(Apply(mode, s1, b))
  {
    ExecCons(mode, s0, [a, b]);
    ExecCons(mode, s1, [b]);
  }

  lemma ExecThree(mode: Mode, s0: State, a: Step, b: Step, c: Step, s1: State, s2: State)
    requires Enabled(mode, s0, a) && s1 == Apply(mode, s0, a)
    requires Enabled(mode, s1, b) && s2 == Apply(mode, s1, b) && Enabled(mode, s2, c)
    ensures Exec(mode, s0, [a, b, c]) == Some(Apply(mode, s2, c))
  {
    ExecCons(mode, s0, [a, b, c]);
    ExecTwo(mode, s1, b, c, s2);
  }

  lemma ExecCons(mode: Mode, st: State, steps: seq<Step>)
    requires steps != [] && Enabled(mode, st, steps[0])
    ensures Exec(mode, st, steps) == Exec(mode, Apply(mode, st, steps[0]), steps[1..])
  {
  }
}
