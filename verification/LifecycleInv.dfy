/** What every interleaving of the machine store's goroutines keeps. */
module LifecycleInv {
  import opened Common
  import opened InternalController
  import opened Lifecycle

  // ---------------------------------------------------------------- calls and the maps they fill

  predicate HasAddress(pc: Pc) {
    pc.Updated? || pc.Created? || pc.Stored? || pc.Complete?
  }

  predicate NoAddress(pc: Pc) {
    pc.Preparing? || pc.Locked? || pc.Read?
  }

  predicate InMaps(pc: Pc) {
    pc.Stored? || pc.Complete?
  }

  /** A call has an address from Update on. */
  ghost predicate AddressInv(st: State) {
    && (forall u :: u in st.calls && HasAddress(st.calls[u].pc) ==> u in st.ips)
    && (forall u :: u in st.ips ==> u in st.calls && !NoAddress(st.calls[u].pc))
  }

  /** Registration comes after Create, and once. */
  ghost predicate RegisterInv(st: State) {
    && (forall u :: u in st.pending ==> u in st.ips && u in st.calls && !st.calls[u].pc.Updated? && u !in st.registered)
    && (forall u :: u in st.registered ==> u in st.ips && u in st.calls && !st.calls[u].pc.Updated?)
  }

  /** Both maps of the store hold what the call that filled them says. */
  ghost predicate InstancesInv(st: State) {
    forall u :: u in st.instances ==>
                  u in st.calls && InMaps(st.calls[u].pc) && st.instances[u].service == st.calls[u].service
  }

  ghost predicate InterfacesInv(st: State) {
    forall u :: u in st.interfaces ==>
                  u in st.calls && st.calls[u].pc.Complete? && u in st.ips && st.interfaces[u] == st.ips[u]
  }

  /** DeleteServiceIP is only called for machines in both maps whose address has been registered. */
  ghost predicate LogInv(st: State) {
    forall u :: u in st.log ==> u in st.registered && u in st.calls && st.calls[u].pc.Complete?
  }

  /** The machine a goroutine has picked for destruction or is destroying. */
  function Target(task: Task): Option<Uid> {
    match task
    case Selected(uid) => Some(uid)
    case _ => Victim(task)
  }

  ghost predicate HasTarget(st: State, t: Tid, u: Uid) {
    t in st.tasks && Target(st.tasks[t]) == Some(u)
  }

  /** Goroutines work on stored machines, the workers of a scale operation on those of its service. */
  ghost predicate TargetInv(st: State) {
    && (forall t, u :: HasTarget(st, t, u) ==> u in st.calls && InMaps(st.calls[u].pc))
    && (forall t, u :: HasTarget(st, t, u) && st.holder.Scaling? ==> st.calls[u].service == st.holder.service)
  }

  /** healthChecklock: without it there is no destroying goroutine, and its holder's kind fixes which ones there are. */
  ghost predicate LockInv(st: State) {
    && (st.holder.Free? ==> st.tasks == map[])
    && (st.holder.Checking? ==> st.tasks.Keys == {Checker})
    && (st.holder.Scaling? ==> Checker !in st.tasks)
  }

  lemma AddressKept(mode: Mode, st: State, step: Step)
    requires AddressInv(st) && Enabled(mode, st, step)
    ensures AddressInv(Apply(mode, st, step))
  {
    if ByCall(step) {
      AddressKeptByCall(mode, st, step);
    } else {
      AddressKeptOther(mode, st, step);
    }
  }

  lemma AddressKeptByCall(mode: Mode, st: State, step: Step)
    requires AddressInv(st) && Enabled(mode, st, step)
    requires ByCall(step)
    ensures AddressInv(Apply(mode, st, step))
  {
    var st' := Apply(mode, st, step);
    forall u | u in st'.calls && HasAddress(st'.calls[u].pc) ensures u in st'.ips {
    }
    forall u | u in st'.ips ensures u in st'.calls && !NoAddress(st'.calls[u].pc) {
    }
  }

  lemma AddressKeptOther(mode: Mode, st: State, step: Step)
    requires AddressInv(st) && Enabled(mode, st, step)
    requires !ByCall(step)
    ensures AddressInv(Apply(mode, st, step))
  {
    var st' := Apply(mode, st, step);
    forall u | u in st'.calls && HasAddress(st'.calls[u].pc) ensures u in st'.ips {
    }
    forall u | u in st'.ips ensures u in st'.calls && !NoAddress(st'.calls[u].pc) {
    }
  }

  lemma RegisterKept(mode: Mode, st: State, step: Step)
    requires AddressInv(st) && RegisterInv(st) && Enabled(mode, st, step)
    ensures RegisterInv(Apply(mode, st, step))
  {
    if ByCall(step) {
      RegisterKeptByCall(mode, st, step);
    } else {
      RegisterKeptOther(mode, st, step);
    }
  }

  lemma RegisterKeptByCall(mode: Mode, st: State, step: Step)
    requires AddressInv(st) && RegisterInv(st) && Enabled(mode, st, step)
    requires ByCall(step)
    ensures RegisterInv(Apply(mode, st, step))
  {
    var st' := Apply(mode, st, step);
    forall u | u in st'.pending
      ensures u in st'.ips && u in st'.calls && !st'.calls[u].pc.Updated? && u !in st'.registered
    {
    }
    forall u | u in st'.registered ensures u in st'.ips && u in st'.calls && !st'.calls[u].pc.Updated? {
    }
  }

  lemma RegisterKeptOther(mode: Mode, st: State, step: Step)
    requires AddressInv(st) && RegisterInv(st) && Enabled(mode, st, step)
    requires !ByCall(step)
    ensures RegisterInv(Apply(mode, st, step))
  {
    var st' := Apply(mode, st, step);
    forall u | u in st'.pending
      ensures u in st'.ips && u in st'.calls && !st'.calls[u].pc.Updated? && u !in st'.registered
    {
    }
    forall u | u in st'.registered ensures u in st'.ips && u in st'.calls && !st'.calls[u].pc.Updated? {
    }
  }

  lemma InstancesKept(mode: Mode, st: State, step: Step)
    requires InstancesInv(st) && TargetInv(st) && LockInv(st) && Enabled(mode, st, step)
    ensures InstancesInv(Apply(mode, st, step))
  {
    if step.Mark? {
      assert HasTarget(st, Worker(step.w), st.tasks[Worker(step.w)].uid);
    } else if step.StopKept? {
      assert HasTarget(st, step.t, st.tasks[step.t].uid);
    }
    var st' := Apply(mode, st, step);
    forall u | u in st'.instances
      ensures u in st'.calls && InMaps(st'.calls[u].pc) && st'.instances[u].service == st'.calls[u].service
    {
    }
  }

  lemma InterfacesKept(mode: Mode, st: State, step: Step)
    requires AddressInv(st) && InterfacesInv(st) && Enabled(mode, st, step)
    ensures InterfacesInv(Apply(mode, st, step))
  {
    var st' := Apply(mode, st, step);
    forall u | u in st'.interfaces
      ensures u in st'.calls && st'.calls[u].pc.Complete? && u in st'.ips && st'.interfaces[u] == st'.ips[u]
    {
    }
  }

  lemma LogKept(mode: Mode, st: State, step: Step)
    requires InterfacesInv(st) && LogInv(st) && Enabled(mode, st, step)
    ensures LogInv(Apply(mode, st, step))
  {
    var st' := Apply(mode, st, step);
    forall u | u in st'.log ensures u in st'.registered && u in st'.calls && st'.calls[u].pc.Complete? {
    }
  }

  lemma LockKept(mode: Mode, st: State, step: Step)
    requires LockInv(st) && Enabled(mode, st, step)
    ensures LockInv(Apply(mode, st, step))
  {
    if ByCall(step) {
      CallsLeaveTasks(mode, st, step);
    } else {
      LockKeptOther(mode, st, step);
    }
  }

  lemma CallsLeaveTasks(mode: Mode, st: State, step: Step)
    requires Enabled(mode, st, step) && ByCall(step)
    ensures Apply(mode, st, step).tasks == st.tasks && Apply(mode, st, step).holder == st.holder
  {
  }

  lemma LockKeptOther(mode: Mode, st: State, step: Step)
    requires LockInv(st) && Enabled(mode, st, step)
    requires !ByCall(step)
    ensures LockInv(Apply(mode, st, step))
  {
  }

  lemma TargetKept(mode: Mode, st: State, step: Step)
    requires InstancesInv(st) && TargetInv(st) && LockInv(st) && Enabled(mode, st, step)
    ensures TargetInv(Apply(mode, st, step))
  {
    var st' := Apply(mode, st, step);
    forall t, u | HasTarget(st', t, u)
      ensures u in st'.calls && InMaps(st'.calls[u].pc)
      ensures st'.holder.Scaling? ==> st'.calls[u].service == st'.holder.service
    {
      TargetBefore(mode, st, step, t, u);
      HolderStays(mode, st, step, t, u);
      CallKept(mode, st, step, u);
    }
  }

  /** No step changes what a call is for, and a call that has stored a machine stays one that has. */
  lemma CallKept(mode: Mode, st: State, step: Step, u: Uid)
    requires u in st.calls && Enabled(mode, st, step)
    ensures u in Apply(mode, st, step).calls && Apply(mode, st, step).calls[u].service == st.calls[u].service
    ensures InMaps(st.calls[u].pc) ==> InMaps(Apply(mode, st, step).calls[u].pc)
  {
    if ByCall(step) {
      CallKeptByCall(mode, st, step, u);
    } else {
      CallKeptOther(mode, st, step, u);
    }
  }

  lemma CallKeptByCall(mode: Mode, st: State, step: Step, u: Uid)
    requires u in st.calls && Enabled(mode, st, step)
    requires ByCall(step)
    ensures u in Apply(mode, st, step).calls && Apply(mode, st, step).calls[u].service == st.calls[u].service
    ensures InMaps(st.calls[u].pc) ==> InMaps(Apply(mode, st, step).calls[u].pc)
  {
  }

  lemma CallKeptOther(mode: Mode, st: State, step: Step, u: Uid)
    requires u in st.calls && Enabled(mode, st, step)
    requires !ByCall(step)
    ensures u in Apply(mode, st, step).calls && Apply(mode, st, step).calls[u].service == st.calls[u].service
    ensures InMaps(st.calls[u].pc) ==> InMaps(Apply(mode, st, step).calls[u].pc)
  {
  }

  /** Where a goroutine has a machine, the lock is held for the same as before, or has just been taken for it. */
  lemma HolderStays(mode: Mode, st: State, step: Step, t: Tid, u: Uid)
    requires LockInv(st) && Enabled(mode, st, step) && HasTarget(Apply(mode, st, step), t, u)
    ensures Apply(mode, st, step).holder == st.holder || step == StartCheck(u)
  {
    if ByCall(step) {
      CallsLeaveTasks(mode, st, step);
    } else {
      HolderStaysOther(mode, st, step, t, u);
    }
  }

  lemma HolderStaysOther(mode: Mode, st: State, step: Step, t: Tid, u: Uid)
    requires LockInv(st) && Enabled(mode, st, step) && HasTarget(Apply(mode, st, step), t, u) && !ByCall(step)
    ensures Apply(mode, st, step).holder == st.holder || step == StartCheck(u)
  {
  }

  // ---------------------------------------------------------------- the bridge

  /** Interface `i` of the bridge belongs to call `u` and has its address. */
  predicate Serves(st: State, i: nat, u: Uid) {
    i < |st.bridge| && u in st.ips && st.bridge[i] == Iface(u, st.ips[u])
  }

  /** The bridge is `base` and then one interface per call that completed Update, each under its own UID. */
  ghost predicate BridgeHolds(base: seq<Iface>, st: State) {
    && base <= st.bridge
    && (forall i :: |base| <= i < |st.bridge| ==> Serves(st, i, st.bridge[i].uid))
    && (forall i, j :: |base| <= i < j < |st.bridge| ==> st.bridge[i].uid != st.bridge[j].uid)
    && (forall u :: u in st.ips ==> exists i :: |base| <= i && Serves(st, i, u))
    && (forall i :: 0 <= i < |base| ==> base[i].uid !in st.calls)
  }

  /** Only the holder of the bridge lock is inside, and what it has read is still what the bridge holds. */
  ghost predicate CriticalInv(st: State) {
    && (forall u :: u in st.calls && InCritical(st.calls[u].pc) ==> st.bridgeLock == Some(u))
    && (forall u :: u in st.calls && st.calls[u].pc.Read? ==> st.calls[u].pc.interfaces == st.bridge)
  }

  lemma CriticalKept(mode: Mode, st: State, step: Step)
    requires CriticalInv(st) && Enabled(mode, st, step)
    ensures CriticalInv(Apply(mode, st, step))
  {
    var st' := Apply(mode, st, step);
    forall u | u in st'.calls && InCritical(st'.calls[u].pc) ensures st'.bridgeLock == Some(u) {
    }
    forall u | u in st'.calls && st'.calls[u].pc.Read? ensures st'.calls[u].pc.interfaces == st'.bridge {
    }
  }

  lemma {:induction false} LookupAppended(interfaces: seq<Iface>, uid: Uid, ip: IP)
    requires forall i :: 0 <= i < |interfaces| ==> interfaces[i].uid != uid
    ensures Lookup(interfaces + [Iface(uid, ip)], uid) == Some(ip)
  {
    var all := interfaces + [Iface(uid, ip)];
    if interfaces != [] {
      LookupAppended(interfaces[1..], uid, ip);
      assert all[1..] == interfaces[1..] + [Iface(uid, ip)];
      assert all[0] == interfaces[0];
    }
  }

  /** The write puts exactly one interface behind what was there, and the call finds its own address. */
  lemma WriteAppends(base: seq<Iface>, mode: Mode, st: State, uid: Uid, ip: IP)
    requires AddressInv(st) && CriticalInv(st) && BridgeHolds(base, st) && Enabled(mode, st, WriteBridge(uid, ip))
    ensures var st' := Apply(mode, st, WriteBridge(uid, ip));
            && st'.bridge == st.bridge + [Iface(uid, ip)]
            && uid !in st.ips && st'.ips == st.ips[uid := ip]
  {
    forall i | 0 <= i < |st.bridge| ensures st.bridge[i].uid != uid {
      if i < |base| {
        assert st.bridge[i] == base[i];
      } else {
        assert Serves(st, i, st.bridge[i].uid);
      }
    }
    LookupAppended(st.bridge, uid, ip);
  }

  lemma BridgeKept(base: seq<Iface>, mode: Mode, st: State, step: Step)
    requires AddressInv(st) && CriticalInv(st) && BridgeHolds(base, st) && Enabled(mode, st, step)
    ensures BridgeHolds(base, Apply(mode, st, step))
  {
    if step.WriteBridge? {
      WriteAppends(base, mode, st, step.uid, step.ip);
      BridgeGrows(base, st, Apply(mode, st, step), step.uid, step.ip);
    } else {
      BridgeUntouched(base, mode, st, step);
      BridgeSame(base, st, Apply(mode, st, step));
    }
  }

  lemma BridgeGrows(base: seq<Iface>, st: State, st': State, uid: Uid, ip: IP)
    requires BridgeHolds(base, st) && uid !in st.ips && st'.calls.Keys == st.calls.Keys
    requires st'.bridge == st.bridge + [Iface(uid, ip)] && st'.ips == st.ips[uid := ip]
    ensures BridgeHolds(base, st')
  {
    assert Serves(st', |st.bridge|, uid);
    forall i | |base| <= i < |st.bridge| ensures Serves(st', i, st.bridge[i].uid) && st.bridge[i].uid != uid {
      assert Serves(st, i, st.bridge[i].uid);
    }
    forall u | u in st'.ips ensures exists i :: |base| <= i && Serves(st', i, u) {
      if u in st.ips {
        var i :| |base| <= i && Serves(st, i, u);
        assert Serves(st', i, u);
      }
    }
  }

  lemma BridgeUntouched(base: seq<Iface>, mode: Mode, st: State, step: Step)
    requires base <= st.bridge && Enabled(mode, st, step) && !step.WriteBridge?
    ensures Apply(mode, st, step).bridge == st.bridge && Apply(mode, st, step).ips == st.ips
    ensures forall i :: 0 <= i < |base| && base[i].uid in Apply(mode, st, step).calls ==> base[i].uid in st.calls
  {
    forall i | 0 <= i < |base| && base[i].uid in Apply(mode, st, step).calls ensures base[i].uid in st.calls {
      assert st.bridge[i] == base[i];
    }
  }

  lemma BridgeSame(base: seq<Iface>, st: State, st': State)
    requires BridgeHolds(base, st) && st'.bridge == st.bridge && st'.ips == st.ips
    ensures (forall i :: 0 <= i < |base| ==> base[i].uid !in st'.calls) ==> BridgeHolds(base, st')
  {
    assert forall i, u :: Serves(st', i, u) <==> Serves(st, i, u);
  }

  // ---------------------------------------------------------------- the network tables

  /** Machine `u` of the service is registered under `ip` and not yet given to DeleteServiceIP. */
  predicate Live(st: State, u: Uid, service: string, ip: IP) {
    && u in st.registered && u !in st.log
    && u in st.calls && st.calls[u].service == service
    && u in st.ips && st.ips[u] == ip
  }

  /** Machines that still have their address have it alone. */
  ghost predicate Distinct(st: State) {
    forall u, v :: u in st.ips && v in st.ips && u !in st.log && v !in st.log && st.ips[u] == st.ips[v] ==> u == v
  }

  /** The balancers list exactly the live machines' addresses; the three tables agree. */
  ghost predicate NetInv(mode: Mode, st: State) {
    && Sound(st.net)
    && Distinct(st)
    && (forall u, s, ip :: Live(st, u, s, ip) ==> Holds(st.net.balancers, s, ip))
    && (forall s, ip :: Holds(st.net.balancers, s, ip) ==> exists u :: Live(st, u, s, ip))
    && (mode.atomicProbes ==> KeysAgree(st.net) && st.probing == {})
  }

  lemma DistinctKept(mode: Mode, base: seq<Iface>, st: State, step: Step)
    requires AddressInv(st) && CriticalInv(st) && BridgeHolds(base, st) && LogInv(st)
    requires Distinct(st) && Enabled(mode, st, step)
    ensures Distinct(Apply(mode, st, step))
  {
    if step.WriteBridge? {
      WriteAppends(base, mode, st, step.uid, step.ip);
    }
  }

  /** Steps that touch neither the tables nor what they are compared with. */
  predicate LeavesNet(step: Step) {
    !step.Register? && !step.Deregister? && !step.WriteBridge? && !step.ProbeWhole? && !step.ProbeRead? && !step.ProbeWrite?
  }

  lemma NetUntouched(mode: Mode, st: State, step: Step)
    requires RegisterInv(st) && Enabled(mode, st, step) && LeavesNet(step)
    ensures var st' := Apply(mode, st, step);
            && st'.net == st.net && st'.probing == st.probing && st'.ips == st.ips && st'.log == st.log
            && forall u, s, ip :: Live(st', u, s, ip) <==> Live(st, u, s, ip)
  {
    var st' := Apply(mode, st, step);
    forall u, s, ip ensures Live(st', u, s, ip) <==> Live(st, u, s, ip) {
    }
  }

  lemma WriteKeepsLive(mode: Mode, st: State, step: Step)
    requires AddressInv(st) && RegisterInv(st) && Enabled(mode, st, step) && step.WriteBridge?
    ensures var st' := Apply(mode, st, step);
            && st'.net == st.net && st'.probing == st.probing
            && forall u, s, ip :: Live(st', u, s, ip) <==> Live(st, u, s, ip)
  {
  }

  lemma RegisterKeepsNet(mode: Mode, st: State, uid: Uid, healthy: bool)
    requires NetInv(mode, st) && RegisterInv(st) && LogInv(st) && Enabled(mode, st, Register(uid, healthy))
    requires Distinct(Apply(mode, st, Register(uid, healthy)))
    ensures NetInv(mode, Apply(mode, st, Register(uid, healthy)))
  {
    var st' := Apply(mode, st, Register(uid, healthy));
    var service, ip := st.calls[uid].service, st.ips[uid];
    assert forall s, u :: !Live(st, u, s, ip);
    assert forall s :: !Holds(st.net.balancers, s, ip);
    AddKeepsAgreement(st.net, service, ip, healthy);
    AddHolds(st.net, service, ip, healthy);
    forall s, x | Holds(st'.net.balancers, s, x) ensures exists u :: Live(st', u, s, x) {
      if s == service && x == ip {
        assert Live(st', uid, s, x);
      } else {
        var u :| Live(st, u, s, x);
        assert Live(st', u, s, x);
      }
    }
    forall u, s, x | Live(st', u, s, x) ensures Holds(st'.net.balancers, s, x) {
      assert u == uid || Live(st, u, s, x);
    }
  }

  lemma DeregisterKeepsNet(mode: Mode, st: State, t: Tid)
    requires NetInv(mode, st) && InterfacesInv(st) && Enabled(mode, st, Deregister(t))
    requires st.tasks[t].uid !in st.log && Distinct(Apply(mode, st, Deregister(t)))
    ensures NetInv(mode, Apply(mode, st, Deregister(t)))
  {
    var st' := Apply(mode, st, Deregister(t));
    var uid := st.tasks[t].uid;
    var service, ip := st.calls[uid].service, st.ips[uid];
    assert Live(st, uid, service, ip);
    DelKeepsAgreement(st.net, service, ip);
    DelHolds(st.net, service, ip);
    forall s, x | Holds(st'.net.balancers, s, x) ensures exists u :: Live(st', u, s, x) {
      var u :| Live(st, u, s, x);
      assert Live(st', u, s, x);
    }
    forall u, s, x | Live(st', u, s, x) ensures Holds(st'.net.balancers, s, x) {
      assert Live(st, u, s, x) && u != uid;
      assert x != ip;
    }
  }

  // ---------------------------------------------------------------- who destroys what

  predicate RunningSomewhere(st: State, u: Uid) {
    u in st.instances && st.instances[u].running
  }

  /** A machine that a worker is destroying is not Running any more; it was marked first. */
  ghost predicate MarkedInv(st: State) {
    forall i, u :: HasTarget(st, Worker(i), u) && RunningSomewhere(st, u) ==> st.tasks[Worker(i)].Selected?
  }

  /** A machine only becomes Running when its own call stores it. */
  lemma RunningOnlyByStore(mode: Mode, st: State, step: Step, u: Uid)
    requires Enabled(mode, st, step) && RunningSomewhere(Apply(mode, st, step), u)
    ensures RunningSomewhere(st, u) || step == StoreInstance(u, true)
  {
  }

  /** The goroutine whose step this is, for steps on a machine that is being destroyed. */
  function Actor(step: Step): Option<Tid> {
    match step
    case Mark(w) => Some(Worker(w))
    case CheckGone(_) => Some(Checker)
    case Deregister(t) => Some(t)
    case StopGone(t) => Some(t)
    case StopKept(t) => Some(t)
    case _ => None
  }

  /** A machine is only ever changed by its own call or by the goroutine that has it in its hands. */
  lemma ChangedInHand(mode: Mode, st: State, step: Step, u: Uid)
    requires Enabled(mode, st, step) && u in st.instances
    ensures || (u in Apply(mode, st, step).instances && Apply(mode, st, step).instances[u] == st.instances[u])
            || (step.StoreInstance? && step.uid == u)
            || (Actor(step).Some? && HasTarget(st, Actor(step).value, u))
  {
    if ByCall(step) {
      ChangedInHandByCall(mode, st, step, u);
    } else {
      ChangedInHandOther(mode, st, step, u);
    }
  }

  lemma ChangedInHandByCall(mode: Mode, st: State, step: Step, u: Uid)
    requires Enabled(mode, st, step) && u in st.instances
    requires ByCall(step)
    ensures || (u in Apply(mode, st, step).instances && Apply(mode, st, step).instances[u] == st.instances[u])
            || (step.StoreInstance? && step.uid == u)
  {
  }

  lemma ChangedInHandOther(mode: Mode, st: State, step: Step, u: Uid)
    requires Enabled(mode, st, step) && u in st.instances
    requires !ByCall(step)
    ensures || (u in Apply(mode, st, step).instances && Apply(mode, st, step).instances[u] == st.instances[u])
            || (Actor(step).Some? && HasTarget(st, Actor(step).value, u))
  {
  }

  /** Only a goroutine that has a machine in its hands can end that machine's Running state. */
  lemma RunningEndsInHand(mode: Mode, st: State, step: Step, u: Uid)
    requires InstancesInv(st) && Enabled(mode, st, step) && RunningSomewhere(st, u)
    ensures RunningSomewhere(Apply(mode, st, step), u) || (Actor(step).Some? && HasTarget(st, Actor(step).value, u))
    ensures Actor(step).Some? ==> !Is(Apply(mode, st, step), Actor(step).value, Selected(u))
  {
    ChangedInHand(mode, st, step, u);
    if Actor(step).Some? {
      ActorMovesOn(mode, st, step, u);
    }
  }

  lemma ActorMovesOn(mode: Mode, st: State, step: Step, u: Uid)
    requires Enabled(mode, st, step) && Actor(step).Some?
    ensures !Is(Apply(mode, st, step), Actor(step).value, Selected(u))
  {
  }

  /** How a goroutine comes by its machine. */
  lemma TargetOrigin(mode: Mode, st: State, step: Step, t: Tid, u: Uid)
    requires Enabled(mode, st, step) && LockInv(st) && HasTarget(Apply(mode, st, step), t, u)
    ensures Came(st, step, t, u, Apply(mode, st, step).tasks[t])
  {
    if ByCall(step) {
      CallsLeaveTasks(mode, st, step);
    } else {
      TargetOriginOther(mode, st, step, t, u);
    }
  }

  /** The ways in which goroutine `t` comes to be in `task`, where it has machine `u` in its hands. */
  predicate Came(st: State, step: Step, t: Tid, u: Uid, task: Task) {
    || (Is(st, t, task) && !(step.Mark? && t == Worker(step.w)) && !(step.CheckGone? && t == Checker)
        && !(step.Deregister? && t == step.t))
    || (step.Select? && t == Worker(step.w) && u == step.uid && task == Selected(u))
    || (step.StartCheck? && t == Checker && u == step.uid && task == Selected(u))
    || (step.Mark? && t == Worker(step.w) && Is(st, t, Selected(u)) && task == Destroying(u))
    || (step.CheckGone? && t == Checker && Is(st, t, Selected(u)) && task == Destroying(u))
    || (step.Deregister? && t == step.t && Is(st, t, Destroying(u)) && task == Stopping(u))
  }

  lemma TargetOriginOther(mode: Mode, st: State, step: Step, t: Tid, u: Uid)
    requires Enabled(mode, st, step) && LockInv(st) && HasTarget(Apply(mode, st, step), t, u)
    requires !ByCall(step)
    ensures Came(st, step, t, u, Apply(mode, st, step).tasks[t])
  {
  }

  lemma MarkedKept(mode: Mode, st: State, step: Step)
    requires TargetInv(st) && LockInv(st) && MarkedInv(st) && Enabled(mode, st, step)
    ensures MarkedInv(Apply(mode, st, step))
  {
    var st' := Apply(mode, st, step);
    forall i, u | HasTarget(st', Worker(i), u) && RunningSomewhere(st', u)
      ensures st'.tasks[Worker(i)].Selected?
    {
      RunningOnlyByStore(mode, st, step, u);
      TargetOrigin(mode, st, step, Worker(i), u);
      assert Is(st, Worker(i), st'.tasks[Worker(i)]) ==> HasTarget(st, Worker(i), u);
      if step.Deregister? && Worker(i) == step.t {
        assert HasTarget(st, Worker(i), u);
      }
    }
  }

  /** A machine given to DeleteServiceIP is in the hands that did it, or no longer Running. */
  ghost predicate LoggedInv(st: State) {
    && NoDup(st.log)
    && (forall t, u :: HasTarget(st, t, u) ==> (u in st.log <==> st.tasks[t].Stopping?))
    && (forall u :: RunningSomewhere(st, u) && u in st.log ==> Is(st, Checker, Stopping(u)))
  }

  /** No machine is in two hands, and a machine that is only picked is still Running. */
  ghost predicate AloneInv(st: State) {
    && (forall t, r, u :: HasTarget(st, t, u) && HasTarget(st, r, u) ==> t == r)
    && (forall t, u :: Is(st, t, Selected(u)) ==> RunningSomewhere(st, u))
  }

  /** Goroutine `t` picks machine `u` in this step. */
  predicate Picks(step: Step, t: Tid, u: Uid) {
    (step.Select? && t == Worker(step.w) && u == step.uid) || (t == Checker && step == StartCheck(u))
  }

  lemma TargetBefore(mode: Mode, st: State, step: Step, t: Tid, u: Uid)
    requires Enabled(mode, st, step) && LockInv(st) && HasTarget(Apply(mode, st, step), t, u)
    ensures HasTarget(st, t, u) || Picks(step, t, u)
  {
    TargetOrigin(mode, st, step, t, u);
  }

  /** With atomic claims a goroutine that picks a machine finds it Running and in nobody's hands. */
  lemma PickedIsAlone(mode: Mode, st: State, step: Step, t: Tid, u: Uid)
    requires LockInv(st) && MarkedInv(st) && mode.atomicClaims && Enabled(mode, st, step) && Picks(step, t, u)
    ensures RunningSomewhere(st, u) && forall r :: !HasTarget(st, r, u)
  {
    assert RunningSomewhere(st, u);
    forall r | r in st.tasks ensures HasTarget(st, r, u) ==> st.holder.Scaling? && st.tasks[r].Selected? {
      assert r == Checker || r == Worker(r.index);
    }
  }

  /** And its address has not been deleted. */
  lemma PickedIsFree(mode: Mode, st: State, step: Step, t: Tid, u: Uid)
    requires LockInv(st) && MarkedInv(st) && LoggedInv(st) && mode.atomicClaims && Enabled(mode, st, step) && Picks(step, t, u)
    ensures u !in st.log && RunningSomewhere(st, u) && forall r :: !HasTarget(st, r, u)
  {
    PickedIsAlone(mode, st, step, t, u);
    assert !Is(st, Checker, Stopping(u)) by {
      assert Is(st, Checker, Stopping(u)) ==> HasTarget(st, Checker, u);
    }
  }

  lemma AloneKept(mode: Mode, st: State, step: Step)
    requires InstancesInv(st) && LockInv(st) && MarkedInv(st) && AloneInv(st)
    requires mode.atomicClaims && Enabled(mode, st, step)
    ensures AloneInv(Apply(mode, st, step))
  {
    var st' := Apply(mode, st, step);
    forall t, r, u | HasTarget(st', t, u) && HasTarget(st', r, u) ensures t == r {
      TargetBefore(mode, st, step, t, u);
      TargetBefore(mode, st, step, r, u);
      if Picks(step, t, u) {
        PickedIsAlone(mode, st, step, t, u);
      } else if Picks(step, r, u) {
        PickedIsAlone(mode, st, step, r, u);
      }
    }
    forall t, u | Is(st', t, Selected(u)) ensures RunningSomewhere(st', u) {
      SelectedStaysRunning(mode, st, step, t, u);
    }
  }

  lemma SelectedStaysRunning(mode: Mode, st: State, step: Step, t: Tid, u: Uid)
    requires InstancesInv(st) && LockInv(st) && AloneInv(st) && Enabled(mode, st, step)
    requires Is(Apply(mode, st, step), t, Selected(u))
    ensures RunningSomewhere(Apply(mode, st, step), u)
  {
    TargetOrigin(mode, st, step, t, u);
    if Is(st, t, Selected(u)) {
      assert HasTarget(st, t, u);
    }
    RunningEndsInHand(mode, st, step, u);
  }

  lemma LogStaysDistinct(mode: Mode, st: State, step: Step)
    requires LoggedInv(st) && Enabled(mode, st, step)
    ensures NoDup(Apply(mode, st, step).log)
  {
    if step.Deregister? {
      assert HasTarget(st, step.t, st.tasks[step.t].uid);
    }
  }

  lemma LoggedInHand(mode: Mode, st: State, step: Step, t: Tid, u: Uid)
    requires LockInv(st) && MarkedInv(st) && LoggedInv(st) && AloneInv(st) && mode.atomicClaims && Enabled(mode, st, step)
    requires HasTarget(Apply(mode, st, step), t, u)
    ensures u in Apply(mode, st, step).log <==> Apply(mode, st, step).tasks[t].Stopping?
  {
    TargetOrigin(mode, st, step, t, u);
    if Picks(step, t, u) {
      PickedIsFree(mode, st, step, t, u);
    }
    if step.Deregister? {
      assert HasTarget(st, step.t, st.tasks[step.t].uid);
    }
    assert Is(st, t, Apply(mode, st, step).tasks[t]) ==> HasTarget(st, t, u);
  }

  lemma LoggedKept(mode: Mode, st: State, step: Step)
    requires LogInv(st) && TargetInv(st) && LockInv(st) && MarkedInv(st) && LoggedInv(st) && AloneInv(st)
    requires mode.atomicClaims && Enabled(mode, st, step)
    ensures LoggedInv(Apply(mode, st, step))
  {
    var st' := Apply(mode, st, step);
    LogStaysDistinct(mode, st, step);
    forall t, u | HasTarget(st', t, u) ensures u in st'.log <==> st'.tasks[t].Stopping? {
      LoggedInHand(mode, st, step, t, u);
    }
    if step.Deregister? {
      assert HasTarget(st, step.t, st.tasks[step.t].uid);
    }
    forall u | RunningSomewhere(st', u) && u in st'.log ensures Is(st', Checker, Stopping(u)) {
      RunningOnlyByStore(mode, st, step, u);
    }
  }
}
