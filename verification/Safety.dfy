/** Safety of the machine store over every run of its goroutines. */
module Safety {
  import opened Common
  import opened InternalController
  import opened Lifecycle
  import opened LifecycleInv

  /** Holds for every granularity of claims and probes. */
  ghost predicate Base(st: State) {
    && AddressInv(st) && RegisterInv(st) && InstancesInv(st) && InterfacesInv(st) && LogInv(st)
    && TargetInv(st) && LockInv(st) && CriticalInv(st) && MarkedInv(st) && Distinct(st)
  }

  /** With atomic claims. */
  ghost predicate Atomic(mode: Mode, st: State) {
    LoggedInv(st) && AloneInv(st) && NetInv(mode, st)
  }

  ghost predicate Inv(base: seq<Iface>, mode: Mode, st: State) {
    Base(st) && BridgeHolds(base, st) && (mode.atomicClaims ==> Atomic(mode, st))
  }

  lemma BaseKept(base: seq<Iface>, mode: Mode, st: State, step: Step)
    requires Base(st) && BridgeHolds(base, st) && Enabled(mode, st, step)
    ensures Base(Apply(mode, st, step)) && BridgeHolds(base, Apply(mode, st, step))
  {
    AddressKept(mode, st, step);
    RegisterKept(mode, st, step);
    InstancesKept(mode, st, step);
    InterfacesKept(mode, st, step);
    LogKept(mode, st, step);
    TargetKept(mode, st, step);
    LockKept(mode, st, step);
    CriticalKept(mode, st, step);
    MarkedKept(mode, st, step);
    BridgeKept(base, mode, st, step);
    DistinctKept(mode, base, st, step);
  }

  lemma NetKept(mode: Mode, st: State, step: Step)
    requires AddressInv(st) && RegisterInv(st) && InterfacesInv(st) && LogInv(st)
    requires LoggedInv(st) && NetInv(mode, st) && Enabled(mode, st, step)
    requires Distinct(Apply(mode, st, step))
    ensures NetInv(mode, Apply(mode, st, step))
  {
    if step.Register? {
      RegisterKeepsNet(mode, st, step.uid, step.healthy);
    } else if step.Deregister? {
      assert HasTarget(st, step.t, st.tasks[step.t].uid);
      DeregisterKeepsNet(mode, st, step.t);
    } else if step.ProbeWhole? || step.ProbeRead? || step.ProbeWrite? {
      ProbeKeepsNet(mode, st, step);
    } else {
      NetSame(mode, st, step);
    }
  }

  lemma NetSame(mode: Mode, st: State, step: Step)
    requires AddressInv(st) && RegisterInv(st) && NetInv(mode, st) && Enabled(mode, st, step)
    requires LeavesNet(step) || step.WriteBridge?
    requires Distinct(Apply(mode, st, step))
    ensures NetInv(mode, Apply(mode, st, step))
  {
    var st' := Apply(mode, st, step);
    if step.WriteBridge? {
      WriteKeepsLive(mode, st, step);
    } else {
      NetUntouched(mode, st, step);
    }
    forall s, ip | Holds(st'.net.balancers, s, ip) ensures exists u :: Live(st', u, s, ip) {
      var u :| Live(st, u, s, ip);
      assert Live(st', u, s, ip);
    }
  }

  /** A probe writes what it has found, at once or later, and touches nothing else. */
  lemma ProbeEffect(mode: Mode, st: State, step: Step)
    requires Enabled(mode, st, step) && (step.ProbeWhole? || step.ProbeRead? || step.ProbeWrite?)
    ensures var st' := Apply(mode, st, step);
            && st'.net == st.net.(health := if step.ProbeRead? then st.net.health else st.net.health[step.ip := step.healthy])
            && st' == st.(net := st'.net, probing := st'.probing)
            && st'.probing == (if step.ProbeRead? then st.probing + {step.ip}
                               else if step.ProbeWrite? then st.probing - {step.ip} else st.probing)
  {
  }

  lemma ProbeKeepsNet(mode: Mode, st: State, step: Step)
    requires NetInv(mode, st) && Enabled(mode, st, step)
    requires step.ProbeWhole? || step.ProbeRead? || step.ProbeWrite?
    ensures NetInv(mode, Apply(mode, st, step))
  {
    ProbeEffect(mode, st, step);
    var st' := Apply(mode, st, step);
    assert forall u, s, ip :: Live(st', u, s, ip) <==> Live(st, u, s, ip);
    forall s, ip | Holds(st'.net.balancers, s, ip) ensures exists u :: Live(st', u, s, ip) {
      var u :| Live(st, u, s, ip);
      assert Live(st', u, s, ip);
    }
  }

  lemma InvKept(base: seq<Iface>, mode: Mode, st: State, step: Step)
    requires Inv(base, mode, st) && Enabled(mode, st, step)
    ensures Inv(base, mode, Apply(mode, st, step))
  {
    BaseKept(base, mode, st, step);
    if mode.atomicClaims {
      LoggedKept(mode, st, step);
      AloneKept(mode, st, step);
      NetKept(mode, st, step);
    }
  }

  lemma {:induction false} InvOverRuns(base: seq<Iface>, mode: Mode, st: State, steps: seq<Step>)
    requires Inv(base, mode, st) && Exec(mode, st, steps).Some?
    ensures Inv(base, mode, Exec(mode, st, steps).value)
    decreases |steps|
  {
    if steps != [] {
      InvKept(base, mode, st, steps[0]);
      InvOverRuns(base, mode, Apply(mode, st, steps[0]), steps[1..]);
    }
  }

  lemma ReachableInv(bridge: seq<Iface>, mode: Mode, st: State)
    requires Reachable(mode, bridge, st)
    ensures Inv(bridge, mode, st)
  {
    var steps :| Exec(mode, Initial(bridge), steps) == Some(st);
    InvInitially(bridge, mode);
    InvOverRuns(bridge, mode, Initial(bridge), steps);
  }

  lemma InvInitially(bridge: seq<Iface>, mode: Mode)
    ensures Inv(bridge, mode, Initial(bridge))
  {
    assert NetInv(mode, Initial(bridge));
  }

  // ---------------------------------------------------------------- the registry and the machines

  /**
    In every reachable state a service's balancer lists exactly the addresses of its calls that are
    registered and not yet given to DeleteServiceIP, each once, for one call each, and in no other
    service's balancer. The counter and the health table agree with that. A call whose Start failed
    counts, although it has no machine.
   */
  lemma BalancersHoldLiveMachines(mode: Mode, bridge: seq<Iface>, st: State)
    requires mode.atomicClaims && Reachable(mode, bridge, st)
    ensures forall s :: NoDup(IPsOf(st.net, s))
    ensures forall s, ip :: ip in IPsOf(st.net, s) <==> exists u :: Live(st, u, s, ip)
    ensures forall s, r, ip :: ip in IPsOf(st.net, s) && ip in IPsOf(st.net, r) ==> s == r
    ensures forall u, v, s, r, ip :: Live(st, u, s, ip) && Live(st, v, r, ip) ==> u == v
    ensures st.net.count == Wrap(Total(st.net.balancers))
    ensures forall s, ip :: ip in IPsOf(st.net, s) ==> ip in st.net.health
    ensures mode.atomicProbes ==> forall ip :: ip in st.net.health <==> exists s :: Holds(st.net.balancers, s, ip)
  {
    ReachableInv(bridge, mode, st);
    assert forall s, ip :: ip in IPsOf(st.net, s) <==> Holds(st.net.balancers, s, ip);
    forall s, ip | ip in IPsOf(st.net, s) ensures ip in st.net.health {
      assert Holds(st.net.balancers, s, ip);
      assert Listed(st.net.balancers, ip);
    }
    assert mode.atomicProbes ==> KeysAgree(st.net);
  }

  /**
    With atomic probes the prober never divides by zero and always sweeps in less than five minutes,
    as long as the health table fits the counter; at the one size that does not work, it divides by zero.
   */
  lemma ReachableSweepFits(mode: Mode, bridge: seq<Iface>, st: State)
    requires mode.atomicClaims && mode.atomicProbes && Reachable(mode, bridge, st) && |st.net.health| < TWO64
    ensures st.net.count == |st.net.health|
    ensures Delay(st.net.count).Some? <==> |st.net.health| != TWO64 - 1
    ensures |st.net.health| != TWO64 - 1 ==> InTime(|st.net.health|, Delay(st.net.count))
  {
    ReachableInv(bridge, mode, st);
    AgreedSweepFits(st.net);
  }

  /** DeleteServiceIP is called at most once per machine, and a machine it was called for is never Running in anyone else's hands. */
  lemma DeletedAtMostOnce(mode: Mode, bridge: seq<Iface>, st: State)
    requires mode.atomicClaims && Reachable(mode, bridge, st)
    ensures NoDup(st.log)
    ensures forall u :: u in st.log && RunningSomewhere(st, u) ==> Is(st, Checker, Stopping(u))
  {
    ReachableInv(bridge, mode, st);
  }

  /**
    What the assumption behind Deregister is worth: for a goroutine about to delete the address of a
    machine, the call neither panics nor miscounts exactly when the address has been registered.
   */
  lemma DeregisterSafeIffRegistered(mode: Mode, bridge: seq<Iface>, st: State, t: Tid, u: Uid)
    requires mode.atomicClaims && Reachable(mode, bridge, st)
    requires Is(st, t, Destroying(u)) && u in st.interfaces
    ensures u in st.registered <==> Dereg(st, u).Some? && CountAgrees(Dereg(st, u).value)
  {
    ReachableInv(bridge, mode, st);
    var service, ip := st.calls[u].service, st.interfaces[u];
    assert HasTarget(st, t, u);
    if u in st.registered {
      assert Live(st, u, service, ip);
      DelKeepsAgreement(st.net, service, ip);
    } else {
      assert forall v :: Live(st, v, service, ip) ==> v == u;
      DelOfAbsentBreaks(st.net, service, ip);
    }
  }

  // ---------------------------------------------------------------- addresses without a machine

  /** The call has failed, but its address has been registered. */
  ghost predicate Leaked(st: State, u: Uid, service: string, ip: IP) {
    u in st.calls && st.calls[u] == Call(service, Failed) && u in st.registered && u in st.ips && st.ips[u] == ip
  }

  lemma LeakedStep(mode: Mode, st: State, step: Step, u: Uid, service: string, ip: IP)
    requires Leaked(st, u, service, ip) && Enabled(mode, st, step)
    ensures Leaked(Apply(mode, st, step), u, service, ip)
  {
    if ByCall(step) {
      LeakedStepByCall(mode, st, step, u, service, ip);
    } else {
      LeakedStepOther(mode, st, step, u, service, ip);
    }
  }

  lemma LeakedStepByCall(mode: Mode, st: State, step: Step, u: Uid, service: string, ip: IP)
    requires Leaked(st, u, service, ip) && Enabled(mode, st, step)
    requires ByCall(step)
    ensures Leaked(Apply(mode, st, step), u, service, ip)
  {
  }

  lemma LeakedStepOther(mode: Mode, st: State, step: Step, u: Uid, service: string, ip: IP)
    requires Leaked(st, u, service, ip) && Enabled(mode, st, step)
    requires !ByCall(step)
    ensures Leaked(Apply(mode, st, step), u, service, ip)
  {
  }

  lemma {:induction false} LeakedForever(mode: Mode, st: State, steps: seq<Step>, u: Uid, service: string, ip: IP)
    requires Leaked(st, u, service, ip) && Exec(mode, st, steps).Some?
    ensures Leaked(Exec(mode, st, steps).value, u, service, ip)
    decreases |steps|
  {
    if steps != [] {
      LeakedStep(mode, st, steps[0], u, service, ip);
      LeakedForever(mode, Apply(mode, st, steps[0]), steps[1..], u, service, ip);
    }
  }

  lemma LeakBegins(mode: Mode, st: State, u: Uid, healthy: bool) returns (failed: State, after: State)
    requires At(st, u, Created) && u in st.pending && u in st.ips
    ensures Enabled(mode, st, FailStart(u)) && failed == Apply(mode, st, FailStart(u))
    ensures Enabled(mode, failed, Register(u, healthy)) && after == Apply(mode, failed, Register(u, healthy))
    ensures Exec(mode, st, [FailStart(u), Register(u, healthy)]) == Some(after)
    ensures Leaked(after, u, st.calls[u].service, st.ips[u])
  {
    failed := Apply(mode, st, FailStart(u));
    after := Apply(mode, failed, Register(u, healthy));
    ExecTwo(mode, st, FailStart(u), Register(u, healthy), failed);
  }

  lemma LeakShows(mode: Mode, st: State, u: Uid, service: string, ip: IP)
    requires LogInv(st) && InstancesInv(st) && NetInv(mode, st) && Leaked(st, u, service, ip)
    ensures ip in IPsOf(st.net, service) && u !in st.instances
  {
    assert Live(st, u, service, ip);
    assert Holds(st.net.balancers, service, ip);
  }

  /**
    The registration goroutine does not know how the call ends: when Start fails and the address is
    registered all the same, every later balancer lists the address, and no machine has it.
   */
  lemma FailedStartLeaksAddress(base: seq<Iface>, mode: Mode, st: State, u: Uid, healthy: bool, steps: seq<Step>)
    requires mode.atomicClaims && Inv(base, mode, st) && At(st, u, Created) && u in st.pending
    ensures Exec(mode, st, [FailStart(u), Register(u, healthy)]).Some?
    ensures var after := Exec(mode, st, [FailStart(u), Register(u, healthy)]).value;
            Exec(mode, after, steps).Some? ==>
              && st.ips[u] in IPsOf(Exec(mode, after, steps).value.net, st.calls[u].service)
              && u !in Exec(mode, after, steps).value.instances
  {
    var failed, after := LeakBegins(mode, st, u, healthy);
    InvKept(base, mode, st, FailStart(u));
    InvKept(base, mode, failed, Register(u, healthy));
    if Exec(mode, after, steps).Some? {
      InvOverRuns(base, mode, after, steps);
      LeakedForever(mode, after, steps, u, st.calls[u].service, st.ips[u]);
      LeakShows(mode, Exec(mode, after, steps).value, u, st.calls[u].service, st.ips[u]);
    }
  }

  // ---------------------------------------------------------------- the bridge

  lemma HasInterface(base: seq<Iface>, st: State, u: Uid)
    requires BridgeHolds(base, st) && u in st.ips
    ensures exists i :: |base| <= i < |st.bridge| && st.bridge[i] == Iface(u, st.ips[u])
  {
    var i :| |base| <= i && Serves(st, i, u);
    assert st.bridge[i] == Iface(u, st.ips[u]);
  }

  /**
    At most one call is between Lock and Unlock of the bridge lock, and no interface is ever lost: the
    bridge is what it was at the start and then one interface per call that completed Update.
   */
  lemma BridgeLosesNothing(mode: Mode, bridge: seq<Iface>, st: State)
    requires Reachable(mode, bridge, st)
    ensures forall u, v :: u in st.calls && v in st.calls && InCritical(st.calls[u].pc) && InCritical(st.calls[v].pc) ==> u == v
    ensures bridge <= st.bridge
    ensures |st.bridge| == |bridge| + |st.ips|
    ensures forall u :: u in st.ips ==> exists i :: |bridge| <= i < |st.bridge| && st.bridge[i] == Iface(u, st.ips[u])
    ensures forall i, j :: |bridge| <= i < j < |st.bridge| ==> st.bridge[i].uid != st.bridge[j].uid
  {
    ReachableInv(bridge, mode, st);
    forall u | u in st.ips ensures exists i :: |bridge| <= i < |st.bridge| && st.bridge[i] == Iface(u, st.ips[u]) {
      HasInterface(bridge, st, u);
    }
    CountTail(bridge, st);
  }

  /** The UIDs of a list of interfaces, in order. */
  function UidsOf(interfaces: seq<Iface>): seq<Uid> {
    if interfaces == [] then [] else [interfaces[0].uid] + UidsOf(interfaces[1..])
  }

  lemma {:induction false} UidsAt(interfaces: seq<Iface>)
    ensures |UidsOf(interfaces)| == |interfaces|
    ensures forall i :: 0 <= i < |interfaces| ==> UidsOf(interfaces)[i] == interfaces[i].uid
  {
    if interfaces != [] {
      UidsAt(interfaces[1..]);
    }
  }

  /** Interface `i` of the bridge is of a call that completed Update, and no other one is. */
  lemma TailUid(base: seq<Iface>, st: State, uids: seq<Uid>, i: nat)
    requires BridgeHolds(base, st) && |base| + |uids| == |st.bridge| && i < |uids|
    requires forall k :: 0 <= k < |uids| ==> uids[k] == st.bridge[|base| + k].uid
    ensures uids[i] in st.ips && forall k :: 0 <= k < i ==> uids[k] != uids[i]
  {
    assert Serves(st, |base| + i, st.bridge[|base| + i].uid);
  }

  lemma UidInTail(base: seq<Iface>, st: State, uids: seq<Uid>, u: Uid)
    requires BridgeHolds(base, st) && |base| + |uids| == |st.bridge| && u in st.ips
    requires forall k :: 0 <= k < |uids| ==> uids[k] == st.bridge[|base| + k].uid
    ensures u in uids
  {
    var i :| |base| <= i && Serves(st, i, u);
    assert uids[i - |base|] == u;
  }

  /** The part of the bridge behind `base` lists the UIDs of the calls that completed Update, each once. */
  lemma TailUids(base: seq<Iface>, st: State, uids: seq<Uid>)
    requires BridgeHolds(base, st) && |base| + |uids| == |st.bridge|
    requires forall k :: 0 <= k < |uids| ==> uids[k] == st.bridge[|base| + k].uid
    ensures NoDup(uids) && forall u :: u in uids <==> u in st.ips
  {
    forall i, j | 0 <= i < j < |uids| ensures uids[i] != uids[j] {
      TailUid(base, st, uids, j);
    }
    forall u ensures u in uids <==> u in st.ips {
      if u in uids {
        var i :| 0 <= i < |uids| && uids[i] == u;
        TailUid(base, st, uids, i);
      } else if u in st.ips {
        UidInTail(base, st, uids, u);
      }
    }
  }

  lemma CountTail(base: seq<Iface>, st: State)
    requires BridgeHolds(base, st)
    ensures |st.bridge| == |base| + |st.ips|
  {
    var uids := UidsOf(st.bridge[|base|..]);
    UidsAt(st.bridge[|base|..]);
    TailUids(base, st, uids);
    NoDupSize(uids, st.ips.Keys);
  }

  lemma FrozenStep(mode: Mode, st: State, step: Step, u: Uid)
    requires CriticalInv(st) && st.bridgeLock == Some(u) && At(st, u, Failed) && Enabled(mode, st, step)
    ensures var st' := Apply(mode, st, step);
            st'.bridge == st.bridge && st'.ips == st.ips && st'.bridgeLock == Some(u) && At(st', u, Failed)
  {
    if ByCall(step) {
      FrozenStepByCall(mode, st, step, u);
    } else {
      FrozenStepOther(mode, st, step, u);
    }
  }

  lemma FrozenStepByCall(mode: Mode, st: State, step: Step, u: Uid)
    requires CriticalInv(st) && st.bridgeLock == Some(u) && At(st, u, Failed) && Enabled(mode, st, step)
    requires ByCall(step)
    ensures var st' := Apply(mode, st, step);
            st'.bridge == st.bridge && st'.ips == st.ips && st'.bridgeLock == Some(u) && At(st', u, Failed)
  {
  }

  lemma FrozenStepOther(mode: Mode, st: State, step: Step, u: Uid)
    requires CriticalInv(st) && st.bridgeLock == Some(u) && At(st, u, Failed) && Enabled(mode, st, step)
    requires !ByCall(step)
    ensures var st' := Apply(mode, st, step);
            st'.bridge == st.bridge && st'.ips == st.ips && st'.bridgeLock == Some(u) && At(st', u, Failed)
  {
  }

  lemma {:induction false} FrozenForever(mode: Mode, st: State, steps: seq<Step>, u: Uid)
    requires CriticalInv(st) && st.bridgeLock == Some(u) && At(st, u, Failed)
    requires Exec(mode, st, steps).Some?
    ensures var st' := Exec(mode, st, steps).value;
            st'.bridge == st.bridge && st'.ips == st.ips && st'.bridgeLock == Some(u)
    decreases |steps|
  {
    if steps != [] {
      CriticalKept(mode, st, steps[0]);
      FrozenStep(mode, st, steps[0], u);
      FrozenForever(mode, Apply(mode, st, steps[0]), steps[1..], u);
    }
  }

  /**
    A call inside the critical section can return with an error at any point. That keeps the lock, so
    after it the bridge never changes again, and nobody gets an address.
   */
  lemma FailureInsideFreezesTheBridge(mode: Mode, st: State, steps: seq<Step>, u: Uid)
    requires CriticalInv(st) && u in st.calls && InCritical(st.calls[u].pc)
    ensures Enabled(mode, st, FailInside(u))
    ensures Exec(mode, st, [FailInside(u)] + steps).Some? ==>
              var end := Exec(mode, st, [FailInside(u)] + steps).value;
              end.bridge == st.bridge && end.ips == st.ips && end.bridgeLock == Some(u)
  {
    var failed := Apply(mode, st, FailInside(u));
    ExecCons(mode, st, [FailInside(u)] + steps);
    assert ([FailInside(u)] + steps)[1..] == steps;
    CriticalKept(mode, st, FailInside(u));
    if Exec(mode, failed, steps).Some? {
      FrozenForever(mode, failed, steps, u);
    }
  }

  // ---------------------------------------------------------------- calls that fail

  predicate Fails(step: Step, u: Uid) {
    step == FailEarly(u) || step == FailInside(u) || step == FailStart(u)
  }

  lemma FailedStays(mode: Mode, st: State, step: Step, u: Uid)
    requires At(st, u, Failed) && Enabled(mode, st, step)
    ensures At(Apply(mode, st, step), u, Failed)
  {
    if ByCall(step) {
      assert At(Apply(mode, st, step), u, Failed);
    } else {
      assert u in Apply(mode, st, step).calls && Apply(mode, st, step).calls[u] == st.calls[u];
    }
  }

  lemma {:induction false} FailedForGood(base: seq<Iface>, mode: Mode, st: State, steps: seq<Step>, u: Uid)
    requires Base(st) && BridgeHolds(base, st) && At(st, u, Failed) && Exec(mode, st, steps).Some?
    ensures At(Exec(mode, st, steps).value, u, Failed)
    ensures u !in Exec(mode, st, steps).value.instances && u !in Exec(mode, st, steps).value.interfaces
    decreases |steps|
  {
    if steps != [] {
      BaseKept(base, mode, st, steps[0]);
      FailedStays(mode, st, steps[0], u);
      FailedForGood(base, mode, Apply(mode, st, steps[0]), steps[1..], u);
    }
  }

  /** A call that returns with an error, wherever that is, never has a machine in either map. */
  lemma FailedCallHasNoMachine(base: seq<Iface>, mode: Mode, st: State, step: Step, steps: seq<Step>, u: Uid)
    requires Base(st) && BridgeHolds(base, st) && Fails(step, u) && Enabled(mode, st, step)
    ensures Exec(mode, st, [step] + steps).Some? ==>
              var end := Exec(mode, st, [step] + steps).value;
              u !in end.instances && u !in end.interfaces
  {
    ExecCons(mode, st, [step] + steps);
    assert ([step] + steps)[1..] == steps;
    BaseKept(base, mode, st, step);
    if Exec(mode, Apply(mode, st, step), steps).Some? {
      FailedForGood(base, mode, Apply(mode, st, step), steps, u);
    }
  }

  // ---------------------------------------------------------------- registrations and probes that come late

  /** A registration can come through at any time after Create, whatever becomes of the call; only it ends the waiting. */
  lemma RegistrationStaysPossible(mode: Mode, st: State, step: Step, u: Uid, healthy: bool)
    requires AddressInv(st) && RegisterInv(st) && u in st.pending && Enabled(mode, st, step)
    ensures Enabled(mode, st, Register(u, healthy))
    ensures u in Apply(mode, st, step).pending || (step.Register? && step.uid == u)
  {
    if ByCall(step) {
      assert u in Apply(mode, st, step).pending;
    }
  }

  /** What a registration adds to the tables. */
  lemma RegistrationEffect(mode: Mode, st: State, u: Uid, healthy: bool)
    requires Enabled(mode, st, Register(u, healthy))
    ensures var st', service, ip := Apply(mode, st, Register(u, healthy)), st.calls[u].service, st.ips[u];
            && st'.net.health == st.net.health[ip := healthy]
            && st'.net.count == (st.net.count + 1) % 0x1_0000_0000_0000_0000
            && IPsOf(st'.net, service) == IPsOf(st.net, service) + [ip]
            && (forall other :: other != service ==> IPsOf(st'.net, other) == IPsOf(st.net, other))
            && st' == st.(net := st'.net, pending := st.pending - {u}, registered := st.registered + {u})
  {
  }

  /** An entry can be probed at any time, and a probe in two steps with nothing in between is one in one step. */
  lemma EntryCanBeProbed(mode: Mode, st: State, ip: IP, healthy: bool)
    requires ip in st.net.health && ip !in st.probing
    ensures var end := st.(net := st.net.(health := st.net.health[ip := healthy]));
            && Exec(mode, st, [ProbeWhole(ip, healthy)]) == Some(end)
            && (!mode.atomicProbes ==> Exec(mode, st, [ProbeRead(ip), ProbeWrite(ip, healthy)]) == Some(end))
  {
    ExecCons(mode, st, [ProbeWhole(ip, healthy)]);
    if !mode.atomicProbes {
      var s1 := Apply(mode, st, ProbeRead(ip));
      assert s1.probing - {ip} == st.probing;
      ExecTwo(mode, st, ProbeRead(ip), ProbeWrite(ip, healthy), s1);
    }
  }

  lemma LateProbeRuns(mode: Mode, st: State, t: Tid, u: Uid, ip: IP, healthy: bool)
    requires !mode.atomicProbes && Is(st, t, Destroying(u)) && ip in st.net.health && Enabled(mode, st, Deregister(t))
    ensures var end := Exec(mode, st, [ProbeRead(ip), Deregister(t), ProbeWrite(ip, healthy)]);
            end.Some? && end.value.net == Probe(Dereg(st, u).value, ip, healthy)
  {
    var s1 := Apply(mode, st, ProbeRead(ip));
    assert s1 == st.(probing := st.probing + {ip});
    var s2 := Apply(mode, s1, Deregister(t));
    assert s2.net == Dereg(st, u).value && s2.probing == s1.probing;
    ExecThree(mode, st, ProbeRead(ip), Deregister(t), ProbeWrite(ip, healthy), s1, s2);
  }

  /**
    A probe that has read an entry before its address is deleted writes the entry back afterwards: the
    health table then has an address that no balancer lists.
   */
  lemma LateProbeRevivesEntry(mode: Mode, st: State, t: Tid, u: Uid, healthy: bool)
    requires !mode.atomicProbes && NetInv(mode, st) && InterfacesInv(st) && Is(st, t, Destroying(u)) && u !in st.log
    requires Enabled(mode, st, Deregister(t))
    ensures var ip := st.interfaces[u];
            var end := Exec(mode, st, [ProbeRead(ip), Deregister(t), ProbeWrite(ip, healthy)]);
            && end.Some? && ip in end.value.net.health && end.value.net.health[ip] == healthy
            && !Listed(end.value.net.balancers, ip)
  {
    var ip, service := st.interfaces[u], st.calls[u].service;
    assert Live(st, u, service, ip);
    assert Holds(st.net.balancers, service, ip) && Listed(st.net.balancers, ip);
    DelKeepsAgreement(st.net, service, ip);
    LateProbeRuns(mode, st, t, u, ip, healthy);
  }
}
