/** When a service can still get a running machine, although nobody asks for one any more. */
module Threats {
  import opened Common
  import opened Lifecycle
  import opened LifecycleInv
  import opened Safety
  import opened Conservation
  import opened SetUp

  /** A call has returned with an error from inside the critical section: nobody gets the bridge lock any more. */
  predicate Frozen(st: State) {
    st.bridgeLock.Some? && At(st, st.bridgeLock.value, Failed)
  }

  /** The call can still store a machine: it is behind the bridge lock, has it, or can get it. */
  predicate CanStore(st: State, u: Uid, service: string) {
    && u in st.calls && st.calls[u].service == service && PreStore(st.calls[u].pc)
    && (st.calls[u].pc.Preparing? ==> !Frozen(st))
  }

  ghost predicate Threatened(st: State, service: string) {
    exists u :: IsRunning(st, service, u) || CanStore(st, u, service)
  }

  /** The bridge lock is held by a call that is inside, or has failed inside. */
  ghost predicate LockHeld(st: State) {
    CriticalInv(st) && (st.bridgeLock.Some? ==> HoldsLock(st, st.bridgeLock.value))
  }

  predicate HoldsLock(st: State, u: Uid) {
    u in st.calls && (InCritical(st.calls[u].pc) || st.calls[u].pc.Failed?)
  }

  lemma LockHeldKept(mode: Mode, st: State, step: Step)
    requires LockHeld(st) && Enabled(mode, st, step)
    ensures LockHeld(Apply(mode, st, step))
  {
    CriticalKept(mode, st, step);
    var st' := Apply(mode, st, step);
    if st'.bridgeLock.Some? {
      HolderKept(mode, st, step, st'.bridgeLock.value);
    }
  }

  lemma HolderKept(mode: Mode, st: State, step: Step, u: Uid)
    requires LockHeld(st) && Enabled(mode, st, step) && Apply(mode, st, step).bridgeLock == Some(u)
    ensures HoldsLock(Apply(mode, st, step), u)
  {
    if !ByCall(step) {
      assert st.bridgeLock == Some(u) && Apply(mode, st, step).calls[u] == st.calls[u];
    }
  }

  // ---------------------------------------------------------------- without a threat there will be none

  lemma FrozenKept(mode: Mode, st: State, step: Step)
    requires CriticalInv(st) && Frozen(st) && Enabled(mode, st, step)
    ensures Frozen(Apply(mode, st, step))
  {
    FrozenStep(mode, st, step, st.bridgeLock.value);
  }

  lemma RunsBefore(mode: Mode, st: State, step: Step, service: string, u: Uid)
    requires Enabled(mode, st, step) && IsRunning(Apply(mode, st, step), service, u)
    ensures IsRunning(st, service, u) || (step == StoreInstance(u, true) && CanStore(st, u, service))
  {
    if u in st.instances && Apply(mode, st, step).instances[u] == st.instances[u] {
      assert IsRunning(st, service, u);
    } else {
      assert step == StoreInstance(u, true);
    }
  }

  /** A call that can store a machine after the step could do so before it, or has just begun. */
  lemma StoresBefore(mode: Mode, st: State, step: Step, service: string, u: Uid)
    requires Enabled(mode, st, step) && u in Apply(mode, st, step).calls
    requires Apply(mode, st, step).calls[u].service == service && PreStore(Apply(mode, st, step).calls[u].pc)
    ensures || (step == Begin(u, service))
            || (step.Clone? && IsRunning(st, service, step.source))
            || (u in st.calls && st.calls[u].service == service && PreStore(st.calls[u].pc)
                && (st.calls[u].pc.Preparing? ==> Apply(mode, st, step).calls[u].pc.Preparing? || st.bridgeLock.None?))
  {
    if step.Begin? || step.Clone? {
    } else if ByCall(step) {
      assert u in st.calls;
    } else {
      assert Apply(mode, st, step).calls == st.calls;
    }
  }

  /** Only a new call for the service brings a threat that was not there, and not even that one while the bridge is frozen. */
  lemma UnthreatenedKept(mode: Mode, st: State, step: Step, service: string)
    requires CriticalInv(st) && !Threatened(st, service) && Enabled(mode, st, step)
    requires step.Begin? && step.service == service ==> Frozen(st)
    ensures !Threatened(Apply(mode, st, step), service)
  {
    var st' := Apply(mode, st, step);
    if Frozen(st) {
      FrozenKept(mode, st, step);
    }
    forall u ensures !IsRunning(st', service, u) && !CanStore(st', u, service) {
      assert !CanStore(st, u, service);
      if IsRunning(st', service, u) {
        RunsBefore(mode, st, step, service, u);
      }
      if CanStore(st', u, service) {
        StoresBefore(mode, st, step, service, u);
      }
    }
  }

  // ---------------------------------------------------------------- a threat can come true

  function Rank(pc: Pc): nat {
    match pc
    case Preparing => 5
    case Locked => 4
    case Read(_) => 3
    case Updated => 2
    case Created => 1
    case _ => 0
  }

  /** What a call that succeeds does next. */
  function NextStep(st: State, u: Uid, ip: IP): Step
    requires u in st.calls
  {
    match st.calls[u].pc
    case Preparing => TakeBridge(u)
    case Locked => ReadBridge(u)
    case Read(_) => WriteBridge(u, ip)
    case Updated => Create(u)
    case _ => StoreInstance(u, true)
  }

  /** Steps of calls that have begun. */
  ghost predicate OfCalls(steps: seq<Step>) {
    forall i :: 0 <= i < |steps| ==> ByCall(steps[i]) && !steps[i].Begin?
  }

  lemma GoesOn(mode: Mode, st: State, u: Uid, ip: IP)
    requires u in st.calls && PreStore(st.calls[u].pc) && FreshIP(st, ip) && (st.calls[u].pc.Preparing? ==> st.bridgeLock.None?)
    ensures Enabled(mode, st, NextStep(st, u, ip))
    ensures var st' := Apply(mode, st, NextStep(st, u, ip));
            && u in st'.calls && st'.calls[u].service == st.calls[u].service
            && Rank(st'.calls[u].pc) < Rank(st.calls[u].pc) && (st.calls[u].pc.Created? <==> !PreStore(st'.calls[u].pc))
            && (st.calls[u].pc.Created? ==> IsRunning(st', st.calls[u].service, u))
            && (st.calls[u].pc.Updated? ==> st'.bridgeLock.None?)
            && (InCritical(st.calls[u].pc) && !st.calls[u].pc.Updated? ==> InCritical(st'.calls[u].pc))
            && forall v :: v in st.calls && v != u ==> v in st'.calls && st'.calls[v] == st.calls[v]
  {
  }

  lemma {:induction false} Longest(ips: map<Uid, IP>) returns (n: nat)
    ensures forall u :: u in ips ==> |ips[u].text| < n
    decreases |ips|
  {
    if ips == map[] {
      n := 0;
    } else {
      var u :| u in ips;
      var rest := Longest(ips - {u});
      n := if rest > |ips[u].text| then rest else |ips[u].text| + 1;
      assert forall v :: v in ips ==> v == u || (v in ips - {u} && ips[v] == (ips - {u})[v]);
    }
  }

  lemma SomeFreshIP(st: State) returns (ip: IP)
    ensures FreshIP(st, ip)
  {
    var n := Longest(st.ips);
    ip := Address(n);
  }

  /** A call that is not kept out of the bridge can store a running machine. */
  lemma {:induction false} Stores(mode: Mode, st: State, u: Uid) returns (steps: seq<Step>, end: State)
    requires u in st.calls && PreStore(st.calls[u].pc) && (st.calls[u].pc.Preparing? ==> st.bridgeLock.None?)
    ensures Exec(mode, st, steps) == Some(end) && OfCalls(steps) && IsRunning(end, st.calls[u].service, u)
    decreases Rank(st.calls[u].pc)
  {
    var ip := SomeFreshIP(st);
    var step := NextStep(st, u, ip);
    GoesOn(mode, st, u, ip);
    var next := Apply(mode, st, step);
    var rest;
    if st.calls[u].pc.Created? {
      rest, end := [], next;
    } else {
      rest, end := Stores(mode, next, u);
    }
    steps := [step] + rest;
    BeginsWith(mode, st, step, rest);
  }

  /** A call that is inside the critical section can leave it. */
  lemma {:induction false} Releases(mode: Mode, st: State, v: Uid) returns (steps: seq<Step>, end: State)
    requires v in st.calls && InCritical(st.calls[v].pc)
    ensures Exec(mode, st, steps) == Some(end) && OfCalls(steps) && end.bridgeLock.None?
    ensures forall u :: u in st.calls && u != v ==> u in end.calls && end.calls[u] == st.calls[u]
    decreases Rank(st.calls[v].pc)
  {
    var ip := SomeFreshIP(st);
    var step := NextStep(st, v, ip);
    GoesOn(mode, st, v, ip);
    var next := Apply(mode, st, step);
    var rest;
    if st.calls[v].pc.Updated? {
      rest, end := [], next;
    } else {
      rest, end := Releases(mode, next, v);
    }
    steps := [step] + rest;
    BeginsWith(mode, st, step, rest);
  }

  /** If the service is threatened, steps of calls that are there already lead to a running machine. */
  lemma ThreatComesTrue(mode: Mode, st: State, service: string) returns (steps: seq<Step>, end: State, u: Uid)
    requires LockHeld(st) && Threatened(st, service)
    ensures Exec(mode, st, steps) == Some(end) && OfCalls(steps) && IsRunning(end, service, u)
  {
    u :| IsRunning(st, service, u) || CanStore(st, u, service);
    if IsRunning(st, service, u) {
      steps, end := [], st;
    } else if st.calls[u].pc.Preparing? && st.bridgeLock.Some? {
      var first, mid := Releases(mode, st, st.bridgeLock.value);
      var second;
      second, end := Stores(mode, mid, u);
      steps := first + second;
      ExecAppend(mode, st, first, second);
    } else {
      steps, end := Stores(mode, st, u);
    }
  }
}
