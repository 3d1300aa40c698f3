/**
  DeleteMachine as it is written: picking a machine and marking it are two steps, and nothing keeps a
  second worker from picking the same machine in between.
 */
module SplitClaims {
  import opened Common
  import opened InternalController
  import opened Lifecycle
  import opened LifecycleInv
  import opened Safety
  import opened Scaling
  import opened Conservation

  /** The two workers that pick `u`, mark it one after the other, and the first deletion of its address. */
  function Race(service: string, target: nat, u: Uid): seq<Step> {
    [StartScale(service, target), Select(0, u), Select(1, u), Mark(0), Mark(1), Deregister(Worker(0))]
  }

  lemma RaceUpToPicks(mode: Mode, st: State, service: string, target: nat, u: Uid) returns (mid: State)
    requires !mode.atomicClaims && st.holder.Free? && IsRunning(st, service, u)
    requires Running(st, service) >= target + 2
    ensures Exec(mode, st, Race(service, target, u)[..3]) == Some(mid)
    ensures mid.tasks == Spawn(Running(st, service) - target)[Worker(0) := Selected(u)][Worker(1) := Selected(u)]
    ensures mid == st.(holder := Scaling(service, Running(st, service), target), tasks := mid.tasks)
  {
    var s1 := Apply(mode, st, StartScale(service, target));
    assert Is(s1, Worker(0), Spawned) && Is(s1, Worker(1), Spawned) && IsRunning(s1, service, u);
    var s2 := Apply(mode, s1, Select(0, u));
    mid := Apply(mode, s2, Select(1, u));
    ExecThree(mode, st, StartScale(service, target), Select(0, u), Select(1, u), s1, s2);
    assert Race(service, target, u)[..3] == [StartScale(service, target), Select(0, u), Select(1, u)];
  }

  lemma RaceUpToMarks(mode: Mode, st: State, service: string, target: nat, u: Uid) returns (mid: State)
    requires !mode.atomicClaims && st.holder.Free? && IsRunning(st, service, u)
    requires Running(st, service) >= target + 2
    ensures Exec(mode, st, Race(service, target, u)[..5]) == Some(mid)
    ensures Is(mid, Worker(0), Destroying(u)) && Is(mid, Worker(1), Destroying(u)) && mid.holder.Scaling?
    ensures mid.net == st.net && mid.calls == st.calls && mid.interfaces == st.interfaces
    ensures mid.registered == st.registered && mid.log == st.log
    ensures mid.instances == st.instances[u := Machine(service, false)]
    ensures mid.holder == Scaling(service, Running(st, service), target)
    ensures mid.tasks == Spawn(Running(st, service) - target)[Worker(0) := Destroying(u)][Worker(1) := Destroying(u)]
  {
    var steps := Race(service, target, u);
    var s3 := RaceUpToPicks(mode, st, service, target, u);
    assert Worker(0) in Spawn(2) && Worker(1) in Spawn(2);
    ExecSnoc(mode, st, steps[..3], s3, Mark(0));
    assert steps[..4] == steps[..3] + [steps[3]];
    var s4 := Apply(mode, s3, Mark(0));
    ExecSnoc(mode, st, steps[..4], s4, Mark(1));
    assert steps[..5] == steps[..4] + [steps[4]];
    mid := Apply(mode, s4, Mark(1));
    assert mid.tasks == s3.tasks[Worker(0) := Destroying(u)][Worker(1) := Destroying(u)];
  }

  lemma RaceThroughDeletion(mode: Mode, st: State, service: string, target: nat, u: Uid) returns (end: State)
    requires !mode.atomicClaims && NetInv(mode, st) && InstancesInv(st) && InterfacesInv(st) && st.holder.Free?
    requires Running(st, service) >= target + 2
    requires IsRunning(st, service, u) && u in st.interfaces && u in st.registered && u !in st.log
    ensures Exec(mode, st, Race(service, target, u)) == Some(end)
    ensures Is(end, Worker(0), Stopping(u)) && Is(end, Worker(1), Destroying(u))
    ensures end.log == st.log + [u] && end.registered == st.registered && end.interfaces == st.interfaces
    ensures !(Dereg(end, u).Some? && CountAgrees(Dereg(end, u).value))
  {
    var mid := RaceUpToMarks(mode, st, service, target, u);
    var ip := st.interfaces[u];
    assert Live(st, u, service, ip);
    DelKeepsAgreement(st.net, service, ip);
    var step := Deregister(Worker(0));
    end := Apply(mode, mid, step);
    var steps := Race(service, target, u);
    assert steps == steps[..5] + [step];
    ExecAppend(mode, st, steps[..5], [step]);
    ExecCons(mode, mid, [step]);
    DelHolds(st.net, service, ip);
    DelOfAbsentBreaks(end.net, service, ip);
  }

  /**
    Every scale-down by two or more machines can go wrong, from every state in which the service has a
    running machine that is completely set up: two workers get that machine, and after the first has
    deleted its address the second one's DeleteServiceIP either panics or makes the counter wrong.
   */
  lemma ScaleDownByTwoCanBreak(mode: Mode, st: State, service: string, target: nat, u: Uid)
    requires !mode.atomicClaims && NetInv(mode, st) && InstancesInv(st) && InterfacesInv(st) && st.holder.Free?
    requires Running(st, service) >= target + 2
    requires IsRunning(st, service, u) && u in st.interfaces && u in st.registered && u !in st.log
    ensures Exec(mode, st, Race(service, target, u)).Some?
    ensures var end := Exec(mode, st, Race(service, target, u)).value;
            && Is(end, Worker(1), Destroying(u)) && u in end.log && u in end.registered && u in end.interfaces
            && !(Dereg(end, u).Some? && CountAgrees(Dereg(end, u).value))
  {
    var end := RaceThroughDeletion(mode, st, service, target, u);
  }

  // ---------------------------------------------------------------- missing the target

  /** The steps take the scale operation that starts in `st` from its count to the end of its last worker. */
  ghost predicate Completes(mode: Mode, st: State, service: string, target: nat, steps: seq<Step>, end: State)
    requires st.holder.Free?
  {
    && (forall step :: step in steps ==> Meanwhile(step, service))
    && Exec(mode, Apply(mode, st, StartScale(service, target)), steps) == Some(end) && Enabled(mode, end, EndScale)
  }

  /** The first `w` of `n` deleting workers have ended, the others have not begun. */
  ghost predicate Underway(st: State, service: string, w: nat, n: nat) {
    && st.holder.Scaling? && st.holder.target <= st.holder.seen && st.holder.service == service && w <= n
    && st.tasks.Keys == Spawn(n).Keys
    && forall i: nat :: i < n ==> st.tasks[Worker(i)] == if i < w then Finished else Spawned
  }

  /** Worker `w` picks and marks a running machine and then fails to destroy it. */
  lemma OneGivesUp(mode: Mode, st: State, service: string, w: nat, n: nat, u: Uid) returns (end: State)
    requires Underway(st, service, w, n) && w < n && IsRunning(st, service, u)
    ensures Exec(mode, st, [Select(w, u), Mark(w), Abort(Worker(w))]) == Some(end)
    ensures Underway(end, service, w + 1, n) && end.instances == st.instances[u := Machine(service, false)]
  {
    assert Worker(w) in Spawn(n);
    NobodySelected(st, service, w, n);
    end := ClaimAndAbort(mode, st, service, w, u);
  }

  lemma ClaimAndAbort(mode: Mode, st: State, service: string, w: nat, u: Uid) returns (end: State)
    requires st.holder.Scaling? && st.holder.target <= st.holder.seen && st.holder.service == service
    requires Is(st, Worker(w), Spawned) && IsRunning(st, service, u) && forall t :: t in st.tasks ==> !st.tasks[t].Selected?
    ensures Exec(mode, st, [Select(w, u), Mark(w), Abort(Worker(w))]) == Some(end)
    ensures end == st.(tasks := st.tasks[Worker(w) := Finished], instances := st.instances[u := Machine(service, false)])
  {
    var s1 := Apply(mode, st, Select(w, u));
    var s2 := Apply(mode, s1, Mark(w));
    end := Apply(mode, s2, Abort(Worker(w)));
    assert s1 == st.(tasks := st.tasks[Worker(w) := Selected(u)]);
    assert end.tasks == st.tasks[Worker(w) := Finished];
    ExecThree(mode, st, Select(w, u), Mark(w), Abort(Worker(w)), s1, s2);
  }

  lemma NobodySelected(st: State, service: string, w: nat, n: nat)
    requires Underway(st, service, w, n)
    ensures forall t :: t in st.tasks ==> st.tasks[t].Finished? || st.tasks[t].Spawned?
    ensures w == n ==> forall t :: t in st.tasks ==> st.tasks[t].Finished?
  {
    forall t | t in st.tasks ensures t.Worker? && t.index < n {
      assert t in Spawn(n);
    }
  }

  lemma SomeRunning(st: State, service: string) returns (u: Uid)
    requires Running(st, service) > 0
    ensures IsRunning(st, service, u)
  {
    assert RunningSet(st, service) != {};
    u :| u in RunningSet(st, service);
  }

  lemma OneLess(before: State, after: State, service: string, u: Uid)
    requires IsRunning(before, service, u) && after.instances == before.instances[u := Machine(service, false)]
    ensures Running(after, service) == Running(before, service) - 1
  {
    assert RunningSet(after, service) == RunningSet(before, service) - {u};
    assert u in RunningSet(before, service);
  }

  /** Steps of workers that delete. */
  predicate ByWorker(step: Step) {
    step.Select? || step.Mark? || step.Abort?
  }

  lemma WorkersGoOn(first: seq<Step>, rest: seq<Step>, service: string)
    requires (forall step :: step in first ==> ByWorker(step)) && forall step :: step in rest ==> ByWorker(step)
    ensures forall step :: step in first + rest ==> ByWorker(step) && Meanwhile(step, service)
  {
  }

  /** The workers that have not begun take one machine each. */
  lemma {:induction false} RestGivesUp(mode: Mode, st: State, service: string, w: nat, n: nat)
    returns (steps: seq<Step>, end: State)
    requires Underway(st, service, w, n) && Running(st, service) >= n - w
    ensures Exec(mode, st, steps) == Some(end) && Enabled(mode, end, EndScale)
    ensures Running(end, service) == Running(st, service) - (n - w)
    ensures forall step :: step in steps ==> ByWorker(step)
    decreases n - w
  {
    NobodySelected(st, service, w, n);
    if w == n {
      steps, end := [], st;
    } else {
      var u := SomeRunning(st, service);
      var mid := OneGivesUp(mode, st, service, w, n, u);
      OneLess(st, mid, service, u);
      var rest;
      rest, end := RestGivesUp(mode, mid, service, w + 1, n);
      var first := [Select(w, u), Mark(w), Abort(Worker(w))];
      steps := first + rest;
      ExecAppend(mode, st, first, rest);
      WorkersGoOn(first, rest, service);
    }
  }

  /** Two workers pick and mark the same machine, and both fail to destroy it. */
  lemma TwoGiveUp(mode: Mode, st: State, service: string, target: nat, u: Uid) returns (end: State)
    requires !mode.atomicClaims && st.holder.Free? && IsRunning(st, service, u) && Running(st, service) >= target + 2
    ensures Enabled(mode, st, StartScale(service, target))
    ensures Exec(mode, Apply(mode, st, StartScale(service, target)), SameMachine(u)) == Some(end)
    ensures Underway(end, service, 2, Running(st, service) - target)
    ensures end.instances == st.instances[u := Machine(service, false)]
  {
    var mid := RaceUpToMarks(mode, st, service, target, u);
    end := BothAbort(mode, mid, u);
    assert SameMachine(u)[4..] == [Abort(Worker(0)), Abort(Worker(1))];
    AfterTheStart(mode, st, service, target, u, mid);
    ExecAppend(mode, Apply(mode, st, StartScale(service, target)), SameMachine(u)[..4], SameMachine(u)[4..]);
    assert SameMachine(u)[..4] + SameMachine(u)[4..] == SameMachine(u);
    TwoAreThrough(end, service, Running(st, service) - target);
  }

  lemma TwoAreThrough(st: State, service: string, n: nat)
    requires st.holder.Scaling? && st.holder.target <= st.holder.seen && st.holder.service == service && n >= 2
    requires exists u: Uid ::
               st.tasks == Spawn(n)[Worker(0) := Destroying(u)][Worker(1) := Destroying(u)][Worker(0) := Finished][Worker(1) := Finished]
    ensures Underway(st, service, 2, n)
  {
    assert forall i: nat :: i < n ==> Worker(i) in Spawn(n);
  }

  lemma AfterTheStart(mode: Mode, st: State, service: string, target: nat, u: Uid, mid: State)
    requires st.holder.Free? && Exec(mode, st, Race(service, target, u)[..5]) == Some(mid)
    ensures Exec(mode, Apply(mode, st, StartScale(service, target)), SameMachine(u)[..4]) == Some(mid)
  {
    assert Race(service, target, u)[..5] == [StartScale(service, target)] + SameMachine(u)[..4];
    ExecCons(mode, st, Race(service, target, u)[..5]);
    assert Race(service, target, u)[..5][1..] == SameMachine(u)[..4];
  }

  function SameMachine(u: Uid): seq<Step> {
    [Select(0, u), Select(1, u), Mark(0), Mark(1), Abort(Worker(0)), Abort(Worker(1))]
  }

  lemma BothAbort(mode: Mode, st: State, u: Uid) returns (end: State)
    requires Is(st, Worker(0), Destroying(u)) && Is(st, Worker(1), Destroying(u))
    ensures Exec(mode, st, [Abort(Worker(0)), Abort(Worker(1))]) == Some(end)
    ensures end == st.(tasks := st.tasks[Worker(0) := Finished][Worker(1) := Finished])
  {
    var s1 := Apply(mode, st, Abort(Worker(0)));
    end := Apply(mode, s1, Abort(Worker(1)));
    ExecTwo(mode, st, Abort(Worker(0)), Abort(Worker(1)), s1);
  }

  /** Every larger drop has a schedule without a crash that ends one machine short of its work. */
  lemma LargeDropMissesTarget(mode: Mode, st: State, service: string, target: nat)
    returns (steps: seq<Step>, end: State)
    requires !mode.atomicClaims && st.holder.Free? && Running(st, service) >= target + 2
    ensures Completes(mode, st, service, target, steps, end) && Running(end, service) == target + 1
    ensures forall step :: step in steps ==> ByWorker(step)
  {
    var u := SomeRunning(st, service);
    var mid := TwoGiveUp(mode, st, service, target, u);
    OneLess(st, mid, service, u);
    var rest;
    rest, end := RestGivesUp(mode, mid, service, 2, Running(st, service) - target);
    steps := SameMachine(u) + rest;
    WorkersGoOn(SameMachine(u), rest, service);
    ExecAppend(mode, Apply(mode, st, StartScale(service, target)), SameMachine(u), rest);
  }

  // ---------------------------------------------------------------- when it cannot go wrong

  /** Every scale operation in the run takes away at most one machine. */
  ghost predicate SmallDrops(mode: Mode, st: State, steps: seq<Step>)
    decreases |steps|
  {
    steps == [] ||
    (Enabled(mode, st, steps[0]) ==>
       && (steps[0].StartScale? ==> Running(st, steps[0].service) <= steps[0].target + 1)
       && SmallDrops(mode, Apply(mode, st, steps[0]), steps[1..]))
  }

  /** At most one worker deletes machines. */
  ghost predicate LoneWorker(st: State) {
    Down(st) ==> st.tasks.Keys <= {Worker(0)}
  }

  lemma DropStep(probes: bool, st: State, step: Step)
    requires LockInv(st) && LoneWorker(st)
    ensures Enabled(Mode(true, probes), st, step) <==> Enabled(Mode(false, probes), st, step)
    ensures Enabled(Mode(false, probes), st, step) ==>
              Apply(Mode(true, probes), st, step) == Apply(Mode(false, probes), st, step)
  {
    assert step.Select? && Enabled(Mode(false, probes), st, step) ==> st.tasks.Keys <= {Worker(step.w)};
  }

  lemma StaysAlone(mode: Mode, st: State, step: Step)
    requires LockInv(st) && LoneWorker(st) && Enabled(mode, st, step)
    requires step.StartScale? ==> Running(st, step.service) <= step.target + 1
    ensures LoneWorker(Apply(mode, st, step))
  {
    if ByCall(step) {
      CallsLeaveTasks(mode, st, step);
    } else {
      StaysAloneOther(mode, st, step);
    }
  }

  lemma StaysAloneOther(mode: Mode, st: State, step: Step)
    requires LockInv(st) && LoneWorker(st) && Enabled(mode, st, step)
    requires step.StartScale? ==> Running(st, step.service) <= step.target + 1
    requires !ByCall(step)
    ensures LoneWorker(Apply(mode, st, step))
  {
  }

  /** Then the picking and marking of machines cannot interleave, whatever the granularity. */
  lemma {:induction false} SmallDropsAreAtomic(probes: bool, st: State, steps: seq<Step>)
    requires LockInv(st) && LoneWorker(st) && SmallDrops(Mode(false, probes), st, steps)
    ensures Exec(Mode(true, probes), st, steps) == Exec(Mode(false, probes), st, steps)
    decreases |steps|
  {
    var split := Mode(false, probes);
    if steps != [] {
      DropStep(probes, st, steps[0]);
      if Enabled(split, st, steps[0]) {
        LockKept(split, st, steps[0]);
        StaysAlone(split, st, steps[0]);
        SmallDropsAreAtomic(probes, Apply(split, st, steps[0]), steps[1..]);
      }
    }
  }

  /**
    The complement of ScaleDownByTwoCanBreak: as long as no scale operation takes away more than one
    machine, split claims keep every machine's address from being deleted twice, in every schedule.
   */
  lemma DropsByOneAreSafe(probes: bool, bridge: seq<Iface>, steps: seq<Step>, st: State)
    requires SmallDrops(Mode(false, probes), Initial(bridge), steps)
    requires Exec(Mode(false, probes), Initial(bridge), steps) == Some(st)
    ensures NoDup(st.log)
    ensures forall s, ip :: ip in IPsOf(st.net, s) <==> exists u :: Live(st, u, s, ip)
    ensures st.net.count == Wrap(Total(st.net.balancers))
  {
    SmallDropsAreAtomic(probes, Initial(bridge), steps);
    DeletedAtMostOnce(Mode(true, probes), bridge, st);
    BalancersHoldLiveMachines(Mode(true, probes), bridge, st);
  }

  /** While a scale operation is under way no other one starts. */
  lemma {:induction false} NoNewDrops(mode: Mode, st: State, steps: seq<Step>)
    requires LockInv(st) && st.holder.Scaling? && forall step :: step in steps ==> Meanwhile(step, st.holder.service)
    ensures SmallDrops(mode, st, steps)
    decreases |steps|
  {
    if steps != [] && Enabled(mode, st, steps[0]) {
      LockKept(mode, st, steps[0]);
      MeanwhileKeepsHolder(mode, st, steps[0]);
      NoNewDrops(mode, Apply(mode, st, steps[0]), steps[1..]);
    }
  }

  /** A scale operation that takes away at most one machine, or adds some, does with split claims what it should. */
  lemma SmallDropReachesTarget(base: seq<Iface>, probes: bool, st: State, service: string, target: nat,
                               steps: seq<Step>, end: State)
    requires Base(st) && BridgeHolds(base, st) && st.holder.Free? && Quiet(st, service) && Running(st, service) <= target + 1
    requires Completes(Mode(false, probes), st, service, target, steps, end)
    ensures Running(end, service) == if Running(st, service) < target then target - |Lost(end)| else target
  {
    var start := Apply(Mode(false, probes), st, StartScale(service, target));
    LockKept(Mode(false, probes), st, StartScale(service, target));
    StaysAlone(Mode(false, probes), st, StartScale(service, target));
    NoNewDrops(Mode(false, probes), start, steps);
    SmallDropsAreAtomic(probes, start, steps);
    ScaleReachesTarget(Mode(true, probes), base, st, service, target, steps, end);
  }

  /**
    The exact condition with split claims, in every state that any run leads to: a scale-down that
    nothing else interferes with ends with exactly the requested number of running machines in every
    schedule if and only if it takes away at most one.
   */
  lemma SplitScaleDownIff(base: seq<Iface>, probes: bool, st: State, service: string, target: nat)
    requires Base(st) && BridgeHolds(base, st) && st.holder.Free? && Quiet(st, service) && target <= Running(st, service)
    ensures (forall steps, end :: Completes(Mode(false, probes), st, service, target, steps, end) ==> Running(end, service) == target)
            <==> Running(st, service) <= target + 1
  {
    if Running(st, service) <= target + 1 {
      forall steps, end | Completes(Mode(false, probes), st, service, target, steps, end)
        ensures Running(end, service) == target
      {
        SmallDropReachesTarget(base, probes, st, service, target, steps, end);
      }
    } else {
      var steps, end := LargeDropMissesTarget(Mode(false, probes), st, service, target);
      assert Completes(Mode(false, probes), st, service, target, steps, end);
    }
  }
}
