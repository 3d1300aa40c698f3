/** What ScaleMachinesTo does to the number of running machines, over every schedule of its workers. */
module Scaling {
  import opened Common
  import opened Lifecycle
  import opened LifecycleInv
  import opened Safety

  /** The running scale operation spawns clones; otherwise it deletes machines, or does nothing. */
  predicate Up(st: State) {
    st.holder.Scaling? && st.holder.seen < st.holder.target
  }

  predicate Down(st: State) {
    st.holder.Scaling? && st.holder.target <= st.holder.seen
  }

  /** The workers that have not marked a machine yet. */
  function Unmarked(st: State): set<Tid> {
    set t | t in st.tasks && (st.tasks[t].Spawned? || st.tasks[t].Selected?)
  }

  /** Cloning workers clone for the operation's service, each its own machine, and only when scaling up. */
  ghost predicate ShapeInv(st: State) {
    && (forall t :: t in st.tasks && Up(st) ==> st.tasks[t].Spawned? || st.tasks[t].Cloning? || st.tasks[t].Finished?)
    && (forall t, u :: Is(st, t, Cloning(u)) ==>
          Up(st) && u in st.calls && st.calls[u].service == st.holder.service)
    && (forall t, r, u :: Is(st, t, Cloning(u)) && Is(st, r, Cloning(u)) ==> t == r)
  }

  lemma ShapeKept(mode: Mode, st: State, step: Step)
    requires ShapeInv(st) && LockInv(st) && Enabled(mode, st, step)
    ensures ShapeInv(Apply(mode, st, step))
  {
    if ByCall(step) {
      CallsLeaveTasks(mode, st, step);
      assert forall t, u :: Is(Apply(mode, st, step), t, Cloning(u)) <==> Is(st, t, Cloning(u));
      forall t, u | Is(st, t, Cloning(u)) ensures u in Apply(mode, st, step).calls && Apply(mode, st, step).calls[u].service == st.holder.service {
        CallKept(mode, st, step, u);
      }
    } else {
      ShapeKeptOther(mode, st, step);
    }
  }

  lemma ShapeKeptOther(mode: Mode, st: State, step: Step)
    requires ShapeInv(st) && LockInv(st) && Enabled(mode, st, step) && !ByCall(step)
    ensures ShapeInv(Apply(mode, st, step))
  {
    var st' := Apply(mode, st, step);
    forall t, u | Is(st', t, Cloning(u))
      ensures Is(st, t, Cloning(u)) || (step.Clone? && t == Worker(step.w) && u == step.uid)
      ensures Up(st') && u in st'.calls && st'.calls[u].service == st'.holder.service
    {
    }
    forall t | t in st'.tasks && Up(st') ensures st'.tasks[t].Spawned? || st'.tasks[t].Cloning? || st'.tasks[t].Finished? {
    }
  }

  /** While healthChecklock is held for it, a scale operation has at least this many running machines. */
  ghost predicate FloorInv(st: State) {
    && (Up(st) ==> Running(st, st.holder.service) >= st.holder.seen)
    && (Down(st) ==> Running(st, st.holder.service) >= st.holder.target + |Unmarked(st)|)
  }

  lemma {:induction false} SpawnSize(n: nat)
    ensures |Spawn(n)| == n
  {
    if n > 0 {
      SpawnSize(n - 1);
      assert Spawn(n) == Spawn(n - 1)[Worker(n - 1) := Spawned];
    }
  }

  lemma FloorAtStart(mode: Mode, st: State, service: string, target: nat)
    requires Enabled(mode, st, StartScale(service, target))
    ensures FloorInv(Apply(mode, st, StartScale(service, target)))
  {
    var st' := Apply(mode, st, StartScale(service, target));
    var n := if st'.holder.seen < target then target - st'.holder.seen else st'.holder.seen - target;
    SpawnSize(n);
    assert Unmarked(st') == st'.tasks.Keys;
    assert RunningSet(st', service) == RunningSet(st, service);
  }

  /** During a scale operation, only a worker's mark takes a machine of the service out of Running. */
  lemma OnlyMarksEndRunning(mode: Mode, st: State, step: Step, service: string)
    requires InstancesInv(st) && LockInv(st) && MarkedInv(st) && Enabled(mode, st, step) && st.holder.Scaling?
    ensures var st' := Apply(mode, st, step);
            if step.Mark? then
              RunningSet(st, service) - {st.tasks[Worker(step.w)].uid} <= RunningSet(st', service)
            else RunningSet(st, service) <= RunningSet(st', service)
  {
    var st' := Apply(mode, st, step);
    forall u | IsRunning(st, service, u) ensures IsRunning(st', service, u) || (step.Mark? && u == st.tasks[Worker(step.w)].uid) {
      assert RunningSomewhere(st, u);
      ChangedInHand(mode, st, step, u);
      assert Actor(step).Some? ==> Actor(step).value == Checker || Actor(step).value == Worker(Actor(step).value.index);
    }
  }

  lemma MarksCountDown(mode: Mode, st: State, step: Step)
    requires Enabled(mode, st, step) && st.holder.Scaling? && Apply(mode, st, step).holder.Scaling?
    ensures var st' := Apply(mode, st, step);
            && Unmarked(st') <= Unmarked(st)
            && (step.Mark? ==> Worker(step.w) in Unmarked(st) && Unmarked(st') <= Unmarked(st) - {Worker(step.w)})
  {
    if ByCall(step) {
      CallsLeaveTasks(mode, st, step);
    } else {
      MarksCountDownOther(mode, st, step);
    }
  }

  lemma MarksCountDownOther(mode: Mode, st: State, step: Step)
    requires Enabled(mode, st, step) && st.holder.Scaling? && Apply(mode, st, step).holder.Scaling? && !ByCall(step)
    ensures var st' := Apply(mode, st, step);
            && Unmarked(st') <= Unmarked(st)
            && (step.Mark? ==> Worker(step.w) in Unmarked(st) && Unmarked(st') <= Unmarked(st) - {Worker(step.w)})
  {
  }

  lemma FloorKept(mode: Mode, st: State, step: Step)
    requires InstancesInv(st) && LockInv(st) && MarkedInv(st) && ShapeInv(st) && FloorInv(st) && Enabled(mode, st, step)
    ensures FloorInv(Apply(mode, st, step))
  {
    var st' := Apply(mode, st, step);
    if step.StartScale? {
      FloorAtStart(mode, st, step.service, step.target);
    } else if st.holder.Scaling? && st'.holder.Scaling? {
      OnlyMarksEndRunning(mode, st, step, st.holder.service);
      MarksCountDown(mode, st, step);
      if step.Mark? {
        FloorMarked(st, st', Worker(step.w), st.tasks[Worker(step.w)].uid);
      } else {
        FloorUnmarked(st, st');
      }
    }
  }

  /** A mark takes away one machine and one worker that has yet to mark. */
  lemma FloorMarked(st: State, st': State, t: Tid, u: Uid)
    requires FloorInv(st) && Down(st) && st'.holder == st.holder
    requires RunningSet(st, st.holder.service) - {u} <= RunningSet(st', st.holder.service)
    requires t in Unmarked(st) && Unmarked(st') <= Unmarked(st) - {t}
    ensures FloorInv(st')
  {
    SubsetSize(RunningSet(st, st.holder.service) - {u}, RunningSet(st', st.holder.service));
    SubsetSize(Unmarked(st'), Unmarked(st) - {t});
  }

  lemma FloorUnmarked(st: State, st': State)
    requires FloorInv(st) && st.holder.Scaling? && st'.holder == st.holder
    requires RunningSet(st, st.holder.service) <= RunningSet(st', st.holder.service) && Unmarked(st') <= Unmarked(st)
    ensures FloorInv(st')
  {
    SubsetSize(RunningSet(st, st.holder.service), RunningSet(st', st.holder.service));
    SubsetSize(Unmarked(st'), Unmarked(st));
  }

  lemma {:induction false} FloorOverRuns(base: seq<Iface>, mode: Mode, st: State, steps: seq<Step>)
    requires Base(st) && BridgeHolds(base, st) && ShapeInv(st) && FloorInv(st) && Exec(mode, st, steps).Some?
    ensures ShapeInv(Exec(mode, st, steps).value) && FloorInv(Exec(mode, st, steps).value)
    decreases |steps|
  {
    if steps != [] {
      BaseKept(base, mode, st, steps[0]);
      ShapeKept(mode, st, steps[0]);
      FloorKept(mode, st, steps[0]);
      FloorOverRuns(base, mode, Apply(mode, st, steps[0]), steps[1..]);
    }
  }

  lemma ReachableFloor(mode: Mode, bridge: seq<Iface>, st: State)
    requires Reachable(mode, bridge, st)
    ensures ShapeInv(st) && FloorInv(st)
  {
    var steps :| Exec(mode, Initial(bridge), steps) == Some(st);
    InvInitially(bridge, mode);
    FloorOverRuns(bridge, mode, Initial(bridge), steps);
  }

  /**
    For every granularity and every interleaving: while a scale operation holds healthChecklock, the
    service never has fewer running machines than the smaller of what was counted and what was asked for.
   */
  lemma NeverBelowTarget(mode: Mode, bridge: seq<Iface>, st: State)
    requires Reachable(mode, bridge, st) && st.holder.Scaling?
    ensures Running(st, st.holder.service) >= if st.holder.seen < st.holder.target then st.holder.seen else st.holder.target
  {
    ReachableFloor(mode, bridge, st);
  }

  /**
    Workers always find a machine: a clone fails to find one only if none was running when the
    operation started, and a deletion never fails to find one.
   */
  lemma WorkersFindMachines(mode: Mode, bridge: seq<Iface>, st: State, w: nat)
    requires Reachable(mode, bridge, st)
    ensures Enabled(mode, st, CloneNothing(w)) ==> st.holder.seen == 0
    ensures !Enabled(mode, st, SelectNothing(w))
  {
    ReachableFloor(mode, bridge, st);
    if Down(st) && Is(st, Worker(w), Spawned) {
      assert Worker(w) in Unmarked(st);
    }
  }
}
