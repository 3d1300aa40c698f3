/** The exact number of running machines during and after a scale operation with atomic claims. */
module Conservation {
  import opened Common
  import opened Lifecycle
  import opened LifecycleInv
  import opened Safety
  import opened Scaling

  /** The call has not stored a machine yet, and still can. */
  predicate PreStore(pc: Pc) {
    NoAddress(pc) || pc.Updated? || pc.Created?
  }

  /** Everything that changes the running machines of a service besides its scale operation is done. */
  ghost predicate Quiet(st: State, service: string) {
    forall u :: u in st.calls && st.calls[u].service == service && PreStore(st.calls[u].pc) ==>
                  exists t :: Is(st, t, Cloning(u))
  }

  predicate Waits(st: State, t: Tid) {
    t in st.tasks &&
    match st.tasks[t]
    case Spawned => true
    case Selected(_) => true
    case Cloning(u) => u in st.calls && PreStore(st.calls[u].pc)
    case _ => false
  }

  /** The worker has ended without adding a running machine. */
  predicate Loses(st: State, t: Tid) {
    t in st.tasks && Up(st) &&
    match st.tasks[t]
    case Finished => true
    case Cloning(u) =>
      u in st.calls &&
      (match st.calls[u].pc
       case Failed => true
       case Stored(running) => !running
       case Complete(running) => !running
       case _ => false)
    case _ => false
  }

  /** Workers whose effect on the number of running machines is still to come. */
  function Waiting(st: State): set<Tid> {
    set t | t in st.tasks && Waits(st, t)
  }

  function Lost(st: State): set<Tid> {
    set t | t in st.tasks && Loses(st, t)
  }

  /**
    Running machines, workers still to come and failed clones always add up: to the target when
    scaling up; when scaling down the workers to come are what is still above the target.
   */
  ghost predicate Conserved(st: State) {
    && (Up(st) ==> Running(st, st.holder.service) + |Waiting(st)| + |Lost(st)| == st.holder.target)
    && (Down(st) ==> Running(st, st.holder.service) == st.holder.target + |Waiting(st)|)
  }

  /** Steps that may be taken meanwhile: anything but a new call for the service, or the operation's own end. */
  predicate Meanwhile(step: Step, service: string) {
    !step.EndScale? && (step.Begin? ==> step.service != service)
  }

  /** The call that this step takes to its outcome. */
  function Ends(step: Step): Option<Uid> {
    match step
    case FailEarly(u) => Some(u)
    case FailInside(u) => Some(u)
    case FailStart(u) => Some(u)
    case StoreInstance(u, _) => Some(u)
    case _ => None
  }

  /** The worker that this step takes to its outcome. */
  predicate Settles(st: State, step: Step, t: Tid) {
    || (step.CloneNothing? && t == Worker(step.w))
    || (step.SelectNothing? && t == Worker(step.w))
    || (step.Mark? && t == Worker(step.w))
    || (Ends(step).Some? && Is(st, t, Cloning(Ends(step).value)))
  }

  /** A settled clone leaves its machine running. */
  predicate Wins(step: Step) {
    step.StoreInstance? && step.running
  }

  lemma WaitingStep(mode: Mode, st: State, step: Step, t: Tid)
    requires LockInv(st) && ShapeInv(st) && Enabled(mode, st, step)
    requires st.holder.Scaling? && Meanwhile(step, st.holder.service)
    ensures Waits(Apply(mode, st, step), t) <==> Waits(st, t) && !Settles(st, step, t)
  {
    if ByCall(step) {
      WaitingStepByCall(mode, st, step, t);
    } else {
      WaitingStepOther(mode, st, step, t);
    }
  }

  lemma WaitingStepByCall(mode: Mode, st: State, step: Step, t: Tid)
    requires LockInv(st) && ShapeInv(st) && Enabled(mode, st, step)
    requires st.holder.Scaling? && Meanwhile(step, st.holder.service)
    requires ByCall(step)
    ensures Waits(Apply(mode, st, step), t) <==> Waits(st, t) && !Settles(st, step, t)
  {
    CallsLeaveTasks(mode, st, step);
    assert t in st.tasks && st.tasks[t].Cloning? ==> Is(st, t, Cloning(st.tasks[t].uid));
  }

  lemma WaitingStepOther(mode: Mode, st: State, step: Step, t: Tid)
    requires LockInv(st) && ShapeInv(st) && Enabled(mode, st, step)
    requires st.holder.Scaling? && Meanwhile(step, st.holder.service)
    requires !ByCall(step)
    ensures Waits(Apply(mode, st, step), t) <==> Waits(st, t) && !Settles(st, step, t)
  {
    assert t in st.tasks && st.tasks[t].Cloning? ==> Is(st, t, Cloning(st.tasks[t].uid));
  }

  lemma LosesStep(mode: Mode, st: State, step: Step, t: Tid)
    requires LockInv(st) && ShapeInv(st) && Enabled(mode, st, step) && Up(st)
    requires Meanwhile(step, st.holder.service)
    ensures Loses(Apply(mode, st, step), t) <==> Loses(st, t) || (Settles(st, step, t) && !Wins(step))
  {
    if ByCall(step) {
      LosesStepByCall(mode, st, step, t);
    } else {
      LosesStepOther(mode, st, step, t);
    }
  }

  lemma LosesStepByCall(mode: Mode, st: State, step: Step, t: Tid)
    requires LockInv(st) && ShapeInv(st) && Enabled(mode, st, step) && Up(st)
    requires Meanwhile(step, st.holder.service)
    requires ByCall(step)
    ensures Loses(Apply(mode, st, step), t) <==> Loses(st, t) || (Settles(st, step, t) && !Wins(step))
  {
    CallsLeaveTasks(mode, st, step);
    assert t in st.tasks && st.tasks[t].Cloning? ==> Is(st, t, Cloning(st.tasks[t].uid));
  }

  lemma LosesStepOther(mode: Mode, st: State, step: Step, t: Tid)
    requires LockInv(st) && ShapeInv(st) && Enabled(mode, st, step) && Up(st)
    requires Meanwhile(step, st.holder.service)
    requires !ByCall(step)
    ensures Loses(Apply(mode, st, step), t) <==> Loses(st, t) || (Settles(st, step, t) && !Wins(step))
  {
    assert t in st.tasks && st.tasks[t].Cloning? ==> Is(st, t, Cloning(st.tasks[t].uid));
    var st' := Apply(mode, st, step);
    if t in st.tasks && st.tasks[t].Cloning? {
      assert t in st'.tasks && st'.tasks[t] == st.tasks[t];
    } else if t in st.tasks && st.tasks[t].Finished? {
      assert t in st'.tasks && st'.tasks[t] == st.tasks[t];
    }
  }

  lemma MeanwhileKeepsHolder(mode: Mode, st: State, step: Step)
    requires LockInv(st) && st.holder.Scaling? && Enabled(mode, st, step) && Meanwhile(step, st.holder.service)
    ensures Apply(mode, st, step).holder == st.holder
  {
    if ByCall(step) {
      CallsLeaveTasks(mode, st, step);
    }
  }

  lemma CloneGoesOn(mode: Mode, st: State, step: Step, t: Tid, u: Uid)
    requires LockInv(st) && st.holder.Scaling? && Enabled(mode, st, step) && !step.EndScale?
    requires Is(st, t, Cloning(u))
    ensures Is(Apply(mode, st, step), t, Cloning(u))
  {
    if ByCall(step) {
      CallsLeaveTasks(mode, st, step);
    }
  }

  lemma QuietKept(mode: Mode, st: State, step: Step)
    requires LockInv(st) && Enabled(mode, st, step)
    requires st.holder.Scaling? && Meanwhile(step, st.holder.service) && Quiet(st, st.holder.service)
    ensures Apply(mode, st, step).holder == st.holder
    ensures Quiet(Apply(mode, st, step), st.holder.service)
  {
    var st' := Apply(mode, st, step);
    var service := st.holder.service;
    MeanwhileKeepsHolder(mode, st, step);
    forall u | u in st'.calls && st'.calls[u].service == service && PreStore(st'.calls[u].pc)
      ensures exists t :: Is(st', t, Cloning(u))
    {
      if step.Clone? && u == step.uid {
        assert Is(st', Worker(step.w), Cloning(u));
      } else {
        var t :| Is(st, t, Cloning(u));
        CloneGoesOn(mode, st, step, t, u);
      }
    }
  }

  lemma RunningStep(mode: Mode, st: State, step: Step)
    requires InstancesInv(st) && TargetInv(st) && LockInv(st) && MarkedInv(st) && AloneInv(st) && Enabled(mode, st, step)
    requires st.holder.Scaling? && Meanwhile(step, st.holder.service)
    ensures var service, st' := st.holder.service, Apply(mode, st, step);
            var now := RunningSet(st', service);
            match step
            case Mark(w) => st.tasks[Worker(w)].uid in RunningSet(st, service) && now == RunningSet(st, service) - {st.tasks[Worker(w)].uid}
            case StoreInstance(u, running) =>
              if running && st.calls[u].service == service then u !in RunningSet(st, service) && now == RunningSet(st, service) + {u}
              else now == RunningSet(st, service)
            case _ => now == RunningSet(st, service)
  {
    var service, st' := st.holder.service, Apply(mode, st, step);
    OnlyMarksEndRunning(mode, st, step, service);
    forall u | IsRunning(st', service, u) ensures IsRunning(st, service, u) || step == StoreInstance(u, true) {
      RunningOnlyByStore(mode, st, step, u);
    }
    if step.Mark? {
      assert Is(st, Worker(step.w), Selected(st.tasks[Worker(step.w)].uid));
      assert HasTarget(st, Worker(step.w), st.tasks[Worker(step.w)].uid);
    }
  }

  /** A step that settles a worker moves exactly that worker; every other step leaves the account alone. */
  lemma SetsStep(mode: Mode, st: State, step: Step, t: Tid)
    requires LockInv(st) && ShapeInv(st) && InstancesInv(st) && Enabled(mode, st, step)
    requires st.holder.Scaling? && Meanwhile(step, st.holder.service)
    ensures Settles(st, step, t) ==> t in Waiting(st) && t !in Lost(st) && Waiting(Apply(mode, st, step)) == Waiting(st) - {t}
    ensures Settles(st, step, t) && Up(st) ==>
              Lost(Apply(mode, st, step)) == if Wins(step) then Lost(st) else Lost(st) + {t}
    ensures (forall r :: !Settles(st, step, r)) ==>
              Waiting(Apply(mode, st, step)) == Waiting(st) && (Up(st) ==> Lost(Apply(mode, st, step)) == Lost(st))
  {
    var st' := Apply(mode, st, step);
    forall r ensures r in Waiting(st') <==> r in Waiting(st) && !Settles(st, step, r) {
      WaitingStep(mode, st, step, r);
    }
    OneSettles(mode, st, step);
    if Up(st) {
      forall r ensures r in Lost(st') <==> r in Lost(st) || (Settles(st, step, r) && !Wins(step)) {
        LosesStep(mode, st, step, r);
      }
    }
  }

  lemma OneSettles(mode: Mode, st: State, step: Step)
    requires ShapeInv(st) && Enabled(mode, st, step)
    ensures forall t, r :: Settles(st, step, t) && Settles(st, step, r) ==> t == r
    ensures forall t :: Settles(st, step, t) ==> Waits(st, t) && !Loses(st, t)
  {
  }

  /** The bookkeeping of one step: `t` is settled if Some, `gained` and `marked` are what Running gains and loses. */
  lemma Account(st: State, st': State, t: Option<Tid>, gained: Option<Uid>, marked: Option<Uid>)
    requires Conserved(st) && st'.holder == st.holder && st.holder.Scaling?
    requires t.None? ==> gained.None? && marked.None? && Waiting(st') == Waiting(st) && (Up(st) ==> Lost(st') == Lost(st))
    requires t.Some? ==> t.value in Waiting(st) && t.value !in Lost(st) && Waiting(st') == Waiting(st) - {t.value}
    requires t.Some? && Up(st) ==> marked.None? && Lost(st') == if gained.Some? then Lost(st) else Lost(st) + {t.value}
    requires t.Some? && Down(st) ==> gained.None? && marked.Some?
    requires var was, now := RunningSet(st, st.holder.service), RunningSet(st', st.holder.service);
             && (gained.Some? ==> gained.value !in was && now == was + {gained.value})
             && (marked.Some? ==> marked.value in was && now == was - {marked.value})
             && (gained.None? && marked.None? ==> now == was)
    ensures Conserved(st')
  {
  }

  /** When deleting, a worker is settled by marking a machine and in no other way. */
  lemma SettledDownMarks(mode: Mode, st: State, step: Step, t: Tid)
    requires ShapeInv(st) && FloorInv(st) && Enabled(mode, st, step) && Down(st) && Settles(st, step, t)
    ensures step.Mark?
  {
    assert t in Unmarked(st);
  }

  lemma ConservedKept(mode: Mode, st: State, step: Step)
    requires Base(st) && AloneInv(st) && ShapeInv(st) && FloorInv(st) && Enabled(mode, st, step)
    requires st.holder.Scaling? && Meanwhile(step, st.holder.service) && Quiet(st, st.holder.service)
    requires Conserved(st)
    ensures Conserved(Apply(mode, st, step))
  {
    var st' := Apply(mode, st, step);
    QuietKept(mode, st, step);
    RunningStep(mode, st, step);
    if t :| Settles(st, step, t) {
      SetsStep(mode, st, step, t);
      if Down(st) {
        SettledDownMarks(mode, st, step, t);
        Account(st, st', Some(t), None, Some(st.tasks[Worker(step.w)].uid));
      } else {
        SettledUpGains(mode, st, step, t);
        Account(st, st', Some(t), if Wins(step) then Some(step.uid) else None, None);
      }
    } else {
      SetsStep(mode, st, step, Checker);
      UnsettledGainsNothing(mode, st, step);
      Account(st, st', None, None, None);
    }
  }

  /** When cloning, a settled worker is one whose call for this service has come to its outcome. */
  lemma SettledUpGains(mode: Mode, st: State, step: Step, t: Tid)
    requires ShapeInv(st) && Enabled(mode, st, step) && Up(st) && Settles(st, step, t)
    ensures !step.Mark?
    ensures step.StoreInstance? ==> st.calls[step.uid].service == st.holder.service
  {
  }

  lemma UnsettledGainsNothing(mode: Mode, st: State, step: Step)
    requires Enabled(mode, st, step) && st.holder.Scaling? && Quiet(st, st.holder.service)
    requires forall t :: !Settles(st, step, t)
    ensures !step.Mark?
    ensures step.StoreInstance? ==> st.calls[step.uid].service != st.holder.service
  {
    assert step.Mark? <==> step.Mark? && Settles(st, step, Worker(step.w));
    assert step.StoreInstance? ==> forall t :: Is(st, t, Cloning(step.uid)) ==> Settles(st, step, t);
  }

  // ---------------------------------------------------------------- whole scale operations

  /** With a machine to clone from, a cloning worker never ends empty-handed; without one, it always does. */
  ghost predicate SourceInv(st: State) {
    Up(st) ==>
      && (st.holder.seen > 0 ==> forall t :: t in st.tasks ==> !st.tasks[t].Finished?)
      && (st.holder.seen == 0 ==> RunningSet(st, st.holder.service) == {} && forall t :: t in st.tasks ==> !st.tasks[t].Cloning?)
  }

  lemma SourceKept(mode: Mode, st: State, step: Step)
    requires InstancesInv(st) && TargetInv(st) && LockInv(st) && MarkedInv(st) && AloneInv(st)
    requires ShapeInv(st) && FloorInv(st) && SourceInv(st) && Enabled(mode, st, step)
    requires st.holder.Scaling? && Meanwhile(step, st.holder.service) && Quiet(st, st.holder.service)
    ensures SourceInv(Apply(mode, st, step))
  {
    RunningStep(mode, st, step);
    var service := st.holder.service;
    forall source | IsRunning(st, service, source) ensures source in RunningSet(st, service) {
    }
    assert Up(st) && st.holder.seen == 0 ==> forall t, u :: !Is(st, t, Cloning(u));
  }

  /** The machines of other services are as they were. */
  ghost predicate OthersSame(was: map<Uid, Machine>, st: State, service: string) {
    forall u :: u in was && was[u].service != service ==> u in st.instances && st.instances[u] == was[u]
  }

  lemma OthersKept(was: map<Uid, Machine>, mode: Mode, st: State, step: Step)
    requires InstancesInv(st) && TargetInv(st) && LockInv(st)
    requires Enabled(mode, st, step) && st.holder.Scaling? && OthersSame(was, st, st.holder.service)
    ensures OthersSame(was, Apply(mode, st, step), st.holder.service)
  {
    var st' := Apply(mode, st, step);
    forall u | u in was && was[u].service != st.holder.service ensures u in st'.instances && st'.instances[u] == was[u] {
      ChangedInHand(mode, st, step, u);
    }
  }

  /** The workers are the ones spawned at the start, as many as machines were missing or too many. */
  ghost predicate CrewInv(st: State) {
    st.holder.Scaling? ==> st.tasks.Keys == Spawn(Gap(st.holder)).Keys
  }

  function Gap(holder: Holder): nat
    requires holder.Scaling?
  {
    if holder.seen < holder.target then holder.target - holder.seen else holder.seen - holder.target
  }

  lemma CrewKept(mode: Mode, st: State, step: Step)
    requires LockInv(st) && CrewInv(st) && Enabled(mode, st, step)
    ensures CrewInv(Apply(mode, st, step))
  {
    if ByCall(step) {
      CallsLeaveTasks(mode, st, step);
    } else {
      CrewKeptOther(mode, st, step);
    }
  }

  lemma CrewKeptOther(mode: Mode, st: State, step: Step)
    requires LockInv(st) && CrewInv(st) && Enabled(mode, st, step) && !ByCall(step)
    ensures CrewInv(Apply(mode, st, step))
  {
  }

  /** What holds from the count to the end of a scale operation that nothing else interferes with. */
  ghost predicate During(base: seq<Iface>, was: map<Uid, Machine>, st: State) {
    && Base(st) && BridgeHolds(base, st) && AloneInv(st) && ShapeInv(st) && FloorInv(st)
    && st.holder.Scaling? && Quiet(st, st.holder.service)
    && Conserved(st) && SourceInv(st) && CrewInv(st) && OthersSame(was, st, st.holder.service)
  }

  lemma DuringKept(base: seq<Iface>, mode: Mode, was: map<Uid, Machine>, st: State, step: Step)
    requires mode.atomicClaims && During(base, was, st) && Enabled(mode, st, step) && Meanwhile(step, st.holder.service)
    ensures During(base, was, Apply(mode, st, step)) && Apply(mode, st, step).holder == st.holder
  {
    BaseKept(base, mode, st, step);
    AloneKept(mode, st, step);
    ShapeKept(mode, st, step);
    FloorKept(mode, st, step);
    QuietKept(mode, st, step);
    ConservedKept(mode, st, step);
    SourceKept(mode, st, step);
    CrewKept(mode, st, step);
    OthersKept(was, mode, st, step);
  }

  lemma {:induction false} DuringOverRuns(base: seq<Iface>, mode: Mode, was: map<Uid, Machine>, st: State,
                                          steps: seq<Step>)
    requires mode.atomicClaims && During(base, was, st) && Exec(mode, st, steps).Some?
    requires forall step :: step in steps ==> Meanwhile(step, st.holder.service)
    ensures During(base, was, Exec(mode, st, steps).value) && Exec(mode, st, steps).value.holder == st.holder
    decreases |steps|
  {
    if steps != [] {
      DuringKept(base, mode, was, st, steps[0]);
      DuringOverRuns(base, mode, was, Apply(mode, st, steps[0]), steps[1..]);
    }
  }

  lemma AccountStarts(mode: Mode, st: State, service: string, target: nat)
    requires st.holder.Free?
    ensures Conserved(Apply(mode, st, StartScale(service, target)))
    ensures SourceInv(Apply(mode, st, StartScale(service, target)))
  {
    var st' := Apply(mode, st, StartScale(service, target));
    SpawnSize(Gap(st'.holder));
    assert st'.tasks == Spawn(Gap(st'.holder));
    assert Waiting(st') == st'.tasks.Keys && Lost(st') == {};
    assert RunningSet(st', service) == RunningSet(st, service);
  }

  lemma StartsInShape(mode: Mode, st: State, service: string, target: nat)
    requires st.holder.Free? && LockInv(st) && Quiet(st, service)
    ensures var st' := Apply(mode, st, StartScale(service, target));
            && AloneInv(st') && ShapeInv(st') && CrewInv(st') && OthersSame(st.instances, st', service)
            && Quiet(st', service)
  {
    var st' := Apply(mode, st, StartScale(service, target));
    assert forall t, u :: !Is(st, t, Cloning(u)) && !Is(st', t, Cloning(u)) && !HasTarget(st', t, u);
  }

  lemma DuringStarts(base: seq<Iface>, mode: Mode, st: State, service: string, target: nat)
    requires Base(st) && BridgeHolds(base, st) && st.holder.Free? && Quiet(st, service)
    ensures During(base, st.instances, Apply(mode, st, StartScale(service, target)))
  {
    BaseKept(base, mode, st, StartScale(service, target));
    FloorAtStart(mode, st, service, target);
    AccountStarts(mode, st, service, target);
    StartsInShape(mode, st, service, target);
  }

  /** On the way the number of running machines stays between what was counted and what was asked for. */
  lemma StaysBetween(st: State)
    requires st.holder.Scaling? && FloorInv(st) && Conserved(st) && CrewInv(st)
    ensures if Up(st) then st.holder.seen <= Running(st, st.holder.service) <= st.holder.target
            else st.holder.target <= Running(st, st.holder.service) <= st.holder.seen
  {
    SpawnSize(Gap(st.holder));
    assert |st.tasks.Keys| == |Spawn(Gap(st.holder)).Keys|;
    SubsetSize(Waiting(st), st.tasks.Keys);
  }

  /** When all workers are done, only the failed clones are missing. */
  lemma EndsAtTarget(mode: Mode, st: State)
    requires Enabled(mode, st, EndScale) && Conserved(st) && SourceInv(st)
    ensures Running(st, st.holder.service) == if Up(st) then st.holder.target - |Lost(st)| else st.holder.target
    ensures Up(st) && st.holder.seen == 0 ==> Running(st, st.holder.service) == 0
    ensures st.holder.seen > 0 && (forall t, u :: Is(st, t, Cloning(u)) ==> At(st, u, Complete(true))) ==>
              Running(st, st.holder.service) == st.holder.target
  {
    forall t | t in st.tasks ensures !Waits(st, t) {
      assert Done(st, st.tasks[t]);
    }
    assert Waiting(st) == {};
    if st.holder.seen > 0 && forall t, u :: Is(st, t, Cloning(u)) ==> At(st, u, Complete(true)) {
      forall t | t in st.tasks ensures !Loses(st, t) {
        assert st.tasks[t].Cloning? ==> Is(st, t, Cloning(st.tasks[t].uid));
      }
      assert Lost(st) == {};
    }
  }

  /** Scaling to the number that runs already spawns nobody, can end at once, and changes nothing. */
  lemma ScalingToSameIsNothing(mode: Mode, st: State, service: string)
    requires st.holder.Free? && LockInv(st)
    ensures Exec(mode, st, [StartScale(service, Running(st, service)), EndScale]) == Some(st)
  {
    var s1 := Apply(mode, st, StartScale(service, Running(st, service)));
    assert s1.tasks == map[];
    ExecTwo(mode, st, StartScale(service, Running(st, service)), EndScale, s1);
  }

  /**
    A scale operation with atomic claims, for every schedule, and with no other creation of machines of
    the service under way: on the way the number of running machines stays between what was counted
    and what was asked for. At the end it is what was asked for, less one per clone that failed; and
    other services' machines are untouched. Without a running machine to start from, nothing is cloned.
   */
  lemma ScaleReachesTarget(mode: Mode, base: seq<Iface>, st: State, service: string, target: nat, steps: seq<Step>,
                           end: State)
    requires mode.atomicClaims && Base(st) && BridgeHolds(base, st) && st.holder.Free? && Quiet(st, service)
    requires forall step :: step in steps ==> Meanwhile(step, service)
    requires Exec(mode, Apply(mode, st, StartScale(service, target)), steps) == Some(end)
    ensures end.holder == Scaling(service, Running(st, service), target)
    ensures Running(st, service) < target ==> Running(st, service) <= Running(end, service) <= target
    ensures Running(st, service) >= target ==> target <= Running(end, service) <= Running(st, service)
    ensures Enabled(mode, end, EndScale) ==>
              Running(end, service) == if Running(st, service) < target then target - |Lost(end)| else target
    ensures Enabled(mode, end, EndScale) && Running(st, service) == 0 ==> Running(end, service) == 0
    ensures Enabled(mode, end, EndScale) && Running(st, service) > 0
            && (forall t, u :: Is(end, t, Cloning(u)) ==> At(end, u, Complete(true))) ==>
              Running(end, service) == target
    ensures OthersSame(st.instances, end, service)
  {
    var start := Apply(mode, st, StartScale(service, target));
    DuringStarts(base, mode, st, service, target);
    DuringOverRuns(base, mode, st.instances, start, steps);
    DuringEnds(base, mode, st.instances, end);
  }

  lemma DuringEnds(base: seq<Iface>, mode: Mode, was: map<Uid, Machine>, end: State)
    requires During(base, was, end)
    ensures var (service, seen, target) := (end.holder.service, end.holder.seen, end.holder.target);
            && (if seen < target then seen <= Running(end, service) <= target else target <= Running(end, service) <= seen)
            && OthersSame(was, end, service)
            && (Enabled(mode, end, EndScale) ==>
                  && Running(end, service) == (if seen < target then target - |Lost(end)| else target)
                  && (seen == 0 ==> Running(end, service) == 0)
                  && (seen > 0 && (forall t, u :: Is(end, t, Cloning(u)) ==> At(end, u, Complete(true))) ==>
                        Running(end, service) == target))
  {
    StaysBetween(end);
    if Enabled(mode, end, EndScale) {
      EndsAtTarget(mode, end);
    }
  }
}
