/** What the health checker does with one machine, and that nothing else has the lock meanwhile. */
module HealthCheck {
  import opened Common
  import opened InternalController
  import opened Lifecycle
  import opened LifecycleInv

  /** The lock is free, and the machine is stored as Running. */
  ghost predicate Checkable(st: State, u: Uid) {
    st.holder.Free? && InstancesInv(st) && u in st.instances && st.instances[u].running
  }

  /** The check has found that the machine does not run. */
  function FoundGone(st: State, u: Uid, inPlace: bool): State
    requires u in st.instances
  {
    st.(holder := Checking, tasks := map[Checker := Destroying(u)],
        instances := if inPlace then st.instances[u := Machine(st.instances[u].service, false)] else st.instances)
  }

  lemma FindsGone(mode: Mode, st: State, u: Uid, inPlace: bool)
    requires Checkable(st, u)
    ensures Exec(mode, st, [StartCheck(u), CheckGone(inPlace)]) == Some(FoundGone(st, u, inPlace))
  {
    var s1 := Apply(mode, st, StartCheck(u));
    assert s1.tasks[Checker := Destroying(u)] == map[Checker := Destroying(u)];
    ExecTwo(mode, st, StartCheck(u), CheckGone(inPlace), s1);
  }

  /** Its address has been deleted, and the machine is gone for good or has been stored again, not running. */
  function Cleared(st: State, u: Uid, gone: bool): State
    requires u in st.instances && u in st.interfaces && DelIP(st.net, st.instances[u].service, st.interfaces[u]).Some?
  {
    st.(net := DelIP(st.net, st.instances[u].service, st.interfaces[u]).value, log := st.log + [u], holder := Free, tasks := map[],
        instances := if gone then st.instances - {u} else st.instances[u := Machine(st.instances[u].service, false)],
        interfaces := if gone then st.interfaces - {u} else st.interfaces)
  }

  lemma DeletesAddress(mode: Mode, st: State, u: Uid, inPlace: bool)
    requires Checkable(st, u) && u in st.interfaces && u in st.registered
    requires DelIP(st.net, st.instances[u].service, st.interfaces[u]).Some?
    ensures Enabled(mode, FoundGone(st, u, inPlace), Deregister(Checker))
    ensures Apply(mode, FoundGone(st, u, inPlace), Deregister(Checker)) ==
            FoundGone(st, u, inPlace).(net := DelIP(st.net, st.instances[u].service, st.interfaces[u]).value, log := st.log + [u],
                                       tasks := map[Checker := Stopping(u)])
  {
    var s0 := FoundGone(st, u, inPlace);
    assert s0.tasks[Checker := Stopping(u)] == map[Checker := Stopping(u)];
  }

  lemma StopsFound(mode: Mode, s1: State, st: State, u: Uid, gone: bool)
    requires u in st.instances && u in s1.calls && s1.calls[u].service == st.instances[u].service && Is(s1, Checker, Stopping(u))
    requires s1.instances == st.instances || s1.instances == st.instances[u := Machine(st.instances[u].service, false)]
    ensures Exec(mode, s1, [if gone then StopGone(Checker) else StopKept(Checker), EndCheck]) ==
            Some(s1.(holder := Free, tasks := map[],
                     instances := if gone then st.instances - {u} else st.instances[u := Machine(st.instances[u].service, false)],
                     interfaces := if gone then s1.interfaces - {u} else s1.interfaces))
  {
    var stop := if gone then StopGone(Checker) else StopKept(Checker);
    var s2 := Apply(mode, s1, stop);
    assert gone ==> s2.instances == st.instances - {u};
    assert !gone ==> s2.instances == st.instances[u := Machine(st.instances[u].service, false)];
    ExecTwo(mode, s1, stop, EndCheck, s2);
  }

  lemma ClearsFound(mode: Mode, st: State, u: Uid, inPlace: bool, gone: bool)
    requires Checkable(st, u) && u in st.interfaces && u in st.registered
    requires DelIP(st.net, st.instances[u].service, st.interfaces[u]).Some?
    ensures Exec(mode, FoundGone(st, u, inPlace),
                 [Deregister(Checker), if gone then StopGone(Checker) else StopKept(Checker), EndCheck]) == Some(Cleared(st, u, gone))
  {
    var stop := if gone then StopGone(Checker) else StopKept(Checker);
    DeletesAddress(mode, st, u, inPlace);
    StopsFound(mode, Apply(mode, FoundGone(st, u, inPlace), Deregister(Checker)), st, u, gone);
    ExecCons(mode, FoundGone(st, u, inPlace), [Deregister(Checker), stop, EndCheck]);
  }

  /**
    A machine that is recorded as Running and whose address has been registered, but which does not run:
    the address is deleted under its service, the machine leaves both maps, or stays as one that does not
    run if the platform keeps it, and the lock is given back.
   */
  lemma GoneMachineIsCleared(mode: Mode, st: State, u: Uid, inPlace: bool, gone: bool)
    requires Checkable(st, u) && u in st.interfaces && u in st.registered
    requires DelIP(st.net, st.instances[u].service, st.interfaces[u]).Some?
    ensures Exec(mode, st, [StartCheck(u), CheckGone(inPlace)]
                           + [Deregister(Checker), if gone then StopGone(Checker) else StopKept(Checker), EndCheck])
            == Some(st.(
                 net := DelIP(st.net, st.instances[u].service, st.interfaces[u]).value, log := st.log + [u], holder := Free, tasks := map[],
                 instances := if gone then st.instances - {u} else st.instances[u := Machine(st.instances[u].service, false)],
                 interfaces := if gone then st.interfaces - {u} else st.interfaces))
  {
    FindsGone(mode, st, u, inPlace);
    ClearsFound(mode, st, u, inPlace, gone);
    ExecAppend(mode, st, [StartCheck(u), CheckGone(inPlace)],
               [Deregister(Checker), if gone then StopGone(Checker) else StopKept(Checker), EndCheck]);
  }

  /** If the destruction gives up before that, only what asking has written stays behind. */
  lemma GivenUpCheck(mode: Mode, st: State, u: Uid, inPlace: bool)
    requires Checkable(st, u)
    ensures Exec(mode, st, [StartCheck(u), CheckGone(inPlace)] + [Abort(Checker), EndCheck])
            == Some(st.(holder := Free, tasks := map[],
                        instances := if inPlace then st.instances[u := Machine(st.instances[u].service, false)] else st.instances))
  {
    FindsGone(mode, st, u, inPlace);
    var s0 := FoundGone(st, u, inPlace);
    var s1 := Apply(mode, s0, Abort(Checker));
    ExecTwo(mode, s0, Abort(Checker), EndCheck, s1);
    ExecAppend(mode, st, [StartCheck(u), CheckGone(inPlace)], [Abort(Checker), EndCheck]);
  }

  /** A machine that runs, or that the platform cannot be asked about, is left alone. */
  lemma RunningMachineIsLeft(mode: Mode, st: State, u: Uid)
    requires Checkable(st, u) && LockInv(st)
    ensures Exec(mode, st, [StartCheck(u), EndCheck]) == Some(st)
  {
    ExecTwo(mode, st, StartCheck(u), EndCheck, Apply(mode, st, StartCheck(u)));
  }

  // ---------------------------------------------------------------- nothing comes in between

  /** The health checker is destroying machine `u`. */
  predicate Clearing(st: State, u: Uid) {
    Is(st, Checker, Destroying(u)) || Is(st, Checker, Stopping(u))
  }

  /**
    Between finding that a machine is gone and the end of its destruction the lock is not given back, no
    scale operation begins, and the checker turns to no other machine.
   */
  lemma ClearingIsFinished(mode: Mode, st: State, step: Step, u: Uid)
    requires LockInv(st) && st.holder.Checking? && Clearing(st, u) && Enabled(mode, st, step)
    ensures !step.EndCheck? && !step.StartScale? && !step.StartCheck?
    ensures Apply(mode, st, step).holder.Checking?
    ensures || Clearing(Apply(mode, st, step), u)
            || (Is(Apply(mode, st, step), Checker, Finished) && step in [StopGone(Checker), StopKept(Checker), Abort(Checker)])
  {
    if ByCall(step) {
      CallsLeaveTasks(mode, st, step);
    }
  }
}
