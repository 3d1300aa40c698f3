/**
  Handlers side by side. Between any two accesses of a handler to the function store, the instance map or
  a lock, other handlers and goroutines can run.
 */
module Overlap {
  import opened Common
  import opened Lifecycle
  import opened LifecycleInv
  import opened Safety
  import opened Conservation
  import opened Provider
  import opened SetUp
  import opened Threats
  import F = FunctionStore

  datatype Kind = Deploys | Scales(target: nat) | Invokes | Deletes

  datatype Stage =
    | AtHand              // has the stored function at hand and is to count its machines
    | Creating            // is to create a machine of it
    | Calling(uid: Uid)   // waits for its createMachine call
    | Queued              // in ScaleMachinesTo, waits for healthChecklock
    | Working             // has it, and waits for its workers
    | Stopped             // a delete handler whose ScaleMachinesTo has returned

  datatype Handler = Handler(kind: Kind, name: string, stage: Stage)

  /** The names of the stored functions, the machine store, the handlers, and whose scale operation has the lock. */
  datatype Scene = Scene(functions: set<string>, st: State, handlers: map<nat, Handler>, owner: Option<nat>)

  datatype Act =
    | Add(h: nat, name: string)               // a deploy handler has stored its function
    | Get(h: nat, kind: Kind, name: string)   // a scale or invoke handler has found the function
    | Exists(h: nat, name: string)            // a delete handler has found that it exists
    | Poll(h: nat)
    | Launch(h: nat, uid: Uid)
    | Return(h: nat)                          // of NewMachine, which may have given up at once
    | Lock(h: nat)
    | Unlock(h: nat)
    | Remove(h: nat)                          // a delete handler removes the function
    | Move(step: Step)                        // a step of a goroutine that is there

  predicate IsAt(sc: Scene, h: nat, stage: Stage) {
    h in sc.handlers && sc.handlers[h].stage == stage
  }

  predicate Possible(mode: Mode, sc: Scene, act: Act) {
    match act
    case Add(h, _) => h !in sc.handlers
    case Get(h, kind, name) => h !in sc.handlers && name in sc.functions && (kind.Scales? || kind.Invokes?)
    case Exists(h, name) => h !in sc.handlers && name in sc.functions
    case Poll(h) => IsAt(sc, h, AtHand)
    case Launch(h, uid) => IsAt(sc, h, Creating) && FreshUid(sc.st, uid)
    case Return(h) =>
      h in sc.handlers
      && match sc.handlers[h].stage {
           case Creating => true
           case Calling(uid) => uid in sc.st.calls && !Active(sc.st.calls[uid].pc)
           case _ => false
         }
    case Lock(h) => IsAt(sc, h, Queued) && sc.st.holder.Free?
    case Unlock(h) => IsAt(sc, h, Working) && sc.owner == Some(h) && Enabled(mode, sc.st, EndScale)
    case Remove(h) => IsAt(sc, h, Stopped)
    case Move(step) => Background(step) && Enabled(mode, sc.st, step)
  }

  /** The step of the machine store that the act takes, if any. */
  function StepOf(sc: Scene, act: Act): Option<Step>
    requires act.Launch? || act.Lock? ==> act.h in sc.handlers
  {
    match act
    case Launch(h, uid) => Some(Begin(uid, sc.handlers[h].name))
    case Lock(h) => Some(StartScale(sc.handlers[h].name, if sc.handlers[h].kind.Scales? then sc.handlers[h].kind.target else 0))
    case Unlock(_) => Some(EndScale)
    case Move(step) => Some(step)
    case _ => None
  }

  function MovesTo(sc: Scene, h: nat, stage: Stage): map<nat, Handler>
    requires h in sc.handlers
  {
    sc.handlers[h := sc.handlers[h].(stage := stage)]
  }

  /** A scale handler goes on to ScaleMachinesTo; the others are through. */
  function GoesOnToScale(sc: Scene, h: nat): map<nat, Handler>
    requires h in sc.handlers
  {
    if sc.handlers[h].kind.Scales? then MovesTo(sc, h, Queued) else sc.handlers - {h}
  }

  function HandlersAfter(mode: Mode, sc: Scene, act: Act): map<nat, Handler>
    requires Possible(mode, sc, act)
  {
    match act
    case Add(h, name) => sc.handlers[h := Handler(Deploys, name, Creating)]
    case Get(h, kind, name) => sc.handlers[h := Handler(kind, name, AtHand)]
    case Exists(h, name) => sc.handlers[h := Handler(Deletes, name, Queued)]
    case Poll(h) => if Running(sc.st, sc.handlers[h].name) == 0 then MovesTo(sc, h, Creating) else GoesOnToScale(sc, h)
    case Launch(h, uid) => MovesTo(sc, h, Calling(uid))
    case Return(h) => GoesOnToScale(sc, h)
    case Lock(h) => MovesTo(sc, h, Working)
    case Unlock(h) => if sc.handlers[h].kind.Deletes? then MovesTo(sc, h, Stopped) else sc.handlers - {h}
    case Remove(h) => sc.handlers - {h}
    case Move(_) => sc.handlers
  }

  function StateAfter(mode: Mode, sc: Scene, act: Act): State
    requires Possible(mode, sc, act)
  {
    var step := StepOf(sc, act);
    if step.Some? then Apply(mode, sc.st, step.value) else sc.st
  }

  function Do(mode: Mode, sc: Scene, act: Act): Scene
    requires Possible(mode, sc, act)
  {
    Scene(
      if act.Add? then sc.functions + {act.name} else if act.Remove? then sc.functions - {sc.handlers[act.h].name} else sc.functions,
      StateAfter(mode, sc, act), HandlersAfter(mode, sc, act),
      if act.Lock? then Some(act.h) else if act.Unlock? then None else sc.owner)
  }

  function Play(mode: Mode, sc: Scene, acts: seq<Act>): Option<Scene>
    decreases |acts|
  {
    if acts == [] then Some(sc)
    else if Possible(mode, sc, acts[0]) then Play(mode, Do(mode, sc, acts[0]), acts[1..])
    else None
  }

  /** An empty provider. */
  function Opening(bridge: seq<Iface>): Scene {
    Scene({}, Initial(bridge), map[], None)
  }

  // ---------------------------------------------------------------- what threatens a function's removal

  /** The handler can begin a createMachine call that gets to its end. */
  predicate CanLaunch(sc: Scene, h: nat, name: string) {
    && h in sc.handlers && sc.handlers[h].name == name
    && (sc.handlers[h].stage.AtHand? || sc.handlers[h].stage.Creating?) && !Frozen(sc.st)
  }

  ghost predicate Threat(sc: Scene, name: string) {
    Threatened(sc.st, name) || exists h :: CanLaunch(sc, h, name)
  }

  /** A handler gets hold of the function. */
  predicate Obtains(act: Act, name: string) {
    (act.Add? || act.Get?) && act.name == name
  }

  lemma NoLaunchKept(mode: Mode, sc: Scene, act: Act, name: string)
    requires CriticalInv(sc.st) && Possible(mode, sc, act) && !Obtains(act, name)
    requires forall h :: !CanLaunch(sc, h, name)
    ensures forall h :: !CanLaunch(Do(mode, sc, act), h, name)
  {
    forall h ensures !CanLaunch(Do(mode, sc, act), h, name) {
      assert !CanLaunch(sc, h, name);
      if Frozen(sc.st) && StepOf(sc, act).Some? {
        FrozenKept(mode, sc.st, StepOf(sc, act).value);
      }
    }
  }

  /** Nothing threatens a function out of the blue. */
  lemma ClearKept(mode: Mode, sc: Scene, act: Act, name: string)
    requires CriticalInv(sc.st) && Possible(mode, sc, act) && !Obtains(act, name) && !Threat(sc, name)
    ensures !Threat(Do(mode, sc, act), name)
  {
    NoLaunchKept(mode, sc, act, name);
    var step := StepOf(sc, act);
    if step.Some? {
      assert act.Launch? ==> !CanLaunch(sc, act.h, name);
      UnthreatenedKept(mode, sc.st, step.value, name);
    }
  }

  lemma LockHeldAfter(mode: Mode, sc: Scene, act: Act)
    requires LockHeld(sc.st) && Possible(mode, sc, act)
    ensures LockHeld(Do(mode, sc, act).st)
  {
    if StepOf(sc, act).Some? {
      LockHeldKept(mode, sc.st, StepOf(sc, act).value);
    }
  }

  ghost predicate NeverObtained(acts: seq<Act>, name: string) {
    forall i :: 0 <= i < |acts| ==> !Obtains(acts[i], name)
  }

  lemma {:induction false} ClearOverRuns(mode: Mode, sc: Scene, acts: seq<Act>, name: string)
    requires LockHeld(sc.st) && !Threat(sc, name) && NeverObtained(acts, name) && Play(mode, sc, acts).Some?
    ensures !Threat(Play(mode, sc, acts).value, name)
    decreases |acts|
  {
    if acts != [] {
      assert !Obtains(acts[0], name);
      ClearKept(mode, sc, acts[0], name);
      LockHeldAfter(mode, sc, acts[0]);
      ClearOverRuns(mode, Do(mode, sc, acts[0]), acts[1..], name);
    }
  }

  // ---------------------------------------------------------------- a threat can come true

  function Moves(steps: seq<Step>): seq<Act> {
    if steps == [] then [] else [Move(steps[0])] + Moves(steps[1..])
  }

  lemma PlayCons(mode: Mode, sc: Scene, act: Act, acts: seq<Act>)
    requires Possible(mode, sc, act)
    ensures Play(mode, sc, [act] + acts) == Play(mode, Do(mode, sc, act), acts)
  {
    assert ([act] + acts)[1..] == acts;
  }

  lemma {:induction false} MovesPlay(mode: Mode, sc: Scene, steps: seq<Step>, end: State, name: string)
    requires Exec(mode, sc.st, steps) == Some(end) && AllBackground(steps)
    ensures Play(mode, sc, Moves(steps)) == Some(sc.(st := end)) && NeverObtained(Moves(steps), name)
    decreases |steps|
  {
    if steps != [] {
      var next := Apply(mode, sc.st, steps[0]);
      assert Background(steps[0]);
      MovesPlay(mode, sc.(st := next), steps[1..], end, name);
      PlayCons(mode, sc, Move(steps[0]), Moves(steps[1..]));
    }
  }

  lemma {:induction false} AboveAll(s: set<Uid>) returns (n: Uid)
    ensures forall u :: u in s ==> u < n
    decreases |s|
  {
    if s == {} {
      n := 0;
    } else {
      var u :| u in s;
      var m := AboveAll(s - {u});
      n := if m > u then m else u + 1;
      assert forall v :: v in s ==> v == u || v in s - {u};
    }
  }

  lemma SomeFreshUid(st: State) returns (uid: Uid)
    ensures FreshUid(st, uid)
  {
    var used := st.calls.Keys + set i | 0 <= i < |st.bridge| :: st.bridge[i].uid;
    uid := AboveAll(used);
    assert forall i :: 0 <= i < |st.bridge| ==> st.bridge[i].uid in used;
  }

  lemma RunningThreatIsReal(mode: Mode, sc: Scene, name: string) returns (acts: seq<Act>)
    requires LockHeld(sc.st) && Threatened(sc.st, name)
    ensures NeverObtained(acts, name) && Play(mode, sc, acts).Some? && !NoneRunning(Play(mode, sc, acts).value.st, name)
  {
    var steps, end, u := ThreatComesTrue(mode, sc.st, name);
    assert forall i :: 0 <= i < |steps| ==> ByCall(steps[i]) && !steps[i].Begin?;
    MovesPlay(mode, sc, steps, end, name);
    acts := Moves(steps);
  }

  lemma CreatingThreatIsReal(mode: Mode, sc: Scene, h: nat) returns (acts: seq<Act>)
    requires LockHeld(sc.st) && IsAt(sc, h, Creating) && !Frozen(sc.st)
    ensures var name := sc.handlers[h].name;
            NeverObtained(acts, name) && Play(mode, sc, acts).Some? && !NoneRunning(Play(mode, sc, acts).value.st, name)
  {
    var name := sc.handlers[h].name;
    var uid := SomeFreshUid(sc.st);
    var next := Do(mode, sc, Launch(h, uid));
    LockHeldAfter(mode, sc, Launch(h, uid));
    assert CanStore(next.st, uid, name);
    var rest := RunningThreatIsReal(mode, next, name);
    PlayCons(mode, sc, Launch(h, uid), rest);
    acts := [Launch(h, uid)] + rest;
  }

  lemma ThreatIsReal(mode: Mode, sc: Scene, name: string) returns (acts: seq<Act>)
    requires LockHeld(sc.st) && Threat(sc, name)
    ensures NeverObtained(acts, name) && Play(mode, sc, acts).Some? && !NoneRunning(Play(mode, sc, acts).value.st, name)
  {
    if Threatened(sc.st, name) {
      acts := RunningThreatIsReal(mode, sc, name);
    } else {
      var h :| CanLaunch(sc, h, name);
      if IsAt(sc, h, Creating) {
        acts := CreatingThreatIsReal(mode, sc, h);
      } else {
        forall u ensures u !in RunningSet(sc.st, name) {
        }
        assert RunningSet(sc.st, name) == {};
        var next := Do(mode, sc, Poll(h));
        var rest := CreatingThreatIsReal(mode, next, h);
        PlayCons(mode, sc, Poll(h), rest);
        acts := [Poll(h)] + rest;
      }
    }
  }

  lemma NoThreatNoneRunning(sc: Scene, name: string)
    requires !Threat(sc, name)
    ensures NoneRunning(sc.st, name)
  {
  }

  ghost predicate NeverAdded(acts: seq<Act>, name: string) {
    forall i :: 0 <= i < |acts| && acts[i].Add? ==> acts[i].name != name
  }

  /** Nobody finds a function that is not stored. */
  lemma {:induction false} NotFound(mode: Mode, sc: Scene, acts: seq<Act>, name: string)
    requires name !in sc.functions && NeverAdded(acts, name) && Play(mode, sc, acts).Some?
    ensures NeverObtained(acts, name) && name !in Play(mode, sc, acts).value.functions
    decreases |acts|
  {
    if acts != [] {
      NotFound(mode, Do(mode, sc, acts[0]), acts[1..], name);
      forall i | 0 <= i < |acts| ensures !Obtains(acts[i], name) {
        assert i > 0 ==> acts[i] == acts[1..][i - 1];
      }
    }
  }

  lemma RemovalLeavesThreats(mode: Mode, sc: Scene, h: nat)
    requires Possible(mode, sc, Remove(h))
    ensures forall name :: Threat(Do(mode, sc, Remove(h)), name) <==> Threat(sc, name)
  {
    forall name ensures Threat(Do(mode, sc, Remove(h)), name) <==> Threat(sc, name) {
      assert forall k :: CanLaunch(Do(mode, sc, Remove(h)), k, name) <==> CanLaunch(sc, k, name);
    }
  }

  lemma {:induction false} LockHeldOverRuns(mode: Mode, sc: Scene, acts: seq<Act>)
    requires LockHeld(sc.st) && Play(mode, sc, acts).Some?
    ensures LockHeld(Play(mode, sc, acts).value.st)
    decreases |acts|
  {
    if acts != [] {
      LockHeldAfter(mode, sc, acts[0]);
      LockHeldOverRuns(mode, Do(mode, sc, acts[0]), acts[1..]);
    }
  }

  /**
    The exact condition for removing a function while other handlers run, in any scene that handlers side
    by side can come to. Unless the function is deployed again, no machine of it ever runs in any
    continuation if and only if at that moment none runs, no call can still store one, and no handler that
    has the function at hand can begin one.
   */
  lemma RemovalIsHarmlessIff(mode: Mode, bridge: seq<Iface>, before: seq<Act>, sc: Scene, h: nat)
    requires Play(mode, Opening(bridge), before) == Some(sc) && Possible(mode, sc, Remove(h))
    ensures var name, removed := sc.handlers[h].name, Do(mode, sc, Remove(h));
            (forall acts :: NeverAdded(acts, name) && Play(mode, removed, acts).Some? ==>
               NoneRunning(Play(mode, removed, acts).value.st, name)) <==> !Threat(sc, name)
  {
    var name, removed := sc.handlers[h].name, Do(mode, sc, Remove(h));
    LockHeldOverRuns(mode, Opening(bridge), before);
    RemovalLeavesThreats(mode, sc, h);
    if Threat(sc, name) {
      var acts := ThreatIsReal(mode, removed, name);
    } else {
      forall acts | NeverAdded(acts, name) && Play(mode, removed, acts).Some?
        ensures NoneRunning(Play(mode, removed, acts).value.st, name)
      {
        NotFound(mode, removed, acts, name);
        ClearOverRuns(mode, removed, acts, name);
        NoThreatNoneRunning(Play(mode, removed, acts).value, name);
      }
    }
  }

  // ---------------------------------------------------------------- whole runs

  /** Every removal in the run happens while nothing threatens it. */
  ghost predicate Guarded(mode: Mode, sc: Scene, acts: seq<Act>)
    decreases |acts|
  {
    acts == [] ||
    (Possible(mode, sc, acts[0]) ==>
       && (acts[0].Remove? ==> !Threat(sc, sc.handlers[acts[0].h].name))
       && Guarded(mode, Do(mode, sc, acts[0]), acts[1..]))
  }

  /** Nothing threatens a function that is not stored. */
  ghost predicate Clear(sc: Scene) {
    forall name :: name !in sc.functions ==> !Threat(sc, name)
  }

  lemma StaysClear(mode: Mode, sc: Scene, act: Act)
    requires LockHeld(sc.st) && Clear(sc) && Possible(mode, sc, act)
    requires act.Remove? ==> !Threat(sc, sc.handlers[act.h].name)
    ensures Clear(Do(mode, sc, act)) && LockHeld(Do(mode, sc, act).st)
  {
    LockHeldAfter(mode, sc, act);
    forall name | name !in Do(mode, sc, act).functions ensures !Threat(Do(mode, sc, act), name) {
      ClearKept(mode, sc, act, name);
    }
  }

  lemma {:induction false} ClearThroughout(mode: Mode, sc: Scene, acts: seq<Act>)
    requires LockHeld(sc.st) && Clear(sc) && Guarded(mode, sc, acts) && Play(mode, sc, acts).Some?
    ensures Clear(Play(mode, sc, acts).value)
    decreases |acts|
  {
    if acts != [] {
      StaysClear(mode, sc, acts[0]);
      ClearThroughout(mode, Do(mode, sc, acts[0]), acts[1..]);
    }
  }

  /**
    Any handlers side by side, from an empty provider on: if every removal happens while nothing threatens
    it, every running machine belongs to a stored function.
   */
  lemma GuardedOverlapsAreSafe(mode: Mode, bridge: seq<Iface>, acts: seq<Act>, end: Scene)
    requires Play(mode, Opening(bridge), acts) == Some(end) && Guarded(mode, Opening(bridge), acts)
    ensures forall u :: RunningSomewhere(end.st, u) ==> end.st.instances[u].service in end.functions
  {
    ClearThroughout(mode, Opening(bridge), acts);
    forall u | RunningSomewhere(end.st, u) ensures end.st.instances[u].service in end.functions {
      assert IsRunning(end.st, end.st.instances[u].service, u);
    }
  }

  // ---------------------------------------------------------------- a delete handler with the function to itself

  /** No handler has the function at hand and its creation before it. */
  ghost predicate NoneAtHand(sc: Scene, name: string) {
    forall k :: k in sc.handlers && sc.handlers[k].name == name ==>
                  !sc.handlers[k].stage.AtHand? && !sc.handlers[k].stage.Creating?
  }

  /** Handler `h` stops the machines of the function, and nobody creates any. */
  ghost predicate Emptying(base: seq<Iface>, was: map<Uid, Machine>, sc: Scene, h: nat, name: string) {
    && During(base, was, sc.st) && sc.st.holder.service == name && sc.st.holder.target == 0
    && sc.owner == Some(h) && NoneAtHand(sc, name)
  }

  lemma NoneAtHandKept(mode: Mode, sc: Scene, act: Act, name: string)
    requires NoneAtHand(sc, name) && Possible(mode, sc, act) && !Obtains(act, name)
    ensures NoneAtHand(Do(mode, sc, act), name)
  {
  }

  /** The step of an act beside a scale operation is one that may be taken meanwhile. */
  lemma ActsMeanwhile(mode: Mode, sc: Scene, h: nat, name: string, act: Act)
    requires NoneAtHand(sc, name) && sc.owner == Some(h) && sc.st.holder.Scaling? && Possible(mode, sc, act) && act != Unlock(h)
    requires StepOf(sc, act).Some?
    ensures Enabled(mode, sc.st, StepOf(sc, act).value) && Meanwhile(StepOf(sc, act).value, name)
    ensures Do(mode, sc, act).st == Apply(mode, sc.st, StepOf(sc, act).value)
  {
  }

  lemma EmptyingKept(base: seq<Iface>, mode: Mode, was: map<Uid, Machine>, sc: Scene, h: nat, name: string, act: Act)
    requires mode.atomicClaims && Emptying(base, was, sc, h, name) && Possible(mode, sc, act)
    requires act != Unlock(h) && !Obtains(act, name)
    ensures Emptying(base, was, Do(mode, sc, act), h, name)
  {
    NoneAtHandKept(mode, sc, act, name);
    assert !act.Lock? && !act.Unlock?;
    if StepOf(sc, act).Some? {
      ActsMeanwhile(mode, sc, h, name, act);
      DuringKept(base, mode, was, sc.st, StepOf(sc, act).value);
    } else {
      assert Do(mode, sc, act).st == sc.st;
    }
  }

  lemma {:induction false} EmptyingOverRuns(base: seq<Iface>, mode: Mode, was: map<Uid, Machine>, sc: Scene, h: nat,
                                            name: string, acts: seq<Act>)
    requires mode.atomicClaims && Emptying(base, was, sc, h, name) && Play(mode, sc, acts).Some?
    requires Unlock(h) !in acts && NeverObtained(acts, name)
    ensures Emptying(base, was, Play(mode, sc, acts).value, h, name)
    decreases |acts|
  {
    if acts != [] {
      assert acts[0] in acts && !Obtains(acts[0], name);
      EmptyingKept(base, mode, was, sc, h, name, acts[0]);
      EmptyingOverRuns(base, mode, was, Do(mode, sc, acts[0]), h, name, acts[1..]);
    }
  }

  lemma EmptiedIsClear(base: seq<Iface>, mode: Mode, was: map<Uid, Machine>, sc: Scene, h: nat, name: string)
    requires Emptying(base, was, sc, h, name) && Possible(mode, sc, Unlock(h))
    ensures !Threat(Do(mode, sc, Unlock(h)), name)
  {
    DuringEnds(base, mode, was, sc.st);
    NoneLeft(sc.st, name);
    var st' := Do(mode, sc, Unlock(h)).st;
    assert forall t, u :: Is(sc.st, t, Cloning(u)) ==> Done(sc.st, Cloning(u));
    forall u ensures !IsRunning(st', name, u) && !CanStore(st', u, name) {
      assert !IsRunning(sc.st, name, u);
    }
    forall k ensures !CanLaunch(Do(mode, sc, Unlock(h)), k, name) {
    }
  }

  lemma BothNeverObtained(first: seq<Act>, second: seq<Act>, name: string)
    requires NeverObtained(first + second, name)
    ensures NeverObtained(first, name) && NeverObtained(second, name)
  {
    assert forall i :: 0 <= i < |first| ==> (first + second)[i] == first[i];
    assert forall i :: 0 <= i < |second| ==> (first + second)[|first| + i] == second[i];
  }

  lemma LockStartsEmptying(base: seq<Iface>, mode: Mode, sc: Scene, h: nat)
    requires Base(sc.st) && BridgeHolds(base, sc.st) && Possible(mode, sc, Lock(h)) && sc.handlers[h].kind.Deletes?
    requires Quiet(sc.st, sc.handlers[h].name) && NoneAtHand(sc, sc.handlers[h].name)
    ensures Emptying(base, sc.st.instances, Do(mode, sc, Lock(h)), h, sc.handlers[h].name)
  {
    NoneAtHandKept(mode, sc, Lock(h), sc.handlers[h].name);
    DuringStarts(base, mode, sc.st, sc.handlers[h].name, 0);
    assert Do(mode, sc, Lock(h)).st == Apply(mode, sc.st, StartScale(sc.handlers[h].name, 0));
  }

  lemma {:induction false} BaseOverRuns(base: seq<Iface>, mode: Mode, sc: Scene, acts: seq<Act>)
    requires Base(sc.st) && BridgeHolds(base, sc.st) && Play(mode, sc, acts).Some?
    ensures Base(Play(mode, sc, acts).value.st) && BridgeHolds(base, Play(mode, sc, acts).value.st)
    decreases |acts|
  {
    if acts != [] {
      var step := StepOf(sc, acts[0]);
      if step.Some? {
        BaseKept(base, mode, sc.st, step.value);
      }
      assert Do(mode, sc, acts[0]).st == if step.Some? then Apply(mode, sc.st, step.value) else sc.st;
      BaseOverRuns(base, mode, Do(mode, sc, acts[0]), acts[1..]);
    }
  }

  /**
    A delete handler, with atomic claims, whatever handlers of other functions do meanwhile: if no handler
    has the function at hand when it gets the lock, no other creation for it is under way, and none gets
    hold of it until the removal, then nothing threatens the removal.
   */
  lemma DeleteAloneIsHarmless(mode: Mode, bridge: seq<Iface>, before: seq<Act>, sc: Scene, h: nat,
                              during: seq<Act>, mid: Scene, after: seq<Act>, end: Scene)
    requires mode.atomicClaims && Play(mode, Opening(bridge), before) == Some(sc)
    requires Possible(mode, sc, Lock(h)) && sc.handlers[h].kind.Deletes?
    requires Quiet(sc.st, sc.handlers[h].name) && NoneAtHand(sc, sc.handlers[h].name)
    requires Play(mode, Do(mode, sc, Lock(h)), during) == Some(mid) && Unlock(h) !in during && Possible(mode, mid, Unlock(h))
    requires Play(mode, Do(mode, mid, Unlock(h)), after) == Some(end)
    requires NeverObtained(during + after, sc.handlers[h].name)
    ensures !Threat(end, sc.handlers[h].name)
  {
    var name := sc.handlers[h].name;
    BothNeverObtained(during, after, name);
    InvInitially(bridge, mode);
    BaseOverRuns(bridge, mode, Opening(bridge), before);
    LockStartsEmptying(bridge, mode, sc, h);
    EmptyingOverRuns(bridge, mode, sc.st.instances, Do(mode, sc, Lock(h)), h, name, during);
    EmptiedIsClear(bridge, mode, sc.st.instances, mid, h, name);
    LockHeldOverRuns(mode, Opening(bridge), before);
    LockHeldAfter(mode, sc, Lock(h));
    LockHeldOverRuns(mode, Do(mode, sc, Lock(h)), during);
    LockHeldAfter(mode, mid, Unlock(h));
    ClearOverRuns(mode, Do(mode, mid, Unlock(h)), after, name);
  }

  // ---------------------------------------------------------------- a scale handler beside a delete handler

  lemma {:induction false} PlayAppend(mode: Mode, sc: Scene, first: seq<Act>, second: seq<Act>)
    ensures Play(mode, sc, first + second) ==
            match Play(mode, sc, first) { case None => None case Some(mid) => Play(mode, mid, second) }
    decreases |first|
  {
    if first == [] {
      assert first + second == second;
    } else {
      assert (first + second)[1..] == first[1..] + second;
      if Possible(mode, sc, first[0]) {
        PlayAppend(mode, Do(mode, sc, first[0]), first[1..], second);
      }
    }
  }

  lemma NoneCounted(bridge: seq<Iface>, name: string)
    ensures Running(Initial(bridge), name) == 0
  {
    assert RunningSet(Initial(bridge), name) == {};
  }

  /** The function is deployed; a scale handler finds it and counts no machine. */
  function ScaleCounts(name: string): seq<Act> {
    [Add(0, name), Return(0)] + [Get(1, Scales(1), name), Poll(1)]
  }

  function Counted(bridge: seq<Iface>, name: string): Scene {
    Scene({name}, Initial(bridge), map[1 := Handler(Scales(1), name, Creating)], None)
  }

  lemma CountsNone(mode: Mode, bridge: seq<Iface>, name: string)
    ensures Play(mode, Opening(bridge), ScaleCounts(name)) == Some(Counted(bridge, name))
  {
    NoneCounted(bridge, name);
    var s0, deployed := Opening(bridge), Scene({name}, Initial(bridge), map[], None);
    var s1 := Do(mode, s0, Add(0, name));
    assert s1.handlers - {0} == map[];
    PlayTwo(mode, s0, Add(0, name), Return(0), s1, deployed);
    var s3 := Do(mode, deployed, Get(1, Scales(1), name));
    PlayTwo(mode, deployed, Get(1, Scales(1), name), Poll(1), s3, Counted(bridge, name));
    PlayAppend(mode, s0, [Add(0, name), Return(0)], [Get(1, Scales(1), name), Poll(1)]);
  }

  lemma PlayTwo(mode: Mode, sc: Scene, a: Act, b: Act, mid: Scene, end: Scene)
    requires Possible(mode, sc, a) && mid == Do(mode, sc, a) && Possible(mode, mid, b) && end == Do(mode, mid, b)
    ensures Play(mode, sc, [a, b]) == Some(end)
  {
    PlayCons(mode, sc, a, [b]);
    PlayCons(mode, mid, b, []);
    assert [a] + [b] == [a, b] && [b] + [] == [b];
  }

  /** A delete handler runs from its beginning to its end. */
  function DeleteRuns(name: string): seq<Act> {
    [Exists(2, name), Lock(2)] + [Unlock(2), Remove(2)]
  }

  /** The delete handler has the lock, and no workers to wait for. */
  function HasLock(bridge: seq<Iface>, name: string): Scene {
    Scene({name}, Initial(bridge).(holder := Scaling(name, 0, 0)),
          Counted(bridge, name).handlers[2 := Handler(Deletes, name, Working)], Some(2))
  }

  lemma LocksAtOnce(mode: Mode, bridge: seq<Iface>, name: string)
    ensures Play(mode, Counted(bridge, name), [Exists(2, name), Lock(2)]) == Some(HasLock(bridge, name))
  {
    NoneCounted(bridge, name);
    var s0 := Counted(bridge, name);
    var s1 := Do(mode, s0, Exists(2, name));
    assert Spawn(0) == map[];
    assert s1.handlers[2 := Handler(Deletes, name, Working)] == s0.handlers[2 := Handler(Deletes, name, Working)];
    PlayTwo(mode, s0, Exists(2, name), Lock(2), s1, HasLock(bridge, name));
  }

  lemma UnlocksAtOnce(mode: Mode, bridge: seq<Iface>, name: string)
    ensures Play(mode, HasLock(bridge, name), [Unlock(2), Remove(2)]) == Some(Counted(bridge, name).(functions := {}))
  {
    var s3 := Do(mode, HasLock(bridge, name), Unlock(2));
    assert s3.handlers - {2} == Counted(bridge, name).handlers && s3.functions - {name} == {};
    PlayTwo(mode, HasLock(bridge, name), Unlock(2), Remove(2), s3, Counted(bridge, name).(functions := {}));
  }

  lemma DeletesNothing(mode: Mode, bridge: seq<Iface>, name: string)
    ensures Play(mode, Counted(bridge, name), DeleteRuns(name)) == Some(Counted(bridge, name).(functions := {}))
  {
    var s0 := Counted(bridge, name);
    LocksAtOnce(mode, bridge, name);
    UnlocksAtOnce(mode, bridge, name);
    PlayAppend(mode, s0, [Exists(2, name), Lock(2)], [Unlock(2), Remove(2)]);
  }

  /** A scale handler that finds a function before a delete handler removes it can start a machine of it afterwards. */
  lemma RemovedFunctionCanRun(mode: Mode, bridge: seq<Iface>, name: string) returns (acts: seq<Act>, end: Scene)
    ensures Play(mode, Opening(bridge), ScaleCounts(name) + DeleteRuns(name) + acts) == Some(end)
    ensures NeverObtained(acts, name) && name !in end.functions && !NoneRunning(end.st, name)
  {
    CountsNone(mode, bridge, name);
    DeletesNothing(mode, bridge, name);
    PlayAppend(mode, Opening(bridge), ScaleCounts(name), DeleteRuns(name));
    var removed := Counted(bridge, name).(functions := {});
    assert CanLaunch(removed, 1, name);
    acts := ThreatIsReal(mode, removed, name);
    end := Play(mode, removed, acts).value;
    PlayAppend(mode, Opening(bridge), ScaleCounts(name) + DeleteRuns(name), acts);
    NotFound(mode, removed, acts, name);
  }

  // ---------------------------------------------------------------- handlers one after another

  /** No handler is under way. */
  function Between(w: World): Scene {
    Scene(w.store.functions.Keys, w.st, map[], None)
  }

  lemma PlayThen(mode: Mode, s0: Scene, first: seq<Act>, s1: Scene, second: seq<Act>, s2: Scene)
    requires Play(mode, s0, first) == Some(s1) && Play(mode, s1, second) == Some(s2)
    ensures Play(mode, s0, first + second) == Some(s2)
  {
    PlayAppend(mode, s0, first, second);
  }

  lemma PlayOne(mode: Mode, sc: Scene, act: Act)
    requires Possible(mode, sc, act)
    ensures Play(mode, sc, [act]) == Some(Do(mode, sc, act))
  {
    PlayCons(mode, sc, act, []);
    assert [act] + [] == [act];
  }

  lemma LeadsPlays(mode: Mode, sc: Scene, to: State) returns (acts: seq<Act>)
    requires Leads(mode, sc.st, to)
    ensures Play(mode, sc, acts) == Some(sc.(st := to))
  {
    var steps :| AllBackground(steps) && Exec(mode, sc.st, steps) == Some(to);
    MovesPlay(mode, sc, steps, to, "");
    acts := Moves(steps);
  }

  /** A handler's createMachine call, from its beginning to its return. */
  lemma LaunchPlays(mode: Mode, sc: Scene, h: nat, uid: Uid, to: State) returns (acts: seq<Act>)
    requires IsAt(sc, h, Creating) && Launched(mode, sc.st, sc.handlers[h].name, uid, to)
    ensures Play(mode, sc, acts) == Some(sc.(st := to, handlers := GoesOnToScale(sc, h)))
  {
    var s1 := Do(mode, sc, Launch(h, uid));
    PlayOne(mode, sc, Launch(h, uid));
    var moves := LeadsPlays(mode, s1, to);
    var s2 := s1.(st := to);
    PlayThen(mode, sc, [Launch(h, uid)], s1, moves, s2);
    PlayOne(mode, s2, Return(h));
    assert GoesOnToScale(s2, h) == GoesOnToScale(sc, h);
    acts := [Launch(h, uid)] + moves + [Return(h)];
    PlayThen(mode, sc, [Launch(h, uid)] + moves, s2, [Return(h)], sc.(st := to, handlers := GoesOnToScale(sc, h)));
  }

  /** How many machines a handler's scale operation is to leave. */
  function TargetOf(handler: Handler): nat {
    if handler.kind.Scales? then handler.kind.target else 0
  }

  /** A handler's scale operation, from waiting for the lock to giving it back. */
  lemma WorkPlays(mode: Mode, sc: Scene, h: nat, ended: State) returns (acts: seq<Act>)
    requires IsAt(sc, h, Queued) && sc.owner.None?
    requires Worked(mode, sc.st, sc.handlers[h].name, TargetOf(sc.handlers[h]), ended)
    ensures Play(mode, sc, acts) ==
            Some(sc.(st := Apply(mode, ended, EndScale),
                     handlers := if sc.handlers[h].kind.Deletes? then MovesTo(sc, h, Stopped) else sc.handlers - {h}))
  {
    var s1 := Do(mode, sc, Lock(h));
    PlayOne(mode, sc, Lock(h));
    var moves := LeadsPlays(mode, s1, ended);
    var s2 := s1.(st := ended);
    PlayThen(mode, sc, [Lock(h)], s1, moves, s2);
    PlayOne(mode, s2, Unlock(h));
    assert MovesTo(s2, h, Stopped) == MovesTo(sc, h, Stopped) && s2.handlers - {h} == sc.handlers - {h};
    acts := [Lock(h)] + moves + [Unlock(h)];
    PlayThen(mode, sc, [Lock(h)] + moves, s2, [Unlock(h)], Do(mode, s2, Unlock(h)));
  }

  lemma ScalePlays(mode: Mode, sc: Scene, h: nat, to: State) returns (acts: seq<Act>)
    requires IsAt(sc, h, Queued) && sc.owner.None?
    requires Scaled(mode, sc.st, sc.handlers[h].name, TargetOf(sc.handlers[h]), to)
    ensures Play(mode, sc, acts) ==
            Some(sc.(st := to, handlers := if sc.handlers[h].kind.Deletes? then MovesTo(sc, h, Stopped) else sc.handlers - {h}))
  {
    var counted, ended :|
      && Leads(mode, sc.st, counted) && Worked(mode, counted, sc.handlers[h].name, TargetOf(sc.handlers[h]), ended)
      && Leads(mode, Apply(mode, ended, EndScale), to);
    var waiting := LeadsPlays(mode, sc, counted);
    var s1 := sc.(st := counted);
    var work := WorkPlays(mode, s1, h, ended);
    var s2 := Play(mode, s1, work).value;
    var rest := LeadsPlays(mode, s2, to);
    PlayThen(mode, sc, waiting, s1, work, s2);
    PlayThen(mode, sc, waiting + work, s2, rest, s2.(st := to));
    acts := waiting + work + rest;
  }

  /** A handler that has counted no machine and creates one, or has counted some. */
  lemma PollPlays(mode: Mode, sc: Scene, h: nat, uid: Uid, to: State) returns (acts: seq<Act>)
    requires IsAt(sc, h, AtHand)
    requires if Running(sc.st, sc.handlers[h].name) > 0 then to == sc.st else Launched(mode, sc.st, sc.handlers[h].name, uid, to)
    ensures Play(mode, sc, acts) == Some(sc.(st := to, handlers := GoesOnToScale(sc, h)))
  {
    var s1 := Do(mode, sc, Poll(h));
    PlayOne(mode, sc, Poll(h));
    if Running(sc.st, sc.handlers[h].name) > 0 {
      acts := [Poll(h)];
    } else {
      var launch := LaunchPlays(mode, s1, h, uid, to);
      assert GoesOnToScale(s1, h) == GoesOnToScale(sc, h);
      PlayThen(mode, sc, [Poll(h)], s1, launch, sc.(st := to, handlers := GoesOnToScale(sc, h)));
      acts := [Poll(h)] + launch;
    }
  }

  lemma DeployIsPlayed(mode: Mode, before: World, req: Deployment, env: F.Outside, uid: Uid, after: World)
    returns (acts: seq<Act>)
    requires Handled(mode, before, Request.Deploying(req, env, uid), after)
    ensures Play(mode, Between(before), acts) == Some(Between(after))
  {
    F.OutcomesOfAdd(before.store, req, env);
    if F.Add(before.store, req, env).outcome.Stored? {
      var s0 := Between(before);
      var s1 := Do(mode, s0, Add(0, req.service));
      PlayOne(mode, s0, Add(0, req.service));
      var launch := LaunchPlays(mode, s1, 0, uid, after.st);
      F.AddUsesFirstUsable(before.store, req, env);
      assert GoesOnToScale(s1, 0) == map[] && s1.functions == after.store.functions.Keys;
      PlayThen(mode, s0, [Add(0, req.service)], s1, launch, Between(after));
      acts := [Add(0, req.service)] + launch;
    } else {
      acts := [];
    }
  }

  /** The state in which the scale operation of a handled request begins to wait. */
  lemma ScaleBegins(mode: Mode, before: World, name: string, target: nat, uid: Uid, after: World) returns (mid: State)
    requires Handled(mode, before, Request.Rescaling(name, target, uid), after) && name in before.store.functions
    ensures if Running(before.st, name) > 0 then mid == before.st else Launched(mode, before.st, name, uid, mid)
    ensures Scaled(mode, mid, name, target, after.st) && after.store == before.store
  {
    mid := before.st;
    if Running(before.st, name) == 0 {
      mid :| Launched(mode, before.st, name, uid, mid) && Scaled(mode, mid, name, target, after.st);
    }
  }

  lemma RescaleIsPlayed(mode: Mode, before: World, name: string, target: nat, uid: Uid, after: World) returns (acts: seq<Act>)
    requires Handled(mode, before, Request.Rescaling(name, target, uid), after)
    ensures Play(mode, Between(before), acts) == Some(Between(after))
  {
    if name in before.store.functions {
      var mid := ScaleBegins(mode, before, name, target, uid, after);
      var s0 := Between(before);
      var s1 := Do(mode, s0, Get(0, Scales(target), name));
      PlayOne(mode, s0, Get(0, Scales(target), name));
      var poll := PollPlays(mode, s1, 0, uid, mid);
      var s2 := s1.(st := mid, handlers := GoesOnToScale(s1, 0));
      var scale := ScalePlays(mode, s2, 0, after.st);
      assert s2.handlers - {0} == map[];
      PlayThen(mode, s0, [Get(0, Scales(target), name)], s1, poll, s2);
      PlayThen(mode, s0, [Get(0, Scales(target), name)] + poll, s2, scale, Between(after));
      acts := [Get(0, Scales(target), name)] + poll + scale;
    } else {
      acts := [];
    }
  }

  lemma DeleteIsPlayed(mode: Mode, before: World, name: string, after: World) returns (acts: seq<Act>)
    requires Handled(mode, before, Request.Deleting(name), after)
    ensures Play(mode, Between(before), acts) == Some(Between(after))
  {
    var s0 := Between(before);
    assert after.store.functions.Keys == s0.functions - {name};
    if name in before.store.functions {
      var s1 := Do(mode, s0, Exists(0, name));
      PlayOne(mode, s0, Exists(0, name));
      var scale := ScalePlays(mode, s1, 0, after.st);
      var s2 := s1.(st := after.st, handlers := MovesTo(s1, 0, Stopped));
      PlayThen(mode, s0, [Exists(0, name)], s1, scale, s2);
      PlayOne(mode, s2, Remove(0));
      assert s2.handlers - {0} == map[];
      PlayThen(mode, s0, [Exists(0, name)] + scale, s2, [Remove(0)], Between(after));
      acts := [Exists(0, name)] + scale + [Remove(0)];
    } else {
      assert s0.functions - {name} == s0.functions;
      acts := [];
    }
  }

  lemma InvokeIsPlayed(mode: Mode, before: World, functionName: string, uid: Uid, after: World) returns (acts: seq<Act>)
    requires Handled(mode, before, Request.Invoking(functionName, uid), after)
    ensures Play(mode, Between(before), acts) == Some(Between(after))
  {
    var name := ActualName(functionName);
    if name in before.store.functions {
      var s0 := Between(before);
      var s1 := Do(mode, s0, Get(0, Invokes, name));
      PlayOne(mode, s0, Get(0, Invokes, name));
      var poll := PollPlays(mode, s1, 0, uid, after.st);
      assert GoesOnToScale(s1, 0) == map[];
      PlayThen(mode, s0, [Get(0, Invokes, name)], s1, poll, Between(after));
      acts := [Get(0, Invokes, name)] + poll;
    } else {
      acts := [];
    }
  }

  /** What a completed handler does by itself, it does as one of the handlers side by side. */
  lemma HandledIsPlayed(mode: Mode, before: World, request: Request, after: World) returns (acts: seq<Act>)
    requires Handled(mode, before, request, after)
    ensures Play(mode, Between(before), acts) == Some(Between(after))
  {
    match request
    case Deploying(req, env, uid) => acts := DeployIsPlayed(mode, before, req, env, uid, after);
    case Rescaling(name, target, uid) => acts := RescaleIsPlayed(mode, before, name, target, uid, after);
    case Deleting(name) => acts := DeleteIsPlayed(mode, before, name, after);
    case Invoking(functionName, uid) => acts := InvokeIsPlayed(mode, before, functionName, uid, after);
    case Idling => acts := LeadsPlays(mode, Between(before), after.st);
  }
}
