/**
  AddServiceIP and DeleteServiceIP of the internal controller as they are written: loading the service's
  balancer, extending or rebuilding it, and storing it back are separate steps, and calls run side by side.
 */
module BalancerRace {
  import opened Common
  import opened LoadBalancer
  import I = InternalController

  /** A call on one service. */
  datatype Op = Add(ip: IP) | Del(ip: IP)

  /**
    Two updates read a field and write it later, with no lock: AddInstance extends the balancer's list, and
    the counter changes by one. With Calls each of them is one step, with Accesses two.
   */
  datatype Grain = Calls | Accesses

  /** Where a call stands; balancer objects are named by their position in the heap. */
  datatype Pc =
    | Start
    | Loaded(balancer: nat)
    | Held(balancer: nat, seen: seq<IP>)   // AddInstance has read the list
    | Made(balancer: nat)
    | Stored(counted: int)                 // the balancer is in the map; the counter has been read
    | Done
    | Panicked

  /** One service: all balancer objects ever made, the one in the map, and its part of the other tables. */
  datatype Race = Race(heap: seq<seq<IP>>, current: Option<nat>, health: set<IP>, count: int, pcs: seq<Pc>)

  predicate On(pc: Pc, b: nat) {
    (pc.Loaded? || pc.Held? || pc.Made?) && pc.balancer == b
  }

  predicate WellFormed(st: Race, ops: seq<Op>) {
    && |st.pcs| == |ops|
    && (st.current.Some? ==> st.current.value < |st.heap|)
    && (forall i :: 0 <= i < |ops| && (st.pcs[i].Loaded? || st.pcs[i].Held? || st.pcs[i].Made?) ==>
          st.pcs[i].balancer < |st.heap|)
  }

  /** An addition extends the balancer it loaded in place; a deletion makes a new one from what it loaded. */
  function Make(g: Grain, st: Race, op: Op, i: nat, b: nat): Race
    requires i < |st.pcs| && b < |st.heap|
  {
    match op
    case Add(ip) =>
      if g.Accesses? then st.(pcs := st.pcs[i := Held(b, st.heap[b])])
      else st.(heap := st.heap[b := st.heap[b] + [ip]], pcs := st.pcs[i := Made(b)])
    case Del(ip) =>
      match Removed(st.heap[b], ip)
      case None => st.(pcs := st.pcs[i := Panicked])
      case Some(rest) =>
        if st.heap[b] == [] then st.(pcs := st.pcs[i := Made(b)])
        else st.(heap := st.heap + [rest], pcs := st.pcs[i := Made(|st.heap|)])
  }

  function Checked(health: set<IP>, op: Op): set<IP> {
    match op
    case Add(ip) => health + {ip}
    case Del(ip) => health - {ip}
  }

  function Delta(op: Op): int {
    if op.Add? then 1 else -1
  }

  /** The end of a call. Its health entry is stored with its balancer, as no other step depends on that entry. */
  function Close(g: Grain, st: Race, op: Op, i: nat): Race
    requires i < |st.pcs|
  {
    var closed := st.(health := Checked(st.health, op));
    if g.Accesses? then closed.(pcs := st.pcs[i := Stored(st.count)])
    else closed.(count := st.count + Delta(op), pcs := st.pcs[i := Done])
  }

  /** Call `i` takes its next step. */
  function Advance(g: Grain, st: Race, ops: seq<Op>, i: nat): (st': Race)
    requires WellFormed(st, ops) && i < |ops|
    ensures WellFormed(st', ops)
  {
    match st.pcs[i]
    case Start =>
      if st.current.Some? then st.(pcs := st.pcs[i := Loaded(st.current.value)])
      else if ops[i].Add? then st.(heap := st.heap + [[]], pcs := st.pcs[i := Loaded(|st.heap|)])
      else Close(g, st, ops[i], i)
    case Loaded(b) => Make(g, st, ops[i], i, b)
    case Held(b, seen) => st.(heap := st.heap[b := seen + [ops[i].ip]], pcs := st.pcs[i := Made(b)])
    case Made(b) => Close(g, st.(current := Some(b)), ops[i], i)
    case Stored(counted) => st.(count := counted + Delta(ops[i]), pcs := st.pcs[i := Done])
    case _ => st
  }

  /** Call `i` takes a step, then call `j`. */
  function Pair(g: Grain, st: Race, ops: seq<Op>, i: nat, j: nat): (st': Race)
    requires WellFormed(st, ops) && i < |ops| && j < |ops|
    ensures WellFormed(st', ops)
  {
    Advance(g, Advance(g, st, ops, i), ops, j)
  }

  /** A schedule says whose turn it is; turns of nobody are passed over. */
  function Run(g: Grain, st: Race, ops: seq<Op>, schedule: seq<nat>): (st': Race)
    requires WellFormed(st, ops)
    ensures WellFormed(st', ops)
    decreases |schedule|
  {
    if schedule == [] then st
    else if schedule[0] < |ops| then Run(g, Advance(g, st, ops, schedule[0]), ops, schedule[1..])
    else Run(g, st, ops, schedule[1..])
  }

  /** The addresses the service's balancer lists. */
  function Listed(st: Race): seq<IP> {
    if st.current.Some? && st.current.value < |st.heap| then st.heap[st.current.value] else []
  }

  function Elems(ips: seq<IP>): set<IP> {
    set ip | ip in ips
  }

  /** Nobody has begun; the service may or may not have a balancer, and the tables agree. */
  function Begin(base: Option<seq<IP>>, ops: seq<Op>): (st: Race)
    ensures WellFormed(st, ops)
  {
    var pcs := seq(|ops|, _ => Start);
    match base
    case None => Race([], None, {}, 0, pcs)
    case Some(ips) => Race([ips], Some(0), Elems(ips), |ips|, pcs)
  }

  function Before(base: Option<seq<IP>>): seq<IP> {
    if base.Some? then base.value else []
  }

  /** What the store guarantees: new addresses are added, present ones deleted, each in one call. */
  ghost predicate Fair(base: seq<IP>, ops: seq<Op>) {
    && NoDup(base) && NoDup(ops)
    && forall i :: 0 <= i < |ops| ==> (ops[i].Del? <==> ops[i].ip in base)
  }

  predicate AllAdd(ops: seq<Op>) {
    forall i :: 0 <= i < |ops| ==> ops[i].Add?
  }

  predicate AllDone(pcs: seq<Pc>) {
    forall i :: 0 <= i < |pcs| ==> pcs[i] == Done
  }

  /** The list has what was there and was not deleted, and what was added, each once. */
  ghost predicate Right(base: seq<IP>, ops: seq<Op>, ips: seq<IP>) {
    NoDup(ips) && forall ip :: ip in ips <==> (ip in base && Del(ip) !in ops) || Add(ip) in ops
  }

  /** The health table and the counter say what `ips` says. */
  ghost predicate Tells(st: Race, ips: seq<IP>) {
    st.health == Elems(ips) && st.count == |ips|
  }

  ghost predicate Agree(st: Race) {
    Tells(st, Listed(st))
  }

  ghost predicate Sound(base: Option<seq<IP>>, ops: seq<Op>, end: Race) {
    && Panicked !in end.pcs
    && (AllDone(end.pcs) ==> Right(Before(base), ops, Listed(end)) && Agree(end))
  }

  /** No schedule panics or ends with an address lost, one brought back, or tables that disagree. */
  ghost predicate Safe(g: Grain, base: Option<seq<IP>>, ops: seq<Op>) {
    forall schedule :: Sound(base, ops, Run(g, Begin(base, ops), ops, schedule))
  }

  /** Some schedule takes all calls to their end and leaves the wrong list. */
  ghost predicate Loses(g: Grain, base: Option<seq<IP>>, ops: seq<Op>) {
    exists schedule :: Ends(g, base, ops, schedule) && !Right(Before(base), ops, Listed(Run(g, Begin(base, ops), ops, schedule)))
  }

  predicate Ends(g: Grain, base: Option<seq<IP>>, ops: seq<Op>, schedule: seq<nat>) {
    AllDone(Run(g, Begin(base, ops), ops, schedule).pcs)
  }

  // ---------------------------------------------------------------- additions to a balancer that is there

  predicate Added(pc: Pc) {
    pc.Made? || pc.Stored? || pc.Done?
  }

  /** How many of the additions of `ip` have extended a balancer. */
  function AddedCount(ops: seq<Op>, pcs: seq<Pc>, ip: IP): nat
    requires |ops| == |pcs|
  {
    if ops == [] then 0
    else (if ops[0] == Add(ip) && Added(pcs[0]) then 1 else 0) + AddedCount(ops[1..], pcs[1..], ip)
  }

  lemma {:induction false} AddedCountUpdate(ops: seq<Op>, pcs: seq<Pc>, i: nat, pc: Pc, ip: IP)
    requires |ops| == |pcs| && i < |ops| && (Added(pcs[i]) ==> Added(pc))
    ensures AddedCount(ops, pcs[i := pc], ip) ==
            AddedCount(ops, pcs, ip) + if ops[i] == Add(ip) && Added(pc) && !Added(pcs[i]) then 1 else 0
  {
    if i == 0 {
      assert pcs[0 := pc][1..] == pcs[1..];
    } else {
      AddedCountUpdate(ops[1..], pcs[1..], i - 1, pc, ip);
      assert pcs[i := pc][1..] == pcs[1..][i - 1 := pc];
    }
  }

  /** The calls that have extended a balancer, and those that have ended. */
  function AddedOnes(pcs: seq<Pc>): set<nat> {
    set i: nat | i < |pcs| && Added(pcs[i])
  }

  function DoneOnes(pcs: seq<Pc>): set<nat> {
    set i: nat | i < |pcs| && pcs[i].Done?
  }

  /** Everybody works on the balancer that was there, which gets every added address once. */
  ghost predicate Shared(st: Race, ops: seq<Op>, base: seq<IP>) {
    && WellFormed(st, ops) && st.current == Some(0)
    && (forall i :: 0 <= i < |ops| ==> st.pcs[i] in [Start, Loaded(0), Made(0), Done])
    && (forall ip :: multiset(st.heap[0])[ip] == multiset(base)[ip] + AddedCount(ops, st.pcs, ip))
  }

  /** The health table has the addresses of the calls that have ended, and the counter counts them. */
  ghost predicate Counted(st: Race, ops: seq<Op>, base: seq<IP>) {
    && WellFormed(st, ops) && st.current == Some(0)
    && |st.heap[0]| == |base| + |AddedOnes(st.pcs)|
    && st.count == |base| + |DoneOnes(st.pcs)|
    && (forall ip :: ip in st.health <==> ip in base || exists i :: i in DoneOnes(st.pcs) && ops[i] == Add(ip))
  }

  lemma SharedKept(st: Race, ops: seq<Op>, base: seq<IP>, i: nat)
    requires Shared(st, ops, base) && AllAdd(ops) && i < |ops|
    ensures Shared(Advance(Calls, st, ops, i), ops, base)
  {
    var st' := Advance(Calls, st, ops, i);
    forall ip ensures multiset(st'.heap[0])[ip] == multiset(base)[ip] + AddedCount(ops, st'.pcs, ip) {
      AddedCountUpdate(ops, st.pcs, i, st'.pcs[i], ip);
    }
  }

  lemma OnesUpdate(pcs: seq<Pc>, i: nat, pc: Pc)
    requires i < |pcs| && (Added(pcs[i]) ==> Added(pc)) && (pcs[i].Done? ==> pc.Done?)
    ensures AddedOnes(pcs[i := pc]) == if Added(pc) then AddedOnes(pcs) + {i} else AddedOnes(pcs)
    ensures DoneOnes(pcs[i := pc]) == if pc.Done? then DoneOnes(pcs) + {i} else DoneOnes(pcs)
  {
  }

  lemma CountedKept(st: Race, ops: seq<Op>, base: seq<IP>, i: nat)
    requires Shared(st, ops, base) && Counted(st, ops, base) && AllAdd(ops) && i < |ops|
    ensures Counted(Advance(Calls, st, ops, i), ops, base)
  {
    var st' := Advance(Calls, st, ops, i);
    OnesUpdate(st.pcs, i, st'.pcs[i]);
    if st.pcs[i] == Made(0) {
      CloseCounts(st, ops, base, i);
    } else {
      assert st'.pcs == st.pcs[i := st'.pcs[i]] && DoneOnes(st'.pcs) == DoneOnes(st.pcs);
    }
  }

  lemma CloseCounts(st: Race, ops: seq<Op>, base: seq<IP>, i: nat)
    requires Counted(st, ops, base) && i < |ops| && ops[i].Add? && st.pcs[i] == Made(0)
    ensures Counted(Close(Calls, st, ops[i], i), ops, base)
  {
    OnesUpdate(st.pcs, i, Done);
    var st' := Close(Calls, st, ops[i], i);
    assert AddedOnes(st'.pcs) == AddedOnes(st.pcs);
    forall ip ensures ip in st'.health <==> ip in base || exists k :: k in DoneOnes(st'.pcs) && ops[k] == Add(ip) {
      if ip in st.health && ip !in base {
        var k :| k in DoneOnes(st.pcs) && ops[k] == Add(ip);
        assert k in DoneOnes(st'.pcs);
      } else if ip == ops[i].ip {
        assert i in DoneOnes(st'.pcs);
      }
    }
  }

  lemma {:induction false} SharedOverRuns(st: Race, ops: seq<Op>, base: seq<IP>, schedule: seq<nat>)
    requires Shared(st, ops, base) && Counted(st, ops, base) && AllAdd(ops)
    ensures Shared(Run(Calls, st, ops, schedule), ops, base) && Counted(Run(Calls, st, ops, schedule), ops, base)
    decreases |schedule|
  {
    if schedule != [] {
      if schedule[0] < |ops| {
        SharedKept(st, ops, base, schedule[0]);
        CountedKept(st, ops, base, schedule[0]);
        SharedOverRuns(Advance(Calls, st, ops, schedule[0]), ops, base, schedule[1..]);
      } else {
        SharedOverRuns(st, ops, base, schedule[1..]);
      }
    }
  }

  lemma {:induction false} AllAdded(ops: seq<Op>, pcs: seq<Pc>, ip: IP)
    requires |ops| == |pcs|
    ensures (forall i :: 0 <= i < |pcs| ==> pcs[i].Start?) ==> AddedCount(ops, pcs, ip) == 0
    ensures AllDone(pcs) ==> AddedCount(ops, pcs, ip) == multiset(ops)[Add(ip)]
  {
    if ops != [] {
      AllAdded(ops[1..], pcs[1..], ip);
      assert ops == [ops[0]] + ops[1..];
      assert forall i :: 0 <= i < |pcs| - 1 ==> pcs[1..][i] == pcs[i + 1];
    }
  }

  lemma SharedAtStart(ops: seq<Op>, base: seq<IP>)
    ensures Shared(Begin(Some(base), ops), ops, base) && Counted(Begin(Some(base), ops), ops, base)
  {
    var start := Begin(Some(base), ops);
    forall ip ensures AddedCount(ops, start.pcs, ip) == 0 {
      AllAdded(ops, start.pcs, ip);
    }
    assert AddedOnes(start.pcs) == {} && DoneOnes(start.pcs) == {};
  }

  /**
    If the service has a balancer and each AddInstance is one step, no schedule of any number of
    registrations loses an address, and the counter keeps up.
   */
  lemma NothingLostWithBalancer(base: seq<IP>, ops: seq<Op>, schedule: seq<nat>)
    requires AllAdd(ops)
    ensures var end := Run(Calls, Begin(Some(base), ops), ops, schedule);
            && Panicked !in end.pcs
            && (AllDone(end.pcs) ==>
                  && Agree(end)
                  && forall ip :: multiset(Listed(end))[ip] == multiset(base)[ip] + multiset(ops)[Add(ip)])
  {
    SharedAtStart(ops, base);
    SharedOverRuns(Begin(Some(base), ops), ops, base, schedule);
    var end := Run(Calls, Begin(Some(base), ops), ops, schedule);
    if AllDone(end.pcs) {
      forall ip ensures multiset(Listed(end))[ip] == multiset(base)[ip] + multiset(ops)[Add(ip)] {
        AllAdded(ops, end.pcs, ip);
      }
      AllCounted(end, ops, base);
    }
  }

  lemma AllCounted(end: Race, ops: seq<Op>, base: seq<IP>)
    requires Counted(end, ops, base) && AllDone(end.pcs)
    requires forall ip :: multiset(Listed(end))[ip] == multiset(base)[ip] + multiset(ops)[Add(ip)]
    ensures Agree(end)
  {
    assert AddedOnes(end.pcs) == DoneOnes(end.pcs);
    forall ip ensures ip in end.health <==> ip in Listed(end) {
      assert ip in Listed(end) <==> multiset(Listed(end))[ip] > 0;
      assert Add(ip) in ops <==> exists i :: i in DoneOnes(end.pcs) && ops[i] == Add(ip);
    }
  }

  lemma {:induction false} NoDupCounts<T>(s: seq<T>)
    ensures NoDup(s) <==> forall x :: multiset(s)[x] <= 1
  {
    if s != [] {
      NoDupCounts(s[1..]);
      assert s == [s[0]] + s[1..];
      assert forall x :: multiset(s)[x] == multiset(s[1..])[x] + if x == s[0] then 1 else 0;
      assert s[0] in s[1..] ==> multiset(s)[s[0]] >= 2;
      if forall x :: multiset(s)[x] <= 1 {
        assert s[0] !in s[1..];
        forall i, j | 0 <= i < j < |s| ensures s[i] != s[j] {
          assert s[j] == s[1..][j - 1];
          assert i > 0 ==> s[i] == s[1..][i - 1];
        }
      }
      if NoDup(s) {
        assert forall i :: 0 <= i < |s| - 1 ==> s[1..][i] == s[i + 1];
        assert s[0] !in s[1..];
      }
    }
  }

  lemma AdditionsAreSafe(base: seq<IP>, ops: seq<Op>)
    requires Fair(base, ops) && AllAdd(ops)
    ensures Safe(Calls, Some(base), ops)
  {
    forall schedule ensures Sound(Some(base), ops, Run(Calls, Begin(Some(base), ops), ops, schedule)) {
      NothingLostWithBalancer(base, ops, schedule);
      var ips := Listed(Run(Calls, Begin(Some(base), ops), ops, schedule));
      NoDupCounts(base);
      NoDupCounts(ops);
      NoDupCounts(ips);
      assert forall ip :: multiset(ips)[ip] > 0 <==> ip in ips;
      assert forall ip :: Add(ip) in ops ==> ip !in base;
      assert forall ip :: Del(ip) !in ops;
    }
  }

  // ---------------------------------------------------------------- one call

  function Applied(op: Op, ips: seq<IP>): seq<IP> {
    match op
    case Add(ip) => ips + [ip]
    case Del(ip) => Without(ips, ip)
  }

  /** The call can be made on that list: an addition of a new address, or a deletion of a present one. */
  ghost predicate Fits(op: Op, ips: seq<IP>) {
    NoDup(ips) && (op.Del? <==> op.ip in ips)
  }

  lemma RemovedIsApplied(ips: seq<IP>, ip: IP)
    requires NoDup(ips) && ip in ips
    ensures Removed(ips, ip) == Some(Without(ips, ip))
    ensures NoDup(Without(ips, ip)) && forall x :: x in Without(ips, ip) <==> x in ips && x != ip
    ensures |Without(ips, ip)| == |ips| - 1
  {
    var i :| 0 <= i < |ips| && ips[i] == ip;
    RemovedOnce(ips, i);
    CountWithout(ips, ip);
  }

  /** The stages of a call that has the service to itself. */
  ghost predicate Solo(st: Race, op: Op, base: seq<IP>) {
    && |st.pcs| == 1
    && match st.pcs[0] {
         case Start => Listed(st) == base && (st.current.None? ==> base == []) && Tells(st, base)
         case Loaded(b) => b < |st.heap| && st.heap[b] == base && Tells(st, base)
         case Held(b, seen) => b < |st.heap| && seen == base && op.Add? && Tells(st, base)
         case Made(b) => b < |st.heap| && st.heap[b] == Applied(op, base) && Tells(st, base)
         case Stored(counted) => Listed(st) == Applied(op, base) && st.health == Elems(Applied(op, base)) && counted == |base|
         case Done => Listed(st) == Applied(op, base) && Tells(st, Applied(op, base))
         case Panicked => false
       }
  }

  lemma AppliedTells(op: Op, ips: seq<IP>)
    requires Fits(op, ips)
    ensures Elems(Applied(op, ips)) == Checked(Elems(ips), op) && |Applied(op, ips)| == |ips| + Delta(op)
    ensures NoDup(Applied(op, ips)) && (op.Del? ==> Removed(ips, op.ip) == Some(Applied(op, ips)))
  {
    if op.Del? {
      RemovedIsApplied(ips, op.ip);
    }
  }

  lemma SoloKept(g: Grain, st: Race, ops: seq<Op>, base: seq<IP>)
    requires WellFormed(st, ops) && |ops| == 1 && Fits(ops[0], base) && Solo(st, ops[0], base)
    ensures Solo(Advance(g, st, ops, 0), ops[0], base)
  {
    AppliedTells(ops[0], base);
  }

  lemma {:induction false} SoloOverRuns(g: Grain, st: Race, ops: seq<Op>, base: seq<IP>, schedule: seq<nat>)
    requires WellFormed(st, ops) && |ops| == 1 && Fits(ops[0], base) && Solo(st, ops[0], base)
    ensures Solo(Run(g, st, ops, schedule), ops[0], base)
    decreases |schedule|
  {
    if schedule != [] {
      if schedule[0] < 1 {
        SoloKept(g, st, ops, base);
        SoloOverRuns(g, Advance(g, st, ops, schedule[0]), ops, base, schedule[1..]);
      } else {
        SoloOverRuns(g, st, ops, base, schedule[1..]);
      }
    }
  }

  lemma AppliedIsRight(base: seq<IP>, ops: seq<Op>)
    requires Fair(base, ops) && |ops| == 1
    ensures Right(base, ops, Applied(ops[0], base))
  {
    if ops[0].Del? {
      RemovedIsApplied(base, ops[0].ip);
    }
    assert ops == [ops[0]];
  }

  lemma {:induction false} NobodyRuns(g: Grain, st: Race, schedule: seq<nat>)
    requires WellFormed(st, [])
    ensures Run(g, st, [], schedule) == st
    decreases |schedule|
  {
    if schedule != [] {
      NobodyRuns(g, st, schedule[1..]);
    }
  }

  lemma OneCallIsSafe(g: Grain, base: Option<seq<IP>>, ops: seq<Op>)
    requires Fair(Before(base), ops) && |ops| <= 1
    ensures Safe(g, base, ops)
  {
    forall schedule ensures Sound(base, ops, Run(g, Begin(base, ops), ops, schedule)) {
      if ops == [] {
        NobodyRuns(g, Begin(base, ops), schedule);
      } else {
        SoloOverRuns(g, Begin(base, ops), ops, Before(base), schedule);
        AppliedIsRight(Before(base), ops);
      }
    }
  }

  // ---------------------------------------------------------------- calls that do not overlap

  /** Nobody is in the middle of a call, and what is still to be called fits. */
  ghost predicate Settled(st: Race, ops: seq<Op>) {
    && WellFormed(st, ops) && NoDup(Listed(st)) && NoDup(ops)
    && (forall i :: 0 <= i < |ops| ==> st.pcs[i] == Start || st.pcs[i] == Done)
    && (forall i :: 0 <= i < |ops| && st.pcs[i] == Start ==> Fits(ops[i], Listed(st)))
  }

  /** No two calls still to come are about the same address. */
  ghost predicate Apart(ops: seq<Op>) {
    forall i, j :: 0 <= i < j < |ops| ==> ops[i].ip != ops[j].ip
  }

  lemma RunCons(g: Grain, st: Race, ops: seq<Op>, i: nat, schedule: seq<nat>)
    requires WellFormed(st, ops) && i < |ops|
    ensures Run(g, st, ops, [i] + schedule) == Run(g, Advance(g, st, ops, i), ops, schedule)
  {
    assert ([i] + schedule)[1..] == schedule;
  }

  lemma RunThree(st: Race, ops: seq<Op>, i: nat, j: nat, k: nat, schedule: seq<nat>)
    requires WellFormed(st, ops) && i < |ops| && j < |ops| && k < |ops|
    ensures Run(Calls, st, ops, [i, j, k] + schedule) == Run(Calls, Pair(Calls, Advance(Calls, st, ops, i), ops, j, k), ops, schedule)
  {
    RunCons(Calls, st, ops, i, [j, k] + schedule);
    RunCons(Calls, Advance(Calls, st, ops, i), ops, j, [k] + schedule);
    RunCons(Calls, Pair(Calls, st, ops, i, j), ops, k, schedule);
    assert [i, j, k] + schedule == [i] + ([j, k] + schedule);
    assert [j, k] + schedule == [j] + ([k] + schedule);
  }

  function Thrice(st: Race, ops: seq<Op>, k: nat): (st': Race)
    requires WellFormed(st, ops) && k < |ops|
    ensures WellFormed(st', ops)
  {
    Pair(Calls, Advance(Calls, st, ops, k), ops, k, k)
  }

  /** A call that is made while nobody else is in the middle of one has its effect in one piece. */
  lemma AloneIsAtomic(st: Race, ops: seq<Op>, k: nat)
    requires Settled(st, ops) && k < |ops| && st.pcs[k] == Start
    ensures Thrice(st, ops, k).pcs == st.pcs[k := Done]
    ensures Listed(Thrice(st, ops, k)) == Applied(ops[k], Listed(st))
    ensures Thrice(st, ops, k).health == Checked(st.health, ops[k]) && Thrice(st, ops, k).count == st.count + Delta(ops[k])
    ensures Apart(ops) ==> Settled(Thrice(st, ops, k), ops)
  {
    if ops[k].Del? {
      RemovedIsApplied(Listed(st), ops[k].ip);
    }
    var s1 := Advance(Calls, st, ops, k);
    assert s1.pcs[k].Loaded? && s1.heap[s1.pcs[k].balancer] == Listed(st);
    var s2 := Advance(Calls, s1, ops, k);
    assert s2.pcs[k].Made? && s2.heap[s2.pcs[k].balancer] == Applied(ops[k], Listed(st));
  }

  lemma WrapStep(n: int, d: int)
    ensures Wrap(Wrap(n) + d) == Wrap(n + d)
  {
  }

  /** And that is the effect on the controller's tables that the one-step model has. */
  lemma AloneIsOneStep(st: Race, ops: seq<Op>, k: nat, t: I.Tables, service: string, healthy: bool)
    requires Settled(st, ops) && k < |ops| && st.pcs[k] == Start
    requires Listed(st) == I.IPsOf(t, service) && st.health == t.health.Keys && Wrap(st.count) == t.count
    ensures var t' := if ops[k].Add? then Some(I.AddIP(t, service, ops[k].ip, healthy)) else I.DelIP(t, service, ops[k].ip);
            && t'.Some? && Listed(Thrice(st, ops, k)) == I.IPsOf(t'.value, service)
            && Thrice(st, ops, k).health == t'.value.health.Keys && Wrap(Thrice(st, ops, k).count) == t'.value.count
  {
    AloneIsAtomic(st, ops, k);
    WrapStep(st.count, Delta(ops[k]));
    if ops[k].Del? {
      RemovedIsApplied(Listed(st), ops[k].ip);
    }
  }

  /**
    A deletion from a service without a balancer finds no list; it drops the health entry and counts down all
    the same.
   */
  lemma DeletionWithoutBalancer(g: Grain, st: Race, ops: seq<Op>, k: nat, t: I.Tables, service: string)
    requires WellFormed(st, ops) && k < |ops| && ops[k].Del? && st.pcs[k] == Start && st.current.None?
    requires service !in t.balancers && st.health == t.health.Keys && Wrap(st.count) == t.count
    ensures Pair(g, st, ops, k, k) ==
            st.(health := st.health - {ops[k].ip}, count := st.count - 1, pcs := st.pcs[k := Done])
    ensures var t' := I.DelIP(t, service, ops[k].ip);
            && t'.Some? && t'.value.balancers == t.balancers
            && t'.value.health.Keys == st.health - {ops[k].ip} && t'.value.count == Wrap(st.count - 1)
  {
  }

  /** A deletion of an address that the list does not have panics, or, if the list is empty, counts down all the same. */
  lemma DeletionOfAbsent(st: Race, ops: seq<Op>, k: nat, t: I.Tables, service: string)
    requires WellFormed(st, ops) && k < |ops| && ops[k].Del? && st.pcs[k] == Start && st.current.Some?
    requires ops[k].ip !in Listed(st) && service in t.balancers && t.balancers[service] == Listed(st)
    ensures Listed(st) != [] ==>
              Thrice(st, ops, k) == st.(pcs := st.pcs[k := Panicked]) && I.DelIP(t, service, ops[k].ip).None?
    ensures Listed(st) == [] ==>
              && Thrice(st, ops, k) ==
                 st.(health := st.health - {ops[k].ip}, count := st.count - 1, pcs := st.pcs[k := Done])
              && I.DelIP(t, service, ops[k].ip).Some? && I.IPsOf(I.DelIP(t, service, ops[k].ip).value, service) == []
  {
  }

  // ---------------------------------------------------------------- calls that overlap

  /** The call `op` has not had its effect on the list. */
  predicate Undone(op: Op, ips: seq<IP>) {
    op.Add? <==> op.ip !in ips
  }

  /** Both load before either stores; the one that stores last does not know of the other. */
  function Collided(base: Option<seq<IP>>, ops: seq<Op>, i: nat, j: nat): (st: Race)
    requires i < |ops| && j < |ops|
    ensures WellFormed(st, ops)
  {
    var half := Advance(Calls, Pair(Calls, Begin(base, ops), ops, i, j), ops, i);
    Pair(Calls, Advance(Calls, half, ops, j), ops, j, i)
  }

  /** The second of two overlapping calls is lost if the first rebuilds the balancer, or if there is none yet. */
  lemma CollisionLoses(base: Option<seq<IP>>, ops: seq<Op>, i: nat, j: nat)
    requires Fair(Before(base), ops) && Apart(ops) && i < |ops| && j < |ops| && i != j
    requires base.None? || ops[i].Del?
    ensures Settled(Collided(base, ops, i, j), ops) && Collided(base, ops, i, j).pcs[j] == Done
    ensures Undone(ops[j], Listed(Collided(base, ops, i, j)))
  {
    LastStoreWins(base, ops, i, j);
    OnlyOneApplied(Before(base), ops, i, j, Collided(base, ops, i, j));
  }

  /** Calls `i` and `j` have ended, but the list shows `i` only. */
  lemma OnlyOneApplied(ips: seq<IP>, ops: seq<Op>, i: nat, j: nat, end: Race)
    requires Fair(ips, ops) && Apart(ops) && i < |ops| && j < |ops| && i != j && WellFormed(end, ops)
    requires end.pcs == seq(|ops|, _ => Start)[i := Done][j := Done] && Listed(end) == Applied(ops[i], ips)
    ensures Settled(end, ops) && Undone(ops[j], Listed(end))
  {
    if ops[i].Del? {
      RemovedIsApplied(ips, ops[i].ip);
    }
    forall k | 0 <= k < |ops| && k != i ensures ops[k].ip != ops[i].ip {
    }
  }

  lemma LastStoreWins(base: Option<seq<IP>>, ops: seq<Op>, i: nat, j: nat)
    requires Fair(Before(base), ops) && i < |ops| && j < |ops| && i != j
    requires base.None? || ops[i].Del?
    ensures Collided(base, ops, i, j).pcs == Begin(base, ops).pcs[i := Done][j := Done]
    ensures Listed(Collided(base, ops, i, j)) == Applied(ops[i], Before(base))
  {
    BothMade(base, ops, i, j);
  }

  lemma BothMade(base: Option<seq<IP>>, ops: seq<Op>, i: nat, j: nat)
    requires Fair(Before(base), ops) && i < |ops| && j < |ops| && i != j
    requires base.None? || ops[i].Del?
    ensures var s4 := Advance(Calls, Advance(Calls, Pair(Calls, Begin(base, ops), ops, i, j), ops, i), ops, j);
            && s4.pcs[i].Made? && s4.pcs[j].Made? && s4.heap[s4.pcs[i].balancer] == Applied(ops[i], Before(base))
            && s4.pcs == Begin(base, ops).pcs[i := s4.pcs[i]][j := s4.pcs[j]]
  {
    var ips := Before(base);
    if ops[i].Del? {
      RemovedIsApplied(ips, ops[i].ip);
    }
    if ops[j].Del? {
      RemovedIsApplied(ips, ops[j].ip);
    }
    var s3 := Advance(Calls, Pair(Calls, Begin(base, ops), ops, i, j), ops, i);
    assert s3.pcs[i].Made? && s3.heap[s3.pcs[i].balancer] == Applied(ops[i], ips);
  }

  lemma FairIsApart(base: seq<IP>, ops: seq<Op>)
    requires Fair(base, ops)
    ensures Apart(ops)
  {
    forall i, j | 0 <= i < j < |ops| ensures ops[i].ip != ops[j].ip {
      assert ops[i] != ops[j];
    }
  }

  /** Whatever is left can be called one after another; what has been lost stays lost. */
  lemma {:induction false} Finish(st: Race, ops: seq<Op>, j: nat, k: nat) returns (schedule: seq<nat>)
    requires Settled(st, ops) && Apart(ops) && k <= |ops| && forall i :: 0 <= i < k ==> st.pcs[i] == Done
    requires j < |ops| && st.pcs[j] == Done && Undone(ops[j], Listed(st))
    ensures AllDone(Run(Calls, st, ops, schedule).pcs) && Undone(ops[j], Listed(Run(Calls, st, ops, schedule)))
    decreases |ops| - k
  {
    if k == |ops| {
      schedule := [];
    } else if st.pcs[k] == Done {
      schedule := Finish(st, ops, j, k + 1);
    } else {
      AloneIsAtomic(st, ops, k);
      if ops[k].Del? {
        RemovedIsApplied(Listed(st), ops[k].ip);
      }
      assert ops[k].ip != ops[j].ip;
      var rest := Finish(Thrice(st, ops, k), ops, j, k + 1);
      schedule := [k, k, k] + rest;
      RunThree(st, ops, k, k, k, rest);
    }
  }

  lemma CollidedRuns(base: Option<seq<IP>>, ops: seq<Op>, i: nat, j: nat, rest: seq<nat>)
    requires i < |ops| && j < |ops|
    ensures Run(Calls, Begin(base, ops), ops, [i, j, i] + ([j, j, i] + rest)) == Run(Calls, Collided(base, ops, i, j), ops, rest)
  {
    var start := Begin(base, ops);
    RunThree(start, ops, i, j, i, [j, j, i] + rest);
    RunThree(Pair(Calls, Advance(Calls, start, ops, i), ops, j, i), ops, j, j, i, rest);
  }

  lemma UndoneIsWrong(base: seq<IP>, ops: seq<Op>, j: nat, ips: seq<IP>)
    requires Fair(base, ops) && j < |ops| && Undone(ops[j], ips)
    ensures !Right(base, ops, ips)
  {
    FairIsApart(base, ops);
    assert ops[j] in ops;
    assert ops[j].Del? ==> Add(ops[j].ip) !in ops;
  }

  lemma CollisionIsUnsafe(base: Option<seq<IP>>, ops: seq<Op>, i: nat, j: nat)
    requires Fair(Before(base), ops) && i < |ops| && j < |ops| && i != j
    requires base.None? || ops[i].Del?
    ensures Loses(Calls, base, ops)
  {
    FairIsApart(Before(base), ops);
    CollisionLoses(base, ops, i, j);
    var rest := Finish(Collided(base, ops, i, j), ops, j, 0);
    CollidedRuns(base, ops, i, j, rest);
    EndsWrong(Calls, base, ops, j, [i, j, i] + ([j, j, i] + rest));
  }

  lemma EndsWrong(g: Grain, base: Option<seq<IP>>, ops: seq<Op>, j: nat, schedule: seq<nat>)
    requires Fair(Before(base), ops) && j < |ops| && Ends(g, base, ops, schedule)
    requires Undone(ops[j], Listed(Run(g, Begin(base, ops), ops, schedule)))
    ensures Loses(g, base, ops)
  {
    UndoneIsWrong(Before(base), ops, j, Listed(Run(g, Begin(base, ops), ops, schedule)));
  }

  lemma LosingIsUnsafe(g: Grain, base: Option<seq<IP>>, ops: seq<Op>)
    requires Loses(g, base, ops)
    ensures !Safe(g, base, ops)
  {
    var schedule :| Ends(g, base, ops, schedule) && !Right(Before(base), ops, Listed(Run(g, Begin(base, ops), ops, schedule)));
    assert !Sound(base, ops, Run(g, Begin(base, ops), ops, schedule));
  }

  /**
    The exact condition with AddInstance as one step: overlapping calls on one service are safe in every
    schedule if and only if there is at most one of them, or all of them are additions and the service has
    a balancer already. Otherwise some schedule ends with the wrong list.
   */
  lemma SafeIff(base: Option<seq<IP>>, ops: seq<Op>)
    requires Fair(Before(base), ops)
    ensures Safe(Calls, base, ops) <==> |ops| <= 1 || (base.Some? && AllAdd(ops))
    ensures Safe(Calls, base, ops) <==> !Loses(Calls, base, ops)
  {
    if |ops| <= 1 {
      OneCallIsSafe(Calls, base, ops);
    } else if base.Some? && AllAdd(ops) {
      AdditionsAreSafe(base.value, ops);
    } else {
      var i: nat :| i < |ops| && (base.None? || ops[i].Del?);
      CollisionIsUnsafe(base, ops, i, if i == 0 then 1 else 0);
    }
    if Loses(Calls, base, ops) {
      LosingIsUnsafe(Calls, base, ops);
    }
  }

  // ---------------------------------------------------------------- single accesses

  /** Between the read and the write of an update. */
  predicate Between(pc: Pc) {
    pc.Held? || pc.Stored?
  }

  ghost predicate Plain(st: Race, ops: seq<Op>) {
    WellFormed(st, ops) && forall i :: 0 <= i < |ops| ==> !Between(st.pcs[i])
  }

  lemma UpdatedTwice<T>(s: seq<T>, i: nat, x: T, y: T)
    requires i < |s|
    ensures s[i := x][i := y] == s[i := y]
  {
  }

  /** The steps that are in two parts come to the same as in one. */
  lemma TwoTurns(st: Race, ops: seq<Op>, i: nat)
    requires Plain(st, ops) && i < |ops| && Between(Advance(Accesses, st, ops, i).pcs[i])
    ensures Pair(Accesses, st, ops, i, i) == Advance(Calls, st, ops, i)
  {
    var once := Advance(Accesses, st, ops, i);
    UpdatedTwice(st.pcs, i, once.pcs[i], if once.pcs[i].Held? then Made(once.pcs[i].balancer) else Done);
  }

  lemma OneTurn(st: Race, ops: seq<Op>, i: nat)
    requires Plain(st, ops) && i < |ops| && !Between(Advance(Accesses, st, ops, i).pcs[i])
    ensures Advance(Accesses, st, ops, i) == Advance(Calls, st, ops, i)
  {
  }

  lemma StaysPlain(st: Race, ops: seq<Op>, i: nat)
    requires Plain(st, ops) && i < |ops|
    ensures Plain(Advance(Calls, st, ops, i), ops)
  {
    var st' := Advance(Calls, st, ops, i);
    forall k | 0 <= k < |ops| ensures !Between(st'.pcs[k]) {
      assert k != i ==> st'.pcs[k] == st.pcs[k];
    }
  }

  /** One step of a call takes one or two turns when accesses are single. */
  lemma Refined(st: Race, ops: seq<Op>, i: nat, rest: seq<nat>) returns (turns: seq<nat>)
    requires Plain(st, ops) && i < |ops|
    ensures Run(Accesses, st, ops, turns + rest) == Run(Accesses, Advance(Calls, st, ops, i), ops, rest)
  {
    var once := Advance(Accesses, st, ops, i);
    if Between(once.pcs[i]) {
      TwoTurns(st, ops, i);
      RunCons(Accesses, st, ops, i, [i] + rest);
      RunCons(Accesses, once, ops, i, rest);
      turns := [i, i];
      assert turns + rest == [i] + ([i] + rest);
    } else {
      OneTurn(st, ops, i);
      RunCons(Accesses, st, ops, i, rest);
      turns := [i];
    }
  }

  /** Every run of whole calls is a run of single accesses. */
  lemma {:induction false} CallsAreAccesses(st: Race, ops: seq<Op>, schedule: seq<nat>) returns (turns: seq<nat>)
    requires Plain(st, ops)
    ensures Run(Accesses, st, ops, turns) == Run(Calls, st, ops, schedule)
    decreases |schedule|
  {
    if schedule == [] {
      turns := [];
    } else if schedule[0] >= |ops| {
      turns := CallsAreAccesses(st, ops, schedule[1..]);
    } else {
      var next := Advance(Calls, st, ops, schedule[0]);
      StaysPlain(st, ops, schedule[0]);
      var rest := CallsAreAccesses(next, ops, schedule[1..]);
      var first := Refined(st, ops, schedule[0], rest);
      turns := first + rest;
    }
  }

  /** Two additions have read the same list; the one that writes last drops the other's address. */
  function Overwritten(base: seq<IP>, ops: seq<Op>, i: nat, j: nat): (st: Race)
    requires i < |ops| && j < |ops|
    ensures WellFormed(st, ops)
  {
    var start := Begin(Some(base), ops);
    var loaded := Pair(Accesses, start, ops, i, j);
    var held := Pair(Accesses, loaded, ops, i, j);
    Pair(Accesses, held, ops, i, j)
  }

  lemma LastWriteWins(base: seq<IP>, ops: seq<Op>, i: nat, j: nat)
    requires i < |ops| && j < |ops| && i != j && ops[i].Add? && ops[j].Add?
    ensures var st := Overwritten(base, ops, i, j);
            && st.heap == [base + [ops[j].ip]] && st.current == Some(0)
            && st.pcs == Begin(Some(base), ops).pcs[i := Made(0)][j := Made(0)]
  {
  }

  /** Both go on to their end. */
  function Concluded(base: seq<IP>, ops: seq<Op>, i: nat, j: nat): (st: Race)
    requires i < |ops| && j < |ops|
    ensures WellFormed(st, ops)
  {
    var first := Pair(Accesses, Overwritten(base, ops, i, j), ops, i, i);
    Pair(Accesses, first, ops, j, j)
  }

  lemma OverwrittenLoses(base: seq<IP>, ops: seq<Op>, i: nat, j: nat)
    requires Fair(base, ops) && Apart(ops) && i < |ops| && j < |ops| && i != j && ops[i].Add? && ops[j].Add?
    ensures Settled(Concluded(base, ops, i, j), ops) && Concluded(base, ops, i, j).pcs[i] == Done
    ensures Plain(Concluded(base, ops, i, j), ops) && Undone(ops[i], Listed(Concluded(base, ops, i, j)))
  {
    LastWriteWins(base, ops, i, j);
    var end := Concluded(base, ops, i, j);
    assert end.pcs == Begin(Some(base), ops).pcs[j := Done][i := Done];
    OnlyOneApplied(base, ops, j, i, end);
  }

  lemma ConcludedRuns(base: seq<IP>, ops: seq<Op>, i: nat, j: nat, rest: seq<nat>) returns (schedule: seq<nat>)
    requires i < |ops| && j < |ops|
    ensures Run(Accesses, Begin(Some(base), ops), ops, schedule) == Run(Accesses, Concluded(base, ops, i, j), ops, rest)
  {
    var start := Begin(Some(base), ops);
    var loaded := Pair(Accesses, start, ops, i, j);
    var held := Pair(Accesses, loaded, ops, i, j);
    var over := Overwritten(base, ops, i, j);
    var first := Pair(Accesses, over, ops, i, i);
    var s4 := RunTwo(Accesses, first, ops, j, j, rest);
    var s3 := RunTwo(Accesses, over, ops, i, i, s4);
    var s2 := RunTwo(Accesses, held, ops, i, j, s3);
    var s1 := RunTwo(Accesses, loaded, ops, i, j, s2);
    schedule := RunTwo(Accesses, start, ops, i, j, s1);
  }

  lemma RunTwo(g: Grain, st: Race, ops: seq<Op>, i: nat, j: nat, rest: seq<nat>) returns (schedule: seq<nat>)
    requires WellFormed(st, ops) && i < |ops| && j < |ops|
    ensures Run(g, st, ops, schedule) == Run(g, Pair(g, st, ops, i, j), ops, rest)
  {
    schedule := [i] + ([j] + rest);
    RunCons(g, st, ops, i, [j] + rest);
    RunCons(g, Advance(g, st, ops, i), ops, j, rest);
  }

  lemma AdditionsCollide(base: seq<IP>, ops: seq<Op>, i: nat, j: nat)
    requires Fair(base, ops) && i < |ops| && j < |ops| && i != j && ops[i].Add? && ops[j].Add?
    ensures Loses(Accesses, Some(base), ops)
  {
    FairIsApart(base, ops);
    OverwrittenLoses(base, ops, i, j);
    var end := Concluded(base, ops, i, j);
    var rest := Finish(end, ops, i, 0);
    var turns := CallsAreAccesses(end, ops, rest);
    var schedule := ConcludedRuns(base, ops, i, j, turns);
    EndsWrong(Accesses, Some(base), ops, i, schedule);
  }

  lemma CallsLoseAccessesLose(base: Option<seq<IP>>, ops: seq<Op>)
    requires Loses(Calls, base, ops)
    ensures Loses(Accesses, base, ops)
  {
    var schedule :| Ends(Calls, base, ops, schedule) && !Right(Before(base), ops, Listed(Run(Calls, Begin(base, ops), ops, schedule)));
    var turns := CallsAreAccesses(Begin(base, ops), ops, schedule);
    assert Ends(Accesses, base, ops, turns);
  }

  /**
    The exact condition with every read and every write as a step of its own: any two calls on one
    service that overlap have a schedule that ends with the wrong list.
   */
  lemma SplitSafeIff(base: Option<seq<IP>>, ops: seq<Op>)
    requires Fair(Before(base), ops)
    ensures Safe(Accesses, base, ops) <==> |ops| <= 1
    ensures Safe(Accesses, base, ops) <==> !Loses(Accesses, base, ops)
  {
    if |ops| <= 1 {
      OneCallIsSafe(Accesses, base, ops);
    } else if base.Some? && AllAdd(ops) {
      AdditionsCollide(base.value, ops, 0, 1);
    } else {
      SafeIff(base, ops);
      CallsLoseAccessesLose(base, ops);
    }
    if Loses(Accesses, base, ops) {
      LosingIsUnsafe(Accesses, base, ops);
    }
  }

  // ---------------------------------------------------------------- lost for good

  /** The address of addition `k` sits in a balancer that nobody will ever look at again. */
  ghost predicate Orphaned(st: Race, ops: seq<Op>, k: nat) {
    && WellFormed(st, ops) && k < |ops| && st.pcs[k].Done? && st.current.Some?
    && (forall b :: 0 <= b < |st.heap| && ops[k].ip in st.heap[b] ==>
          b != st.current.value && forall i :: 0 <= i < |ops| ==> !On(st.pcs[i], b))
    && (forall i :: 0 <= i < |ops| && st.pcs[i].Held? ==> ops[k].ip !in st.pcs[i].seen)
  }

  lemma OrphanedKept(g: Grain, st: Race, ops: seq<Op>, k: nat, i: nat)
    requires Orphaned(st, ops, k) && AllAdd(ops) && NoDup(ops) && i < |ops|
    ensures Orphaned(Advance(g, st, ops, i), ops, k)
  {
  }

  lemma {:induction false} OrphanedForever(g: Grain, st: Race, ops: seq<Op>, k: nat, schedule: seq<nat>)
    requires Orphaned(st, ops, k) && AllAdd(ops) && NoDup(ops)
    ensures Orphaned(Run(g, st, ops, schedule), ops, k)
    decreases |schedule|
  {
    if schedule != [] {
      if schedule[0] < |ops| {
        OrphanedKept(g, st, ops, k, schedule[0]);
        OrphanedForever(g, Advance(g, st, ops, schedule[0]), ops, k, schedule[1..]);
      } else {
        OrphanedForever(g, st, ops, k, schedule[1..]);
      }
    }
  }

  lemma SecondIsOrphaned(ops: seq<Op>)
    requires |ops| >= 2 && NoDup(ops) && AllAdd(ops)
    ensures Orphaned(Collided(None, ops, 0, 1), ops, 1)
  {
    var s2 := Pair(Calls, Begin(None, ops), ops, 0, 1);
    assert s2.heap == [[], []] && s2.pcs[0] == Loaded(0) && s2.pcs[1] == Loaded(1);
    var s4 := Pair(Calls, s2, ops, 0, 1);
    assert [] + [ops[0].ip] == [ops[0].ip] && [] + [ops[1].ip] == [ops[1].ip];
    assert s4.heap == [[ops[0].ip], [ops[1].ip]] && ops[0] != ops[1];
  }

  /**
    If the service has no balancer yet, two or more registrations can lose an address for good: after
    this start, the second one has ended and no continuation ever lists its address.
   */
  lemma FirstAddressesCanBeLost(ops: seq<Op>, schedule: seq<nat>)
    requires |ops| >= 2 && NoDup(ops) && AllAdd(ops)
    ensures var st := Run(Calls, Begin(None, ops), ops, [0, 1, 0] + ([1, 1, 0] + schedule));
            st.pcs[1].Done? && ops[1].ip !in Listed(st)
  {
    SecondIsOrphaned(ops);
    CollidedRuns(None, ops, 0, 1, schedule);
    OrphanedForever(Calls, Collided(None, ops, 0, 1), ops, 1, schedule);
  }
}
