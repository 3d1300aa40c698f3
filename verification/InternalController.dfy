/**
  The provider's own network controller: one load balancer per service, a health entry per address
  and a counter of instances, kept in three separate tables.
 */
module InternalController {
  import opened Common
  import opened LoadBalancer

  /** The controller's tables as values; `balancers` lists the addresses of each service's balancer. */
  datatype Tables = Tables(count: nat, health: map<IP, bool>, balancers: map<string, seq<IP>>)

  const EMPTY := Tables(0, map[], map[])

  function IPsOf(t: Tables, service: string): seq<IP> {
    if service in t.balancers then t.balancers[service] else []
  }

  function AddIP(t: Tables, service: string, ip: IP, healthy: bool): Tables {
    Tables(Wrap(t.count + 1), t.health[ip := healthy], t.balancers[service := IPsOf(t, service) + [ip]])
  }

  /** None is the panic of the balancer's copy loop, which comes before any table is changed. */
  function DelIP(t: Tables, service: string, ip: IP): Option<Tables> {
    if service !in t.balancers then
      Some(Tables(Wrap(t.count - 1), t.health - {ip}, t.balancers))
    else
      match Removed(t.balancers[service], ip)
      case None => None
      case Some(rest) => Some(Tables(Wrap(t.count - 1), t.health - {ip}, t.balancers[service := rest]))
  }

  /** The deletion loop runs over positions instead of addresses, so no health entry goes away. */
  function DelService(t: Tables, service: string): Tables {
    if service in t.balancers then
      Tables(Wrap(t.count - |t.balancers[service]|), t.health, t.balancers - {service})
    else t
  }

  function Probe(t: Tables, ip: IP, healthy: bool): Tables {
    t.(health := t.health[ip := healthy])
  }

  // ---------------------------------------------------------------- agreement of the three tables

  /** The address is in the service's balancer. */
  predicate Holds(balancers: map<string, seq<IP>>, service: string, ip: IP) {
    service in balancers && ip in balancers[service]
  }

  /** The address is in some balancer. */
  ghost predicate Listed(balancers: map<string, seq<IP>>, ip: IP) {
    exists s :: Holds(balancers, s, ip)
  }

  /** Every address occurs once, in one balancer. */
  ghost predicate EachOnce(balancers: map<string, seq<IP>>) {
    && (forall s :: s in balancers ==> NoDup(balancers[s]))
    && (forall s, t, ip :: Holds(balancers, s, ip) && Holds(balancers, t, ip) ==> s == t)
  }

  /** The counter is the sum of all balancer sizes, up to the width of the counter. */
  ghost predicate CountAgrees(t: Tables) {
    t.count == Wrap(Total(t.balancers))
  }

  /** Every address in a balancer has a health entry. */
  ghost predicate Covered(t: Tables) {
    forall ip :: Listed(t.balancers, ip) ==> ip in t.health
  }

  ghost predicate KeysAgree(t: Tables) {
    forall ip :: ip in t.health <==> Listed(t.balancers, ip)
  }

  /** What holds in any case; KeysAgree comes on top as long as no service is deleted as a whole. */
  ghost predicate Sound(t: Tables) {
    EachOnce(t.balancers) && CountAgrees(t) && Covered(t)
  }

  lemma AddHolds(t: Tables, service: string, ip: IP, healthy: bool)
    ensures forall s, x :: Holds(AddIP(t, service, ip, healthy).balancers, s, x) <==>
                             Holds(t.balancers, s, x) || (s == service && x == ip)
  {
    assert forall x :: x in IPsOf(t, service) + [ip] <==> x in IPsOf(t, service) || x == ip;
  }

  /** Both changes move the counter and the sum of the sizes by the same amount. */
  lemma CountFollows(t: Tables, service: string, now: seq<IP>)
    requires CountAgrees(t)
    ensures Wrap(t.count + |now| - |IPsOf(t, service)|) == Wrap(Total(t.balancers[service := now]))
  {
    TotalUpdate(t.balancers, service, now);
  }

  lemma AddKeepsAgreement(t: Tables, service: string, ip: IP, healthy: bool)
    requires Sound(t) && !Listed(t.balancers, ip)
    ensures Sound(AddIP(t, service, ip, healthy))
    ensures KeysAgree(t) ==> KeysAgree(AddIP(t, service, ip, healthy))
    ensures forall x :: Listed(AddIP(t, service, ip, healthy).balancers, x) <==> Listed(t.balancers, x) || x == ip
  {
    var t' := AddIP(t, service, ip, healthy);
    AddHolds(t, service, ip, healthy);
    CountFollows(t, service, IPsOf(t, service) + [ip]);
    assert !Holds(t.balancers, service, ip) && Holds(t'.balancers, service, ip);
    forall x | Listed(t.balancers, x) ensures Listed(t'.balancers, x) {
      var s :| Holds(t.balancers, s, x);
      assert Holds(t'.balancers, s, x);
    }
  }

  lemma DelHolds(t: Tables, service: string, ip: IP)
    requires EachOnce(t.balancers) && Holds(t.balancers, service, ip)
    ensures DelIP(t, service, ip).Some?
    ensures DelIP(t, service, ip).value.balancers == t.balancers[service := Without(t.balancers[service], ip)]
    ensures NoDup(Without(t.balancers[service], ip)) && |Without(t.balancers[service], ip)| == |t.balancers[service]| - 1
    ensures forall s, x :: Holds(DelIP(t, service, ip).value.balancers, s, x) <==>
                             Holds(t.balancers, s, x) && !(s == service && x == ip)
  {
    var before := t.balancers[service];
    var i :| 0 <= i < |before| && before[i] == ip;
    RemovedOnce(before, i);
    CountWithout(before, ip);
  }

  /** Deleting an address the service has never panics and takes out exactly that address. */
  lemma DelKeepsAgreement(t: Tables, service: string, ip: IP)
    requires Sound(t) && Holds(t.balancers, service, ip)
    ensures DelIP(t, service, ip).Some? && Sound(DelIP(t, service, ip).value)
    ensures KeysAgree(t) ==> KeysAgree(DelIP(t, service, ip).value)
    ensures forall x :: Listed(DelIP(t, service, ip).value.balancers, x) <==> Listed(t.balancers, x) && x != ip
  {
    DelHolds(t, service, ip);
    var t' := DelIP(t, service, ip).value;
    CountFollows(t, service, Without(t.balancers[service], ip));
    forall x | Listed(t.balancers, x) && x != ip ensures Listed(t'.balancers, x) {
      var s :| Holds(t.balancers, s, x);
      assert Holds(t'.balancers, s, x);
    }
    assert !Listed(t'.balancers, ip);
  }

  /**
    When the service does not have the address, a deletion is never harmless: it panics when the
    service has other addresses, and otherwise the counter goes one below the sum of the sizes.
   */
  lemma DelOfAbsentBreaks(t: Tables, service: string, ip: IP)
    requires CountAgrees(t) && !Holds(t.balancers, service, ip)
    ensures IPsOf(t, service) != [] ==> DelIP(t, service, ip).None?
    ensures IPsOf(t, service) == [] ==>
              && DelIP(t, service, ip).Some?
              && DelIP(t, service, ip).value.balancers == t.balancers && DelIP(t, service, ip).value.health == t.health - {ip}
              && !CountAgrees(DelIP(t, service, ip).value)
  {
    if IPsOf(t, service) == [] && service in t.balancers {
      assert t.balancers[service := []] == t.balancers;
    }
  }

  /** After a service is deleted the count still matches, but its addresses stay in the health table. */
  lemma DelServiceLeavesKeys(t: Tables, service: string)
    requires Sound(t)
    ensures Sound(DelService(t, service))
    ensures KeysAgree(t) ==>
              forall ip :: ip in DelService(t, service).health <==>
                             Listed(DelService(t, service).balancers, ip) || ip in IPsOf(t, service)
    ensures KeysAgree(t) ==> (KeysAgree(DelService(t, service)) <==> IPsOf(t, service) == [])
  {
    var t' := DelService(t, service);
    assert forall s, x :: Holds(t'.balancers, s, x) <==> Holds(t.balancers, s, x) && s != service;
    if service in t.balancers {
      TotalRemove(t.balancers, service);
    }
    forall x | Listed(t.balancers, x) && x !in IPsOf(t, service) ensures Listed(t'.balancers, x) {
      var s :| Holds(t.balancers, s, x);
      assert Holds(t'.balancers, s, x);
    }
    forall x | x in IPsOf(t, service) ensures Listed(t.balancers, x) && !Listed(t'.balancers, x) {
      assert Holds(t.balancers, service, x);
    }
    if IPsOf(t, service) != [] {
      assert IPsOf(t, service)[0] in IPsOf(t, service);
    }
  }

  // ---------------------------------------------------------------- whole runs

  datatype Op =
    | Add(service: string, ip: IP, healthy: bool)
    | Del(service: string, ip: IP)
    | DelAll(service: string)
    | Check(ip: IP, healthy: bool)

  /** What the store guarantees of its calls: only new addresses are added, only present ones deleted. */
  ghost predicate Allowed(t: Tables, op: Op) {
    match op
    case Add(_, ip, _) => !Listed(t.balancers, ip)
    case Del(service, ip) => Holds(t.balancers, service, ip)
    case DelAll(_) => true
    case Check(ip, _) => ip in t.health
  }

  function Do(t: Tables, op: Op): Option<Tables> {
    match op
    case Add(service, ip, healthy) => Some(AddIP(t, service, ip, healthy))
    case Del(service, ip) => DelIP(t, service, ip)
    case DelAll(service) => Some(DelService(t, service))
    case Check(ip, healthy) => Some(Probe(t, ip, healthy))
  }

  ghost predicate RunsTo(t: Tables, ops: seq<Op>, t': Tables)
    decreases |ops|
  {
    if ops == [] then t == t'
    else Allowed(t, ops[0]) && Do(t, ops[0]).Some? && RunsTo(Do(t, ops[0]).value, ops[1..], t')
  }

  lemma StepKeepsAgreement(t: Tables, op: Op)
    requires Sound(t) && Allowed(t, op)
    ensures Do(t, op).Some? && Sound(Do(t, op).value)
    ensures KeysAgree(t) && !op.DelAll? ==> KeysAgree(Do(t, op).value)
  {
    match op
    case Add(service, ip, healthy) => AddKeepsAgreement(t, service, ip, healthy);
    case Del(service, ip) => DelKeepsAgreement(t, service, ip);
    case DelAll(service) => DelServiceLeavesKeys(t, service);
    case Check(_, _) =>
  }

  /** Over every run: no panic is possible, count and keys agree; with service deletions keys only cover. */
  lemma {:induction false} RunsAgree(t: Tables, ops: seq<Op>, t': Tables)
    requires Sound(t) && RunsTo(t, ops, t')
    ensures Sound(t')
    ensures Total(t'.balancers) < TWO64 ==> t'.count == Total(t'.balancers)
    ensures KeysAgree(t) && (forall op :: op in ops ==> !op.DelAll?) ==> KeysAgree(t')
    decreases |ops|
  {
    if ops != [] {
      StepKeepsAgreement(t, ops[0]);
      RunsAgree(Do(t, ops[0]).value, ops[1..], t');
    }
  }

  // ---------------------------------------------------------------- the pause between probes

  /** Conversion of a uint64 to the signed 64-bit type of durations. */
  function AsInt64(n: nat): int
    requires n < TWO64
  {
    if n < TWO64 / 2 then n else n - TWO64
  }

  /** Go's integer division rounds towards zero. */
  function Quotient(a: int, b: int): int
    requires b != 0
  {
    if (a < 0) == (b < 0) then Abs(a) / Abs(b) else -(Abs(a) / Abs(b))
  }

  function Abs(a: int): nat {
    if a < 0 then -a else a
  }

  /** Seconds between two probes; None is a division by zero. */
  function Delay(count: nat): Option<int> {
    var divisor := AsInt64(Wrap(count + 1));
    if divisor == 0 then None else Some(Quotient(300, divisor))
  }

  /** A pause of a negative length returns at once. */
  function Slept(delay: int): nat {
    if delay < 0 then 0 else delay
  }

  /** The division fails for one count only, and the result is a proper pause for every real table size. */
  lemma DelayDefined(count: nat)
    requires count < TWO64
    ensures Delay(count).None? <==> count == TWO64 - 1
    ensures count < TWO64 / 2 - 1 ==> Delay(count) == Some(300 / (count + 1))
    ensures Delay(count).Some? ==> -300 <= Delay(count).value <= 300
  {
    var divisor := AsInt64(Wrap(count + 1));
    if divisor != 0 {
      DivisionBounds(Abs(divisor));
    }
  }

  lemma DivisionBounds(b: nat)
    requires b > 0
    ensures 0 <= 300 / b <= 300
  {
  }

  /** `n` pauses of `d` seconds each. */
  function Pauses(n: nat, d: nat): nat {
    if n == 0 then 0 else Pauses(n - 1, d) + d
  }

  lemma {:induction false} PausesMultiply(n: nat, d: nat)
    ensures Pauses(n, d) == n * d
  {
    if n > 0 {
      PausesMultiply(n - 1, d);
      assert n * d == (n - 1) * d + d;
    }
  }

  lemma ShortPauses(n: nat)
    ensures n * (300 / (n + 1)) < 300
  {
    var q := 300 / (n + 1);
    assert n * q + q == (n + 1) * q <= 300;
  }

  /** `n` pauses of that length take the time they should, which is less than five minutes. */
  ghost predicate InTime(n: nat, pause: Option<int>) {
    pause.Some? && Pauses(n, Slept(pause.value)) == n * (300 / (n + 1)) < 300
  }

  /**
    A whole sweep over a table that holds as many addresses as the counter says takes under five minutes,
    and no probe divides by zero, for every count but the largest one.
   */
  lemma SweepUnderFiveMinutes(n: nat)
    requires n < TWO64
    ensures Delay(n).Some? <==> n != TWO64 - 1
    ensures Delay(n).Some? ==> InTime(n, Delay(n))
  {
    DelayDefined(n);
    if n != TWO64 - 1 {
      LongPause(n);
      PausesMultiply(n, 300 / (n + 1));
      ShortPauses(n);
    }
  }

  /** From half the counter's range on the divisor reads as negative, where the proper pause is none anyway. */
  lemma LongPause(n: nat)
    requires n < TWO64 - 1
    ensures Delay(n).Some? && Slept(Delay(n).value) == 300 / (n + 1)
  {
    DelayDefined(n);
    if n < TWO64 / 2 - 1 {
      DivisionBounds(n + 1);
    } else {
      NoPause(AsInt64(Wrap(n + 1)));
      SmallQuotient(n + 1);
    }
  }

  lemma NoPause(divisor: int)
    requires divisor < 0
    ensures Slept(Quotient(300, divisor)) == 0
  {
    DivisionBounds(Abs(divisor));
  }

  lemma SmallQuotient(b: nat)
    requires b > 300
    ensures 300 / b == 0
  {
  }

  /** The addresses of all balancers together are as many as the sum of the balancers' sizes. */
  lemma {:induction false} ListedSize(balancers: map<string, seq<IP>>, ips: set<IP>)
    requires EachOnce(balancers) && forall ip :: ip in ips <==> Listed(balancers, ip)
    ensures |ips| == Total(balancers)
    decreases |balancers|
  {
    if balancers == map[] {
      assert forall s, ip :: !Holds(balancers, s, ip);
      assert ips == {};
    } else {
      var k :| k in balancers;
      var own := set ip | ip in balancers[k];
      TotalRemove(balancers, k);
      NoDupSize(balancers[k], own);
      OthersListed(balancers, k, ips, own);
      ListedSize(balancers - {k}, ips - own);
    }
  }

  /** Without the service `k`, exactly its addresses are missing. */
  lemma OthersListed(balancers: map<string, seq<IP>>, k: string, ips: set<IP>, own: set<IP>)
    requires EachOnce(balancers) && k in balancers
    requires (forall ip :: ip in ips <==> Listed(balancers, ip)) && (forall ip :: ip in own <==> ip in balancers[k])
    ensures EachOnce(balancers - {k}) && forall ip :: ip in ips - own <==> Listed(balancers - {k}, ip)
    ensures |ips| == |own| + |ips - own|
  {
    var rest := balancers - {k};
    assert forall s, ip :: Holds(rest, s, ip) <==> Holds(balancers, s, ip) && s != k;
    assert forall ip :: ip in own <==> Holds(balancers, k, ip);
    forall ip ensures ip in ips - own <==> Listed(rest, ip) {
      if ip in ips - own {
        var s :| Holds(balancers, s, ip);
        assert Holds(rest, s, ip);
      }
    }
    assert own <= ips;
    assert ips == own + (ips - own);
  }

  /** While the keys are exact, the health table has as many entries as the balancers list addresses. */
  lemma HealthIsCounted(t: Tables)
    requires Sound(t) && KeysAgree(t)
    ensures |t.health| == Total(t.balancers) && t.count == Wrap(|t.health|)
  {
    ListedSize(t.balancers, t.health.Keys);
  }

  lemma AgreedSweepFits(t: Tables)
    requires Sound(t) && KeysAgree(t) && |t.health| < TWO64
    ensures t.count == |t.health|
    ensures Delay(t.count).Some? <==> |t.health| != TWO64 - 1
    ensures |t.health| != TWO64 - 1 ==> InTime(|t.health|, Delay(t.count))
  {
    HealthIsCounted(t);
    SweepUnderFiveMinutes(|t.health|);
  }

  /**
    After every run of additions, deletions and probes from an empty controller, as long as the table
    fits the counter: no probe divides by zero, and the next sweep takes under five minutes.
   */
  lemma RunsSweepShortly(ops: seq<Op>, t: Tables)
    requires RunsTo(EMPTY, ops, t) && (forall op :: op in ops ==> !op.DelAll?) && |t.health| < TWO64
    ensures t.count == |t.health|
    ensures Delay(t.count).Some? <==> |t.health| != TWO64 - 1
    ensures |t.health| != TWO64 - 1 ==> InTime(|t.health|, Delay(t.count))
  {
    assert Sound(EMPTY) && KeysAgree(EMPTY);
    RunsAgree(EMPTY, ops, t);
    AgreedSweepFits(t);
  }

  /** Without the store's discipline the counter does wrap and the next probe divides by zero. */
  lemma UnknownDeletesBreakTheDelay(a: IP, b: IP)
    requires a != b
    ensures var t := AddIP(EMPTY, "f", a, true);
            var t1 := DelIP(t, "ghost", b);
            && t1.Some?
            && var t2 := DelIP(t1.value, "ghost", b);
            && t2.Some? && t2.value.health == map[a := true] && t2.value.count == 0xFFFF_FFFF_FFFF_FFFF
            && Delay(t2.value.count).None?
  {
    var t := AddIP(EMPTY, "f", a, true);
    assert "f" != "ghost";
    assert DelIP(t, "ghost", b).value.count == 0;
    assert t.health - {b} - {b} == map[a := true];
  }

  // ---------------------------------------------------------------- resolving an endpoint

  predicate Healthy(health: map<IP, bool>, ip: IP) {
    ip in health && health[ip]
  }

  function Available(ips: seq<IP>, health: map<IP, bool>): nat {
    if ips == [] then 0
    else (if Healthy(health, ips[0]) then 1 else 0) + Available(ips[1..], health)
  }

  lemma {:induction false} AvailableSnoc(ips: seq<IP>, ip: IP, health: map<IP, bool>)
    ensures Available(ips + [ip], health) == Available(ips, health) + if Healthy(health, ip) then 1 else 0
  {
    if ips == [] {
      assert ips + [ip] == [ip];
    } else {
      AvailableSnoc(ips[1..], ip, health);
      assert (ips + [ip])[1..] == ips[1..] + [ip];
    }
  }

  /** The addresses that count as available are those whose health entry is true. */
  lemma {:induction false} AvailableBounds(ips: seq<IP>, health: map<IP, bool>)
    ensures Available(ips, health) <= |ips|
    ensures Available(ips, health) > 0 <==> exists i :: 0 <= i < |ips| && ips[i] in health && health[ips[i]]
    ensures Available(ips, health) == |ips| <==> forall i :: 0 <= i < |ips| ==> ips[i] in health && health[ips[i]]
  {
    if ips != [] {
      AvailableBounds(ips[1..], health);
      assert forall i :: 1 <= i < |ips| ==> ips[i] == ips[1..][i - 1];
      if i :| 0 <= i < |ips[1..]| && ips[1..][i] in health && health[ips[1..][i]] {
        assert ips[i + 1] in health && health[ips[i + 1]];
      }
      if forall i :: 0 <= i < |ips| ==> ips[i] in health && health[ips[i]] {
        forall i | 0 <= i < |ips[1..]| ensures ips[1..][i] in health && health[ips[1..][i]] {
          assert ips[i + 1] in health && health[ips[i + 1]];
        }
      }
    }
  }

  /** And there are as many of them as positions in the list that hold one. */
  lemma {:induction false} AvailableCounts(ips: seq<IP>, health: map<IP, bool>, found: set<nat>)
    requires forall i :: i in found <==> 0 <= i < |ips| && ips[i] in health && health[ips[i]]
    ensures Available(ips, health) == |found|
  {
    if ips == [] {
      assert found == {};
    } else {
      var last, rest := |ips| - 1, ips[..|ips| - 1];
      AvailableSnoc(rest, ips[last], health);
      assert ips == rest + [ips[last]];
      AvailableCounts(rest, health, found - {last});
      assert last !in found ==> found - {last} == found;
    }
  }

  /** The draw `i` picks a healthy address. */
  predicate Hits(ips: seq<IP>, health: map<IP, bool>, draw: nat)
    requires ips != []
  {
    Healthy(health, ips[draw % |ips|])
  }

  datatype Resolution = Endpoint(ip: IP) | UnknownService | NoInstances | NoneHealthy

  /** The first healthy address that the draws come to. */
  function FirstHit(ips: seq<IP>, health: map<IP, bool>, draws: seq<nat>): Resolution
    requires ips != []
  {
    if draws == [] then NoneHealthy
    else if Hits(ips, health, draws[0]) then Endpoint(ips[draws[0] % |ips|])
    else FirstHit(ips, health, draws[1..])
  }

  function Resolve(t: Tables, service: string, draws: seq<nat>): Resolution {
    if service !in t.balancers then UnknownService
    else if t.balancers[service] == [] then NoInstances
    else FirstHit(t.balancers[service], t.health, draws)
  }

  /** A lookup only ever gives an address of the service whose health entry is true, the first one that the draws come to. */
  lemma {:induction false} FirstHitIsHealthy(ips: seq<IP>, health: map<IP, bool>, draws: seq<nat>)
    requires ips != []
    ensures FirstHit(ips, health, draws).Endpoint? ==>
              var ip := FirstHit(ips, health, draws).ip;
              && ip in ips && ip in health && health[ip]
              && exists k :: 0 <= k < |draws| && ip == ips[draws[k] % |ips|]
                             && forall j :: 0 <= j < k ==> var other := ips[draws[j] % |ips|]; other !in health || !health[other]
    ensures !FirstHit(ips, health, draws).Endpoint? ==>
              && FirstHit(ips, health, draws).NoneHealthy?
              && forall j :: 0 <= j < |draws| ==> var other := ips[draws[j] % |ips|]; other !in health || !health[other]
  {
    if draws != [] {
      FirstHitIsHealthy(ips, health, draws[1..]);
      assert forall k :: 1 <= k < |draws| ==> draws[k] == draws[1..][k - 1];
      if !Hits(ips, health, draws[0]) && FirstHit(ips, health, draws).Endpoint? {
        var ip := FirstHit(ips, health, draws).ip;
        var k :| 0 <= k < |draws[1..]| && ip == ips[draws[1..][k] % |ips|]
                 && forall j :: 0 <= j < k ==> var other := ips[draws[1..][j] % |ips|]; other !in health || !health[other];
        assert draws[k + 1] == draws[1..][k];
      }
    }
  }

  lemma OneDraw(ips: seq<IP>, health: map<IP, bool>, draw: nat)
    requires ips != []
    ensures 0 <= draw % |ips| < |ips| && (draw < |ips| ==> draw % |ips| == draw)
    ensures FirstHit(ips, health, [draw]).Endpoint? <==> Healthy(health, ips[draw % |ips|])
  {
    assert [draw][0] == draw && [draw][1..] == [];
  }

  /** Some draw finds an endpoint exactly when an address is available, and every draw when all are. */
  lemma FindableIffAvailable(ips: seq<IP>, health: map<IP, bool>)
    requires ips != []
    ensures (exists draw: nat :: FirstHit(ips, health, [draw]).Endpoint?) <==> Available(ips, health) > 0
    ensures (forall draw: nat :: FirstHit(ips, health, [draw]).Endpoint?) <==> Available(ips, health) == |ips|
  {
    AvailableBounds(ips, health);
    if draw: nat :| FirstHit(ips, health, [draw]).Endpoint? {
      OneDraw(ips, health, draw);
      assert Available(ips, health) > 0;
    } else {
      forall i: nat | i < |ips| ensures !Healthy(health, ips[i]) {
        OneDraw(ips, health, i);
      }
    }
    if Available(ips, health) == |ips| {
      forall draw: nat ensures FirstHit(ips, health, [draw]).Endpoint? {
        OneDraw(ips, health, draw);
      }
    } else {
      var i :| 0 <= i < |ips| && !Healthy(health, ips[i]);
      OneDraw(ips, health, i);
    }
  }

  // ---------------------------------------------------------------- the controller itself

  class InternalNetworkController {
    var instanceCount: nat
    var healthCheckTable: map<IP, bool>
    var instancesMap: map<string, RandomLoadBalancer>
    /** The service each balancer object was made for. */
    ghost var owner: map<RandomLoadBalancer, string>
    /** The addresses of each service, as its balancer holds them. */
    ghost var lists: map<string, seq<IP>>

    /** No two services share a balancer object. */
    ghost predicate Valid()
      reads this, set s | s in instancesMap :: instancesMap[s]
    {
      && instanceCount < TWO64
      && lists.Keys == instancesMap.Keys
      && (forall s :: s in instancesMap ==> Good(s, instancesMap[s], lists[s]))
    }

    /** `lb` belongs to the service and holds `ips`. */
    ghost predicate Good(service: string, lb: RandomLoadBalancer, ips: seq<IP>)
      reads this`owner, lb
    {
      lb in owner && owner[lb] == service && lb.Valid() && lb.ips == ips
    }

    ghost function State(): Tables
      reads this
    {
      Tables(instanceCount, healthCheckTable, lists)
    }

    constructor ()
      ensures Valid() && State() == EMPTY && owner == map[]
    {
      instanceCount := 0;
      healthCheckTable := map[];
      instancesMap := map[];
      owner, lists := map[], map[];
    }

    /** The service's balancer, or a new empty one. */
    method LoadOrNew(service: string) returns (lb: RandomLoadBalancer)
      requires Valid()
      ensures lb.Valid() && lb.ips == IPsOf(State(), service)
      ensures service in instancesMap ==> lb == instancesMap[service]
      ensures service !in instancesMap ==> fresh(lb)
    {
      if service in instancesMap {
        lb := instancesMap[service];
      } else {
        lb := new RandomLoadBalancer();
      }
    }

    /** Every service but one is as Valid demands; the balancer of that one may be mid-change. */
    ghost predicate ValidBut(service: string)
      reads this, set s | s in instancesMap :: instancesMap[s]
    {
      && instanceCount < TWO64
      && lists.Keys == instancesMap.Keys
      && (forall s :: s in instancesMap && s != service ==> Good(s, instancesMap[s], lists[s]))
    }

    /** Puts `lb` into the map of balancers. */
    method Store(service: string, lb: RandomLoadBalancer)
      requires ValidBut(service) && lb.Valid() && (lb in owner ==> owner[lb] == service)
      modifies this`instancesMap, this`owner, this`lists
      ensures Valid() && owner == old(owner)[lb := service]
      ensures lists == old(lists)[service := lb.ips]
    {
      instancesMap := instancesMap[service := lb];
      owner, lists := owner[lb := service], lists[service := lb.ips];
      assert forall s :: s in old(instancesMap) && s != service ==> old(Good(s, instancesMap[s], lists[s]));
    }

    /** The service's balancer, extended in place by the new address but not yet stored. */
    method Extend(service: string, ip: IP) returns (lb: RandomLoadBalancer)
      requires Valid()
      modifies owner.Keys
      ensures ValidBut(service) && lb.Valid() && lb.ips == IPsOf(State(), service) + [ip]
      ensures if lb in owner then owner[lb] == service else fresh(lb)
    {
      lb := LoadOrNew(service);
      assert forall s :: s in instancesMap && s != service ==> Good(s, instancesMap[s], lists[s]) && instancesMap[s] != lb;
      lb := lb.AddInstance(ip);
    }

    /** `healthy` is the outcome of the first request to the new address. */
    method AddServiceIP(service: string, ip: IP, healthy: bool)
      requires Valid()
      modifies this, owner.Keys
      ensures Valid() && fresh(owner.Keys - old(owner.Keys))
      ensures State() == AddIP(old(State()), service, ip, healthy)
      ensures healthCheckTable == old(healthCheckTable)[ip := healthy]
      ensures instanceCount == (old(instanceCount) + 1) % 0x1_0000_0000_0000_0000
      ensures lists == old(lists)[service := (if service in old(lists) then old(lists)[service] else []) + [ip]]
    {
      var updatedLb := Extend(service, ip);
      healthCheckTable := healthCheckTable[ip := healthy];
      Store(service, updatedLb);
      instanceCount := Wrap(instanceCount + 1);
    }

    /** False when the balancer's copy loop panics; then nothing has changed. */
    method DeleteServiceIP(service: string, ip: IP) returns (ok: bool)
      requires Valid()
      modifies this
      ensures Valid() && fresh(owner.Keys - old(owner.Keys))
      ensures ok == DelIP(old(State()), service, ip).Some?
      ensures State() == if ok then DelIP(old(State()), service, ip).value else old(State())
      ensures ok ==> healthCheckTable == old(healthCheckTable) - {ip}
      ensures ok ==> instanceCount == (old(instanceCount) - 1) % 0x1_0000_0000_0000_0000
      ensures ok <==> service !in old(lists) || old(lists)[service] == [] || ip in old(lists)[service]
      ensures service !in old(lists) ==> lists == old(lists)
    {
      if service in instancesMap {
        var lb := instancesMap[service];
        var updated := lb.DeleteInstance(ip);
        if updated.None? {
          return false;
        }
        Store(service, updated.value);
      }
      healthCheckTable := healthCheckTable - {ip};
      instanceCount := Wrap(instanceCount - 1);
      ok := true;
    }

    /** Always reports an error, also after a successful deletion. */
    method DeleteService(service: string) returns (ok: bool)
      requires Valid()
      modifies this
      ensures Valid() && State() == DelService(old(State()), service) && !ok && owner == old(owner)
      ensures lists == old(lists) - {service} && healthCheckTable == old(healthCheckTable)
      ensures instanceCount ==
              (old(instanceCount) - if service in old(lists) then |old(lists)[service]| else 0) % 0x1_0000_0000_0000_0000
    {
      if service in instancesMap {
        var lb := instancesMap[service];
        instancesMap, lists := instancesMap - {service}, lists - {service};
        ghost var before := instanceCount;
        for k := 0 to |lb.ips|
          invariant instanceCount == Wrap(before - k)
          invariant instancesMap == old(instancesMap) - {service} && lists == old(lists) - {service} && owner == old(owner)
          invariant healthCheckTable == old(healthCheckTable)
        {
          // The key removed from the health table is the position `k`, which is never an address.
          instanceCount := Wrap(instanceCount - 1);
        }
      }
      ok := false;
    }

    /** `found` are the positions of the available addresses. */
    method AvailableIPs(service: string) returns (count: nat, ok: bool, ghost found: set<nat>)
      requires Valid()
      ensures ok <==> service in lists
      ensures count == Available(IPsOf(State(), service), healthCheckTable) == |found|
      ensures !ok ==> count == 0
      ensures ok ==> forall i :: i in found <==>
                                   0 <= i < |lists[service]| && lists[service][i] in healthCheckTable && healthCheckTable[lists[service][i]]
    {
      count, found := 0, {};
      if service !in instancesMap {
        return 0, false, {};
      }
      var ips := instancesMap[service].ips;
      for i := 0 to |ips|
        invariant count == Available(ips[..i], healthCheckTable) == |found|
        invariant forall k :: k in found <==> 0 <= k < i && ips[k] in healthCheckTable && healthCheckTable[ips[k]]
      {
        assert ips[..i + 1] == ips[..i] + [ips[i]];
        AvailableSnoc(ips[..i], ips[i], healthCheckTable);
        if ips[i] in healthCheckTable && healthCheckTable[ips[i]] {
          count, found := count + 1, found + {i};
        }
      }
      assert ips[..|ips|] == ips;
      ok := true;
    }

    /**
      Draws until a healthy address comes up, at most max(size, 5) times. `drawn` is the number of
      draws used: the address is the first healthy one drawn, and giving up means every draw missed.
     */
    method ResolveServiceEndpoint(service: string, draws: seq<nat>) returns (r: Resolution, drawn: nat)
      requires Valid()
      requires var ips := IPsOf(State(), service); |draws| == if |ips| < 5 then 5 else |ips|
      ensures r.UnknownService? <==> service !in lists
      ensures r.NoInstances? <==> service in lists && lists[service] == []
      ensures r == Resolve(State(), service, draws)
      ensures drawn <= |draws|
      ensures r.Endpoint? ==>
                var ips := lists[service];
                && ips != [] && drawn > 0 && r.ip == ips[draws[drawn - 1] % |ips|]
                && r.ip in healthCheckTable && healthCheckTable[r.ip]
                && forall k :: 0 <= k < drawn - 1 ==> var ip := ips[draws[k] % |ips|]; ip !in healthCheckTable || !healthCheckTable[ip]
      ensures r.NoneHealthy? ==>
                var ips := lists[service];
                && ips != [] && drawn == |draws|
                && forall k :: 0 <= k < |draws| ==> var ip := ips[draws[k] % |ips|]; ip !in healthCheckTable || !healthCheckTable[ip]
    {
      drawn := 0;
      if service !in instancesMap {
        return UnknownService, 0;
      }
      var lb := instancesMap[service];
      var maxLen := lb.size;
      while drawn < maxLen || drawn < 5
        invariant drawn <= |draws|
        invariant drawn > 0 ==> lb.ips != []
        invariant lb.ips != [] ==> forall k :: 0 <= k < drawn ==> !Hits(lb.ips, healthCheckTable, draws[k])
        invariant lb.ips != [] ==>
                    FirstHit(lb.ips, healthCheckTable, draws) == FirstHit(lb.ips, healthCheckTable, draws[drawn..])
        decreases |draws| - drawn
      {
        var ip := lb.NextInstance(draws[drawn]);
        if ip.None? {
          return NoInstances, drawn;
        }
        drawn := drawn + 1;
        if ip.value in healthCheckTable && healthCheckTable[ip.value] {
          return Endpoint(ip.value), drawn;
        }
      }
      r := NoneHealthy;
    }

    /**
      One pass of the prober over the health table. `answers` are the outcomes of the requests.
      None is a division by zero; otherwise the result is the time slept in seconds.
     */
    method RunHealthChecks(answers: map<IP, bool>) returns (slept: Option<nat>)
      requires Valid() && answers.Keys == healthCheckTable.Keys
      modifies this`healthCheckTable
      ensures Valid()
      ensures slept.None? <==> answers != map[] && instanceCount == TWO64 - 1
      ensures slept.Some? ==> healthCheckTable == answers
      ensures slept.Some? && answers != map[] ==>
                Delay(instanceCount).Some? && slept.value == Pauses(|answers|, Slept(Delay(instanceCount).value))
      ensures answers == map[] ==> slept == Some(0)
      ensures old(Sound(State()) && KeysAgree(State())) && |answers| < TWO64 - 1 ==>
                slept == Some(|answers| * (300 / (|answers| + 1))) && slept.value < 300
    {
      DelayDefined(instanceCount);
      if Sound(State()) && KeysAgree(State()) && |answers| < TWO64 - 1 {
        assert |answers.Keys| == |answers| && |healthCheckTable.Keys| == |healthCheckTable|;
        AgreedSweepFits(State());
      }
      slept := Sweep(answers, Delay(instanceCount));
    }

    /** Every entry outside `todo` is up to date. */
    static ghost predicate Swept(table: map<IP, bool>, answers: map<IP, bool>, todo: set<IP>) {
      forall ip :: ip in answers && ip in table && ip !in todo ==> table[ip] == answers[ip]
    }

    /** The pass itself, for the pause that the current count gives. */
    method Sweep(answers: map<IP, bool>, pause: Option<int>) returns (slept: Option<nat>)
      requires answers.Keys == healthCheckTable.Keys
      modifies this`healthCheckTable
      ensures slept.None? <==> answers != map[] && pause.None?
      ensures slept.Some? ==> healthCheckTable == answers
      ensures slept.Some? && answers != map[] ==> slept.value == Pauses(|answers|, Slept(pause.value))
      ensures answers == map[] ==> slept == Some(0)
    {
      var todo := healthCheckTable.Keys;
      var total: nat := 0;
      ghost var done: nat := 0;
      ghost var each: nat := if pause.Some? then Slept(pause.value) else 0;
      while todo != {}
        invariant todo <= answers.Keys == healthCheckTable.Keys && done + |todo| == |answers|
        invariant Swept(healthCheckTable, answers, todo)
        invariant done > 0 ==> pause.Some?
        invariant total == Pauses(done, each)
        decreases todo
      {
        var ip :| ip in todo;
        healthCheckTable := healthCheckTable[ip := answers[ip]];
        if pause.None? {
          return None;
        }
        total := total + Slept(pause.value);
        todo, done := todo - {ip}, done + 1;
      }
      assert healthCheckTable == answers by {
        assert forall ip :: ip in answers ==> healthCheckTable[ip] == answers[ip];
      }
      slept := Some(total);
    }
  }
}
