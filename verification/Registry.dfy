/**
  One registry, two controllers: the internal controller's balancers and Caddy's cache are both
  representations of a plain table from services to address lists.
 */
module Registry {
  import opened Common
  import LoadBalancer
  import I = InternalController
  import C = Caddy

  /** The abstract registry; a service that is not mentioned has no addresses. */
  type Table = map<string, seq<IP>>

  function Look(r: Table, service: string): seq<IP> {
    if service in r then r[service] else []
  }

  datatype Op = Add(service: string, ip: IP, healthy: bool, reached: bool) | Del(service: string, ip: IP, reached: bool)

  ghost predicate Unused(r: Table, ip: IP) {
    forall s :: ip !in Look(r, s)
  }

  /** Addresses are added once, without a colon in them, and deleted where they are. */
  ghost predicate Allowed(r: Table, op: Op) {
    match op
    case Add(_, ip, _, _) => ':' !in ip.text && Unused(r, ip)
    case Del(service, ip, _) => ip in Look(r, service)
  }

  function Do(r: Table, op: Op): Table {
    match op
    case Add(service, ip, _, _) => r[service := Look(r, service) + [ip]]
    case Del(service, ip, _) => r[service := Without(Look(r, service), ip)]
  }

  /** The internal controller's own step; None is a panic. */
  function DoInternal(t: I.Tables, op: Op): Option<I.Tables> {
    match op
    case Add(service, ip, healthy, _) => Some(I.AddIP(t, service, ip, healthy))
    case Del(service, ip, _) => I.DelIP(t, service, ip)
  }

  /** Caddy's own step: whether Caddy could be reached makes no difference to the cache. */
  function DoCaddy(c: C.Cache, op: Op): C.Cache {
    match op
    case Add(service, ip, _, _) => C.Added(c, service, ip)
    case Del(service, ip, _) => C.Deleted(c, service, ip)
  }

  function Entries(ips: seq<IP>): seq<string> {
    seq(|ips|, i requires 0 <= i < |ips| => C.Entry(ips[i]))
  }

  /** Lists are duplicate-free and colon-free, which is what the allowed operations maintain. */
  ghost predicate Proper(r: Table) {
    && (forall s :: NoDup(Look(r, s)))
    && (forall s, ip :: ip in Look(r, s) ==> ':' !in ip.text)
  }

  ghost predicate InternalHolds(t: I.Tables, r: Table) {
    forall s :: I.IPsOf(t, s) == Look(r, s)
  }

  /** A service without addresses has no key in Caddy's cache. */
  ghost predicate CaddyHolds(c: C.Cache, r: Table) {
    && (forall s :: C.EntriesOf(c, s) == Entries(Look(r, s)))
    && C.NoneEmpty(c)
  }

  lemma {:induction false} EntriesInjective(a: seq<IP>, b: seq<IP>)
    ensures Entries(a) == Entries(b) <==> a == b
  {
    if Entries(a) == Entries(b) {
      assert |a| == |Entries(a)| == |b|;
      forall i | 0 <= i < |a| ensures a[i] == b[i] {
        assert Entries(a)[i] == Entries(b)[i];
        assert a[i].text == C.Entry(a[i])[..|a[i].text|] && |C.Entry(a[i])| == |a[i].text| + 5;
        assert b[i].text == C.Entry(b[i])[..|b[i].text|] && |C.Entry(b[i])| == |b[i].text| + 5;
      }
    }
  }

  /** Caddy's text filter is exact removal as long as no address has a colon. */
  lemma {:induction false} KeptIsWithout(ips: seq<IP>, ip: IP)
    requires forall x :: x in ips ==> ':' !in x.text
    ensures C.Kept(Entries(ips), ip) == Entries(Without(ips, ip))
  {
    if ips != [] {
      KeptIsWithout(ips[1..], ip);
      assert Entries(ips)[1..] == Entries(ips[1..]);
      assert C.Entry(ips[0]) == ips[0].text + ":" + "8123";
      C.HostOfEntry(ips[0].text, "8123");
      assert Entries(ips)[0] == C.Entry(ips[0]);
      assert ips[0] != ip <==> ips[0].text != ip.text;
      assert Entries([ips[0]] + Without(ips[1..], ip)) == [C.Entry(ips[0])] + Entries(Without(ips[1..], ip));
    }
  }

  lemma ProperUpdate(r: Table, service: string, now: seq<IP>)
    requires Proper(r) && NoDup(now) && forall ip :: ip in now ==> ':' !in ip.text
    ensures Proper(r[service := now])
  {
    var r' := r[service := now];
    forall s ensures NoDup(Look(r', s)) {
      assert NoDup(Look(r, s));
    }
    forall s, ip | ip in Look(r', s) ensures ':' !in ip.text {
      assert s == service || ip in Look(r, s);
    }
  }

  lemma ProperStep(r: Table, op: Op)
    requires Proper(r) && Allowed(r, op)
    ensures Proper(Do(r, op))
  {
    var ips := Look(r, op.service);
    assert NoDup(ips);
    match op
    case Add(service, ip, _, _) =>
      assert ip !in ips;
      ProperUpdate(r, service, ips + [ip]);
    case Del(service, ip, _) =>
      var i :| 0 <= i < |ips| && ips[i] == ip;
      WithoutUnique(ips, i);
      CountWithout(ips, ip);
      ProperUpdate(r, service, Without(ips, ip));
  }

  lemma InternalStep(t: I.Tables, r: Table, op: Op)
    requires InternalHolds(t, r) && Proper(r) && Allowed(r, op)
    ensures DoInternal(t, op).Some? && InternalHolds(DoInternal(t, op).value, Do(r, op))
  {
    var ips := Look(r, op.service);
    assert I.IPsOf(t, op.service) == ips;
    if op.Del? {
      var i :| 0 <= i < |ips| && ips[i] == op.ip;
      assert NoDup(ips);
      LoadBalancer.RemovedOnce(ips, i);
    }
    forall s ensures I.IPsOf(DoInternal(t, op).value, s) == Look(Do(r, op), s) {
      assert I.IPsOf(t, s) == Look(r, s);
    }
  }

  lemma CaddyStep(c: C.Cache, r: Table, op: Op)
    requires CaddyHolds(c, r) && Proper(r) && Allowed(r, op)
    ensures CaddyHolds(DoCaddy(c, op), Do(r, op))
  {
    var ips := Look(r, op.service);
    assert C.EntriesOf(c, op.service) == Entries(ips);
    match op
    case Add(service, ip, _, _) =>
      assert Entries(ips + [ip]) == Entries(ips) + [C.Entry(ip)];
      forall s ensures C.EntriesOf(DoCaddy(c, op), s) == Entries(Look(Do(r, op), s)) {
        assert C.EntriesOf(c, s) == Entries(Look(r, s));
      }
    case Del(service, ip, _) =>
      KeptIsWithout(ips, ip);
      assert |Entries(ips)| > 0;
      forall s ensures C.EntriesOf(DoCaddy(c, op), s) == Entries(Look(Do(r, op), s)) {
        assert C.EntriesOf(c, s) == Entries(Look(r, s));
      }
  }

  // ---------------------------------------------------------------- whole runs

  ghost predicate AllAllowed(r: Table, ops: seq<Op>)
    decreases |ops|
  {
    ops == [] || (Allowed(r, ops[0]) && AllAllowed(Do(r, ops[0]), ops[1..]))
  }

  function Run(r: Table, ops: seq<Op>): Table
    decreases |ops|
  {
    if ops == [] then r else Run(Do(r, ops[0]), ops[1..])
  }

  function RunInternal(t: I.Tables, ops: seq<Op>): Option<I.Tables>
    decreases |ops|
  {
    if ops == [] then Some(t)
    else
      match DoInternal(t, ops[0])
      case None => None
      case Some(t') => RunInternal(t', ops[1..])
  }

  function RunCaddy(c: C.Cache, ops: seq<Op>): C.Cache
    decreases |ops|
  {
    if ops == [] then c else RunCaddy(DoCaddy(c, ops[0]), ops[1..])
  }

  /** Started in step with the table, both controllers stay in step with it over every allowed run. */
  lemma {:induction false} BothRefine(t: I.Tables, c: C.Cache, r: Table, ops: seq<Op>)
    requires InternalHolds(t, r) && CaddyHolds(c, r) && Proper(r) && AllAllowed(r, ops)
    ensures RunInternal(t, ops).Some?
    ensures InternalHolds(RunInternal(t, ops).value, Run(r, ops))
    ensures CaddyHolds(RunCaddy(c, ops), Run(r, ops))
    ensures Proper(Run(r, ops))
    decreases |ops|
  {
    if ops != [] {
      InternalStep(t, r, ops[0]);
      CaddyStep(c, r, ops[0]);
      ProperStep(r, ops[0]);
      BothRefine(DoInternal(t, ops[0]).value, DoCaddy(c, ops[0]), Do(r, ops[0]), ops[1..]);
    }
  }

  /**
    From empty controllers: the same addresses in the same order on both sides, and the same number
    of available replicas of a service exactly when all of its addresses are healthy.
   */
  lemma ControllersAgree(ops: seq<Op>, service: string)
    requires AllAllowed(map[], ops)
    ensures RunInternal(I.EMPTY, ops).Some?
    ensures var t, c := RunInternal(I.EMPTY, ops).value, RunCaddy(map[], ops);
            && (forall ips :: C.EntriesOf(c, service) == Entries(ips) <==> ips == I.IPsOf(t, service))
            && (service in c <==> I.IPsOf(t, service) != [])
            && (I.Available(I.IPsOf(t, service), t.health) == |C.EntriesOf(c, service)| <==>
                forall ip :: ip in I.IPsOf(t, service) ==> ip in t.health && t.health[ip])
  {
    BothRefine(I.EMPTY, map[], map[], ops);
    var t, r := RunInternal(I.EMPTY, ops).value, Run(map[], ops);
    assert I.IPsOf(t, service) == Look(r, service);
    assert C.EntriesOf(RunCaddy(map[], ops), service) == Entries(Look(r, service));
    forall ips ensures C.EntriesOf(RunCaddy(map[], ops), service) == Entries(ips) <==> ips == I.IPsOf(t, service) {
      EntriesInjective(ips, Look(r, service));
    }
    I.AvailableBounds(I.IPsOf(t, service), t.health);
  }
}
