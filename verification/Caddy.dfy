/**
  The Caddy network controller: a cache of upstream addresses per service, and the route list that
  is sent to Caddy after every change.
 */
module Caddy {
  import opened Common
  import opened CaddyTools

  type Cache = map<string, seq<string>>

  /** The upstream entry of an address, with the port every unikernel listens on. */
  function Entry(ip: IP): string {
    ip.text + ":8123"
  }

  /** The part of an entry in front of its first colon. */
  function Host(entry: string): string {
    if entry == "" || entry[0] == ':' then "" else [entry[0]] + Host(entry[1..])
  }

  /** The entries of other addresses, in order. */
  function Kept(entries: seq<string>, ip: IP): seq<string> {
    if entries == [] then []
    else (if Host(entries[0]) != ip.text then [entries[0]] else []) + Kept(entries[1..], ip)
  }

  function EntriesOf(cache: Cache, service: string): seq<string> {
    if service in cache then cache[service] else []
  }

  function Added(cache: Cache, service: string, ip: IP): Cache {
    cache[service := EntriesOf(cache, service) + [Entry(ip)]]
  }

  /** A service whose last address goes away goes away itself. */
  function Deleted(cache: Cache, service: string, ip: IP): Cache {
    if service !in cache then cache
    else if Kept(cache[service], ip) == [] then cache - {service}
    else cache[service := Kept(cache[service], ip)]
  }

  /** No cached service has an empty list. */
  ghost predicate NoneEmpty(cache: Cache) {
    forall s :: s in cache ==> cache[s] != []
  }

  lemma {:induction false} HostOfEntry(text: string, rest: string)
    ensures Host(text + ":" + rest) == text <==> ':' !in text
    ensures Host(text + ":" + rest) <= text
    ensures ':' !in Host(text + ":" + rest)
  {
    var entry := text + ":" + rest;
    if text == "" {
      assert entry[0] == ':';
    } else if text[0] != ':' {
      assert entry[1..] == text[1..] + ":" + rest;
      HostOfEntry(text[1..], rest);
      assert text == [text[0]] + text[1..];
    } else {
      assert entry[0] == ':' && ':' in text;
    }
  }

  lemma {:induction false} KeptSnoc(entries: seq<string>, e: string, ip: IP)
    ensures Kept(entries + [e], ip) == Kept(entries, ip) + if Host(e) != ip.text then [e] else []
  {
    if entries == [] {
      assert entries + [e] == [e];
    } else {
      KeptSnoc(entries[1..], e, ip);
      assert (entries + [e])[1..] == entries[1..] + [e];
      var first := if Host(entries[0]) != ip.text then [entries[0]] else [];
      var last := if Host(e) != ip.text then [e] else [];
      assert first + (Kept(entries[1..], ip) + last) == (first + Kept(entries[1..], ip)) + last;
    }
  }

  /** An address that was just added can be deleted again exactly when it has no colon in it. */
  lemma DeletableIffColonFree(entries: seq<string>, ip: IP)
    ensures Kept(entries + [Entry(ip)], ip) == Kept(entries, ip) <==> ':' !in ip.text
    ensures ':' in ip.text ==> Kept(entries + [Entry(ip)], ip) == Kept(entries, ip) + [Entry(ip)]
  {
    assert Entry(ip) == ip.text + ":" + "8123";
    HostOfEntry(ip.text, "8123");
    KeptSnoc(entries, Entry(ip), ip);
  }

  // ---------------------------------------------------------------- routes

  datatype HandlerConfig = HandlerConfig(handler: string, expectStatus: nat, interval: nat, timeout: nat, uri: string,
                                         policy: string, tryDuration: nat, upstreams: seq<string>)

  datatype RouteConfig = RouteConfig(handle: seq<HandlerConfig>, paths: seq<string>)

  function RouteOf(service: string, upstreams: seq<string>): RouteConfig {
    RouteConfig(
      [HandlerConfig("reverse_proxy", 200, 10000000000, 30000000000, "/", "first", 1000000000, upstreams)],
      [ServiceToURL(service)])
  }

  /** One route per service, in the given order. */
  function Routes(order: seq<string>, cache: Cache): seq<RouteConfig>
    requires forall s :: s in order ==> s in cache
  {
    seq(|order|, i requires 0 <= i < |order| => RouteOf(order[i], cache[order[i]]))
  }

  /** `order` lists every cached service once: the ways a Go map can be ranged over. */
  ghost predicate IsOrder(order: seq<string>, cache: Cache) {
    NoDup(order) && forall s :: s in order <==> s in cache
  }

  /**
    The added routes are one per cached service, whatever the order: as many routes as services, and
    for slash-free names a path is used by one route only.
   */
  lemma RoutesAreOnePerService(order: seq<string>, cache: Cache)
    requires IsOrder(order, cache)
    ensures |Routes(order, cache)| == |cache|
    ensures forall s :: s in cache ==> RouteOf(s, cache[s]) in Routes(order, cache)
    ensures forall i :: 0 <= i < |order| ==>
              var route := Routes(order, cache)[i];
              && route.paths == [ServiceToURL(order[i])] && |route.handle| == 1
              && route.handle[0].handler == "reverse_proxy" && route.handle[0].upstreams == cache[order[i]]
              && route.handle[0].expectStatus == 200 && route.handle[0].uri == "/"
              && route.handle[0].interval == 10_000_000_000 && route.handle[0].timeout == 30_000_000_000
              && route.handle[0].policy == "first" && route.handle[0].tryDuration == 1_000_000_000
    ensures (forall s :: s in cache ==> '/' !in s) ==>
              forall i, j :: 0 <= i < j < |order| ==> Routes(order, cache)[i].paths != Routes(order, cache)[j].paths
  {
    NoDupSize(order, cache.Keys);
    forall s | s in cache ensures RouteOf(s, cache[s]) in Routes(order, cache) {
      var i :| 0 <= i < |order| && order[i] == s;
      assert Routes(order, cache)[i] == RouteOf(s, cache[s]);
    }
    if forall s :: s in cache ==> '/' !in s {
      forall i, j | 0 <= i < j < |order|
        ensures Routes(order, cache)[i].paths != Routes(order, cache)[j].paths
      {
        assert order[i] in cache && order[j] in cache;
        SlashFreePaths(order[i], order[j]);
      }
    }
  }

  /** Some route has the path, and sends to these upstreams. */
  ghost predicate LeadsTo(routes: seq<RouteConfig>, path: string, upstreams: seq<string>) {
    exists r :: r in routes && path in r.paths && r.handle != [] && r.handle[0].upstreams == upstreams
  }

  /** Every route that has the path sends to these upstreams. */
  ghost predicate OnlyTo(routes: seq<RouteConfig>, path: string, upstreams: seq<string>) {
    forall r :: r in routes && path in r.paths ==> r.handle != [] && r.handle[0].upstreams == upstreams
  }

  ghost predicate Nowhere(routes: seq<RouteConfig>, path: string) {
    forall r :: r in routes ==> path !in r.paths
  }

  /**
    What a service's path does in the configuration that is sent. A cached service's path leads to its
    upstreams; if no name has a slash, it leads to no others exactly when the permanent routes do not
    send it elsewhere, and the path of a service that is not cached leads nowhere exactly when the
    permanent routes do not have it.
   */
  ghost predicate PathIsRight(permanent: seq<RouteConfig>, added: seq<RouteConfig>, cache: Cache, service: string) {
    var path, all := ServiceToURL(service), permanent + added;
    && (service in cache ==> LeadsTo(all, path, cache[service]))
    && ('/' !in service && (forall s :: s in cache ==> '/' !in s) ==>
          if service in cache then OnlyTo(all, path, cache[service]) <==> OnlyTo(permanent, path, cache[service])
          else Nowhere(all, path) <==> Nowhere(permanent, path))
  }

  lemma PathsLead(permanent: seq<RouteConfig>, order: seq<string>, cache: Cache, service: string)
    requires IsOrder(order, cache)
    ensures PathIsRight(permanent, Routes(order, cache), cache, service)
  {
    var path, added := ServiceToURL(service), Routes(order, cache);
    var all := permanent + added;
    assert forall r :: r in all <==> r in permanent || r in added;
    if service in cache {
      var i :| 0 <= i < |order| && order[i] == service;
      assert added[i] == RouteOf(service, cache[service]) && added[i] in all && path in added[i].paths;
    }
    if '/' !in service && (forall s :: s in cache ==> '/' !in s) {
      forall r | r in added && path in r.paths ensures service in cache && r == RouteOf(service, cache[service]) {
        var i :| 0 <= i < |added| && added[i] == r;
        assert order[i] in cache && path == ServiceToURL(order[i]);
        SlashFreePaths(order[i], service);
      }
    }
  }

  lemma SlashFreePaths(a: string, b: string)
    requires '/' !in a && '/' !in b
    ensures ServiceToURL(a) == ServiceToURL(b) ==> a == b
  {
    SamePathIff(a, b);
    assert PREFIX[0] == '/';
    assert '/' in PREFIX + a && '/' in PREFIX + b;
  }

  // ---------------------------------------------------------------- Go slices

  /** A slice that starts at the beginning of its backing array; the array's length is the capacity. */
  datatype Slice = Slice(backing: array<RouteConfig>, len: nat) {
    ghost predicate Valid() {
      len <= backing.Length
    }

    ghost function Elems(): seq<RouteConfig>
      requires Valid()
      reads backing
    {
      backing[..len]
    }
  }

  /** Go's append: in place while there is room, otherwise into a new and larger array. */
  method Append(s: Slice, r: RouteConfig) returns (t: Slice)
    requires s.Valid()
    modifies s.backing
    ensures t.Valid() && t.Elems() == old(s.Elems()) + [r]
    ensures t.backing == s.backing || fresh(t.backing)
    ensures s.Elems() == old(s.Elems())
  {
    if s.len < s.backing.Length {
      s.backing[s.len] := r;
      t := Slice(s.backing, s.len + 1);
    } else {
      var cap: nat :| cap > s.len;
      var backing := new RouteConfig[cap](_ => r);
      for i := 0 to s.len
        invariant backing[..i] == s.backing[..i] && backing[s.len] == r
        invariant s.backing[..] == old(s.backing[..])
      {
        backing[i] := s.backing[i];
      }
      t := Slice(backing, s.len + 1);
      assert backing[..s.len + 1] == backing[..s.len] + [r];
    }
    assert s.Elems() == old(s.Elems());
  }

  // ---------------------------------------------------------------- the controller

  class CaddyController {
    var serviceIPCache: Cache
    const permanentRoutes: Slice

    ghost predicate Valid()
      reads this, permanentRoutes.backing
    {
      permanentRoutes.Valid() && NoneEmpty(serviceIPCache)
    }

    constructor (routes: Slice)
      requires routes.Valid()
      ensures Valid() && serviceIPCache == map[] && permanentRoutes == routes
    {
      serviceIPCache := map[];
      permanentRoutes := routes;
    }

    /**
      The permanent routes followed by one route per cached service. Appending may write into the
      backing array of the permanent routes, but never into the permanent routes themselves.
     */
    method GetConfig() returns (routes: Slice, ghost order: seq<string>)
      requires Valid()
      modifies permanentRoutes.backing
      ensures Valid() && permanentRoutes.Elems() == old(permanentRoutes.Elems())
      ensures IsOrder(order, serviceIPCache)
      ensures routes.Valid() && routes.Elems() == permanentRoutes.Elems() + Routes(order, serviceIPCache)
      ensures routes.backing == permanentRoutes.backing || fresh(routes.backing)
    {
      ghost var permanent := permanentRoutes.Elems();
      routes, order := permanentRoutes, [];
      var todo := serviceIPCache.Keys;
      while todo != {}
        invariant todo <= serviceIPCache.Keys
        invariant NoDup(order) && forall s :: s in order <==> s in serviceIPCache && s !in todo
        invariant permanentRoutes.Elems() == permanent
        invariant routes.backing == permanentRoutes.backing || fresh(routes.backing)
        invariant routes.Valid() && permanentRoutes.len <= routes.len
        invariant routes.Elems() == permanent + Routes(order, serviceIPCache)
        decreases todo
      {
        var service :| service in todo;
        var upstreams := Dials(serviceIPCache[service]);
        var was := routes;
        ghost var before := routes.Elems();
        routes := Append(routes, RouteOf(service, upstreams));
        assert permanentRoutes.Elems() == permanent by {
          assert was.backing == permanentRoutes.backing ==> permanentRoutes.Elems() == was.Elems()[..permanentRoutes.len];
          assert permanent == before[..permanentRoutes.len];
        }
        assert Routes(order + [service], serviceIPCache) == Routes(order, serviceIPCache) + [RouteOf(service, upstreams)];
        todo, order := todo - {service}, order + [service];
      }
    }

    /** The upstreams of one route, appended one by one. */
    static method Dials(ips: seq<string>) returns (upstreams: seq<string>)
      ensures upstreams == ips
    {
      upstreams := [];
      for i := 0 to |ips|
        invariant upstreams == ips[..i]
      {
        upstreams := upstreams + [ips[i]];
      }
    }

    /** Builds and sends the routes; `reached` says whether Caddy took them. */
    method ReloadConfig(reached: bool) returns (ok: bool, sent: seq<RouteConfig>, ghost order: seq<string>)
      requires Valid()
      modifies permanentRoutes.backing
      ensures Valid() && permanentRoutes.Elems() == old(permanentRoutes.Elems())
      ensures IsOrder(order, serviceIPCache)
      ensures sent == permanentRoutes.Elems() + Routes(order, serviceIPCache)
      ensures ok == reached
    {
      var routes;
      routes, order := GetConfig();
      sent := routes.backing[..routes.len];
      ok := reached;
    }

    /** The cache changes whether or not Caddy can be reached. */
    method AddServiceIP(service: string, ip: IP, reached: bool) returns (ok: bool, sent: seq<RouteConfig>)
      requires Valid()
      modifies this, permanentRoutes.backing
      ensures Valid() && permanentRoutes.Elems() == old(permanentRoutes.Elems())
      ensures serviceIPCache == Added(old(serviceIPCache), service, ip)
      ensures serviceIPCache ==
              old(serviceIPCache)[service := (if service in old(serviceIPCache) then old(serviceIPCache)[service] else [])
                                             + [ip.text + ":8123"]]
      ensures ok == reached
      ensures exists order :: IsOrder(order, serviceIPCache) && sent == permanentRoutes.Elems() + Routes(order, serviceIPCache)
    {
      if service !in serviceIPCache {
        serviceIPCache := serviceIPCache[service := [Entry(ip)]];
      } else {
        var ips := serviceIPCache[service];
        ips := ips + [Entry(ip)];
        serviceIPCache := serviceIPCache[service := ips];
      }
      assert [] + [Entry(ip)] == [Entry(ip)];
      ghost var order;
      ok, sent, order := ReloadConfig(reached);
    }

    method DeleteServiceIP(service: string, ip: IP, reached: bool) returns (ok: bool, sent: Option<seq<RouteConfig>>)
      requires Valid()
      modifies this, permanentRoutes.backing
      ensures Valid() && permanentRoutes.Elems() == old(permanentRoutes.Elems())
      ensures serviceIPCache == Deleted(old(serviceIPCache), service, ip)
      ensures ok <==> service in old(serviceIPCache) && reached
      ensures sent.Some? <==> service in old(serviceIPCache)
      ensures sent.Some? ==> exists order :: IsOrder(order, serviceIPCache)
                                             && sent.value == permanentRoutes.Elems() + Routes(order, serviceIPCache)
    {
      if service !in serviceIPCache {
        return false, None;
      }
      var all := serviceIPCache[service];
      var ips := [];
      for i := 0 to |all|
        invariant ips == Kept(all[..i], ip)
        invariant serviceIPCache == old(serviceIPCache) && Valid()
        invariant permanentRoutes.Elems() == old(permanentRoutes.Elems())
      {
        assert all[..i + 1] == all[..i] + [all[i]];
        KeptSnoc(all[..i], all[i], ip);
        if Host(all[i]) != ip.text {
          ips := ips + [all[i]];
        }
      }
      assert all[..|all|] == all;
      if |ips| == 0 {
        serviceIPCache := serviceIPCache - {service};
      } else {
        serviceIPCache := serviceIPCache[service := ips];
      }
      ghost var order;
      var routes;
      ok, routes, order := ReloadConfig(reached);
      sent := Some(routes);
    }

    method DeleteService(service: string, reached: bool) returns (ok: bool, sent: Option<seq<RouteConfig>>)
      requires Valid()
      modifies this, permanentRoutes.backing
      ensures Valid() && permanentRoutes.Elems() == old(permanentRoutes.Elems())
      ensures serviceIPCache == old(serviceIPCache) - {service}
      ensures ok <==> service in old(serviceIPCache) && reached
      ensures sent.Some? <==> service in old(serviceIPCache)
      ensures sent.Some? ==> exists order :: IsOrder(order, serviceIPCache)
                                             && sent.value == permanentRoutes.Elems() + Routes(order, serviceIPCache)
    {
      if service !in serviceIPCache {
        return false, None;
      }
      serviceIPCache := serviceIPCache - {service};
      ghost var order;
      var routes;
      ok, routes, order := ReloadConfig(reached);
      sent := Some(routes);
    }

    method AvailableIPs(service: string) returns (count: nat, ok: bool)
      ensures ok <==> service in serviceIPCache
      ensures count == if service in serviceIPCache then |serviceIPCache[service]| else 0
    {
      if service in serviceIPCache {
        return |serviceIPCache[service]|, true;
      }
      return 0, false;
    }

    /**
      The gateway path of a service, for services that have an address. In whatever order the routes
      were sent, behind the permanent ones, the path does what PathIsRight says.
     */
    method ResolveServiceEndpoint(service: string) returns (path: Option<string>)
      requires Valid()
      ensures path.Some? <==> service in serviceIPCache && serviceIPCache[service] != []
      ensures path.Some? ==> path.value == ServiceToURL(service)
      ensures path.Some? && service != "" && AllWord(service) ==> URLToService(path.value) == service
      ensures forall order :: IsOrder(order, serviceIPCache) ==>
                PathIsRight(permanentRoutes.Elems(), Routes(order, serviceIPCache), serviceIPCache, service)
    {
      forall order | IsOrder(order, serviceIPCache)
        ensures PathIsRight(permanentRoutes.Elems(), Routes(order, serviceIPCache), serviceIPCache, service)
      {
        PathsLead(permanentRoutes.Elems(), order, serviceIPCache, service);
      }
      RoundTripOfWords(service);
      assert !IsWordChar('/');
      if service in serviceIPCache {
        path := Some(ServiceToURL(service));
      } else {
        path := None;
      }
    }
  }
}
