/** The random load balancer of one service: a counter and a list of instance addresses. */
module LoadBalancer {
  import opened Common

  const NO_IP := IP("")

  /** `n` unset addresses, what a freshly made Go slice holds. */
  function Unset(n: nat): (r: seq<IP>)
    ensures |r| == n && forall i :: 0 <= i < n ==> r[i] == NO_IP
  {
    seq(n, _ => NO_IP)
  }

  /**
    The list that DeleteInstance leaves; None when its copy loop runs past the end of the new list,
    which is a Go run-time panic.
   */
  function Removed(ips: seq<IP>, ip: IP): Option<seq<IP>> {
    if ips == [] then Some([])
    else if ip !in ips then None
    else
      CountWithout(ips, ip);
      Some(Without(ips, ip) + Unset(Count(ips, ip) - 1))
  }

  lemma CopyStep(ips: seq<IP>, ip: IP, i: nat)
    requires i < |ips|
    ensures Without(ips[..i + 1], ip) == Without(ips[..i], ip) + if ips[i] == ip then [] else [ips[i]]
    ensures |Without(ips[..i + 1], ip)| <= i + 1
  {
    assert ips[..i + 1] == ips[..i] + [ips[i]];
    CountSnoc(ips[..i], ips[i], ip);
    CountWithout(ips[..i + 1], ip);
  }

  /** The list is full before the last address: every address so far differs, and so does the last one. */
  lemma NoRoom(ips: seq<IP>, ip: IP, i: nat)
    requires i < |ips| && ips[i] != ip && |Without(ips[..i], ip)| >= |ips| - 1
    ensures Removed(ips, ip).None?
  {
    CountWithout(ips[..i], ip);
    assert i == |ips| - 1;
    assert forall k :: 0 <= k < i ==> ips[k] == ips[..i][k];
  }

  /** The copy is the removal: the other addresses and then unset ones. */
  lemma Copied(ips: seq<IP>, ip: IP, copy: seq<IP>, index: nat)
    requires ips != [] && |copy| == |ips| - 1 && index <= |copy| && copy[..index] == Without(ips, ip)
    requires forall k :: index <= k < |copy| ==> copy[k] == NO_IP
    ensures Removed(ips, ip) == Some(copy)
  {
    CountWithout(ips, ip);
    assert copy == copy[..index] + copy[index..];
    assert copy[index..] == Unset(Count(ips, ip) - 1);
  }

  class RandomLoadBalancer {
    var size: nat
    var ips: seq<IP>

    ghost predicate Valid()
      reads this
    {
      size == |ips|
    }

    constructor ()
      ensures Valid() && ips == []
    {
      size := 0;
      ips := [];
    }

    /** Extends this balancer in place and hands the same object back. */
    method AddInstance(ip: IP) returns (lb: RandomLoadBalancer)
      requires Valid()
      modifies this
      ensures lb == this && Valid() && ips == old(ips) + [ip]
    {
      size := size + 1;
      ips := ips + [ip];
      lb := this;
    }

    /**
      Builds a new balancer from the addresses other than `ip`; this one stays as it was.
      The copy stays inside the preallocated list exactly when there is nothing to copy or `ip` is present.
     */
    method DeleteInstance(ip: IP) returns (r: Option<RandomLoadBalancer>)
      requires Valid()
      ensures r.Some? <==> Removed(ips, ip).Some?
      ensures ips == [] ==> r == Some(this)
      ensures r.Some? && ips != [] ==> fresh(r.value)
      ensures r.Some? ==> r.value.Valid() && r.value.ips == Removed(ips, ip).value
    {
      if size == 0 {
        return Some(this);
      }
      var newIpList := new IP[size - 1](_ => NO_IP);
      var index := 0;
      for i := 0 to |ips|
        invariant index == |Without(ips[..i], ip)| <= newIpList.Length
        invariant newIpList[..index] == Without(ips[..i], ip)
        invariant forall k :: index <= k < newIpList.Length ==> newIpList[k] == NO_IP
      {
        CopyStep(ips, ip, i);
        if ip != ips[i] {
          if index >= newIpList.Length {
            NoRoom(ips, ip, i);
            return None;
          }
          newIpList[index] := ips[i];
          index := index + 1;
        }
      }
      assert ips[..|ips|] == ips;
      Copied(ips, ip, newIpList[..], index);
      var lb := new RandomLoadBalancer();
      lb.size := size - 1;
      lb.ips := newIpList[..];
      r := Some(lb);
    }

    /** `draw` stands for the random number; Go reduces it below `size`. */
    method NextInstance(draw: nat) returns (r: Option<IP>)
      requires Valid()
      ensures r == if ips == [] then None else Some(ips[draw % |ips|])
    {
      if size == 0 {
        return None;
      }
      var index := draw % size;
      r := Some(ips[index]);
    }
  }

  /** For an address that occurs exactly once, deletion is removal in place of that one entry. */
  lemma RemovedOnce(ips: seq<IP>, i: nat)
    requires NoDup(ips) && i < |ips|
    ensures Removed(ips, ips[i]) == Some(ips[..i] + ips[i + 1..])
    ensures Removed(ips, ips[i]).value == Without(ips, ips[i])
    ensures NoDup(Removed(ips, ips[i]).value)
  {
    WithoutUnique(ips, i);
    var kept := Without(ips, ips[i]);
    assert Removed(ips, ips[i]) == Some(kept) by {
      assert kept + Unset(0) == kept;
    }
  }

  /**
    In general the other addresses keep their order and the list is padded with one unset address
    for every further occurrence; the length always drops by exactly one.
   */
  lemma RemovedPads(ips: seq<IP>, ip: IP)
    requires ips != []
    ensures Removed(ips, ip).Some? <==> Count(ips, ip) >= 1
    ensures Count(ips, ip) >= 1 ==>
              var r := Removed(ips, ip).value;
              var kept := |ips| - Count(ips, ip);
              && |r| == |ips| - 1
              && 0 <= kept <= |r|
              && r[..kept] == Without(ips, ip)
              && (forall k :: kept <= k < |r| ==> r[k] == IP(""))
  {
    CountWithout(ips, ip);
  }
}
