/**
 The public IP resolver (internal/plugin/ip_resolver.go). Resolvers are oracles; which of them
 finishes next is an arbitrary choice, and each addIPs runs as a whole under the lock. The two maps
 are keyed by the text of the address they hold, so they are sets here.
 */
module IpResolver {
  import opened Wrappers

  type Byte = x: int | 0 <= x < 256

  /** A net.IP: nil or a slice of bytes of any length. */
  type IP = Option<seq<Byte>>

  /** IPv4-mapped IPv6 addresses (section 2.5.5.2 of RFC 4291). */
  const MAPPED_PREFIX: seq<Byte> := [0, 0, 0, 0, 0, 0, 0, 0, 0, 0, 0xff, 0xff]

  function To16(ip: IP): IP {
    if ip.None? then None
    else if |ip.value| == 4 then Some(MAPPED_PREFIX + ip.value)
    else if |ip.value| == 16 then ip
    else None
  }

  function To4(ip: IP): IP {
    if ip.None? then None
    else if |ip.value| == 4 then ip
    else if |ip.value| == 16 && ip.value[..12] == MAPPED_PREFIX then Some(ip.value[12..])
    else None
  }

  predicate IsV4(a: seq<Byte>) {
    |a| == 4
  }

  predicate IsV6(a: seq<Byte>) {
    |a| == 16 && a[..12] != MAPPED_PREFIX
  }

  /** The one address an IP stands for, if it is valid. */
  function Address(ip: IP): (a: Option<seq<Byte>>)
    ensures a.Some? ==> IsV4(a.value) || IsV6(a.value)
    ensures a.None? <==> To16(ip).None?
  {
    if To16(ip).None? then None else if To4(ip).Some? then To4(ip) else ip
  }

  /** The 4-byte and the mapped 16-byte form are one address, and no other two valid IPs are. */
  lemma AddressMerges(ip: IP, ip': IP)
    requires Address(ip).Some? && Address(ip').Some?
    ensures Address(ip) == Address(ip') <==> To16(ip) == To16(ip')
  {
    var a, a' := ip.value, ip'.value;
    assert |a| == 16 ==> a == a[..12] + a[12..];
    assert |a'| == 16 ==> a' == a'[..12] + a'[12..];
    assert To16(ip) == To16(ip') ==> To16(ip).value[12..] == To16(ip').value[12..];
  }

  /**
   Which address that is: four bytes stand for themselves, sixteen as well unless ten zeros and two
   0xff come before the last four, and any other length is not valid.
   */
  lemma AddressIs(ip: IP)
    ensures Address(ip) ==
            if ip.None? || (|ip.value| != 4 && |ip.value| != 16) then None
            else if |ip.value| == 16 && (forall i :: 0 <= i < 10 ==> ip.value[i] == 0)
                    && ip.value[10] == ip.value[11] == 0xff
            then Some(ip.value[12..])
            else ip
  {
    if ip.Some? && |ip.value| == 16 {
      var p := ip.value[..12];
      assert forall i :: 0 <= i < 12 ==> p[i] == ip.value[i];
      assert p == MAPPED_PREFIX <==> forall i :: 0 <= i < 12 ==> p[i] == MAPPED_PREFIX[i];
    }
  }

  ghost predicate Found(ips: seq<IP>, a: seq<Byte>) {
    exists i :: 0 <= i < |ips| && Address(ips[i]) == Some(a)
  }

  datatype Outcome = Outcome(ips: seq<IP>, failed: bool)

  /** Some resolver that succeeded has given the address. */
  ghost predicate Resolved(outcomes: seq<Outcome>, done: set<nat>, a: seq<Byte>) {
    exists i :: i in done && i < |outcomes| && !outcomes[i].failed && Found(outcomes[i].ips, a)
  }

  class PublicIPResolver {
    var v4Ips: set<seq<Byte>>
    var v6Ips: set<seq<Byte>>

    ghost predicate Valid()
      reads this
    {
      (forall a :: a in v4Ips ==> IsV4(a)) && (forall a :: a in v6Ips ==> IsV6(a))
    }

    ghost function All(): set<seq<Byte>>
      reads this
    {
      v4Ips + v6Ips
    }

    constructor ()
      ensures Valid() && All() == {}
    {
      v4Ips, v6Ips := {}, {};
    }

    method AddIPs(ips: seq<IP>)
      requires Valid()
      modifies this
      ensures Valid()
      ensures forall a :: a in v4Ips <==> a in old(v4Ips) || (|a| == 4 && Found(ips, a))
      ensures forall a :: a in v6Ips <==> a in old(v6Ips) || (|a| == 16 && Found(ips, a))
    {
      for k := 0 to |ips|
        invariant Valid()
        invariant forall a :: a in v4Ips <==> a in old(v4Ips) || (|a| == 4 && Found(ips[..k], a))
        invariant forall a :: a in v6Ips <==> a in old(v6Ips) || (|a| == 16 && Found(ips[..k], a))
      {
        FoundNext(ips, k);
        if To16(ips[k]).None? { continue; }
        var ipv4 := To4(ips[k]);
        if ipv4.Some? {
          v4Ips := v4Ips + {ipv4.value};
          continue;
        }
        v6Ips := v6Ips + {ips[k].value};
      }
      assert ips[..|ips|] == ips;
    }

    /**
     Resolve. With two or more resolvers every order in which they finish leaves the same addresses:
     all those of the resolvers that succeeded. `joined` tells whether the collector had received and
     joined the error of a resolver when Resolve looks at the errors: an error that nobody is ready
     to receive is dropped, and one that is received may still be joined after the wait is over.
     */
    method Resolve(live: bool, outcomes: seq<Outcome>, joined: seq<bool>) returns (err: bool)
      requires Valid() && |joined| == |outcomes|
      modifies this
      ensures Valid() && v4Ips !! v6Ips
      ensures live && |outcomes| >= 2 ==> forall a ::
                && (a in v4Ips <==> a in old(v4Ips) || (|a| == 4 && Resolved(outcomes, Indices(|outcomes|), a)))
                && (a in v6Ips <==> a in old(v6Ips) || (|a| == 16 && Resolved(outcomes, Indices(|outcomes|), a)))
      ensures live && |outcomes| >= 2 ==>
              (err <==>
                v4Ips == {} && v6Ips == {} && exists i :: 0 <= i < |outcomes| && outcomes[i].failed && joined[i])
      ensures live && |outcomes| == 1 ==> err == outcomes[0].failed && forall a ::
                && (a in v4Ips <==> a in old(v4Ips) || (|a| == 4 && outcomes[0].failed && Found(outcomes[0].ips, a)))
                && (a in v6Ips <==> a in old(v6Ips) || (|a| == 16 && outcomes[0].failed && Found(outcomes[0].ips, a)))
      ensures !live || outcomes == [] ==> err && v4Ips == old(v4Ips) && v6Ips == old(v6Ips)
    {
      if !live || |outcomes| == 0 { return true; }
      if |outcomes| == 1 {
        if outcomes[0].failed { AddIPs(outcomes[0].ips); }
        return outcomes[0].failed;
      }
      var running := Indices(|outcomes|);
      err := false;
      while running != {}
        invariant Valid() && running <= Indices(|outcomes|)
        invariant forall a :: a in v4Ips <==>
                  a in old(v4Ips) || (|a| == 4 && Resolved(outcomes, Indices(|outcomes|) - running, a))
        invariant forall a :: a in v6Ips <==>
                  a in old(v6Ips) || (|a| == 16 && Resolved(outcomes, Indices(|outcomes|) - running, a))
        invariant err <==> exists i :: i in Indices(|outcomes|) - running && outcomes[i].failed && joined[i]
      {
        var i :| i in running;
        ResolvedNext(outcomes, Indices(|outcomes|) - running, i);
        if outcomes[i].failed {
          err := err || joined[i];
        } else {
          AddIPs(outcomes[i].ips);
        }
        running := running - {i};
        assert Indices(|outcomes|) - running == Indices(|outcomes|) - (running + {i}) + {i};
      }
      assert Indices(|outcomes|) - running == Indices(|outcomes|);
      if v4Ips != {} || v6Ips != {} { err := false; }
    }
  }

  function Indices(n: nat): (s: set<nat>)
    ensures forall i :: i in s <==> 0 <= i < n
  {
    if n == 0 then {} else Indices(n - 1) + {n - 1}
  }

  lemma FoundNext(ips: seq<IP>, k: nat)
    requires k < |ips|
    ensures forall a :: Found(ips[..k + 1], a) <==> Found(ips[..k], a) || Address(ips[k]) == Some(a)
  {
    forall a ensures Found(ips[..k + 1], a) <==> Found(ips[..k], a) || Address(ips[k]) == Some(a) {
      var p, q := ips[..k + 1], ips[..k];
      assert p[k] == ips[k] && forall i :: 0 <= i < k ==> p[i] == q[i];
    }
  }

  lemma ResolvedNext(outcomes: seq<Outcome>, done: set<nat>, i: nat)
    requires i < |outcomes|
    ensures forall a :: Resolved(outcomes, done + {i}, a) <==>
                        Resolved(outcomes, done, a) || (!outcomes[i].failed && Found(outcomes[i].ips, a))
  {
  }
}
