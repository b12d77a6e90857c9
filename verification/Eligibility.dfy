/**
 * Which Pods of a Service are targets, and why the others are not
 * (internal/k8s/eligibility.go). Names, addresses and labels are numbers; the address and the
 * port number zero are unset, and no Pod holds the unset address.
 */
module Eligibility {
  import opened Wrappers

  type Name = nat
  type UID = nat
  type Address = nat

  datatype Family = IPv4 | IPv6 | OtherFamily

  datatype ContainerPort = ContainerPort(name: Name, tcp: bool, number: nat)

  datatype Pod = Pod(
    name: Name, uid: UID, selected: bool, deleting: bool, running: bool, ready: bool,
    ips: set<Address>, ports: seq<ContainerPort>, node: nat, version: nat)

  datatype Ref = Ref(isPod: bool, sameNamespace: bool, name: Name, uid: UID)

  datatype Endpoint = Endpoint(ref: Option<Ref>, ready: Option<bool>, addresses: seq<Address>)

  datatype Slice = Slice(family: Family, endpoints: seq<Endpoint>)

  // The request's selection and the configured default; zero is not set.
  datatype Selection = Selection(port: nat, portName: Name, defaultPort: nat, defaultName: Name)

  datatype Target = Target(pod: Name, node: nat, ip: Address, port: nat, version: nat, uid: UID)

  type Pods = map<Name, Pod>

  /** One cache of Pods: each under its name, none sharing an identifier. */
  ghost predicate Snapshot(pods: Pods) {
    && (forall n <- pods :: pods[n].name == n && 0 !in pods[n].ips)
    && (forall m <- pods, n <- pods :: pods[m].uid == pods[n].uid ==> m == n)
  }

  /** The number of the first TCP port of that name. */
  ghost predicate FirstNamed(ports: seq<ContainerPort>, name: Name, number: nat) {
    exists i | 0 <= i < |ports| ::
      && ports[i].name == name && ports[i].tcp && ports[i].number == number
      && forall j | 0 <= j < i :: !(ports[j].name == name && ports[j].tcp)
  }

  /** The pprof port of a Pod: the one the request selects, and only without a request the configured default. */
  ghost predicate HasPort(pod: Pod, sel: Selection, port: nat) {
    if sel.port != 0 then port == sel.port
    else if sel.portName != 0 then FirstNamed(pod.ports, sel.portName, port)
    else if sel.defaultPort != 0 then port == sel.defaultPort
    else sel.defaultName != 0 && FirstNamed(pod.ports, sel.defaultName, port)
  }

  function NamedPort(ports: seq<ContainerPort>, name: Name): (r: Option<nat>)
    ensures forall n: nat :: r == Some(n) <==> FirstNamed(ports, name, n)
  {
    if ports == [] then None
    else if ports[0].name == name && ports[0].tcp then Some(ports[0].number)
    else
      var r := NamedPort(ports[1..], name);
      assert forall n: nat :: FirstNamed(ports, name, n) <==> FirstNamed(ports[1..], name, n) by {
        SkipsFirst(ports, name);
      }
      r
  }

  lemma SkipsFirst(ports: seq<ContainerPort>, name: Name)
    requires ports != [] && !(ports[0].name == name && ports[0].tcp)
    ensures forall n: nat :: FirstNamed(ports, name, n) <==> FirstNamed(ports[1..], name, n)
  {
    forall n: nat ensures FirstNamed(ports, name, n) <==> FirstNamed(ports[1..], name, n) {
      if i :| 0 <= i < |ports| && ports[i].name == name && ports[i].tcp && ports[i].number == n
              && forall j | 0 <= j < i :: !(ports[j].name == name && ports[j].tcp) {
        assert ports[1..][i - 1] == ports[i];
      }
      if i :| 0 <= i < |ports| - 1 && ports[1..][i].name == name && ports[1..][i].tcp && ports[1..][i].number == n
              && forall j | 0 <= j < i :: !(ports[1..][j].name == name && ports[1..][j].tcp) {
        assert ports[i + 1] == ports[1..][i];
        forall j | 0 <= j < i + 1 ensures !(ports[j].name == name && ports[j].tcp) {
          assert j > 0 ==> ports[j] == ports[1..][j - 1];
        }
      }
    }
  }

  function PprofPort(pod: Pod, sel: Selection): (r: Option<nat>)
    ensures forall port: nat :: r == Some(port) <==> HasPort(pod, sel, port)
  {
    if sel.port != 0 then Some(sel.port)
    else if sel.portName != 0 then NamedPort(pod.ports, sel.portName)
    else if sel.defaultPort != 0 then Some(sel.defaultPort)
    else if sel.defaultName != 0 then NamedPort(pod.ports, sel.defaultName)
    else None
  }

  // ---- What the snapshot says of each Pod, whatever order it is read in ----

  predicate Live(pod: Pod) {
    pod.running && pod.ready && !pod.deleting
  }

  /** An endpoint the gateway takes a Pod's word from. */
  predicate Vouches(ep: Endpoint, pod: Pod) {
    && ep.ref.Some? && ep.ref.value.isPod && ep.ref.value.sameNamespace
    && ep.ref.value.name == pod.name && ep.ref.value.uid == pod.uid && pod.selected
  }

  predicate SaysNotReady(ep: Endpoint, pod: Pod) {
    Vouches(ep, pod) && ep.ready == Some(false)
  }

  predicate Reaches(ep: Endpoint, pod: Pod) {
    Vouches(ep, pod) && ep.ready != Some(false) && Live(pod)
  }

  predicate Mismatches(ep: Endpoint, pod: Pod) {
    Reaches(ep, pod) && (ep.addresses == [] || ep.addresses[0] !in pod.ips)
  }

  predicate Holds(ep: Endpoint, pod: Pod, a: Address) {
    Reaches(ep, pod) && ep.addresses != [] && ep.addresses[0] == a && a in pod.ips
  }

  ghost predicate Named(eps: set<Endpoint>, pod: Pod) {
    exists ep <- eps :: Vouches(ep, pod)
  }

  ghost predicate NotReady(eps: set<Endpoint>, pod: Pod) {
    exists ep <- eps :: SaysNotReady(ep, pod)
  }

  ghost predicate Mismatched(eps: set<Endpoint>, pod: Pod) {
    exists ep <- eps :: Mismatches(ep, pod)
  }

  /** The addresses endpoints give a Pod and the Pod holds. */
  ghost predicate HasAddress(eps: set<Endpoint>, pod: Pod, a: Address) {
    exists ep <- eps :: Holds(ep, pod, a)
  }

  ghost predicate Conflicted(eps: set<Endpoint>, pod: Pod) {
    exists a, b :: HasAddress(eps, pod, a) && HasAddress(eps, pod, b) && a != b
  }

  function TargetAt(pod: Pod, a: Address, port: nat): Target {
    Target(pod.name, pod.node, a, port, pod.version, pod.uid)
  }

  /** A target: one address, agreed on, and a pprof port. */
  ghost predicate IsTarget(eps: set<Endpoint>, pod: Pod, sel: Selection, t: Target) {
    && HasPort(pod, sel, t.port) && HasAddress(eps, pod, t.ip) && !Conflicted(eps, pod)
    && t == TargetAt(pod, t.ip, t.port)
  }

  ghost predicate Wanted(pods: Pods, eps: set<Endpoint>, sel: Selection, t: Target) {
    exists n <- pods :: IsTarget(eps, pods[n], sel, t)
  }

  /** What the request selects, or else the default, is the port of every target. */
  ghost predicate AtPort(pods: Pods, sel: Selection, t: Target) {
    && t.pod in pods
    && (sel.port != 0 ==> t.port == sel.port)
    && (sel.port == 0 && sel.portName != 0 ==> FirstNamed(pods[t.pod].ports, sel.portName, t.port))
    && (sel.port == 0 && sel.portName == 0 && sel.defaultPort != 0 ==> t.port == sel.defaultPort)
    && (sel.port == 0 && sel.portName == 0 && sel.defaultPort == 0 ==>
          sel.defaultName != 0 && FirstNamed(pods[t.pod].ports, sel.defaultName, t.port))
  }

  /** An endpoint that counts towards a Pod's address: it names that very Pod, is not marked unready, and gives
      first an address the Pod holds. Unset readiness counts as ready. */
  predicate Gives(ep: Endpoint, pod: Pod) {
    && ep.ref == Some(Ref(true, true, pod.name, pod.uid)) && ep.ready != Some(false)
    && ep.addresses != [] && ep.addresses[0] in pod.ips
  }

  /** A target is a live Pod the Service selects, as the snapshot has it, at the one address the endpoints that
      count give it. */
  ghost predicate OfPod(pods: Pods, eps: set<Endpoint>, t: Target) {
    && t.pod in pods
    && var pod := pods[t.pod];
       && pod.selected && pod.running && pod.ready && !pod.deleting
       && t.uid == pod.uid && t.node == pod.node && t.version == pod.version
       && (exists ep <- eps :: Gives(ep, pod))
       && (forall ep <- eps | Gives(ep, pod) :: ep.addresses[0] == t.ip)
  }

  lemma WantedMeans(pods: Pods, eps: set<Endpoint>, sel: Selection, t: Target)
    requires Snapshot(pods)
    ensures Wanted(pods, eps, sel, t) <==> AtPort(pods, sel, t) && OfPod(pods, eps, t)
  {
    hide HasPort, FirstNamed;
    if n :| n in pods && IsTarget(eps, pods[n], sel, t) {
      AddressedMeans(eps, pods[n], t.ip);
      PortMeans(pods, sel, t);
    }
    if AtPort(pods, sel, t) && OfPod(pods, eps, t) {
      AddressedMeans(eps, pods[t.pod], t.ip);
      PortMeans(pods, sel, t);
      assert IsTarget(eps, pods[t.pod], sel, t);
    }
  }

  lemma PortMeans(pods: Pods, sel: Selection, t: Target)
    requires t.pod in pods
    ensures AtPort(pods, sel, t) <==> HasPort(pods[t.pod], sel, t.port)
  {
    hide FirstNamed;
  }

  lemma AddressedMeans(eps: set<Endpoint>, pod: Pod, a: Address)
    ensures HasAddress(eps, pod, a) && !Conflicted(eps, pod) <==>
            && pod.selected && Live(pod) && (exists ep <- eps :: Gives(ep, pod))
            && (forall ep <- eps | Gives(ep, pod) :: ep.addresses[0] == a)
  {
    forall ep: Endpoint, b: Address
      ensures Holds(ep, pod, b) <==> pod.selected && Live(pod) && Gives(ep, pod) && ep.addresses[0] == b
    {
      assert Vouches(ep, pod) <==> pod.selected && ep.ref == Some(Ref(true, true, pod.name, pod.uid));
    }
    hide Holds, Gives, Live;
    if pod.selected && Live(pod) {
      forall ep <- eps | Gives(ep, pod) ensures HasAddress(eps, pod, ep.addresses[0]) {
        assert Holds(ep, pod, ep.addresses[0]);
      }
    }
  }

  /** Once a request selects a port or a name, the configured default changes no target. */
  lemma RequestOverridesDefault(pods: Pods, eps: set<Endpoint>, sel: Selection, other: Selection, t: Target)
    requires sel.port != 0 || sel.portName != 0
    requires other == sel.(defaultPort := other.defaultPort, defaultName := other.defaultName)
    ensures Wanted(pods, eps, sel, t) <==> Wanted(pods, eps, other, t)
  {
    forall n <- pods ensures IsTarget(eps, pods[n], sel, t) <==> IsTarget(eps, pods[n], other, t) {}
  }

  /** The endpoints of the address family that is read. */
  ghost function EndpointsRead(slices: seq<Slice>): set<Endpoint> {
    set s <- slices, ep <- s.endpoints | FamilyRead(slices, s.family) :: ep
  }

  ghost predicate FamilyRead(slices: seq<Slice>, family: Family) {
    family == if exists s <- slices :: s.family.IPv4? then IPv4 else IPv6
  }

  /** Read are the endpoints of the IPv4 slices, and only without one those of the IPv6 slices. */
  lemma ReadsOneFamily(slices: seq<Slice>, ep: Endpoint)
    ensures ep in EndpointsRead(slices) <==>
            exists s <- slices ::
              ep in s.endpoints && (s.family.IPv4? || (s.family.IPv6? && forall u <- slices :: !u.family.IPv4?))
  {
    if s :| s in slices && s.family.IPv4? {
      assert FamilyRead(slices, IPv4) && !FamilyRead(slices, IPv6);
    } else {
      assert FamilyRead(slices, IPv6) && !FamilyRead(slices, IPv4);
    }
  }

  // ---- The pass over the slices ----

  datatype Facts = Facts(
    notReady: bool, addressMismatch: bool, address: Address, conflict: bool, pod: Name, target: Option<Target>)

  predicate FactsTarget(f: Facts) {
    f.target.Some? && !f.conflict
  }

  predicate FactsConflicted(f: Facts) {
    f.conflict && (f.target.Some? || (!f.notReady && !f.addressMismatch))
  }

  ghost predicate Describes(f: Facts, eps: set<Endpoint>, pod: Pod, sel: Selection) {
    && (f.notReady <==> NotReady(eps, pod))
    && (f.addressMismatch <==> Mismatched(eps, pod))
    && (f.address != 0 <==> exists a :: HasAddress(eps, pod, a))
    && (f.address != 0 ==> HasAddress(eps, pod, f.address))
    && (f.conflict <==> Conflicted(eps, pod))
    && f.pod == pod.name
    && f.target == if f.address != 0 && PprofPort(pod, sel).Some?
                   then Some(TargetAt(pod, f.address, PprofPort(pod, sel).value))
                   else None
  }

  ghost predicate Seen(seen: map<UID, Facts>, eps: set<Endpoint>, pods: Pods, sel: Selection) {
    && (forall n <- pods :: pods[n].uid in seen <==> Named(eps, pods[n]))
    && (forall n <- pods :: pods[n].uid in seen ==> Describes(seen[pods[n].uid], eps, pods[n], sel))
    && (forall uid <- seen :: exists n <- pods :: pods[n].uid == uid)
  }

  method AddressFamily(slices: seq<Slice>) returns (family: Option<Family>)
    ensures family == Some(IPv4) <==> exists s <- slices :: s.family.IPv4?
    ensures family == Some(IPv6) <==> (forall s <- slices :: !s.family.IPv4?) && exists s <- slices :: s.family.IPv6?
    ensures family.Some? ==> family.value in {IPv4, IPv6}
    ensures family.Some? ==> FamilyRead(slices, family.value)
    ensures family.None? ==> EndpointsRead(slices) == {}
  {
    family := None;
    for i := 0 to |slices|
      invariant forall j | 0 <= j < i :: !slices[j].family.IPv4?
      invariant family == if exists j | 0 <= j < i :: slices[j].family.IPv6? then Some(IPv6) else None
    {
      if slices[i].family.IPv4? {
        assert slices[i] in slices;
        return Some(IPv4);
      }
      if slices[i].family.IPv6? {
        family := Some(IPv6);
      }
    }
  }

  lemma OneMore(eps: set<Endpoint>, ep: Endpoint, pod: Pod)
    ensures NotReady(eps + {ep}, pod) <==> NotReady(eps, pod) || SaysNotReady(ep, pod)
    ensures Mismatched(eps + {ep}, pod) <==> Mismatched(eps, pod) || Mismatches(ep, pod)
    ensures Named(eps + {ep}, pod) <==> Named(eps, pod) || Vouches(ep, pod)
    ensures forall a :: HasAddress(eps + {ep}, pod, a) <==> HasAddress(eps, pod, a) || Holds(ep, pod, a)
  {
    assert ep in eps + {ep};
    forall e <- eps ensures e in eps + {ep} {}
    forall a ensures HasAddress(eps + {ep}, pod, a) <==> HasAddress(eps, pod, a) || Holds(ep, pod, a) {}
  }

  // An endpoint that gives no address changes none.
  lemma NoAddress(eps: set<Endpoint>, ep: Endpoint, pod: Pod)
    requires forall a :: !Holds(ep, pod, a)
    ensures Conflicted(eps + {ep}, pod) <==> Conflicted(eps, pod)
    ensures (exists a :: HasAddress(eps + {ep}, pod, a)) <==> exists a :: HasAddress(eps, pod, a)
  {
    OneMore(eps, ep, pod);
    hide HasAddress, Holds;
    assert forall a :: HasAddress(eps + {ep}, pod, a) <==> HasAddress(eps, pod, a);
  }

  lemma OneAddress(eps: set<Endpoint>, ep: Endpoint, pod: Pod, address: Address, held: Address)
    requires forall a :: Holds(ep, pod, a) <==> a == address
    requires held != 0 ==> HasAddress(eps, pod, held)
    requires held == 0 ==> forall a :: !HasAddress(eps, pod, a)
    ensures HasAddress(eps + {ep}, pod, address) && (held != 0 ==> HasAddress(eps + {ep}, pod, held))
    ensures Conflicted(eps + {ep}, pod) <==> Conflicted(eps, pod) || (held != 0 && held != address)
  {
    OneMore(eps, ep, pod);
    hide HasAddress, Holds;
    assert forall a :: HasAddress(eps + {ep}, pod, a) <==> HasAddress(eps, pod, a) || a == address;
  }

  // One endpoint's word on one Pod.
  method Hear(f: Facts, ep: Endpoint, pod: Pod, sel: Selection, ghost eps: set<Endpoint>) returns (g: Facts)
    requires Vouches(ep, pod) && Describes(f, eps, pod, sel) && 0 !in pod.ips
    ensures Describes(g, eps + {ep}, pod, sel)
  {
    hide NotReady, Mismatched, HasAddress, Conflicted, Named;
    OneMore(eps, ep, pod);
    g := f;
    if ep.ready == Some(false) {
      NoAddress(eps, ep, pod);
      g := g.(notReady := true);
      return;
    }
    if !pod.running || !pod.ready || pod.deleting {
      NoAddress(eps, ep, pod);
      return;
    }
    if |ep.addresses| == 0 || ep.addresses[0] !in pod.ips {
      NoAddress(eps, ep, pod);
      g := g.(addressMismatch := true);
      return;
    }
    var address := ep.addresses[0];
    OneAddress(eps, ep, pod, address, f.address);
    if g.address == 0 {
      g := g.(address := address);
    } else if g.address != address {
      g := g.(conflict := true);
    }
    var port := PprofPort(pod, sel);
    if port.None? || g.target.Some? {
      return;
    }
    g := g.(target := Some(TargetAt(pod, address, port.value)));
  }

  // An endpoint that does not vouch for a Pod changes nothing about it.
  lemma Ignored(eps: set<Endpoint>, ep: Endpoint, pod: Pod)
    requires !Vouches(ep, pod)
    ensures Named(eps + {ep}, pod) == Named(eps, pod)
    ensures forall f, sel :: Describes(f, eps, pod, sel) ==> Describes(f, eps + {ep}, pod, sel)
  {
    OneMore(eps, ep, pod);
    NoAddress(eps, ep, pod);
    hide NotReady, Mismatched, HasAddress, Conflicted, Named;
    assert forall a :: HasAddress(eps + {ep}, pod, a) <==> HasAddress(eps, pod, a);
  }

  lemma NothingYet(eps: set<Endpoint>, pod: Pod, sel: Selection)
    requires !Named(eps, pod)
    ensures Describes(Facts(false, false, 0, false, pod.name, None), eps, pod, sel)
  {
  }

  method Meet(seen: map<UID, Facts>, order: seq<UID>, ep: Endpoint, pods: Pods, sel: Selection,
              ghost eps: set<Endpoint>)
    returns (now: map<UID, Facts>, longer: seq<UID>)
    requires Snapshot(pods) && Seen(seen, eps, pods, sel) && Lists(order, seen.Keys)
    ensures Seen(now, eps + {ep}, pods, sel) && Lists(longer, now.Keys)
  {
    hide Describes, Named;
    now, longer := seen, order;
    if ep.ref.None? || !ep.ref.value.isPod || !ep.ref.value.sameNamespace || ep.ref.value.name !in pods
       || pods[ep.ref.value.name].uid != ep.ref.value.uid || !pods[ep.ref.value.name].selected {
      forall n <- pods { Ignored(eps, ep, pods[n]); }
      return;
    }
    var pod := pods[ep.ref.value.name];
    var facts := Facts(false, false, 0, false, pod.name, None);
    if pod.uid in seen {
      facts := seen[pod.uid];
    } else {
      NothingYet(eps, pod, sel);
      longer := longer + [pod.uid];
    }
    facts := Hear(facts, ep, pod, sel, eps);
    now := now[pod.uid := facts];
    OneMore(eps, ep, pod);
    forall n <- pods | n != pod.name { Ignored(eps, ep, pods[n]); }
  }

  // Each once, in some order.
  ghost predicate Lists<T(!new)>(order: seq<T>, all: set<T>) {
    (forall x :: x in order <==> x in all) && forall i, j | 0 <= i < j < |order| :: order[i] != order[j]
  }

  /** The targets of a Service, and what the endpoints said of each Pod they name. */
  method Resolve(pods: Pods, slices: seq<Slice>, sel: Selection) returns (targets: seq<Target>, seen: map<UID, Facts>)
    requires Snapshot(pods)
    ensures Seen(seen, EndpointsRead(slices), pods, sel)
    ensures forall t :: t in targets <==> Wanted(pods, EndpointsRead(slices), sel, t)
    ensures forall i, j | 0 <= i < j < |targets| :: targets[i].uid != targets[j].uid
    ensures forall t :: t in targets <==> AtPort(pods, sel, t) && OfPod(pods, EndpointsRead(slices), t)
  {
    hide Seen, Describes, Wanted, Named, AtPort, OfPod, EndpointsRead;
    var family := AddressFamily(slices);
    ghost var eps: set<Endpoint> := {};
    seen := map[];
    var order: seq<UID> := [];
    NothingSeen(pods, sel);
    for i := 0 to |slices|
      invariant Seen(seen, eps, pods, sel) && Lists(order, seen.Keys)
      invariant eps == set j, ep | 0 <= j < i && family == Some(slices[j].family) && ep in slices[j].endpoints :: ep
    {
      if family != Some(slices[i].family) {
        continue;
      }
      ghost var before := eps;
      var endpoints := slices[i].endpoints;
      for k := 0 to |endpoints|
        invariant Seen(seen, eps, pods, sel) && Lists(order, seen.Keys)
        invariant eps == before + set ep | ep in endpoints[..k]
      {
        seen, order := Meet(seen, order, endpoints[k], pods, sel, eps);
        assert endpoints[..k + 1] == endpoints[..k] + [endpoints[k]];
        eps := eps + {endpoints[k]};
      }
      assert endpoints[..|endpoints|] == endpoints;
    }
    ReadAll(slices, family, eps);
    CarryUID(seen, eps, pods, sel);
    targets := Chosen(seen, order);
    ChosenAre(seen, targets, eps, pods, sel);
    forall t ensures Wanted(pods, eps, sel, t) <==> AtPort(pods, sel, t) && OfPod(pods, eps, t) {
      WantedMeans(pods, eps, sel, t);
    }
  }

  lemma NothingSeen(pods: Pods, sel: Selection)
    ensures Seen(map[], {}, pods, sel)
  {
  }

  lemma ReadAll(slices: seq<Slice>, family: Option<Family>, eps: set<Endpoint>)
    requires family.Some? ==> FamilyRead(slices, family.value)
    requires family.None? ==> EndpointsRead(slices) == {}
    requires eps == set j, ep | 0 <= j < |slices| && family == Some(slices[j].family) && ep in slices[j].endpoints :: ep
    ensures eps == EndpointsRead(slices)
  {
    forall ep ensures ep in eps <==> ep in EndpointsRead(slices) {
      if ep in EndpointsRead(slices) {
        var s :| s in slices && ep in s.endpoints && FamilyRead(slices, s.family);
        var j :| 0 <= j < |slices| && slices[j] == s;
      }
    }
  }

  lemma CarryUID(seen: map<UID, Facts>, eps: set<Endpoint>, pods: Pods, sel: Selection)
    requires Seen(seen, eps, pods, sel)
    ensures forall uid <- seen :: seen[uid].target.Some? ==> seen[uid].target.value.uid == uid
  {
    forall uid <- seen ensures seen[uid].target.Some? ==> seen[uid].target.value.uid == uid {
      var n :| n in pods && pods[n].uid == uid;
      assert Describes(seen[pods[n].uid], eps, pods[n], sel);
    }
  }

  method Chosen(seen: map<UID, Facts>, order: seq<UID>) returns (targets: seq<Target>)
    requires Lists(order, seen.Keys)
    requires forall uid <- seen :: seen[uid].target.Some? ==> seen[uid].target.value.uid == uid
    ensures forall t :: t in targets <==> exists uid <- seen :: FactsTarget(seen[uid]) && seen[uid].target.value == t
    ensures forall i, j | 0 <= i < j < |targets| :: targets[i].uid != targets[j].uid
  {
    targets := [];
    for i := 0 to |order|
      invariant forall t :: t in targets <==>
                  exists uid <- order[..i] :: FactsTarget(seen[uid]) && seen[uid].target.value == t
      invariant forall t <- targets :: t.uid in order[..i]
      invariant forall i, j | 0 <= i < j < |targets| :: targets[i].uid != targets[j].uid
    {
      assert order[i] !in order[..i];
      assert order[..i + 1] == order[..i] + [order[i]];
      assert order[i] in order[..i + 1];
      if FactsTarget(seen[order[i]]) {
        targets := targets + [seen[order[i]].target.value];
      }
    }
    assert order[..|order|] == order;
  }

  // What the facts call a target is one, and every target is one of them.
  lemma FactsAgree(f: Facts, eps: set<Endpoint>, pod: Pod, sel: Selection, t: Target)
    requires Describes(f, eps, pod, sel) && 0 !in pod.ips
    ensures FactsTarget(f) && f.target.value == t <==> IsTarget(eps, pod, sel, t)
  {
    if IsTarget(eps, pod, sel, t) {
      assert HasAddress(eps, pod, t.ip) && HasAddress(eps, pod, f.address);
    }
  }

  lemma ChosenAre(seen: map<UID, Facts>, targets: seq<Target>, eps: set<Endpoint>, pods: Pods, sel: Selection)
    requires Snapshot(pods) && Seen(seen, eps, pods, sel)
    requires forall t :: t in targets <==> exists uid <- seen :: FactsTarget(seen[uid]) && seen[uid].target.value == t
    ensures forall t :: t in targets <==> Wanted(pods, eps, sel, t)
  {
    forall t ensures t in targets <==> Wanted(pods, eps, sel, t) {
      if t in targets {
        var uid :| uid in seen && FactsTarget(seen[uid]) && seen[uid].target.value == t;
        var n :| n in pods && pods[n].uid == uid;
        FactsAgree(seen[uid], eps, pods[n], sel, t);
      }
      if n :| n in pods && IsTarget(eps, pods[n], sel, t) {
        assert Named(eps, pods[n]);
        FactsAgree(seen[pods[n].uid], eps, pods[n], sel, t);
      }
    }
  }

  // ---- The order of slices and endpoints ----

  /** Two readings of one Service: the same endpoints in the same families, in any order or number. */
  ghost predicate SameContent(a: seq<Slice>, b: seq<Slice>) {
    && (set s <- a :: s.family) == (set s <- b :: s.family)
    && Content(a) == Content(b)
  }

  ghost function Content(a: seq<Slice>): set<(Family, Endpoint)> {
    set s <- a, ep <- s.endpoints :: (s.family, ep)
  }

  /** Which endpoints are read, and so every target, does not depend on that order. */
  lemma OrderDoesNotMatter(a: seq<Slice>, b: seq<Slice>)
    requires SameContent(a, b)
    ensures EndpointsRead(a) == EndpointsRead(b)
  {
    ReadFrom(a, b);
    ReadFrom(b, a);
  }

  lemma ReadFrom(a: seq<Slice>, b: seq<Slice>)
    requires SameContent(a, b)
    ensures EndpointsRead(a) <= EndpointsRead(b)
  {
    SameFamily(a, b);
    forall ep <- EndpointsRead(a) ensures ep in EndpointsRead(b) {
      var s :| s in a && ep in s.endpoints && FamilyRead(a, s.family);
      assert (s.family, ep) in Content(a);
      var u :| u in b && ep in u.endpoints && u.family == s.family;
    }
  }

  lemma SameFamily(a: seq<Slice>, b: seq<Slice>)
    requires (set s <- a :: s.family) == (set s <- b :: s.family)
    ensures forall f :: FamilyRead(a, f) <==> FamilyRead(b, f)
  {
    var fs := set s <- a :: s.family;
    assert IPv4 in fs <==> exists s <- a :: s.family.IPv4?;
    assert IPv4 in fs <==> exists s <- b :: s.family.IPv4?;
  }

  /** Slices and endpoints moved about hold the same content. */
  lemma PermutedHasSameContent(a: seq<Slice>, b: seq<Slice>)
    requires multiset(a) == multiset(b)
    ensures SameContent(a, b)
  {
    forall s ensures s in a <==> s in b { assert s in multiset(a) <==> s in multiset(b); }
  }
}
