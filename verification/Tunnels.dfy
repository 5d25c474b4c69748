/** The numbering of tunnels: the gateway controller and the templates on the machines sort the container
    ports independently and must agree. */
module Tunnels {
  import opened Wrappers
  import opened Text
  import opened Gateway

  // ---- sorting ----

  predicate Ascending(s: seq<int>) {
    forall i, j :: 0 <= i < j < |s| ==> s[i] <= s[j]
  }

  predicate StrictlyAscending(s: seq<int>) {
    forall i, j :: 0 <= i < j < |s| ==> s[i] < s[j]
  }

  function Insert(x: int, s: seq<int>): seq<int> {
    if s == [] || x <= s[0] then [x] + s else [s[0]] + Insert(x, s[1..])
  }

  /** The result of sort.Ints. */
  function SortInts(s: seq<int>): seq<int> {
    if s == [] then [] else Insert(s[0], SortInts(s[1..]))
  }

  lemma HeadMultiset(s: seq<int>)
    requires s != []
    ensures multiset(s) == multiset(s[1..]) + multiset{s[0]}
  {
    assert s == [s[0]] + s[1..];
  }

  lemma {:induction false} InsertSorted(x: int, s: seq<int>)
    requires Ascending(s)
    ensures Ascending(Insert(x, s)) && multiset(Insert(x, s)) == multiset(s) + multiset{x}
    ensures s != [] ==> Insert(x, s)[0] == if x <= s[0] then x else s[0]
    ensures s == [] ==> Insert(x, s) == [x]
  {
    if s != [] && x > s[0] {
      var rest := Insert(x, s[1..]);
      InsertSorted(x, s[1..]);
      HeadMultiset(s);
      HeadMultiset([s[0]] + rest);
      assert ([s[0]] + rest)[1..] == rest;
      AscendingCons(s[0], rest);
    } else {
      assert multiset([x] + s) == multiset{x} + multiset(s);
      AscendingCons(x, s);
    }
  }

  lemma AscendingCons(x: int, s: seq<int>)
    requires Ascending(s) && (s != [] ==> x <= s[0])
    ensures Ascending([x] + s)
  {
  }

  /** SortInts gives the ascending permutation. */
  lemma {:induction false} SortIntsSorts(s: seq<int>)
    ensures Ascending(SortInts(s)) && multiset(SortInts(s)) == multiset(s)
  {
    if s == [] {
    } else {
      var rest := SortInts(s[1..]);
      SortIntsSorts(s[1..]);
      InsertSorted(s[0], rest);
      HeadMultiset(s);
      assert SortInts(s) == Insert(s[0], rest);
    }
  }

  /** There is only one. */
  lemma {:induction false} SortIsUnique(s: seq<int>, t: seq<int>)
    requires Ascending(s) && Ascending(t) && multiset(s) == multiset(t)
    ensures s == t
    decreases |s|
  {
    assert |multiset(s)| == |s| && |multiset(t)| == |t|;
    if s == [] {
    } else {
      SameLeast(s, t);
      TailMultiset(s);
      TailMultiset(t);
      SortIsUnique(s[1..], t[1..]);
    }
  }

  lemma SameLeast(s: seq<int>, t: seq<int>)
    requires Ascending(s) && Ascending(t) && multiset(s) == multiset(t) && s != [] && t != []
    ensures s[0] == t[0]
  {
    assert s[0] in multiset(t) && s[0] in t;
    assert t[0] in multiset(s) && t[0] in s;
  }

  lemma TailMultiset(s: seq<int>)
    requires s != []
    ensures s == [s[0]] + s[1..] && multiset(s[1..]) == multiset(s) - multiset{s[0]}
  {
    assert s == [s[0]] + s[1..];
  }

  // ---- the two port lists ----

  /** The list on the machine: every container port, sorted, repeats kept. */
  function MachinePorts(ports: seq<int>): seq<int> {
    SortInts(ports)
  }

  /** Whatever algorithm does the sorting, this is the only ascending list of all the ports. */
  lemma MachinePortsUnique(ports: seq<int>, sorted: seq<int>)
    requires Ascending(sorted) && multiset(sorted) == multiset(ports)
    ensures sorted == MachinePorts(ports)
  {
    SortIntsSorts(ports);
    SortIsUnique(sorted, MachinePorts(ports));
  }

  /** An ascending list without its repeats. */
  function Dedup(s: seq<int>): seq<int> {
    if s == [] then []
    else if |s| > 1 && s[0] == s[1] then Dedup(s[1..])
    else [s[0]] + Dedup(s[1..])
  }

  /** The list in the controller: every distinct container port, sorted. */
  function ControllerPorts(ports: seq<int>): seq<int> {
    Dedup(SortInts(ports))
  }

  lemma {:induction false} DedupAscends(s: seq<int>)
    requires Ascending(s)
    ensures StrictlyAscending(Dedup(s)) && |Dedup(s)| <= |s|
    ensures forall x :: x in Dedup(s) <==> x in s
    ensures s != [] ==> Dedup(s) != [] && Dedup(s)[0] == s[0]
    ensures forall k :: 0 <= k < |Dedup(s)| ==> s[k] <= Dedup(s)[k]
  {
    if s == [] {
    } else {
      assert s == [s[0]] + s[1..];
      DedupAscends(s[1..]);
      var d := Dedup(s[1..]);
      if |s| > 1 && s[0] == s[1] {
        forall k | 0 <= k < |d| ensures s[k] <= d[k] {
          assert s[k] <= s[1..][k];
        }
      } else {
        forall i | 0 <= i < |d| ensures s[0] < d[i] {
          assert d[i] in s[1..];
          assert s[0] < s[1] <= d[0] <= d[i];
        }
        forall k | 0 <= k < |Dedup(s)| ensures s[k] <= Dedup(s)[k] {
          if k > 0 { assert s[k] == s[1..][k - 1] <= d[k - 1]; }
        }
      }
    }
  }

  /** ControllerPorts is the one strictly ascending list of the ports that occur. */
  lemma ControllerPortsUnique(ports: seq<int>, d: seq<int>)
    requires StrictlyAscending(d) && forall x :: x in d <==> x in ports
    ensures d == ControllerPorts(ports)
  {
    var e := ControllerPorts(ports);
    SortIntsSorts(ports);
    DedupAscends(SortInts(ports));
    SameMembers(ports, SortInts(ports));
    StrictIsUnique(d, e);
  }

  lemma {:induction false} StrictIsUnique(s: seq<int>, t: seq<int>)
    requires StrictlyAscending(s) && StrictlyAscending(t) && forall x :: x in s <==> x in t
    ensures s == t
    decreases |s|
  {
    assert (s != [] ==> s[0] in s) && (t != [] ==> t[0] in t);
    if s == [] || t == [] {
    } else {
      assert s == [s[0]] + s[1..] && t == [t[0]] + t[1..];
      assert s[0] == t[0];
      forall x ensures x in s[1..] <==> x in t[1..] {
        assert x in s[1..] <==> x in s && x != s[0];
        assert x in t[1..] <==> x in t && x != t[0];
      }
      StrictIsUnique(s[1..], t[1..]);
    }
  }

  lemma SameMembers(s: seq<int>, t: seq<int>)
    requires multiset(s) == multiset(t)
    ensures forall x :: x in s <==> x in t
  {
    forall x ensures x in s <==> x in t {
      assert x in s <==> x in multiset(s);
      assert x in t <==> x in multiset(t);
    }
  }

  /** extractContainerPorts: a set of ports, then a list in any order, then sorted. */
  method ExtractContainerPorts(containers: seq<seq<int>>, order: seq<int>) returns (ports: seq<int>)
    requires StrictMembers(order, Flatten(containers))
    ensures ports == ControllerPorts(Flatten(containers))
  {
    var portsMap: set<int> := {};
    for i := 0 to |containers|
      invariant portsMap == set x | x in Flatten(containers[..i])
    {
      var container := containers[i];
      for j := 0 to |container|
        invariant portsMap == set x | x in Flatten(containers[..i]) + container[..j]
      {
        assert container[..j + 1] == container[..j] + [container[j]];
        portsMap := portsMap + {container[j]};
      }
      assert container[..|container|] == container;
      FlattenStep(containers, i);
    }
    assert containers[..|containers|] == containers;
    ports := [];
    for i := 0 to |order|
      invariant ports == order[..i]
    {
      ports := ports + [order[i]];
    }
    assert order[..|order|] == order;
    ports := SortInts(ports);
    SortIntsSorts(order);
    SameMembers(order, ports);
    DistinctSortIsStrict(order);
    ControllerPortsUnique(Flatten(containers), ports);
  }

  function Flatten(containers: seq<seq<int>>): seq<int> {
    if containers == [] then [] else Flatten(containers[..|containers| - 1]) + containers[|containers| - 1]
  }

  lemma FlattenStep(containers: seq<seq<int>>, i: nat)
    requires i < |containers|
    ensures Flatten(containers[..i + 1]) == Flatten(containers[..i]) + containers[i]
  {
    assert containers[..i + 1][..i] == containers[..i];
  }

  /** `order` lists each port of `ports` exactly once: a map's keys in iteration order. */
  ghost predicate StrictMembers(order: seq<int>, ports: seq<int>) {
    && (forall i, j :: 0 <= i < j < |order| ==> order[i] != order[j])
    && (forall x :: x in order <==> x in ports)
  }

  lemma DistinctSortIsStrict(s: seq<int>)
    requires forall i, j :: 0 <= i < j < |s| ==> s[i] != s[j]
    ensures StrictlyAscending(SortInts(s))
  {
    var t := SortInts(s);
    SortIntsSorts(s);
    forall i, j | 0 <= i < j < |t| ensures t[i] < t[j] {
      DistinctCounts(s, t[i]);
      RepeatCounts(t, i, j);
    }
  }

  lemma {:induction false} DistinctCounts(s: seq<int>, x: int)
    requires forall i, j :: 0 <= i < j < |s| ==> s[i] != s[j]
    ensures multiset(s)[x] <= 1
  {
    if s == [] {
    } else {
      assert s == [s[0]] + s[1..];
      DistinctCounts(s[1..], x);
      if s[0] == x { assert x !in s[1..]; }
    }
  }

  lemma RepeatCounts(t: seq<int>, i: nat, j: nat)
    requires i < j < |t|
    ensures t[i] == t[j] ==> multiset(t)[t[i]] >= 2
  {
    var a, b, c := t[..i], t[i + 1..j], t[j + 1..];
    assert t == a + [t[i]] + b + [t[j]] + c;
  }

  // ---- agreement ----

  /** No port smaller than `t` occurs twice. */
  predicate NoRepeatBelow(ports: seq<int>, t: int) {
    forall v :: v in ports && v < t ==> multiset(ports)[v] == 1
  }

  /** The index of `t` without repeats is an index of `t` with them. */
  predicate IndexAgrees(s: seq<int>, t: int) {
    var i := IndexOf(Dedup(s), t);
    0 <= i < |s| && (s[i] == t <==> NoRepeatBelow(s, t))
  }

  lemma {:induction false} IndexInDedup(s: seq<int>, t: int)
    requires Ascending(s) && t in s
    ensures IndexAgrees(s, t)
  {
    if t == s[0] {
      LeastIndex(s);
    } else {
      assert s == [s[0]] + s[1..];
      IndexInDedup(s[1..], t);
      if |s| > 1 && s[0] == s[1] {
        RepeatHidesIndex(s, t);
      } else {
        FreshAgrees(s, t);
      }
    }
  }

  lemma LeastIndex(s: seq<int>)
    requires Ascending(s) && s != []
    ensures IndexAgrees(s, s[0])
  {
    DedupAscends(s);
  }

  lemma RepeatHidesIndex(s: seq<int>, t: int)
    requires Ascending(s) && t in s && |s| > 1 && s[0] == s[1] && s[0] != t
    ensures IndexAgrees(s, t) && !NoRepeatBelow(s, t)
  {
    RepeatShiftsIndex(s, t);
    RepeatCounts(s, 0, 1);
  }

  lemma RepeatShiftsIndex(s: seq<int>, t: int)
    requires Ascending(s) && t in s && |s| > 1 && s[0] == s[1] && s[0] != t
    ensures var i := IndexOf(Dedup(s), t); 0 <= i < |s| && s[i] != t
  {
    DedupAscends(s);
    DedupAscends(s[1..]);
    var i := IndexOf(Dedup(s), t);
    assert i > 0 && s[1..][i - 1] <= Dedup(s[1..])[i - 1];
    assert s[i] == s[1..][i - 1];
  }

  lemma FreshAgrees(s: seq<int>, t: int)
    requires Ascending(s) && |s| > 1 && s[0] != s[1] && s[0] != t && IndexAgrees(s[1..], t)
    ensures IndexAgrees(s, t)
  {
    FreshKeepsIndex(s, t);
    FreshKeepsOnce(s, t);
  }

  lemma FreshKeepsIndex(s: seq<int>, t: int)
    requires |s| > 1 && s[0] != s[1] && s[0] != t
    requires var i := IndexOf(Dedup(s[1..]), t); 0 <= i < |s| - 1
    ensures IndexOf(Dedup(s), t) == IndexOf(Dedup(s[1..]), t) + 1
    ensures s[IndexOf(Dedup(s), t)] == s[1..][IndexOf(Dedup(s[1..]), t)]
  {
    assert Dedup(s)[1..] == Dedup(s[1..]);
  }

  /** A least element that occurs once does not change whether the rest repeats below `t`. */
  lemma FreshKeepsOnce(s: seq<int>, t: int)
    requires Ascending(s) && |s| > 1 && s[0] != s[1]
    ensures NoRepeatBelow(s, t) <==> NoRepeatBelow(s[1..], t)
  {
    forall v ensures v in s[1..] ==> v != s[0] && multiset(s)[v] == multiset(s[1..])[v] { FreshCounts(s, v); }
    FreshCounts(s, s[0]);
    forall v | v in s ensures v == s[0] || v in s[1..] { assert s == [s[0]] + s[1..]; }
  }

  lemma FreshCounts(s: seq<int>, v: int)
    requires Ascending(s) && |s| > 1 && s[0] != s[1]
    ensures v in s[1..] ==> v != s[0] && v in s && multiset(s)[v] == multiset(s[1..])[v]
    ensures v == s[0] ==> multiset(s)[v] == 1
  {
    assert s[0] !in s[1..];
    assert s == [s[0]] + s[1..];
    assert multiset(s) == multiset{s[0]} + multiset(s[1..]);
  }

  /** The tunnel the controller computes for a port leads to that port on the machine exactly when no smaller
      container port is listed twice. */
  lemma PositionsAgree(ports: seq<int>, t: int)
    requires t in ports
    ensures var i := IndexOf(ControllerPorts(ports), t);
      0 <= i < |MachinePorts(ports)| && (MachinePorts(ports)[i] == t <==> NoRepeatBelow(ports, t))
  {
    SortIntsSorts(ports);
    SameMembers(ports, SortInts(ports));
    IndexInDedup(SortInts(ports), t);
  }

  /** A port listed twice, say for two protocols, sends the next one astray. */
  lemma RepeatedPortMisroutes()
    ensures var ports := [80, 80, 443];
      var i := IndexOf(ControllerPorts(ports), 443); 0 <= i < 3 && MachinePorts(ports)[i] == 80
  {
    var ports := [80, 80, 443];
    assert ports[1..] == [80, 443] && ports[1..][1..] == [443] && [443][1..] == [];
    assert SortInts([443]) == [443];
    assert SortInts([80, 443]) == [80, 443];
    assert SortInts(ports) == ports;
    assert Dedup([443]) == [443];
    assert Dedup([80, 443]) == [80, 443];
    assert Dedup(ports) == [80, 443];
    assert IndexOf([443], 443) == 0;
    assert [80, 443][1..] == [443];
    assert IndexOf([80, 443], 443) == 1;
  }

  // ---- peers and tunnels ----

  datatype Peer = Peer(address: string, gatewayPortOffset: int)

  const SUBNET := "10.254.254."

  function PeerAddress(slot: int): string {
    SUBNET + Itoa(11 + slot)
  }

  function PeerOffset(slot: int): int {
    10000 + slot * 100
  }

  function PeerOf(slot: int): Peer {
    Peer(PeerAddress(slot) + "/32", PeerOffset(slot))
  }

  /** The peers of the first n slots. */
  function Peers(n: nat): (peers: seq<Peer>)
    ensures |peers| == n
  {
    if n == 0 then [] else Peers(n - 1) + [PeerOf(n - 1)]
  }

  /** Slot 0 has the address 10.254.254.11 and the ports from 10000 on. */
  lemma {:induction false} PeersBySlot(n: nat, slot: nat)
    requires slot < n
    ensures Peers(n)[slot] == Peer(PeerAddress(slot) + "/32", PeerOffset(slot))
    ensures Peers(n)[slot] == Peer("10.254.254." + Itoa(11 + slot) + "/32", 10000 + slot * 100)
  {
    if slot == n - 1 {
    } else {
      PeersBySlot(n - 1, slot);
    }
  }

  /** The peers the gateway is initialised with, one per slot. */
  method GeneratePeers(peerCount: nat) returns (peers: seq<Peer>)
    ensures peers == Peers(peerCount)
  {
    var offset, baseIP := 10000, 11;
    peers := [];
    for i := 0 to peerCount
      invariant peers == Peers(i)
    {
      peers := peers + [Peer("10.254.254." + Itoa(baseIP + i) + "/32", offset + i * 100)];
    }
  }

  lemma PeerAddressesDistinct(i: int, j: int)
    ensures PeerAddress(i) == PeerAddress(j) <==> i == j
  {
    assert Itoa(11 + i) == PeerAddress(i)[|SUBNET|..];
    assert Itoa(11 + j) == PeerAddress(j)[|SUBNET|..];
    if PeerAddress(i) == PeerAddress(j) { ItoaInjective(11 + i, 11 + j); }
  }

  /** Where the machine's tunnel listening on `listen` leads: the agent at the offset itself, then one port each. */
  function TunnelTarget(offset: int, ports: seq<int>, listen: int): Option<int> {
    var i := listen - offset - 1;
    if listen == offset then Some(8080)
    else if 0 <= i < |MachinePorts(ports)| then Some(MachinePorts(ports)[i])
    else None
  }

  /** With at most 99 container ports the machine of a slot has its tunnels to itself: the first of its hundred leads to
      the agent's port, those after it to the container ports in ascending order, and no other slot has any of them. */
  lemma TunnelsApart(slot: int, other: int, ports: seq<int>, ports': seq<int>, listen: int)
    requires |ports| <= 99 && |ports'| <= 99
    ensures TunnelTarget(PeerOffset(slot), ports, 10000 + slot * 100) == Some(8080)
    ensures TunnelTarget(PeerOffset(slot), ports, listen).Some?
      <==> 10000 + slot * 100 <= listen <= 10000 + slot * 100 + |ports|
    ensures slot != other ==>
      TunnelTarget(PeerOffset(slot), ports, listen).None? || TunnelTarget(PeerOffset(other), ports', listen).None?
  {
    SortIntsSorts(ports);
    SortIntsSorts(ports');
    assert |MachinePorts(ports)| == |multiset(MachinePorts(ports))| == |ports|;
    assert |MachinePorts(ports')| == |multiset(MachinePorts(ports'))| == |ports'|;
  }
}
