/** The gateway's port allocator: two maps that mirror each other, updated in place, and the value
    they stand for. */
module PortAlloc {
  import opened Wrappers

  /** What the allocator holds: `owner` maps a port to its owner key, `ports` an owner key to its ports in order. */
  datatype Ledger = Ledger(lo: int, hi: int, owner: map<int, string>, ports: map<string, seq<int>>)

  predicate Distinct(s: seq<int>) {
    forall i, j :: 0 <= i < j < |s| ==> s[i] != s[j]
  }

  /** The two maps are each other's inverse, lists have no duplicates and are never empty, ports are in range. */
  predicate Consistent(l: Ledger) {
    && (forall p :: p in l.owner ==> l.lo <= p <= l.hi && l.owner[p] in l.ports && p in l.ports[l.owner[p]])
    && (forall k :: k in l.ports ==> l.ports[k] != [] && Distinct(l.ports[k]))
    && (forall k, p :: k in l.ports && p in l.ports[k] ==> p in l.owner && l.owner[p] == k)
  }

  function Empty(lo: int, hi: int): Ledger {
    Ledger(lo, hi, map[], map[])
  }

  function PortsOf(l: Ledger, key: string): seq<int> {
    if key in l.ports then l.ports[key] else []
  }

  function FreePorts(l: Ledger): set<int> {
    set p | l.lo <= p <= l.hi && p !in l.owner
  }

  function FirstFree(l: Ledger, from: int): Option<int>
    decreases l.hi - from
  {
    if from > l.hi then None
    else if from !in l.owner then Some(from)
    else FirstFree(l, from + 1)
  }

  /** FirstFree is the least free port, and there is none exactly when the range is full. */
  lemma {:induction false} FirstFreeIsLeast(l: Ledger, from: int)
    requires l.lo <= from
    requires forall p :: l.lo <= p < from ==> p in l.owner
    ensures FirstFree(l, from) == None <==> FreePorts(l) == {}
    ensures FirstFree(l, from).Some? ==>
      var p := FirstFree(l, from).value; p in FreePorts(l) && forall q :: q in FreePorts(l) ==> p <= q
    decreases l.hi - from
  {
    if from <= l.hi && from in l.owner {
      FirstFreeIsLeast(l, from + 1);
    } else if from <= l.hi {
      assert from in FreePorts(l);
    }
  }

  /** The ports `n` allocations in a row would give; None when the range runs out first. */
  function ClaimEach(l: Ledger, key: string, n: nat): (ps: Option<seq<int>>)
    ensures ps.Some? ==> |ps.value| == n
    decreases n
  {
    if n == 0 then Some([])
    else
      match FirstFree(l, l.lo)
      case None => None
      case Some(p) =>
        var rest := ClaimEach(Claimed(l, key, [p]), key, n - 1);
        if rest.Some? then Some([p] + rest.value) else None
  }

  function Without(s: seq<int>, x: int): (r: seq<int>) {
    if s == [] then []
    else if s[0] == x then Without(s[1..], x)
    else [s[0]] + Without(s[1..], x)
  }

  lemma {:induction false} WithoutMembers(s: seq<int>, x: int)
    ensures forall y :: y in Without(s, x) <==> y in s && y != x
    ensures Distinct(s) ==> Distinct(Without(s, x))
    ensures x !in s ==> Without(s, x) == s
  {
    if s == [] {
    } else {
      var rest := Without(s[1..], x);
      WithoutMembers(s[1..], x);
      assert s == [s[0]] + s[1..];
      if Distinct(s) {
        assert Distinct(s[1..]);
        assert s[0] !in s[1..];
        DistinctAppend([s[0]], rest);
      }
    }
  }

  lemma DistinctAppend(s: seq<int>, t: seq<int>)
    requires Distinct(s) && Distinct(t)
    requires forall x :: x in s ==> x !in t
    ensures Distinct(s + t)
  {
    forall i, j | 0 <= i < j < |s + t| ensures (s + t)[i] != (s + t)[j] {
      if i < |s| <= j {
        assert s[i] in s && t[j - |s|] in t;
      }
    }
  }

  lemma {:induction false} WithoutAppend(s: seq<int>, t: seq<int>, x: int)
    ensures Without(s + t, x) == Without(s, x) + Without(t, x)
  {
    if s == [] {
      assert s + t == t;
    } else {
      assert (s + t)[1..] == s[1..] + t;
      WithoutAppend(s[1..], t, x);
    }
  }

  /** Ports `ps` given to `key`, appended to its list in order. */
  function Claimed(l: Ledger, key: string, ps: seq<int>): Ledger {
    if ps == [] then l
    else l.(owner := l.owner + (map p | p in ps :: key), ports := l.ports[key := PortsOf(l, key) + ps])
  }

  /** Release as a value: nothing happens unless `key` owns the port. */
  function Released(l: Ledger, key: string, port: int): Ledger {
    if port in l.owner && l.owner[port] == key then
      var kept := Without(PortsOf(l, key), port);
      l.(owner := l.owner - {port},
         ports := if key !in l.ports then l.ports
                  else if kept != [] then l.ports[key := kept] else l.ports - {key})
    else l
  }

  function ReleasedMany(l: Ledger, key: string, ps: seq<int>): Ledger
    decreases |ps|
  {
    if ps == [] then l else ReleasedMany(Released(l, key, ps[0]), key, ps[1..])
  }

  function ReleasedAll(l: Ledger, key: string): Ledger {
    if key in l.ports then
      l.(owner := l.owner - (set p | p in l.ports[key]), ports := l.ports - {key})
    else l
  }

  // ---- the class ----

  class Allocator {
    const rangeStart: int
    const rangeEnd: int
    var allocatedTo: map<int, string>
    var ownerPorts: map<string, seq<int>>

    function Value(): Ledger
      reads this
    {
      Ledger(rangeStart, rangeEnd, allocatedTo, ownerPorts)
    }

    constructor (rangeStart: int, rangeEnd: int)
      ensures Value() == Empty(rangeStart, rangeEnd)
    {
      this.rangeStart := rangeStart;
      this.rangeEnd := rangeEnd;
      allocatedTo := map[];
      ownerPorts := map[];
    }

    /** First fit: the lowest free port goes to the owner; nothing changes when the range is full. */
    method Allocate(ownerKey: string) returns (r: Result<int, ()>)
      modifies this
      ensures var free := FirstFree(old(Value()), rangeStart);
        && (r.Ok? <==> free.Some?)
        && (r.Ok? ==> r.value == free.value && Value() == Claimed(old(Value()), ownerKey, [r.value]))
        && (r.Err? ==> Value() == old(Value()))
    {
      var port := rangeStart;
      while port <= rangeEnd
        invariant FirstFree(Value(), port) == FirstFree(Value(), rangeStart)
        invariant Value() == old(Value())
        decreases rangeEnd - port
      {
        if port !in allocatedTo {
          allocatedTo := allocatedTo[port := ownerKey];
          ownerPorts := ownerPorts[ownerKey := (if ownerKey in ownerPorts then ownerPorts[ownerKey] else []) + [port]];
          assert allocatedTo == old(allocatedTo) + (map p | p in [port] :: ownerKey);
          return Ok(port);
        }
        port := port + 1;
      }
      return Err(());
    }

    method Release(ownerKey: string, port: int)
      modifies this
      ensures Value() == Released(old(Value()), ownerKey, port)
    {
      if port in allocatedTo && allocatedTo[port] == ownerKey {
        allocatedTo := allocatedTo - {port};
        if ownerKey in ownerPorts {
          var ports := ownerPorts[ownerKey];
          var newPorts := [];
          for i := 0 to |ports|
            invariant newPorts + Without(ports[i..], port) == Without(ports, port)
          {
            assert ports[i..][1..] == ports[i + 1..];
            if ports[i] != port {
              newPorts := newPorts + [ports[i]];
            }
          }
          assert newPorts == Without(ports, port);
          if |newPorts| > 0 {
            ownerPorts := ownerPorts[ownerKey := newPorts];
          } else {
            ownerPorts := ownerPorts - {ownerKey};
          }
        }
      }
    }

    method ReleaseAll(ownerKey: string)
      modifies this
      ensures Value() == ReleasedAll(old(Value()), ownerKey)
    {
      if ownerKey in ownerPorts {
        var ports := ownerPorts[ownerKey];
        for i := 0 to |ports|
          invariant allocatedTo == old(allocatedTo) - (set p | p in ports[..i])
          invariant ownerPorts == old(ownerPorts)
        {
          allocatedTo := allocatedTo - {ports[i]};
          assert ports[..i + 1] == ports[..i] + [ports[i]];
        }
        assert ports[..|ports|] == ports;
        ownerPorts := ownerPorts - {ownerKey};
      }
    }

    method GetAllocatedPorts(ownerKey: string) returns (result: seq<int>)
      ensures result == PortsOf(Value(), ownerKey)
    {
      if ownerKey in ownerPorts { return ownerPorts[ownerKey]; }
      return [];
    }
  }

  // ---- what the value keeps ----

  lemma ClaimedConsistent(l: Ledger, key: string, ps: seq<int>)
    requires Consistent(l) && Distinct(ps)
    requires forall p :: p in ps ==> p in FreePorts(l)
    ensures Consistent(Claimed(l, key, ps))
    ensures FreePorts(Claimed(l, key, ps)) == FreePorts(l) - (set p | p in ps)
  {
    if ps != [] {
      ClaimedOwnersListed(l, key, ps);
      ClaimedListsDistinct(l, key, ps);
      ClaimedListsOwned(l, key, ps);
    }
  }

  lemma ClaimedOwnersListed(l: Ledger, key: string, ps: seq<int>)
    requires Consistent(l) && ps != [] && forall p :: p in ps ==> p in FreePorts(l)
    ensures var l' := Claimed(l, key, ps);
      forall p :: p in l'.owner ==> l.lo <= p <= l.hi && l'.owner[p] in l'.ports && p in l'.ports[l'.owner[p]]
  {
    var l' := Claimed(l, key, ps);
    forall p | p in l'.owner ensures l.lo <= p <= l.hi && l'.owner[p] in l'.ports && p in l'.ports[l'.owner[p]] {
      if p in ps { assert p in FreePorts(l); } else { assert p in l.owner; }
    }
  }

  lemma ClaimedListsDistinct(l: Ledger, key: string, ps: seq<int>)
    requires Consistent(l) && Distinct(ps) && ps != [] && forall p :: p in ps ==> p in FreePorts(l)
    ensures var l' := Claimed(l, key, ps); forall k :: k in l'.ports ==> l'.ports[k] != [] && Distinct(l'.ports[k])
  {
    forall p | p in PortsOf(l, key) ensures p !in ps {}
    DistinctAppend(PortsOf(l, key), ps);
  }

  lemma ClaimedListsOwned(l: Ledger, key: string, ps: seq<int>)
    requires Consistent(l) && ps != [] && forall p :: p in ps ==> p in FreePorts(l)
    ensures var l' := Claimed(l, key, ps);
        forall k, p :: k in l'.ports && p in l'.ports[k] ==> p in l'.owner && l'.owner[p] == k
  {
    var l' := Claimed(l, key, ps);
    forall k, p | k in l'.ports && p in l'.ports[k] ensures p in l'.owner && l'.owner[p] == k {
      if k == key && p in ps {
      } else {
        assert k in l.ports && p in l.ports[k];
        assert p in l.owner;
      }
    }
  }

  /** The owner's list after giving the port up, and the other lists. */
  lemma ReleasedLists(l: Ledger, key: string, port: int)
    requires Consistent(l)
    ensures var l' := Released(l, key, port);
      && PortsOf(l', key) == Without(PortsOf(l, key), port)
      && (forall k :: k != key ==> (k in l'.ports <==> k in l.ports) && (k in l.ports ==> l'.ports[k] == l.ports[k]))
      && (key in l'.ports ==> l'.ports[key] != [])
  {
    WithoutMembers(PortsOf(l, key), port);
  }

  lemma ReleasedOwners(l: Ledger, key: string, port: int)
    ensures Released(l, key, port).owner
         == if port in l.owner && l.owner[port] == key then l.owner - {port} else l.owner
  {
  }

  lemma ReleasedListsDistinct(l: Ledger, l': Ledger, key: string, port: int)
    requires Consistent(l) && l' == Released(l, key, port)
    ensures forall k :: k in l'.ports ==> l'.ports[k] != [] && Distinct(l'.ports[k])
  {
    ReleasedLists(l, key, port);
    WithoutMembers(PortsOf(l, key), port);
    forall k | k in l'.ports ensures l'.ports[k] != [] && Distinct(l'.ports[k]) {
      if k == key { assert l'.ports[k] == PortsOf(l', key); }
    }
  }

  lemma ReleasedListsOwned(l: Ledger, l': Ledger, key: string, port: int, k: string, p: int)
    requires Consistent(l) && l' == Released(l, key, port) && k in l'.ports && p in l'.ports[k]
    ensures p in l'.owner && l'.owner[p] == k
  {
    ReleasedLists(l, key, port);
    ReleasedOwners(l, key, port);
    if k == key {
      WithoutMembers(PortsOf(l, key), port);
      assert p in PortsOf(l', key);
      assert p in PortsOf(l, key) && p != port;
    } else {
      assert k in l.ports && p in l.ports[k];
    }
  }

  lemma ReleasedOwnersListed(l: Ledger, l': Ledger, key: string, port: int, p: int)
    requires Consistent(l) && l' == Released(l, key, port) && p in l'.owner
    ensures l.lo <= p <= l.hi && l'.owner[p] in l'.ports && p in l'.ports[l'.owner[p]]
  {
    ReleasedLists(l, key, port);
    ReleasedOwners(l, key, port);
    WithoutMembers(PortsOf(l, key), port);
    var k := l'.owner[p];
    assert p in l.owner && l.owner[p] == k && p in l.ports[k];
    if k == key {
      assert p in Without(PortsOf(l, key), port);
      assert p in PortsOf(l', key);
    }
  }

  /** Release keeps the maps in step, frees the port only for its owner, and touches no other entry. */
  lemma ReleasedConsistent(l: Ledger, key: string, port: int)
    requires Consistent(l)
    ensures var l' := Released(l, key, port);
      && Consistent(l')
      && l'.owner == (if port in l.owner && l.owner[port] == key then l.owner - {port} else l.owner)
      && PortsOf(l', key) == Without(PortsOf(l, key), port)
      && (forall k :: k != key ==> PortsOf(l', k) == PortsOf(l, k))
  {
    var l' := Released(l, key, port);
    ReleasedLists(l, key, port);
    ReleasedOwners(l, key, port);
    ReleasedListsDistinct(l, l', key, port);
    forall k, p | k in l'.ports && p in l'.ports[k] ensures p in l'.owner && l'.owner[p] == k {
      ReleasedListsOwned(l, l', key, port, k, p);
    }
    forall p | p in l'.owner ensures l.lo <= p <= l.hi && l'.owner[p] in l'.ports && p in l'.ports[l'.owner[p]] {
      ReleasedOwnersListed(l, l', key, port, p);
    }
  }

  lemma {:induction false} ReleasedManyConsistent(l: Ledger, key: string, ps: seq<int>)
    requires Consistent(l)
    ensures var l' := ReleasedMany(l, key, ps);
      && Consistent(l') && l'.lo == l.lo && l'.hi == l.hi
      && l'.owner == (map p | p in l.owner && !(l.owner[p] == key && p in ps) :: l.owner[p])
      && (forall k :: k != key ==> PortsOf(l', k) == PortsOf(l, k))
    decreases |ps|
  {
    if ps == [] {
    } else {
      ReleasedConsistent(l, key, ps[0]);
      ReleasedManyConsistent(Released(l, key, ps[0]), key, ps[1..]);
      assert forall p :: p in ps <==> p == ps[0] || p in ps[1..];
    }
  }

  lemma ReleaseUndoesFirstClaim(l: Ledger, key: string, ps: seq<int>)
    requires Distinct(ps) && ps != []
    requires forall p :: p in ps ==> p !in l.owner && p !in PortsOf(l, key)
    requires key in l.ports ==> l.ports[key] != []
    ensures Released(Claimed(l, key, ps), key, ps[0]) == Claimed(l, key, ps[1..])
  {
    var claimed := Claimed(l, key, ps);
    var rest := ps[1..];
    assert claimed.owner[ps[0]] == key && key in claimed.ports;
    OwnersAfterFirst(l.owner, key, ps);
    HeldAfterFirst(PortsOf(l, key), ps);
    if rest != [] {
      assert claimed.ports[key := PortsOf(l, key) + rest] == l.ports[key := PortsOf(l, key) + rest];
    } else if key !in l.ports {
      assert claimed.ports - {key} == l.ports;
    } else {
      assert claimed.ports[key := l.ports[key]] == l.ports;
    }
  }

  lemma HeldAfterFirst(held: seq<int>, ps: seq<int>)
    requires Distinct(ps) && ps != [] && ps[0] !in held
    ensures Without(held + ps, ps[0]) == held + ps[1..]
    ensures ps[1..] == [] ==> held + ps[1..] == held
  {
    assert ps == [ps[0]] + ps[1..];
    WithoutAppend(held, ps, ps[0]);
    WithoutMembers(held, ps[0]);
    WithoutMembers(ps[1..], ps[0]);
  }

  lemma OwnersAfterFirst(owner: map<int, string>, key: string, ps: seq<int>)
    requires ps != [] && ps[0] !in ps[1..] && ps[0] !in owner
    ensures owner + (map p | p in ps :: key) - {ps[0]} == owner + (map p | p in ps[1..] :: key)
  {
    assert forall p :: p in ps <==> p == ps[0] || p in ps[1..];
  }

  /** Rolling back a partial claim in the order it was made restores the ledger exactly, list order included. */
  lemma RollbackRestores(l: Ledger, key: string, ps: seq<int>)
    requires Consistent(l) && Distinct(ps)
    requires forall p :: p in ps ==> p in FreePorts(l)
    ensures ReleasedMany(Claimed(l, key, ps), key, ps) == l
  {
    ReleasingUndoesClaiming(l, key, ps);
  }

  lemma {:induction false} ReleasingUndoesClaiming(l: Ledger, key: string, ps: seq<int>)
    requires Distinct(ps)
    requires forall p :: p in ps ==> p !in l.owner && p !in PortsOf(l, key)
    requires key in l.ports ==> l.ports[key] != []
    ensures ReleasedMany(Claimed(l, key, ps), key, ps) == l
    decreases |ps|
  {
    if ps == [] {
    } else {
      ReleaseUndoesFirstClaim(l, key, ps);
      ReleasingUndoesClaiming(l, key, ps[1..]);
    }
  }

  lemma ClaimedStep(l: Ledger, key: string, ps: seq<int>, p: int)
    ensures Claimed(Claimed(l, key, ps), key, [p]) == Claimed(l, key, ps + [p])
  {
    if ps == [] {
      assert ps + [p] == [p];
    } else {
      ListsAppend(l.ports, key, PortsOf(l, key), ps, p);
      OwnersAppend(l.owner, key, ps, p);
    }
  }

  lemma ListsAppend(ports: map<string, seq<int>>, key: string, held: seq<int>, ps: seq<int>, p: int)
    ensures ports[key := held + ps][key := held + ps + [p]] == ports[key := held + (ps + [p])]
  {
    assert held + ps + [p] == held + (ps + [p]);
  }

  lemma OwnersAppend(owner: map<int, string>, key: string, ps: seq<int>, p: int)
    ensures owner + (map q | q in ps :: key) + (map q | q in [p] :: key) == owner + (map q | q in ps + [p] :: key)
  {
  }

  /** Releasing everything an owner holds is releasing its ports one by one. */
  lemma ReleaseAllIsReleasingEach(l: Ledger, key: string)
    requires Consistent(l)
    ensures ReleasedAll(l, key) == ReleasedMany(l, key, PortsOf(l, key))
  {
    var l' := ReleasedMany(l, key, PortsOf(l, key));
    ReleasedManyConsistent(l, key, PortsOf(l, key));
    assert l'.owner == ReleasedAll(l, key).owner;
    if key in l'.ports { ListedOwnerOwns(l', key); }
    assert l'.ports == l.ports - {key} by { SamePorts(l, l', key); }
  }

  lemma ListedOwnerOwns(l: Ledger, key: string)
    requires Consistent(l) && key in l.ports
    ensures exists p :: p in l.owner && l.owner[p] == key
  {
    var p := l.ports[key][0];
    assert p in l.ports[key];
    assert p in l.owner && l.owner[p] == key;
  }

  lemma SamePorts(l: Ledger, l': Ledger, key: string)
    requires key !in l'.ports
    requires forall k :: k in l.ports ==> l.ports[k] != []
    requires forall k :: k in l'.ports ==> l'.ports[k] != []
    requires forall k :: k != key ==> PortsOf(l', k) == PortsOf(l, k)
    ensures l'.ports == l.ports - {key}
  {
    forall k | k != key ensures k in l'.ports <==> k in l.ports {
      assert PortsOf(l', k) == PortsOf(l, k);
    }
    forall k | k in l'.ports ensures l'.ports[k] == l.ports[k] {
      assert PortsOf(l', k) == PortsOf(l, k);
    }
  }

  function Prepend(ps: seq<int>, rest: Option<seq<int>>): Option<seq<int>> {
    if rest.Some? then Some(ps + rest.value) else None
  }

  lemma PrependTwice(ps: seq<int>, qs: seq<int>, rest: Option<seq<int>>)
    ensures Prepend(ps, Prepend(qs, rest)) == Prepend(ps + qs, rest)
  {
    if rest.Some? { assert ps + (qs + rest.value) == ps + qs + rest.value; }
  }

  /** Claiming `n` ports, of which `ps` are claimed already. */
  predicate ClaimsRest(l1: Ledger, key: string, n: nat, ps: seq<int>, l: Ledger) {
    |ps| <= n && ClaimEach(l1, key, n) == Prepend(ps, ClaimEach(l, key, n - |ps|))
  }

  lemma ClaimsRestStep(l1: Ledger, key: string, n: nat, ps: seq<int>, l: Ledger)
    requires ClaimsRest(l1, key, n, ps, l) && |ps| < n
    ensures var p := FirstFree(l, l.lo);
      && (p.None? ==> ClaimEach(l1, key, n).None?)
      && (p.Some? ==> ClaimsRest(l1, key, n, ps + [p.value], Claimed(l, key, [p.value])))
  {
    var p := FirstFree(l, l.lo);
    if p.Some? {
      var rest := ClaimEach(Claimed(l, key, [p.value]), key, n - |ps| - 1);
      assert ClaimEach(l, key, n - |ps|) == Prepend([p.value], rest);
      PrependTwice(ps, [p.value], rest);
    }
  }

  /** `l` is `l1` with the free ports `ps` claimed, on the way to `n` of them. */
  ghost predicate ClaimUnderWay(l1: Ledger, key: string, n: nat, ps: seq<int>, l: Ledger) {
    && Consistent(l1) && Consistent(l) && Distinct(ps) && (forall p :: p in ps ==> p in FreePorts(l1))
    && l == Claimed(l1, key, ps) && ClaimsRest(l1, key, n, ps, l)
  }

  lemma ClaimStarts(l: Ledger, key: string, n: nat)
    requires Consistent(l)
    ensures ClaimUnderWay(l, key, n, [], l)
  {
    var all := ClaimEach(l, key, n);
    assert all.Some? ==> [] + all.value == all.value;
  }

  /** The next allocation either goes on, or fails and then releasing what was taken restores the ledger. */
  lemma ClaimContinues(l1: Ledger, key: string, n: nat, ps: seq<int>, l: Ledger)
    requires ClaimUnderWay(l1, key, n, ps, l) && |ps| < n
    ensures var p := FirstFree(l, l.lo);
      if p.None? then ClaimEach(l1, key, n).None? && ReleasedMany(l, key, ps) == l1
      else ClaimUnderWay(l1, key, n, ps + [p.value], Claimed(l, key, [p.value]))
  {
    FirstFreeIsLeast(l, l.lo);
    ClaimsRestStep(l1, key, n, ps, l);
    var p := FirstFree(l, l.lo);
    if p.None? {
      RollbackRestores(l1, key, ps);
    } else {
      ClaimedConsistent(l1, key, ps);
      FirstClaim(l, key, p.value);
      ClaimedStep(l1, key, ps, p.value);
    }
  }

  lemma ClaimEnds(l1: Ledger, key: string, n: nat, ps: seq<int>, l: Ledger)
    requires ClaimUnderWay(l1, key, n, ps, l) && |ps| == n
    ensures ClaimEach(l1, key, n) == Some(ps) && Consistent(l)
  {
    assert ps + [] == ps;
  }

  /** Allocating n ports succeeds exactly when n are free, and then takes the n lowest, in order. */
  lemma {:induction false} ClaimEachTakesLowest(l: Ledger, key: string, n: nat)
    requires Consistent(l)
    ensures ClaimsLowest(l, key, n)
    decreases n
  {
    if n == 0 {
    } else {
      FirstFreeIsLeast(l, l.lo);
      if FreePorts(l) != {} {
        var p, l' := LowestClaim(l, key);
        ClaimEachTakesLowest(l', key, n - 1);
        ClaimsLowestStep(l, key, n, p, l');
      }
    }
  }

  predicate ClaimsLowest(l: Ledger, key: string, n: nat) {
    var ps := ClaimEach(l, key, n);
    (ps.Some? <==> n <= |FreePorts(l)|) && (ps.Some? ==> LowestOf(FreePorts(l), ps.value, n))
  }

  /** `l'` is `l` with its lowest free port claimed. */
  predicate LowestClaimed(l: Ledger, key: string, p: int, l': Ledger) {
    && FirstFree(l, l.lo) == Some(p) && p in FreePorts(l) && (forall q :: q in FreePorts(l) ==> p <= q)
    && l' == Claimed(l, key, [p]) && FreePorts(l') == FreePorts(l) - {p}
  }

  lemma ClaimsLowestStep(l: Ledger, key: string, n: nat, p: int, l': Ledger)
    requires n > 0 && LowestClaimed(l, key, p, l') && ClaimsLowest(l', key, n - 1)
    ensures ClaimsLowest(l, key, n)
  {
    var free := FreePorts(l);
    assert |free - {p}| == |free| - 1;
    if n <= |free| {
      LowestCons(free, p, ClaimEach(l', key, n - 1).value, n - 1);
    }
  }

  lemma LowestClaim(l: Ledger, key: string) returns (p: int, l': Ledger)
    requires Consistent(l) && FreePorts(l) != {}
    ensures LowestClaimed(l, key, p, l') && Consistent(l')
  {
    FirstFreeIsLeast(l, l.lo);
    p := FirstFree(l, l.lo).value;
    l' := Claimed(l, key, [p]);
    FirstClaim(l, key, p);
  }

  lemma FirstClaim(l: Ledger, key: string, p: int)
    requires Consistent(l) && p in FreePorts(l)
    ensures Consistent(Claimed(l, key, [p])) && FreePorts(Claimed(l, key, [p])) == FreePorts(l) - {p}
  {
    ClaimedConsistent(l, key, [p]);
  }

  /** The n least members of `free`, ascending. */
  predicate LowestOf(free: set<int>, ps: seq<int>, n: nat) {
    && |ps| == n
    && (forall i, j :: 0 <= i < j < |ps| ==> ps[i] < ps[j])
    && (forall p :: p in ps ==> p in free)
    && (forall p, q :: p in ps && q in free && q < p ==> q in ps)
  }

  lemma LowestCons(free: set<int>, p: int, rest: seq<int>, n: nat)
    requires p in free && (forall q :: q in free ==> p <= q)
    requires LowestOf(free - {p}, rest, n)
    ensures LowestOf(free, [p] + rest, n + 1)
  {
    assert forall i :: 0 <= i < |rest| ==> rest[i] in rest;
    forall q, r | q in [p] + rest && r in free && r < q ensures r in [p] + rest {
      assert q in rest;
      assert r != p ==> r in free - {p};
    }
  }

  // ---- claiming more or fewer ----

  /** However many ports are claimed, the j-th is the same. */
  lemma {:induction false} SameLowest(l: Ledger, key: string, n: nat, m: nat, j: nat)
    requires j < n && j < m && ClaimEach(l, key, n).Some? && ClaimEach(l, key, m).Some?
    ensures ClaimEach(l, key, n).value[j] == ClaimEach(l, key, m).value[j]
    decreases j
  {
    if j == 0 {
    } else {
      SameLowest(Claimed(l, key, [FirstFree(l, l.lo).value]), key, n - 1, m - 1, j - 1);
    }
  }

  lemma PrefixNext(ps: seq<int>, m: nat, p: int, rest: Option<seq<int>>)
    requires m < |ps| && Some(ps) == Prepend(ps[..m] + [p], rest)
    ensures ps[m] == p && ps[..m + 1] == ps[..m] + [p]
  {
    assert ps == ps[..m] + [p] + rest.value;
  }

  lemma NextClaimed(l: Ledger, key: string, n: nat, ps: seq<int>, m: nat, l': Ledger)
    requires ClaimEach(l, key, n) == Some(ps) && m < n && ClaimsRest(l, key, n, ps[..m], l')
    ensures FirstFree(l', l'.lo) == Some(ps[m])
    ensures ClaimsRest(l, key, n, ps[..m + 1], Claimed(l', key, [ps[m]]))
  {
    ClaimsRestStep(l, key, n, ps[..m], l');
    var p := FirstFree(l', l'.lo).value;
    PrefixNext(ps, m, p, ClaimEach(Claimed(l', key, [p]), key, n - m - 1));
  }

  lemma {:induction false} ClaimedSoFar(l: Ledger, key: string, n: nat, ps: seq<int>, m: nat)
    requires ClaimEach(l, key, n) == Some(ps) && m <= n
    ensures ClaimsRest(l, key, n, ps[..m], Claimed(l, key, ps[..m]))
    decreases m
  {
    if m == 0 {
      NothingClaimed(l, key, n, ps);
    } else {
      var before := ps[..m - 1];
      ClaimedSoFar(l, key, n, ps, m - 1);
      NextClaimed(l, key, n, ps, m - 1, Claimed(l, key, before));
      ClaimedStep(l, key, before, ps[m - 1]);
      assert ps[..m] == before + [ps[m - 1]];
    }
  }

  lemma NothingClaimed(l: Ledger, key: string, n: nat, ps: seq<int>)
    requires ClaimEach(l, key, n) == Some(ps)
    ensures ClaimsRest(l, key, n, ps[..0], Claimed(l, key, ps[..0]))
  {
    assert ps[..0] == [] && [] + ps == ps;
  }

  /** When m are claimed, the lowest free one is what the next claim would have got. */
  lemma NextLowest(l: Ledger, key: string, n: nat, m: nat)
    requires m < n && ClaimEach(l, key, n).Some? && ClaimEach(l, key, m).Some?
    ensures FirstFree(Claimed(l, key, ClaimEach(l, key, m).value), l.lo) == Some(ClaimEach(l, key, n).value[m])
  {
    var ps, qs := ClaimEach(l, key, n).value, ClaimEach(l, key, m).value;
    forall j | 0 <= j < m ensures qs[j] == ps[j] { SameLowest(l, key, n, m, j); }
    assert ps[..m] == qs;
    ClaimedSoFar(l, key, n, ps, m);
    NextClaimed(l, key, n, ps, m, Claimed(l, key, qs));
  }
}
