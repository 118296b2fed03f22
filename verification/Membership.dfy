/** Which devices a service's host sources belong to, by the addresses observed on
    them. Identifiers are ordered; EMPTY is the empty one. */
module Membership {
  import opened Basics
  import opened Prefixes
  import opened Sorting
  import opened ResourceExclusions

  type Id = int
  const EMPTY: Id := 0
  const MAX_IDS: nat := 128

  // A text read as an address: its zone is kept apart.
  datatype Seen = Unreadable | Seen(address: Address, zone: bool)

  datatype Device = Device(id: Id, ifIndex: int, interface_: Id, segment: Id, mac: Id, addresses: seq<Seen>)

  datatype Clients = Clients(selected: bool, base: bool, deviceIds: seq<Id>, excludedIds: seq<Id>, segmentIds: seq<Id>)

  // `sources` are the service's source prefixes; None is unparsable.
  datatype Service = Service(id: Id, allLan: bool, sources: seq<Option<Prefix>>)

  datatype Answer = Members(ids: seq<Id>) | Ineligible | ScopeChanged

  /** A global unicast address without a zone, not an IPv4 address written as IPv6. */
  predicate Usable(s: Seen) {
    s.Seen? && !s.zone && Plain(s.address) && (s.address.v6 || s.address.value != 0xffff_ffff)
  }

  predicate Placed(d: Device) {
    d.id != EMPTY && d.ifIndex > 0 && d.interface_ != EMPTY && d.segment != EMPTY && |d.addresses| > 0
  }

  // ---- which device owns an address ----

  /** The addresses of all devices, one after another, with their owners. */
  function Bindings(devices: seq<Device>): seq<(Seen, Id)> {
    if |devices| == 0 then []
    else Bindings(devices[..|devices| - 1]) + Own(devices[|devices| - 1], |devices[|devices| - 1].addresses|)
  }

  function Own(d: Device, n: nat): (r: seq<(Seen, Id)>)
    requires n <= |d.addresses|
    ensures |r| == n && forall k :: 0 <= k < n ==> r[k] == (d.addresses[k], d.id)
  {
    seq(n, k requires 0 <= k < n => (d.addresses[k], d.id))
  }

  function Addresses(b: seq<(Seen, Id)>): (r: seq<Seen>)
    ensures |r| == |b| && forall k :: 0 <= k < |b| ==> r[k] == b[k].0
  {
    seq(|b|, k requires 0 <= k < |b| => b[k].0)
  }

  function Names(devices: seq<Device>): (r: seq<Id>)
    ensures |r| == |devices| && forall k :: 0 <= k < |r| ==> r[k] == devices[k].id
  {
    seq(|devices|, k requires 0 <= k < |devices| => devices[k].id)
  }

  /** Device identifiers and addresses are distinct and every address is usable. */
  ghost predicate Sound(devices: seq<Device>) {
    && (forall d :: d in devices ==> Placed(d)) && NoDup(Names(devices))
    && (forall b :: b in Bindings(devices) ==> Usable(b.0)) && NoDup(Addresses(Bindings(devices)))
  }

  ghost predicate Owns(devices: seq<Device>, a: Address, id: Id) {
    exists d :: d in devices && d.id == id && Seen(a, false) in d.addresses
  }

  lemma {:induction false} BindingsAreOwners(devices: seq<Device>, a: Address, id: Id)
    ensures (Seen(a, false), id) in Bindings(devices) <==> Owns(devices, a, id)
  {
    if |devices| > 0 {
      var n := |devices| - 1;
      var d := devices[n];
      BindingsAreOwners(devices[..n], a, id);
      assert devices == devices[..n] + [d];
      var own := Own(d, |d.addresses|);
      if d.id == id && Seen(a, false) in d.addresses {
        var k :| 0 <= k < |d.addresses| && d.addresses[k] == Seen(a, false);
        assert own[k] == (Seen(a, false), id);
      }
    }
  }

  lemma {:induction false} BindingsOfPrefix(devices: seq<Device>, i: nat)
    requires i <= |devices|
    ensures Bindings(devices[..i]) <= Bindings(devices)
    decreases |devices|
  {
    if i < |devices| {
      var n := |devices| - 1;
      BindingsOfPrefix(devices[..n], i);
      assert devices[..n][..i] == devices[..i];
    } else {
      assert devices[..i] == devices;
    }
  }

  // The part of the bindings read after k addresses of device i.
  function Read(devices: seq<Device>, i: nat, k: nat): seq<(Seen, Id)>
    requires i < |devices| && k <= |devices[i].addresses|
  {
    Bindings(devices[..i]) + Own(devices[i], k)
  }

  lemma ReadStep(devices: seq<Device>, i: nat, k: nat)
    requires i < |devices| && k < |devices[i].addresses|
    ensures Read(devices, i, k + 1) == Read(devices, i, k) + [(devices[i].addresses[k], devices[i].id)]
    ensures Read(devices, i, k + 1) <= Bindings(devices)
  {
    assert devices[..i + 1][..i] == devices[..i];
    assert Own(devices[i], k + 1) == Own(devices[i], k) + [(devices[i].addresses[k], devices[i].id)];
    BindingsOfPrefix(devices, i + 1);
    assert Own(devices[i], k + 1) <= Own(devices[i], |devices[i].addresses|);
  }

  /** The map agrees with a list of bindings in which no address is repeated. */
  ghost predicate Indexed(owner: map<Address, Id>, b: seq<(Seen, Id)>) {
    && NoDup(Addresses(b)) && (forall x :: x in b ==> Usable(x.0))
    && (forall x :: x in b ==> x.0.address in owner && owner[x.0.address] == x.1)
    && (forall a :: a in owner ==> (Seen(a, false), owner[a]) in b)
  }

  lemma IndexedStep(owner: map<Address, Id>, b: seq<(Seen, Id)>, s: Seen, id: Id)
    requires Indexed(owner, b) && Usable(s) && s.address !in owner
    ensures Indexed(owner[s.address := id], b + [(s, id)])
  {
    var c := b + [(s, id)];
    assert Addresses(c) == Addresses(b) + [s];
    forall k | 0 <= k < |b| ensures Addresses(b)[k] != s {
      assert b[k] in b;
    }
    NoDupConcat(Addresses(b), [s]);
    assert s == Seen(s.address, false);
    assert c[|b|] == (s, id);
  }

  // An address that cannot be bound makes the whole observation unsound.
  lemma UnboundMeansUnsound(devices: seq<Device>, i: nat, k: nat, owner: map<Address, Id>)
    requires i < |devices| && k < |devices[i].addresses|
    requires Indexed(owner, Read(devices, i, k))
    requires var s := devices[i].addresses[k]; Usable(s) ==> s.address in owner
    ensures !Sound(devices)
  {
    ReadStep(devices, i, k);
    var b := Read(devices, i, k);
    var s := devices[i].addresses[k];
    var all := Bindings(devices);
    assert all[|b|] == (s, devices[i].id);
    if Usable(s) {
      assert s == Seen(s.address, false);
      var p :| 0 <= p < |b| && b[p] == (Seen(s.address, false), owner[s.address]);
      assert all[p] == b[p];
      assert Addresses(all)[p] == Addresses(all)[|b|];
      NoDupByIndex(Addresses(all));
    } else {
      assert all[|b|] in all;
    }
  }

  lemma NamesStep(devices: seq<Device>, i: nat)
    requires i < |devices|
    ensures Names(devices[..i + 1]) == Names(devices[..i]) + [devices[i].id]
    ensures NoDup(Names(devices)) ==> devices[i].id !in Names(devices[..i])
    ensures NoDup(Names(devices[..i])) && devices[i].id !in Names(devices[..i]) ==> NoDup(Names(devices[..i + 1]))
  {
    assert Names(devices[..i + 1]) == Names(devices[..i]) + [devices[i].id];
    NoDupConcat(Names(devices[..i]), [devices[i].id]);
    assert Names(devices) == Names(devices[..i + 1]) + Names(devices[i + 1..]);
    NoDupConcat(Names(devices[..i + 1]), Names(devices[i + 1..]));
  }

  /** One device's addresses into the index; refused exactly at one that is unusable or
      already taken. */
  method BindDevice(devices: seq<Device>, i: nat, before: map<Address, Id>) returns (ok: bool, owner: map<Address, Id>)
    requires i < |devices| && Indexed(before, Bindings(devices[..i]))
    ensures ok ==> Indexed(owner, Bindings(devices[..i + 1]))
    ensures !ok ==> !Sound(devices)
  {
    owner := before;
    var addresses := devices[i].addresses;
    assert Read(devices, i, 0) == Bindings(devices[..i]);
    for k := 0 to |addresses|
      invariant Indexed(owner, Read(devices, i, k))
    {
      var raw := addresses[k];
      if !Usable(raw) {
        UnboundMeansUnsound(devices, i, k, owner);
        return false, owner;
      }
      if raw.address in owner {
        UnboundMeansUnsound(devices, i, k, owner);
        return false, owner;
      }
      ReadStep(devices, i, k);
      IndexedStep(owner, Read(devices, i, k), raw, devices[i].id);
      owner := owner[raw.address := devices[i].id];
    }
    assert devices[..i + 1][..i] == devices[..i];
    return true, owner;
  }

  method BindDevices(devices: seq<Device>) returns (ok: bool, owner: map<Address, Id>)
    ensures ok <==>
              && (forall d :: d in devices ==>
                    d.id != EMPTY && d.ifIndex > 0 && d.interface_ != EMPTY && d.segment != EMPTY && d.addresses != [])
              && NoDup(Names(devices)) && NoDup(Addresses(Bindings(devices)))
              && (forall b :: b in Bindings(devices) ==>
                    && b.0.Seen? && !b.0.zone && Plain(b.0.address)
                    && (!b.0.address.v6 ==> b.0.address.value != 0xffff_ffff))
    ensures ok <==> Sound(devices)
    ensures ok ==> Indexed(owner, Bindings(devices))
  {
    owner := map[];
    var seen: set<Id> := {};
    assert devices[..0] == [] && Addresses([]) == [];
    for i := 0 to |devices|
      invariant Indexed(owner, Bindings(devices[..i]))
      invariant seen == Elements(Names(devices[..i])) && NoDup(Names(devices[..i]))
      invariant forall k :: 0 <= k < i ==> Placed(devices[k])
    {
      var device := devices[i];
      NamesStep(devices, i);
      if !Placed(device) {
        return false, owner;
      }
      if device.id in seen {
        return false, owner;
      }
      seen := seen + {device.id};
      var bound;
      bound, owner := BindDevice(devices, i, owner);
      if !bound {
        return false, owner;
      }
    }
    assert devices[..|devices|] == devices;
    return true, owner;
  }

  // ---- autonomyPhysicalDeviceMembers ----

  predicate Asked(observed: bool, service: Service, clients: Clients) {
    clients.selected && clients.base && !service.allLan && 0 < |service.sources| <= MAX_IDS && observed
  }

  predicate SingleHost(p: Option<Prefix>) {
    p.Some? && p.value.bits == Width(p.value.addr.v6)
  }

  /** A source that names one observed address of a selected device that is not
      excluded. */
  ghost predicate OwnedBy(devices: seq<Device>, clients: Clients, p: Option<Prefix>, id: Id) {
    SingleHost(p) && Owns(devices, p.value.addr, id) && id in clients.deviceIds && id !in clients.excludedIds
  }

  ghost predicate Owned(devices: seq<Device>, clients: Clients, p: Option<Prefix>) {
    exists id :: OwnedBy(devices, clients, p, id)
  }

  lemma OwnerByIndex(devices: seq<Device>, owner: map<Address, Id>, a: Address, id: Id)
    requires Sound(devices) && Indexed(owner, Bindings(devices))
    ensures Owns(devices, a, id) <==> a in owner && owner[a] == id
    ensures Owns(devices, a, id) ==> id != EMPTY
  {
    BindingsAreOwners(devices, a, id);
    if Owns(devices, a, id) {
      assert Usable((Seen(a, false), id).0);
    }
  }

  /** The answer is the sorted list, without repetition, of exactly the owners of the
      service's sources; every source has one, and it is selected and not excluded. */
  method AutonomyPhysicalDeviceMembers(observed: bool, devices: seq<Device>, service: Service, clients: Clients)
    returns (r: Answer)
    requires forall p :: p in service.sources && p.Some? ==> ValidPrefix(p.value)
    ensures r.ScopeChanged? <==> Asked(observed, service, clients) && !Sound(devices)
    ensures r.Members? <==>
              && Asked(observed, service, clients) && Sound(devices)
              && forall p :: p in service.sources ==> Owned(devices, clients, p)
    ensures r.Members? ==> forall id :: id in r.ids <==>
        exists p :: p in service.sources && OwnedBy(devices, clients, p, id)
    ensures r.Members? ==> forall id :: id in r.ids ==> id in clients.deviceIds && id !in clients.excludedIds
    ensures r.Members? ==> forall i, j :: 0 <= i < j < |r.ids| ==> r.ids[i] < r.ids[j]
  {
    if !clients.selected || !clients.base || service.allLan || |service.sources| == 0 || |service.sources| > MAX_IDS ||
      !observed {
      return Ineligible;
    }
    var bound, owner := BindDevices(devices);
    if !bound {
      return ScopeChanged;
    }
    var all, ids := OwnersOf(devices, owner, clients, service.sources);
    if !all {
      return Ineligible;
    }
    var sorted := SortedMembers(ids);
    return Members(sorted);
  }

  // The owners of the sources, each once; refused at the first source without one.
  method OwnersOf(devices: seq<Device>, owner: map<Address, Id>, clients: Clients, sources: seq<Option<Prefix>>)
    returns (all: bool, ids: seq<Id>)
    requires Sound(devices) && Indexed(owner, Bindings(devices))
    requires forall k :: 0 <= k < |sources| && sources[k].Some? ==> ValidPrefix(sources[k].value)
    ensures all <==> forall k :: 0 <= k < |sources| ==> Owned(devices, clients, sources[k])
    ensures all ==> NoDup(ids) && forall id :: id in ids <==>
        exists k :: 0 <= k < |sources| && OwnedBy(devices, clients, sources[k], id)
  {
    ids := [];
    for i := 0 to |sources|
      invariant NoDup(ids)
      invariant forall k :: 0 <= k < i ==> Owned(devices, clients, sources[k])
      invariant forall id :: id in ids <==> exists k :: 0 <= k < i && OwnedBy(devices, clients, sources[k], id)
    {
      var id := SourceOwner(devices, owner, clients, sources[i]);
      if id.None? {
        return false, ids;
      }
      assert OwnedBy(devices, clients, sources[i], id.value);
      if id.value !in ids {
        NoDupConcat(ids, [id.value]);
        ids := ids + [id.value];
      }
    }
    return true, ids;
  }

  // The one device of a source, if it may be named.
  method SourceOwner(devices: seq<Device>, owner: map<Address, Id>, clients: Clients, source: Option<Prefix>)
    returns (id: Option<Id>)
    requires Sound(devices) && Indexed(owner, Bindings(devices))
    requires source.Some? ==> ValidPrefix(source.value)
    ensures id.None? <==> !Owned(devices, clients, source)
    ensures id.Some? ==> forall d :: OwnedBy(devices, clients, source, d) <==> d == id.value
  {
    forall a, d ensures Owns(devices, a, d) <==> a in owner && owner[a] == d {
      OwnerByIndex(devices, owner, a, d);
    }
    if source.None? || !IsMasked(source.value) || source.value.bits != Width(source.value.addr.v6) {
      return None;
    }
    var address := source.value.addr;
    if address !in owner || owner[address] == EMPTY || owner[address] !in clients.deviceIds ||
      owner[address] in clients.excludedIds {
      if address in owner && owner[address] == EMPTY {
        OwnerByIndex(devices, owner, address, EMPTY);
      }
      return None;
    }
    assert OwnedBy(devices, clients, source, owner[address]);
    return Some(owner[address]);
  }

  method SortedMembers(ids: seq<Id>) returns (r: seq<Id>)
    requires NoDup(ids)
    ensures forall id :: id in r <==> id in ids
    ensures forall i, j :: 0 <= i < j < |r| ==> r[i] < r[j]
  {
    var s := SortIds(ids);
    SortIdsIsSorted(ids);
    NoDupByIndex(s);
    return s;
  }

  /** One device answers for one address: in a sound observation no two devices own
      it, so the owner of a source is unique. */
  lemma OwnerIsUnique(devices: seq<Device>, a: Address, x: Id, y: Id)
    requires Sound(devices) && Owns(devices, a, x) && Owns(devices, a, y)
    ensures x == y
  {
    var b := Bindings(devices);
    BindingsAreOwners(devices, a, x);
    BindingsAreOwners(devices, a, y);
    var i :| 0 <= i < |b| && b[i] == (Seen(a, false), x);
    var j :| 0 <= j < |b| && b[j] == (Seen(a, false), y);
    NoDupByIndex(Addresses(b));
    assert Addresses(b)[i] == Addresses(b)[j];
  }

  // ---- autonomyFiniteExcludedDevicesEqual ----

  ghost predicate PlainIds(s: seq<Id>) {
    NoDup(s) && EMPTY !in s && |s| <= MAX_IDS
  }

  lemma SortedNoDup(s: seq<Id>)
    requires forall i, j :: 0 <= i < j < |s| ==> s[i] <= s[j]
    ensures NoDup(s) <==> forall i :: 0 < i < |s| ==> s[i] != s[i - 1]
  {
    NoDupByIndex(s);
    if forall i :: 0 < i < |s| ==> s[i] != s[i - 1] {
      forall i, j | 0 <= i < j < |s| ensures s[i] != s[j] {
        assert s[j - 1] != s[j] && s[i] <= s[j - 1];
      }
    }
  }

  // Nothing empty and nothing next to its equal.
  predicate Clean(r: seq<Id>, n: nat)
    requires n <= |r|
  {
    forall i :: 0 <= i < n ==> r[i] != EMPTY && (i > 0 ==> r[i] != r[i - 1])
  }

  lemma CleanWhenSorted(s: seq<Id>)
    ensures Clean(SortIds(s), |s|) <==> NoDup(s) && EMPTY !in s
  {
    var r := SortIds(s);
    SortIdsIsSorted(s);
    SortedNoDup(r);
    if NoDup(r) {
      PermutationKeepsNoDup(r, s);
    }
    assert EMPTY in r <==> EMPTY in s;
  }

  method BothClean(a: seq<Id>, b: seq<Id>) returns (ok: bool)
    requires |a| == |b|
    ensures ok <==> Clean(a, |a|) && Clean(b, |b|)
  {
    for i := 0 to |a|
      invariant Clean(a, i) && Clean(b, i)
    {
      if a[i] == EMPTY || b[i] == EMPTY || (i > 0 && (a[i] == a[i - 1] || b[i] == b[i - 1])) {
        return false;
      }
    }
    return true;
  }

  lemma LengthsTell(observed: seq<Id>, intent: seq<Id>)
    requires PlainIds(observed) && PlainIds(intent) && Elements(observed) == Elements(intent)
    ensures |observed| == |intent| <= MAX_IDS
  {
    DistinctByCount(observed);
    DistinctByCount(intent);
  }

  /** True exactly when both lists are free of repeated and empty identifiers, within
      the bound, and equal as sets. */
  method AutonomyFiniteExcludedDevicesEqual(observed: seq<Id>, intent: seq<Id>) returns (same: bool)
    ensures same <==> PlainIds(observed) && PlainIds(intent) && Elements(observed) == Elements(intent)
  {
    if |observed| != |intent| || |observed| > MAX_IDS {
      if PlainIds(observed) && PlainIds(intent) && Elements(observed) == Elements(intent) {
        LengthsTell(observed, intent);
      }
      return false;
    }
    var a, b := SortIds(observed), SortIds(intent);
    CleanWhenSorted(observed);
    CleanWhenSorted(intent);
    var clean := BothClean(a, b);
    if !clean {
      return false;
    }
    SameSets(observed, intent);
    return a == b;
  }

  // Without repetition, equal sets sort to equal lists.
  lemma SameSets(s: seq<Id>, t: seq<Id>)
    requires NoDup(s) && NoDup(t)
    ensures Elements(s) == Elements(t) <==> SortIds(s) == SortIds(t)
  {
    if Elements(s) == Elements(t) {
      assert forall x :: x in s <==> x in Elements(s);
      assert forall x :: x in t <==> x in Elements(t);
      SameElementsNoDupSameMultiset(s, t);
      AscendingIsTotal();
      SortForgetsInputOrder(Ascending(), s, t);
    } else if SortIds(s) == SortIds(t) {
      SameMultisetSameElements(s, t);
    }
  }

  // ---- the finite scope's single member ----

  datatype Segment = Segment(id: Id, nativeName: Id, ifIndex: int, interface_: Id)

  /** The selected device as the segment holds it, with the source as its only IPv4
      address. */
  predicate FiniteMember(d: Device, segment: Segment, source: Address) {
    && d.ifIndex > 0 && d.ifIndex == segment.ifIndex && d.interface_ == segment.interface_
    && d.segment == segment.id && d.mac != EMPTY
    && (forall k :: 0 <= k < |d.addresses| ==>
         d.addresses[k].Seen? && (!d.addresses[k].address.v6 ==> d.addresses[k].address == source))
    && (exists k :: 0 <= k < |d.addresses| && IsV4(d.addresses[k]))
    && (forall k, l :: 0 <= k < l < |d.addresses| ==> !IsV4(d.addresses[k]) || !IsV4(d.addresses[l]))
  }

  predicate IsV4(s: Seen) {
    s.Seen? && !s.address.v6
  }

  method CheckFiniteMember(d: Device, segment: Segment, source: Address) returns (ok: bool)
    requires !source.v6
    ensures ok <==> FiniteMember(d, segment, source)
  {
    if d.ifIndex <= 0 || d.ifIndex != segment.ifIndex || d.interface_ != segment.interface_
       || d.segment != segment.id || d.mac == EMPTY {
      return false;
    }
    var ipv4 := 0;
    for k := 0 to |d.addresses|
      invariant forall l :: 0 <= l < k ==>
          d.addresses[l].Seen? && (!d.addresses[l].address.v6 ==> d.addresses[l].address == source)
      invariant ipv4 >= 0
      invariant ipv4 == 0 <==> forall l :: 0 <= l < k ==> !IsV4(d.addresses[l])
      invariant ipv4 <= 1 <==> forall l, m :: 0 <= l < m < k ==> !IsV4(d.addresses[l]) || !IsV4(d.addresses[m])
    {
      var raw := d.addresses[k];
      if raw.Unreadable? {
        return false;
      }
      if !raw.address.v6 {
        ipv4 := ipv4 + 1;
        if raw.address != source {
          return false;
        }
      }
    }
    return ipv4 == 1;
  }

  predicate FiniteAsked(bound: bool, segment: Segment, source: Option<Prefix>, selected: Id, chosenSegment: Id,
                        excludedIds: seq<Id>) {
    && bound && segment.id != EMPTY && chosenSegment != EMPTY
    && (chosenSegment == segment.id || chosenSegment == segment.nativeName)
    && source.Some? && !source.value.addr.v6 && source.value.bits == 32 && selected !in excludedIds
  }

  /** `bound` stands for the carrier's own conditions and the agreement of the service
      and the clients with what was observed. The answer names the selected device, and
      it is given exactly when one device of that name was observed, sound. */
  method FiniteMembers(bound: bool, devices: seq<Device>, segment: Segment, source: Option<Prefix>, selected: Id,
                       chosenSegment: Id, excludedIds: seq<Id>)
    returns (r: Answer)
    ensures r.Members? <==>
              && FiniteAsked(bound, segment, source, selected, chosenSegment, excludedIds)
              && (exists i :: 0 <= i < |devices| && devices[i].id == selected)
              && (forall i, j :: 0 <= i < j < |devices| ==> devices[i].id != selected || devices[j].id != selected)
              && (forall i :: 0 <= i < |devices| && devices[i].id == selected ==>
                   FiniteMember(devices[i], segment, source.value.addr))
    ensures r.Members? ==> r.ids == [selected]
    ensures r.Ineligible? <==> !FiniteAsked(bound, segment, source, selected, chosenSegment, excludedIds)
  {
    if !bound || segment.id == EMPTY || chosenSegment == EMPTY ||
      (chosenSegment != segment.id && chosenSegment != segment.nativeName) {
      return Ineligible;
    }
    if source.None? || source.value.addr.v6 || source.value.bits != 32 || selected in excludedIds {
      return Ineligible;
    }
    var count := 0;
    for i := 0 to |devices|
      invariant count >= 0
      invariant count == 0 <==> forall k :: 0 <= k < i ==> devices[k].id != selected
      invariant count <= 1 <==> forall k, l :: 0 <= k < l < i ==> devices[k].id != selected || devices[l].id != selected
      invariant forall k :: 0 <= k < i && devices[k].id == selected ==>
          FiniteMember(devices[k], segment, source.value.addr)
    {
      if devices[i].id != selected {
        continue;
      }
      var ok := CheckFiniteMember(devices[i], segment, source.value.addr);
      if !ok {
        return ScopeChanged;
      }
      count := count + 1;
    }
    return if count != 1 then ScopeChanged else Members([selected]);
  }
}
