/** Whether a service may be checked automatically under the exclusion set: no
    client source, target name or target address may be covered by a negative, for
    any device of the round. Unparsable texts are None. */
module ResourceExclusions {
  import opened Basics
  import opened Prefixes

  const MAX_TARGETS: nat := 256
  const MAX_DEVICES: nat := 128

  datatype Match =
    | ServiceIs(service: int)
    | ExactName(name: string)
    | SuffixName(name: string)
    | AddressIs(address: Address)
    | AddressIn(prefix: Prefix)

  datatype Rule = Rule(match_: Match, devices: seq<int>)

  // `canonical` is the set's own validation; everything else is compared.
  datatype ExclusionSet = ExclusionSet(
    canonical: bool,
    manual: seq<Match>,
    russian: seq<Match>,
    rules: seq<Rule>,
    broadTLDs: seq<string>,
    selectedDevices: bool,
    deviceIds: seq<int>,
    excludedDevices: seq<int>,
    excludedClients: seq<Option<Prefix>>)

  datatype Target = Target(service: Option<int>, name: Option<string>, address: Option<Address>, device: Option<int>)

  predicate ValidMatch(m: Match) {
    (m.AddressIs? ==> ValidAddress(m.address)) && (m.AddressIn? ==> ValidPrefix(m.prefix))
  }

  predicate ValidSet(s: ExclusionSet) {
    && (forall m :: m in s.manual ==> ValidMatch(m))
    && (forall m :: m in s.russian ==> ValidMatch(m))
    && (forall r :: r in s.rules ==> ValidMatch(r.match_))
  }

  predicate EndsWith(text: string, tail: string) {
    |tail| <= |text| && text[|text| - |tail|..] == tail
  }

  predicate Hits(m: Match, t: Target)
    requires ValidMatch(m)
  {
    match m
    case ServiceIs(service) => t.service == Some(service)
    case ExactName(name) => t.name == Some(name)
    case SuffixName(name) => t.name.Some? && (t.name.value == name || EndsWith(t.name.value, "." + name))
    case AddressIs(address) => t.address == Some(address)
    case AddressIn(prefix) => t.address.Some? && Contains(prefix, t.address.value)
  }

  /** What a match means: a service, a name, a name or any name below it, an address, or
      an address in the range of a prefix. */
  ghost predicate Means(m: Match, t: Target) {
    match m
    case ServiceIs(service) => t.service == Some(service)
    case ExactName(name) => t.name == Some(name)
    case SuffixName(name) => t.name.Some? && (t.name.value == name || Below(t.name.value, name))
    case AddressIs(address) => t.address == Some(address)
    case AddressIn(prefix) =>
      t.address.Some? && prefix.bits <= Width(prefix.addr.v6) && InRange(prefix, t.address.value)
  }

  ghost predicate Below(name: string, zone: string) {
    exists labels: string :: name == labels + "." + zone
  }

  lemma BelowExactly(name: string, zone: string)
    ensures EndsWith(name, "." + zone) <==> Below(name, zone)
  {
    if EndsWith(name, "." + zone) {
      assert name == name[..|name| - |"." + zone|] + "." + zone;
    }
    if labels: string :| name == labels + "." + zone {
      assert name[|labels|..] == "." + zone;
    }
  }

  lemma HitsExactly(m: Match, t: Target)
    requires ValidMatch(m)
    ensures Hits(m, t) <==> Means(m, t)
  {
    if m.SuffixName? && t.name.Some? {
      BelowExactly(t.name.value, m.name);
    } else if m.AddressIn? && t.address.Some? {
      ContainsExactly(m.prefix, t.address.value);
    }
  }

  /** Addresses a target may name: not unspecified, multicast, loopback, link-local
      or an IPv4 address written as IPv6. */
  predicate Plain(a: Address) {
    var v := a.value;
    if a.v6 then
      v > 1 && Shift(v, 120) != 0xff && Shift(v, 118) != 0x3fa && Shift(v, 32) != 0xffff
    else
      v > 0 && Shift(v, 28) != 0xe && Shift(v, 24) != 127 && Shift(v, 16) != 0xa9fe
  }

  /** The same as ranges of addresses. */
  lemma PlainV4Exactly(a: Address)
    requires !a.v6
    ensures Plain(a) <==>
              && a.value != 0 && !(0xe000_0000 <= a.value < 0xf000_0000)
              && !(0x7f00_0000 <= a.value < 0x8000_0000) && !(0xa9fe_0000 <= a.value < 0xa9ff_0000)
  {
    ShiftedV4(a.value);
  }

  lemma PlainV6Exactly(a: Address)
    requires a.v6
    ensures Plain(a) <==>
              && a.value > 1
              && !(0xff00_0000_0000_0000_0000_0000_0000_0000 <= a.value < 0x1_0000_0000_0000_0000_0000_0000_0000_0000)
              && !(0xfe80_0000_0000_0000_0000_0000_0000_0000 <= a.value < 0xfec0_0000_0000_0000_0000_0000_0000_0000)
              && !(0xffff_0000_0000 <= a.value < 0x1_0000_0000_0000)
  {
    ShiftedV6(a.value);
  }

  lemma ShiftedV6(value: nat)
    ensures Shift(value, 120) == 0xff <==>
            0xff00_0000_0000_0000_0000_0000_0000_0000 <= value < 0x1_0000_0000_0000_0000_0000_0000_0000_0000
    ensures Shift(value, 118) == 0x3fa <==>
            0xfe80_0000_0000_0000_0000_0000_0000_0000 <= value < 0xfec0_0000_0000_0000_0000_0000_0000_0000
    ensures Shift(value, 32) == 0xffff <==> 0xffff_0000_0000 <= value < 0x1_0000_0000_0000
  {
    ShiftRange(value, 120, 0xff);
    ShiftRange(value, 118, 0x3fa);
    ShiftRange(value, 32, 0xffff);
    PowersOfTwo();
    LargePowers();
  }

  lemma ShiftedV4(value: nat)
    ensures Shift(value, 28) == 0xe <==> 0xe000_0000 <= value < 0xf000_0000
    ensures Shift(value, 24) == 127 <==> 0x7f00_0000 <= value < 0x8000_0000
    ensures Shift(value, 16) == 0xa9fe <==> 0xa9fe_0000 <= value < 0xa9ff_0000
  {
    ShiftRange(value, 28, 0xe);
    ShiftRange(value, 24, 127);
    ShiftRange(value, 16, 0xa9fe);
    SmallPowers();
  }

  predicate Normal(t: Target) {
    (t.service.Some? || t.name.Some? || t.address.Some?) && (t.address.Some? ==> Plain(t.address.value))
  }

  /** Some negative covers the target for its device. */
  ghost predicate Applies(s: ExclusionSet, t: Target)
    requires ValidSet(s)
  {
    || (exists m :: m in s.manual && Hits(m, t))
    || (exists m :: m in s.russian && Hits(m, t))
    || (exists r :: && r in s.rules && Hits(r.match_, t)
                    && (r.devices == [] || (t.device.Some? && t.device.value in r.devices)))
    || (exists tld :: tld in s.broadTLDs && t.name.Some? && EndsWith(t.name.value, "." + tld))
  }

  // A rule for named devices covers a target whose device is not known.
  ghost predicate NeedsDevice(s: ExclusionSet, t: Target)
    requires ValidSet(s)
  {
    t.device.None? && exists r :: r in s.rules && Hits(r.match_, t) && r.devices != []
  }

  /** No match of the lists means the target, no rule for its device, for all devices or
      for an unknown one does, and its name is below no excluded top-level domain. */
  ghost predicate NothingMeans(s: ExclusionSet, t: Target) {
    && (forall m :: m in s.manual || m in s.russian ==> !Means(m, t))
    && (forall r :: r in s.rules && Means(r.match_, t) ==>
          r.devices != [] && t.device.Some? && t.device.value !in r.devices)
    && (forall tld :: tld in s.broadTLDs && t.name.Some? ==> !Below(t.name.value, tld))
  }

  lemma NothingAppliesExactly(s: ExclusionSet, t: Target)
    requires ValidSet(s)
    ensures !Applies(s, t) && !NeedsDevice(s, t) <==> NothingMeans(s, t)
  {
    forall m | m in s.manual || m in s.russian ensures Hits(m, t) <==> Means(m, t) {
      HitsExactly(m, t);
    }
    forall r | r in s.rules ensures Hits(r.match_, t) <==> Means(r.match_, t) {
      HitsExactly(r.match_, t);
    }
    forall tld | tld in s.broadTLDs && t.name.Some?
      ensures EndsWith(t.name.value, "." + tld) <==> Below(t.name.value, tld)
    {
      BelowExactly(t.name.value, tld);
    }
  }

  datatype Answer = Free | Excluded | Refused

  method Matches(s: ExclusionSet, t: Target) returns (answer: Answer)
    requires ValidSet(s)
    ensures answer.Free? <==>
              && s.canonical && (t.service.Some? || t.name.Some? || t.address.Some?)
              && (t.address.Some? ==> Plain(t.address.value))
              && NothingMeans(s, t)
    ensures answer.Excluded? ==> Applies(s, t)
  {
    NothingAppliesExactly(s, t);
    if !s.canonical || !Normal(t) {
      return Refused;
    }
    for i := 0 to |s.manual|
      invariant forall j :: 0 <= j < i ==> !Hits(s.manual[j], t)
    {
      if Hits(s.manual[i], t) {
        return Excluded;
      }
    }
    for i := 0 to |s.russian|
      invariant forall j :: 0 <= j < i ==> !Hits(s.russian[j], t)
    {
      if Hits(s.russian[i], t) {
        return Excluded;
      }
    }
    for i := 0 to |s.rules|
      invariant forall j :: 0 <= j < i && Hits(s.rules[j].match_, t) ==>
        s.rules[j].devices != [] && t.device.Some? && t.device.value !in s.rules[j].devices
    {
      var rule := s.rules[i];
      if !Hits(rule.match_, t) {
        continue;
      }
      if rule.devices != [] {
        if t.device.None? {
          return Refused;
        }
        if t.device.value !in rule.devices {
          continue;
        }
      }
      return Excluded;
    }
    for i := 0 to |s.broadTLDs|
      invariant forall j :: 0 <= j < i ==> !(t.name.Some? && EndsWith(t.name.value, "." + s.broadTLDs[j]))
    {
      if t.name.Some? && EndsWith(t.name.value, "." + s.broadTLDs[i]) {
        return Excluded;
      }
    }
    return Free;
  }

  /** The devices a target is asked about: those of the round, or none known. */
  function Asked(devices: seq<int>): (r: seq<Option<int>>)
    ensures |r| > 0
    ensures forall d :: d in r <==> if devices == [] then d == None else d.Some? && d.value in devices
  {
    if devices == [] then [None] else Known(devices)
  }

  function Known(devices: seq<int>): (r: seq<Option<int>>)
    ensures |r| == |devices|
    ensures forall d :: d in r <==> d.Some? && d.value in devices
  {
    if devices == [] then [] else [Some(devices[0])] + Known(devices[1..])
  }

  ghost predicate FreeForAll(s: ExclusionSet, devices: seq<int>, t: Target)
    requires ValidSet(s)
  {
    forall d :: d in Asked(devices) ==>
      s.canonical && Normal(t) && NothingMeans(s, t.(device := d))
  }

  method Check(s: ExclusionSet, devices: seq<int>, t: Target) returns (ok: bool)
    requires ValidSet(s)
    ensures ok <==> FreeForAll(s, devices, t)
  {
    var asked := Asked(devices);
    for i := 0 to |asked|
      invariant forall j :: 0 <= j < i ==>
        s.canonical && Normal(t) && NothingMeans(s, t.(device := asked[j]))
    {
      var answer := Matches(s, t.(device := asked[i]));
      if !answer.Free? {
        assert asked[i] in asked;
        return false;
      }
    }
    return true;
  }

  // ---- clients ----

  ghost predicate Disjoint(p: Prefix, q: Prefix)
    requires ValidPrefix(p) && ValidPrefix(q)
  {
    !exists a :: ValidAddress(a) && InRange(p, a) && InRange(q, a)
  }

  predicate ValidTexts(texts: seq<Option<Prefix>>) {
    forall t :: t in texts && t.Some? ==> ValidPrefix(t.value)
  }

  ghost predicate ClientFree(sources: seq<Prefix>, allLAN: bool, excluded: Option<Prefix>)
    requires (forall p :: p in sources ==> ValidPrefix(p)) && (excluded.Some? ==> ValidPrefix(excluded.value))
  {
    excluded.Some? && !allLAN && forall p :: p in sources ==> Disjoint(p, excluded.value)
  }

  /** No source address of a client may lie in an excluded client prefix. */
  method ClientsAllowed(sources: seq<Prefix>, allLAN: bool, excluded: seq<Option<Prefix>>) returns (ok: bool)
    requires (forall p :: p in sources ==> ValidPrefix(p)) && ValidTexts(excluded)
    ensures ok <==> forall e :: e in excluded ==> ClientFree(sources, allLAN, e)
  {
    for i := 0 to |excluded|
      invariant forall j :: 0 <= j < i ==> ClientFree(sources, allLAN, excluded[j])
    {
      assert excluded[i] in excluded;
      if excluded[i].None? || allLAN {
        return false;
      }
      var negative := excluded[i].value;
      for k := 0 to |sources|
        invariant forall j :: 0 <= j < k ==> Disjoint(sources[j], negative)
      {
        assert sources[k] in sources;
        OverlapExactly(sources[k], negative);
        if Overlaps(sources[k], negative) {
          assert !ClientFree(sources, allLAN, excluded[i]);
          return false;
        }
      }
      assert ClientFree(sources, allLAN, excluded[i]);
    }
    return true;
  }

  method DevicesAllowed(s: ExclusionSet, devices: seq<int>) returns (ok: bool)
    ensures ok <==>
      if s.selectedDevices then
        0 < |devices| <= MAX_DEVICES && forall d :: d in devices ==> d in s.deviceIds && d !in s.excludedDevices
      else devices == [] && s.excludedDevices == []
  {
    if s.selectedDevices {
      if |devices| == 0 || |devices| > MAX_DEVICES {
        return false;
      }
      for i := 0 to |devices|
        invariant forall j :: 0 <= j < i ==> devices[j] in s.deviceIds && devices[j] !in s.excludedDevices
      {
        var id := devices[i];
        if id !in s.deviceIds || id in s.excludedDevices {
          assert id in devices;
          return false;
        }
      }
      return true;
    }
    return |devices| == 0 && |s.excludedDevices| == 0;
  }

  // ---- target addresses ----

  // The addresses a match covers, when it covers addresses.
  function AddressesOf(m: Match): Option<Prefix> {
    match m
    case AddressIs(address) => Some(Host(address))
    case AddressIn(prefix) => Some(prefix)
    case _ => None
  }

  lemma AddressesOfMatch(m: Match, t: Target)
    requires ValidMatch(m) && t.address.Some? && ValidAddress(t.address.value)
    ensures AddressesOf(m).Some? ==>
              && ValidPrefix(AddressesOf(m).value)
              && (Means(m, t) <==> InRange(AddressesOf(m).value, t.address.value))
    ensures AddressesOf(m).None? && t.name.None? ==> (Means(m, t) <==> m.ServiceIs? && t.service == Some(m.service))
  {
    HitsExactly(m, t);
    if AddressesOf(m).Some? {
      ContainsExactly(AddressesOf(m).value, t.address.value);
    }
  }

  /** A rule for named devices, none of which is in the round, has no say. */
  predicate Applicable(r: Rule, devices: seq<int>) {
    devices == [] || r.devices == [] || exists d :: d in devices && d in r.devices
  }

  ghost predicate IsNegative(s: ExclusionSet, devices: seq<int>, q: Prefix) {
    || (exists m :: m in s.manual && AddressesOf(m) == Some(q))
    || (exists m :: m in s.russian && AddressesOf(m) == Some(q))
    || (exists r :: r in s.rules && Applicable(r, devices) && AddressesOf(r.match_) == Some(q))
  }

  method NegativePrefixes(s: ExclusionSet, devices: seq<int>) returns (negatives: seq<Prefix>)
    requires ValidSet(s)
    ensures forall q :: q in negatives ==> ValidPrefix(q)
    ensures forall q :: q in negatives <==> IsNegative(s, devices, q)
  {
    negatives := [];
    for i := 0 to |s.manual|
      invariant forall q :: q in negatives <==> exists j :: 0 <= j < i && AddressesOf(s.manual[j]) == Some(q)
    {
      if AddressesOf(s.manual[i]).Some? {
        negatives := negatives + [AddressesOf(s.manual[i]).value];
      }
    }
    ghost var manual := negatives;
    for i := 0 to |s.russian|
      invariant forall q :: q in negatives <==>
        q in manual || exists j :: 0 <= j < i && AddressesOf(s.russian[j]) == Some(q)
    {
      if AddressesOf(s.russian[i]).Some? {
        negatives := negatives + [AddressesOf(s.russian[i]).value];
      }
    }
    ghost var lists := negatives;
    for i := 0 to |s.rules|
      invariant forall q :: q in negatives <==>
        || q in lists
        || exists j :: 0 <= j < i && Applicable(s.rules[j], devices) && AddressesOf(s.rules[j].match_) == Some(q)
    {
      if !Applicable(s.rules[i], devices) {
        continue;
      }
      if AddressesOf(s.rules[i].match_).Some? {
        negatives := negatives + [AddressesOf(s.rules[i].match_).value];
      }
    }
    forall q | IsNegative(s, devices, q) ensures q in negatives {
      NegativeByIndex(s, devices, q);
    }
    forall q | q in negatives ensures ValidPrefix(q) && IsNegative(s, devices, q) {
      NegativesAreValid(s, devices, q);
    }
  }

  lemma NegativeByIndex(s: ExclusionSet, devices: seq<int>, q: Prefix)
    requires IsNegative(s, devices, q)
    ensures || (exists j :: 0 <= j < |s.manual| && AddressesOf(s.manual[j]) == Some(q))
            || (exists j :: 0 <= j < |s.russian| && AddressesOf(s.russian[j]) == Some(q))
            || (exists j :: 0 <= j < |s.rules| && Applicable(s.rules[j], devices) &&
                 AddressesOf(s.rules[j].match_) == Some(q))
  {
  }

  lemma NegativesAreValid(s: ExclusionSet, devices: seq<int>, q: Prefix)
    requires ValidSet(s)
    requires || (exists j :: 0 <= j < |s.manual| && AddressesOf(s.manual[j]) == Some(q))
             || (exists j :: 0 <= j < |s.russian| && AddressesOf(s.russian[j]) == Some(q))
             || (exists j :: 0 <= j < |s.rules| && Applicable(s.rules[j], devices) &&
                  AddressesOf(s.rules[j].match_) == Some(q))
    ensures ValidPrefix(q) && IsNegative(s, devices, q)
  {
    var m: Match;
    if j :| 0 <= j < |s.manual| && AddressesOf(s.manual[j]) == Some(q) {
      m := s.manual[j];
      assert m in s.manual;
    } else if j :| 0 <= j < |s.russian| && AddressesOf(s.russian[j]) == Some(q) {
      m := s.russian[j];
      assert m in s.russian;
    } else {
      var j :| 0 <= j < |s.rules| && Applicable(s.rules[j], devices) && AddressesOf(s.rules[j].match_) == Some(q);
      assert s.rules[j] in s.rules;
      m := s.rules[j].match_;
    }
    assert ValidMatch(m) && AddressesOf(m) == Some(q);
  }

  function AddressTarget(service: int, a: Address): Target {
    Target(Some(service), None, Some(a), None)
  }

  ghost predicate CidrFree(s: ExclusionSet, service: int, devices: seq<int>, cidr: Option<Prefix>)
    requires ValidSet(s) && (cidr.Some? ==> ValidPrefix(cidr.value))
  {
    && cidr.Some? && IsMasked(cidr.value)
    && FreeForAll(s, devices, AddressTarget(service, cidr.value.addr))
    && forall q :: IsNegative(s, devices, q) && ValidPrefix(q) ==> Disjoint(cidr.value, q)
  }

  // Whether a prefix shares no address with any of the negatives.
  method OutsideAll(positive: Prefix, negatives: seq<Prefix>) returns (ok: bool)
    requires ValidPrefix(positive) && forall q :: q in negatives ==> ValidPrefix(q)
    ensures ok <==> forall q :: q in negatives ==> Disjoint(positive, q)
  {
    for k := 0 to |negatives|
      invariant forall j :: 0 <= j < k ==> Disjoint(positive, negatives[j])
    {
      assert negatives[k] in negatives;
      OverlapExactly(positive, negatives[k]);
      if Overlaps(positive, negatives[k]) {
        return false;
      }
    }
    return true;
  }

  /** A prefix is refused exactly when it is malformed, its base address is not
      free, or some applicable negative shares an address with it. */
  method CidrsAllowed(s: ExclusionSet, service: int, devices: seq<int>, cidrs: seq<Option<Prefix>>) returns (ok: bool)
    requires ValidSet(s) && ValidTexts(cidrs)
    ensures ok <==> forall c :: c in cidrs ==> CidrFree(s, service, devices, c)
  {
    if |cidrs| == 0 {
      return true;
    }
    var negatives := NegativePrefixes(s, devices);
    for i := 0 to |cidrs|
      invariant forall j :: 0 <= j < i ==> CidrFree(s, service, devices, cidrs[j])
    {
      assert cidrs[i] in cidrs;
      if cidrs[i].None? || !IsMasked(cidrs[i].value) {
        return false;
      }
      var positive := cidrs[i].value;
      var free := Check(s, devices, AddressTarget(service, positive.addr));
      if !free {
        return false;
      }
      var outside := OutsideAll(positive, negatives);
      if !outside {
        return false;
      }
    }
    return true;
  }

  /** Soundness over the whole address space: once the service itself and the
      prefix are free, no address of the prefix is covered by a negative for any
      device of the round. */
  lemma NoAddressIsExcluded(s: ExclusionSet, service: int, devices: seq<int>, cidr: Prefix, a: Address, d: Option<int>)
    requires ValidSet(s) && ValidPrefix(cidr) && ValidAddress(a)
    requires FreeForAll(s, devices, Target(Some(service), None, None, None))
    requires CidrFree(s, service, devices, Some(cidr))
    requires InRange(cidr, a) && d in Asked(devices)
    ensures NothingMeans(s, AddressTarget(service, a).(device := d))
  {
    var t := AddressTarget(service, a).(device := d);
    var bare := Target(Some(service), None, None, None).(device := d);
    assert NothingMeans(s, bare);
    forall m | m in s.manual || m in s.russian ensures !Means(m, t) {
      AddressesOfMatch(m, t);
      assert !Means(m, bare);
      if AddressesOf(m).Some? {
        assert IsNegative(s, devices, AddressesOf(m).value);
      }
    }
    forall r | r in s.rules && Means(r.match_, t)
      ensures r.devices != [] && t.device.Some? && t.device.value !in r.devices
    {
      var m := r.match_;
      AddressesOfMatch(m, t);
      if AddressesOf(m).Some? {
        var q := AddressesOf(m).value;
        assert Applicable(r, devices) ==> IsNegative(s, devices, q);
        assert InRange(cidr, a) && InRange(q, a);
        assert !Disjoint(cidr, q);
        assert !Applicable(r, devices) && d.Some?;
        var id := d.value;
        assert id in devices && id !in r.devices;
      } else {
        assert Means(m, bare);
      }
    }
  }

  // An applicable negative means every address in its range for some device of the round.
  lemma NegativeMeansItsRange(s: ExclusionSet, service: int, devices: seq<int>, q: Prefix, a: Address)
    requires ValidSet(s) && IsNegative(s, devices, q) && ValidAddress(a) && InRange(q, a)
    ensures exists d :: d in Asked(devices) && !NothingMeans(s, AddressTarget(service, a).(device := d))
  {
    var first := Asked(devices)[0];
    var t := AddressTarget(service, a);
    if m :| (m in s.manual || m in s.russian) && AddressesOf(m) == Some(q) {
      AddressesOfMatch(m, t.(device := first));
      assert first in Asked(devices) && Means(m, t.(device := first));
    } else {
      var r :| r in s.rules && Applicable(r, devices) && AddressesOf(r.match_) == Some(q);
      AddressesOfMatch(r.match_, t);
      var d := first;
      if devices != [] && r.devices != [] {
        var id :| id in devices && id in r.devices;
        d := Some(id);
      }
      assert d in Asked(devices) && Means(r.match_, t.(device := d));
    }
  }

  /** The test of a prefix against the negatives is exact: behind a free service it passes if
      and only if the prefix is masked, may be named, and no address in its range is meant
      by a negative for any device of the round. */
  lemma CidrFreeExactly(s: ExclusionSet, service: int, devices: seq<int>, cidr: Prefix)
    requires ValidSet(s) && ValidPrefix(cidr)
    requires FreeForAll(s, devices, Target(Some(service), None, None, None))
    ensures CidrFree(s, service, devices, Some(cidr)) <==>
            && IsMasked(cidr) && Plain(cidr.addr)
            && forall a, d :: ValidAddress(a) && InRange(cidr, a) && d in Asked(devices) ==>
                 NothingMeans(s, AddressTarget(service, a).(device := d))
  {
    if CidrFree(s, service, devices, Some(cidr)) {
      assert Asked(devices)[0] in Asked(devices);
      forall a, d | ValidAddress(a) && InRange(cidr, a) && d in Asked(devices)
        ensures NothingMeans(s, AddressTarget(service, a).(device := d))
      {
        NoAddressIsExcluded(s, service, devices, cidr, a, d);
      }
    } else if IsMasked(cidr) && Plain(cidr.addr) {
      SomeAddressIsExcluded(s, service, devices, cidr);
    }
  }

  lemma SomeAddressIsExcluded(s: ExclusionSet, service: int, devices: seq<int>, cidr: Prefix)
    requires ValidSet(s) && ValidPrefix(cidr) && IsMasked(cidr) && Plain(cidr.addr)
    requires FreeForAll(s, devices, Target(Some(service), None, None, None))
    requires !CidrFree(s, service, devices, Some(cidr))
    ensures exists a, d :: ValidAddress(a) && InRange(cidr, a) && d in Asked(devices) &&
              !NothingMeans(s, AddressTarget(service, a).(device := d))
  {
    assert Asked(devices)[0] in Asked(devices);
    if !FreeForAll(s, devices, AddressTarget(service, cidr.addr)) {
      assert InRange(cidr, cidr.addr);
    } else {
      var q :| IsNegative(s, devices, q) && ValidPrefix(q) && !Disjoint(cidr, q);
      var a :| ValidAddress(a) && InRange(cidr, a) && InRange(q, a);
      NegativeMeansItsRange(s, service, devices, q, a);
    }
  }

  // ---- the whole decision ----

  datatype Service = Service(id: int, names: seq<Option<string>>, endpoints: seq<Option<Target>>, probes: nat,
                             cidrs: seq<Option<Prefix>>)

  method NamesAllowed(s: ExclusionSet, service: Service, devices: seq<int>) returns (ok: bool)
    requires ValidSet(s)
    ensures ok <==> forall n :: n in service.names ==>
      n.Some? && FreeForAll(s, devices, Target(Some(service.id), n, None, None))
  {
    for i := 0 to |service.names|
      invariant forall j :: 0 <= j < i ==>
        service.names[j].Some? && FreeForAll(s, devices, Target(Some(service.id), service.names[j], None, None))
    {
      var free := service.names[i].Some?;
      if free {
        free := Check(s, devices, Target(Some(service.id), service.names[i], None, None));
      }
      if !free {
        assert service.names[i] in service.names;
        return false;
      }
    }
    return true;
  }

  // Probe and control endpoints: a host name or an address, never a service.
  method EndpointsAllowed(s: ExclusionSet, endpoints: seq<Option<Target>>, devices: seq<int>) returns (ok: bool)
    requires ValidSet(s)
    ensures ok <==> forall e :: e in endpoints ==> e.Some? && FreeForAll(s, devices, e.value)
  {
    for i := 0 to |endpoints|
      invariant forall j :: 0 <= j < i ==> endpoints[j].Some? && FreeForAll(s, devices, endpoints[j].value)
    {
      var free := endpoints[i].Some?;
      if free {
        free := Check(s, devices, endpoints[i].value);
      }
      if !free {
        assert endpoints[i] in endpoints;
        return false;
      }
    }
    return true;
  }

  ghost predicate DevicesFree(s: ExclusionSet, devices: seq<int>) {
    if s.selectedDevices then
      0 < |devices| <= MAX_DEVICES && forall d :: d in devices ==> d in s.deviceIds && d !in s.excludedDevices
    else devices == [] && s.excludedDevices == []
  }

  ghost predicate TargetsFree(s: ExclusionSet, service: Service, devices: seq<int>)
    requires ValidSet(s) && ValidTexts(service.cidrs)
  {
    && FreeForAll(s, devices, Target(Some(service.id), None, None, None))
    && (forall n :: n in service.names ==> n.Some? && FreeForAll(s, devices, Target(Some(service.id), n, None, None)))
    && (forall e :: e in service.endpoints ==> e.Some? && FreeForAll(s, devices, e.value))
    && (forall c :: c in service.cidrs ==> CidrFree(s, service.id, devices, c))
  }

  predicate ValidSources(sources: Option<seq<Prefix>>) {
    sources.Some? ==> forall p :: p in sources.value ==> ValidPrefix(p)
  }

  /** Nothing of the service, of its clients or of the round's devices is excluded;
      `listed` source texts were normalized to `sources`. */
  ghost predicate NothingExcluded(s: ExclusionSet, service: Service, allLAN: bool, listed: nat,
                                  sources: Option<seq<Prefix>>, devices: seq<int>)
    requires ValidSet(s) && ValidTexts(s.excludedClients) && ValidTexts(service.cidrs) && ValidSources(sources)
  {
    && sources.Some? && (allLAN || listed > 0)
    && DevicesFree(s, devices)
    && (forall e :: e in s.excludedClients ==> ClientFree(sources.value, allLAN, e))
    && TargetsFree(s, service, devices)
  }

  /** An accepted service has no address in any of its prefixes, and no client
      source, inside an applicable exclusion; and nothing else is refused. */
  method Eligible(service: Service, open: bool, allLAN: bool, listed: nat, sources: Option<seq<Prefix>>,
                  s: ExclusionSet, devices: seq<int>)
    returns (ok: bool)
    requires ValidSet(s) && ValidTexts(s.excludedClients) && ValidTexts(service.cidrs) && ValidSources(sources)
    ensures ok <==> open && |service.names| + service.probes + |service.cidrs| <= MAX_TARGETS
                    && NothingExcluded(s, service, allLAN, listed, sources, devices)
  {
    if |service.names| + service.probes + |service.cidrs| > MAX_TARGETS || !open || sources.None? ||
      (!allLAN && listed == 0) {
      return false;
    }
    var pass := DevicesAllowed(s, devices);
    if !pass {
      return false;
    }
    pass := ClientsAllowed(sources.value, allLAN, s.excludedClients);
    if !pass {
      return false;
    }
    pass := Check(s, devices, Target(Some(service.id), None, None, None));
    if !pass {
      return false;
    }
    pass := NamesAllowed(s, service, devices);
    if !pass {
      return false;
    }
    pass := EndpointsAllowed(s, service.endpoints, devices);
    if !pass {
      return false;
    }
    ok := CidrsAllowed(s, service.id, devices, service.cidrs);
  }

  /** What that means for every address there is, and for every device of the round. */
  lemma AcceptedServiceIsOutsideEveryExclusion(s: ExclusionSet, service: Service, allLAN: bool, listed: nat,
                                               sources: Option<seq<Prefix>>, devices: seq<int>,
                                               cidr: Prefix, a: Address, d: Option<int>)
    requires ValidSet(s) && ValidTexts(s.excludedClients) && ValidTexts(service.cidrs) && ValidSources(sources)
    requires NothingExcluded(s, service, allLAN, listed, sources, devices)
    requires Some(cidr) in service.cidrs && ValidPrefix(cidr) && ValidAddress(a) && InRange(cidr, a) &&
        d in Asked(devices)
    ensures NothingMeans(s, AddressTarget(service.id, a).(device := d))
  {
    NoAddressIsExcluded(s, service.id, devices, cidr, a, d);
  }

  /** The same for every name of the service and for every endpoint. */
  lemma AcceptedTargetsAreOutsideEveryExclusion(s: ExclusionSet, service: Service, allLAN: bool, listed: nat,
                                                sources: Option<seq<Prefix>>, devices: seq<int>, d: Option<int>)
    requires ValidSet(s) && ValidTexts(s.excludedClients) && ValidTexts(service.cidrs) && ValidSources(sources)
    requires NothingExcluded(s, service, allLAN, listed, sources, devices) && d in Asked(devices)
    ensures forall n :: n in service.names ==> n.Some? && NothingMeans(s, Target(Some(service.id), n, None, d))
    ensures forall e :: e in service.endpoints ==>
              && e.Some? && NothingMeans(s, e.value.(device := d))
              && (e.value.address.Some? ==> Plain(e.value.address.value))
  {
    forall n | n in service.names ensures n.Some? && NothingMeans(s, Target(Some(service.id), n, None, d)) {
      assert FreeForAll(s, devices, Target(Some(service.id), n, None, None));
    }
  }

  lemma AcceptedClientsAreOutsideEveryExclusion(s: ExclusionSet, service: Service, allLAN: bool, listed: nat,
                                                sources: Option<seq<Prefix>>, devices: seq<int>,
                                                source: Prefix, excluded: Prefix, a: Address)
    requires ValidSet(s) && ValidTexts(s.excludedClients) && ValidTexts(service.cidrs) && ValidSources(sources)
    requires NothingExcluded(s, service, allLAN, listed, sources, devices)
    requires source in sources.value && ValidPrefix(source) && Some(excluded) in s.excludedClients &&
        ValidPrefix(excluded)
    requires ValidAddress(a) && InRange(source, a)
    ensures !InRange(excluded, a)
  {
  }
}
