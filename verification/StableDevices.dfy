/** Projection and ordering of a conversation's device list (stableDevices in chat_e2ee_crypto.js). */
module StableDevices {
  import opened Options
  import Decimals

  type PublicKey = nat

  /** What Number() makes of the user_id of a device; NotInteger stands for NaN and fractions. */
  datatype RawUserId = Absent | Null | Number(n: int) | NotInteger

  /** A device as the server sends it; an optional text may also be empty. */
  datatype Device = Device(
    userId: RawUserId,
    recipientHandle: Option<string>,
    originDomain: Option<string>,
    deviceId: Option<string>,
    publicKey: Option<PublicKey>,
    fingerprint: Option<string>,
    signingPublicKey: Option<string>,
    signature: Option<string>)

  datatype StableDevice = StableDevice(
    userId: Option<int>,
    recipientHandle: Option<string>,
    originDomain: Option<string>,
    deviceId: string,
    publicKey: Option<PublicKey>,
    fingerprint: Option<string>,
    signingPublicKey: Option<string>,
    signature: Option<string>)

  /** text || null. */
  function OrNull(text: Option<string>): Option<string> { if text == Some("") then None else text }

  /** Number(null) is 0, Number(undefined) is NaN. */
  function IntegerUserId(raw: RawUserId): Option<int> {
    match raw
    case Absent => None
    case Null => Some(0)
    case Number(n) => Some(n)
    case NotInteger => None
  }

  function Project(d: Device): StableDevice {
    StableDevice(IntegerUserId(d.userId), OrNull(d.recipientHandle), OrNull(d.originDomain),
                 if d.deviceId.Some? then d.deviceId.value else "", d.publicKey,
                 OrNull(d.fingerprint), OrNull(d.signingPublicKey), OrNull(d.signature))
  }

  function ProjectAll(devices: seq<Device>): (r: seq<StableDevice>)
    ensures |r| == |devices|
  {
    seq(|devices|, i requires 0 <= i < |devices| => Project(devices[i]))
  }

  /** recipient_handle || String(user_id). */
  function Owner(d: StableDevice): string {
    match OrNull(d.recipientHandle)
    case Some(handle) => handle
    case None => if d.userId.Some? then Decimals.Decimal(d.userId.value) else "null"
  }

  /** The result of a.localeCompare(b). */
  type Collation = (string, string) -> int

  function Compare(collate: Collation, a: StableDevice, b: StableDevice): int {
    if Owner(a) != Owner(b) then collate(Owner(a), Owner(b)) else collate(a.deviceId, b.deviceId)
  }

  /** A stable sort puts an element behind everything that does not compare greater. */
  function Insert(collate: Collation, sorted: seq<StableDevice>, d: StableDevice): seq<StableDevice> {
    var n := |sorted| - 1;
    if n < 0 || Compare(collate, sorted[n], d) <= 0 then sorted + [d]
    else Insert(collate, sorted[..n], d) + [sorted[n]]
  }

  function Sort(collate: Collation, s: seq<StableDevice>): seq<StableDevice> {
    if s == [] then [] else Insert(collate, Sort(collate, s[..|s| - 1]), s[|s| - 1])
  }

  function Stable(collate: Collation, devices: seq<Device>): seq<StableDevice> {
    Sort(collate, ProjectAll(devices))
  }

  // ----- a total order on strings orders the devices -----

  ghost predicate TotalOrder(collate: Collation) {
    && (forall a, b :: collate(a, b) == 0 <==> a == b)
    && (forall a, b :: collate(a, b) < 0 <==> collate(b, a) > 0)
    && (forall a, b, c :: collate(a, b) < 0 && collate(b, c) < 0 ==> collate(a, c) < 0)
  }

  predicate SamePlace(a: StableDevice, b: StableDevice) { Owner(a) == Owner(b) && a.deviceId == b.deviceId }

  lemma CompareIsTotal(collate: Collation, a: StableDevice, b: StableDevice)
    requires TotalOrder(collate)
    ensures Compare(collate, a, b) == 0 <==> SamePlace(a, b)
    ensures Compare(collate, a, b) < 0 <==> Compare(collate, b, a) > 0
  {
  }

  lemma CompareIsTransitive(collate: Collation, a: StableDevice, b: StableDevice, c: StableDevice)
    requires TotalOrder(collate)
    requires Compare(collate, a, b) <= 0 && Compare(collate, b, c) <= 0
    ensures Compare(collate, a, c) <= 0
  {
    CompareIsTotal(collate, a, b);
    CompareIsTotal(collate, b, c);
  }

  // ----- the sort -----

  ghost predicate Sorted(collate: Collation, s: seq<StableDevice>) {
    forall i, j :: 0 <= i < j < |s| ==> Compare(collate, s[i], s[j]) <= 0
  }

  lemma {:induction false} InsertContents(collate: Collation, sorted: seq<StableDevice>, d: StableDevice)
    ensures multiset(Insert(collate, sorted, d)) == multiset(sorted) + multiset{d}
  {
    var n := |sorted| - 1;
    if n >= 0 && Compare(collate, sorted[n], d) > 0 {
      InsertContents(collate, sorted[..n], d);
      assert sorted == sorted[..n] + [sorted[n]];
    }
  }

  ghost predicate AllUpTo(collate: Collation, s: seq<StableDevice>, d: StableDevice) {
    forall x :: x in s ==> Compare(collate, x, d) <= 0
  }

  lemma SortedAppend(collate: Collation, s: seq<StableDevice>, d: StableDevice)
    requires Sorted(collate, s) && AllUpTo(collate, s, d)
    ensures Sorted(collate, s + [d])
  {
  }

  lemma LastIsGreatest(collate: Collation, s: seq<StableDevice>, d: StableDevice)
    requires TotalOrder(collate) && Sorted(collate, s) && s != []
    requires Compare(collate, s[|s| - 1], d) <= 0
    ensures AllUpTo(collate, s, d)
  {
    forall x | x in s ensures Compare(collate, x, d) <= 0 {
      var i :| 0 <= i < |s| && s[i] == x;
      if i < |s| - 1 { CompareIsTransitive(collate, x, s[|s| - 1], d); }
    }
  }

  lemma {:induction false} InsertKeepsBound(
    collate: Collation, sorted: seq<StableDevice>, d: StableDevice, bound: StableDevice)
    requires AllUpTo(collate, sorted, bound) && Compare(collate, d, bound) <= 0
    ensures AllUpTo(collate, Insert(collate, sorted, d), bound)
  {
    InsertContents(collate, sorted, d);
    forall x | x in Insert(collate, sorted, d) ensures Compare(collate, x, bound) <= 0 {
      assert x in multiset(Insert(collate, sorted, d));
      assert x == d || x in sorted;
    }
  }

  lemma {:induction false} InsertSorts(collate: Collation, sorted: seq<StableDevice>, d: StableDevice)
    requires TotalOrder(collate) && Sorted(collate, sorted)
    ensures Sorted(collate, Insert(collate, sorted, d))
  {
    var n := |sorted| - 1;
    if n < 0 {
    } else if Compare(collate, sorted[n], d) <= 0 {
      LastIsGreatest(collate, sorted, d);
      SortedAppend(collate, sorted, d);
    } else {
      CompareIsTotal(collate, d, sorted[n]);
      InsertSorts(collate, sorted[..n], d);
      InsertKeepsBound(collate, sorted[..n], d, sorted[n]);
      SortedAppend(collate, Insert(collate, sorted[..n], d), sorted[n]);
    }
  }

  lemma {:induction false} SortIsSortedPermutation(collate: Collation, s: seq<StableDevice>)
    ensures multiset(Sort(collate, s)) == multiset(s)
    ensures TotalOrder(collate) ==> Sorted(collate, Sort(collate, s))
  {
    if s != [] {
      var n := |s| - 1;
      SortIsSortedPermutation(collate, s[..n]);
      InsertContents(collate, Sort(collate, s[..n]), s[n]);
      assert s == s[..n] + [s[n]];
      if TotalOrder(collate) { InsertSorts(collate, Sort(collate, s[..n]), s[n]); }
    }
  }

  /** Owners come in the order of the collation, and the devices of one owner in the order of their device ids. */
  ghost predicate InOrder(collate: Collation, a: StableDevice, b: StableDevice) {
    collate(Owner(a), Owner(b)) < 0 || (Owner(a) == Owner(b) && collate(a.deviceId, b.deviceId) <= 0)
  }

  lemma CompareFollowsOwners(collate: Collation, a: StableDevice, b: StableDevice)
    requires TotalOrder(collate)
    ensures Compare(collate, a, b) <= 0 <==> InOrder(collate, a, b)
  {
  }

  /** The owner of a device: its handle if it has one that is not empty, else its integer user id. */
  lemma OwnerOf(d: Device)
    ensures Owner(Project(d)) ==
              if d.recipientHandle.Some? && d.recipientHandle.value != "" then d.recipientHandle.value
              else if d.userId.Number? then Decimals.Decimal(d.userId.n)
              else if d.userId.Null? then "0" else "null"
  {
    assert Decimals.Decimal(0) == "0";
  }

  /** stableDevices returns the projected devices, all of them, by owner and then by device id. */
  lemma StableIsSortedPermutation(collate: Collation, devices: seq<Device>)
    ensures multiset(Stable(collate, devices)) == multiset(ProjectAll(devices))
    ensures TotalOrder(collate) ==>
              var s := Stable(collate, devices); forall i, j :: 0 <= i < j < |s| ==> InOrder(collate, s[i], s[j])
  {
    SortIsSortedPermutation(collate, ProjectAll(devices));
    if TotalOrder(collate) {
      var s := Stable(collate, devices);
      forall i, j | 0 <= i < j < |s| ensures InOrder(collate, s[i], s[j]) { CompareFollowsOwners(collate, s[i], s[j]); }
    }
  }

  // ----- what the projection keeps -----

  predicate SameText(a: Option<string>, b: Option<string>) { a == b || (OrNull(a).None? && OrNull(b).None?) }

  /** Two user ids that Number() makes the same integer of, or none. */
  predicate SameUser(a: RawUserId, b: RawUserId) {
    || a == b
    || ((a.Null? || a == Number(0)) && (b.Null? || b == Number(0)))
    || ((a.Absent? || a.NotInteger?) && (b.Absent? || b.NotInteger?))
  }

  /** Two devices are projected to the same one exactly when they agree but for empty texts and forms of user_id. */
  lemma ProjectionKeepsTheData(a: Device, b: Device)
    ensures Project(a) == Project(b) <==>
              && SameUser(a.userId, b.userId)
              && SameText(a.recipientHandle, b.recipientHandle) && SameText(a.originDomain, b.originDomain)
              && SameText(a.deviceId, b.deviceId) && a.publicKey == b.publicKey
              && SameText(a.fingerprint, b.fingerprint) && SameText(a.signingPublicKey, b.signingPublicKey)
              && SameText(a.signature, b.signature)
  {
  }

  /** A projected device, as a device. */
  function AsDevice(d: StableDevice): Device {
    Device(if d.userId.Some? then Number(d.userId.value) else Absent, d.recipientHandle, d.originDomain,
           Some(d.deviceId), d.publicKey, d.fingerprint, d.signingPublicKey, d.signature)
  }

  /** What was projected stays what it is. */
  lemma ProjectionIsIdempotent(d: Device)
    ensures Project(AsDevice(Project(d))) == Project(d)
  {
  }

  // ----- independence of the input order -----

  /** No two different projected devices share owner and device id. */
  ghost predicate Distinguished(s: seq<StableDevice>) {
    forall a, b :: a in s && b in s && SamePlace(a, b) ==> a == b
  }

  lemma MultisetWithout<T>(s: seq<T>, k: nat)
    requires k < |s|
    ensures multiset(s[..k] + s[k + 1..]) == multiset(s) - multiset{s[k]}
  {
    assert s == s[..k] + ([s[k]] + s[k + 1..]);
  }

  lemma TailMultiset<T>(s: seq<T>)
    requires s != []
    ensures multiset(s[1..]) == multiset(s) - multiset{s[0]}
  {
    assert s == [s[0]] + s[1..];
  }

  lemma LeastElement(collate: Collation, s: seq<StableDevice>, x: StableDevice)
    requires s != [] && Sorted(collate, s) && x in s && Compare(collate, s[0], s[0]) == 0
    ensures Compare(collate, s[0], x) <= 0
  {
  }

  lemma SameFirst(collate: Collation, s: seq<StableDevice>, t: seq<StableDevice>)
    requires TotalOrder(collate) && Sorted(collate, s) && Sorted(collate, t) && s != [] && t != []
    requires s[0] in t && t[0] in s && Distinguished(s)
    ensures s[0] == t[0]
  {
    CompareIsTotal(collate, s[0], s[0]);
    CompareIsTotal(collate, t[0], t[0]);
    LeastElement(collate, s, t[0]);
    LeastElement(collate, t, s[0]);
    CompareIsTotal(collate, s[0], t[0]);
  }

  lemma SortedTail(collate: Collation, s: seq<StableDevice>)
    requires s != [] && Sorted(collate, s)
    ensures Sorted(collate, s[1..])
  {
  }

  lemma {:induction false} SortedIsUnique(collate: Collation, s: seq<StableDevice>, t: seq<StableDevice>)
    requires TotalOrder(collate) && Sorted(collate, s) && Sorted(collate, t)
    requires multiset(s) == multiset(t) && Distinguished(s)
    ensures s == t
    decreases |s|
  {
    assert |multiset(s)| == |multiset(t)|;
    if s != [] {
      assert s[0] in multiset(t) && t[0] in multiset(s);
      SameFirst(collate, s, t);
      TailMultiset(s);
      TailMultiset(t);
      SortedTail(collate, s);
      SortedTail(collate, t);
      SortedIsUnique(collate, s[1..], t[1..]);
    }
  }

  /** The devices of one place, in their order. */
  function AtPlace(s: seq<StableDevice>, place: StableDevice): seq<StableDevice> {
    if s == [] then []
    else if SamePlace(s[|s| - 1], place) then AtPlace(s[..|s| - 1], place) + [s[|s| - 1]]
    else AtPlace(s[..|s| - 1], place)
  }

  lemma AtPlaceAppend(s: seq<StableDevice>, d: StableDevice, place: StableDevice)
    ensures AtPlace(s + [d], place) == (if SamePlace(d, place) then AtPlace(s, place) + [d] else AtPlace(s, place))
  {
    assert (s + [d])[..|s|] == s;
  }

  lemma {:induction false} InsertAtPlace(
    collate: Collation, sorted: seq<StableDevice>, d: StableDevice, place: StableDevice)
    requires forall a, b :: Compare(collate, a, b) > 0 ==> !SamePlace(a, b)
    ensures AtPlace(Insert(collate, sorted, d), place) == AtPlace(sorted + [d], place)
  {
    var n := |sorted| - 1;
    if n >= 0 && Compare(collate, sorted[n], d) > 0 {
      InsertAtPlace(collate, sorted[..n], d, place);
      AtPlaceAppend(Insert(collate, sorted[..n], d), sorted[n], place);
      AtPlaceAppend(sorted[..n], d, place);
      AtPlaceAppend(sorted, d, place);
    }
  }

  /** The sort is stable: devices of one place keep their order. */
  lemma {:induction false} SortIsStable(collate: Collation, s: seq<StableDevice>, place: StableDevice)
    requires TotalOrder(collate)
    ensures AtPlace(Sort(collate, s), place) == AtPlace(s, place)
  {
    if s != [] {
      var n := |s| - 1;
      SortIsStable(collate, s[..n], place);
      forall a, b | Compare(collate, a, b) > 0 ensures !SamePlace(a, b) { CompareIsTotal(collate, a, b); }
      InsertAtPlace(collate, Sort(collate, s[..n]), s[n], place);
      AtPlaceAppend(Sort(collate, s[..n]), s[n], place);
    }
  }

  lemma EqualAppends<T>(a: seq<T>, x: T, b: seq<T>, y: T)
    requires a + [x] == b + [y]
    ensures a == b && x == y
  {
    assert |a + [x]| == |b + [y]|;
    assert x == (a + [x])[|a|] == (b + [y])[|b|] == y;
    assert a == (a + [x])[..|a|] == (b + [y])[..|b|] == b;
  }

  lemma {:induction false} AtPlaceReadsBack(s: seq<StableDevice>, t: seq<StableDevice>, place: StableDevice, k: nat)
    requires |s| == |t| && forall i :: 0 <= i < |s| ==> SamePlace(s[i], place) == SamePlace(t[i], place)
    requires AtPlace(s, place) == AtPlace(t, place) && k < |s| && SamePlace(s[k], place)
    ensures s[k] == t[k]
    decreases |s|
  {
    var n := |s| - 1;
    if SamePlace(s[n], place) { EqualAppends(AtPlace(s[..n], place), s[n], AtPlace(t[..n], place), t[n]); }
    if k < n { AtPlaceReadsBack(s[..n], t[..n], place, k); }
  }

  /** The devices with numbers i and j exchanged. */
  function Exchanged<T>(s: seq<T>, i: nat, j: nat): seq<T>
    requires i < |s| && j < |s|
  {
    s[i := s[j]][j := s[i]]
  }

  /** Exchanging two devices of one place keeps the places, and changes the device at i. */
  lemma ExchangedPlaces(devices: seq<Device>, i: nat, j: nat)
    requires i < |devices| && j < |devices| && SamePlace(Project(devices[i]), Project(devices[j]))
    ensures var s, t, place := ProjectAll(devices), ProjectAll(Exchanged(devices, i, j)), Project(devices[i]);
            && (forall k :: 0 <= k < |s| ==> SamePlace(s[k], place) == SamePlace(t[k], place))
            && SamePlace(s[i], place) && t[i] == Project(devices[j])
  {
  }

  /** If two different devices share a place, exchanging them changes the result. */
  lemma TiesDependOnOrder(collate: Collation, devices: seq<Device>, i: nat, j: nat)
    requires TotalOrder(collate) && i < |devices| && j < |devices|
    requires SamePlace(Project(devices[i]), Project(devices[j])) && Project(devices[i]) != Project(devices[j])
    ensures Stable(collate, Exchanged(devices, i, j)) != Stable(collate, devices)
  {
    var s, t, place := ProjectAll(devices), ProjectAll(Exchanged(devices, i, j)), Project(devices[i]);
    SortIsStable(collate, s, place);
    SortIsStable(collate, t, place);
    ExchangedPlaces(devices, i, j);
    if AtPlace(s, place) == AtPlace(t, place) { AtPlaceReadsBack(s, t, place, i); }
  }

  lemma {:induction false} ProjectPermutation(a: seq<Device>, b: seq<Device>)
    requires multiset(a) == multiset(b)
    ensures multiset(ProjectAll(a)) == multiset(ProjectAll(b))
    decreases |a|
  {
    assert |multiset(a)| == |multiset(b)|;
    if a != [] {
      assert a[0] in multiset(b);
      var k :| 0 <= k < |b| && b[k] == a[0];
      TailMultiset(a);
      MultisetWithout(b, k);
      ProjectPermutation(a[1..], b[..k] + b[k + 1..]);
      ProjectTail(a);
      ProjectWithout(b, k);
    }
  }

  lemma ProjectTail(s: seq<Device>)
    requires s != []
    ensures multiset(ProjectAll(s)) == multiset(ProjectAll(s[1..])) + multiset{Project(s[0])}
  {
    var p := ProjectAll(s);
    TailMultiset(p);
    assert p[0] in multiset(p);
    assert ProjectAll(s[1..]) == p[1..];
  }

  lemma ProjectWithout(s: seq<Device>, k: nat)
    requires k < |s|
    ensures multiset(ProjectAll(s)) == multiset(ProjectAll(s[..k] + s[k + 1..])) + multiset{Project(s[k])}
  {
    var p := ProjectAll(s);
    MultisetWithout(p, k);
    assert p[k] in multiset(p);
    assert ProjectAll(s[..k] + s[k + 1..]) == p[..k] + p[k + 1..];
  }

  /**
   stableDevices, and with it devicesHash, depends only on the devices and not on
   the order they arrive in, exactly when no two different projected devices have
   the same owner and device id.
   */
  lemma OrderIrrelevantExactlyWithoutTies(collate: Collation, devices: seq<Device>)
    requires TotalOrder(collate)
    ensures (forall other: seq<Device> :: multiset(other) == multiset(devices) ==>
               Stable(collate, other) == Stable(collate, devices))
            <==> Distinguished(ProjectAll(devices))
  {
    var s := ProjectAll(devices);
    if Distinguished(s) {
      forall other: seq<Device> | multiset(other) == multiset(devices)
        ensures Stable(collate, other) == Stable(collate, devices)
      {
        ProjectPermutation(devices, other);
        SortIsSortedPermutation(collate, s);
        SortIsSortedPermutation(collate, ProjectAll(other));
        forall x | x in Stable(collate, devices) ensures x in s { assert x in multiset(s); }
        SortedIsUnique(collate, Stable(collate, devices), Stable(collate, other));
      }
    } else {
      var a, b :| a in s && b in s && SamePlace(a, b) && a != b;
      var i :| 0 <= i < |s| && s[i] == a;
      var j :| 0 <= j < |s| && s[j] == b;
      TiesDependOnOrder(collate, devices, i, j);
    }
  }
}
