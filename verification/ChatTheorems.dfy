/** What the key lifecycle guarantees in every interleaving. */
module ChatTheorems {
  import opened Options
  import opened StableDevices
  import opened ChatModel
  import opened ChatInvariants
  import opened ChatSteps

  /**
   Binding: whatever is attached to a message wraps the very key that encrypted
   it, and what is attached is either one package per device of the list the
   message was encrypted for, or nothing.
   */
  lemma PackagesWrapTheMessageKey(events: seq<Event>, m: MessageId)
    requires m < |Run(events).messages|
    ensures var message := Run(events).messages[m];
            && (message.packages == WrapAll(message.cipher.key, message.devices) || message.packages == [])
            && (forall p :: p in message.packages ==> p.wrapped.raw == message.cipher.key)
            && message.uid in Run(events).born
            && Run(events).born[message.uid] == Birth(message.cipher.key, Sha256(message.devices))
  {
    RunKeeps(events);
    assert MessageOk(Run(events), m);
  }

  /**
   A message goes without complete packages only after an earlier message of its
   key carried them and its ok reply was handled; a send that timed out never
   counts.
   */
  lemma OmittedOnlyAfterAcknowledgedSend(events: seq<Event>, m: MessageId)
    requires m < |Run(events).messages|
    requires Run(events).messages[m].packages
             != WrapAll(Run(events).messages[m].cipher.key, Run(events).messages[m].devices)
    ensures exists m0: MessageId :: m0 < m && AcknowledgedCarrier(Run(events), m0, m)
  {
    RunKeeps(events);
    var s := Run(events);
    assert MessageOk(s, m);
    var m0: MessageId :| m0 < m && Carries(s, s.messages[m].uid, m0);
    assert MessageOk(s, m0);
    assert AcknowledgedCarrier(s, m0, m);
  }

  predicate AcknowledgedCarrier(s: State, m0: MessageId, m: MessageId)
    requires m < |s.messages|
  {
    && m0 < |s.messages|
    && m0 in s.acked && m0 !in s.timedOut
    && s.messages[m0].uid == s.messages[m].uid
    && s.messages[m0].devices == s.messages[m].devices
    && s.messages[m0].packages == WrapAll(s.messages[m0].cipher.key, s.messages[m0].devices)
  }

  /**
   A send whose lookup said that packages are needed attaches complete packages,
   unless the active record was marked as sent for its key in the meantime.
   */
  lemma CompleteUnlessMarkedMeanwhile(events: seq<Event>, t: TaskId)
    requires t in Run(events).tasks && Run(events).tasks[t].pc.Indexing?
    requires Run(events).tasks[t].pc.key.packagesNeeded
    requires forall i :: 0 <= i < |Run(events).records| && Run(events).records[i].uid == Run(events).tasks[t].pc.key.uid
               ==> Run(events).records[i].sentHash.None?
    ensures Run(events).tasks[t].pc.packages
            == WrapAll(Run(events).tasks[t].pc.key.raw, Run(events).tasks[t].devices)
  {
    RunKeeps(events);
    assert TaskOk(Run(events), Run(events).tasks[t]);
  }

  /** What encryptMessage compares with its key: the prepared slot, or what the awaited preparation resolved to. */
  function Compared(s: State, t: TaskId): Option<Prepared>
    requires t in s.tasks
  {
    match s.tasks[t].pc
    case Encrypting(_) => s.prepared
    case AwaitingPrepare(_, promise) => if promise in s.results then s.results[promise] else None
    case _ => None
  }

  /**
   Exactly when a send that needs packages attaches complete ones from a matching
   prepared value: when the prepared list is not the empty one kept for a key that
   was already distributed (or there is no device at all).
   */
  lemma CompleteExactlyWhenListIsNotEmpty(events: seq<Event>, t: TaskId, draw: Draw)
    requires t in Run(events).tasks
    requires Run(events).tasks[t].pc.Encrypting? || Run(events).tasks[t].pc.AwaitingPrepare?
    requires Run(events).tasks[t].pc.key.packagesNeeded
    requires Run(events).tasks[t].pc.Encrypting? ==> Run(events).promise.None?
    requires Matches(Compared(Run(events), t), Run(events).tasks[t].pc.key)
    ensures var s := Run(events);
            var pc := Step(s, Advance(t, draw)).tasks[t].pc;
            && pc.Indexing?
            && (pc.packages == WrapAll(s.tasks[t].pc.key.raw, s.tasks[t].devices)
                <==> Compared(s, t).value.packages != [] || s.tasks[t].devices == [])
  {
    RunKeeps(events);
    var s := Run(events);
    assert TaskOk(s, s.tasks[t]);
    assert OptionalPreparedOk(s, Compared(s, t));
  }

  /**
   The active record: all values ever written for a key carry the device hash it
   was created for, a sent mark names that hash, and only a key's first value is
   unsent.
   */
  lemma RecordsOfAKeyAgree(events: seq<Event>, i: nat, j: nat)
    requires i <= j < |Run(events).records|
    requires Run(events).records[i].uid == Run(events).records[j].uid
    ensures var s := Run(events);
            && s.records[i].uid in s.born
            && s.records[i].hash == s.records[j].hash == s.born[s.records[i].uid].hash
            && (s.records[j].sentHash.Some? ==> s.records[j].sentHash.value == s.records[j].hash)
            && (i < j ==> s.records[j].sentHash.Some?)
  {
    RunKeeps(events);
    assert RecordOk(Run(events), Run(events).records[i]) && RecordOk(Run(events), Run(events).records[j]);
  }

  /** Messages encrypted for different stable device lists never share a key uid. */
  lemma ChangedDevicesForceAnotherKey(events: seq<Event>, m: MessageId, n: MessageId)
    requires m < |Run(events).messages| && n < |Run(events).messages|
    requires Run(events).messages[m].devices != Run(events).messages[n].devices
    ensures Run(events).messages[m].uid != Run(events).messages[n].uid
  {
    RunKeeps(events);
    assert MessageOk(Run(events), m) && MessageOk(Run(events), n);
  }

  // ----- the split into local and federated packages -----

  /** A package is put in the payload exactly when it has an integer user_id or a recipient_handle. */
  lemma {:induction false} SplitCovers(packages: seq<KeyPackage>, p: KeyPackage)
    ensures p in LocalPackages(packages) <==> p in packages && p.userId.Some?
    ensures p in FederatedPackages(packages) <==> p in packages && p.recipientHandle.Some?
  {
    if packages != [] {
      assert packages == [packages[0]] + packages[1..];
      SplitCovers(packages[1..], p);
    }
  }

  /**
   Devices without an integer user_id: such a device is put among the local
   packages exactly when its user_id is null, and then as user 0.
   */
  lemma NullUserIdIsAddressedAsUserZero(collate: Collation, raw: RawKey, devices: seq<Device>, d: Device)
    requires d in devices && !d.userId.Number?
    ensures var p := WrapForDevice(raw, Project(d));
            && (p in LocalPackages(WrapAll(raw, Stable(collate, devices))) <==> d.userId.Null?)
            && (d.userId.Null? ==> p.userId == Some(0))
  {
    var stable, p := Stable(collate, devices), WrapForDevice(raw, Project(d));
    StableIsSortedPermutation(collate, devices);
    var i :| 0 <= i < |devices| && devices[i] == d;
    assert ProjectAll(devices)[i] == Project(d);
    assert Project(d) in multiset(stable);
    var k :| 0 <= k < |stable| && stable[k] == Project(d);
    assert WrapAll(raw, stable)[k] == p;
    SplitCovers(WrapAll(raw, stable), p);
  }

  /** A complete message addresses each device of its list that is a local user or a federated recipient. */
  lemma EveryAddressableDeviceIsCovered(m: Message, k: nat)
    requires Complete(m) && k < |m.devices|
    ensures var p := WrapForDevice(m.cipher.key, m.devices[k]);
            (p in LocalPackages(m.packages) || p in FederatedPackages(m.packages))
            <==> (m.devices[k].userId.Some? || m.devices[k].recipientHandle.Some?)
  {
    var p := WrapForDevice(m.cipher.key, m.devices[k]);
    assert m.packages[k] == p;
    SplitCovers(m.packages, p);
  }
}
