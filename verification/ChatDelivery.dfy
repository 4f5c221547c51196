/** Recipients: a device that follows the server's order decrypts every message it was addressed in. */
module ChatDelivery {
  import opened Options
  import opened StableDevices
  import opened ChatModel
  import opened ChatInvariants
  import opened ChatSteps
  import opened ChatTheorems
  import ChatOrigins

  /**
   A receiving browser: its device id, the public half of its key pair, the raw
   keys it holds in memory and the keys it was told do not exist.
   */
  datatype Receiver = Receiver(
    deviceId: string,
    publicKey: PublicKey,
    cache: map<KeyUid, RawKey>,
    unavailable: set<KeyUid>)

  function Find(packages: seq<KeyPackage>, deviceId: string): Option<KeyPackage> {
    if packages == [] then None
    else if packages[0].deviceId == deviceId then Some(packages[0])
    else Find(packages[1..], deviceId)
  }

  /** inlineKeyPackageForDevice: the first package of the payload for this device id. */
  function InlinePackage(m: Message, deviceId: string): Option<KeyPackage> {
    Find(LocalPackages(m.packages) + FederatedPackages(m.packages), deviceId)
  }

  function Decrypt(raw: RawKey, c: Ciphertext): Option<string> {
    if raw == c.key then Some(c.plaintext) else None
  }

  /**
   decryptMessageElement over rawConversationKey, without a server key fetch: the
   server is taken to answer key_not_found, the worst it can do.
   */
  function Receive(r: Receiver, m: Message): (Option<string>, Receiver) {
    if m.uid in r.cache then (Decrypt(r.cache[m.uid], m.cipher), r)
    else if m.uid in r.unavailable then (None, r)
    else
      match InlinePackage(m, r.deviceId)
      case None => (None, r.(unavailable := r.unavailable + {m.uid}))
      case Some(p) =>
        if p.wrapped.publicKey == Some(r.publicKey) then
          (Decrypt(p.wrapped.raw, m.cipher), r.(cache := r.cache[m.uid := p.wrapped.raw]))
        else (None, r)
  }

  function Process(r: Receiver, feed: seq<Message>): Receiver {
    if feed == [] then r else Receive(Process(r, feed[..|feed| - 1]), feed[|feed| - 1]).1
  }

  function MessagesAt(s: State, positions: seq<nat>): (feed: seq<Message>)
    requires forall k :: 0 <= k < |positions| ==> positions[k] < |s.server| && s.server[positions[k]] < |s.messages|
    ensures |feed| == |positions|
  {
    seq(|positions|, k requires 0 <= k < |positions| => s.messages[s.server[positions[k]]])
  }

  /** Increasing positions of the server log below `end` that include every acknowledged message of the key. */
  ghost predicate FollowsKey(s: State, positions: seq<nat>, uid: KeyUid, end: nat) {
    && end <= |s.server|
    && (forall k :: 0 <= k < |positions| ==> positions[k] < end && s.server[positions[k]] < |s.messages|)
    && (forall k, l :: 0 <= k < l < |positions| ==> positions[k] < positions[l])
    && (forall i: nat :: i < end && s.server[i] in s.acked && At(s, i, uid) ==> i in positions)
  }

  ghost predicate DistinctIds(devices: seq<StableDevice>) {
    forall i, j :: 0 <= i < j < |devices| ==> devices[i].deviceId != devices[j].deviceId
  }

  lemma {:induction false} FindHit(packages: seq<KeyPackage>, p: KeyPackage)
    requires p in packages
    requires forall q :: q in packages && q.deviceId == p.deviceId ==> q == p
    ensures Find(packages, p.deviceId) == Some(p)
  {
    if packages[0].deviceId == p.deviceId {
    } else {
      FindHit(packages[1..], p);
    }
  }

  /** In a complete message with distinct device ids, an addressable device finds its own package. */
  lemma OwnPackage(m: Message, k: nat)
    requires Complete(m) && k < |m.devices| && DistinctIds(m.devices)
    requires m.devices[k].userId.Some? || m.devices[k].recipientHandle.Some?
    ensures InlinePackage(m, m.devices[k].deviceId) == Some(WrapForDevice(m.cipher.key, m.devices[k]))
  {
    var p := WrapForDevice(m.cipher.key, m.devices[k]);
    var all := LocalPackages(m.packages) + FederatedPackages(m.packages);
    EveryAddressableDeviceIsCovered(m, k);
    forall q | q in all && q.deviceId == p.deviceId ensures q == p {
      SplitCovers(m.packages, q);
      var j :| 0 <= j < |m.packages| && m.packages[j] == q;
      assert q == WrapForDevice(m.cipher.key, m.devices[j]);
    }
    FindHit(all, p);
  }

  /** After processing messages of the run, the receiver's copy of the key is the real one and was never given up. */
  ghost predicate Holds(s: State, r: Receiver, uid: KeyUid, seen: bool) {
    && uid !in r.unavailable
    && uid in s.born
    && (uid in r.cache <==> seen)
    && (uid in r.cache ==> r.cache[uid] == s.born[uid].raw)
  }

  /** One message, processed by a device that its key was created for. */
  lemma ReceiveHolds(s: State, r: Receiver, uid: KeyUid, seen: bool, m: MessageId, d: StableDevice)
    requires Inv(s) && m < |s.messages| && Holds(s, r, uid, seen)
    requires d in s.born[uid].hash.devices && DistinctIds(s.born[uid].hash.devices)
    requires d.userId.Some? || d.recipientHandle.Some?
    requires d.deviceId == r.deviceId && d.publicKey == Some(r.publicKey)
    requires s.messages[m].uid == uid ==> Complete(s.messages[m]) || seen
    ensures Holds(s, Receive(r, s.messages[m]).1, uid, seen || s.messages[m].uid == uid)
    ensures Receive(r, s.messages[m]).1.deviceId == r.deviceId && Receive(r, s.messages[m]).1.publicKey == r.publicKey
    ensures s.messages[m].uid == uid ==> Receive(r, s.messages[m]).0 == Some(s.messages[m].cipher.plaintext)
  {
    assert MessageOk(s, m);
    if s.messages[m].uid == uid && !seen {
      var k :| 0 <= k < |s.messages[m].devices| && s.messages[m].devices[k] == d;
      OwnPackage(s.messages[m], k);
    }
  }

  /** One of the first `n` positions holds a message of this key. */
  ghost predicate Seen(s: State, positions: seq<nat>, n: nat, uid: KeyUid)
    requires n <= |positions|
  {
    exists k :: 0 <= k < n && At(s, positions[k], uid)
  }

  predicate At(s: State, i: nat, uid: KeyUid) {
    i < |s.server| && s.server[i] < |s.messages| && s.messages[s.server[i]].uid == uid
  }

  lemma ProcessLast(s: State, r: Receiver, positions: seq<nat>, n: nat)
    requires 0 < n <= |positions|
    requires forall k :: 0 <= k < |positions| ==> positions[k] < |s.server| && s.server[positions[k]] < |s.messages|
    ensures Process(r, MessagesAt(s, positions[..n]))
            == Receive(Process(r, MessagesAt(s, positions[..n - 1])), s.messages[s.server[positions[n - 1]]]).1
  {
    var feed := MessagesAt(s, positions[..n]);
    assert feed[..n - 1] == MessagesAt(s, positions[..n - 1]);
  }

  lemma ReceiveNext(
      s: State, r: Receiver, uid: KeyUid, positions: seq<nat>, end: nat, n: nat, d: StableDevice)
    requires Inv(s) && uid in s.born && FollowsKey(s, positions, uid, end) && 0 < n <= |positions|
    requires Holds(s, r, uid, Seen(s, positions, n - 1, uid))
    requires d in s.born[uid].hash.devices && DistinctIds(s.born[uid].hash.devices)
    requires d.userId.Some? || d.recipientHandle.Some?
    requires d.deviceId == r.deviceId && d.publicKey == Some(r.publicKey)
    ensures var r' := Receive(r, s.messages[s.server[positions[n - 1]]]).1;
            && r'.deviceId == r.deviceId && r'.publicKey == r.publicKey
            && Holds(s, r', uid, Seen(s, positions, n, uid))
  {
    var m := s.server[positions[n - 1]];
    if s.messages[m].uid == uid && !Complete(s.messages[m]) {
      CarrierSeen(s, uid, positions, end, n - 1, positions[n - 1]);
    }
    ReceiveHolds(s, r, uid, Seen(s, positions, n - 1, uid), m, d);
    SeenStep(s, positions, n, uid);
  }

  lemma {:induction false} ProcessHolds(
      s: State, r: Receiver, uid: KeyUid, positions: seq<nat>, end: nat, n: nat, d: StableDevice)
    requires Inv(s) && uid in s.born && FollowsKey(s, positions, uid, end) && n <= |positions|
    requires r.cache == map[] && r.unavailable == {}
    requires d in s.born[uid].hash.devices && DistinctIds(s.born[uid].hash.devices)
    requires d.userId.Some? || d.recipientHandle.Some?
    requires d.deviceId == r.deviceId && d.publicKey == Some(r.publicKey)
    ensures var r' := Process(r, MessagesAt(s, positions[..n]));
            && r'.deviceId == r.deviceId && r'.publicKey == r.publicKey
            && Holds(s, r', uid, Seen(s, positions, n, uid))
  {
    if n > 0 {
      ProcessHolds(s, r, uid, positions, end, n - 1, d);
      ProcessLast(s, r, positions, n);
      ReceiveNext(s, Process(r, MessagesAt(s, positions[..n - 1])), uid, positions, end, n, d);
    }
  }

  lemma SeenStep(s: State, positions: seq<nat>, n: nat, uid: KeyUid)
    requires 0 < n <= |positions|
    ensures Seen(s, positions, n, uid) <==> Seen(s, positions, n - 1, uid) || At(s, positions[n - 1], uid)
  {
  }

  /** An incomplete message at position `i` has a complete one of its key among the earlier positions followed. */
  lemma CarrierSeen(s: State, uid: KeyUid, positions: seq<nat>, end: nat, n: nat, i: nat)
    requires Inv(s) && FollowsKey(s, positions, uid, end) && n <= |positions| && i <= end
    requires forall k :: n <= k < |positions| ==> i <= positions[k]
    requires At(s, i, uid) && !Complete(s.messages[s.server[i]])
    ensures Seen(s, positions, n, uid)
  {
    assert CompleteEarlier(s, i);
    var j :| 0 <= j < i && Carries(s, uid, s.server[j]);
    assert At(s, j, uid);
    var k :| 0 <= k < |positions| && positions[k] == j;
    assert At(s, positions[k], uid);
  }

  /**
   End-to-end delivery: take any message the server accepted and any addressable
   device of the list it was encrypted for. If that device, starting from a fresh
   page, has processed the earlier acknowledged messages of that key in the
   server's order, and between them whatever others it liked, it decrypts the
   message to exactly the text that was typed: the content that the event which
   started this send was given, together with that device list.
   */
  lemma DeliveredToEveryDevice(events: seq<Event>, i: nat, k: nat, r: Receiver, positions: seq<nat>)
    requires i < |Run(events).server| && Run(events).server[i] < |Run(events).messages|
    requires var m := Run(events).messages[Run(events).server[i]];
             && k < |m.devices| && DistinctIds(m.devices)
             && (m.devices[k].userId.Some? || m.devices[k].recipientHandle.Some?)
             && m.devices[k].deviceId == r.deviceId && m.devices[k].publicKey == Some(r.publicKey)
             && FollowsKey(Run(events), positions, m.uid, i)
    requires r.cache == map[] && r.unavailable == {}
    ensures var m, origins := Run(events).server[i], ChatOrigins.Origins(events);
            && m < |origins| && origins[m].start < |events| && events[origins[m].start].StartSend?
            && events[origins[m].start].devices == Run(events).messages[m].devices
            && Receive(Process(r, MessagesAt(Run(events), positions)), Run(events).messages[m]).0
               == Some(events[origins[m].start].content)
  {
    ChatOrigins.MessagesCarryWhatWasTyped(events);
    var s := Run(events);
    var m := s.server[i];
    assert ChatOrigins.IsFrom(s.messages[m], ChatOrigins.Origins(events)[m], events);
    var uid := s.messages[m].uid;
    RunKeeps(events);
    assert MessageOk(s, m);
    ProcessHolds(s, r, uid, positions, i, |positions|, s.messages[m].devices[k]);
    assert positions[..|positions|] == positions;
    if !Complete(s.messages[m]) { CarrierSeen(s, uid, positions, i, |positions|, i); }
    ReceiveHolds(s, Process(r, MessagesAt(s, positions)), uid, Seen(s, positions, |positions|, uid), m,
                 s.messages[m].devices[k]);
  }

  /** The server's log only holds pushed messages, so the theorem speaks of every accepted message. */
  lemma AcceptedMessagesWerePushed(events: seq<Event>, i: nat)
    requires i < |Run(events).server|
    ensures Run(events).server[i] < |Run(events).messages|
  {
    RunKeeps(events);
  }
}
