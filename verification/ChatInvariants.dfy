/** What every step of the key lifecycle keeps. */
module ChatInvariants {
  import opened Options
  import opened StableDevices
  import opened ChatModel

  /** One package per stable device, each wrapping the key that encrypted the message. */
  predicate Complete(m: Message) {
    m.packages == WrapAll(m.cipher.key, m.devices)
  }

  predicate Carries(s: State, uid: KeyUid, m: MessageId) {
    m in s.acked && m < |s.messages| && s.messages[m].uid == uid && Complete(s.messages[m])
  }

  /** A package-carrying message of this key was acknowledged before message `bound` was pushed. */
  ghost predicate DistributedBefore(s: State, uid: KeyUid, bound: nat) {
    exists m: MessageId :: m < bound && Carries(s, uid, m)
  }

  ghost predicate Distributed(s: State, uid: KeyUid) { DistributedBefore(s, uid, |s.messages|) }

  ghost predicate Recorded(s: State, uid: KeyUid) {
    exists i :: 0 <= i < |s.records| && s.records[i].uid == uid
  }

  /** The active record has said of this key that its packages were sent. */
  ghost predicate SentRecorded(s: State, uid: KeyUid) {
    exists i :: 0 <= i < |s.records| && s.records[i].uid == uid && s.records[i].sentHash.Some?
  }

  predicate BornAs(s: State, uid: KeyUid, hash: DevicesHash) {
    uid in s.born && s.born[uid].hash == hash
  }

  ghost predicate RecordOk(s: State, r: ActiveRecord) {
    && BornAs(s, r.uid, r.hash)
    && Recorded(s, r.uid)
    && (r.sentHash.Some? ==> r.sentHash.value == r.hash && Distributed(s, r.uid) && SentRecorded(s, r.uid))
  }

  ghost predicate LookupOk(s: State, devices: seq<StableDevice>, key: KeyLookup) {
    && BornAs(s, key.uid, key.hash)
    && Recorded(s, key.uid)
    && key.hash == Sha256(devices)
    && key.raw == s.born[key.uid].raw
    && (key.packagesNeeded || (Distributed(s, key.uid) && SentRecorded(s, key.uid)))
  }

  ghost predicate PackagesOk(s: State, uid: KeyUid, packages: seq<KeyPackage>) {
    && uid in s.born
    && (packages == WrapAll(s.born[uid].raw, s.born[uid].hash.devices)
        || (packages == [] && Distributed(s, uid) && SentRecorded(s, uid)))
  }

  ghost predicate PreparedOk(s: State, p: Prepared) {
    && BornAs(s, p.uid, p.hash)
    && Recorded(s, p.uid)
    && PackagesOk(s, p.uid, p.packages)
  }

  ghost predicate OptionalPreparedOk(s: State, p: Option<Prepared>) { p.Some? ==> PreparedOk(s, p.value) }

  /** A key that is being stored is known to nobody but its creator. */
  ghost predicate Unpublished(s: State, devices: seq<StableDevice>, uid: KeyUid, raw: RawKey) {
    && uid in s.born
    && s.born[uid] == Birth(raw, Sha256(devices))
    && !Recorded(s, uid)
  }

  ghost predicate TaskOk(s: State, task: Task) {
    match task.pc
    case ReadActive(record) => record.Some? ==> RecordOk(s, record.value)
    case LoadedRaw(record, loaded) =>
      && RecordOk(s, record)
      && record.hash == Sha256(task.devices)
      && (loaded.Some? ==> loaded.value == s.born[record.uid].raw)
    case StoringRaw(uid, raw) => Unpublished(s, task.devices, uid, raw)
    case StoringActive(uid, raw) => Unpublished(s, task.devices, uid, raw)
    case StoredActive(uid, raw) =>
      uid in s.born && s.born[uid] == Birth(raw, Sha256(task.devices)) && Recorded(s, uid)
    case Encrypting(key) => LookupOk(s, task.devices, key) && task.kind.Send?
    case AwaitingPrepare(key, _) => LookupOk(s, task.devices, key) && task.kind.Send?
    case Wrapping(key) => LookupOk(s, task.devices, key)
    case Indexing(key, packages) =>
      LookupOk(s, task.devices, key) && PackagesOk(s, key.uid, packages) && task.kind.Send?
    case Pushed(m) => task.kind.Send? && m < |s.messages| && m !in s.acked && m !in s.timedOut
    case Settled(result) => OptionalPreparedOk(s, result)
    case _ => true
  }

  predicate Storing(pc: Pc, uid: KeyUid) {
    (pc.StoringRaw? || pc.StoringActive?) && pc.uid == uid
  }

  /** Each unpublished key has one creator. */
  ghost predicate OneCreator(s: State) {
    forall t, t', uid ::
      t in s.tasks && t' in s.tasks && Storing(s.tasks[t].pc, uid) && Storing(s.tasks[t'].pc, uid) ==> t == t'
  }

  /** Each pushed message has one sender waiting for its reply. */
  ghost predicate OneSender(s: State) {
    forall t, t', m :: t in s.tasks && t' in s.tasks && s.tasks[t].pc == s.tasks[t'].pc == Pushed(m) ==> t == t'
  }

  ghost predicate MarkOk(s: State, mark: Mark) {
    BornAs(s, mark.uid, mark.hash) && Recorded(s, mark.uid) && Distributed(s, mark.uid)
  }

  ghost predicate MessageOk(s: State, m: MessageId)
    requires m < |s.messages|
  {
    var message := s.messages[m];
    && BornAs(s, message.uid, Sha256(message.devices))
    && Recorded(s, message.uid)
    && message.cipher.key == s.born[message.uid].raw
    && (Complete(message) || (message.packages == [] && DistributedBefore(s, message.uid, m)))
    && (message.needed || DistributedBefore(s, message.uid, m))
  }

  /** In the server's order an accepted message without packages follows a complete, acknowledged one of its key. */
  ghost predicate ServerOk(s: State) {
    && (forall i :: 0 <= i < |s.server| ==> s.server[i] < |s.messages|)
    && (forall m :: m in s.acked ==> m in s.server)
    && (forall i {:trigger s.server[i]} :: 0 <= i < |s.server| && !Complete(s.messages[s.server[i]]) ==>
          CompleteEarlier(s, i))
  }

  ghost predicate CompleteEarlier(s: State, i: nat)
    requires i < |s.server|
  {
    s.server[i] < |s.messages|
    && exists j :: 0 <= j < i && Carries(s, s.messages[s.server[i]].uid, s.server[j])
  }

  ghost predicate CacheOk(s: State) {
    forall u :: u in s.cache && u in s.born ==> s.cache[u] == s.born[u].raw
  }

  /** Every value written for a key has the hash it was born with, and sent never reverts to unsent. */
  ghost predicate RecordsOk(s: State) {
    && (forall i :: 0 <= i < |s.records| ==> RecordOk(s, s.records[i]))
    && (forall i, j :: 0 <= i < j < |s.records| && s.records[i].uid == s.records[j].uid ==>
          s.records[j].sentHash.Some?)
  }

  /** What the history alone guarantees. */
  ghost predicate HistoryOk(s: State) {
    && RecordsOk(s)
    && (forall m: nat :: m < |s.messages| ==> MessageOk(s, m))
    && ServerOk(s)
    && s.acked !! s.timedOut
    && (forall m :: m in s.timedOut ==> m < |s.messages|)
  }

  /** What the client's own fields guarantee. */
  ghost predicate ClientOk(s: State) {
    && CacheOk(s)
    && (s.active.Some? ==> RecordOk(s, s.active.value))
    && OptionalPreparedOk(s, s.prepared)
    && (forall t :: t in s.results ==> OptionalPreparedOk(s, s.results[t]))
    && (forall k :: 0 <= k < |s.marks| ==> MarkOk(s, s.marks[k]))
  }

  ghost predicate TasksOk(s: State) {
    && (forall t :: t in s.tasks ==> TaskOk(s, s.tasks[t]))
    && OneCreator(s)
    && OneSender(s)
  }

  ghost predicate Inv(s: State) { HistoryOk(s) && ClientOk(s) && TasksOk(s) }
}
