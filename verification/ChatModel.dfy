/**
 The key lifecycle of one encrypted conversation, seen from one client, as a
 transition system with one step per `await` segment.

 Cryptography is symbolic: RSA-OAEP and AES-GCM are free constructors, the
 SHA-256 of a device list is injective, and `randomId` draws a key uid that was
 never drawn before. IndexedDB, the server and the scheduler are the environment:
 they choose the events. `Step` is total; an event that is not enabled in a
 state leaves it as it is, so every sequence of events is an interleaving.
 */
module ChatModel {
  import opened Options
  import opened StableDevices

  type KeyUid = string
  type RawKey = nat
  type TaskId = nat
  type MessageId = nat

  /** devicesHash(devices): the digest of the serialised stable device list. */
  datatype DevicesHash = Sha256(devices: seq<StableDevice>)

  datatype WrappedKey = RsaOaep(publicKey: Option<PublicKey>, raw: RawKey)

  datatype Ciphertext = AesGcm(key: RawKey, iv: nat, plaintext: string)

  datatype KeyPackage = KeyPackage(
    userId: Option<int>,
    recipientHandle: Option<string>,
    originDomain: Option<string>,
    deviceId: string,
    wrapped: WrappedKey)

  function WrapForDevice(raw: RawKey, d: StableDevice): KeyPackage {
    KeyPackage(d.userId, d.recipientHandle, d.originDomain, d.deviceId, RsaOaep(d.publicKey, raw))
  }

  /** wrapConversationKey: one package per stable device, in their order. */
  function WrapAll(raw: RawKey, devices: seq<StableDevice>): (packages: seq<KeyPackage>)
    ensures |packages| == |devices|
  {
    seq(|devices|, i requires 0 <= i < |devices| => WrapForDevice(raw, devices[i]))
  }

  /** importRsaPublicKey throws for a missing or foreign public key. */
  predicate AllImportable(devices: seq<StableDevice>) {
    forall i :: 0 <= i < |devices| ==> devices[i].publicKey.Some?
  }

  /** The persistent active-key record of the conversation. */
  datatype ActiveRecord = ActiveRecord(uid: KeyUid, hash: DevicesHash, sentHash: Option<DevicesHash>)

  /** What conversationKeyForDevices returns. */
  datatype KeyLookup = KeyLookup(uid: KeyUid, raw: RawKey, packagesNeeded: bool, hash: DevicesHash)

  /** The preparedConversationKey slot. */
  datatype Prepared = Prepared(uid: KeyUid, hash: DevicesHash, packages: seq<KeyPackage>)

  datatype Kind = Send(content: string) | Prepare

  /** Where an asynchronous call stands: the await it is suspended in, and the locals it still needs. */
  datatype Pc =
    | Trusting
    | Hashing
    | ReadingActive
    | ReadActive(record: Option<ActiveRecord>)
    | LoadedRaw(matched: ActiveRecord, loaded: Option<RawKey>)
    | StoringRaw(uid: KeyUid, raw: RawKey)
    | StoringActive(uid: KeyUid, raw: RawKey)
    | StoredActive(uid: KeyUid, raw: RawKey)
    | Encrypting(key: KeyLookup)
    | AwaitingPrepare(key: KeyLookup, promise: TaskId)
    | Wrapping(key: KeyLookup)
    | Indexing(key: KeyLookup, packages: seq<KeyPackage>)
    | Pushed(message: MessageId)
    | Settled(result: Option<Prepared>)
    | Finished

  datatype Task = Task(kind: Kind, devices: seq<StableDevice>, pc: Pc)

  /** A pushed message; `devices` is the list it was encrypted for. */
  datatype Message = Message(
    uid: KeyUid,
    cipher: Ciphertext,
    packages: seq<KeyPackage>,
    devices: seq<StableDevice>,
    needed: bool)

  /** localKeyPackages: the packages with an integer user_id. */
  function LocalPackages(packages: seq<KeyPackage>): seq<KeyPackage> {
    if packages == [] then []
    else (if packages[0].userId.Some? then [packages[0]] else []) + LocalPackages(packages[1..])
  }

  /** federatedKeyPackages: the packages with a recipient_handle. */
  function FederatedPackages(packages: seq<KeyPackage>): seq<KeyPackage> {
    if packages == [] then []
    else (if packages[0].recipientHandle.Some? then [packages[0]] else []) + FederatedPackages(packages[1..])
  }

  /** The key as it was created: the raw bytes and the device list it was created for. */
  datatype Birth = Birth(raw: RawKey, hash: DevicesHash)

  /** A packages-sent write that was issued but has not reached storage. */
  datatype Mark = Mark(uid: KeyUid, hash: DevicesHash)

  /**
   The client. `active` survives a reload; `cache`, `prepared`, `promise`,
   `tasks`, `results` and `marks` do not. `born`, `records`, `messages`,
   `server` and `acked` are history: keys created here, values written to the
   active record, messages pushed, messages accepted by the server in its order,
   messages whose ok reply was handled, and messages whose send timed out first.
   */
  datatype State = State(
    active: Option<ActiveRecord>,
    cache: map<KeyUid, RawKey>,
    prepared: Option<Prepared>,
    promise: Option<TaskId>,
    tasks: map<TaskId, Task>,
    results: map<TaskId, Option<Prepared>>,
    marks: seq<Mark>,
    born: map<KeyUid, Birth>,
    records: seq<ActiveRecord>,
    messages: seq<Message>,
    server: seq<MessageId>,
    acked: set<MessageId>,
    timedOut: set<MessageId>)

  const INIT := State(None, map[], None, None, map[], map[], [], map[], [], [], [], {}, {})

  /** The random values a segment draws, if it draws any. */
  datatype Draw = Draw(uid: KeyUid, raw: RawKey, iv: nat)

  datatype Event =
    | StartSend(task: TaskId, content: string, devices: seq<StableDevice>)
    | StartPrepare(task: TaskId, devices: seq<StableDevice>)
    | Advance(task: TaskId, draw: Draw)
    | Fail(task: TaskId)
    | Timeout(task: TaskId)
    | ServerAccept(message: MessageId)
    | Reply(task: TaskId, ok: bool)
    | WriteMark(mark: nat)
    | LoseMark(mark: nat)
    | DisableEncryption
    | UnwrapInline(message: MessageId, device: nat)
    | ForeignKey(uid: KeyUid, raw: RawKey)
    | Reload

  function SetPc(s: State, t: TaskId, pc: Pc): State
    requires t in s.tasks
  {
    s.(tasks := s.tasks[t := s.tasks[t].(pc := pc)])
  }

  predicate Matches(p: Option<Prepared>, key: KeyLookup) {
    p.Some? && p.value.uid == key.uid && p.value.hash == key.hash
  }

  /** The tail of conversationKeyForDevices that creates a key: the cache is set before the first await. */
  function CreateKey(s: State, t: TaskId, draw: Draw): State
    requires t in s.tasks
  {
    if draw.uid in s.born || draw.uid in s.cache then s
    else SetPc(s.(cache := s.cache[draw.uid := draw.raw],
                  born := s.born[draw.uid := Birth(draw.raw, Sha256(s.tasks[t].devices))]),
               t, StoringRaw(draw.uid, draw.raw))
  }

  /** The segment that starts when conversationKeyForDevices returns to its caller. */
  function WithKey(s: State, t: TaskId, key: KeyLookup): State
    requires t in s.tasks
  {
    if s.tasks[t].kind.Send? then SetPc(s, t, Encrypting(key))
    else if !key.packagesNeeded then
      var p := Some(Prepared(key.uid, key.hash, []));
      SetPc(s.(prepared := p), t, Settled(p))
    else if Matches(s.prepared, key) then SetPc(s, t, Settled(s.prepared))
    else SetPc(s, t, Wrapping(key))
  }

  /** encryptMessage once it knows which prepared value to compare with. */
  function Decide(s: State, t: TaskId, key: KeyLookup, p: Option<Prepared>): State
    requires t in s.tasks
  {
    if Matches(p, key) then SetPc(s, t, Indexing(key, p.value.packages)) else SetPc(s, t, Wrapping(key))
  }

  function Encrypted(s: State, t: TaskId, key: KeyLookup): State
    requires t in s.tasks
  {
    if !key.packagesNeeded then SetPc(s, t, Indexing(key, []))
    else if s.promise.Some? then SetPc(s, t, AwaitingPrepare(key, s.promise.value))
    else Decide(s, t, key, s.prepared)
  }

  function Wrapped(s: State, t: TaskId, key: KeyLookup): State
    requires t in s.tasks
  {
    if !AllImportable(s.tasks[t].devices) then Failed(s, t)
    else
      var p := Prepared(key.uid, key.hash, WrapAll(key.raw, s.tasks[t].devices));
      SetPc(s.(prepared := Some(p)), t,
            if s.tasks[t].kind.Send? then Indexing(key, p.packages) else Settled(Some(p)))
  }

  /** handleSubmit pushes the encrypted message. */
  function Push(s: State, t: TaskId, key: KeyLookup, packages: seq<KeyPackage>, iv: nat): State
    requires t in s.tasks && s.tasks[t].kind.Send?
  {
    var task := s.tasks[t];
    var m := Message(key.uid, AesGcm(key.raw, iv, task.kind.content), packages, task.devices, key.packagesNeeded);
    SetPc(s.(messages := s.messages + [m]), t, Pushed(|s.messages|))
  }

  /** A rejected await: encryptMessage gives up, the preparation resolves to null. */
  function Failed(s: State, t: TaskId): State
    requires t in s.tasks
  {
    SetPc(s, t, if s.tasks[t].kind.Send? then Finished else Settled(None))
  }

  /** The finally block of the preparation, after which its awaiters resume. */
  function Finally(s: State, t: TaskId, result: Option<Prepared>): State
    requires t in s.tasks
  {
    SetPc(s.(promise := None, results := s.results[t := result]), t, Finished)
  }

  function WriteActive(s: State, r: ActiveRecord): State {
    s.(active := Some(r), records := s.records + [r])
  }

  function AdvanceTask(s: State, t: TaskId, draw: Draw): State
    requires t in s.tasks
  {
    var task := s.tasks[t];
    var hash := Sha256(task.devices);
    match task.pc
    case Trusting => SetPc(s, t, Hashing)
    case Hashing => SetPc(s, t, ReadingActive)
    case ReadingActive => SetPc(s, t, ReadActive(s.active))
    case ReadActive(record) =>
      if record.Some? && record.value.hash == hash then
        SetPc(s, t, LoadedRaw(record.value,
                              if record.value.uid in s.cache then Some(s.cache[record.value.uid]) else None))
      else CreateKey(s, t, draw)
    case LoadedRaw(record, loaded) =>
      if loaded.Some? then
        WithKey(s, t, KeyLookup(record.uid, loaded.value, record.sentHash != Some(hash), hash))
      else CreateKey(s, t, draw)
    case StoringRaw(uid, raw) => SetPc(s, t, StoringActive(uid, raw))
    case StoringActive(uid, raw) => SetPc(WriteActive(s, ActiveRecord(uid, hash, None)), t, StoredActive(uid, raw))
    case StoredActive(uid, raw) => WithKey(s, t, KeyLookup(uid, raw, true, hash))
    case Encrypting(key) => Encrypted(s, t, key)
    case AwaitingPrepare(key, promise) => if promise in s.results then Decide(s, t, key, s.results[promise]) else s
    case Wrapping(key) => Wrapped(s, t, key)
    case Indexing(key, packages) => if task.kind.Send? then Push(s, t, key, packages, draw.iv) else s
    case Settled(result) => Finally(s, t, result)
    case Pushed(_) => s
    case Finished => s
  }

  predicate Suspended(pc: Pc) { !pc.Pushed? && !pc.Settled? && !pc.Finished? }

  /** The reply handler: a reply after the timeout is ignored; an ok reply marks the packages as sent. */
  function ReplyTo(s: State, t: TaskId, ok: bool): State
    requires t in s.tasks && s.tasks[t].pc.Pushed?
  {
    var m := s.tasks[t].pc.message;
    var s' := SetPc(s, t, Finished);
    if !ok then s'
    else if m !in s.server || m >= |s.messages| then s
    else
      var message := s.messages[m];
      s'.(acked := s.acked + {m},
          marks := if message.needed then s.marks + [Mark(message.uid, Sha256(message.devices))] else s.marks)
  }

  function DropMark(s: State, k: nat): State
    requires k < |s.marks|
  {
    s.(marks := s.marks[..k] + s.marks[k + 1..])
  }

  function Step(s: State, e: Event): State {
    match e
    case StartSend(t, content, devices) =>
      if t in s.tasks then s else s.(tasks := s.tasks[t := Task(Send(content), devices, Trusting)])
    case StartPrepare(t, devices) =>
      if t in s.tasks || s.promise.Some? then s
      else s.(tasks := s.tasks[t := Task(Prepare, devices, Trusting)], promise := Some(t))
    case Advance(t, draw) => if t in s.tasks then AdvanceTask(s, t, draw) else s
    case Fail(t) => if t in s.tasks && Suspended(s.tasks[t].pc) then Failed(s, t) else s
    case Timeout(t) =>
      if t in s.tasks && s.tasks[t].pc.Pushed? then
        SetPc(s.(timedOut := s.timedOut + {s.tasks[t].pc.message}), t, Finished)
      else s
    case ServerAccept(m) =>
      if m < |s.messages| && m !in s.server then s.(server := s.server + [m]) else s
    case Reply(t, ok) => if t in s.tasks && s.tasks[t].pc.Pushed? then ReplyTo(s, t, ok) else s
    case WriteMark(k) =>
      if k < |s.marks| then
        var mark := s.marks[k];
        WriteActive(DropMark(s, k), ActiveRecord(mark.uid, mark.hash, Some(mark.hash)))
      else s
    case LoseMark(k) => if k < |s.marks| then DropMark(s, k) else s
    case DisableEncryption => s.(prepared := None)
    case UnwrapInline(m, i) =>
      if m < |s.messages| && i < |s.messages[m].packages| then
        s.(cache := s.cache[s.messages[m].uid := s.messages[m].packages[i].wrapped.raw])
      else s
    case ForeignKey(uid, raw) => if uid in s.born then s else s.(cache := s.cache[uid := raw])
    case Reload =>
      s.(cache := map[], prepared := None, promise := None, tasks := map[], results := map[], marks := [])
  }

  /** Any finite history of the client. */
  function Run(events: seq<Event>): State {
    if events == [] then INIT else Step(Run(events[..|events| - 1]), events[|events| - 1])
  }

  lemma RunAppend(events: seq<Event>, e: Event)
    ensures Run(events + [e]) == Step(Run(events), e)
  {
    assert (events + [e])[..|events|] == events;
  }

  ghost predicate Reachable(s: State) { exists events :: Run(events) == s }

  lemma StepReaches(s: State, e: Event, s': State)
    requires Reachable(s) && Step(s, e) == s'
    ensures Reachable(s')
  {
    var events :| Run(events) == s;
    RunAppend(events, e);
    assert Run(events + [e]) == s';
  }
}
