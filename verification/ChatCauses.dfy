/**
 Why a message can leave without the packages it needs: only because a preparation
 looked its key up after the key was marked as sent.
 */
module ChatCauses {
  import opened Options
  import opened StableDevices
  import opened ChatModel
  import ChatTheorems

  /** A key and the stable device list it is used for. */
  datatype Use = Use(uid: KeyUid, devices: seq<StableDevice>)

  /** The preparation has the raw key of a record that is marked as sent for its devices. */
  predicate FindsMarkedKey(task: Task) {
    && task.kind.Prepare? && task.pc.LoadedRaw? && task.pc.loaded.Some?
    && task.pc.matched.sentHash == Some(Sha256(task.devices))
  }

  /** The uses for which an event makes a preparation keep the empty list. */
  function NewCauses(s: State, e: Event): set<Use> {
    if e.Advance? && e.task in s.tasks && FindsMarkedKey(s.tasks[e.task]) then
      {Use(s.tasks[e.task].pc.matched.uid, s.tasks[e.task].devices)}
    else {}
  }

  function Causes(events: seq<Event>): set<Use> {
    if events == [] then {}
    else
      var init := events[..|events| - 1];
      Causes(init) + NewCauses(Run(init), events[|events| - 1])
  }

  // ----- the invariant: whatever is empty has a cause -----

  predicate ListCaused(uid: KeyUid, devices: seq<StableDevice>, packages: seq<KeyPackage>, c: set<Use>) {
    packages == [] && devices != [] ==> Use(uid, devices) in c
  }

  predicate PreparedCaused(p: Option<Prepared>, c: set<Use>) {
    p.Some? ==> ListCaused(p.value.uid, p.value.hash.devices, p.value.packages, c)
  }

  predicate TaskCaused(task: Task, c: set<Use>) {
    match task.pc
    case Encrypting(key) => key.hash == Sha256(task.devices)
    case AwaitingPrepare(key, _) => key.hash == Sha256(task.devices) && key.packagesNeeded
    case Wrapping(key) => key.hash == Sha256(task.devices) && key.packagesNeeded
    case Indexing(key, packages) =>
      && key.hash == Sha256(task.devices)
      && (if key.packagesNeeded then ListCaused(key.uid, task.devices, packages, c) else packages == [])
    case Settled(result) => PreparedCaused(result, c)
    case _ => true
  }

  predicate MessageCaused(m: Message, c: set<Use>) {
    if m.needed then ListCaused(m.uid, m.devices, m.packages, c) else m.packages == []
  }

  ghost predicate TasksCaused(tasks: map<TaskId, Task>, c: set<Use>) {
    forall t :: t in tasks ==> TaskCaused(tasks[t], c)
  }

  ghost predicate ResultsCaused(results: map<TaskId, Option<Prepared>>, c: set<Use>) {
    forall t :: t in results ==> PreparedCaused(results[t], c)
  }

  ghost predicate MessagesCaused(messages: seq<Message>, c: set<Use>) {
    forall m :: 0 <= m < |messages| ==> MessageCaused(messages[m], c)
  }

  ghost predicate AllCaused(s: State, c: set<Use>) {
    && PreparedCaused(s.prepared, c) && TasksCaused(s.tasks, c)
    && ResultsCaused(s.results, c) && MessagesCaused(s.messages, c)
  }

  lemma MoreCauses(s: State, c: set<Use>, more: set<Use>)
    requires AllCaused(s, c)
    ensures AllCaused(s, c + more)
  {
    forall t | t in s.tasks ensures TaskCaused(s.tasks[t], c + more) { assert TaskCaused(s.tasks[t], c); }
    forall m | 0 <= m < |s.messages| ensures MessageCaused(s.messages[m], c + more) {
      assert MessageCaused(s.messages[m], c);
    }
  }

  /** A task moves on; cache, records and marks play no part. */
  lemma SetPcCaused(s: State, s': State, t: TaskId, pc: Pc, c: set<Use>)
    requires AllCaused(s, c) && t in s.tasks && TaskCaused(s.tasks[t].(pc := pc), c)
    requires s'.tasks == s.tasks[t := s.tasks[t].(pc := pc)]
    requires s'.results == s.results && s'.messages == s.messages && PreparedCaused(s'.prepared, c)
    ensures AllCaused(s', c)
  {
  }

  lemma CreateKeyCaused(s: State, t: TaskId, draw: Draw, c: set<Use>)
    requires AllCaused(s, c) && t in s.tasks
    ensures AllCaused(CreateKey(s, t, draw), c)
  {
    if draw.uid !in s.born && draw.uid !in s.cache {
      SetPcCaused(s, CreateKey(s, t, draw), t, StoringRaw(draw.uid, draw.raw), c);
    }
  }

  lemma WithKeyCaused(s: State, t: TaskId, key: KeyLookup, c: set<Use>)
    requires AllCaused(s, c) && t in s.tasks && key.hash == Sha256(s.tasks[t].devices)
    requires s.tasks[t].kind.Prepare? && !key.packagesNeeded ==> Use(key.uid, s.tasks[t].devices) in c
    ensures AllCaused(WithKey(s, t, key), c)
  {
    var s' := WithKey(s, t, key);
    SetPcCaused(s, s', t, s'.tasks[t].pc, c);
  }

  lemma DecideCaused(s: State, t: TaskId, key: KeyLookup, p: Option<Prepared>, c: set<Use>)
    requires AllCaused(s, c) && t in s.tasks && key.hash == Sha256(s.tasks[t].devices) && PreparedCaused(p, c)
    requires key.packagesNeeded
    ensures AllCaused(Decide(s, t, key, p), c)
  {
    SetPcCaused(s, Decide(s, t, key, p), t, Decide(s, t, key, p).tasks[t].pc, c);
  }

  lemma WrappedCaused(s: State, t: TaskId, key: KeyLookup, c: set<Use>)
    requires AllCaused(s, c) && t in s.tasks && key.hash == Sha256(s.tasks[t].devices) && key.packagesNeeded
    ensures AllCaused(Wrapped(s, t, key), c)
  {
    var s' := Wrapped(s, t, key);
    assert |WrapAll(key.raw, s.tasks[t].devices)| == |s.tasks[t].devices|;
    SetPcCaused(s, s', t, s'.tasks[t].pc, c);
  }

  lemma PushCaused(s: State, t: TaskId, key: KeyLookup, packages: seq<KeyPackage>, iv: nat, c: set<Use>)
    requires AllCaused(s, c) && t in s.tasks && s.tasks[t].kind.Send?
    requires if key.packagesNeeded then ListCaused(key.uid, s.tasks[t].devices, packages, c) else packages == []
    ensures AllCaused(Push(s, t, key, packages, iv), c)
  {
    SetPcCaused(s, SetPc(s, t, Pushed(|s.messages|)), t, Pushed(|s.messages|), c);
  }

  lemma FinallyCaused(s: State, t: TaskId, result: Option<Prepared>, c: set<Use>)
    requires AllCaused(s, c) && t in s.tasks && PreparedCaused(result, c)
    ensures AllCaused(Finally(s, t, result), c)
  {
    SetPcCaused(s, SetPc(s, t, Finished), t, Finished, c);
  }

  lemma EncryptedCaused(s: State, t: TaskId, key: KeyLookup, c: set<Use>)
    requires AllCaused(s, c) && t in s.tasks && key.hash == Sha256(s.tasks[t].devices)
    ensures AllCaused(Encrypted(s, t, key), c)
  {
    if key.packagesNeeded && s.promise.None? {
      DecideCaused(s, t, key, s.prepared, c);
    } else {
      SetPcCaused(s, Encrypted(s, t, key), t, Encrypted(s, t, key).tasks[t].pc, c);
    }
  }

  lemma LookupCaused(s: State, t: TaskId, draw: Draw, c: set<Use>)
    requires AllCaused(s, c) && t in s.tasks && s.tasks[t].pc.LoadedRaw?
    ensures AllCaused(AdvanceTask(s, t, draw), c + NewCauses(s, Advance(t, draw)))
  {
    MoreCauses(s, c, NewCauses(s, Advance(t, draw)));
    var pc, hash, c' := s.tasks[t].pc, Sha256(s.tasks[t].devices), c + NewCauses(s, Advance(t, draw));
    if pc.loaded.Some? {
      WithKeyCaused(s, t, KeyLookup(pc.matched.uid, pc.loaded.value, pc.matched.sentHash != Some(hash), hash), c');
    } else {
      CreateKeyCaused(s, t, draw, c');
    }
  }

  /** The segments that only store or read. */
  lemma StorageCaused(s: State, t: TaskId, draw: Draw, c: set<Use>)
    requires AllCaused(s, c) && t in s.tasks
    requires var pc := s.tasks[t].pc;
             pc.Trusting? || pc.Hashing? || pc.ReadingActive? || pc.ReadActive? || pc.StoringRaw? || pc.StoringActive?
    ensures AllCaused(AdvanceTask(s, t, draw), c)
  {
    CreateKeyCaused(s, t, draw, c);
    var s' := AdvanceTask(s, t, draw);
    if s' != CreateKey(s, t, draw) { SetPcCaused(s, s', t, s'.tasks[t].pc, c); }
  }

  lemma AdvanceCaused(s: State, t: TaskId, draw: Draw, c: set<Use>)
    requires AllCaused(s, c) && t in s.tasks && !s.tasks[t].pc.LoadedRaw?
    ensures AllCaused(AdvanceTask(s, t, draw), c)
  {
    var task := s.tasks[t];
    assert TaskCaused(task, c);
    match task.pc
    case StoredActive(uid, raw) => WithKeyCaused(s, t, KeyLookup(uid, raw, true, Sha256(task.devices)), c);
    case Encrypting(key) => EncryptedCaused(s, t, key, c);
    case AwaitingPrepare(key, promise) =>
      if promise in s.results { DecideCaused(s, t, key, s.results[promise], c); }
    case Wrapping(key) => WrappedCaused(s, t, key, c);
    case Indexing(key, packages) => if task.kind.Send? { PushCaused(s, t, key, packages, draw.iv, c); }
    case Settled(result) => FinallyCaused(s, t, result, c);
    case Pushed(_) =>
    case Finished =>
    case _ => StorageCaused(s, t, draw, c);
  }

  lemma ReplyCaused(s: State, t: TaskId, ok: bool, c: set<Use>)
    requires AllCaused(s, c) && t in s.tasks && s.tasks[t].pc.Pushed?
    ensures AllCaused(ReplyTo(s, t, ok), c)
  {
    SetPcCaused(s, SetPc(s, t, Finished), t, Finished, c);
  }

  /** The events other than the segments of a call. */
  lemma OtherCaused(s: State, e: Event, c: set<Use>)
    requires AllCaused(s, c) && !e.Advance? && !e.Reply?
    ensures AllCaused(Step(s, e), c)
  {
  }

  lemma StepCaused(s: State, e: Event, c: set<Use>)
    requires AllCaused(s, c)
    ensures AllCaused(Step(s, e), c + NewCauses(s, e))
  {
    if e.Advance? && e.task in s.tasks && s.tasks[e.task].pc.LoadedRaw? {
      LookupCaused(s, e.task, e.draw, c);
    } else {
      if e.Advance? {
        if e.task in s.tasks { AdvanceCaused(s, e.task, e.draw, c); }
      } else if e.Reply? {
        if e.task in s.tasks && s.tasks[e.task].pc.Pushed? { ReplyCaused(s, e.task, e.ok, c); }
      } else {
        OtherCaused(s, e, c);
      }
      MoreCauses(Step(s, e), c, NewCauses(s, e));
    }
  }

  lemma {:induction false} RunCaused(events: seq<Event>)
    ensures AllCaused(Run(events), Causes(events))
  {
    if events != [] {
      var init := events[..|events| - 1];
      RunCaused(init);
      StepCaused(Run(init), events[|events| - 1], Causes(init));
    }
  }

  /** Event k let a preparation that found the key marked as sent for these devices go on. */
  predicate IsCause(events: seq<Event>, k: nat, use: Use) {
    k < |events| && use in NewCauses(Run(events[..k]), events[k])
  }

  lemma EarlierCause(events: seq<Event>, n: nat, k: nat, use: Use)
    requires n <= |events| && IsCause(events[..n], k, use)
    ensures IsCause(events, k, use)
  {
    assert events[..n][..k] == events[..k];
  }

  lemma {:induction false} CausesHappened(events: seq<Event>, use: Use)
    requires use in Causes(events)
    ensures exists k: nat :: IsCause(events, k, use)
  {
    var n := |events| - 1;
    if use in NewCauses(Run(events[..n]), events[n]) {
      assert IsCause(events, n, use);
    } else {
      CausesHappened(events[..n], use);
      var k: nat :| IsCause(events[..n], k, use);
      EarlierCause(events, n, k, use);
    }
  }

  /**
   The empty list has one cause. In every run, if a message that needed packages
   for some device left with none, then earlier a preparation of the same key and
   device list had loaded the key together with a record that was already marked
   as sent for that list.
   */
  lemma MissingPackagesHaveACause(events: seq<Event>, m: MessageId)
    requires m < |Run(events).messages|
    requires var message := Run(events).messages[m];
             message.needed && message.devices != [] && message.packages == []
    ensures exists k: nat :: IsCause(events, k, Use(Run(events).messages[m].uid, Run(events).messages[m].devices))
  {
    RunCaused(events);
    assert MessageCaused(Run(events).messages[m], Causes(events));
    CausesHappened(events, Use(Run(events).messages[m].uid, Run(events).messages[m].devices));
  }

  /**
   So as long as no preparation found a key marked as sent, every message that
   needed packages carries one for each device of its list.
   */
  lemma PackagesAreCompleteWithoutCause(events: seq<Event>, m: MessageId)
    requires m < |Run(events).messages| && Run(events).messages[m].needed
    requires forall k: nat :: !IsCause(events, k, Use(Run(events).messages[m].uid, Run(events).messages[m].devices))
    ensures Run(events).messages[m].packages
            == WrapAll(Run(events).messages[m].cipher.key, Run(events).messages[m].devices)
  {
    ChatTheorems.PackagesWrapTheMessageKey(events, m);
    var message := Run(events).messages[m];
    if message.packages == [] && message.devices != [] {
      MissingPackagesHaveACause(events, m);
    }
    assert message.devices == [] ==> WrapAll(message.cipher.key, message.devices) == [];
  }

  /** A message that needs no packages carries none. */
  lemma NoPackagesWithoutNeed(events: seq<Event>, m: MessageId)
    requires m < |Run(events).messages| && !Run(events).messages[m].needed
    ensures Run(events).messages[m].packages == []
  {
    RunCaused(events);
    assert MessageCaused(Run(events).messages[m], Causes(events));
  }
}
