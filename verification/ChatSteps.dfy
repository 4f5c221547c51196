/** Every step of the key lifecycle keeps `Inv`. */
module ChatSteps {
  import opened Options
  import opened StableDevices
  import opened ChatModel
  import opened ChatInvariants

  /** The history only grows. */
  ghost predicate Grows(s: State, s': State) {
    && (forall u :: u in s.born ==> u in s'.born && s'.born[u] == s.born[u])
    && s.records <= s'.records
    && s.messages <= s'.messages
    && s.acked <= s'.acked
  }

  predicate SameReplies(s: State, s': State) { s'.acked == s.acked && s'.timedOut == s.timedOut }

  lemma DistributedGrows(s: State, s': State, uid: KeyUid, bound: nat)
    requires Grows(s, s') && DistributedBefore(s, uid, bound)
    ensures DistributedBefore(s', uid, bound)
    ensures Distributed(s', uid)
  {
    var m: MessageId :| m < bound && Carries(s, uid, m);
    assert Carries(s', uid, m);
  }

  lemma RecordedGrows(s: State, s': State, uid: KeyUid)
    requires Grows(s, s') && Recorded(s, uid)
    ensures Recorded(s', uid)
  {
    var i :| 0 <= i < |s.records| && s.records[i].uid == uid;
    assert s'.records[i].uid == uid;
  }

  lemma SentGrows(s: State, s': State, uid: KeyUid)
    requires Grows(s, s') && SentRecorded(s, uid)
    ensures SentRecorded(s', uid)
  {
    var i :| 0 <= i < |s.records| && s.records[i].uid == uid && s.records[i].sentHash.Some?;
    assert s'.records[i] == s.records[i];
  }

  lemma RecordGrows(s: State, s': State, r: ActiveRecord)
    requires Grows(s, s') && RecordOk(s, r)
    ensures RecordOk(s', r)
  {
    RecordedGrows(s, s', r.uid);
    if r.sentHash.Some? { DistributedGrows(s, s', r.uid, |s.messages|); SentGrows(s, s', r.uid); }
  }

  lemma LookupGrows(s: State, s': State, devices: seq<StableDevice>, key: KeyLookup)
    requires Grows(s, s') && LookupOk(s, devices, key)
    ensures LookupOk(s', devices, key)
  {
    RecordedGrows(s, s', key.uid);
    if !key.packagesNeeded { DistributedGrows(s, s', key.uid, |s.messages|); SentGrows(s, s', key.uid); }
  }

  lemma PackagesGrow(s: State, s': State, uid: KeyUid, packages: seq<KeyPackage>)
    requires Grows(s, s') && PackagesOk(s, uid, packages)
    ensures PackagesOk(s', uid, packages)
  {
    if Distributed(s, uid) { DistributedGrows(s, s', uid, |s.messages|); }
    if SentRecorded(s, uid) { SentGrows(s, s', uid); }
  }

  lemma PreparedGrows(s: State, s': State, p: Prepared)
    requires Grows(s, s') && PreparedOk(s, p)
    ensures PreparedOk(s', p)
  {
    RecordedGrows(s, s', p.uid);
    PackagesGrow(s, s', p.uid, p.packages);
  }

  lemma MessageGrows(s: State, s': State, m: MessageId)
    requires Grows(s, s') && m < |s.messages| && MessageOk(s, m)
    ensures m < |s'.messages| && MessageOk(s', m)
  {
    assert s'.messages[m] == s.messages[m];
    RecordedGrows(s, s', s.messages[m].uid);
    if DistributedBefore(s, s.messages[m].uid, m) { DistributedGrows(s, s', s.messages[m].uid, m); }
  }

  /** A task that is not storing a new key stays good; one that is needs its key to stay unpublished. */
  lemma TaskGrows(s: State, s': State, task: Task)
    requires Grows(s, s') && TaskOk(s, task)
    requires forall uid :: Storing(task.pc, uid) ==> !Recorded(s', uid)
    requires task.pc.Pushed? ==> task.pc.message !in s'.acked && task.pc.message !in s'.timedOut
    ensures TaskOk(s', task)
  {
    match task.pc
    case ReadActive(record) => if record.Some? { RecordGrows(s, s', record.value); }
    case LoadedRaw(record, _) => RecordGrows(s, s', record);
    case StoringRaw(uid, _) => assert Storing(task.pc, uid);
    case StoringActive(uid, _) => assert Storing(task.pc, uid);
    case StoredActive(uid, raw) => RecordedGrows(s, s', uid);
    case Encrypting(key) => LookupGrows(s, s', task.devices, key);
    case AwaitingPrepare(key, _) => LookupGrows(s, s', task.devices, key);
    case Wrapping(key) => LookupGrows(s, s', task.devices, key);
    case Indexing(key, packages) =>
      LookupGrows(s, s', task.devices, key);
      PackagesGrow(s, s', key.uid, packages);
    case Settled(result) => if result.Some? { PreparedGrows(s, s', result.value); }
    case _ =>
  }

  lemma ClientGrows(s: State, s': State)
    requires Grows(s, s') && ClientOk(s)
    ensures s.active.Some? ==> RecordOk(s', s.active.value)
    ensures OptionalPreparedOk(s', s.prepared)
    ensures forall t :: t in s.results ==> OptionalPreparedOk(s', s.results[t])
    ensures forall k :: 0 <= k < |s.marks| ==> MarkOk(s', s.marks[k])
  {
    if s.active.Some? { RecordGrows(s, s', s.active.value); }
    if s.prepared.Some? { PreparedGrows(s, s', s.prepared.value); }
    forall t | t in s.results ensures OptionalPreparedOk(s', s.results[t]) {
      if s.results[t].Some? { PreparedGrows(s, s', s.results[t].value); }
    }
    forall k | 0 <= k < |s.marks| ensures MarkOk(s', s.marks[k]) {
      RecordedGrows(s, s', s.marks[k].uid);
      DistributedGrows(s, s', s.marks[k].uid, |s.messages|);
    }
  }

  /** The other senders' messages are neither taken by `t` nor settled by the step. */
  ghost predicate PushedApart(s: State, s': State, t: TaskId)
    requires t in s'.tasks
  {
    forall u :: u in s.tasks && u != t && s.tasks[u].pc.Pushed? ==>
      && s.tasks[u].pc.message !in s'.acked && s.tasks[u].pc.message !in s'.timedOut
      && (s'.tasks[t].pc.Pushed? ==> s'.tasks[t].pc.message != s.tasks[u].pc.message)
  }

  /** Tasks other than `t` are as before, no key becomes published under them, and `t` is good. */
  lemma TasksStep(s: State, s': State, t: TaskId)
    requires TasksOk(s) && Grows(s, s') && t in s'.tasks
    requires s'.tasks.Keys == s.tasks.Keys + {t}
    requires forall u :: u in s.tasks && u != t ==> s'.tasks[u] == s.tasks[u]
    requires TaskOk(s', s'.tasks[t])
    requires forall u, uid :: u in s.tasks && u != t && Storing(s.tasks[u].pc, uid) ==>
               !Recorded(s', uid) && !Storing(s'.tasks[t].pc, uid)
    requires PushedApart(s, s', t)
    ensures TasksOk(s')
  {
    forall u | u in s'.tasks ensures TaskOk(s', s'.tasks[u]) {
      if u != t { TaskGrows(s, s', s.tasks[u]); }
    }
  }

  /** A step that leaves the history alone. */
  lemma HistoryKept(s: State, s': State)
    requires HistoryOk(s) && Grows(s, s')
    requires s'.records == s.records && s'.messages == s.messages && s'.server == s.server && SameReplies(s, s')
    ensures HistoryOk(s')
  {
    forall i | 0 <= i < |s'.records| ensures RecordOk(s', s'.records[i]) { RecordGrows(s, s', s.records[i]); }
    forall m: nat | m < |s'.messages| ensures MessageOk(s', m) { MessageGrows(s, s', m); }
    ServerKept(s, s');
  }

  lemma ServerKept(s: State, s': State)
    requires ServerOk(s) && s'.messages == s.messages && s'.server == s.server && s'.acked == s.acked
    ensures ServerOk(s')
  {
    forall i | 0 <= i < |s'.server| && !Complete(s'.messages[s'.server[i]]) ensures CompleteEarlier(s', i) {
      assert CompleteEarlier(s, i);
    }
  }

  /** A step that writes no record: tasks other than `t` keep their unpublished keys. */
  lemma TasksStepQuiet(s: State, s': State, t: TaskId)
    requires TasksOk(s) && Grows(s, s') && s'.records == s.records && t in s'.tasks
    requires s'.tasks.Keys == s.tasks.Keys + {t}
    requires forall u :: u in s.tasks && u != t ==> s'.tasks[u] == s.tasks[u]
    requires TaskOk(s', s'.tasks[t])
    requires forall u, uid :: u in s.tasks && u != t && Storing(s.tasks[u].pc, uid) ==> !Storing(s'.tasks[t].pc, uid)
    requires PushedApart(s, s', t)
    ensures TasksOk(s')
  {
    forall u, uid | u in s.tasks && u != t && Storing(s.tasks[u].pc, uid)
      ensures !Recorded(s', uid) && !Storing(s'.tasks[t].pc, uid)
    {
      assert TaskOk(s, s.tasks[u]);
      assert forall i :: 0 <= i < |s'.records| ==> s'.records[i] == s.records[i];
    }
    TasksStep(s, s', t);
  }

  /** A step that leaves the client's fields alone, except that the history may have grown. */
  lemma ClientKept(s: State, s': State)
    requires ClientOk(s) && Grows(s, s') && CacheOk(s')
    requires s'.active == s.active && s'.prepared == s.prepared && s'.results == s.results && s'.marks == s.marks
    ensures ClientOk(s')
  {
    ClientGrows(s, s');
  }

  /** Moving one task to another await that fits it. */
  lemma SetPcTasks(s: State, t: TaskId, pc: Pc)
    requires TasksOk(s) && t in s.tasks && !pc.Pushed?
    requires TaskOk(s, s.tasks[t].(pc := pc))
    requires forall uid :: Storing(pc, uid) ==> Storing(s.tasks[t].pc, uid)
    ensures TasksOk(SetPc(s, t, pc))
  {
    var s' := SetPc(s, t, pc);
    forall uid | Storing(pc, uid) ensures !Recorded(s', uid) {
      assert Unpublished(s, s.tasks[t].devices, uid, pc.raw);
      assert s'.records == s.records;
    }
    TaskGrows(s, s', s'.tasks[t]);
    OthersPushedApart(s, s', t);
    TasksStepQuiet(s, s', t);
  }

  lemma OthersPushedApart(s: State, s': State, t: TaskId)
    requires TasksOk(s) && SameReplies(s, s') && t in s'.tasks && !s'.tasks[t].pc.Pushed?
    ensures PushedApart(s, s', t)
  {
    forall u | u in s.tasks && u != t && s.tasks[u].pc.Pushed?
      ensures s.tasks[u].pc.message !in s'.acked && s.tasks[u].pc.message !in s'.timedOut
    {
      assert TaskOk(s, s.tasks[u]);
    }
  }

  lemma SetPcKeeps(s: State, t: TaskId, pc: Pc)
    requires Inv(s) && t in s.tasks && !pc.Pushed?
    requires TaskOk(s, s.tasks[t].(pc := pc))
    requires forall uid :: Storing(pc, uid) ==> Storing(s.tasks[t].pc, uid)
    ensures Inv(SetPc(s, t, pc))
  {
    SetPcTasks(s, t, pc);
    HistoryKept(s, SetPc(s, t, pc));
    ClientKept(s, SetPc(s, t, pc));
  }

  /** Setting the prepared slot to a good value. */
  lemma SetPreparedKeeps(s: State, p: Option<Prepared>)
    requires Inv(s) && OptionalPreparedOk(s, p)
    ensures Inv(s.(prepared := p))
  {
    var s' := s.(prepared := p);
    HistoryKept(s, s');
    ClientGrows(s, s');
    if p.Some? { PreparedGrows(s, s', p.value); }
    TasksSame(s, s');
  }

  lemma TasksSame(s: State, s': State)
    requires TasksOk(s) && Grows(s, s') && s'.tasks == s.tasks && s'.records == s.records
    requires forall u :: u in s.tasks && s.tasks[u].pc.Pushed? ==>
               s.tasks[u].pc.message !in s'.acked && s.tasks[u].pc.message !in s'.timedOut
    ensures TasksOk(s')
  {
    forall u | u in s'.tasks ensures TaskOk(s', s'.tasks[u]) {
      assert TaskOk(s, s.tasks[u]);
      assert forall uid :: Recorded(s', uid) <==> Recorded(s, uid);
      TaskGrows(s, s', s.tasks[u]);
    }
  }

  predicate FreshFor(s: State, draw: Draw) { draw.uid !in s.born && draw.uid !in s.cache }

  lemma CreateKeyHistory(s: State, t: TaskId, draw: Draw)
    requires HistoryOk(s) && ClientOk(s) && t in s.tasks && FreshFor(s, draw)
    ensures Grows(s, CreateKey(s, t, draw)) && HistoryOk(CreateKey(s, t, draw)) && CacheOk(CreateKey(s, t, draw))
    ensures !Recorded(s, draw.uid)
  {
    HistoryKept(s, CreateKey(s, t, draw));
    forall i | 0 <= i < |s.records| ensures s.records[i].uid != draw.uid { assert RecordOk(s, s.records[i]); }
  }

  lemma CreateKeyTasks(s: State, t: TaskId, draw: Draw)
    requires TasksOk(s) && t in s.tasks && FreshFor(s, draw) && !Recorded(s, draw.uid)
    requires Grows(s, CreateKey(s, t, draw))
    ensures TasksOk(CreateKey(s, t, draw))
  {
    var s' := CreateKey(s, t, draw);
    forall u, uid | u in s.tasks && u != t && Storing(s.tasks[u].pc, uid) ensures !Storing(s'.tasks[t].pc, uid) {
      assert TaskOk(s, s.tasks[u]);
    }
    OthersPushedApart(s, s', t);
    TasksStepQuiet(s, s', t);
  }

  lemma CreateKeyKeeps(s: State, t: TaskId, draw: Draw)
    requires Inv(s) && t in s.tasks
    ensures Inv(CreateKey(s, t, draw))
  {
    if FreshFor(s, draw) {
      CreateKeyHistory(s, t, draw);
      CreateKeyTasks(s, t, draw);
      ClientKept(s, CreateKey(s, t, draw));
    }
  }

  lemma WithKeyKeeps(s: State, t: TaskId, key: KeyLookup)
    requires Inv(s) && t in s.tasks && LookupOk(s, s.tasks[t].devices, key)
    ensures Inv(WithKey(s, t, key))
  {
    if s.tasks[t].kind.Send? {
      SetPcKeeps(s, t, Encrypting(key));
    } else if !key.packagesNeeded {
      var p := Some(Prepared(key.uid, key.hash, []));
      SetPreparedKeeps(s, p);
      SetPcKeeps(s.(prepared := p), t, Settled(p));
    } else if Matches(s.prepared, key) {
      SetPcKeeps(s, t, Settled(s.prepared));
    } else {
      SetPcKeeps(s, t, Wrapping(key));
    }
  }

  lemma DecideKeeps(s: State, t: TaskId, key: KeyLookup, p: Option<Prepared>)
    requires Inv(s) && t in s.tasks && LookupOk(s, s.tasks[t].devices, key) && s.tasks[t].kind.Send?
    requires OptionalPreparedOk(s, p)
    ensures Inv(Decide(s, t, key, p))
  {
    if Matches(p, key) {
      SetPcKeeps(s, t, Indexing(key, p.value.packages));
    } else {
      SetPcKeeps(s, t, Wrapping(key));
    }
  }

  lemma EncryptedKeeps(s: State, t: TaskId, key: KeyLookup)
    requires Inv(s) && t in s.tasks && s.tasks[t].kind.Send? && LookupOk(s, s.tasks[t].devices, key)
    ensures Inv(Encrypted(s, t, key))
  {
    if !key.packagesNeeded {
      SetPcKeeps(s, t, Indexing(key, []));
    } else if s.promise.Some? {
      SetPcKeeps(s, t, AwaitingPrepare(key, s.promise.value));
    } else {
      DecideKeeps(s, t, key, s.prepared);
    }
  }

  lemma FailedKeeps(s: State, t: TaskId)
    requires Inv(s) && t in s.tasks
    ensures Inv(Failed(s, t))
  {
    SetPcKeeps(s, t, if s.tasks[t].kind.Send? then Finished else Settled(None));
  }

  lemma WrappedKeeps(s: State, t: TaskId, key: KeyLookup)
    requires Inv(s) && t in s.tasks && LookupOk(s, s.tasks[t].devices, key)
    ensures Inv(Wrapped(s, t, key))
  {
    if !AllImportable(s.tasks[t].devices) {
      FailedKeeps(s, t);
    } else {
      var p := Prepared(key.uid, key.hash, WrapAll(key.raw, s.tasks[t].devices));
      SetPreparedKeeps(s, Some(p));
      LookupGrows(s, s.(prepared := Some(p)), s.tasks[t].devices, key);
      SetPcKeeps(s.(prepared := Some(p)), t,
                 if s.tasks[t].kind.Send? then Indexing(key, p.packages) else Settled(Some(p)));
    }
  }

  lemma FinallyKeeps(s: State, t: TaskId, result: Option<Prepared>)
    requires Inv(s) && t in s.tasks && OptionalPreparedOk(s, result)
    ensures Inv(Finally(s, t, result))
  {
    var s' := s.(promise := None, results := s.results[t := result]);
    HistoryKept(s, s');
    ClientGrows(s, s');
    if result.Some? { PreparedGrows(s, s', result.value); }
    TasksSame(s, s');
    SetPcKeeps(s', t, Finished);
  }

  /** A record reaches storage: it is the key's first, or the key was recorded before and this one says sent. */
  lemma RecordsStep(s: State, r: ActiveRecord)
    requires Inv(s) && BornAs(s, r.uid, r.hash)
    requires if r.sentHash.Some? then r.sentHash.value == r.hash && Distributed(s, r.uid) else !Recorded(s, r.uid)
    ensures HistoryOk(WriteActive(s, r)) && ClientOk(WriteActive(s, r))
    ensures Grows(s, WriteActive(s, r))
    ensures Recorded(WriteActive(s, r), r.uid)
  {
    var s' := WriteActive(s, r);
    var n := |s.records|;
    assert s'.records[n].uid == r.uid;
    if r.sentHash.Some? { DistributedGrows(s, s', r.uid, |s.messages|); }
    forall i | 0 <= i < |s'.records| ensures RecordOk(s', s'.records[i]) {
      if i < n { RecordGrows(s, s', s.records[i]); }
    }
    forall m: nat | m < |s'.messages| ensures MessageOk(s', m) { MessageGrows(s, s', m); }
    ServerKept(s, s');
    ClientGrows(s, s');
  }

  /** The creator's first write: the key becomes published. */
  lemma PublishKeeps(s: State, t: TaskId, uid: KeyUid, raw: RawKey)
    requires Inv(s) && t in s.tasks && s.tasks[t].pc == StoringActive(uid, raw)
    ensures Inv(SetPc(WriteActive(s, ActiveRecord(uid, Sha256(s.tasks[t].devices), None)), t, StoredActive(uid, raw)))
  {
    var r := ActiveRecord(uid, Sha256(s.tasks[t].devices), None);
    var w := WriteActive(s, r);
    var s' := SetPc(w, t, StoredActive(uid, raw));
    assert TaskOk(s, s.tasks[t]);
    RecordsStep(s, r);
    HistoryKept(w, s');
    ClientGrows(w, s');
    RecordedGrows(w, s', uid);
    PublishTasks(s, s', t, r);
  }

  lemma PublishTasks(s: State, s': State, t: TaskId, r: ActiveRecord)
    requires TasksOk(s) && Grows(s, s') && SameReplies(s, s') && t in s.tasks
    requires Storing(s.tasks[t].pc, r.uid) && s'.records == s.records + [r]
    requires s'.tasks.Keys == s.tasks.Keys && s'.tasks[t].pc.StoredActive? && TaskOk(s', s'.tasks[t])
    requires forall u :: u in s.tasks && u != t ==> s'.tasks[u] == s.tasks[u]
    ensures TasksOk(s')
  {
    forall u, uid | u in s.tasks && u != t && Storing(s.tasks[u].pc, uid)
      ensures !Recorded(s', uid) && !Storing(s'.tasks[t].pc, uid)
    {
      assert TaskOk(s, s.tasks[u]);
      NotRecordedBy(s, s', r, uid);
    }
    forall u | u in s.tasks && s.tasks[u].pc.Pushed? ensures s.tasks[u].pc.message !in s'.acked + s'.timedOut {
      assert TaskOk(s, s.tasks[u]);
    }
    TasksStep(s, s', t);
  }

  lemma NotRecordedBy(s: State, s': State, r: ActiveRecord, uid: KeyUid)
    requires s'.records == s.records + [r] && !Recorded(s, uid) && uid != r.uid
    ensures !Recorded(s', uid)
  {
    assert forall i :: 0 <= i < |s.records| ==> s'.records[i] == s.records[i];
  }

  lemma PushHistory(s: State, s': State, m: Message)
    requires Inv(s) && s'.messages == s.messages + [m] && s'.born == s.born && s'.records == s.records
    requires s'.server == s.server && SameReplies(s, s')
    requires LookupOk(s, m.devices, KeyLookup(m.uid, m.cipher.key, m.needed, Sha256(m.devices)))
    requires PackagesOk(s, m.uid, m.packages)
    ensures HistoryOk(s')
  {
    var n := |s.messages|;
    RecordedGrows(s, s', m.uid);
    if Distributed(s, m.uid) { DistributedGrows(s, s', m.uid, n); }
    forall i | 0 <= i < |s'.records| ensures RecordOk(s', s'.records[i]) { RecordGrows(s, s', s.records[i]); }
    forall k: nat | k < |s'.messages| ensures MessageOk(s', k) {
      if k < n { MessageGrows(s, s', k); }
    }
    ServerGrows(s, s');
  }

  lemma PushKeeps(s: State, t: TaskId, key: KeyLookup, packages: seq<KeyPackage>, iv: nat)
    requires Inv(s) && t in s.tasks && s.tasks[t].kind.Send?
    requires LookupOk(s, s.tasks[t].devices, key) && PackagesOk(s, key.uid, packages)
    ensures Inv(Push(s, t, key, packages, iv))
  {
    var s' := Push(s, t, key, packages, iv);
    PushHistory(s, s', s'.messages[|s.messages|]);
    ClientGrows(s, s');
    forall u | u in s.tasks && s.tasks[u].pc.Pushed?
      ensures s.tasks[u].pc.message !in s'.acked + s'.timedOut && s.tasks[u].pc.message < |s.messages|
    {
      assert TaskOk(s, s.tasks[u]);
    }
    TasksStepQuiet(s, s', t);
  }

  lemma ServerGrows(s: State, s': State)
    requires ServerOk(s) && s.messages <= s'.messages && s'.server == s.server
    requires s.acked <= s'.acked <= set m | m in s.server
    ensures ServerOk(s')
  {
    forall i | 0 <= i < |s'.server| && !Complete(s'.messages[s'.server[i]]) ensures CompleteEarlier(s', i) {
      assert CompleteEarlier(s, i);
      var j :| 0 <= j < i && Carries(s, s.messages[s.server[i]].uid, s.server[j]);
      assert Carries(s', s'.messages[s'.server[i]].uid, s'.server[j]);
    }
  }

  lemma AcceptKeeps(s: State, m: MessageId)
    requires Inv(s) && m < |s.messages| && m !in s.server
    ensures Inv(s.(server := s.server + [m]))
  {
    var s' := s.(server := s.server + [m]);
    AcceptServer(s, m);
    forall i | 0 <= i < |s'.records| ensures RecordOk(s', s'.records[i]) { RecordGrows(s, s', s.records[i]); }
    forall k: nat | k < |s'.messages| ensures MessageOk(s', k) { MessageGrows(s, s', k); }
    ClientGrows(s, s');
    TasksSame(s, s');
  }

  lemma AcceptServer(s: State, m: MessageId)
    requires HistoryOk(s) && m < |s.messages| && m !in s.server
    ensures ServerOk(s.(server := s.server + [m]))
  {
    var s' := s.(server := s.server + [m]);
    var n := |s.server|;
    forall i | 0 <= i < |s'.server| && !Complete(s'.messages[s'.server[i]]) ensures CompleteEarlier(s', i) {
      if i < n {
        assert CompleteEarlier(s, i);
        var j :| 0 <= j < i && Carries(s, s.messages[s.server[i]].uid, s.server[j]);
        assert Carries(s', s'.messages[s'.server[i]].uid, s'.server[j]);
      } else {
        assert MessageOk(s, m);
        var m0: MessageId :| m0 < m && Carries(s, s.messages[m].uid, m0);
        var j :| 0 <= j < n && s.server[j] == m0;
        assert Carries(s', s'.messages[s'.server[i]].uid, s'.server[j]);
      }
    }
  }

  /** A message nobody waits for any more is counted as acknowledged. */
  lemma AckKeeps(s: State, m: MessageId)
    requires Inv(s) && m < |s.messages| && m in s.server && m !in s.timedOut
    requires forall u :: u in s.tasks ==> s.tasks[u].pc != Pushed(m)
    ensures Inv(s.(acked := s.acked + {m}))
  {
    var s' := s.(acked := s.acked + {m});
    forall i | 0 <= i < |s'.records| ensures RecordOk(s', s'.records[i]) { RecordGrows(s, s', s.records[i]); }
    forall k: nat | k < |s'.messages| ensures MessageOk(s', k) { MessageGrows(s, s', k); }
    ServerGrows(s, s');
    ClientGrows(s, s');
    TasksReplied(s, s', m);
  }

  lemma TimedOutKeeps(s: State, m: MessageId)
    requires Inv(s) && m < |s.messages| && m !in s.acked
    requires forall u :: u in s.tasks ==> s.tasks[u].pc != Pushed(m)
    ensures Inv(s.(timedOut := s.timedOut + {m}))
  {
    var s' := s.(timedOut := s.timedOut + {m});
    forall i | 0 <= i < |s'.records| ensures RecordOk(s', s'.records[i]) { RecordGrows(s, s', s.records[i]); }
    forall k: nat | k < |s'.messages| ensures MessageOk(s', k) { MessageGrows(s, s', k); }
    ServerKept(s, s');
    ClientGrows(s, s');
    TasksReplied(s, s', m);
  }

  lemma TasksReplied(s: State, s': State, m: MessageId)
    requires TasksOk(s) && Grows(s, s') && s'.tasks == s.tasks && s'.records == s.records
    requires s'.acked <= s.acked + {m} && s'.timedOut <= s.timedOut + {m}
    requires forall u :: u in s.tasks ==> s.tasks[u].pc != Pushed(m)
    ensures TasksOk(s')
  {
    forall u | u in s.tasks && s.tasks[u].pc.Pushed? ensures s.tasks[u].pc.message !in s'.acked + s'.timedOut {
      assert TaskOk(s, s.tasks[u]);
      assert s.tasks[u].pc == Pushed(s.tasks[u].pc.message);
    }
    TasksSame(s, s');
  }

  lemma NobodyWaits(s: State, t: TaskId)
    requires TasksOk(s) && t in s.tasks && s.tasks[t].pc.Pushed?
    ensures forall u :: u in s.tasks ==> SetPc(s, t, Finished).tasks[u].pc != Pushed(s.tasks[t].pc.message)
  {
  }

  lemma TimeoutKeeps(s: State, t: TaskId)
    requires Inv(s) && t in s.tasks && s.tasks[t].pc.Pushed?
    ensures Inv(SetPc(s.(timedOut := s.timedOut + {s.tasks[t].pc.message}), t, Finished))
  {
    assert TaskOk(s, s.tasks[t]);
    SetPcKeeps(s, t, Finished);
    NobodyWaits(s, t);
    TimedOutKeeps(SetPc(s, t, Finished), s.tasks[t].pc.message);
  }

  lemma ReplyKeeps(s: State, t: TaskId, ok: bool)
    requires Inv(s) && t in s.tasks && s.tasks[t].pc.Pushed?
    ensures Inv(ReplyTo(s, t, ok))
  {
    var m := s.tasks[t].pc.message;
    assert TaskOk(s, s.tasks[t]);
    SetPcKeeps(s, t, Finished);
    if ok && m in s.server {
      var w := SetPc(s, t, Finished);
      NobodyWaits(s, t);
      AckKeeps(w, m);
      if s.messages[m].needed { AckedMarkOk(w.(acked := w.acked + {m}), m); }
    }
  }

  lemma AckedMarkOk(s: State, m: MessageId)
    requires Inv(s) && m in s.acked && m < |s.messages|
    ensures Inv(s.(marks := s.marks + [Mark(s.messages[m].uid, Sha256(s.messages[m].devices))]))
  {
    var message := s.messages[m];
    assert MessageOk(s, m);
    if Complete(message) { assert Carries(s, message.uid, m); } else { DistributedGrows(s, s, message.uid, m); }
    AddMarkKeeps(s, Mark(message.uid, Sha256(message.devices)));
  }

  lemma AddMarkKeeps(s: State, mark: Mark)
    requires Inv(s) && MarkOk(s, mark)
    ensures Inv(s.(marks := s.marks + [mark]))
  {
    var s' := s.(marks := s.marks + [mark]);
    HistoryKept(s, s');
    ClientGrows(s, s');
    RecordedGrows(s, s', mark.uid);
    DistributedGrows(s, s', mark.uid, |s.messages|);
    TasksSame(s, s');
  }

  lemma DropMarkKeeps(s: State, k: nat)
    requires Inv(s) && k < |s.marks|
    ensures Inv(DropMark(s, k))
  {
    HistoryKept(s, DropMark(s, k));
    ClientGrows(s, DropMark(s, k));
    TasksSame(s, DropMark(s, k));
  }

  /** Writing a sent record for a key that was recorded and distributed before. */
  lemma WriteSentKeeps(s: State, r: ActiveRecord)
    requires Inv(s) && BornAs(s, r.uid, r.hash) && r.sentHash == Some(r.hash)
    requires Recorded(s, r.uid) && Distributed(s, r.uid)
    ensures Inv(WriteActive(s, r))
  {
    RecordsStep(s, r);
    var s' := WriteActive(s, r);
    forall u | u in s'.tasks ensures TaskOk(s', s'.tasks[u]) {
      assert TaskOk(s, s.tasks[u]);
      forall uid | Storing(s'.tasks[u].pc, uid) ensures !Recorded(s', uid) { NotRecordedBy(s, s', r, uid); }
      TaskGrows(s, s', s.tasks[u]);
    }
  }

  lemma WriteMarkKeeps(s: State, k: nat)
    requires Inv(s) && k < |s.marks|
    ensures Inv(WriteActive(DropMark(s, k), ActiveRecord(s.marks[k].uid, s.marks[k].hash, Some(s.marks[k].hash))))
  {
    var mark := s.marks[k];
    assert MarkOk(s, mark);
    DropMarkKeeps(s, k);
    var d := DropMark(s, k);
    RecordedGrows(s, d, mark.uid);
    DistributedGrows(s, d, mark.uid, |s.messages|);
    WriteSentKeeps(d, ActiveRecord(mark.uid, mark.hash, Some(mark.hash)));
  }

  /** The cache learns a key it may learn. */
  lemma CacheKeeps(s: State, uid: KeyUid, raw: RawKey)
    requires Inv(s) && (uid in s.born ==> raw == s.born[uid].raw)
    ensures Inv(s.(cache := s.cache[uid := raw]))
  {
    var s' := s.(cache := s.cache[uid := raw]);
    HistoryKept(s, s');
    ClientGrows(s, s');
    TasksSame(s, s');
  }

  lemma StartKeeps(s: State, t: TaskId, task: Task, promise: Option<TaskId>)
    requires Inv(s) && t !in s.tasks && task.pc.Trusting?
    ensures Inv(s.(tasks := s.tasks[t := task], promise := promise))
  {
    var s' := s.(tasks := s.tasks[t := task], promise := promise);
    HistoryKept(s, s');
    ClientGrows(s, s');
    TasksStepQuiet(s, s', t);
  }

  lemma AdvanceKeeps(s: State, t: TaskId, draw: Draw)
    requires Inv(s) && t in s.tasks
    ensures Inv(AdvanceTask(s, t, draw))
  {
    var task := s.tasks[t];
    var hash := Sha256(task.devices);
    assert TaskOk(s, task);
    match task.pc
    case Trusting => SetPcKeeps(s, t, Hashing);
    case Hashing => SetPcKeeps(s, t, ReadingActive);
    case ReadingActive => SetPcKeeps(s, t, ReadActive(s.active));
    case ReadActive(record) =>
      if record.Some? && record.value.hash == hash {
        SetPcKeeps(s, t, LoadedRaw(record.value,
                                   if record.value.uid in s.cache then Some(s.cache[record.value.uid]) else None));
      } else {
        CreateKeyKeeps(s, t, draw);
      }
    case LoadedRaw(record, loaded) =>
      if loaded.Some? {
        WithKeyKeeps(s, t, KeyLookup(record.uid, loaded.value, record.sentHash != Some(hash), hash));
      } else {
        CreateKeyKeeps(s, t, draw);
      }
    case StoringRaw(uid, raw) => SetPcKeeps(s, t, StoringActive(uid, raw));
    case StoringActive(uid, raw) => PublishKeeps(s, t, uid, raw);
    case StoredActive(uid, raw) => WithKeyKeeps(s, t, KeyLookup(uid, raw, true, hash));
    case Encrypting(key) => EncryptedKeeps(s, t, key);
    case AwaitingPrepare(key, promise) => if promise in s.results { DecideKeeps(s, t, key, s.results[promise]); }
    case Wrapping(key) => WrappedKeeps(s, t, key);
    case Indexing(key, packages) => PushKeeps(s, t, key, packages, draw.iv);
    case Settled(result) => FinallyKeeps(s, t, result);
    case Pushed(_) =>
    case Finished =>
  }

  lemma ReloadKeeps(s: State)
    requires Inv(s)
    ensures Inv(Step(s, Reload))
  {
    HistoryKept(s, Step(s, Reload));
    ClientGrows(s, Step(s, Reload));
  }

  lemma StepKeeps(s: State, e: Event)
    requires Inv(s)
    ensures Inv(Step(s, e))
  {
    match e
    case StartSend(t, content, devices) =>
      if t !in s.tasks { StartKeeps(s, t, Task(Send(content), devices, Trusting), s.promise); }
    case StartPrepare(t, devices) =>
      if t !in s.tasks && s.promise.None? { StartKeeps(s, t, Task(Prepare, devices, Trusting), Some(t)); }
    case Advance(t, draw) => if t in s.tasks { AdvanceKeeps(s, t, draw); }
    case Fail(t) => if t in s.tasks && Suspended(s.tasks[t].pc) { FailedKeeps(s, t); }
    case Timeout(t) => if t in s.tasks && s.tasks[t].pc.Pushed? { TimeoutKeeps(s, t); }
    case ServerAccept(m) => if m < |s.messages| && m !in s.server { AcceptKeeps(s, m); }
    case Reply(t, ok) => if t in s.tasks && s.tasks[t].pc.Pushed? { ReplyKeeps(s, t, ok); }
    case WriteMark(k) => if k < |s.marks| { WriteMarkKeeps(s, k); }
    case LoseMark(k) => if k < |s.marks| { DropMarkKeeps(s, k); }
    case DisableEncryption => SetPreparedKeeps(s, None);
    case UnwrapInline(m, i) =>
      if m < |s.messages| && i < |s.messages[m].packages| {
        assert MessageOk(s, m);
        CacheKeeps(s, s.messages[m].uid, s.messages[m].packages[i].wrapped.raw);
      }
    case ForeignKey(uid, raw) => if uid !in s.born { CacheKeeps(s, uid, raw); }
    case Reload => ReloadKeeps(s);
  }

  /** The invariant holds in every state any interleaving reaches. */
  lemma {:induction false} RunKeeps(events: seq<Event>)
    ensures Inv(Run(events))
  {
    if events != [] {
      RunKeeps(events[..|events| - 1]);
      StepKeeps(Run(events[..|events| - 1]), events[|events| - 1]);
    }
  }
}
