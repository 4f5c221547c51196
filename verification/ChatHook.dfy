/**
 The hook object of chat_e2ee_hook.js: one method per `await` segment, updating the
 fields the source updates. Every method is proved to be one step of the
 transition system, so the theorems about runs hold for the object.
 */
module ChatHook {
  import opened Options
  import opened StableDevices
  import opened ChatModel
  import ChatTheorems

  class ChatE2EE {
    /** The active-key record in IndexedDB. */
    var activeKey: Option<ActiveRecord>
    var rawConversationKeyCache: map<KeyUid, RawKey>
    var preparedConversationKey: Option<Prepared>
    var prepareConversationKeyPromise: Option<TaskId>
    /** The frames of the calls that are suspended in an await, and the values of settled promises. */
    var frames: map<TaskId, Task>
    var settled: map<TaskId, Option<Prepared>>
    /** The writes of markPackagesSent that are under way, and the payloads pushed. */
    var writes: seq<Mark>
    var pushed: seq<Message>
    ghost var born: map<KeyUid, Birth>
    ghost var records: seq<ActiveRecord>
    ghost var server: seq<MessageId>
    ghost var acked: set<MessageId>
    ghost var timedOut: set<MessageId>
    ghost var history: seq<Event>

    ghost function View(): State
      reads this
    {
      State(activeKey, rawConversationKeyCache, preparedConversationKey, prepareConversationKeyPromise,
            frames, settled, writes, born, records, pushed, server, acked, timedOut)
    }

    /** The object is in the state that its history leads to. */
    ghost predicate Valid()
      reads this
    {
      View() == Run(history)
    }

    constructor ()
      ensures Valid() && history == []
    {
      activeKey, rawConversationKeyCache, preparedConversationKey, prepareConversationKeyPromise :=
        None, map[], None, None;
      frames, settled, writes, pushed := map[], map[], [], [];
      born, records, server, acked, timedOut, history := map[], [], [], {}, {}, [];
    }

    ghost method Happened(before: State, e: Event)
      requires before == Run(history) && View() == Step(before, e)
      modifies this`history
      ensures Valid() && history == old(history) + [e]
    {
      RunAppend(history, e);
      history := history + [e];
    }

    method Suspend(t: TaskId, pc: Pc)
      requires t in frames
      modifies this`frames
      ensures frames == old(frames)[t := old(frames)[t].(pc := pc)]
    {
      frames := frames[t := frames[t].(pc := pc)];
    }

    /** encryptMessage, up to its first await. */
    method EncryptMessage(t: TaskId, content: string, devices: seq<StableDevice>)
      requires Valid() && t !in frames
      modifies this
      ensures Valid() && history == old(history) + [StartSend(t, content, devices)]
      ensures frames == old(frames)[t := Task(Send(content), devices, Trusting)]
    {
      ghost var before := View();
      frames := frames[t := Task(Send(content), devices, Trusting)];
      Happened(before, StartSend(t, content, devices));
    }

    /** prepareConversationKeyPackages: a preparation that is under way is shared. */
    method PrepareConversationKeyPackages(t: TaskId, devices: seq<StableDevice>) returns (promise: TaskId)
      requires Valid() && t !in frames
      modifies this
      ensures Valid() && history == old(history) + [StartPrepare(t, devices)]
      ensures prepareConversationKeyPromise == Some(promise)
      ensures old(prepareConversationKeyPromise).Some? ==> frames == old(frames)
    {
      ghost var before := View();
      if prepareConversationKeyPromise.Some? {
        promise := prepareConversationKeyPromise.value;
      } else {
        promise := t;
        frames := frames[t := Task(Prepare, devices, Trusting)];
        prepareConversationKeyPromise := Some(t);
      }
      Happened(before, StartPrepare(t, devices));
    }

    /** ensureDevicesTrusted resolved, then devicesHash: the next await begins. */
    method DevicesTrusted(t: TaskId, draw: Draw)
      requires Valid() && t in frames && frames[t].pc == Trusting
      modifies this
      ensures Valid() && history == old(history) + [Advance(t, draw)]
    {
      ghost var before := View();
      Suspend(t, Hashing);
      Happened(before, Advance(t, draw));
    }

    method DevicesHashed(t: TaskId, draw: Draw)
      requires Valid() && t in frames && frames[t].pc == Hashing
      modifies this
      ensures Valid() && history == old(history) + [Advance(t, draw)]
    {
      ghost var before := View();
      Suspend(t, ReadingActive);
      Happened(before, Advance(t, draw));
    }

    /** IndexedDB answers the read of the active record. */
    method ActiveKeyRead(t: TaskId, draw: Draw)
      requires Valid() && t in frames && frames[t].pc == ReadingActive
      modifies this
      ensures Valid() && history == old(history) + [Advance(t, draw)]
    {
      ghost var before := View();
      Suspend(t, ReadActive(activeKey));
      Happened(before, Advance(t, draw));
    }

    /** A fresh key: storeRawConversationKey caches it before its first await. */
    method StartNewKey(t: TaskId, draw: Draw)
      requires t in frames && draw.uid !in born && draw.uid !in rawConversationKeyCache
      modifies this`rawConversationKeyCache, this`born, this`frames
      ensures View() == CreateKey(old(View()), t, draw)
    {
      born := born[draw.uid := Birth(draw.raw, Sha256(frames[t].devices))];
      rawConversationKeyCache := rawConversationKeyCache[draw.uid := draw.raw];
      Suspend(t, StoringRaw(draw.uid, draw.raw));
    }

    /** conversationKeyForDevices goes on with the record it read; the cache is asked at once. */
    method ActiveKeyLoaded(t: TaskId, draw: Draw)
      requires Valid() && t in frames && frames[t].pc.ReadActive?
      requires draw.uid !in born && draw.uid !in rawConversationKeyCache
      modifies this
      ensures Valid() && history == old(history) + [Advance(t, draw)]
      ensures var record := old(frames[t].pc.record);
              var reused := record.Some? && record.value.hash == Sha256(old(frames[t]).devices);
              rawConversationKeyCache
              == if reused then old(rawConversationKeyCache) else old(rawConversationKeyCache)[draw.uid := draw.raw]
    {
      ghost var before := View();
      var record := frames[t].pc.record;
      if record.Some? && record.value.hash == Sha256(frames[t].devices) {
        var uid := record.value.uid;
        var loaded := if uid in rawConversationKeyCache then Some(rawConversationKeyCache[uid]) else None;
        Suspend(t, LoadedRaw(record.value, loaded));
      } else {
        StartNewKey(t, draw);
      }
      Happened(before, Advance(t, draw));
    }

    /** conversationKeyForDevices returned: encryptMessage starts encrypting, a preparation may be done. */
    method KeyReady(t: TaskId, key: KeyLookup)
      requires t in frames
      modifies this`preparedConversationKey, this`frames
      ensures View() == WithKey(old(View()), t, key)
    {
      if frames[t].kind.Send? {
        Suspend(t, Encrypting(key));
      } else if !key.packagesNeeded {
        preparedConversationKey := Some(Prepared(key.uid, key.hash, []));
        Suspend(t, Settled(preparedConversationKey));
      } else if IsPreparedFor(preparedConversationKey, key) {
        Suspend(t, Settled(preparedConversationKey));
      } else {
        Suspend(t, Wrapping(key));
      }
    }

    static predicate IsPreparedFor(p: Option<Prepared>, key: KeyLookup) {
      p.Some? && p.value.uid == key.uid && p.value.hash == key.hash
    }

    /** loadRawConversationKey resolved. */
    method RawKeyLoaded(t: TaskId, draw: Draw)
      requires Valid() && t in frames && frames[t].pc.LoadedRaw?
      requires draw.uid !in born && draw.uid !in rawConversationKeyCache
      modifies this
      ensures Valid() && history == old(history) + [Advance(t, draw)]
      ensures rawConversationKeyCache
              == if old(frames[t].pc.loaded).Some? then old(rawConversationKeyCache)
                 else old(rawConversationKeyCache)[draw.uid := draw.raw]
    {
      ghost var before := View();
      var pc, hash := frames[t].pc, Sha256(frames[t].devices);
      if pc.loaded.Some? {
        KeyReady(t, KeyLookup(pc.matched.uid, pc.loaded.value, pc.matched.sentHash != Some(hash), hash));
      } else {
        StartNewKey(t, draw);
      }
      Happened(before, Advance(t, draw));
    }

    method RawKeyStored(t: TaskId, draw: Draw)
      requires Valid() && t in frames && frames[t].pc.StoringRaw?
      modifies this
      ensures Valid() && history == old(history) + [Advance(t, draw)]
    {
      ghost var before := View();
      Suspend(t, StoringActive(frames[t].pc.uid, frames[t].pc.raw));
      Happened(before, Advance(t, draw));
    }

    /** storeActiveConversationKey reaches IndexedDB. */
    method ActiveKeyWritten(t: TaskId, draw: Draw)
      requires Valid() && t in frames && frames[t].pc.StoringActive?
      modifies this
      ensures Valid() && history == old(history) + [Advance(t, draw)]
      ensures activeKey == Some(ActiveRecord(old(frames[t].pc.uid), Sha256(old(frames[t]).devices), None))
    {
      ghost var before := View();
      var record := ActiveRecord(frames[t].pc.uid, Sha256(frames[t].devices), None);
      activeKey := Some(record);
      records := records + [record];
      Suspend(t, StoredActive(frames[t].pc.uid, frames[t].pc.raw));
      Happened(before, Advance(t, draw));
    }

    method ActiveKeyStored(t: TaskId, draw: Draw)
      requires Valid() && t in frames && frames[t].pc.StoredActive?
      modifies this
      ensures Valid() && history == old(history) + [Advance(t, draw)]
    {
      ghost var before := View();
      KeyReady(t, KeyLookup(frames[t].pc.uid, frames[t].pc.raw, true, Sha256(frames[t].devices)));
      Happened(before, Advance(t, draw));
    }

    /** encryptMessage has a prepared value to compare with. */
    method ChoosePackages(t: TaskId, key: KeyLookup, prepared: Option<Prepared>)
      requires t in frames
      modifies this`frames
      ensures View() == Decide(old(View()), t, key, prepared)
    {
      if IsPreparedFor(prepared, key) {
        Suspend(t, Indexing(key, prepared.value.packages));
      } else {
        Suspend(t, Wrapping(key));
      }
    }

    /** AES-GCM resolved: encryptMessage looks for packages. */
    method MessageEncrypted(t: TaskId, draw: Draw)
      requires Valid() && t in frames && frames[t].pc.Encrypting?
      modifies this
      ensures Valid() && history == old(history) + [Advance(t, draw)]
    {
      ghost var before := View();
      var key := frames[t].pc.key;
      if !key.packagesNeeded {
        Suspend(t, Indexing(key, []));
      } else if prepareConversationKeyPromise.Some? {
        Suspend(t, AwaitingPrepare(key, prepareConversationKeyPromise.value));
      } else {
        ChoosePackages(t, key, preparedConversationKey);
      }
      Happened(before, Advance(t, draw));
    }

    /** The preparation that encryptMessage waits for has settled. */
    method PreparationAwaited(t: TaskId, draw: Draw)
      requires Valid() && t in frames && frames[t].pc.AwaitingPrepare? && frames[t].pc.promise in settled
      modifies this
      ensures Valid() && history == old(history) + [Advance(t, draw)]
    {
      ghost var before := View();
      ChoosePackages(t, frames[t].pc.key, settled[frames[t].pc.promise]);
      Happened(before, Advance(t, draw));
    }

    /** The handlers of a rejected await. */
    method Reject(t: TaskId)
      requires t in frames
      modifies this`frames
      ensures View() == Failed(old(View()), t)
    {
      Suspend(t, if frames[t].kind.Send? then Finished else Settled(None));
    }

    /** wrapConversationKey: every stable device gets a package, or a public key is refused. */
    method PackagesWrapped(t: TaskId, draw: Draw)
      requires Valid() && t in frames && frames[t].pc.Wrapping?
      modifies this
      ensures Valid() && history == old(history) + [Advance(t, draw)]
      ensures AllImportable(old(frames[t]).devices) ==>
                preparedConversationKey
                == Some(Prepared(old(frames[t].pc.key).uid, old(frames[t].pc.key).hash,
                                 WrapAll(old(frames[t].pc.key).raw, old(frames[t]).devices)))
    {
      ghost var before := View();
      var key := frames[t].pc.key;
      if !AllImportable(frames[t].devices) {
        Reject(t);
      } else {
        var packages := WrapAll(key.raw, frames[t].devices);
        preparedConversationKey := Some(Prepared(key.uid, key.hash, packages));
        Suspend(t, if frames[t].kind.Send? then Indexing(key, packages) else Settled(preparedConversationKey));
      }
      Happened(before, Advance(t, draw));
    }

    /** searchTokensForKey resolved: handleSubmit pushes the payload. */
    method PushEncryptedMessage(t: TaskId, draw: Draw)
      requires Valid() && t in frames && frames[t].pc.Indexing? && frames[t].kind.Send?
      modifies this
      ensures Valid() && history == old(history) + [Advance(t, draw)]
      ensures var frame, key := old(frames[t]), old(frames[t].pc.key);
              var cipher := AesGcm(key.raw, draw.iv, frame.kind.content);
              pushed
              == old(pushed) + [Message(key.uid, cipher, frame.pc.packages, frame.devices, key.packagesNeeded)]
    {
      ghost var before := View();
      var frame := frames[t];
      var key := frame.pc.key;
      var cipher := AesGcm(key.raw, draw.iv, frame.kind.content);
      Suspend(t, Pushed(|pushed|));
      pushed := pushed + [Message(key.uid, cipher, frame.pc.packages, frame.devices, key.packagesNeeded)];
      Happened(before, Advance(t, draw));
    }

    method Settle(t: TaskId, result: Option<Prepared>)
      requires t in frames
      modifies this`prepareConversationKeyPromise, this`settled, this`frames
      ensures View() == Finally(old(View()), t, result)
      ensures prepareConversationKeyPromise.None?
    {
      prepareConversationKeyPromise := None;
      settled := settled[t := result];
      Suspend(t, Finished);
    }

    /** The finally block of the preparation. */
    method PreparationSettled(t: TaskId, draw: Draw)
      requires Valid() && t in frames && frames[t].pc.Settled?
      modifies this
      ensures Valid() && history == old(history) + [Advance(t, draw)]
      ensures prepareConversationKeyPromise.None?
      ensures settled == old(settled)[t := old(frames[t].pc.result)]
    {
      ghost var before := View();
      Settle(t, frames[t].pc.result);
      Happened(before, Advance(t, draw));
    }

    method AwaitRejected(t: TaskId)
      requires Valid() && t in frames && Suspended(frames[t].pc)
      modifies this
      ensures Valid() && history == old(history) + [Fail(t)]
    {
      ghost var before := View();
      Reject(t);
      Happened(before, Fail(t));
    }

    /** The send timer fires before the reply; a late reply is then ignored. */
    method SendTimedOut(t: TaskId)
      requires Valid() && t in frames && frames[t].pc.Pushed?
      modifies this
      ensures Valid() && history == old(history) + [Timeout(t)]
      ensures writes == old(writes)
    {
      ghost var before := View();
      timedOut := timedOut + {frames[t].pc.message};
      Suspend(t, Finished);
      Happened(before, Timeout(t));
    }

    /** The reply handler; an ok reply comes only for a message the server has accepted. */
    method SendReplied(t: TaskId, ok: bool)
      requires Valid() && t in frames && frames[t].pc.Pushed?
      requires ok ==> frames[t].pc.message in server && frames[t].pc.message < |pushed|
      modifies this
      ensures Valid() && history == old(history) + [Reply(t, ok)]
      ensures var m := old(frames[t].pc.message);
              writes == if ok && old(pushed)[m].needed then
                          old(writes) + [Mark(old(pushed)[m].uid, Sha256(old(pushed)[m].devices))]
                        else old(writes)
    {
      ghost var before := View();
      var m := frames[t].pc.message;
      if ok {
        acked := acked + {m};
        if pushed[m].needed {
          writes := writes + [Mark(pushed[m].uid, Sha256(pushed[m].devices))];
        }
      }
      Suspend(t, Finished);
      Happened(before, Reply(t, ok));
    }

    /** A write of markPackagesSent reaches IndexedDB. */
    method PackagesMarked(k: nat)
      requires Valid() && k < |writes|
      modifies this
      ensures Valid() && history == old(history) + [WriteMark(k)]
      ensures activeKey == Some(ActiveRecord(old(writes)[k].uid, old(writes)[k].hash, Some(old(writes)[k].hash)))
    {
      ghost var before := View();
      var record := ActiveRecord(writes[k].uid, writes[k].hash, Some(writes[k].hash));
      activeKey := Some(record);
      records := records + [record];
      writes := writes[..k] + writes[k + 1..];
      Happened(before, WriteMark(k));
    }

    /** The server accepts a pushed message. */
    ghost method ServerAccepted(m: MessageId)
      requires Valid() && m < |pushed| && m !in server
      modifies this`server, this`history
      ensures Valid() && history == old(history) + [ServerAccept(m)]
    {
      ghost var before := View();
      server := server + [m];
      Happened(before, ServerAccept(m));
    }

    /** Encryption is switched off for the conversation. */
    method DisableConversationEncryption()
      requires Valid()
      modifies this
      ensures Valid() && history == old(history) + [DisableEncryption]
    {
      ghost var before := View();
      preparedConversationKey := None;
      Happened(before, DisableEncryption);
    }

    /** rawConversationKey unwrapped the package that a visible message carries for this device. */
    method InlineKeyUnwrapped(m: MessageId, i: nat)
      requires Valid() && m < |pushed| && i < |pushed[m].packages|
      modifies this
      ensures Valid() && history == old(history) + [UnwrapInline(m, i)]
    {
      ghost var before := View();
      rawConversationKeyCache := rawConversationKeyCache[pushed[m].uid := pushed[m].packages[i].wrapped.raw];
      Happened(before, UnwrapInline(m, i));
    }
  }

  /** The binding theorem, for the object: what it has pushed wraps the key that encrypted the message. */
  lemma PushedPackagesWrapTheMessageKey(hook: ChatE2EE, m: nat)
    requires hook.Valid() && m < |hook.pushed|
    ensures var message := hook.pushed[m];
            && (message.packages == WrapAll(message.cipher.key, message.devices) || message.packages == [])
            && forall p :: p in message.packages ==> p.wrapped.raw == message.cipher.key
  {
    ChatTheorems.PackagesWrapTheMessageKey(hook.history, m);
  }
}
