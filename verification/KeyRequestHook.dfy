/** rawConversationKey as methods on the fields it shares between calls, one method per segment. */
module KeyRequestHook {
  import opened Options
  import opened KeyRequests

  class ConversationKeys {
    var rawConversationKeyCache: map<CacheKey, RawKey>
    var unavailableConversationKeys: set<CacheKey>
    var conversationKeyRequests: map<CacheKey, RequestId>
    /** The request promises made so far and the calls, each with the await it is suspended in. */
    var promises: map<RequestId, Request>
    var calls: map<CallId, Call>
    ghost var pushed: multiset<CacheKey>
    ghost var reported: set<CacheKey>
    ghost var history: seq<Event>

    ghost function View(): State
      reads this
    {
      State(rawConversationKeyCache, unavailableConversationKeys, conversationKeyRequests, promises, calls,
            pushed, reported)
    }

    ghost predicate Valid()
      reads this
    {
      View() == Run(history)
    }

    constructor ()
      ensures Valid() && history == []
    {
      rawConversationKeyCache, unavailableConversationKeys, conversationKeyRequests := map[], {}, map[];
      promises, calls, pushed, reported, history := map[], map[], multiset{}, {}, [];
    }

    ghost method Happened(before: State, e: Event)
      requires before == Run(history) && View() == Step(before, e)
      modifies this`history
      ensures Valid() && history == old(history) + [e]
    {
      RunAppend(history, e);
      history := history + [e];
    }

    method SetPromise(r: RequestId, pc: Pc)
      requires r in promises
      modifies this`promises
      ensures promises == old(promises)[r := old(promises)[r].(pc := pc)]
    {
      promises := promises[r := promises[r].(pc := pc)];
    }

    /** rawConversationKey, up to its first await: the cache is asked at once. */
    method RawConversationKey(c: CallId, cacheKey: CacheKey)
      requires Valid() && c !in calls
      modifies this
      ensures Valid() && history == old(history) + [Begin(c, cacheKey)]
      ensures c in calls && calls[c].Loading? && calls[c].key == cacheKey
      ensures calls[c].cached.Some? <==> cacheKey in rawConversationKeyCache
      ensures cacheKey in rawConversationKeyCache ==> calls[c].cached.value == rawConversationKeyCache[cacheKey]
    {
      ghost var before := View();
      var cached := if cacheKey in rawConversationKeyCache then Some(rawConversationKeyCache[cacheKey]) else None;
      calls := calls[c := Loading(cacheKey, cached)];
      Happened(before, Begin(c, cacheKey));
    }

    /**
     loadRawConversationKey resolved: without a stored key the call fails at once for
     an unavailable key, waits for a pending request, or makes the request.
     */
    method StoredKeyLoaded(c: CallId, legacy: Option<RawKey>, r: RequestId)
      requires Valid() && c in calls && calls[c].Loading? && r !in promises
      modifies this
      ensures Valid() && history == old(history) + [Loaded(c, legacy, r)]
      ensures conversationKeyRequests.Keys
              <= old(conversationKeyRequests).Keys + ({old(calls[c].key)} - old(unavailableConversationKeys))
      ensures old(calls[c].key) in old(conversationKeyRequests) ==>
                conversationKeyRequests == old(conversationKeyRequests)
      ensures var stored := if old(calls[c].cached).Some? then old(calls[c].cached) else legacy;
              c in calls && (stored.Some? ==> calls[c] == Returned(old(calls[c].key), Key(stored.value), None))
    {
      ghost var before := View();
      var cacheKey := calls[c].key;
      var stored := if calls[c].cached.Some? then calls[c].cached else legacy;
      if stored.Some? {
        rawConversationKeyCache := rawConversationKeyCache[cacheKey := stored.value];
        calls := calls[c := Returned(cacheKey, Key(stored.value), None)];
      } else if cacheKey in unavailableConversationKeys {
        calls := calls[c := Returned(cacheKey, KeyNotFound, None)];
      } else if cacheKey in conversationKeyRequests {
        calls := calls[c := Waiting(cacheKey, conversationKeyRequests[cacheKey])];
      } else {
        promises := promises[r := Request(cacheKey, LoadingDevice)];
        conversationKeyRequests := conversationKeyRequests[cacheKey := r];
        calls := calls[c := Waiting(cacheKey, r)];
      }
      Happened(before, Loaded(c, legacy, r));
    }

    /** loadOrCreateDevice resolved: unwrap the inline package, or ask the server. */
    method DeviceLoaded(r: RequestId, inlinePackage: bool, raw: RawKey)
      requires Valid() && r in promises && promises[r].pc.LoadingDevice?
      modifies this
      ensures Valid() && history == old(history) + [Resume(r, true, inlinePackage, raw)]
      ensures pushed == if inlinePackage then old(pushed) else old(pushed) + multiset{old(promises)[r].key}
    {
      ghost var before := View();
      if inlinePackage {
        SetPromise(r, Unwrapping(false));
      } else {
        pushed := pushed + multiset{promises[r].key};
        SetPromise(r, AwaitingReply);
      }
      Happened(before, Resume(r, true, inlinePackage, raw));
    }

    /** The reply to chat_e2ee_key. */
    method KeyReplied(r: RequestId, found: bool, notFound: bool)
      requires Valid() && r in promises && promises[r].pc.AwaitingReply?
      modifies this
      ensures Valid() && history == old(history) + [Reply(r, found, notFound)]
    {
      ghost var before := View();
      if found {
        SetPromise(r, Unwrapping(true));
      } else {
        reported := if notFound then reported + {promises[r].key} else reported;
        SetPromise(r, Failing(notFound));
      }
      Happened(before, Reply(r, found, notFound));
    }

    /** RSA decryption resolved: storeRawConversationKey caches the key before its first await. */
    method KeyUnwrapped(r: RequestId, raw: RawKey)
      requires Valid() && r in promises && promises[r].pc.Unwrapping?
      modifies this
      ensures Valid() && history == old(history) + [Resume(r, true, false, raw)]
      ensures rawConversationKeyCache == old(rawConversationKeyCache)[old(promises)[r].key := raw]
      ensures r in promises && promises[r].pc == Storing(old(promises[r].pc.fromReply), raw)
    {
      ghost var before := View();
      rawConversationKeyCache := rawConversationKeyCache[promises[r].key := raw];
      SetPromise(r, Storing(promises[r].pc.fromReply, raw));
      Happened(before, Resume(r, true, false, raw));
    }

    /** The storage awaits: a key from a reply also becomes the active key. */
    method StorageWritten(r: RequestId, raw: RawKey)
      requires Valid() && r in promises
      requires promises[r].pc.Storing? || promises[r].pc.Hashing? || promises[r].pc.StoringActive?
      modifies this
      ensures Valid() && history == old(history) + [Resume(r, true, false, raw)]
      ensures rawConversationKeyCache == old(rawConversationKeyCache)
      ensures r in promises && promises[r].key == old(promises[r].key)
      ensures promises[r].pc.Finishing? ==> promises[r].pc.outcome == Key(old(promises[r].pc.raw))
    {
      ghost var before := View();
      var pc := promises[r].pc;
      if pc.Storing? && pc.fromReply {
        SetPromise(r, Hashing(pc.raw));
      } else if pc.Hashing? {
        SetPromise(r, StoringActive(pc.raw));
      } else {
        SetPromise(r, Finishing(Key(pc.raw)));
      }
      Happened(before, Resume(r, true, false, raw));
    }

    /** The catch block. */
    method RequestCaught(r: RequestId)
      requires Valid() && r in promises && promises[r].pc.Failing?
      modifies this
      ensures Valid() && history == old(history) + [Resume(r, true, false, 0)]
      ensures unavailableConversationKeys
              == old(unavailableConversationKeys)
                 + (if old(promises[r].pc.notFound) then {old(promises[r].key)} else {})
    {
      ghost var before := View();
      if promises[r].pc.notFound {
        unavailableConversationKeys := unavailableConversationKeys + {promises[r].key};
        SetPromise(r, Finishing(KeyNotFound));
      } else {
        SetPromise(r, Finishing(OtherError));
      }
      Happened(before, Resume(r, true, false, 0));
    }

    /** The finally block. */
    method RequestFinished(r: RequestId)
      requires Valid() && r in promises && promises[r].pc.Finishing?
      modifies this
      ensures Valid() && history == old(history) + [Resume(r, true, false, 0)]
      ensures conversationKeyRequests == old(conversationKeyRequests) - {old(promises[r].key)}
    {
      ghost var before := View();
      conversationKeyRequests := conversationKeyRequests - {promises[r].key};
      SetPromise(r, Done(promises[r].pc.outcome));
      Happened(before, Resume(r, true, false, 0));
    }
  }

  /** For the object: two running requests never concern the same key. */
  lemma OneRequestPerKey(keys: ConversationKeys, r: RequestId, r': RequestId)
    requires keys.Valid() && r in keys.promises && r' in keys.promises
    requires keys.promises[r] == keys.promises[r'] && keys.promises[r].pc.AwaitingReply?
    ensures r == r'
  {
    OneOutstandingRequest(keys.history, r, r');
  }
}
