/** Where a returned conversation key comes from, and what is asked of the server for it. */
module KeyProvenance {
  import opened Options
  import opened KeyRequests

  // ----- what events establish -----

  /**
   What an event can establish: a call found a raw key in the cache when it began, or
   a stored one when its load resolved; a request unwrapped a raw key, got a reply
   that the key is not found, or failed otherwise.
   */
  datatype Fact =
    | Cached(call: CallId, key: CacheKey, raw: RawKey)
    | Stored(call: CallId, key: CacheKey, raw: RawKey)
    | Unwrapped(request: RequestId, key: CacheKey, raw: RawKey)
    | Learned(key: CacheKey, raw: RawKey)
    | Missing(key: CacheKey)
    | Broken(request: RequestId)

  function NewFacts(s: State, e: Event): set<Fact> {
    match e
    case Begin(c, key) => if c !in s.calls && key in s.cache then {Cached(c, key, s.cache[key])} else {}
    case Loaded(c, legacy, _) =>
      if c in s.calls && s.calls[c].Loading? && s.calls[c].cached.None? && legacy.Some? then
        {Stored(c, s.calls[c].key, legacy.value), Learned(s.calls[c].key, legacy.value)}
      else {}
    case Resume(r, ok, _, raw) =>
      if r !in s.requests then {}
      else if !ok then {Broken(r)}
      else if s.requests[r].pc.Unwrapping? then {Unwrapped(r, s.requests[r].key, raw), Learned(s.requests[r].key, raw)}
      else {}
    case Reply(r, found, notFound) =>
      if r !in s.requests || !s.requests[r].pc.AwaitingReply? || found then {}
      else if notFound then {Missing(s.requests[r].key)}
      else {Broken(r)}
    case Wake(_) => {}
  }

  function Facts(events: seq<Event>): set<Fact> {
    if events == [] then {}
    else
      var n := |events| - 1;
      Facts(events[..n]) + NewFacts(Run(events[..n]), events[n])
  }

  /** Event k established the fact. */
  predicate Establishes(events: seq<Event>, k: nat, fact: Fact) {
    k < |events| && fact in NewFacts(Run(events[..k]), events[k])
  }

  lemma EarlierFact(events: seq<Event>, n: nat, k: nat, fact: Fact)
    requires n <= |events| && Establishes(events[..n], k, fact)
    ensures Establishes(events, k, fact)
  {
    assert events[..n][..k] == events[..k];
  }

  lemma {:induction false} FactsAreEstablished(events: seq<Event>, fact: Fact)
    requires fact in Facts(events)
    ensures exists k: nat :: Establishes(events, k, fact)
  {
    var n := |events| - 1;
    if fact in NewFacts(Run(events[..n]), events[n]) {
      assert Establishes(events, n, fact);
    } else {
      FactsAreEstablished(events[..n], fact);
      var k: nat :| Establishes(events[..n], k, fact);
      EarlierFact(events, n, k, fact);
    }
  }

  // ----- the invariant: whatever a request or a call holds was established -----

  predicate OutcomeFounded(r: RequestId, key: CacheKey, outcome: Outcome, f: set<Fact>) {
    match outcome
    case Key(raw) => Unwrapped(r, key, raw) in f
    case KeyNotFound => Missing(key) in f
    case OtherError => Broken(r) in f
  }

  predicate RequestFounded(r: RequestId, request: Request, f: set<Fact>) {
    match request.pc
    case Storing(_, raw) => Unwrapped(r, request.key, raw) in f
    case Hashing(raw) => Unwrapped(r, request.key, raw) in f
    case StoringActive(raw) => Unwrapped(r, request.key, raw) in f
    case Failing(notFound) => if notFound then Missing(request.key) in f else Broken(r) in f
    case Finishing(outcome) => OutcomeFounded(r, request.key, outcome, f)
    case Done(outcome) => OutcomeFounded(r, request.key, outcome, f)
    case _ => true
  }

  predicate CallFounded(c: CallId, call: Call, f: set<Fact>) {
    match call
    case Loading(key, cached) => cached.Some? ==> Cached(c, key, cached.value) in f
    case Waiting(_, _) => true
    case Returned(key, outcome, Some(r)) => OutcomeFounded(r, key, outcome, f)
    case Returned(key, Key(raw), None) => Cached(c, key, raw) in f || Stored(c, key, raw) in f
    case Returned(key, outcome, None) => outcome.KeyNotFound? && Missing(key) in f
  }

  ghost predicate RequestsFounded(requests: map<RequestId, Request>, f: set<Fact>) {
    forall r :: r in requests ==> RequestFounded(r, requests[r], f)
  }

  ghost predicate CallsFounded(calls: map<CallId, Call>, f: set<Fact>) {
    forall c :: c in calls ==> CallFounded(c, calls[c], f)
  }

  ghost predicate CacheFounded(cache: map<CacheKey, RawKey>, f: set<Fact>) {
    forall key :: key in cache ==> Learned(key, cache[key]) in f
  }

  ghost predicate UnavailableFounded(unavailable: set<CacheKey>, f: set<Fact>) {
    forall key :: key in unavailable ==> Missing(key) in f
  }

  ghost predicate Founded(s: State, f: set<Fact>) {
    && RequestsFounded(s.requests, f) && CallsFounded(s.calls, f)
    && CacheFounded(s.cache, f) && UnavailableFounded(s.unavailable, f)
  }

  lemma MoreFacts(s: State, f: set<Fact>, more: set<Fact>)
    requires Founded(s, f)
    ensures Founded(s, f + more)
  {
    forall r | r in s.requests ensures RequestFounded(r, s.requests[r], f + more) {
      assert RequestFounded(r, s.requests[r], f);
    }
    forall c | c in s.calls ensures CallFounded(c, s.calls[c], f + more) { assert CallFounded(c, s.calls[c], f); }
  }

  lemma SetPcFounded(s: State, r: RequestId, pc: Pc, f: set<Fact>)
    requires Founded(s, f) && r in s.requests && RequestFounded(r, Request(s.requests[r].key, pc), f)
    ensures Founded(SetPc(s, r, pc), f)
  {
  }

  lemma SetCallFounded(s: State, c: CallId, call: Call, f: set<Fact>)
    requires Founded(s, f) && CallFounded(c, call, f)
    ensures Founded(SetCall(s, c, call), f)
  {
  }

  lemma AfterLoadFounded(s: State, c: CallId, key: CacheKey, found: Option<RawKey>, r: RequestId, f: set<Fact>)
    requires Founded(s, f)
    requires found.Some? ==>
               Learned(key, found.value) in f && (Cached(c, key, found.value) in f || Stored(c, key, found.value) in f)
    ensures Founded(AfterLoad(s, c, key, found, r), f)
  {
    if found.Some? {
      SetCallFounded(s, c, Returned(key, Key(found.value), None), f);
    } else if key in s.unavailable {
      SetCallFounded(s, c, Returned(key, KeyNotFound, None), f);
    } else if key in s.pending {
      SetCallFounded(s, c, Waiting(key, s.pending[key]), f);
    } else if r !in s.requests {
      SetCallFounded(s, c, Waiting(key, r), f);
    }
  }

  /** What a resumed request goes on with is founded. */
  lemma NextIsFounded(s: State, r: RequestId, ok: bool, inlinePackage: bool, raw: RawKey, f: set<Fact>)
    requires r in s.requests && RequestFounded(r, s.requests[r], f)
    requires !ok ==> Broken(r) in f
    requires ok && s.requests[r].pc.Unwrapping? ==> Unwrapped(r, s.requests[r].key, raw) in f
    ensures RequestFounded(r, ResumeRequest(s, r, ok, inlinePackage, raw).requests[r], f)
  {
  }

  lemma ResumeMoves(s: State, r: RequestId, ok: bool, inlinePackage: bool, raw: RawKey)
    requires r in s.requests
    ensures var s' := ResumeRequest(s, r, ok, inlinePackage, raw);
            && s'.requests == s.requests[r := s'.requests[r]] && s'.requests[r].key == s.requests[r].key
            && s'.calls == s.calls
  {
  }

  /** What resuming a request does to the fields of the hook. */
  lemma ResumeIs(s: State, r: RequestId, ok: bool, inlinePackage: bool, raw: RawKey)
    requires r in s.requests
    ensures var s', request := ResumeRequest(s, r, ok, inlinePackage, raw), s.requests[r];
            && s'.cache == (if ok && request.pc.Unwrapping? then s.cache[request.key := raw] else s.cache)
            && s'.unavailable == s.unavailable + (if request.pc == Failing(true) then {request.key} else {})
  {
  }

  lemma ResumeFounded(s: State, e: Event, f: set<Fact>)
    requires Founded(s, f) && e.Resume? && e.request in s.requests
    ensures Founded(Step(s, e), f + NewFacts(s, e))
  {
    var f', r := f + NewFacts(s, e), e.request;
    MoreFacts(s, f, NewFacts(s, e));
    assert RequestFounded(r, s.requests[r], f');
    ResumeMoves(s, r, e.ok, e.inlinePackage, e.raw);
    ResumeIs(s, r, e.ok, e.inlinePackage, e.raw);
    NextIsFounded(s, r, e.ok, e.inlinePackage, e.raw, f');
  }

  lemma ReplyFounded(s: State, e: Event, f: set<Fact>)
    requires Founded(s, f) && e.Reply? && e.request in s.requests && s.requests[e.request].pc.AwaitingReply?
    ensures Founded(Step(s, e), f + NewFacts(s, e))
  {
    MoreFacts(s, f, NewFacts(s, e));
    SetPcFounded(s, e.request, Step(s, e).requests[e.request].pc, f + NewFacts(s, e));
  }

  /** What a call found in the cache was learned, whenever it was put there. */
  predicate CachedWasLearned(f: set<Fact>) {
    forall fact :: fact in f && fact.Cached? ==> Learned(fact.key, fact.raw) in f
  }

  lemma LoadedFounded(s: State, e: Event, f: set<Fact>)
    requires Founded(s, f) && CachedWasLearned(f) && e.Loaded? && e.call in s.calls && s.calls[e.call].Loading?
    ensures Founded(Step(s, e), f + NewFacts(s, e))
  {
    var c, f' := e.call, f + NewFacts(s, e);
    var key, cached := s.calls[c].key, s.calls[c].cached;
    assert CallFounded(c, s.calls[c], f);
    assert cached.Some? ==> Cached(c, key, cached.value).Cached?;
    MoreFacts(s, f, NewFacts(s, e));
    AfterLoadFounded(s, c, key, if cached.Some? then cached else e.legacy, e.request, f');
  }

  lemma CallEventFounded(s: State, e: Event, f: set<Fact>)
    requires Founded(s, f) && (e.Begin? || e.Wake?)
    requires e.Wake? ==> CallsMatch(s)
    ensures Founded(Step(s, e), f + NewFacts(s, e))
  {
    MoreFacts(s, f, NewFacts(s, e));
    var s', f' := Step(s, e), f + NewFacts(s, e);
    if s' != s {
      if e.Wake? {
        var r := s.calls[e.call].request;
        assert RequestFounded(r, s.requests[r], f');
      }
      SetCallFounded(s, e.call, s'.calls[e.call], f');
    }
  }

  /** A waiting call waits for a request of its own key. */
  ghost predicate CallsMatch(s: State) { forall c :: c in s.calls ==> CallOk(s, s.calls[c]) }

  lemma LearnedStays(s: State, e: Event, f: set<Fact>)
    requires Founded(s, f) && CachedWasLearned(f)
    ensures CachedWasLearned(f + NewFacts(s, e))
  {
  }

  lemma StepFounded(s: State, e: Event, f: set<Fact>)
    requires Founded(s, f) && CachedWasLearned(f) && CallsMatch(s)
    ensures Founded(Step(s, e), f + NewFacts(s, e))
  {
    match e
    case Begin(_, _) => CallEventFounded(s, e, f);
    case Wake(_) => CallEventFounded(s, e, f);
    case Loaded(c, _, _) =>
      if c in s.calls && s.calls[c].Loading? { LoadedFounded(s, e, f); } else { MoreFacts(s, f, NewFacts(s, e)); }
    case Resume(r, _, _, _) =>
      if r in s.requests { ResumeFounded(s, e, f); } else { MoreFacts(s, f, NewFacts(s, e)); }
    case Reply(r, _, _) =>
      if r in s.requests && s.requests[r].pc.AwaitingReply? {
        ReplyFounded(s, e, f);
      } else {
        MoreFacts(s, f, NewFacts(s, e));
      }
  }

  lemma {:induction false} RunFounded(events: seq<Event>)
    ensures Founded(Run(events), Facts(events)) && CachedWasLearned(Facts(events))
  {
    if events != [] {
      var n := |events| - 1;
      RunFounded(events[..n]);
      RunKeeps(events[..n]);
      StepFounded(Run(events[..n]), events[n], Facts(events[..n]));
      LearnedStays(Run(events[..n]), events[n], Facts(events[..n]));
    }
  }

  // ----- theorems -----

  ghost predicate Established(events: seq<Event>, fact: Fact) { exists k: nat :: Establishes(events, k, fact) }

  lemma FoundedIsEstablished(events: seq<Event>, r: RequestId, key: CacheKey, outcome: Outcome)
    requires OutcomeFounded(r, key, outcome, Facts(events))
    ensures match outcome
            case Key(raw) => Established(events, Unwrapped(r, key, raw))
            case KeyNotFound => Established(events, Missing(key))
            case OtherError => Established(events, Broken(r))
  {
    match outcome
    case Key(raw) => FactsAreEstablished(events, Unwrapped(r, key, raw));
    case KeyNotFound => FactsAreEstablished(events, Missing(key));
    case OtherError => FactsAreEstablished(events, Broken(r));
  }

  /**
   A call that waited for a request returns what that request came to: the raw key
   that the request itself unwrapped for the call's key, key_not_found only if a
   reply said so of that key, and any other error only if one of its awaits failed.
   */
  lemma SharedOutcomesAreReal(events: seq<Event>, c: CallId)
    requires c in Run(events).calls && Run(events).calls[c].Returned? && Run(events).calls[c].shared.Some?
    ensures var call := Run(events).calls[c];
            match call.outcome
            case Key(raw) => Established(events, Unwrapped(call.shared.value, call.key, raw))
            case KeyNotFound => Established(events, Missing(call.key))
            case OtherError => Established(events, Broken(call.shared.value))
  {
    RunFounded(events);
    var call := Run(events).calls[c];
    assert CallFounded(c, call, Facts(events));
    FoundedIsEstablished(events, call.shared.value, call.key, call.outcome);
  }

  /**
   A call that returns at once returns the raw key that the cache held for its key
   when it began or, only if it held none, the stored one that its load resolved to;
   or key_not_found, if a reply said so of that key.
   */
  lemma ImmediateOutcomesAreReal(events: seq<Event>, c: CallId)
    requires c in Run(events).calls && Run(events).calls[c].Returned? && Run(events).calls[c].shared.None?
    ensures var call := Run(events).calls[c];
            match call.outcome
            case Key(raw) =>
              Established(events, Cached(c, call.key, raw)) || Established(events, Stored(c, call.key, raw))
            case KeyNotFound => Established(events, Missing(call.key))
            case OtherError => false
  {
    RunFounded(events);
    var call := Run(events).calls[c];
    assert CallFounded(c, call, Facts(events));
    if call.outcome.KeyNotFound? {
      FactsAreEstablished(events, Missing(call.key));
    } else if Cached(c, call.key, call.outcome.raw) in Facts(events) {
      FactsAreEstablished(events, Cached(c, call.key, call.outcome.raw));
    } else {
      FactsAreEstablished(events, Stored(c, call.key, call.outcome.raw));
    }
  }

  /** The cache holds for a key only what a request of that key unwrapped or what was stored for it. */
  lemma CachedKeysWereLearned(events: seq<Event>, key: CacheKey)
    requires key in Run(events).cache
    ensures Established(events, Learned(key, Run(events).cache[key]))
  {
    RunFounded(events);
    FactsAreEstablished(events, Learned(key, Run(events).cache[key]));
  }

  // ----- what is asked of the server -----

  predicate Awaits(s: State, r: RequestId) { r in s.requests && s.requests[r].pc.AwaitingReply? }

  /** The event makes this request wait for a reply. */
  predicate Asks(s: State, e: Event, r: RequestId) { Awaits(Step(s, e), r) && !Awaits(s, r) }

  lemma ResumePushes(s: State, e: Event)
    requires e.Resume? && e.request in s.requests
    ensures forall r :: Asks(s, e, r) ==> Step(s, e).pushed == s.pushed + multiset{Step(s, e).requests[r].key}
    ensures (forall r :: !Asks(s, e, r)) ==> Step(s, e).pushed == s.pushed
  {
    ResumeMoves(s, e.request, e.ok, e.inlinePackage, e.raw);
    assert forall r :: Asks(s, e, r) ==> r == e.request;
    assert Step(s, e).pushed != s.pushed ==> Asks(s, e, e.request);
  }

  lemma OthersPushNothing(s: State, e: Event)
    requires e.Resume? ==> e.request !in s.requests
    ensures Step(s, e).pushed == s.pushed && forall r :: !Asks(s, e, r)
  {
  }

  /** One chat_e2ee_key is pushed, for the request's key, exactly when a request begins to wait for its reply. */
  lemma PushesExactlyWhatItAwaits(s: State, e: Event)
    ensures forall r :: Asks(s, e, r) ==> Step(s, e).pushed == s.pushed + multiset{Step(s, e).requests[r].key}
    ensures (forall r :: !Asks(s, e, r)) ==> Step(s, e).pushed == s.pushed
  {
    if e.Resume? && e.request in s.requests { ResumePushes(s, e); } else { OthersPushNothing(s, e); }
  }

  lemma SetPcTwice(s: State, r: RequestId, pc: Pc, pc': Pc)
    requires r in s.requests
    ensures SetPc(SetPc(s, r, pc), r, pc') == SetPc(s, r, pc')
  {
  }

  /** The awaits that store an unwrapped key. */
  lemma StorageGoesOn(s: State, r: RequestId, pc: Pc, raw: RawKey)
    requires r in s.requests && (pc == Storing(true, raw) || pc == Hashing(raw) || pc == StoringActive(raw))
    ensures var pc' := if pc.Storing? then Hashing(raw)
                       else if pc.Hashing? then StoringActive(raw) else Finishing(Key(raw));
            Step(SetPc(s, r, pc), Resume(r, true, false, raw)) == SetPc(s, r, pc')
  {
    SetPcTwice(s, r, pc, Hashing(raw));
    SetPcTwice(s, r, pc, StoringActive(raw));
    SetPcTwice(s, r, pc, Finishing(Key(raw)));
  }

  lemma AnswerIsUnwrapped(events: seq<Event>, r: RequestId, raw: RawKey)
    requires Awaits(Run(events), r)
    ensures var s := Run(events);
            Run(events + [Reply(r, true, false)] + [Resume(r, true, false, raw)])
            == SetPc(s.(cache := s.cache[s.requests[r].key := raw]), r, Storing(true, raw))
  {
    RunAppend(events, Reply(r, true, false));
    RunAppend(events + [Reply(r, true, false)], Resume(r, true, false, raw));
    SetPcTwice(Run(events), r, Unwrapping(true), Storing(true, raw));
  }

  lemma UnwrappedIsStored(events: seq<Event>, s: State, r: RequestId, raw: RawKey)
    requires r in s.requests && Run(events) == SetPc(s, r, Storing(true, raw))
    ensures var goOn := Resume(r, true, false, raw);
            Run(events + [goOn] + [goOn] + [goOn]) == SetPc(s, r, Finishing(Key(raw)))
  {
    var goOn := Resume(r, true, false, raw);
    RunAppend(events, goOn);
    RunAppend(events + [goOn], goOn);
    RunAppend(events + [goOn] + [goOn], goOn);
    StorageGoesOn(s, r, Storing(true, raw), raw);
    StorageGoesOn(s, r, Hashing(raw), raw);
    StorageGoesOn(s, r, StoringActive(raw), raw);
  }

  lemma StoredIsDone(events: seq<Event>, s: State, r: RequestId, raw: RawKey)
    requires r in s.requests && Run(events) == SetPc(s, r, Finishing(Key(raw)))
    ensures Run(events + [Resume(r, true, false, raw)])
            == SetPc(s.(pending := s.pending - {s.requests[r].key}), r, Done(Key(raw)))
  {
    RunAppend(events, Resume(r, true, false, raw));
    SetPcTwice(s, r, Finishing(Key(raw)), Done(Key(raw)));
  }

  /** The awaits after an answer, from the reply to the end of the finally block. */
  function Awaited(r: RequestId, raw: RawKey): seq<Event> {
    var goOn := Resume(r, true, false, raw);
    [Reply(r, true, false), goOn, goOn, goOn, goOn, goOn]
  }

  lemma AnswerGoesOn(events: seq<Event>, r: RequestId, raw: RawKey)
    requires Awaits(Run(events), r)
    ensures var s := Run(events);
            var key := s.requests[r].key;
            Run(events + Awaited(r, raw))
            == SetPc(s.(cache := s.cache[key := raw], pending := s.pending - {key}), r, Done(Key(raw)))
  {
    var goOn, s := Resume(r, true, false, raw), Run(events);
    var unwrapped := events + [Reply(r, true, false)] + [goOn];
    var known := s.(cache := s.cache[s.requests[r].key := raw]);
    AnswerIsUnwrapped(events, r, raw);
    UnwrappedIsStored(unwrapped, known, r, raw);
    StoredIsDone(unwrapped + [goOn] + [goOn] + [goOn], known, r, raw);
    assert events + Awaited(r, raw) == unwrapped + [goOn] + [goOn] + [goOn] + [goOn];
  }

  /**
   A request that is answered, and whose awaits then succeed, hands the key it
   unwrapped to every call that waits for it; the key is cached and no longer pending.
   */
  lemma AnswersReachTheCaller(events: seq<Event>, r: RequestId, c: CallId, raw: RawKey)
    requires Awaits(Run(events), r) && c in Run(events).calls && Run(events).calls[c].Waiting?
    requires Run(events).calls[c].request == r
    ensures var key, after := Run(events).requests[r].key, Run(events + Awaited(r, raw) + [Wake(c)]);
            && c in after.calls && after.calls[c] == Returned(key, Key(raw), Some(r))
            && after.cache == Run(events).cache[key := raw] && key !in after.pending
  {
    RunKeeps(events);
    assert CallOk(Run(events), Run(events).calls[c]);
    AnswerGoesOn(events, r, raw);
    RunAppend(events + Awaited(r, raw), Wake(c));
  }

  /**
   A request that finds a package for this device in the message unwraps it without
   asking the server, and hands its key to every call that waits for it.
   */
  lemma InlinePackagesReachTheCaller(events: seq<Event>, r: RequestId, c: CallId, raw: RawKey)
    requires r in Run(events).requests && Run(events).requests[r].pc.LoadingDevice?
    requires c in Run(events).calls && Run(events).calls[c].Waiting? && Run(events).calls[c].request == r
    ensures var goOn, key := Resume(r, true, true, raw), Run(events).requests[r].key;
            var after := Run(events + [goOn] + [goOn] + [goOn] + [goOn] + [Wake(c)]);
            && c in after.calls && after.calls[c] == Returned(key, Key(raw), Some(r))
            && after.cache == Run(events).cache[key := raw] && key !in after.pending
            && after.pushed == Run(events).pushed
  {
    RunKeeps(events);
    assert CallOk(Run(events), Run(events).calls[c]);
    InlineIsUnwrapped(events, r, raw);
    var goOn, s := Resume(r, true, true, raw), Run(events);
    InlineIsStored(events + [goOn] + [goOn], s.(cache := s.cache[s.requests[r].key := raw]), r, raw);
    RunAppend(events + [goOn] + [goOn] + [goOn] + [goOn], Wake(c));
  }

  lemma InlineIsUnwrapped(events: seq<Event>, r: RequestId, raw: RawKey)
    requires r in Run(events).requests && Run(events).requests[r].pc.LoadingDevice?
    ensures var s, goOn := Run(events), Resume(r, true, true, raw);
            Run(events + [goOn] + [goOn])
            == SetPc(s.(cache := s.cache[s.requests[r].key := raw]), r, Storing(false, raw))
  {
    var goOn := Resume(r, true, true, raw);
    RunAppend(events, goOn);
    RunAppend(events + [goOn], goOn);
    SetPcTwice(Run(events), r, Unwrapping(false), Storing(false, raw));
  }

  lemma InlineIsStored(events: seq<Event>, s: State, r: RequestId, raw: RawKey)
    requires r in s.requests && Run(events) == SetPc(s, r, Storing(false, raw))
    ensures var goOn := Resume(r, true, true, raw);
            Run(events + [goOn] + [goOn])
            == SetPc(s.(pending := s.pending - {s.requests[r].key}), r, Done(Key(raw)))
  {
    var goOn := Resume(r, true, true, raw);
    RunAppend(events, goOn);
    RunAppend(events + [goOn], goOn);
    SetPcTwice(s, r, Storing(false, raw), Finishing(Key(raw)));
    SetPcTwice(s, r, Finishing(Key(raw)), Done(Key(raw)));
  }

  /** And a call for a key that is neither stored, known to be missing nor pending asks the server for it. */
  lemma UnknownKeysAreRequested(events: seq<Event>, c: CallId, key: CacheKey, r: RequestId)
    requires var s := Run(events);
             c !in s.calls && r !in s.requests && key !in s.cache && key !in s.unavailable && key !in s.pending
    ensures var asked := Run(events + [Begin(c, key)] + [Loaded(c, None, r)] + [Resume(r, true, false, 0)]);
            && Awaits(asked, r) && asked.requests[r].key == key
            && c in asked.calls && asked.calls[c] == Waiting(key, r)
            && asked.pushed == Run(events).pushed + multiset{key}
  {
    RunAppend(events, Begin(c, key));
    RunAppend(events + [Begin(c, key)], Loaded(c, None, r));
    RunAppend(events + [Begin(c, key)] + [Loaded(c, None, r)], Resume(r, true, false, 0));
  }
}
