/**
 Requests for conversation keys (rawConversationKey in chat_e2ee_hook.js), as a
 transition system with one step per `await` segment and promise reaction.
 */
module KeyRequests {
  import opened Options
  import Histories

  /** The cache key: conversation id and key uid. */
  type CacheKey = string
  type RawKey = nat
  type CallId = nat
  type RequestId = nat

  datatype Outcome = Key(raw: RawKey) | KeyNotFound | OtherError

  /** Where the shared request promise stands. Done is settled, its finally block run. */
  datatype Pc =
    | LoadingDevice
    | AwaitingReply
    | Unwrapping(fromReply: bool)
    | Storing(fromReply: bool, raw: RawKey)
    | Hashing(raw: RawKey)
    | StoringActive(raw: RawKey)
    | Failing(notFound: bool)
    | Finishing(outcome: Outcome)
    | Done(outcome: Outcome)

  datatype Request = Request(key: CacheKey, pc: Pc)

  /** A call of rawConversationKey; `shared` remembers the request it waited for. */
  datatype Call =
    | Loading(key: CacheKey, cached: Option<RawKey>)
    | Waiting(key: CacheKey, request: RequestId)
    | Returned(key: CacheKey, outcome: Outcome, shared: Option<RequestId>)

  /**
   `cache`, `unavailable` and `pending` are fields of the hook. History: every
   request ever made, the chat_e2ee_key events pushed, and the keys that a reply
   reported as not found.
   */
  datatype State = State(
    cache: map<CacheKey, RawKey>,
    unavailable: set<CacheKey>,
    pending: map<CacheKey, RequestId>,
    requests: map<RequestId, Request>,
    calls: map<CallId, Call>,
    pushed: multiset<CacheKey>,
    reported: set<CacheKey>)

  const INIT := State(map[], {}, map[], map[], map[], multiset{}, {})

  datatype Event =
    | Begin(call: CallId, key: CacheKey)
    | Loaded(call: CallId, legacy: Option<RawKey>, request: RequestId)
    | Resume(request: RequestId, ok: bool, inlinePackage: bool, raw: RawKey)
    | Reply(request: RequestId, found: bool, notFound: bool)
    | Wake(call: CallId)

  function SetCall(s: State, c: CallId, call: Call): State { s.(calls := s.calls[c := call]) }

  function SetPc(s: State, r: RequestId, pc: Pc): State
    requires r in s.requests
  {
    s.(requests := s.requests[r := s.requests[r].(pc := pc)])
  }

  function CachedKey(s: State, key: CacheKey): Option<RawKey> {
    if key in s.cache then Some(s.cache[key]) else None
  }

  /** The segment after loadRawConversationKey: a stored key, a known failure, a pending request, or a new one. */
  function AfterLoad(s: State, c: CallId, key: CacheKey, found: Option<RawKey>, r: RequestId): State {
    if found.Some? then SetCall(s.(cache := s.cache[key := found.value]), c, Returned(key, Key(found.value), None))
    else if key in s.unavailable then SetCall(s, c, Returned(key, KeyNotFound, None))
    else if key in s.pending then SetCall(s, c, Waiting(key, s.pending[key]))
    else if r in s.requests then s
    else
      SetCall(s.(requests := s.requests[r := Request(key, LoadingDevice)], pending := s.pending[key := r]),
              c, Waiting(key, r))
  }

  function ResumeRequest(s: State, r: RequestId, ok: bool, inlinePackage: bool, raw: RawKey): State
    requires r in s.requests
  {
    var key := s.requests[r].key;
    match s.requests[r].pc
    case LoadingDevice =>
      if !ok then SetPc(s, r, Failing(false))
      else if inlinePackage then SetPc(s, r, Unwrapping(false))
      else SetPc(s.(pushed := s.pushed + multiset{key}), r, AwaitingReply)
    case Unwrapping(fromReply) =>
      if !ok then SetPc(s, r, Failing(false))
      else SetPc(s.(cache := s.cache[key := raw]), r, Storing(fromReply, raw))
    case Storing(fromReply, stored) =>
      SetPc(s, r, if !ok then Failing(false) else if fromReply then Hashing(stored) else Finishing(Key(stored)))
    case Hashing(stored) => SetPc(s, r, if ok then StoringActive(stored) else Failing(false))
    case StoringActive(stored) => SetPc(s, r, if ok then Finishing(Key(stored)) else Failing(false))
    case Failing(notFound) =>
      if notFound then SetPc(s.(unavailable := s.unavailable + {key}), r, Finishing(KeyNotFound))
      else SetPc(s, r, Finishing(OtherError))
    case Finishing(outcome) => SetPc(s.(pending := s.pending - {key}), r, Done(outcome))
    case AwaitingReply => s
    case Done(_) => s
  }

  function Step(s: State, e: Event): State {
    match e
    case Begin(c, key) => if c in s.calls then s else SetCall(s, c, Loading(key, CachedKey(s, key)))
    case Loaded(c, legacy, r) =>
      if c in s.calls && s.calls[c].Loading? then
        AfterLoad(s, c, s.calls[c].key, if s.calls[c].cached.Some? then s.calls[c].cached else legacy, r)
      else s
    case Resume(r, ok, inlinePackage, raw) =>
      if r in s.requests then ResumeRequest(s, r, ok, inlinePackage, raw) else s
    case Reply(r, found, notFound) =>
      if r in s.requests && s.requests[r].pc.AwaitingReply? then
        if found then SetPc(s, r, Unwrapping(true))
        else
          SetPc(s.(reported := if notFound then s.reported + {s.requests[r].key} else s.reported),
                r, Failing(notFound))
      else s
    case Wake(c) =>
      if c in s.calls && s.calls[c].Waiting? && s.calls[c].request in s.requests
         && s.requests[s.calls[c].request].pc.Done?
      then SetCall(s, c, Returned(s.calls[c].key, s.requests[s.calls[c].request].pc.outcome, Some(s.calls[c].request)))
      else s
  }

  function Run(events: seq<Event>): State {
    if events == [] then INIT else Step(Run(events[..|events| - 1]), events[|events| - 1])
  }

  lemma RunAppend(events: seq<Event>, e: Event)
    ensures Run(events + [e]) == Step(Run(events), e)
  {
    assert (events + [e])[..|events|] == events;
  }

  // ----- invariant -----

  predicate IsPending(s: State, key: CacheKey, r: RequestId) { key in s.pending && s.pending[key] == r }

  /** A request that is not done is the pending one of its key, and it cannot push for a key reported missing. */
  predicate RequestOk(s: State, r: RequestId)
    requires r in s.requests
  {
    var request := s.requests[r];
    && (request.pc.Done? || IsPending(s, request.key, r))
    && (request.pc == Failing(true) ==> request.key in s.reported)
    && (request.key in s.reported ==>
          request.pc.Done? || request.pc == Failing(true)
          || (request.pc.Finishing? && request.key in s.unavailable))
  }

  predicate PendingOk(s: State, key: CacheKey)
    requires key in s.pending
  {
    s.pending[key] in s.requests && s.requests[s.pending[key]].key == key && !s.requests[s.pending[key]].pc.Done?
  }

  /** A key reported missing is marked unavailable, or its request is about to mark it. */
  predicate ReportedOk(s: State, key: CacheKey) {
    key in s.unavailable
    || (key in s.pending && s.pending[key] in s.requests && s.requests[s.pending[key]].pc == Failing(true))
  }

  predicate CallOk(s: State, call: Call) {
    match call
    case Waiting(key, r) => r in s.requests && s.requests[r].key == key
    case Returned(key, outcome, shared) =>
      shared.Some? ==> shared.value in s.requests && s.requests[shared.value] == Request(key, Done(outcome))
    case Loading(_, _) => true
  }

  ghost predicate Inv(s: State) {
    && (forall r :: r in s.requests ==> RequestOk(s, r))
    && (forall key :: key in s.pending ==> PendingOk(s, key))
    && (forall key :: key in s.reported ==> ReportedOk(s, key))
    && (forall c :: c in s.calls ==> CallOk(s, s.calls[c]))
  }

  lemma SetCallKeeps(s: State, c: CallId, call: Call)
    requires Inv(s) && CallOk(s, call)
    ensures Inv(SetCall(s, c, call))
  {
  }

  lemma CacheKeeps(s: State, cache: map<CacheKey, RawKey>, pushed: multiset<CacheKey>)
    requires Inv(s)
    ensures Inv(s.(cache := cache, pushed := pushed))
  {
  }

  lemma NewRequestKeeps(s: State, key: CacheKey, r: RequestId)
    requires Inv(s) && r !in s.requests && key !in s.pending && key !in s.unavailable
    ensures Inv(s.(requests := s.requests[r := Request(key, LoadingDevice)], pending := s.pending[key := r]))
  {
    assert key in s.reported ==> ReportedOk(s, key);
  }

  lemma AfterLoadKeeps(s: State, c: CallId, key: CacheKey, found: Option<RawKey>, r: RequestId)
    requires Inv(s)
    ensures Inv(AfterLoad(s, c, key, found, r))
  {
    if found.Some? {
      CacheKeeps(s, s.cache[key := found.value], s.pushed);
      SetCallKeeps(s.(cache := s.cache[key := found.value]), c, Returned(key, Key(found.value), None));
    } else if key in s.unavailable {
      SetCallKeeps(s, c, Returned(key, KeyNotFound, None));
    } else if key in s.pending {
      assert PendingOk(s, key);
      SetCallKeeps(s, c, Waiting(key, s.pending[key]));
    } else if r !in s.requests {
      NewRequestKeeps(s, key, r);
      SetCallKeeps(s.(requests := s.requests[r := Request(key, LoadingDevice)], pending := s.pending[key := r]),
                   c, Waiting(key, r));
    }
  }

  /** A running request whose key was not reported missing moves on. */
  lemma MoveKeeps(s: State, r: RequestId, pc: Pc)
    requires Inv(s) && r in s.requests && !s.requests[r].pc.Done? && s.requests[r].key !in s.reported
    requires !pc.Done? && pc != Failing(true)
    ensures Inv(SetPc(s, r, pc))
  {
    assert RequestOk(s, r);
  }

  lemma UnavailableKeeps(s: State, r: RequestId)
    requires Inv(s) && r in s.requests && s.requests[r].pc == Failing(true)
    ensures Inv(SetPc(s.(unavailable := s.unavailable + {s.requests[r].key}), r, Finishing(KeyNotFound)))
  {
    assert RequestOk(s, r);
  }

  lemma DoneKeeps(s: State, r: RequestId, outcome: Outcome)
    requires Inv(s) && r in s.requests && s.requests[r].pc == Finishing(outcome)
    ensures Inv(SetPc(s.(pending := s.pending - {s.requests[r].key}), r, Done(outcome)))
  {
    assert RequestOk(s, r);
  }

  lemma ResumeKeeps(s: State, r: RequestId, ok: bool, inlinePackage: bool, raw: RawKey)
    requires Inv(s) && r in s.requests
    ensures Inv(ResumeRequest(s, r, ok, inlinePackage, raw))
    ensures s.requests[r].key in s.reported ==> ResumeRequest(s, r, ok, inlinePackage, raw).pushed == s.pushed
  {
    var key, pc := s.requests[r].key, s.requests[r].pc;
    assert RequestOk(s, r);
    if pc == Failing(true) {
      UnavailableKeeps(s, r);
    } else if pc.Finishing? {
      DoneKeeps(s, r, pc.outcome);
    } else if !pc.Done? && !pc.AwaitingReply? {
      var s' := ResumeRequest(s, r, ok, inlinePackage, raw);
      MoveKeeps(s, r, s'.requests[r].pc);
      CacheKeeps(SetPc(s, r, s'.requests[r].pc), s'.cache, s'.pushed);
    }
  }

  lemma ReportKeeps(s: State, r: RequestId)
    requires Inv(s) && r in s.requests && s.requests[r].pc.AwaitingReply?
    ensures Inv(SetPc(s.(reported := s.reported + {s.requests[r].key}), r, Failing(true)))
  {
    assert RequestOk(s, r);
  }

  lemma ReplyKeeps(s: State, r: RequestId, found: bool, notFound: bool)
    requires Inv(s)
    ensures Inv(Step(s, Reply(r, found, notFound)))
  {
    if r in s.requests && s.requests[r].pc.AwaitingReply? {
      assert RequestOk(s, r);
      if found {
        MoveKeeps(s, r, Unwrapping(true));
      } else if !notFound {
        MoveKeeps(s, r, Failing(false));
      } else {
        ReportKeeps(s, r);
      }
    }
  }

  lemma StepKeeps(s: State, e: Event)
    requires Inv(s)
    ensures Inv(Step(s, e))
  {
    match e
    case Begin(_, _) =>
    case Loaded(c, legacy, r) =>
      if c in s.calls && s.calls[c].Loading? {
        AfterLoadKeeps(s, c, s.calls[c].key, if s.calls[c].cached.Some? then s.calls[c].cached else legacy, r);
      }
    case Resume(r, ok, inlinePackage, raw) => if r in s.requests { ResumeKeeps(s, r, ok, inlinePackage, raw); }
    case Reply(r, found, notFound) => ReplyKeeps(s, r, found, notFound);
    case Wake(_) =>
  }

  lemma {:induction false} RunKeeps(events: seq<Event>)
    ensures Inv(Run(events))
  {
    if events != [] {
      RunKeeps(events[..|events| - 1]);
      StepKeeps(Run(events[..|events| - 1]), events[|events| - 1]);
    }
  }

  // ----- theorems -----

  /** At most one chat_e2ee_key request is outstanding per conversation and key. */
  lemma OneOutstandingRequest(events: seq<Event>, r: RequestId, r': RequestId)
    requires r in Run(events).requests && r' in Run(events).requests
    requires Run(events).requests[r] == Run(events).requests[r']
    requires Run(events).requests[r].pc.AwaitingReply?
    ensures r == r'
  {
    RunKeeps(events);
    assert RequestOk(Run(events), r) && RequestOk(Run(events), r');
  }

  predicate Runs(s: State, r: RequestId) { r in s.requests && !s.requests[r].pc.Done? }

  /** Callers that wait for the same key while a request runs wait for the same request. */
  lemma ConcurrentCallersShare(events: seq<Event>, c: CallId, c': CallId)
    requires c in Run(events).calls && c' in Run(events).calls
    requires Run(events).calls[c].Waiting? && Run(events).calls[c'].Waiting?
    requires Run(events).calls[c].key == Run(events).calls[c'].key
    requires Runs(Run(events), Run(events).calls[c].request) && Runs(Run(events), Run(events).calls[c'].request)
    ensures Run(events).calls[c].request == Run(events).calls[c'].request
  {
    RunKeeps(events);
    var s := Run(events);
    assert CallOk(s, s.calls[c]) && CallOk(s, s.calls[c']);
    assert RequestOk(s, s.calls[c].request) && RequestOk(s, s.calls[c'].request);
  }

  /** And whoever waited for a request returns with its outcome. */
  lemma SharersReturnTheSame(events: seq<Event>, c: CallId, c': CallId)
    requires c in Run(events).calls && c' in Run(events).calls
    requires Run(events).calls[c].Returned? && Run(events).calls[c'].Returned?
    requires Run(events).calls[c].shared.Some? && Run(events).calls[c].shared == Run(events).calls[c'].shared
    ensures Run(events).calls[c] == Run(events).calls[c']
  {
    RunKeeps(events);
    assert CallOk(Run(events), Run(events).calls[c]) && CallOk(Run(events), Run(events).calls[c']);
  }

  lemma ReportedStep(s: State, e: Event, key: CacheKey)
    requires Inv(s) && key in s.reported
    ensures key in Step(s, e).reported && Step(s, e).pushed[key] == s.pushed[key]
  {
    if e.Resume? && e.request in s.requests { ResumeKeeps(s, e.request, e.ok, e.inlinePackage, e.raw); }
  }

  lemma ReportedRunStep(events: seq<Event>, e: Event, key: CacheKey)
    requires key in Run(events).reported
    ensures key in Run(events + [e]).reported && Run(events + [e]).pushed[key] == Run(events).pushed[key]
  {
    RunAppend(events, e);
    RunKeeps(events);
    ReportedStep(Run(events), e, key);
  }

  /** Once a reply said key_not_found, the key is never requested again, however many callers ask for it. */
  lemma {:induction false} NeverRequestedAgain(events: seq<Event>, later: seq<Event>, key: CacheKey)
    requires key in Run(events).reported
    ensures key in Run(events + later).reported
    ensures Run(events + later).pushed[key] == Run(events).pushed[key]
    decreases |later|
  {
    if later == [] {
      assert events + later == events;
    } else {
      var n := |later| - 1;
      NeverRequestedAgain(events, later[..n], key);
      Histories.SplitLast(events, later);
      ReportedRunStep(events + later[..n], later[n], key);
    }
  }
}
