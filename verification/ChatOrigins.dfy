/** Where a message comes from: every message carries what one started send was given. */
module ChatOrigins {
  import opened Options
  import opened ChatModel
  import Histories

  // ----- the event that started a call, and the one behind a message -----

  /** For each send that runs in the page, the index of the event that started it. */
  function StartedBy(events: seq<Event>): map<TaskId, nat> {
    if events == [] then map[]
    else
      var n := |events| - 1;
      var e := events[n];
      if e.Reload? then map[]
      else if e.StartSend? && e.task !in Run(events[..n]).tasks then StartedBy(events[..n])[e.task := n]
      else StartedBy(events[..n])
  }

  /** Where a message comes from: the events that started its send and that pushed it. */
  datatype Origin = Origin(start: nat, push: nat)

  /** The origin of each message, in the order of the pushes. */
  function Origins(events: seq<Event>): seq<Origin> {
    if events == [] then []
    else
      var n := |events| - 1;
      var e, before := events[n], StartedBy(events[..n]);
      if |Run(events).messages| > |Run(events[..n]).messages| && e.Advance? && e.task in before then
        Origins(events[..n]) + [Origin(before[e.task], n)]
      else Origins(events[..n])
  }

  /** The message holds what the send was started with, under the iv drawn when it was pushed. */
  predicate IsFrom(m: Message, o: Origin, events: seq<Event>) {
    && o.start < o.push < |events|
    && events[o.start].StartSend?
    && m.cipher.plaintext == events[o.start].content && m.devices == events[o.start].devices
    && events[o.push].Advance? && events[o.push].task == events[o.start].task
    && m.cipher.iv == events[o.push].draw.iv
  }

  ghost predicate OriginsOk(events: seq<Event>, messages: seq<Message>, origins: seq<Origin>) {
    && |origins| == |messages|
    && (forall m :: 0 <= m < |origins| ==> IsFrom(messages[m], origins[m], events))
    && (forall m, n :: 0 <= m < n < |origins| ==> origins[m].start != origins[n].start)
  }

  // ----- the invariant -----

  /** The call has pushed its message, or never will. */
  predicate Done(pc: Pc) { pc.Pushed? || pc.Finished? }

  predicate StartOk(events: seq<Event>, task: Task, t: TaskId, k: nat) {
    k < |events| && task.kind.Send? && events[k] == StartSend(t, task.kind.content, task.devices)
  }

  ghost predicate StartsOk(events: seq<Event>, tasks: map<TaskId, Task>, starts: map<TaskId, nat>) {
    && (forall t :: t in tasks && tasks[t].kind.Send? ==> t in starts)
    && (forall t :: t in starts ==> t in tasks && StartOk(events, tasks[t], t, starts[t]))
  }

  /** A send whose message was pushed pushes no other. */
  ghost predicate PushedOnce(tasks: map<TaskId, Task>, starts: map<TaskId, nat>, origins: seq<Origin>) {
    forall t, m :: t in starts && 0 <= m < |origins| && origins[m].start == starts[t] ==>
      t in tasks && Done(tasks[t].pc)
  }

  ghost predicate Originates(events: seq<Event>, s: State, starts: map<TaskId, nat>, origins: seq<Origin>) {
    StartsOk(events, s.tasks, starts) && OriginsOk(events, s.messages, origins) && PushedOnce(s.tasks, starts, origins)
  }

  // ----- what one event does to the calls and the messages -----

  predicate SameWork(before: Task, after: Task) {
    after.kind == before.kind && after.devices == before.devices && (Done(before.pc) ==> Done(after.pc))
  }

  /** No call begins or ends and nothing is pushed. */
  ghost predicate Quiet(s: State, s': State) {
    && s'.messages == s.messages && s'.tasks.Keys == s.tasks.Keys
    && forall t :: t in s.tasks ==> SameWork(s.tasks[t], s'.tasks[t])
  }

  predicate Starts(s: State, e: Event) {
    (e.StartSend? && e.task !in s.tasks) || (e.StartPrepare? && e.task !in s.tasks && s.promise.None?)
  }

  predicate Pushes(s: State, e: Event) {
    && e.Advance? && e.task in s.tasks
    && s.tasks[e.task].pc.Indexing? && s.tasks[e.task].kind.Send?
  }

  lemma SetPcIsQuiet(s: State, s': State, t: TaskId, pc: Pc)
    requires t in s.tasks && !Done(s.tasks[t].pc) && s'.messages == s.messages
    requires s'.tasks == s.tasks[t := s.tasks[t].(pc := pc)]
    ensures Quiet(s, s')
  {
  }

  lemma CreateKeyIsQuiet(s: State, t: TaskId, draw: Draw)
    requires t in s.tasks && !Done(s.tasks[t].pc)
    ensures Quiet(s, CreateKey(s, t, draw))
  {
    if CreateKey(s, t, draw) != s { SetPcIsQuiet(s, CreateKey(s, t, draw), t, StoringRaw(draw.uid, draw.raw)); }
  }

  lemma WithKeyIsQuiet(s: State, t: TaskId, key: KeyLookup)
    requires t in s.tasks && !Done(s.tasks[t].pc)
    ensures Quiet(s, WithKey(s, t, key))
  {
    SetPcIsQuiet(s, WithKey(s, t, key), t, WithKey(s, t, key).tasks[t].pc);
  }

  lemma EncryptedIsQuiet(s: State, t: TaskId, key: KeyLookup)
    requires t in s.tasks && !Done(s.tasks[t].pc)
    ensures Quiet(s, Encrypted(s, t, key))
  {
    SetPcIsQuiet(s, Encrypted(s, t, key), t, Encrypted(s, t, key).tasks[t].pc);
  }

  lemma WrappedIsQuiet(s: State, t: TaskId, key: KeyLookup)
    requires t in s.tasks && !Done(s.tasks[t].pc)
    ensures Quiet(s, Wrapped(s, t, key))
  {
    SetPcIsQuiet(s, Wrapped(s, t, key), t, Wrapped(s, t, key).tasks[t].pc);
  }

  /** The segments that only store or read, and the end of a preparation. */
  lemma StorageIsQuiet(s: State, t: TaskId, draw: Draw)
    requires t in s.tasks
    requires var pc := s.tasks[t].pc;
             || pc.Trusting? || pc.Hashing? || pc.ReadingActive? || pc.StoringRaw? || pc.StoringActive? || pc.Settled?
    ensures Quiet(s, AdvanceTask(s, t, draw))
  {
    SetPcIsQuiet(s, AdvanceTask(s, t, draw), t, AdvanceTask(s, t, draw).tasks[t].pc);
  }

  lemma LookupIsQuiet(s: State, t: TaskId, draw: Draw)
    requires t in s.tasks && (s.tasks[t].pc.ReadActive? || s.tasks[t].pc.LoadedRaw?)
    ensures Quiet(s, AdvanceTask(s, t, draw))
  {
    var pc, hash, s' := s.tasks[t].pc, Sha256(s.tasks[t].devices), AdvanceTask(s, t, draw);
    CreateKeyIsQuiet(s, t, draw);
    if pc.LoadedRaw? && pc.loaded.Some? {
      WithKeyIsQuiet(s, t, KeyLookup(pc.matched.uid, pc.loaded.value, pc.matched.sentHash != Some(hash), hash));
    } else if s' != CreateKey(s, t, draw) {
      SetPcIsQuiet(s, s', t, s'.tasks[t].pc);
    }
  }

  lemma AdvanceIsQuiet(s: State, t: TaskId, draw: Draw)
    requires t in s.tasks && !Pushes(s, Advance(t, draw))
    ensures Quiet(s, AdvanceTask(s, t, draw))
  {
    match s.tasks[t].pc
    case ReadActive(_) => LookupIsQuiet(s, t, draw);
    case LoadedRaw(_, _) => LookupIsQuiet(s, t, draw);
    case StoredActive(uid, raw) => WithKeyIsQuiet(s, t, KeyLookup(uid, raw, true, Sha256(s.tasks[t].devices)));
    case Encrypting(key) => EncryptedIsQuiet(s, t, key);
    case AwaitingPrepare(key, promise) =>
      if promise in s.results {
        var s' := Decide(s, t, key, s.results[promise]);
        SetPcIsQuiet(s, s', t, s'.tasks[t].pc);
      }
    case Wrapping(key) => WrappedIsQuiet(s, t, key);
    case Indexing(_, _) =>
    case Pushed(_) =>
    case Finished =>
    case _ => StorageIsQuiet(s, t, draw);
  }

  /** A call that fails, times out or gets its reply. */
  lemma EndIsQuiet(s: State, e: Event)
    requires e.Fail? || e.Timeout? || e.Reply?
    ensures Quiet(s, Step(s, e))
  {
    var s' := Step(s, e);
    assert s' != s ==> s'.tasks == s.tasks[e.task := s.tasks[e.task].(pc := s'.tasks[e.task].pc)];
  }

  lemma OtherIsQuiet(s: State, e: Event)
    requires !e.Reload? && !Starts(s, e) && !e.Advance?
    ensures Quiet(s, Step(s, e))
  {
    if e.Fail? || e.Timeout? || e.Reply? {
      EndIsQuiet(s, e);
    } else {
      assert Step(s, e).tasks == s.tasks;
    }
  }

  lemma StepIsQuiet(s: State, e: Event)
    requires !e.Reload? && !Starts(s, e) && !Pushes(s, e)
    ensures Quiet(s, Step(s, e))
  {
    if e.Advance? {
      if e.task in s.tasks { AdvanceIsQuiet(s, e.task, e.draw); }
    } else {
      OtherIsQuiet(s, e);
    }
  }

  lemma PushIs(s: State, e: Event)
    requires Pushes(s, e)
    ensures var s', task := Step(s, e), s.tasks[e.task];
            && |s'.messages| == |s.messages| + 1 && s'.messages[..|s.messages|] == s.messages
            && s'.messages[|s.messages|].cipher.plaintext == task.kind.content
            && s'.messages[|s.messages|].devices == task.devices
            && s'.messages[|s.messages|].cipher.iv == e.draw.iv
            && s'.tasks == s.tasks[e.task := task.(pc := Pushed(|s.messages|))]
  {
  }

  lemma StartIs(s: State, e: Event)
    requires Starts(s, e)
    ensures var s' := Step(s, e);
            && s'.messages == s.messages
            && var kind := if e.StartSend? then Send(e.content) else Prepare;
               s'.tasks == s.tasks[e.task := Task(kind, e.devices, Trusting)]
  {
  }

  // ----- every event keeps it -----

  lemma OriginsStay(events: seq<Event>, e: Event, messages: seq<Message>, origins: seq<Origin>)
    requires OriginsOk(events, messages, origins)
    ensures OriginsOk(events + [e], messages, origins)
  {
    forall m | 0 <= m < |origins| ensures IsFrom(messages[m], origins[m], events + [e]) {
      assert IsFrom(messages[m], origins[m], events);
    }
  }

  lemma QuietOriginates(
      events: seq<Event>, e: Event, s: State, s': State, starts: map<TaskId, nat>, origins: seq<Origin>)
    requires Originates(events, s, starts, origins) && Quiet(s, s')
    ensures Originates(events + [e], s', starts, origins)
  {
    OriginsStay(events, e, s.messages, origins);
    forall t | t in starts ensures t in s'.tasks && StartOk(events + [e], s'.tasks[t], t, starts[t]) {
      assert StartOk(events, s.tasks[t], t, starts[t]) && SameWork(s.tasks[t], s'.tasks[t]);
    }
    forall t | t in s'.tasks && s'.tasks[t].kind.Send? ensures t in starts { assert SameWork(s.tasks[t], s'.tasks[t]); }
    forall t, m | t in starts && 0 <= m < |origins| && origins[m].start == starts[t]
      ensures t in s'.tasks && Done(s'.tasks[t].pc)
    {
      assert SameWork(s.tasks[t], s'.tasks[t]);
    }
  }

  lemma StartOriginates(events: seq<Event>, e: Event, s: State, starts: map<TaskId, nat>, origins: seq<Origin>)
    requires Originates(events, s, starts, origins) && Starts(s, e)
    ensures Originates(events + [e], Step(s, e), if e.StartSend? then starts[e.task := |events|] else starts, origins)
  {
    StartIs(s, e);
    OriginsStay(events, e, s.messages, origins);
    var s' := Step(s, e);
    var starts' := if e.StartSend? then starts[e.task := |events|] else starts;
    assert e.task !in starts;
    forall t | t in starts' ensures t in s'.tasks && StartOk(events + [e], s'.tasks[t], t, starts'[t]) {
      if t != e.task { assert StartOk(events, s.tasks[t], t, starts[t]); }
    }
    forall t, m | t in starts' && 0 <= m < |origins| && origins[m].start == starts'[t]
      ensures t in s'.tasks && Done(s'.tasks[t].pc)
    {
      assert IsFrom(s.messages[m], origins[m], events);
      assert t != e.task;
    }
  }

  lemma PushAddsOrigin(events: seq<Event>, e: Event, s: State, starts: map<TaskId, nat>, origins: seq<Origin>)
    requires Originates(events, s, starts, origins) && Pushes(s, e) && e.task in starts
    ensures OriginsOk(events + [e], Step(s, e).messages, origins + [Origin(starts[e.task], |events|)])
  {
    PushIs(s, e);
    OriginsStay(events, e, s.messages, origins);
    var messages, more := Step(s, e).messages, origins + [Origin(starts[e.task], |events|)];
    assert StartOk(events, s.tasks[e.task], e.task, starts[e.task]);
    forall m | 0 <= m < |more| ensures IsFrom(messages[m], more[m], events + [e]) {
      if m < |origins| { assert messages[m] == s.messages[m] && IsFrom(s.messages[m], origins[m], events + [e]); }
    }
  }

  lemma PushOriginates(events: seq<Event>, e: Event, s: State, starts: map<TaskId, nat>, origins: seq<Origin>)
    requires Originates(events, s, starts, origins) && Pushes(s, e)
    ensures e.task in starts
    ensures Originates(events + [e], Step(s, e), starts, origins + [Origin(starts[e.task], |events|)])
  {
    PushAddsOrigin(events, e, s, starts, origins);
    PushIs(s, e);
    var s', more := Step(s, e), origins + [Origin(starts[e.task], |events|)];
    forall t | t in starts ensures t in s'.tasks && StartOk(events + [e], s'.tasks[t], t, starts[t]) {
      assert StartOk(events, s.tasks[t], t, starts[t]);
    }
    forall t, m | t in starts && 0 <= m < |more| && more[m].start == starts[t]
      ensures t in s'.tasks && Done(s'.tasks[t].pc)
    {
      assert StartOk(events, s.tasks[t], t, starts[t]);
      assert StartOk(events, s.tasks[e.task], e.task, starts[e.task]);
    }
  }

  lemma StepOriginates(events: seq<Event>, e: Event)
    requires Originates(events, Run(events), StartedBy(events), Origins(events))
    ensures Originates(events + [e], Run(events + [e]), StartedBy(events + [e]), Origins(events + [e]))
  {
    var s := Run(events);
    RunAppend(events, e);
    assert (events + [e])[..|events|] == events;
    if e.Reload? {
      assert Origins(events + [e]) == Origins(events);
    } else if Starts(s, e) {
      StartIs(s, e);
      StartOriginates(events, e, s, StartedBy(events), Origins(events));
    } else if Pushes(s, e) {
      PushIs(s, e);
      PushOriginates(events, e, s, StartedBy(events), Origins(events));
    } else {
      StepIsQuiet(s, e);
      QuietOriginates(events, e, s, Step(s, e), StartedBy(events), Origins(events));
    }
  }

  lemma {:induction false} RunOriginates(events: seq<Event>)
    ensures Originates(events, Run(events), StartedBy(events), Origins(events))
  {
    if events != [] {
      var n := |events| - 1;
      RunOriginates(events[..n]);
      StepOriginates(events[..n], events[n]);
      assert events == events[..n] + [events[n]];
    }
  }

  /**
   In every run each message has its own earlier event that started a send: the
   message encrypts exactly the text that event was given, for exactly its devices,
   under the iv drawn at its push, and no other message comes from the same event.
   */
  lemma MessagesCarryWhatWasTyped(events: seq<Event>)
    ensures OriginsOk(events, Run(events).messages, Origins(events))
  {
    RunOriginates(events);
  }

  lemma LastOrigin(events: seq<Event>, e: Event)
    ensures Origins(events) <= Origins(events + [e])
  {
    assert (events + [e])[..|events|] == events;
  }

  /** A message keeps its origin when the run goes on. */
  lemma {:induction false} OriginsAreKept(events: seq<Event>, later: seq<Event>)
    ensures Origins(events) <= Origins(events + later)
    decreases |later|
  {
    if later == [] {
      assert events + later == events;
    } else {
      var n := |later| - 1;
      OriginsAreKept(events, later[..n]);
      Histories.SplitLast(events, later);
      LastOrigin(events + later[..n], later[n]);
    }
  }
}
