/** Where the signals a WebRTC client sends come from: the event behind each, and no event twice. */
module WebRtcOrigins {
  import opened Options
  import opened WebRtcModel
  import opened WebRtcPushes

  // ----- the event that started a handler, and the one behind a signal -----

  function TaskOf(e: Event): Option<TaskId> {
    match e
    case Received(_, _, _, t) => Some(t)
    case StartCall(t) => Some(t)
    case ResumeCall(t, _) => Some(t)
    case TimerFires(t) => Some(t)
    case _ => None
  }

  predicate StartsTask(s: State, e: Event) {
    TaskOf(e).Some? && TaskOf(e).value !in s.tasks && TaskOf(e).value in Step(s, e).tasks
  }

  /** For each handler, the index of the event that started it. */
  function StartedBy(events: seq<Event>): map<TaskId, nat> {
    if events == [] then map[]
    else
      var n := |events| - 1;
      if StartsTask(Run(events[..n]), events[n]) then StartedBy(events[..n])[TaskOf(events[n]).value := n]
      else StartedBy(events[..n])
  }

  /** The event behind event `n`: the one that started the handler it resumes, or itself. */
  function Behind(started: map<TaskId, nat>, e: Event, n: nat): nat {
    if e.Resume? && e.task in started then started[e.task] else n
  }

  /** For each signal sent, the index of the event behind it. */
  function Sources(events: seq<Event>): seq<nat> {
    if events == [] then []
    else
      var n := |events| - 1;
      if Run(events).link.pushed == Run(events[..n]).link.pushed then Sources(events[..n])
      else Sources(events[..n]) + [Behind(StartedBy(events[..n]), events[n], n)]
  }

  // ----- which event fits which handler and which signal -----

  predicate Delivers(e: Event, signal: Signal) { e.Received? && !e.own && e.signal == signal }

  predicate Fits(pc: Pc, e: Event) {
    match pc
    case StartMedia => e.StartCall?
    case ResumeMedia(initiator) => e.ResumeCall? && e.initiator == initiator
    case InitCreate(peerReady) => if peerReady then Delivers(e, PeerReady) else e.StartCall?
    case InitLocal(peerReady) => if peerReady then Delivers(e, PeerReady) else e.StartCall?
    case AfterInit => Delivers(e, PeerReady)
    case OfferMedia => Delivers(e, Offer(true))
    case OfferRemote => Delivers(e, Offer(true))
    case OfferDrain(_, _) => Delivers(e, Offer(true))
    case OfferDrained => Delivers(e, Offer(true))
    case OfferCreate => Delivers(e, Offer(true))
    case OfferLocal => Delivers(e, Offer(true))
    case AnswerRemote => Delivers(e, Answer(true, true))
    case AnswerDrain(_, _) => Delivers(e, Answer(true, true))
    case AnswerDrained => Delivers(e, Answer(true, true))
    case CandidateAdd => Delivers(e, IceCandidate(true))
    case RestartCreate => e.TimerFires?
    case RestartLocal => e.TimerFires?
    case Done => true
  }

  predicate Explains(p: Push, e: Event) {
    match p
    case PushOffer => e.StartCall? || e.TimerFires? || Delivers(e, PeerReady)
    case PushAnswer => Delivers(e, Offer(true))
    case ReadyToReceive => e.ResumeCall?
    case PushCandidate => e.LocalCandidate?
    case EndCallSignal => e.EndCall?
    case RejectCallSignal => e.RejectCall?
  }

  // ----- the invariant -----

  predicate StartOk(events: seq<Event>, pc: Pc, t: TaskId, k: nat) {
    k < |events| && TaskOf(events[k]) == Some(t) && Fits(pc, events[k])
  }

  ghost predicate StartsOk(events: seq<Event>, tasks: map<TaskId, Pc>, started: map<TaskId, nat>) {
    && started.Keys == tasks.Keys
    && forall t :: t in tasks ==> StartOk(events, tasks[t], t, started[t])
  }

  predicate SourceOk(events: seq<Event>, p: Push, k: nat) { k < |events| && Explains(p, events[k]) }

  ghost predicate SourcesOk(events: seq<Event>, pushed: seq<Push>, sources: seq<nat>) {
    && |sources| == |pushed|
    && (forall i :: 0 <= i < |sources| ==> SourceOk(events, pushed[i], sources[i]))
    && (forall i, j :: 0 <= i < j < |sources| && sources[i] == sources[j] ==> Delivers(events[sources[i]], PeerReady))
  }

  /** A handler behind a signal is done, unless peer_ready started it. */
  ghost predicate SentOnce(
      events: seq<Event>, tasks: map<TaskId, Pc>, started: map<TaskId, nat>, sources: seq<nat>)
  {
    forall t, i {:trigger started[t], sources[i]} ::
      t in started && 0 <= i < |sources| && sources[i] == started[t] && started[t] < |events| ==>
        t in tasks && (tasks[t].Done? || Delivers(events[started[t]], PeerReady))
  }

  ghost predicate Originates(
      events: seq<Event>, tasks: map<TaskId, Pc>, pushed: seq<Push>, started: map<TaskId, nat>, sources: seq<nat>)
  {
    && StartsOk(events, tasks, started) && SourcesOk(events, pushed, sources)
    && SentOnce(events, tasks, started, sources)
  }

  // ----- what one event does to the handlers and the signals -----

  /** What a resumed handler may send. */
  function Sending(pc: Pc): Option<Push> {
    match pc
    case InitLocal(_) => Some(PushOffer)
    case AfterInit => Some(PushOffer)
    case RestartLocal => Some(PushOffer)
    case OfferLocal => Some(PushAnswer)
    case ResumeMedia(_) => Some(ReadyToReceive)
    case _ => None
  }

  /** What an event other than a resumption may send. */
  function SendingNow(e: Event): Option<Push> {
    match e
    case Received(own, _, signal, _) => if !own && signal.PeerReady? then Some(PushOffer) else None
    case LocalCandidate => Some(PushCandidate)
    case EndCall => Some(EndCallSignal)
    case RejectCall => Some(RejectCallSignal)
    case _ => None
  }

  predicate MaySend(s: State, s': State, p: Option<Push>) {
    s'.link.pushed == s.link.pushed || (p.Some? && s'.link.pushed == s.link.pushed + [p.value])
  }

  lemma FulfilledSends(s: State, t: TaskId)
    requires t in s.tasks
    ensures MaySend(s, Fulfilled(s, t), Sending(s.tasks[t]))
  {
    if s.tasks[t].InitLocal? {
      SetOfferBook(s, t);
    } else if s.tasks[t].AfterInit? {
      FlushBook(Finished(s, t));
    } else if Sends(s.tasks[t]) {
      PostingBook(s, t);
    } else {
      FulfilledIsSilent(s, t);
    }
  }

  lemma ResumeSends(s: State, e: Event)
    requires e.Resume? && e.task in s.tasks
    ensures MaySend(s, Step(s, e), Sending(ResumedFrom(s, e)))
  {
    if Sends(ResumedFrom(s, e)) { FulfilledSends(s, e.task); } else { QuietResume(s, e); }
  }

  lemma HandleSends(s: State, t: TaskId, signal: Signal)
    ensures MaySend(s, Handle(s, t, signal), if signal.PeerReady? then Some(PushOffer) else None)
  {
    if signal.CallOver? { FinishIsSilent(s); }
  }

  lemma OtherSends(s: State, e: Event)
    requires !e.Resume?
    ensures MaySend(s, Step(s, e), SendingNow(e))
  {
    match e
    case Received(_, key, signal, t) =>
      if Heard(s, e) { HandleSends(s.(handled := s.handled + {key}), t, signal); }
    case EndCall => FinishIsSilent(PushSignal(s, EndCallSignal));
    case RejectCall => FinishIsSilent(PushSignal(s, RejectCallSignal));
    case LocalCandidate =>
    case _ => OtherIsSilent(s, e);
  }

  /** Every event that fits the one await fits the other. */
  ghost predicate Follows(pc: Pc, pc': Pc) { forall e :: Fits(pc, e) ==> Fits(pc', e) }

  /** Handler `t` goes on; if it sends something it is done, unless peer_ready started it. */
  ghost predicate GoesOn(s: State, s': State, t: TaskId) {
    && t in s.tasks && t in s'.tasks && s'.tasks == s.tasks[t := s'.tasks[t]]
    && Follows(s.tasks[t], s'.tasks[t])
    && (s.tasks[t].Done? ==> s'.tasks[t].Done?)
    && (s'.link.pushed != s.link.pushed ==> s'.tasks[t].Done? || s.tasks[t] == InitLocal(true))
  }

  lemma DrainGoesOn(s: State, t: TaskId, answer: bool, queue: nat, pos: nat)
    requires t in s.tasks && !s.tasks[t].Done? && queue < |s.ice.queues|
    requires Follows(s.tasks[t], if answer then AnswerDrained else OfferDrained)
    ensures GoesOn(s, DrainFrom(s, t, answer, queue, pos), t)
  {
  }

  lemma StartDrainGoesOn(s: State, t: TaskId, answer: bool)
    requires t in s.tasks && s.ice.queues != []
    requires s.tasks[t] == (if answer then AnswerRemote else OfferRemote)
    ensures GoesOn(s, StartDrain(s, t, answer), t)
  {
  }

  lemma FulfilledGoesOn(s: State, t: TaskId)
    requires t in s.tasks && !s.tasks[t].Done?
    ensures GoesOn(s, Fulfilled(s, t), t)
  {
    FulfilledSends(s, t);
    match s.tasks[t]
    case OfferRemote => if s.ice.queues != [] { StartDrainGoesOn(s, t, false); }
    case AnswerRemote => if s.ice.queues != [] { StartDrainGoesOn(s, t, true); }
    case _ =>
  }

  lemma FinishKeepsTasks(s: State)
    ensures FinishCall(s).tasks == s.tasks
  {
  }

  lemma RejectedIsDone(s: State, t: TaskId)
    requires t in s.tasks
    ensures Rejected(s, t).tasks == s.tasks[t := Done]
  {
    FinishKeepsTasks(Finished(s, t));
    FinishKeepsTasks(SetAnswering(Finished(s, t), false));
  }

  lemma RejectedGoesOn(s: State, t: TaskId)
    requires t in s.tasks
    ensures GoesOn(s, Rejected(s, t), t)
  {
    RejectedIsSilent(s, t);
    RejectedIsDone(s, t);
  }

  lemma ResumeGoesOn(s: State, e: Event)
    requires e.Resume? && e.task in s.tasks
    ensures GoesOn(s, Step(s, e), e.task)
  {
    var t := e.task;
    var pc := s.tasks[t];
    if Draining(pc) {
      if pc.queue < |s.ice.queues| { DrainGoesOn(s, t, pc.AnswerDrain?, pc.queue, pc.pos + 1); }
    } else if !pc.Done? {
      if e.ok { FulfilledGoesOn(s, t); } else { RejectedGoesOn(s, t); }
    }
  }

  /** The event starts no handler, or the one it names, which fits it and has sent nothing. */
  ghost predicate MayStart(s: State, s': State, e: Event) {
    || (s'.tasks == s.tasks && !(TaskOf(e).Some? && TaskOf(e).value !in s.tasks && TaskOf(e).value in s'.tasks))
    || (&& TaskOf(e).Some? && TaskOf(e).value !in s.tasks && TaskOf(e).value in s'.tasks
        && s'.tasks == s.tasks[TaskOf(e).value := s'.tasks[TaskOf(e).value]]
        && Fits(s'.tasks[TaskOf(e).value], e) && s'.link.pushed == s.link.pushed)
  }

  lemma HandleStarts(s: State, e: Event)
    requires e.Received? && !e.own && e.task !in s.tasks
    ensures MayStart(s, Handle(s, e.task, e.signal), e)
  {
    if e.signal.CallOver? { FinishIsSilent(s); }
  }

  lemma OtherStarts(s: State, e: Event)
    requires !e.Resume?
    ensures MayStart(s, Step(s, e), e)
  {
    if e.Received? {
      if Heard(s, e) { HandleStarts(s.(handled := s.handled + {e.key}), e); }
    }
  }

  // ----- every event keeps it -----

  lemma LongerHistory(
      events: seq<Event>, e: Event, tasks: map<TaskId, Pc>, pushed: seq<Push>, started: map<TaskId, nat>,
      sources: seq<nat>)
    requires Originates(events, tasks, pushed, started, sources)
    ensures Originates(events + [e], tasks, pushed, started, sources)
  {
    forall t | t in tasks ensures StartOk(events + [e], tasks[t], t, started[t]) {
      assert StartOk(events, tasks[t], t, started[t]);
    }
    forall i | 0 <= i < |sources| ensures SourceOk(events + [e], pushed[i], sources[i]) {
      assert SourceOk(events, pushed[i], sources[i]);
    }
  }

  /** Handler `t`, started by event k, goes on. */
  lemma TaskGoesOn(
      events: seq<Event>, tasks: map<TaskId, Pc>, pushed: seq<Push>, started: map<TaskId, nat>, sources: seq<nat>,
      t: TaskId, pc: Pc)
    requires Originates(events, tasks, pushed, started, sources) && t in tasks && Follows(tasks[t], pc)
    requires tasks[t].Done? ==> pc.Done?
    ensures Originates(events, tasks[t := pc], pushed, started, sources)
  {
    assert StartOk(events, tasks[t], t, started[t]);
    assert StartOk(events, pc, t, started[t]);
  }

  lemma TaskStarts(
      events: seq<Event>, tasks: map<TaskId, Pc>, pushed: seq<Push>, started: map<TaskId, nat>, sources: seq<nat>,
      e: Event, pc: Pc)
    requires Originates(events, tasks, pushed, started, sources) && Fits(pc, e)
    requires TaskOf(e).Some? && TaskOf(e).value !in tasks
    ensures var t := TaskOf(e).value;
            Originates(events + [e], tasks[t := pc], pushed, started[t := |events|], sources)
  {
    LongerHistory(events, e, tasks, pushed, started, sources);
    forall i | 0 <= i < |sources| ensures sources[i] != |events| { assert SourceOk(events, pushed[i], sources[i]); }
  }

  /** A signal is sent by an event that starts no handler, or by a handler that is done or serves peer_ready. */
  lemma SignalIsSent(
      events: seq<Event>, tasks: map<TaskId, Pc>, pushed: seq<Push>, started: map<TaskId, nat>, sources: seq<nat>,
      p: Push, k: nat)
    requires Originates(events, tasks, pushed, started, sources) && SourceOk(events, p, k)
    requires k in sources ==> Delivers(events[k], PeerReady)
    requires forall t :: t in started && started[t] == k ==> tasks[t].Done? || Delivers(events[k], PeerReady)
    ensures Originates(events, tasks, pushed + [p], started, sources + [k])
  {
    var more := sources + [k];
    forall i | 0 <= i < |more| ensures SourceOk(events, (pushed + [p])[i], more[i]) {
      if i < |sources| { assert SourceOk(events, pushed[i], sources[i]); }
    }
    forall t, i | t in started && 0 <= i < |more| && more[i] == started[t]
      ensures t in tasks && (tasks[t].Done? || Delivers(events[started[t]], PeerReady))
    {
      if i < |sources| { assert sources[i] == started[t]; }
    }
  }

  /** Handler `t` sends a signal and is done, unless it serves peer_ready. */
  lemma TaskSends(
      events: seq<Event>, tasks: map<TaskId, Pc>, pushed: seq<Push>, started: map<TaskId, nat>, sources: seq<nat>,
      t: TaskId, pc: Pc, p: Push)
    requires Originates(events, tasks, pushed, started, sources) && t in tasks && Follows(tasks[t], pc)
    requires Sending(tasks[t]) == Some(p) && (pc.Done? || tasks[t] == InitLocal(true))
    ensures Originates(events, tasks[t := pc], pushed + [p], started, sources + [started[t]])
  {
    var k, tasks' := started[t], tasks[t := pc];
    assert StartOk(events, tasks[t], t, k);
    assert SourceOk(events, p, k);
    if k in sources { var i :| 0 <= i < |sources| && sources[i] == started[t]; }
    TaskGoesOn(events, tasks, pushed, started, sources, t, pc);
    forall u | u in started && started[u] == k ensures tasks'[u].Done? || Delivers(events[k], PeerReady) {
      assert StartOk(events, tasks'[u], u, started[u]);
    }
    SignalIsSent(events, tasks', pushed, started, sources, p, k);
  }

  /** A signal sent by a resumed handler comes from the event that started the handler. */
  lemma HandlerOriginates(
      events: seq<Event>, e: Event, s: State, s': State, t: TaskId, started: map<TaskId, nat>, sources: seq<nat>)
    requires Originates(events, s.tasks, s.link.pushed, started, sources)
    requires GoesOn(s, s', t) && MaySend(s, s', Sending(s.tasks[t]))
    ensures Originates(events + [e], s'.tasks, s'.link.pushed, started,
                       if s'.link.pushed == s.link.pushed then sources else sources + [started[t]])
  {
    LongerHistory(events, e, s.tasks, s.link.pushed, started, sources);
    if s'.link.pushed == s.link.pushed {
      TaskGoesOn(events + [e], s.tasks, s.link.pushed, started, sources, t, s'.tasks[t]);
    } else {
      TaskSends(events + [e], s.tasks, s.link.pushed, started, sources, t, s'.tasks[t], Sending(s.tasks[t]).value);
    }
  }

  lemma ResumeOriginates(events: seq<Event>, e: Event, s: State, started: map<TaskId, nat>, sources: seq<nat>)
    requires Originates(events, s.tasks, s.link.pushed, started, sources) && e.Resume? && e.task in s.tasks
    ensures var s' := Step(s, e);
            Originates(events + [e], s'.tasks, s'.link.pushed, started,
                       if s'.link.pushed == s.link.pushed then sources else sources + [Behind(started, e, |events|)])
  {
    ResumeGoesOn(s, e);
    ResumeSends(s, e);
    HandlerOriginates(events, e, s, Step(s, e), e.task, started, sources);
  }

  /** A signal sent at once comes from the event itself. */
  lemma PostOriginates(events: seq<Event>, e: Event, s: State, started: map<TaskId, nat>, sources: seq<nat>)
    requires Originates(events, s.tasks, s.link.pushed, started, sources) && !e.Resume?
    requires Step(s, e).tasks == s.tasks && Step(s, e).link.pushed != s.link.pushed
    ensures Originates(events + [e], s.tasks, Step(s, e).link.pushed, started, sources + [|events|])
  {
    OtherSends(s, e);
    LongerHistory(events, e, s.tasks, s.link.pushed, started, sources);
    assert SourceOk(events + [e], SendingNow(e).value, |events|);
    forall i | 0 <= i < |sources| ensures sources[i] != |events| {
      assert SourceOk(events, s.link.pushed[i], sources[i]);
    }
    forall t | t in started ensures started[t] != |events| { assert StartOk(events, s.tasks[t], t, started[t]); }
    SignalIsSent(events + [e], s.tasks, s.link.pushed, started, sources, SendingNow(e).value, |events|);
  }

  lemma StartOriginates(events: seq<Event>, e: Event, s: State, started: map<TaskId, nat>, sources: seq<nat>)
    requires Originates(events, s.tasks, s.link.pushed, started, sources) && !e.Resume? && StartsTask(s, e)
    ensures Step(s, e).link.pushed == s.link.pushed
    ensures Originates(events + [e], Step(s, e).tasks, s.link.pushed, started[TaskOf(e).value := |events|], sources)
  {
    OtherStarts(s, e);
    TaskStarts(events, s.tasks, s.link.pushed, started, sources, e, Step(s, e).tasks[TaskOf(e).value]);
  }

  ghost predicate RunOriginates(events: seq<Event>) {
    Originates(events, Run(events).tasks, Run(events).link.pushed, StartedBy(events), Sources(events))
  }

  lemma StepOriginates(events: seq<Event>, e: Event)
    requires RunOriginates(events)
    ensures RunOriginates(events + [e])
  {
    var s, started, sources := Run(events), StartedBy(events), Sources(events);
    RunAppend(events, e);
    assert (events + [e])[..|events|] == events;
    if e.Resume? {
      if e.task in s.tasks {
        ResumeOriginates(events, e, s, started, sources);
      } else {
        LongerHistory(events, e, s.tasks, s.link.pushed, started, sources);
      }
    } else if StartsTask(s, e) {
      StartOriginates(events, e, s, started, sources);
    } else {
      OtherStarts(s, e);
      if Step(s, e).link.pushed != s.link.pushed {
        PostOriginates(events, e, s, started, sources);
      } else {
        LongerHistory(events, e, s.tasks, s.link.pushed, started, sources);
      }
    }
  }

  lemma {:induction false} RunsOriginate(events: seq<Event>)
    ensures RunOriginates(events)
  {
    if events != [] {
      var n := |events| - 1;
      RunsOriginate(events[..n]);
      StepOriginates(events[..n], events[n]);
      assert events == events[..n] + [events[n]];
    }
  }

  /**
   Every signal has a cause, and causes are not used twice. In every run each answer
   sent comes from an earlier event that delivered a well-formed offer from the other
   side, each offer from a start of the call, a restart timeout or a delivered
   peer_ready, and each other signal from the event it is the reaction to; two
   signals come from the same event only if it is a peer_ready.
   */
  lemma SignalsHaveTheirOwnCause(events: seq<Event>)
    ensures var pushed, sources := Run(events).link.pushed, Sources(events);
            && |sources| == |pushed|
            && (forall i :: 0 <= i < |sources| ==>
                  sources[i] < |events| && Explains(pushed[i], events[sources[i]]))
            && (forall i, j :: 0 <= i < j < |sources| && sources[i] == sources[j] ==>
                  Delivers(events[sources[i]], PeerReady))
  {
    RunsOriginate(events);
    var pushed, sources := Run(events).link.pushed, Sources(events);
    forall i | 0 <= i < |sources| ensures sources[i] < |events| && Explains(pushed[i], events[sources[i]]) {
      assert SourceOk(events, pushed[i], sources[i]);
    }
  }
}
