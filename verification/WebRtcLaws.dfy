/** Restart budget and finality of the WebRTC client, over every run. */
module WebRtcLaws {
  import opened WebRtcModel
  import Histories

  predicate RestartOk(r: Restart) {
    && r.timeouts == (if r.timer then 1 else 0)
    && (r.timer ==> r.attempts < MAX_ICE_RESTART_ATTEMPTS)
    && r.offers <= r.attempts <= MAX_ICE_RESTART_ATTEMPTS
  }

  predicate LifeOk(life: Life) {
    (life.cleanupStarted <==> life.disposed) && life.endedCalls == (if life.endedNotified then 1 else 0)
  }

  predicate ControlOk(s: State) {
    && RestartOk(s.restart)
    && LifeOk(s.life)
    && (s.life.cleanupStarted ==> s.link.channel.None? && !s.restart.timer && !s.link.networkHandlers)
  }

  /** What a step may do to a client that has been cleaned up: nothing a caller or the network could see. */
  predicate Silent(s: State, s': State) {
    s.life.cleanupStarted ==> s'.life.cleanupStarted && s'.link.pushed == s.link.pushed
  }

  predicate Keeps(s: State, s': State) { ControlOk(s') && Silent(s, s') }

  lemma FinishKeeps(s: State)
    requires ControlOk(s)
    ensures Keeps(s, Cleanup(s)) && Keeps(s, FinishCall(s))
  {
  }

  lemma ScheduleKeeps(s: State)
    requires ControlOk(s)
    ensures Keeps(s, ScheduleIceRestart(s))
  {
    FinishKeeps(s);
  }

  lemma TimerKeeps(s: State, t: TaskId)
    requires ControlOk(s) && s.restart.timeouts > 0
    ensures Keeps(s, RestartTimeout(s, t))
  {
  }

  lemma ReceiveKeeps(s: State, own: bool, key: SignalKey, signal: Signal, t: TaskId)
    requires ControlOk(s)
    ensures Keeps(s, Receive(s, own, key, signal, t))
  {
    FinishKeeps(s.(handled := s.handled + {key}));
  }

  lemma RejectedKeeps(s: State, t: TaskId)
    requires ControlOk(s) && t in s.tasks
    ensures Keeps(s, Rejected(s, t))
  {
    FinishKeeps(Finished(s, t));
    FinishKeeps(SetAnswering(Finished(s, t), false));
  }

  lemma DrainKeeps(s: State, t: TaskId, answer: bool)
    requires ControlOk(s) && s.ice.queues != []
    ensures Keeps(s, StartDrain(s, t, answer))
  {
  }

  lemma PushKeeps(s: State, p: Push)
    requires ControlOk(s)
    ensures Keeps(s, PushSignal(s, p)) && Keeps(s, FlushPendingOffer(s))
  {
  }

  lemma FulfilledKeeps(s: State, t: TaskId)
    requires ControlOk(s) && t in s.tasks
    ensures Keeps(s, Fulfilled(s, t))
  {
    match s.tasks[t]
    case OfferRemote => if s.ice.queues != [] { DrainKeeps(s, t, false); }
    case AnswerRemote => if s.ice.queues != [] { DrainKeeps(s, t, true); }
    case AfterInit => PushKeeps(Finished(s, t), PushOffer);
    case OfferLocal => PushKeeps(Finished(s, t), PushAnswer);
    case RestartLocal => PushKeeps(Finished(s, t), PushOffer);
    case InitLocal(_) => PushKeeps(s.(negotiation := s.negotiation.(pendingOffer := true)), PushOffer);
    case ResumeMedia(initiator) =>
      PushKeeps(SetInitiator(WithPeer(Finished(s, t).(stream := true)), initiator), ReadyToReceive);
    case _ =>
  }

  lemma ResumeKeeps(s: State, t: TaskId, ok: bool)
    requires ControlOk(s) && t in s.tasks
    ensures Keeps(s, ResumeTask(s, t, ok))
  {
    if !Draining(s.tasks[t]) {
      FulfilledKeeps(s, t);
      RejectedKeeps(s, t);
    }
  }

  lemma StepKeeps(s: State, e: Event)
    requires ControlOk(s)
    ensures Keeps(s, Step(s, e))
  {
    match e
    case Received(own, key, signal, t) => ReceiveKeeps(s, own, key, signal, t);
    case Resume(t, ok) => if t in s.tasks { ResumeKeeps(s, t, ok); }
    case ConnectionTrouble => ScheduleKeeps(s);
    case Online => ScheduleKeeps(s);
    case Offline => FinishKeeps(s);
    case TimerFires(t) => if s.restart.timeouts > 0 { TimerKeeps(s, t); }
    case EndCall => FinishKeeps(PushSignal(s, EndCallSignal));
    case RejectCall => FinishKeeps(PushSignal(s, RejectCallSignal));
    case _ =>
  }

  lemma {:induction false} RunKeeps(events: seq<Event>)
    ensures ControlOk(Run(events))
  {
    if events != [] {
      RunKeeps(events[..|events| - 1]);
      StepKeeps(Run(events[..|events| - 1]), events[|events| - 1]);
    }
  }

  /**
   The restart budget: at most one restart timeout is pending, and then fewer than
   two attempts were spent; at most two restart offers are created between two
   "connected" states. The ended callback is called at most once per client.
   */
  lemma RestartBudget(events: seq<Event>)
    ensures var s := Run(events);
            && s.restart.timeouts <= 1
            && (s.restart.timeouts == 1 ==> s.restart.timer && s.restart.attempts < MAX_ICE_RESTART_ATTEMPTS)
            && s.restart.offers <= MAX_ICE_RESTART_ATTEMPTS
            && s.life.endedCalls <= 1
  {
    RunKeeps(events);
  }

  lemma FinalStep(events: seq<Event>, e: Event)
    requires Run(events).life.cleanupStarted
    ensures Run(events + [e]).life.cleanupStarted && Run(events + [e]).link.pushed == Run(events).link.pushed
  {
    RunAppend(events, e);
    RunKeeps(events);
    StepKeeps(Run(events), e);
  }

  lemma {:induction false} StaysSilent(events: seq<Event>, later: seq<Event>)
    requires Run(events).life.cleanupStarted
    ensures Run(events + later).life.cleanupStarted
    ensures Run(events + later).link.pushed == Run(events).link.pushed
    decreases |later|
  {
    if later == [] {
      assert events + later == events;
    } else {
      StaysSilent(events, later[..|later| - 1]);
      Histories.SplitLast(events, later);
      FinalStep(events + later[..|later| - 1], later[|later| - 1]);
    }
  }

  /** Cleanup is final: whatever happens later, the channel stays null, nothing is pushed and no timer is armed. */
  lemma CleanupIsFinal(events: seq<Event>, later: seq<Event>)
    requires Run(events).life.cleanupStarted
    ensures var s := Run(events + later);
            && s.life.cleanupStarted && s.link.channel.None?
            && s.link.pushed == Run(events).link.pushed
            && s.restart.timeouts == 0 && !s.restart.timer
            && s.life.endedCalls <= 1
  {
    StaysSilent(events, later);
    RunKeeps(events + later);
  }
}
