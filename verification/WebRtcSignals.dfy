/** What a WebRTC client has seen stays seen: remote descriptions, handled signals, and what follows for answers. */
module WebRtcSignals {
  import opened WebRtcModel
  import Histories

  /** A restart is scheduled, or attempts were spent. */
  predicate Restarting(r: Restart) { r.timer || r.timeouts > 0 || r.attempts > 0 }

  /** Until cleanup a step forgets neither the remote description nor a signal, and restarts only with the former. */
  predicate Persists(s: State, s': State) {
    !s'.life.cleanupStarted ==>
      && !s.life.cleanupStarted
      && (s.ice.remoteSet ==> s'.ice.remoteSet)
      && s.handled <= s'.handled
      && (Restarting(s'.restart) ==> Restarting(s.restart) || s.ice.remoteSet)
  }

  lemma FinishPersists(s: State)
    ensures Persists(s, Cleanup(s)) && Persists(s, FinishCall(s))
  {
  }

  lemma SchedulePersists(s: State)
    ensures Persists(s, ScheduleIceRestart(s))
  {
  }

  lemma ReceivePersists(s: State, own: bool, key: SignalKey, signal: Signal, t: TaskId)
    ensures Persists(s, Receive(s, own, key, signal, t))
  {
    FinishPersists(s.(handled := s.handled + {key}));
  }

  lemma DrainPersists(s: State, t: TaskId, answer: bool, queue: nat, pos: nat)
    requires queue < |s.ice.queues|
    ensures Persists(s, DrainFrom(s, t, answer, queue, pos))
  {
  }

  lemma StartDrainPersists(s: State, t: TaskId, answer: bool)
    requires s.ice.queues != []
    ensures Persists(s, StartDrain(s, t, answer))
  {
  }

  lemma FulfilledPersists(s: State, t: TaskId)
    requires t in s.tasks
    ensures Persists(s, Fulfilled(s, t))
  {
    match s.tasks[t]
    case OfferRemote => if s.ice.queues != [] { StartDrainPersists(s, t, false); }
    case AnswerRemote => if s.ice.queues != [] { StartDrainPersists(s, t, true); }
    case _ =>
  }

  lemma RejectedPersists(s: State, t: TaskId)
    requires t in s.tasks
    ensures Persists(s, Rejected(s, t))
  {
    FinishPersists(Finished(s, t));
    FinishPersists(SetAnswering(Finished(s, t), false));
  }

  lemma ResumePersists(s: State, t: TaskId, ok: bool)
    requires t in s.tasks
    ensures Persists(s, ResumeTask(s, t, ok))
  {
    if Draining(s.tasks[t]) {
      if s.tasks[t].queue < |s.ice.queues| {
        DrainPersists(s, t, s.tasks[t].AnswerDrain?, s.tasks[t].queue, s.tasks[t].pos + 1);
      }
    } else {
      FulfilledPersists(s, t);
      RejectedPersists(s, t);
    }
  }

  lemma StepPersists(s: State, e: Event)
    ensures Persists(s, Step(s, e))
  {
    match e
    case Received(own, key, signal, t) => ReceivePersists(s, own, key, signal, t);
    case Resume(t, ok) => if t in s.tasks { ResumePersists(s, t, ok); }
    case ConnectionTrouble => SchedulePersists(s);
    case Online => SchedulePersists(s);
    case Offline => FinishPersists(s);
    case EndCall => FinishPersists(PushSignal(s, EndCallSignal));
    case RejectCall => FinishPersists(PushSignal(s, RejectCallSignal));
    case _ =>
  }

  /** A restart is under way only with a remote description: until cleanup, in every run. */
  lemma {:induction false} RestartsHaveARemote(events: seq<Event>)
    requires !Run(events).life.cleanupStarted && Restarting(Run(events).restart)
    ensures Run(events).ice.remoteSet
  {
    if events != [] {
      var init := events[..|events| - 1];
      StepPersists(Run(init), events[|events| - 1]);
      if Restarting(Run(init).restart) { RestartsHaveARemote(init); }
    }
  }

  /** Until cleanup, whatever happens later, a remote description stays set and a handled signal stays handled. */
  lemma {:induction false} SeenStaysSeen(events: seq<Event>, later: seq<Event>)
    requires !Run(events + later).life.cleanupStarted
    ensures !Run(events).life.cleanupStarted
    ensures Run(events).ice.remoteSet ==> Run(events + later).ice.remoteSet
    ensures Run(events).handled <= Run(events + later).handled
    decreases |later|
  {
    if later == [] {
      assert events + later == events;
    } else {
      var n := |later| - 1;
      Histories.SplitLast(events, later);
      RunAppend(events + later[..n], later[n]);
      StepPersists(Run(events + later[..n]), later[n]);
      SeenStaysSeen(events, later[..n]);
    }
  }

  // ----- answers -----

  /** The signal leaves the client as it is, but for being remembered. */
  predicate Ignored(s: State, s': State, key: SignalKey) { s' == s || s' == s.(handled := s.handled + {key}) }

  /** An answer that arrives once a remote description was set is ignored, until cleanup and whatever happened since. */
  lemma LateAnswersAreIgnored(
      events: seq<Event>, later: seq<Event>, own: bool, key: SignalKey, t: TaskId, present: bool, haveLocalOffer: bool)
    requires Run(events).ice.remoteSet && !Run(events + later).life.cleanupStarted
    ensures var answer := Received(own, key, Answer(present, haveLocalOffer), t);
            Ignored(Run(events + later), Step(Run(events + later), answer), key)
  {
    SeenStaysSeen(events, later);
  }

  /**
   Hence the answers to restart offers are ignored: from the moment a restart was
   scheduled until cleanup no answer is taken up, neither by the caller nor by the callee.
   */
  lemma RestartAnswersAreIgnored(
      events: seq<Event>, later: seq<Event>, own: bool, key: SignalKey, t: TaskId, present: bool, haveLocalOffer: bool)
    requires Restarting(Run(events).restart) && !Run(events + later).life.cleanupStarted
    ensures var answer := Received(own, key, Answer(present, haveLocalOffer), t);
            Ignored(Run(events + later), Step(Run(events + later), answer), key)
  {
    SeenStaysSeen(events, later);
    RestartsHaveARemote(events);
    LateAnswersAreIgnored(events, later, own, key, t, present, haveLocalOffer);
  }

  /** An answer the client has not heard yet is taken up exactly when it finds no remote description to keep it out. */
  lemma AnswerIsTakenUpExactly(events: seq<Event>, key: SignalKey, t: TaskId)
    requires Run(events).link.initialized && t !in Run(events).tasks && key !in Run(events).handled
    ensures var s := Run(events);
            var s' := Step(s, Received(false, key, Answer(true, true), t));
            (t in s'.tasks && s'.tasks[t] == AnswerRemote)
            <==> s.ice.peer && !s.negotiation.answerInProgress && !s.ice.remoteSet
  {
  }

  // ----- repeated signals -----

  /** A client never reacts to a signal of its own session. */
  lemma OwnSignalsAreIgnored(events: seq<Event>, key: SignalKey, signal: Signal, t: TaskId)
    ensures Run(events + [Received(true, key, signal, t)]) == Run(events)
  {
    RunAppend(events, Received(true, key, signal, t));
  }

  /** Once a signal was delivered, every repetition of it before cleanup leaves the client exactly as it is. */
  lemma RepeatedSignalsAreIgnored(
      events: seq<Event>, later: seq<Event>, key: SignalKey, signal: Signal, t: TaskId,
      own: bool, repeated: Signal, u: TaskId)
    requires Run(events).link.initialized && t !in Run(events).tasks
    requires !Run(events + [Received(false, key, signal, t)] + later).life.cleanupStarted
    ensures var s := Run(events + [Received(false, key, signal, t)] + later);
            Step(s, Received(own, key, repeated, u)) == s
  {
    var heard := events + [Received(false, key, signal, t)];
    RunAppend(events, Received(false, key, signal, t));
    SeenStaysSeen(heard, later);
    DeliveredIsHandled(Run(events), key, signal, t);
  }

  lemma DeliveredIsHandled(s: State, key: SignalKey, signal: Signal, t: TaskId)
    ensures Receive(s, false, key, signal, t).life.cleanupStarted || key in Receive(s, false, key, signal, t).handled
  {
    if key !in s.handled {
      var heard := s.(handled := s.handled + {key});
      FinishPersists(heard);
      assert signal.CallOver? || Handle(heard, t, signal).handled == heard.handled;
    }
  }
}
