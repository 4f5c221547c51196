/** What a WebRTC client must do: answer trouble, restart, report the end of a call; and a call that connects. */
module WebRtcProgress {
  import opened Options
  import opened WebRtcModel
  import WebRtcLaws
  import WebRtcPushes

  /**
   Trouble with a negotiated connection is never passed over: either a restart is
   scheduled afterwards, or both attempts were spent and the call is over.
   */
  lemma TroubleIsAnswered(events: seq<Event>)
    requires var s := Run(events); !s.life.cleanupStarted && s.ice.peer && s.ice.remoteSet
    ensures var s, s' := Run(events), Run(events + [ConnectionTrouble]);
            && (s'.life.cleanupStarted <==> s.restart.attempts == MAX_ICE_RESTART_ATTEMPTS)
            && (!s'.life.cleanupStarted ==> s'.restart.timer && s'.restart.timeouts == 1)
  {
    RunAppend(events, ConnectionTrouble);
    WebRtcLaws.RunKeeps(events);
    WebRtcLaws.RunKeeps(events + [ConnectionTrouble]);
  }

  /** So it is when the network comes back. */
  lemma RecoveryIsAnswered(events: seq<Event>)
    requires var s := Run(events); s.link.networkHandlers && !s.life.disposed && s.ice.peer && s.ice.remoteSet
    ensures Run(events + [Online]) == Run(events + [ConnectionTrouble])
  {
    RunAppend(events, Online);
    RunAppend(events, ConnectionTrouble);
  }

  /** A connection that came up restores both attempts: trouble after it schedules a restart again. */
  lemma ConnectingRestoresTheBudget(events: seq<Event>)
    requires var s := Run(events); !s.life.cleanupStarted && s.ice.peer && s.ice.remoteSet
    ensures var s := Run(events + [Connected] + [ConnectionTrouble]);
            !s.life.cleanupStarted && s.restart.timer
  {
    RunAppend(events, Connected);
    TroubleIsAnswered(events + [Connected]);
  }

  /** A scheduled restart of a joined client sends its offer, unless one of its two awaits fails. */
  lemma RestartIsOffered(events: seq<Event>, t: TaskId)
    requires var s := Run(events);
             s.restart.timer && !s.life.cleanupStarted && s.ice.peer && Joined(s.link) && t !in s.tasks
    ensures var s, s' := Run(events), Run(events + [TimerFires(t)] + [Resume(t, true)] + [Resume(t, true)]);
            && s'.link.pushed == s.link.pushed + [PushOffer]
            && s'.restart.attempts == s.restart.attempts + 1 && !s'.restart.timer
  {
    WebRtcLaws.RunKeeps(events);
    RunAppend(events, TimerFires(t));
    RunAppend(events + [TimerFires(t)], Resume(t, true));
    RunAppend(events + [TimerFires(t)] + [Resume(t, true)], Resume(t, true));
  }

  lemma FinishKeepsCallback(s: State)
    ensures Cleanup(s).life.endedCallback == FinishCall(s).life.endedCallback == s.life.endedCallback
  {
  }

  lemma ResumeKeepsCallback(s: State, t: TaskId, ok: bool)
    requires t in s.tasks && s.life.endedCallback
    ensures ResumeTask(s, t, ok).life.endedCallback
  {
    FinishKeepsCallback(Finished(s, t));
    FinishKeepsCallback(SetAnswering(Finished(s, t), false));
    if ok { FulfilledKeepsLife(s, t); }
  }

  lemma FulfilledKeepsLife(s: State, t: TaskId)
    requires t in s.tasks
    ensures Fulfilled(s, t).life == s.life
  {
  }

  lemma CallbackIsKept(s: State, e: Event)
    requires s.life.endedCallback
    ensures Step(s, e).life.endedCallback
  {
    match e
    case Resume(t, ok) => if t in s.tasks { ResumeKeepsCallback(s, t, ok); }
    case Received(_, key, signal, t) =>
      FinishKeepsCallback(s.(handled := s.handled + {key}));
      assert !signal.CallOver? ==> Handle(s.(handled := s.handled + {key}), t, signal).life == s.life;
    case EndCall => FinishKeepsCallback(PushSignal(s, EndCallSignal));
    case RejectCall => FinishKeepsCallback(PushSignal(s, RejectCallSignal));
    case _ => FinishKeepsCallback(s);
  }

  lemma {:induction false} CallbackStays(events: seq<Event>)
    requires SetEndedCallback in events
    ensures Run(events).life.endedCallback
  {
    var n := |events| - 1;
    var s := Run(events[..n]);
    if events[n] != SetEndedCallback {
      assert events == events[..n] + [events[n]];
      CallbackStays(events[..n]);
      CallbackIsKept(s, events[n]);
    }
  }

  /** The end of a call that the other side signals is reported, once, and releases what the call held. */
  lemma TheEndIsReported(events: seq<Event>, key: SignalKey, t: TaskId)
    requires WebRtcPushes.Heard(Run(events), Received(false, key, CallOver, t))
    ensures var s := Run(events + [Received(false, key, CallOver, t)]);
            && s.life.cleanupStarted && s.life.disposed && s.link.channel.None?
            && (!Run(events).life.cleanupStarted ==> !s.ice.peer && !s.stream)
            && (SetEndedCallback in events ==> s.life.endedCalls == 1)
  {
    var over := Received(false, key, CallOver, t);
    RunAppend(events, over);
    WebRtcLaws.RunKeeps(events);
    WebRtcLaws.RunKeeps(events + [over]);
    if SetEndedCallback in events { CallbackStays(events); }
  }

  /** Going offline ends the call, and so does any failure while it is negotiated. */
  lemma FailuresEndTheCall(events: seq<Event>, t: TaskId)
    ensures Run(events).link.networkHandlers ==> Run(events + [Offline]).life.cleanupStarted
    ensures t in Run(events).tasks
            && (var pc := Run(events).tasks[t];
                || pc == InitCreate(true) || pc == InitLocal(true) || pc.AnswerRemote?
                || pc.OfferMedia? || pc.OfferRemote? || pc.OfferCreate? || pc.OfferLocal?
                || ((pc.RestartCreate? || pc.RestartLocal?)
                    && Run(events).restart.attempts == MAX_ICE_RESTART_ATTEMPTS))
            ==> Run(events + [Resume(t, false)]).life.cleanupStarted
  {
    RunAppend(events, Offline);
    RunAppend(events, Resume(t, false));
    WebRtcLaws.RunKeeps(events);
  }

  /** A resumed call announces itself and takes the role it was given. */
  lemma ResumedCallsAreReady(events: seq<Event>, t: TaskId, initiator: bool)
    requires var s := Run(events); !s.life.disposed && t !in s.tasks && Joined(s.link)
    ensures var s, s' := Run(events), Run(events + [ResumeCall(t, initiator)] + [Resume(t, true)]);
            && s'.link.pushed == s.link.pushed + [ReadyToReceive]
            && s'.negotiation.initiateOnReady == initiator && s'.ice.peer && s'.stream
  {
    RunAppend(events, ResumeCall(t, initiator));
    RunAppend(events + [ResumeCall(t, initiator)], Resume(t, true));
  }

  // ----- a caller whose call connects -----

  const JOINED := INIT.(link := Link(true, Some(true), true, []))
  const STARTED :=
    JOINED.(stream := true, ice := Ice([[]], false, true, 0, [], [], 0, false), tasks := map[1 := InitCreate(false)],
            negotiation := Negotiation(false, false, true, false, 0))
  const OFFERING :=
    STARTED.(tasks := map[1 := Done], negotiation := Negotiation(true, false, true, false, 0))
  const OFFERED :=
    OFFERING.(link := Link(true, Some(true), true, [PushOffer]), handled := {"ready"},
              negotiation := Negotiation(false, true, true, false, 0))
  const ANSWERED :=
    OFFERED.(handled := {"ready", "answer"}, tasks := map[1 := Done, 3 := AnswerRemote],
             negotiation := Negotiation(false, true, true, true, 0))
  const CONNECTED :=
    ANSWERED.(tasks := map[1 := Done, 3 := AnswerDrained], ice := Ice([[], []], true, true, 0, [], [], 0, false),
              negotiation := Negotiation(false, true, true, true, 1))

  lemma CallIsStarted()
    ensures Reachable(STARTED)
  {
    assert Run([]) == INIT;
    var joining := INIT.(link := Link(true, Some(false), true, []));
    StepReaches(INIT, Initialize, joining);
    StepReaches(joining, ChannelState(true), JOINED);
    StepReaches(JOINED, StartCall(1), JOINED.(tasks := map[1 := StartMedia]));
    StepReaches(JOINED.(tasks := map[1 := StartMedia]), Resume(1, true), STARTED);
  }

  lemma OfferIsSent()
    ensures Reachable(OFFERED)
  {
    CallIsStarted();
    StepReaches(STARTED, Resume(1, true), STARTED.(tasks := map[1 := InitLocal(false)]));
    StepReaches(STARTED.(tasks := map[1 := InitLocal(false)]), Resume(1, true), OFFERING);
    StepReaches(OFFERING, Received(false, "ready", PeerReady, 2), OFFERED);
  }

  lemma AnswerIsApplied()
    ensures Reachable(CONNECTED)
  {
    OfferIsSent();
    StepReaches(OFFERED, Received(false, "answer", Answer(true, true), 3), ANSWERED);
    assert !SomeDrain(ANSWERED.tasks);
    assert ANSWERED.ice.queues[0] == [];
    assert ANSWERED.ice.queues + [[]] == CONNECTED.ice.queues;
    StepReaches(ANSWERED, Resume(3, true), CONNECTED);
  }

  /** A caller can connect: its one offer is sent once the peer is ready, and the answer to it is applied. */
  lemma CallsConnect()
    ensures exists events :: (var s := Run(events);
              && s.link.pushed == [PushOffer] && !s.negotiation.pendingOffer
              && s.ice.remoteSet && s.negotiation.answersApplied == 1 && !s.life.cleanupStarted)
  {
    AnswerIsApplied();
    var events :| Run(events) == CONNECTED;
    assert Run(events).link.pushed == [PushOffer];
  }
}
