/**
 The client object of webrtc_client.js: its fields, updated in place by one method
 per segment. Every method is proved to be one step of the transition system.
 */
module WebRtcClient {
  import opened Options
  import opened WebRtcModel
  import Spec = WebRtcModel
  import WebRtcLaws

  /** The fields of the source's client, grouped by what they are for; some groups also hold history. */
  class Client {
    /** channel and the network handlers. */
    var link: Link
    /** disposed, cleanupStarted, callEndedNotified and the ended callback. */
    var life: Life
    /** iceRestartAttempts and iceRestartTimer. */
    var restart: Restart
    /** iceCandidateQueue, remoteDescriptionSet and peerConnection. */
    var ice: Ice
    /** pendingOffer, peerReady, shouldInitiateOnPeerReady and answerInProgress. */
    var negotiation: Negotiation
    var localStream: bool
    var handledSignals: set<SignalKey>
    /** The handlers that are suspended in an await. */
    var frames: map<TaskId, Pc>
    ghost var history: seq<Event>

    ghost function View(): State
      reads this
    {
      State(link, life, restart, ice, negotiation, localStream, handledSignals, frames)
    }

    /** The object is in the state that its history leads to. */
    ghost predicate Valid()
      reads this
    {
      View() == Run(history)
    }

    constructor ()
      ensures Valid() && history == []
    {
      link := Link(false, None, false, []);
      life := Life(false, false, false, false, 0);
      restart := Restart(0, false, 0, 0);
      ice := Ice([[]], false, false, 0, [], [], 0, false);
      negotiation := Negotiation(false, false, false, false, 0);
      localStream, handledSignals, frames, history := false, {}, map[], [];
    }

    ghost method Happened(before: State, e: Event)
      requires before == Run(history) && View() == Step(before, e)
      modifies this`history
      ensures Valid() && history == old(history) + [e]
    {
      RunAppend(history, e);
      history := history + [e];
    }

    method Suspend(t: TaskId, pc: Pc)
      modifies this`frames
      ensures View() == Begin(old(View()), t, pc)
    {
      frames := frames[t := pc];
    }

    method PushSignal(p: Push)
      modifies this`link
      ensures View() == Spec.PushSignal(old(View()), p)
    {
      if link.channel == Some(true) { link := link.(pushed := link.pushed + [p]); }
    }

    // ----- teardown and restart -----

    method ClearRestartTimer()
      modifies this`restart
      ensures !restart.timer && restart.attempts == old(restart).attempts && restart.offers == old(restart).offers
      ensures restart.timeouts == old(restart).timeouts
                                  - (if old(restart).timer && old(restart).timeouts > 0 then 1 else 0)
    {
      if restart.timer {
        restart := restart.(timer := false, timeouts := if restart.timeouts > 0 then restart.timeouts - 1 else 0);
      }
    }

    /** cleanup. */
    method Cleanup()
      modifies this
      ensures View() == Spec.Cleanup(old(View())) && history == old(history)
      ensures life.cleanupStarted && (old(life).cleanupStarted ==> View() == old(View()))
      ensures !old(life).cleanupStarted ==>
                && life.disposed && link.channel.None? && !restart.timer
                && !ice.peer && !localStream && handledSignals == {}
    {
      if life.cleanupStarted { return; }
      life := life.(cleanupStarted := true, disposed := true);
      ClearRestartTimer();
      link := link.(channel := None, networkHandlers := false);
      localStream := false;
      ice := ice.(queues := ice.queues + [[]], drained := 0, remoteSet := false, peer := false);
      negotiation := Negotiation(false, false, false, false, negotiation.answersApplied);
      handledSignals := {};
    }

    /** finishCall. */
    method FinishCall()
      modifies this
      ensures View() == Spec.FinishCall(old(View())) && history == old(history)
      ensures life.cleanupStarted
      ensures life.endedCalls
              == old(life).endedCalls + (if old(life).endedCallback && !old(life).endedNotified then 1 else 0)
    {
      Cleanup();
      if !life.endedNotified && life.endedCallback {
        life := life.(endedNotified := true, endedCalls := life.endedCalls + 1);
      }
    }

    /** scheduleIceRestart. */
    method ScheduleIceRestart()
      modifies this
      ensures View() == Spec.ScheduleIceRestart(old(View())) && history == old(history)
      ensures restart.timer && !old(restart).timer ==>
                old(ice).remoteSet && old(restart).attempts < MAX_ICE_RESTART_ATTEMPTS && !old(life).disposed
    {
      if life.disposed || life.cleanupStarted || !ice.peer || !ice.remoteSet { return; }
      if restart.attempts >= MAX_ICE_RESTART_ATTEMPTS {
        FinishCall();
        return;
      }
      if restart.timer { return; }
      restart := restart.(timer := true, timeouts := restart.timeouts + 1);
    }

    /** The timeout callback: clear the timer, and create a restart offer if the call still runs. */
    method RestartTimerFired(t: TaskId)
      requires Valid() && restart.timeouts > 0 && t !in frames
      modifies this
      ensures Valid() && history == old(history) + [TimerFires(t)]
      ensures !restart.timer && restart.attempts <= old(restart).attempts + 1
    {
      ghost var before := View();
      restart := restart.(timer := false, timeouts := restart.timeouts - 1);
      if !life.disposed && !life.cleanupStarted && ice.peer && link.channel == Some(true) {
        restart := restart.(attempts := restart.attempts + 1, offers := restart.offers + 1);
        Suspend(t, RestartCreate);
      }
      Happened(before, TimerFires(t));
    }

    /** flushPendingOffer. */
    method FlushPendingOffer()
      modifies this`link, this`negotiation
      ensures View() == Spec.FlushPendingOffer(old(View()))
      ensures var open := old(negotiation).peerReady && old(link).channel == Some(true);
              && negotiation.pendingOffer == (old(negotiation).pendingOffer && !open)
              && link.pushed
                 == old(link).pushed + (if open && old(negotiation).pendingOffer then [PushOffer] else [])
    {
      if !negotiation.pendingOffer || !negotiation.peerReady || link.channel != Some(true) { return; }
      PushSignal(PushOffer);
      negotiation := negotiation.(pendingOffer := false);
    }

    // ----- the candidate queue -----

    /** handleIceCandidate: hand the candidate over, or push it on the current array. */
    method HandleIceCandidate(t: TaskId)
      modifies this`ice, this`frames
      ensures View() == Spec.HandleIceCandidate(old(View()), t)
      ensures old(ice).remoteSet && old(ice).peer ==> ice.handed == old(ice).handed + [old(ice).arrived]
      ensures !old(ice).remoteSet && old(ice).queues != [] ==>
                ice.handed == old(ice).handed && Current(ice) == Current(old(ice)) + [old(ice).arrived]
    {
      var candidate := ice.arrived;
      ice := ice.(arrived := candidate + 1);
      if ice.remoteSet && ice.peer {
        ice := ice.(handed := ice.handed + [candidate]);
        Suspend(t, CandidateAdd);
      } else if |ice.queues| > 0 {
        var queue := ice.queues[|ice.queues| - 1] + [candidate];
        ice := ice.(queues := ice.queues[|ice.queues| - 1 := queue]);
      }
    }

    /** processIceCandidateQueue from one await to the next: the loop is at `pos` of its array. */
    method ProcessIceCandidateQueue(t: TaskId, answer: bool, queue: nat, pos: nat)
      requires queue < |ice.queues|
      modifies this`ice, this`frames
      ensures View() == DrainFrom(old(View()), t, answer, queue, pos)
    {
      if ice.peer && pos < |ice.queues[queue]| {
        var candidate := ice.queues[queue][pos];
        ice := ice.(handed := ice.handed + [candidate], fromQueue := ice.fromQueue + [candidate], drained := pos + 1);
        Suspend(t, DrainPc(answer, queue, pos));
      } else {
        ice := ice.(queues := ice.queues + [[]], drained := 0);
        Suspend(t, if answer then AnswerDrained else OfferDrained);
      }
    }

    method NoteRemoteDescription(answer: bool)
      modifies this`ice, this`negotiation
      ensures ice == old(ice).(
              remoteSet := true,
              overlapped := old(ice).overlapped || (!life.cleanupStarted && SomeDrain(frames)))
      ensures negotiation == old(negotiation).(
              answersApplied := old(negotiation).answersApplied + (if answer then 1 else 0))
    {
      var overlapping := !life.cleanupStarted && SomeDrain(frames);
      ice := ice.(remoteSet := true, overlapped := ice.overlapped || overlapping);
      if answer { negotiation := negotiation.(answersApplied := negotiation.answersApplied + 1); }
    }

    /** setRemoteDescription resolved: the flag is set and the drain begins. */
    method RemoteDescriptionApplied(t: TaskId, answer: bool)
      requires ice.queues != []
      modifies this`ice, this`negotiation, this`frames
      ensures View() == StartDrain(old(View()), t, answer)
    {
      NoteRemoteDescription(answer);
      ProcessIceCandidateQueue(t, answer, |ice.queues| - 1, 0);
    }

    // ----- signals -----

    /** ignoreSignal: own and repeated signals are dropped, others are remembered. */
    method IgnoreSignal(own: bool, key: SignalKey) returns (ignored: bool)
      modifies this`handledSignals
      ensures ignored == (own || key in old(handledSignals))
      ensures handledSignals == if ignored then old(handledSignals) else old(handledSignals) + {key}
    {
      if own || key in handledSignals { return true; }
      handledSignals := handledSignals + {key};
      return false;
    }

    method HandlePeerReady(t: TaskId)
      modifies this`link, this`negotiation, this`ice, this`frames
      ensures View() == Spec.HandlePeerReady(old(View()), t)
      ensures negotiation.peerReady && (link.channel == Some(true) ==> !negotiation.pendingOffer)
    {
      negotiation := negotiation.(peerReady := true);
      if negotiation.initiateOnReady && !negotiation.pendingOffer {
        ice := ice.(peer := true);
        Suspend(t, InitCreate(true));
      } else {
        FlushPendingOffer();
      }
    }

    /** handleAnswer, up to its first await. */
    method HandleAnswer(t: TaskId, present: bool, haveLocalOffer: bool)
      modifies this`negotiation, this`frames
      ensures View() == Spec.HandleAnswer(old(View()), t, present, haveLocalOffer)
      ensures var open := old(ice).peer && !old(ice).remoteSet && !old(negotiation).answerInProgress;
              frames == if open && present && haveLocalOffer then old(frames)[t := AnswerRemote] else old(frames)
    {
      if !ice.peer || !present { return; }
      if negotiation.answerInProgress || ice.remoteSet || !haveLocalOffer { return; }
      negotiation := negotiation.(answerInProgress := true);
      Suspend(t, AnswerRemote);
    }

    method HandleSignal(t: TaskId, signal: Signal)
      modifies this
      ensures View() == Handle(old(View()), t, signal) && history == old(history)
    {
      match signal
      case PeerReady => HandlePeerReady(t);
      case Offer(wellFormed) => if wellFormed { Suspend(t, OfferMedia); }
      case Answer(present, haveLocalOffer) => HandleAnswer(t, present, haveLocalOffer);
      case IceCandidate(present) => if present { HandleIceCandidate(t); }
      case CallOver => FinishCall();
    }

    /** The channel delivers a signal. */
    method SignalReceived(own: bool, key: SignalKey, signal: Signal, t: TaskId)
      requires Valid() && link.initialized && t !in frames
      modifies this
      ensures Valid() && history == old(history) + [Received(own, key, signal, t)]
    {
      ghost var before := View();
      var ignored := IgnoreSignal(own, key);
      if !ignored { HandleSignal(t, signal); }
      Happened(before, Received(own, key, signal, t));
    }

    // ----- calls -----

    method Initialize()
      requires Valid() && !life.disposed
      modifies this
      ensures Valid() && history == old(history) + [Event.Initialize]
    {
      ghost var before := View();
      link := link.(initialized := true, channel := Some(false), networkHandlers := true);
      Happened(before, Event.Initialize);
    }

    method StartCall(t: TaskId)
      requires Valid() && !life.disposed && t !in frames
      modifies this
      ensures Valid() && history == old(history) + [Event.StartCall(t)]
    {
      ghost var before := View();
      Suspend(t, StartMedia);
      Happened(before, Event.StartCall(t));
    }

    method ResumeCall(t: TaskId, initiator: bool)
      requires Valid() && !life.disposed && t !in frames
      modifies this
      ensures Valid() && history == old(history) + [Event.ResumeCall(t, initiator)]
    {
      ghost var before := View();
      Suspend(t, ResumeMedia(initiator));
      Happened(before, Event.ResumeCall(t, initiator));
    }

    /** endCall and rejectCall. */
    method HangUp(reject: bool)
      requires Valid()
      modifies this
      ensures Valid() && history == old(history) + [if reject then Event.RejectCall else Event.EndCall]
    {
      ghost var before := View();
      PushSignal(if reject then RejectCallSignal else EndCallSignal);
      Cleanup();
      Happened(before, if reject then Event.RejectCall else Event.EndCall);
    }

    /** onconnectionstatechange and oniceconnectionstatechange. */
    method ConnectionStateChanged(connected: bool)
      requires Valid() && ice.peer
      modifies this
      ensures Valid() && history == old(history) + [if connected then Connected else ConnectionTrouble]
    {
      ghost var before := View();
      if connected {
        restart := restart.(attempts := 0, offers := 0);
      } else {
        ScheduleIceRestart();
      }
      Happened(before, if connected then Connected else ConnectionTrouble);
    }

    /** The window goes online or offline. */
    method NetworkChanged(online: bool)
      requires Valid() && link.networkHandlers
      modifies this
      ensures Valid() && history == old(history) + [if online then Online else Offline]
    {
      ghost var before := View();
      if online {
        if !life.disposed && ice.peer && ice.remoteSet { ScheduleIceRestart(); }
      } else if !life.disposed {
        FinishCall();
      }
      Happened(before, if online then Online else Offline);
    }

    // ----- resumption of suspended handlers -----

    /** A drain goes on, whether addIceCandidate resolved or rejected. */
    method CandidateAdded(t: TaskId, ok: bool)
      requires Valid() && t in frames && Draining(frames[t]) && frames[t].queue < |ice.queues|
      modifies this
      ensures Valid() && history == old(history) + [Resume(t, ok)]
    {
      ghost var before := View();
      ProcessIceCandidateQueue(t, frames[t].AnswerDrain?, frames[t].queue, frames[t].pos + 1);
      Happened(before, Resume(t, ok));
    }

    /** The media devices or the peer connection rejected: most handlers end the call. */
    method HandlerRejected(t: TaskId)
      requires t in frames
      modifies this
      ensures View() == Rejected(old(View()), t) && history == old(history)
    {
      var pc := frames[t];
      Suspend(t, Done);
      if pc.AnswerRemote? { negotiation := negotiation.(answerInProgress := false); }
      if pc.RestartCreate? || pc.RestartLocal? {
        if restart.attempts >= MAX_ICE_RESTART_ATTEMPTS { FinishCall(); }
      } else if EndsCall(pc) {
        FinishCall();
      }
    }

    /** The handlers whose catch block calls finishCall. */
    static predicate EndsCall(pc: Pc) {
      || pc == InitCreate(true) || pc == InitLocal(true)
      || pc.OfferMedia? || pc.OfferRemote? || pc.OfferCreate? || pc.OfferLocal? || pc.AnswerRemote?
    }

    method AwaitRejected(t: TaskId)
      requires Valid() && t in frames && !Draining(frames[t]) && frames[t] != Done
      modifies this
      ensures Valid() && history == old(history) + [Resume(t, false)]
    {
      ghost var before := View();
      HandlerRejected(t);
      Happened(before, Resume(t, false));
    }

    /** The local media are there: create the peer connection. */
    method MediaReady(t: TaskId)
      requires Valid() && t in frames
      requires frames[t].StartMedia? || frames[t].ResumeMedia? || frames[t].OfferMedia?
      modifies this
      ensures Valid() && history == old(history) + [Resume(t, true)]
    {
      ghost var before := View();
      var pc := frames[t];
      localStream := true;
      ice := ice.(peer := true);
      if pc.StartMedia? {
        negotiation := negotiation.(initiateOnReady := true);
        Suspend(t, InitCreate(false));
      } else if pc.ResumeMedia? {
        negotiation := negotiation.(initiateOnReady := pc.initiator);
        Suspend(t, Done);
        PushSignal(ReadyToReceive);
      } else {
        Suspend(t, OfferRemote);
      }
      Happened(before, Resume(t, true));
    }

    /** setRemoteDescription of an offer or an answer resolved. */
    method RemoteDescriptionSet(t: TaskId)
      requires Valid() && t in frames && ice.queues != []
      requires frames[t].OfferRemote? || frames[t].AnswerRemote?
      modifies this
      ensures Valid() && history == old(history) + [Resume(t, true)]
    {
      ghost var before := View();
      RemoteDescriptionApplied(t, frames[t].AnswerRemote?);
      Happened(before, Resume(t, true));
    }

    /** initiateOffer: the offer is created, then it is the pending offer. */
    method OfferReady(t: TaskId)
      requires Valid() && t in frames && (frames[t].InitCreate? || frames[t].InitLocal? || frames[t].AfterInit?)
      modifies this
      ensures Valid() && history == old(history) + [Resume(t, true)]
    {
      ghost var before := View();
      var pc := frames[t];
      if pc.InitCreate? {
        Suspend(t, InitLocal(pc.peerReady));
      } else if pc.InitLocal? {
        negotiation := negotiation.(pendingOffer := true);
        FlushPendingOffer();
        Suspend(t, if pc.peerReady then AfterInit else Done);
      } else {
        Suspend(t, Done);
        FlushPendingOffer();
      }
      Happened(before, Resume(t, true));
    }

    /** The answer of handleOffer, and the offer of restartIce: created, set, and pushed. */
    method DescriptionReady(t: TaskId)
      requires Valid() && t in frames
      requires frames[t].OfferDrained? || frames[t].OfferCreate? || frames[t].OfferLocal?
               || frames[t].RestartCreate? || frames[t].RestartLocal?
      modifies this
      ensures Valid() && history == old(history) + [Resume(t, true)]
      ensures old(link).channel == Some(true) && old(frames[t]).OfferLocal? ==>
                link.pushed == old(link).pushed + [PushAnswer]
      ensures old(link).channel == Some(true) && old(frames[t]).RestartLocal? ==>
                link.pushed == old(link).pushed + [PushOffer]
    {
      ghost var before := View();
      var pc := frames[t];
      if pc.OfferLocal? || pc.RestartLocal? {
        Suspend(t, Done);
        PushSignal(if pc.OfferLocal? then PushAnswer else PushOffer);
      } else {
        Suspend(t, if pc.OfferDrained? then OfferCreate else if pc.OfferCreate? then OfferLocal else RestartLocal);
      }
      Happened(before, Resume(t, true));
    }

    /** The finally block of handleAnswer. */
    method AnswerSettled(t: TaskId)
      requires Valid() && t in frames && frames[t].AnswerDrained?
      modifies this
      ensures Valid() && history == old(history) + [Resume(t, true)]
      ensures !negotiation.answerInProgress && ice == old(ice)
    {
      ghost var before := View();
      negotiation := negotiation.(answerInProgress := false);
      Suspend(t, Done);
      Happened(before, Resume(t, true));
    }
  }

  /** Finality and budget, for the object. */
  lemma ClientKeepsItsBudget(client: Client)
    requires client.Valid()
    ensures client.life.cleanupStarted ==> client.link.channel.None? && !client.restart.timer
    ensures client.restart.timer ==> client.restart.attempts < MAX_ICE_RESTART_ATTEMPTS
    ensures client.restart.offers <= MAX_ICE_RESTART_ATTEMPTS && client.life.endedCalls <= 1
  {
    WebRtcLaws.RestartBudget(client.history);
    if client.life.cleanupStarted {
      WebRtcLaws.CleanupIsFinal(client.history, []);
      assert client.history + [] == client.history;
    }
    WebRtcLaws.RunKeeps(client.history);
  }
}
