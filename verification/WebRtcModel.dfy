/**
 WebRTCClient (webrtc_client.js) as a transition system with one step per `await`
 segment. The network may lose, duplicate and reorder signals; media devices, the
 peer connection and the channel answer when and how the environment chooses.
 */
module WebRtcModel {
  import opened Options

  const MAX_ICE_RESTART_ATTEMPTS := 2

  type TaskId = nat

  /** The key under which ignoreSignal remembers a signal. */
  type SignalKey = string

  /** A candidate is named by its arrival number among the accepted ones. */
  type Candidate = nat

  /** Signals pushed to the server. */
  datatype Push = ReadyToReceive | PushOffer | PushAnswer | PushCandidate | EndCallSignal | RejectCallSignal

  datatype Signal =
    | PeerReady
    | Offer(wellFormed: bool)
    | Answer(present: bool, haveLocalOffer: bool)
    | IceCandidate(present: bool)
    | CallOver

  /** The await an asynchronous handler is suspended in. A drain is at `pos` of array `queue`. */
  datatype Pc =
    | StartMedia
    | ResumeMedia(initiator: bool)
    | InitCreate(peerReady: bool)
    | InitLocal(peerReady: bool)
    | AfterInit
    | OfferMedia
    | OfferRemote
    | OfferDrain(queue: nat, pos: nat)
    | OfferDrained
    | OfferCreate
    | OfferLocal
    | AnswerRemote
    | AnswerDrain(queue: nat, pos: nat)
    | AnswerDrained
    | CandidateAdd
    | RestartCreate
    | RestartLocal
    | Done

  /** The channel, the window's network handlers, and (history) the signals pushed. */
  datatype Link = Link(initialized: bool, channel: Option<bool>, networkHandlers: bool, pushed: seq<Push>)

  /** Teardown flags, and (history) the calls of the ended callback. */
  datatype Life = Life(
    disposed: bool, cleanupStarted: bool, endedCallback: bool, endedNotified: bool, endedCalls: nat)

  /** The restart budget and timer; history: timeouts pending, restart offers created since "connected". */
  datatype Restart = Restart(attempts: nat, timer: bool, timeouts: nat, offers: nat)

  /**
   The candidate queue. `queues` holds every array ever assigned to
   iceCandidateQueue; the last one is the current one. From `arrived` on the
   fields are history: candidates accepted, candidates handed to addIceCandidate
   in order, those of them that came from the queue, how many of the current queue
   are handed, and whether two drains ran at once.
   */
  datatype Ice = Ice(
    queues: seq<seq<Candidate>>, remoteSet: bool, peer: bool,
    arrived: nat, handed: seq<Candidate>, fromQueue: seq<Candidate>, drained: nat, overlapped: bool)

  /** The caller's pending offer, and the answer in progress with (history) the answers applied. */
  datatype Negotiation = Negotiation(
    pendingOffer: bool, peerReady: bool, initiateOnReady: bool, answerInProgress: bool, answersApplied: nat)

  datatype State = State(
    link: Link,
    life: Life,
    restart: Restart,
    ice: Ice,
    negotiation: Negotiation,
    stream: bool,
    handled: set<SignalKey>,
    tasks: map<TaskId, Pc>)

  const INIT := State(
    Link(false, None, false, []), Life(false, false, false, false, 0), Restart(0, false, 0, 0),
    Ice([[]], false, false, 0, [], [], 0, false), Negotiation(false, false, false, false, 0), false, {}, map[])

  datatype Event =
    | Initialize
    | ChannelState(joined: bool)
    | Received(own: bool, key: SignalKey, signal: Signal, task: TaskId)
    | StartCall(task: TaskId)
    | ResumeCall(task: TaskId, initiator: bool)
    | Resume(task: TaskId, ok: bool)
    | LocalCandidate
    | Connected
    | ConnectionTrouble
    | Online
    | Offline
    | TimerFires(task: TaskId)
    | EndCall
    | RejectCall
    | SetEndedCallback

  /** The handler an event starts, if any. */
  function Starts(e: Event): TaskId {
    match e
    case StartCall(t) => t
    case ResumeCall(t, _) => t
    case TimerFires(t) => t
    case _ => 0
  }

  function Begin(s: State, t: TaskId, pc: Pc): State { s.(tasks := s.tasks[t := pc]) }

  predicate Joined(link: Link) { link.channel == Some(true) }

  /** pushSignal. */
  function PushSignal(s: State, p: Push): State {
    if Joined(s.link) then s.(link := s.link.(pushed := s.link.pushed + [p])) else s
  }

  function Current(ice: Ice): seq<Candidate> { if ice.queues == [] then [] else ice.queues[|ice.queues| - 1] }

  function Enqueue(ice: Ice, c: Candidate): Ice {
    if ice.queues == [] then ice else ice.(queues := ice.queues[|ice.queues| - 1 := Current(ice) + [c]])
  }

  function ClearQueue(ice: Ice): Ice { ice.(queues := ice.queues + [[]], drained := 0) }

  /** cleanup, the first time it is called. */
  function TearDown(s: State): State {
    State(
      s.link.(channel := None, networkHandlers := false),
      s.life.(disposed := true, cleanupStarted := true),
      s.restart.(timer := false,
                 timeouts := s.restart.timeouts - (if s.restart.timer && s.restart.timeouts > 0 then 1 else 0)),
      ClearQueue(s.ice).(remoteSet := false, peer := false),
      Negotiation(false, false, false, false, s.negotiation.answersApplied),
      false, {}, s.tasks)
  }

  function Cleanup(s: State): State { if s.life.cleanupStarted then s else TearDown(s) }

  function NotifyEnded(life: Life): Life {
    if !life.endedNotified && life.endedCallback then life.(endedNotified := true, endedCalls := life.endedCalls + 1)
    else life
  }

  function FinishCall(s: State): State {
    var s' := Cleanup(s);
    s'.(life := NotifyEnded(s'.life))
  }

  function ScheduleIceRestart(s: State): State {
    if s.life.disposed || s.life.cleanupStarted || !s.ice.peer || !s.ice.remoteSet then s
    else if s.restart.attempts >= MAX_ICE_RESTART_ATTEMPTS then FinishCall(s)
    else if s.restart.timer then s
    else s.(restart := s.restart.(timer := true, timeouts := s.restart.timeouts + 1))
  }

  /** The timeout callback clears the timer and calls restartIce. */
  function RestartTimeout(s: State, t: TaskId): State
    requires s.restart.timeouts > 0
  {
    var r := s.restart.(timer := false, timeouts := s.restart.timeouts - 1);
    if s.life.disposed || s.life.cleanupStarted || !s.ice.peer || !Joined(s.link) then s.(restart := r)
    else Begin(s.(restart := r.(attempts := r.attempts + 1, offers := r.offers + 1)), t, RestartCreate)
  }

  function FlushPendingOffer(s: State): State {
    if !s.negotiation.pendingOffer || !s.negotiation.peerReady || !Joined(s.link) then s
    else PushSignal(s, PushOffer).(negotiation := s.negotiation.(pendingOffer := false))
  }

  /** createPeerConnection. */
  function WithPeer(s: State): State { s.(ice := s.ice.(peer := true)) }

  // ----- the candidate queue -----

  predicate Draining(pc: Pc) { pc.OfferDrain? || pc.AnswerDrain? }

  predicate SomeDrain(tasks: map<TaskId, Pc>) { exists t :: t in tasks && Draining(tasks[t]) }

  function DrainPc(answer: bool, queue: nat, pos: nat): Pc {
    if answer then AnswerDrain(queue, pos) else OfferDrain(queue, pos)
  }

  function HandFromQueue(ice: Ice, c: Candidate, pos: nat): Ice {
    ice.(handed := ice.handed + [c], fromQueue := ice.fromQueue + [c], drained := pos + 1)
  }

  /**
   The for loop of processIceCandidateQueue from index `pos`: hand the next
   candidate over and suspend, or leave the loop. Without a peer connection every
   remaining call throws and is swallowed. A candidate that the RTCIceCandidate
   constructor refuses throws before the await: its attempt counts as handing it
   over, and the loop that goes on at once is the history in which the rejected
   await resumes next.
   */
  function DrainFrom(s: State, t: TaskId, answer: bool, queue: nat, pos: nat): State
    requires queue < |s.ice.queues|
  {
    if s.ice.peer && pos < |s.ice.queues[queue]| then
      Begin(s.(ice := HandFromQueue(s.ice, s.ice.queues[queue][pos], pos)), t, DrainPc(answer, queue, pos))
    else Begin(s.(ice := ClearQueue(s.ice)), t, if answer then AnswerDrained else OfferDrained)
  }

  /** setRemoteDescription succeeded: processIceCandidateQueue starts on the current array. */
  function StartDrain(s: State, t: TaskId, answer: bool): State
    requires s.ice.queues != []
  {
    var ice := s.ice.(remoteSet := true,
                      overlapped := s.ice.overlapped || (!s.life.cleanupStarted && SomeDrain(s.tasks)));
    var applied := s.negotiation.answersApplied + (if answer then 1 else 0);
    DrainFrom(s.(ice := ice, negotiation := s.negotiation.(answersApplied := applied)),
              t, answer, |ice.queues| - 1, 0)
  }

  function HandleIceCandidate(s: State, t: TaskId): State {
    var c := s.ice.arrived;
    var ice := s.ice.(arrived := c + 1);
    if ice.remoteSet && ice.peer then Begin(s.(ice := ice.(handed := ice.handed + [c])), t, CandidateAdd)
    else s.(ice := Enqueue(ice, c))
  }

  function HandleAnswer(s: State, t: TaskId, present: bool, haveLocalOffer: bool): State {
    if !s.ice.peer || !present then s
    else if s.negotiation.answerInProgress || s.ice.remoteSet || !haveLocalOffer then s
    else Begin(s.(negotiation := s.negotiation.(answerInProgress := true)), t, AnswerRemote)
  }

  function HandlePeerReady(s: State, t: TaskId): State {
    var s' := s.(negotiation := s.negotiation.(peerReady := true));
    if s.negotiation.initiateOnReady && !s.negotiation.pendingOffer then Begin(WithPeer(s'), t, InitCreate(true))
    else FlushPendingOffer(s')
  }

  function Handle(s: State, t: TaskId, signal: Signal): State {
    match signal
    case PeerReady => HandlePeerReady(s, t)
    case Offer(wellFormed) => if wellFormed then Begin(s, t, OfferMedia) else s
    case Answer(present, haveLocalOffer) => HandleAnswer(s, t, present, haveLocalOffer)
    case IceCandidate(present) => if present then HandleIceCandidate(s, t) else s
    case CallOver => FinishCall(s)
  }

  /** The signal handlers behind ignoreSignal. */
  function Receive(s: State, own: bool, key: SignalKey, signal: Signal, t: TaskId): State {
    if own || key in s.handled then s else Handle(s.(handled := s.handled + {key}), t, signal)
  }

  function Finished(s: State, t: TaskId): State { Begin(s, t, Done) }

  function SetInitiator(s: State, initiator: bool): State {
    s.(negotiation := s.negotiation.(initiateOnReady := initiator))
  }

  function SetAnswering(s: State, answering: bool): State {
    s.(negotiation := s.negotiation.(answerInProgress := answering))
  }

  /** The peer connection or the media devices rejected what the handler was waiting for. */
  function Rejected(s: State, t: TaskId): State
    requires t in s.tasks
  {
    match s.tasks[t]
    case InitCreate(true) => FinishCall(Finished(s, t))
    case InitLocal(true) => FinishCall(Finished(s, t))
    case OfferMedia => FinishCall(Finished(s, t))
    case OfferRemote => FinishCall(Finished(s, t))
    case OfferCreate => FinishCall(Finished(s, t))
    case OfferLocal => FinishCall(Finished(s, t))
    case AnswerRemote => FinishCall(SetAnswering(Finished(s, t), false))
    case RestartCreate => RestartFailed(Finished(s, t))
    case RestartLocal => RestartFailed(Finished(s, t))
    case _ => Finished(s, t)
  }

  function RestartFailed(s: State): State {
    if s.restart.attempts >= MAX_ICE_RESTART_ATTEMPTS then FinishCall(s) else s
  }

  /** What the handler was waiting for arrived. */
  function Fulfilled(s: State, t: TaskId): State
    requires t in s.tasks
  {
    match s.tasks[t]
    case StartMedia => Begin(SetInitiator(WithPeer(s.(stream := true)), true), t, InitCreate(false))
    case ResumeMedia(initiator) =>
      PushSignal(SetInitiator(WithPeer(Finished(s, t).(stream := true)), initiator), ReadyToReceive)
    case InitCreate(peerReady) => Begin(s, t, InitLocal(peerReady))
    case InitLocal(peerReady) =>
      Begin(FlushPendingOffer(s.(negotiation := s.negotiation.(pendingOffer := true))), t,
            if peerReady then AfterInit else Done)
    case AfterInit => FlushPendingOffer(Finished(s, t))
    case OfferMedia => Begin(WithPeer(s.(stream := true)), t, OfferRemote)
    case OfferRemote => if s.ice.queues == [] then s else StartDrain(s, t, false)
    case OfferDrained => Begin(s, t, OfferCreate)
    case OfferCreate => Begin(s, t, OfferLocal)
    case OfferLocal => PushSignal(Finished(s, t), PushAnswer)
    case AnswerRemote => if s.ice.queues == [] then s else StartDrain(s, t, true)
    case AnswerDrained => SetAnswering(Finished(s, t), false)
    case RestartCreate => Begin(s, t, RestartLocal)
    case RestartLocal => PushSignal(Finished(s, t), PushOffer)
    case _ => Finished(s, t)
  }

  /** A suspended task resumes; a drain goes on whether its candidate was accepted or not. */
  function ResumeTask(s: State, t: TaskId, ok: bool): State
    requires t in s.tasks
  {
    match s.tasks[t]
    case Done => s
    case OfferDrain(queue, pos) => if queue < |s.ice.queues| then DrainFrom(s, t, false, queue, pos + 1) else s
    case AnswerDrain(queue, pos) => if queue < |s.ice.queues| then DrainFrom(s, t, true, queue, pos + 1) else s
    case _ => if ok then Fulfilled(s, t) else Rejected(s, t)
  }

  function Step(s: State, e: Event): State {
    match e
    case Initialize =>
      if s.life.disposed then s
      else s.(link := s.link.(initialized := true, channel := Some(false), networkHandlers := true))
    case ChannelState(joined) =>
      if s.link.channel.Some? then s.(link := s.link.(channel := Some(joined))) else s
    case Received(own, key, signal, t) =>
      if s.link.initialized && t !in s.tasks then Receive(s, own, key, signal, t) else s
    case StartCall(t) => if s.life.disposed || t in s.tasks then s else Begin(s, t, StartMedia)
    case ResumeCall(t, initiator) =>
      if s.life.disposed || t in s.tasks then s else Begin(s, t, ResumeMedia(initiator))
    case Resume(t, ok) => if t in s.tasks then ResumeTask(s, t, ok) else s
    case LocalCandidate => if s.ice.peer then PushSignal(s, PushCandidate) else s
    case Connected => if s.ice.peer then s.(restart := s.restart.(attempts := 0, offers := 0)) else s
    case ConnectionTrouble => if s.ice.peer then ScheduleIceRestart(s) else s
    case Online =>
      if s.link.networkHandlers && !s.life.disposed && s.ice.peer && s.ice.remoteSet then ScheduleIceRestart(s)
      else s
    case Offline => if s.link.networkHandlers && !s.life.disposed then FinishCall(s) else s
    case TimerFires(t) => if s.restart.timeouts > 0 && t !in s.tasks then RestartTimeout(s, t) else s
    case EndCall => Cleanup(PushSignal(s, EndCallSignal))
    case RejectCall => Cleanup(PushSignal(s, RejectCallSignal))
    case SetEndedCallback => s.(life := s.life.(endedCallback := true))
  }

  /** Any finite history of a client. */
  function Run(events: seq<Event>): State {
    if events == [] then INIT else Step(Run(events[..|events| - 1]), events[|events| - 1])
  }

  lemma RunAppend(events: seq<Event>, e: Event)
    ensures Run(events + [e]) == Step(Run(events), e)
  {
    assert (events + [e])[..|events|] == events;
  }

  ghost predicate Reachable(s: State) { exists events :: Run(events) == s }

  lemma StepReaches(s: State, e: Event, s': State)
    requires Reachable(s) && Step(s, e) == s'
    ensures Reachable(s')
  {
    var events :| Run(events) == s;
    RunAppend(events, e);
    assert Run(events + [e]) == s';
  }
}
