/** Every signal a WebRTC client sends is owed to something that happened, and what is owed is sent. */
module WebRtcPushes {
  import opened Options
  import opened WebRtcModel

  // ----- what is owed, told by the events alone -----

  /**
   What the events so far have made due: offers whose local description was set by
   initiateOffer, those of them that replaced one still pending, the restart offers
   and answers whose description was set while the channel was joined, and the other
   signals while it was joined; and the remote candidates that were heard.
   */
  datatype Dues = Dues(
    offers: nat, replaced: nat, restartOffers: nat, answers: nat,
    ready: nat, candidates: nat, ended: nat, rejected: nat, heardCandidates: nat)

  const NOTHING := Dues(0, 0, 0, 0, 0, 0, 0, 0, 0)

  function Add(a: Dues, b: Dues): Dues {
    Dues(a.offers + b.offers, a.replaced + b.replaced, a.restartOffers + b.restartOffers, a.answers + b.answers,
         a.ready + b.ready, a.candidates + b.candidates, a.ended + b.ended, a.rejected + b.rejected,
         a.heardCandidates + b.heardCandidates)
  }

  /** What a signal makes due that is sent as soon as it is due. */
  function One(p: Push): Dues {
    match p
    case PushOffer => NOTHING.(restartOffers := 1)
    case PushAnswer => NOTHING.(answers := 1)
    case ReadyToReceive => NOTHING.(ready := 1)
    case PushCandidate => NOTHING.(candidates := 1)
    case EndCallSignal => NOTHING.(ended := 1)
    case RejectCallSignal => NOTHING.(rejected := 1)
  }

  /** The signal is delivered, from the other side, and was not heard before. */
  predicate Heard(s: State, e: Event) {
    e.Received? && s.link.initialized && e.task !in s.tasks && !e.own && e.key !in s.handled
  }

  /** The await that the handler is suspended in has succeeded. */
  function ResumedFrom(s: State, e: Event): Pc {
    if e.Resume? && e.ok && e.task in s.tasks then s.tasks[e.task] else Done
  }

  /** The signal an event is to send if the channel is joined, offers of initiateOffer apart. */
  function ToSend(s: State, e: Event): Option<Push> {
    match e
    case Resume(_, _) =>
      (match ResumedFrom(s, e)
       case RestartLocal => Some(PushOffer)
       case OfferLocal => Some(PushAnswer)
       case ResumeMedia(_) => Some(ReadyToReceive)
       case _ => None)
    case LocalCandidate => if s.ice.peer then Some(PushCandidate) else None
    case EndCall => Some(EndCallSignal)
    case RejectCall => Some(RejectCallSignal)
    case _ => None
  }

  function NewDues(s: State, e: Event): Dues {
    if ResumedFrom(s, e).InitLocal? then NOTHING.(offers := 1, replaced := if s.negotiation.pendingOffer then 1 else 0)
    else if Heard(s, e) && e.signal.IceCandidate? && e.signal.present then NOTHING.(heardCandidates := 1)
    else if Joined(s.link) && ToSend(s, e).Some? then One(ToSend(s, e).value)
    else NOTHING
  }

  function AllDues(events: seq<Event>): Dues {
    if events == [] then NOTHING
    else
      var n := |events| - 1;
      Add(AllDues(events[..n]), NewDues(Run(events[..n]), events[n]))
  }

  // ----- the books -----

  /** What was sent and heard, whether an offer is pending, and whether the call is cleaned up. */
  datatype Book = Book(sent: seq<Push>, heard: nat, pending: bool, closed: bool)

  function BookOf(s: State): Book {
    Book(s.link.pushed, s.ice.arrived, s.negotiation.pendingOffer, s.life.cleanupStarted)
  }

  function Count(b: Book, p: Push): nat { multiset(b.sent)[p] }

  function Waiting(b: Book): nat { if b.pending then 1 else 0 }

  /** At most one signal is sent, after all earlier ones. */
  predicate SendsOne(b: Book, b': Book) {
    b'.sent == b.sent || (b'.sent != [] && b'.sent[..|b'.sent| - 1] == b.sent)
  }

  predicate OthersSettle(b: Book, b': Book, d: Dues) {
    && Count(b', PushAnswer) == Count(b, PushAnswer) + d.answers
    && Count(b', ReadyToReceive) == Count(b, ReadyToReceive) + d.ready
    && Count(b', PushCandidate) == Count(b, PushCandidate) + d.candidates
    && Count(b', EndCallSignal) == Count(b, EndCallSignal) + d.ended
    && Count(b', RejectCallSignal) == Count(b, RejectCallSignal) + d.rejected
    && b'.heard == b.heard + d.heardCandidates
  }

  predicate OffersSettle(b: Book, b': Book, d: Dues) {
    !b'.closed ==>
      && !b.closed
      && Count(b', PushOffer) + Waiting(b') + d.replaced
         == Count(b, PushOffer) + Waiting(b) + d.offers + d.restartOffers
  }

  predicate Settles(b: Book, b': Book, d: Dues) { SendsOne(b, b') && OthersSettle(b, b', d) && OffersSettle(b, b', d) }

  function Posted(b: Book, joined: bool, p: Push): Book { if joined then b.(sent := b.sent + [p]) else b }

  function Flushed(b: Book, open: bool): Book {
    if open && b.pending then b.(sent := b.sent + [PushOffer], pending := false) else b
  }

  /** Nothing is sent or heard, and no offer becomes pending or stops being so before cleanup. */
  predicate Silent(b: Book, b': Book) {
    && b'.sent == b.sent && b'.heard == b.heard
    && (b'.closed || (!b.closed && b'.pending == b.pending))
  }

  lemma SilentSettles(b: Book, b': Book)
    requires Silent(b, b')
    ensures Settles(b, b', NOTHING)
  {
  }

  lemma CountPosted(b: Book, p: Push)
    ensures multiset(b.sent + [p]) == multiset(b.sent) + multiset{p}
  {
  }

  lemma PostedSettles(b: Book, joined: bool, p: Push)
    ensures Settles(b, Posted(b, joined, p), if joined then One(p) else NOTHING)
  {
    CountPosted(b, p);
  }

  lemma HungUpSettles(b: Book, joined: bool, p: Push, b': Book)
    requires b'.closed && b'.sent == Posted(b, joined, p).sent && b'.heard == b.heard
    ensures Settles(b, b', if joined then One(p) else NOTHING)
  {
    PostedSettles(b, joined, p);
  }

  lemma FlushedSettles(b: Book, open: bool)
    ensures Settles(b, Flushed(b, open), NOTHING)
  {
    CountPosted(b, PushOffer);
  }

  lemma SetSettles(b: Book, open: bool)
    ensures Settles(b, Flushed(b.(pending := true), open), NOTHING.(offers := 1, replaced := Waiting(b)))
  {
    CountPosted(b, PushOffer);
  }

  // ----- what the operations do to the books -----

  lemma PushBook(s: State, p: Push)
    ensures BookOf(PushSignal(s, p)) == Posted(BookOf(s), Joined(s.link), p)
  {
  }

  lemma FlushBook(s: State)
    ensures BookOf(FlushPendingOffer(s)) == Flushed(BookOf(s), s.negotiation.peerReady && Joined(s.link))
  {
  }

  lemma FinishIsSilent(s: State)
    ensures Silent(BookOf(s), BookOf(Cleanup(s))) && Silent(BookOf(s), BookOf(FinishCall(s)))
  {
  }

  lemma ScheduleIsSilent(s: State)
    ensures Silent(BookOf(s), BookOf(ScheduleIceRestart(s)))
  {
    FinishIsSilent(s);
  }

  // ----- signals -----

  lemma PeerReadySettles(s: State, t: TaskId)
    ensures Settles(BookOf(s), BookOf(HandlePeerReady(s, t)), NOTHING)
  {
    var s' := s.(negotiation := s.negotiation.(peerReady := true));
    FlushBook(s');
    FlushedSettles(BookOf(s'), Joined(s.link));
    SilentSettles(BookOf(s), BookOf(Begin(WithPeer(s'), t, InitCreate(true))));
  }

  lemma HandleSettles(s: State, t: TaskId, signal: Signal)
    ensures Settles(BookOf(s), BookOf(Handle(s, t, signal)),
                    if signal.IceCandidate? && signal.present then NOTHING.(heardCandidates := 1) else NOTHING)
  {
    match signal
    case PeerReady => PeerReadySettles(s, t);
    case CallOver =>
      FinishIsSilent(s);
      SilentSettles(BookOf(s), BookOf(FinishCall(s)));
    case Answer(present, haveLocalOffer) =>
      SilentSettles(BookOf(s), BookOf(HandleAnswer(s, t, present, haveLocalOffer)));
    case Offer(_) => SilentSettles(BookOf(s), BookOf(Handle(s, t, signal)));
    case IceCandidate(present) =>
      if present { CandidateIsHeard(s, t); } else { SilentSettles(BookOf(s), BookOf(s)); }
  }

  lemma CandidateIsHeard(s: State, t: TaskId)
    ensures BookOf(HandleIceCandidate(s, t)) == BookOf(s).(heard := s.ice.arrived + 1)
    ensures Settles(BookOf(s), BookOf(HandleIceCandidate(s, t)), NOTHING.(heardCandidates := 1))
  {
  }

  lemma ReceivedSettles(s: State, e: Event)
    requires e.Received?
    ensures Settles(BookOf(s), BookOf(Step(s, e)), NewDues(s, e))
  {
    if Heard(s, e) {
      var heard := s.(handled := s.handled + {e.key});
      HandleSettles(heard, e.task, e.signal);
      assert BookOf(heard) == BookOf(s) && Step(s, e) == Handle(heard, e.task, e.signal);
    } else {
      SilentSettles(BookOf(s), BookOf(s));
    }
  }

  // ----- resumed handlers -----

  lemma DrainIsSilent(s: State, t: TaskId, answer: bool, queue: nat, pos: nat)
    requires queue < |s.ice.queues|
    ensures BookOf(DrainFrom(s, t, answer, queue, pos)) == BookOf(s)
  {
  }

  lemma StartDrainIsSilent(s: State, t: TaskId, answer: bool)
    requires s.ice.queues != []
    ensures BookOf(StartDrain(s, t, answer)) == BookOf(s)
  {
  }

  lemma RejectedIsSilent(s: State, t: TaskId)
    requires t in s.tasks
    ensures Silent(BookOf(s), BookOf(Rejected(s, t)))
  {
    FinishIsSilent(Finished(s, t));
    FinishIsSilent(SetAnswering(Finished(s, t), false));
  }

  predicate Sends(pc: Pc) { pc.InitLocal? || pc.AfterInit? || pc.RestartLocal? || pc.OfferLocal? || pc.ResumeMedia? }

  lemma FulfilledIsSilent(s: State, t: TaskId)
    requires t in s.tasks && !Sends(s.tasks[t])
    ensures BookOf(Fulfilled(s, t)) == BookOf(s)
  {
    match s.tasks[t]
    case OfferRemote => if s.ice.queues != [] { StartDrainIsSilent(s, t, false); }
    case AnswerRemote => if s.ice.queues != [] { StartDrainIsSilent(s, t, true); }
    case _ =>
  }

  lemma PostingBook(s: State, t: TaskId)
    requires t in s.tasks && ToSend(s, Resume(t, true)).Some?
    ensures BookOf(Fulfilled(s, t)) == Posted(BookOf(s), Joined(s.link), ToSend(s, Resume(t, true)).value)
  {
  }

  lemma PostingSettles(s: State, t: TaskId)
    requires t in s.tasks && ToSend(s, Resume(t, true)).Some?
    ensures Settles(BookOf(s), BookOf(Fulfilled(s, t)), NewDues(s, Resume(t, true)))
  {
    PostingBook(s, t);
    PostedSettles(BookOf(s), Joined(s.link), ToSend(s, Resume(t, true)).value);
  }

  lemma SetOfferBook(s: State, t: TaskId)
    requires t in s.tasks && s.tasks[t].InitLocal?
    ensures BookOf(Fulfilled(s, t))
            == Flushed(BookOf(s).(pending := true), s.negotiation.peerReady && Joined(s.link))
  {
  }

  lemma SetOfferSettles(s: State, t: TaskId)
    requires t in s.tasks && s.tasks[t].InitLocal?
    ensures Settles(BookOf(s), BookOf(Fulfilled(s, t)), NewDues(s, Resume(t, true)))
  {
    SetOfferBook(s, t);
    SetSettles(BookOf(s), s.negotiation.peerReady && Joined(s.link));
  }

  lemma FlushOfferSettles(s: State, t: TaskId)
    requires t in s.tasks && s.tasks[t].AfterInit?
    ensures Settles(BookOf(s), BookOf(Fulfilled(s, t)), NewDues(s, Resume(t, true)))
  {
    FlushBook(Finished(s, t));
    FlushedSettles(BookOf(s), s.negotiation.peerReady && Joined(s.link));
  }

  /** A resumption that sends nothing. */
  lemma QuietResume(s: State, e: Event)
    requires e.Resume? && !Sends(ResumedFrom(s, e))
    ensures Silent(BookOf(s), BookOf(Step(s, e)))
  {
    var t := e.task;
    if t in s.tasks {
      var pc := s.tasks[t];
      if Draining(pc) {
        if pc.queue < |s.ice.queues| { DrainIsSilent(s, t, pc.AnswerDrain?, pc.queue, pc.pos + 1); }
      } else if e.ok {
        FulfilledIsSilent(s, t);
      } else {
        RejectedIsSilent(s, t);
      }
    }
  }

  lemma ResumeSettles(s: State, e: Event)
    requires e.Resume?
    ensures Settles(BookOf(s), BookOf(Step(s, e)), NewDues(s, e))
  {
    if Sends(ResumedFrom(s, e)) {
      assert Step(s, e) == Fulfilled(s, e.task);
      if s.tasks[e.task].InitLocal? {
        SetOfferSettles(s, e.task);
      } else if s.tasks[e.task].AfterInit? {
        FlushOfferSettles(s, e.task);
      } else {
        PostingSettles(s, e.task);
      }
    } else {
      QuietResume(s, e);
      SilentSettles(BookOf(s), BookOf(Step(s, e)));
    }
  }

  // ----- the other events -----

  lemma HangUpSettles(s: State, e: Event)
    requires e.EndCall? || e.RejectCall?
    ensures Settles(BookOf(s), BookOf(Step(s, e)), NewDues(s, e))
  {
    var p := if e.EndCall? then EndCallSignal else RejectCallSignal;
    PushBook(s, p);
    FinishIsSilent(PushSignal(s, p));
    HungUpSettles(BookOf(s), Joined(s.link), p, BookOf(Step(s, e)));
  }

  lemma LocalCandidateSettles(s: State)
    ensures Settles(BookOf(s), BookOf(Step(s, LocalCandidate)), NewDues(s, LocalCandidate))
  {
    PushBook(s, PushCandidate);
    PostedSettles(BookOf(s), s.ice.peer && Joined(s.link), PushCandidate);
  }

  lemma OtherIsSilent(s: State, e: Event)
    requires !e.Received? && !e.Resume? && !e.EndCall? && !e.RejectCall? && !e.LocalCandidate?
    ensures Silent(BookOf(s), BookOf(Step(s, e)))
  {
    match e
    case ConnectionTrouble => ScheduleIsSilent(s);
    case Online => ScheduleIsSilent(s);
    case Offline => FinishIsSilent(s);
    case _ =>
  }

  lemma StepSettles(s: State, e: Event)
    ensures Settles(BookOf(s), BookOf(Step(s, e)), NewDues(s, e))
  {
    match e
    case Received(_, _, _, _) => ReceivedSettles(s, e);
    case Resume(_, _) => ResumeSettles(s, e);
    case EndCall => HangUpSettles(s, e);
    case RejectCall => HangUpSettles(s, e);
    case LocalCandidate => LocalCandidateSettles(s);
    case _ =>
      OtherIsSilent(s, e);
      SilentSettles(BookOf(s), BookOf(Step(s, e)));
  }

  // ----- over every run -----

  /**
   Nothing is sent that is not due, and nothing due is forgotten. In every run the
   answers sent are as many as the local descriptions set for an offer while the
   channel was joined, and so for the other signals; every remote candidate that is
   delivered is accepted. Until cleanup the offers sent and the one pending are as many as
   the local descriptions set by initiateOffer, less those that replaced a pending
   offer, and the restart descriptions set while the channel was joined.
   */
  lemma {:induction false} SignalsAreAccountedFor(events: seq<Event>)
    ensures var s, d := Run(events), AllDues(events);
            && multiset(s.link.pushed)[PushAnswer] == d.answers
            && multiset(s.link.pushed)[ReadyToReceive] == d.ready
            && multiset(s.link.pushed)[PushCandidate] == d.candidates
            && multiset(s.link.pushed)[EndCallSignal] == d.ended
            && multiset(s.link.pushed)[RejectCallSignal] == d.rejected
            && s.ice.arrived == d.heardCandidates
            && (!s.life.cleanupStarted ==>
                  multiset(s.link.pushed)[PushOffer] + (if s.negotiation.pendingOffer then 1 else 0) + d.replaced
                  == d.offers + d.restartOffers)
  {
    if events != [] {
      var n := |events| - 1;
      SignalsAreAccountedFor(events[..n]);
      StepSettles(Run(events[..n]), events[n]);
    }
  }

  // ----- the pending offer -----

  lemma RestartLeavesOffer(s: State, e: Event)
    requires ResumedFrom(s, e).RestartLocal?
    ensures Step(s, e).negotiation.pendingOffer == s.negotiation.pendingOffer
  {
  }

  lemma OneOfferMore(b: Book, b': Book, d: Dues)
    requires Settles(b, b', d) && b.pending && !b'.pending && !b'.closed && d.offers == d.replaced
    requires d.restartOffers == 0
    ensures b'.sent == b.sent + [PushOffer]
  {
    assert Count(b', PushOffer) == Count(b, PushOffer) + 1;
    var n := |b'.sent| - 1;
    assert b'.sent == b.sent + [b'.sent[n]];
    CountPosted(b, b'.sent[n]);
  }

  /** Until cleanup a pending offer stops being pending only by being sent, and then nothing else is sent. */
  lemma PendingOfferIsSent(events: seq<Event>, e: Event)
    requires Run(events).negotiation.pendingOffer && !Run(events + [e]).negotiation.pendingOffer
    requires !Run(events + [e]).life.cleanupStarted
    ensures Run(events + [e]).link.pushed == Run(events).link.pushed + [PushOffer]
  {
    RunAppend(events, e);
    var s := Run(events);
    StepSettles(s, e);
    if ResumedFrom(s, e).RestartLocal? { RestartLeavesOffer(s, e); }
    OneOfferMore(BookOf(s), BookOf(Step(s, e)), NewDues(s, e));
  }

  /**
   A new peer_ready sends the pending offer: if the channel is joined, then after it
   no offer is pending, unless it starts a new offer; and it starts one exactly when
   the client is to initiate and none is pending.
   */
  lemma PeerReadySendsTheOffer(events: seq<Event>, key: SignalKey, t: TaskId)
    requires Heard(Run(events), Received(false, key, PeerReady, t)) && Joined(Run(events).link)
    ensures var s := Run(events);
            var s' := Run(events + [Received(false, key, PeerReady, t)]);
            var starts := s.negotiation.initiateOnReady && !s.negotiation.pendingOffer;
            && s'.negotiation.peerReady && !s'.negotiation.pendingOffer
            && s'.link.pushed == s.link.pushed + (if s.negotiation.pendingOffer then [PushOffer] else [])
            && s'.tasks == (if starts then s.tasks[t := InitCreate(true)] else s.tasks)
  {
    RunAppend(events, Received(false, key, PeerReady, t));
  }

  /** An offer whose local description is set is sent at once to a peer that is ready, and else waits for it. */
  lemma SetOfferIsSentOrWaits(events: seq<Event>, t: TaskId)
    requires t in Run(events).tasks && Run(events).tasks[t].InitLocal?
    ensures var s, s' := Run(events), Run(events + [Resume(t, true)]);
            var sent := s.negotiation.peerReady && Joined(s.link);
            && s'.link.pushed == s.link.pushed + (if sent then [PushOffer] else [])
            && s'.negotiation.pendingOffer == !sent
  {
    RunAppend(events, Resume(t, true));
  }
}
