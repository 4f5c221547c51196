/** No ICE candidate is lost: with or without overlapping drains, each one is queued or was handed over. */
module WebRtcHandover {
  import opened WebRtcModel
  import Candidates = WebRtcCandidates

  /** The first `n` entries of an array were handed over. */
  ghost predicate Handed(ice: Ice, queue: seq<Candidate>, n: nat) {
    n <= |queue| && forall k :: 0 <= k < n ==> queue[k] in ice.handed
  }

  /** Candidates only ever wait in the first array; when it was replaced, all of them were handed over. */
  ghost predicate QueuesOk(ice: Ice) {
    && ice.queues != []
    && (forall q :: 1 <= q < |ice.queues| ==> ice.queues[q] == [])
    && (|ice.queues| > 1 ==> ice.remoteSet && Handed(ice, ice.queues[0], |ice.queues[0]|))
    && (ice.remoteSet ==> ice.peer)
  }

  ghost predicate NoneLost(ice: Ice) {
    ice.queues != [] && forall c: Candidate :: c < ice.arrived ==> c in ice.handed || c in ice.queues[0]
  }

  /** A suspended drain has handed over what it has passed; a negotiation has a peer connection. */
  ghost predicate TaskOk(ice: Ice, pc: Pc) {
    && (Draining(pc) ==> pc.queue < |ice.queues| && pc.pos < |ice.queues[pc.queue]| && ice.remoteSet
                         && Handed(ice, ice.queues[pc.queue], pc.pos + 1))
    && (Candidates.Negotiating(pc) ==> ice.peer)
  }

  ghost predicate TasksOk(ice: Ice, tasks: map<TaskId, Pc>) { forall t :: t in tasks ==> TaskOk(ice, tasks[t]) }

  ghost predicate HandoverOk(s: State) {
    !s.life.cleanupStarted ==> QueuesOk(s.ice) && NoneLost(s.ice) && TasksOk(s.ice, s.tasks)
  }

  lemma QuietKeeps(s: State, s': State, t: TaskId)
    requires HandoverOk(s) && Candidates.Quiet(s, s', t)
    ensures HandoverOk(s')
  {
  }

  // ----- the candidate queue -----

  /** More candidates are handed over. */
  lemma MoreHanded(ice: Ice, ice': Ice, tasks: map<TaskId, Pc>)
    requires QueuesOk(ice) && TasksOk(ice, tasks) && ice.handed <= ice'.handed
    requires ice'.queues == ice.queues && ice'.peer == ice.peer && ice'.remoteSet == ice.remoteSet
    ensures QueuesOk(ice') && TasksOk(ice', tasks)
  {
    forall c | c in ice.handed ensures c in ice'.handed {
      var i :| 0 <= i < |ice.handed| && ice.handed[i] == c;
      assert ice'.handed[i] == c;
    }
    forall t | t in tasks ensures TaskOk(ice', tasks[t]) { assert TaskOk(ice, tasks[t]); }
  }

  lemma LateCandidate(s: State, t: TaskId)
    requires HandoverOk(s) && !s.life.cleanupStarted && t !in s.tasks && s.ice.remoteSet
    ensures HandoverOk(HandleIceCandidate(s, t))
  {
    var ice' := HandleIceCandidate(s, t).ice;
    MoreHanded(s.ice, ice', s.tasks);
    assert ice'.handed[|s.ice.handed|] == s.ice.arrived;
    forall c: Candidate | c < ice'.arrived ensures c in ice'.handed || c in ice'.queues[0] {}
  }

  lemma EarlyCandidate(s: State, t: TaskId)
    requires HandoverOk(s) && !s.life.cleanupStarted && t !in s.tasks && !s.ice.remoteSet
    ensures HandoverOk(HandleIceCandidate(s, t))
  {
    var ice' := HandleIceCandidate(s, t).ice;
    assert |s.ice.queues| == 1;
    assert ice'.queues == [s.ice.queues[0] + [s.ice.arrived]];
    forall c: Candidate | c < ice'.arrived ensures c in ice'.handed || c in ice'.queues[0] {}
    forall u | u in s.tasks ensures TaskOk(ice', s.tasks[u]) { assert TaskOk(s.ice, s.tasks[u]); }
  }

  lemma HandleIceCandidateKeeps(s: State, t: TaskId)
    requires HandoverOk(s) && t !in s.tasks
    ensures HandoverOk(HandleIceCandidate(s, t))
  {
    if !s.life.cleanupStarted {
      if s.ice.remoteSet { LateCandidate(s, t); } else { EarlyCandidate(s, t); }
    }
  }

  /** A drain hands over the entry it has reached. */
  lemma HandNext(s: State, t: TaskId, answer: bool, queue: nat, pos: nat)
    requires HandoverOk(s) && !s.life.cleanupStarted && s.ice.remoteSet && queue < |s.ice.queues|
    requires pos < |s.ice.queues[queue]| && Handed(s.ice, s.ice.queues[queue], pos)
    ensures HandoverOk(DrainFrom(s, t, answer, queue, pos))
  {
    var c := s.ice.queues[queue][pos];
    var ice' := HandFromQueue(s.ice, c, pos);
    MoreHanded(s.ice, ice', s.tasks);
    assert ice'.handed[|s.ice.handed|] == c;
    forall k | 0 <= k < pos + 1 ensures s.ice.queues[queue][k] in ice'.handed {}
    forall d: Candidate | d < ice'.arrived ensures d in ice'.handed || d in ice'.queues[0] {}
    assert TaskOk(ice', DrainPc(answer, queue, pos));
  }

  /** A drain that has passed its whole array replaces the current one. */
  lemma DrainEnds(s: State, t: TaskId, answer: bool, queue: nat, pos: nat)
    requires HandoverOk(s) && !s.life.cleanupStarted && s.ice.remoteSet && queue < |s.ice.queues|
    requires pos >= |s.ice.queues[queue]| && Handed(s.ice, s.ice.queues[queue], |s.ice.queues[queue]|)
    ensures HandoverOk(DrainFrom(s, t, answer, queue, pos))
  {
    var ice' := ClearQueue(s.ice);
    assert ice'.queues[0] == s.ice.queues[0];
    forall u | u in s.tasks ensures TaskOk(ice', s.tasks[u]) { assert TaskOk(s.ice, s.tasks[u]); }
    forall d: Candidate | d < ice'.arrived ensures d in ice'.handed || d in ice'.queues[0] {}
  }

  lemma DrainKeeps(s: State, t: TaskId, answer: bool, queue: nat, pos: nat)
    requires HandoverOk(s) && (!s.life.cleanupStarted ==> s.ice.remoteSet) && queue < |s.ice.queues|
    requires pos <= |s.ice.queues[queue]| && (!s.life.cleanupStarted ==> Handed(s.ice, s.ice.queues[queue], pos))
    ensures HandoverOk(DrainFrom(s, t, answer, queue, pos))
  {
    if !s.life.cleanupStarted {
      if pos < |s.ice.queues[queue]| {
        HandNext(s, t, answer, queue, pos);
      } else {
        DrainEnds(s, t, answer, queue, pos);
      }
    }
  }

  lemma StartDrainKeeps(s: State, t: TaskId, answer: bool)
    requires HandoverOk(s) && s.ice.queues != [] && t in s.tasks && Candidates.Negotiating(s.tasks[t])
    ensures HandoverOk(StartDrain(s, t, answer))
  {
    if !s.life.cleanupStarted {
      assert TaskOk(s.ice, s.tasks[t]);
      var ice := s.ice.(remoteSet := true, overlapped := s.ice.overlapped || SomeDrain(s.tasks));
      var applied := s.negotiation.answersApplied + (if answer then 1 else 0);
      var ready := s.(ice := ice, negotiation := s.negotiation.(answersApplied := applied));
      forall u | u in s.tasks ensures TaskOk(ice, s.tasks[u]) { assert TaskOk(s.ice, s.tasks[u]); }
      DrainKeeps(ready, t, answer, |ice.queues| - 1, 0);
      assert StartDrain(s, t, answer) == DrainFrom(ready, t, answer, |ice.queues| - 1, 0);
    }
  }

  // ----- every step -----

  lemma FulfilledKeeps(s: State, t: TaskId)
    requires HandoverOk(s) && t in s.tasks && !Draining(s.tasks[t])
    ensures HandoverOk(Fulfilled(s, t))
  {
    if Candidates.Negotiating(s.tasks[t]) {
      if s.ice.queues != [] { StartDrainKeeps(s, t, s.tasks[t].AnswerRemote?); }
    } else {
      Candidates.FulfilledQuiet(s, t);
      QuietKeeps(s, Fulfilled(s, t), t);
    }
  }

  lemma RejectedKeeps(s: State, t: TaskId)
    requires HandoverOk(s) && t in s.tasks && !Draining(s.tasks[t])
    ensures HandoverOk(Rejected(s, t))
  {
    var done := if s.tasks[t].AnswerRemote? then SetAnswering(Finished(s, t), false) else Finished(s, t);
    QuietKeeps(s, done, t);
    Candidates.FinishQuiet(done, t);
    QuietKeeps(done, FinishCall(done), t);
  }

  lemma ResumeKeeps(s: State, t: TaskId, ok: bool)
    requires HandoverOk(s) && t in s.tasks
    ensures HandoverOk(ResumeTask(s, t, ok))
  {
    var pc := s.tasks[t];
    if Draining(pc) {
      if pc.queue < |s.ice.queues| && !s.life.cleanupStarted {
        assert TaskOk(s.ice, pc);
        DrainKeeps(s, t, pc.AnswerDrain?, pc.queue, pc.pos + 1);
      }
    } else {
      FulfilledKeeps(s, t);
      RejectedKeeps(s, t);
    }
  }

  lemma ReceiveKeeps(s: State, own: bool, key: SignalKey, signal: Signal, t: TaskId)
    requires HandoverOk(s) && t !in s.tasks
    ensures HandoverOk(Receive(s, own, key, signal, t))
  {
    var heard := s.(handled := s.handled + {key});
    if signal.IceCandidate? {
      HandleIceCandidateKeeps(heard, t);
    } else {
      Candidates.HandleQuiet(heard, t, signal);
      QuietKeeps(heard, Handle(heard, t, signal), t);
    }
  }

  lemma StepKeeps(s: State, e: Event)
    requires HandoverOk(s)
    ensures HandoverOk(Step(s, e))
  {
    match e
    case Received(own, key, signal, t) => if t !in s.tasks { ReceiveKeeps(s, own, key, signal, t); }
    case Resume(t, ok) => if t in s.tasks { ResumeKeeps(s, t, ok); }
    case _ =>
      Candidates.OtherQuiet(s, e);
      QuietKeeps(s, Step(s, e), Starts(e));
  }

  lemma {:induction false} RunKeeps(events: seq<Event>)
    ensures HandoverOk(Run(events))
  {
    if events != [] {
      RunKeeps(events[..|events| - 1]);
      StepKeeps(Run(events[..|events| - 1]), events[|events| - 1]);
    }
  }

  lemma WaitsInCurrent(ice: Ice, c: Candidate)
    requires QueuesOk(ice) && NoneLost(ice) && c < ice.arrived
    ensures c in ice.handed || c in Current(ice)
  {
    if c in ice.queues[0] && |ice.queues| > 1 {
      var k :| 0 <= k < |ice.queues[0]| && ice.queues[0][k] == c;
    }
  }

  /**
   No candidate is lost: until cleanup, whether drains overlap or not, every
   accepted candidate waits in the current queue or was handed over at least once.
   */
  lemma NoCandidateIsLost(events: seq<Event>, c: Candidate)
    requires !Run(events).life.cleanupStarted && c < Run(events).ice.arrived
    ensures c in Run(events).ice.handed || c in Current(Run(events).ice)
  {
    RunKeeps(events);
    WaitsInCurrent(Run(events).ice, c);
  }
}
