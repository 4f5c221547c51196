/** ICE candidates of the WebRTC client: each one is handed over exactly once, unless two drains overlap. */
module WebRtcCandidates {
  import opened WebRtcModel

  // ----- counting candidates -----

  function Pending(ice: Ice): seq<Candidate> {
    if ice.drained <= |Current(ice)| then Current(ice)[ice.drained..] else []
  }

  /** Every accepted candidate is either handed over, once, or pending, once. */
  ghost predicate ExactlyOnce(handed: seq<Candidate>, pending: seq<Candidate>, arrived: nat) {
    forall c: Candidate :: multiset(handed)[c] + multiset(pending)[c] == (if c < arrived then 1 else 0)
  }

  ghost predicate Increasing(s: seq<Candidate>) { forall i, j :: 0 <= i < j < |s| ==> s[i] < s[j] }

  ghost predicate HandedTwice(handed: seq<Candidate>) {
    exists i, j :: 0 <= i < j < |handed| && handed[i] == handed[j]
  }

  lemma MultisetOfConcat(a: seq<Candidate>, b: seq<Candidate>)
    ensures multiset(a + b) == multiset(a) + multiset(b)
  {
  }

  lemma CountedTwice(handed: seq<Candidate>, i: nat, j: nat)
    requires i < j < |handed| && handed[i] == handed[j]
    ensures multiset(handed)[handed[i]] >= 2
  {
    assert handed == handed[..j] + handed[j..];
    MultisetOfConcat(handed[..j], handed[j..]);
    assert handed[..j][i] == handed[i] && handed[j..][0] == handed[i];
  }

  lemma ExactlyOnceNotTwice(handed: seq<Candidate>, pending: seq<Candidate>, arrived: nat)
    requires ExactlyOnce(handed, pending, arrived)
    ensures !HandedTwice(handed)
  {
    forall i: nat, j: nat | i < j < |handed| ensures handed[i] != handed[j] {
      if handed[i] == handed[j] { CountedTwice(handed, i, j); }
    }
  }

  /** Handing over the first pending candidate. */
  lemma HandOver(handed: seq<Candidate>, pending: seq<Candidate>, arrived: nat)
    requires ExactlyOnce(handed, pending, arrived) && pending != []
    ensures ExactlyOnce(handed + [pending[0]], pending[1..], arrived)
  {
    assert pending == [pending[0]] + pending[1..];
    MultisetOfConcat([pending[0]], pending[1..]);
    MultisetOfConcat(handed, [pending[0]]);
  }

  lemma AcceptPending(handed: seq<Candidate>, pending: seq<Candidate>, arrived: nat)
    requires ExactlyOnce(handed, pending, arrived)
    ensures ExactlyOnce(handed, pending + [arrived], arrived + 1)
    ensures ExactlyOnce(handed + [arrived], pending, arrived + 1)
  {
    MultisetOfConcat(pending, [arrived]);
    MultisetOfConcat(handed, [arrived]);
  }

  // ----- the invariant, while no two drains have overlapped and the call is not cleaned up -----

  predicate Negotiating(pc: Pc) { pc.OfferRemote? || pc.AnswerRemote? }

  /** The one suspended drain works on the current array and has handed over its first `drained` entries. */
  ghost predicate DrainsOk(ice: Ice, tasks: map<TaskId, Pc>) {
    && (forall t :: t in tasks && Draining(tasks[t]) ==>
          && ice.remoteSet
          && tasks[t].queue == |ice.queues| - 1
          && tasks[t].pos + 1 == ice.drained <= |Current(ice)|)
    && (forall t, u :: t in tasks && u in tasks && Draining(tasks[t]) && Draining(tasks[u]) ==> t == u)
    && (!SomeDrain(tasks) ==> ice.drained == 0)
    && (!SomeDrain(tasks) && ice.remoteSet ==> Current(ice) == [])
    && (forall t :: t in tasks && Negotiating(tasks[t]) ==> ice.peer)
  }

  ghost predicate QueueOk(ice: Ice) {
    && ice.queues != []
    && ice.drained <= |Current(ice)|
    && (ice.remoteSet ==> ice.peer)
    && (!ice.remoteSet ==> ice.handed == [])
    && ExactlyOnce(ice.handed, Pending(ice), ice.arrived)
    && Increasing(ice.fromQueue + Pending(ice))
    && (forall k :: 0 <= k < |ice.fromQueue| ==> ice.fromQueue[k] < ice.arrived)
    && (forall k :: 0 <= k < ice.drained ==> Current(ice)[k] in ice.handed)
  }

  ghost predicate CandidatesOk(s: State) {
    && (!s.life.cleanupStarted && !s.ice.overlapped ==> QueueOk(s.ice) && DrainsOk(s.ice, s.tasks))
    && (s.ice.overlapped ==> HandedTwice(s.ice.handed))
  }

  // ----- steps -----

  /** A step that moves no candidate and no drain: at most handler `t` changes. */
  predicate Quiet(s: State, s': State, t: TaskId) {
    && (s.life.cleanupStarted ==> s'.life.cleanupStarted)
    && s'.ice.handed == s.ice.handed && s'.ice.overlapped == s.ice.overlapped
    && (!s'.life.cleanupStarted ==>
          && (s'.ice == s.ice || s'.ice == s.ice.(peer := true))
          && QuietTask(s.tasks, s'.tasks, t, s'.ice.peer))
  }

  predicate QuietTask(tasks: map<TaskId, Pc>, tasks': map<TaskId, Pc>, t: TaskId, peer: bool) {
    tasks' == tasks
    || (&& t in tasks'
        && tasks' == tasks[t := tasks'[t]]
        && !Draining(tasks'[t])
        && (t in tasks ==> !Draining(tasks[t]))
        && (Negotiating(tasks'[t]) ==> peer))
  }

  lemma DrainsStay(ice: Ice, ice': Ice, tasks: map<TaskId, Pc>, tasks': map<TaskId, Pc>, t: TaskId)
    requires DrainsOk(ice, tasks) && (ice' == ice || ice' == ice.(peer := true))
    requires QuietTask(tasks, tasks', t, ice'.peer)
    ensures DrainsOk(ice', tasks')
  {
    assert Current(ice') == Current(ice);
    if tasks' != tasks { SomeDrainKept(tasks, t, tasks'[t]); }
  }

  lemma SomeDrainKept(tasks: map<TaskId, Pc>, t: TaskId, pc: Pc)
    requires !Draining(pc) && (t in tasks ==> !Draining(tasks[t]))
    ensures SomeDrain(tasks[t := pc]) <==> SomeDrain(tasks)
  {
    if SomeDrain(tasks) {
      var u :| u in tasks && Draining(tasks[u]);
      assert u in tasks[t := pc] && Draining(tasks[t := pc][u]);
    }
  }

  lemma QuietKeeps(s: State, s': State, t: TaskId)
    requires CandidatesOk(s) && Quiet(s, s', t)
    ensures CandidatesOk(s')
  {
    if !s'.life.cleanupStarted && !s'.ice.overlapped {
      assert Current(s'.ice) == Current(s.ice) && Pending(s'.ice) == Pending(s.ice);
      DrainsStay(s.ice, s'.ice, s.tasks, s'.tasks, t);
    }
  }

  lemma TwiceGrows(handed: seq<Candidate>, more: seq<Candidate>)
    requires HandedTwice(handed)
    ensures HandedTwice(handed + more)
  {
    var i, j :| 0 <= i < j < |handed| && handed[i] == handed[j];
    assert (handed + more)[i] == (handed + more)[j];
  }

  lemma AcceptedDirectly(ice: Ice, c: Candidate)
    requires QueueOk(ice) && ice.remoteSet && c == ice.arrived
    ensures QueueOk(ice.(arrived := c + 1, handed := ice.handed + [c]))
  {
    AcceptPending(ice.handed, Pending(ice), c);
    var ice' := ice.(arrived := c + 1, handed := ice.handed + [c]);
    assert Current(ice') == Current(ice) && Pending(ice') == Pending(ice);
  }

  lemma PendingIsAccepted(ice: Ice)
    requires QueueOk(ice)
    ensures forall k :: 0 <= k < |ice.fromQueue + Pending(ice)| ==> (ice.fromQueue + Pending(ice))[k] < ice.arrived
  {
    forall k | 0 <= k < |Pending(ice)| ensures Pending(ice)[k] < ice.arrived {
      assert multiset(Pending(ice))[Pending(ice)[k]] >= 1;
    }
  }

  lemma Enqueued(ice: Ice, c: Candidate)
    requires QueueOk(ice) && !ice.remoteSet && c == ice.arrived && ice.drained == 0
    ensures QueueOk(Enqueue(ice.(arrived := c + 1), c))
    ensures Current(Enqueue(ice.(arrived := c + 1), c)) == Current(ice) + [c]
  {
    AcceptPending(ice.handed, Pending(ice), c);
    PendingIsAccepted(ice);
    var ice' := Enqueue(ice.(arrived := c + 1), c);
    assert Current(ice') == Current(ice) + [c];
    assert Pending(ice') == Pending(ice) + [c];
    assert ice'.fromQueue + Pending(ice') == (ice.fromQueue + Pending(ice)) + [c];
  }

  lemma DrainsAfterAccept(ice: Ice, ice': Ice, tasks: map<TaskId, Pc>, t: TaskId)
    requires DrainsOk(ice, tasks) && t !in tasks
    requires ice'.queues == ice.queues && ice'.drained == ice.drained && ice'.remoteSet == ice.remoteSet
    requires ice'.peer == ice.peer
    ensures DrainsOk(ice', tasks[t := CandidateAdd])
  {
    SomeDrainKept(tasks, t, CandidateAdd);
  }

  lemma DrainsWaitForRemote(ice: Ice, ice': Ice, tasks: map<TaskId, Pc>)
    requires DrainsOk(ice, tasks) && !ice.remoteSet
    requires !ice'.remoteSet && ice'.drained == ice.drained && ice'.peer == ice.peer
    ensures !SomeDrain(tasks) && DrainsOk(ice', tasks) && ice.drained == 0
  {
  }

  lemma EnqueueKeeps(ice: Ice, tasks: map<TaskId, Pc>)
    requires QueueOk(ice) && DrainsOk(ice, tasks) && !ice.remoteSet
    ensures QueueOk(Enqueue(ice.(arrived := ice.arrived + 1), ice.arrived))
    ensures DrainsOk(Enqueue(ice.(arrived := ice.arrived + 1), ice.arrived), tasks)
  {
    DrainsWaitForRemote(ice, Enqueue(ice.(arrived := ice.arrived + 1), ice.arrived), tasks);
    Enqueued(ice, ice.arrived);
  }

  lemma HandKeeps(ice: Ice, tasks: map<TaskId, Pc>, t: TaskId)
    requires QueueOk(ice) && DrainsOk(ice, tasks) && ice.remoteSet && t !in tasks
    ensures var ice' := ice.(arrived := ice.arrived + 1, handed := ice.handed + [ice.arrived]);
            QueueOk(ice') && DrainsOk(ice', tasks[t := CandidateAdd])
  {
    AcceptedDirectly(ice, ice.arrived);
    DrainsAfterAccept(ice, ice.(arrived := ice.arrived + 1, handed := ice.handed + [ice.arrived]), tasks, t);
  }

  /** A candidate that arrives after the remote description. */
  lemma LateCandidateKeeps(s: State, t: TaskId)
    requires CandidatesOk(s) && t !in s.tasks && !s.life.cleanupStarted && !s.ice.overlapped && s.ice.remoteSet
    ensures CandidatesOk(HandleIceCandidate(s, t))
  {
    HandKeeps(s.ice, s.tasks, t);
  }

  lemma EarlyCandidateIs(s: State, t: TaskId)
    requires !s.ice.remoteSet
    ensures HandleIceCandidate(s, t) == s.(ice := Enqueue(s.ice.(arrived := s.ice.arrived + 1), s.ice.arrived))
  {
  }

  /** A candidate that arrives before the remote description. */
  lemma EarlyCandidateKeeps(s: State, t: TaskId)
    requires CandidatesOk(s) && t !in s.tasks && !s.life.cleanupStarted && !s.ice.overlapped && !s.ice.remoteSet
    ensures CandidatesOk(HandleIceCandidate(s, t))
  {
    EnqueueKeeps(s.ice, s.tasks);
    EarlyCandidateIs(s, t);
  }

  lemma HandleIceCandidateKeeps(s: State, t: TaskId)
    requires CandidatesOk(s) && t !in s.tasks
    ensures CandidatesOk(HandleIceCandidate(s, t))
  {
    if s.ice.overlapped {
      TwiceGrows(s.ice.handed, [s.ice.arrived]);
    } else if !s.life.cleanupStarted {
      if s.ice.remoteSet { LateCandidateKeeps(s, t); } else { EarlyCandidateKeeps(s, t); }
    }
  }

  lemma HandFromQueueKeeps(ice: Ice, pos: nat)
    requires QueueOk(ice) && ice.remoteSet && pos == ice.drained < |Current(ice)|
    ensures QueueOk(HandFromQueue(ice, Current(ice)[pos], pos))
  {
    var queue := Current(ice);
    var ice' := HandFromQueue(ice, queue[pos], pos);
    HandOver(ice.handed, Pending(ice), ice.arrived);
    PendingIsAccepted(ice);
    assert Pending(ice)[0] == queue[pos] && Pending(ice') == Pending(ice)[1..];
    assert (ice.fromQueue + Pending(ice))[|ice.fromQueue|] == queue[pos];
    assert ice'.fromQueue + Pending(ice') == ice.fromQueue + Pending(ice);
  }

  lemma ClearQueueKeeps(ice: Ice)
    requires QueueOk(ice) && Pending(ice) == []
    ensures QueueOk(ClearQueue(ice)) && Current(ClearQueue(ice)) == []
  {
    assert Pending(ClearQueue(ice)) == [];
  }

  lemma OnlyDrain(ice: Ice, tasks: map<TaskId, Pc>, t: TaskId, pc: Pc)
    requires forall u :: u in tasks && u != t ==> !Draining(tasks[u])
    requires ice.peer && ice.remoteSet
    requires if Draining(pc) then pc.queue == |ice.queues| - 1 && pc.pos + 1 == ice.drained <= |Current(ice)|
             else ice.drained == 0 && Current(ice) == []
    ensures DrainsOk(ice, tasks[t := pc])
  {
    if Draining(pc) { assert t in tasks[t := pc] && Draining(tasks[t := pc][t]); }
  }

  /** One more iteration of the only suspended drain, or its end. */
  lemma DrainFromKeeps(s: State, t: TaskId, answer: bool, pos: nat)
    requires !s.life.cleanupStarted && !s.ice.overlapped && QueueOk(s.ice) && s.ice.remoteSet
    requires pos == s.ice.drained
    requires forall u :: u in s.tasks && u != t ==> !Draining(s.tasks[u])
    ensures CandidatesOk(DrainFrom(s, t, answer, |s.ice.queues| - 1, pos))
  {
    if pos < |Current(s.ice)| {
      HandFromQueueKeeps(s.ice, pos);
      OnlyDrain(HandFromQueue(s.ice, Current(s.ice)[pos], pos), s.tasks, t, DrainPc(answer, |s.ice.queues| - 1, pos));
    } else {
      ClearQueueKeeps(s.ice);
      OnlyDrain(ClearQueue(s.ice), s.tasks, t, if answer then AnswerDrained else OfferDrained);
    }
  }

  // ----- histories in which drains overlap, or which were cleaned up -----

  lemma DrainFromGrows(s: State, t: TaskId, answer: bool, queue: nat, pos: nat)
    requires queue < |s.ice.queues| && (s.ice.overlapped ==> HandedTwice(s.ice.handed))
    requires s.life.cleanupStarted || s.ice.overlapped
    ensures CandidatesOk(DrainFrom(s, t, answer, queue, pos))
  {
    if s.ice.overlapped && s.ice.peer && pos < |s.ice.queues[queue]| {
      TwiceGrows(s.ice.handed, [s.ice.queues[queue][pos]]);
    }
  }

  /** The moment a second drain starts, the first entry of the queue is handed over again. */
  lemma OverlapHandsTwice(s: State, t: TaskId, answer: bool)
    requires CandidatesOk(s) && !s.life.cleanupStarted && !s.ice.overlapped && SomeDrain(s.tasks)
    ensures StartDrain(s, t, answer).ice.overlapped && HandedTwice(StartDrain(s, t, answer).ice.handed)
  {
    var u :| u in s.tasks && Draining(s.tasks[u]);
    var c := Current(s.ice)[0];
    assert c in s.ice.handed;
    var i :| 0 <= i < |s.ice.handed| && s.ice.handed[i] == c;
    var handed := s.ice.handed + [c];
    assert handed[i] == handed[|s.ice.handed|];
    assert StartDrain(s, t, answer).ice.handed == handed;
  }

  lemma NoDrainYet(s: State)
    requires CandidatesOk(s) && !s.life.cleanupStarted && !s.ice.overlapped && !SomeDrain(s.tasks)
    requires exists t :: t in s.tasks && Negotiating(s.tasks[t])
    ensures QueueOk(s.ice.(remoteSet := true)) && s.ice.drained == 0
    ensures forall u :: u in s.tasks ==> !Draining(s.tasks[u])
  {
    assert Current(s.ice.(remoteSet := true)) == Current(s.ice) && Pending(s.ice.(remoteSet := true)) == Pending(s.ice);
  }

  lemma FirstDrainIs(s: State, ready: State, t: TaskId, answer: bool)
    requires s.ice.queues != [] && !s.ice.overlapped && !SomeDrain(s.tasks)
    requires ready == s.(ice := s.ice.(remoteSet := true),
                         negotiation := s.negotiation.(
                         answersApplied := s.negotiation.answersApplied + (if answer then 1 else 0)))
    ensures StartDrain(s, t, answer) == DrainFrom(ready, t, answer, |s.ice.queues| - 1, 0)
  {
    assert s.ice.(remoteSet := true, overlapped := false) == s.ice.(remoteSet := true);
  }

  lemma FirstDrainKeeps(s: State, t: TaskId, answer: bool)
    requires s.ice.queues != [] && !s.life.cleanupStarted && !s.ice.overlapped && !SomeDrain(s.tasks)
    requires QueueOk(s.ice.(remoteSet := true)) && s.ice.drained == 0
    requires forall u :: u in s.tasks ==> !Draining(s.tasks[u])
    ensures CandidatesOk(StartDrain(s, t, answer))
  {
    var applied := s.negotiation.answersApplied + (if answer then 1 else 0);
    var ready := s.(ice := s.ice.(remoteSet := true), negotiation := s.negotiation.(answersApplied := applied));
    DrainFromKeeps(ready, t, answer, 0);
    FirstDrainIs(s, ready, t, answer);
  }

  lemma StartDrainKeeps(s: State, t: TaskId, answer: bool)
    requires CandidatesOk(s) && s.ice.queues != [] && t in s.tasks && Negotiating(s.tasks[t])
    ensures CandidatesOk(StartDrain(s, t, answer))
  {
    if s.life.cleanupStarted || s.ice.overlapped {
      var ice := s.ice.(remoteSet := true,
                        overlapped := s.ice.overlapped || (!s.life.cleanupStarted && SomeDrain(s.tasks)));
      var applied := s.negotiation.answersApplied + (if answer then 1 else 0);
      DrainFromGrows(s.(ice := ice, negotiation := s.negotiation.(answersApplied := applied)),
                     t, answer, |s.ice.queues| - 1, 0);
    } else if SomeDrain(s.tasks) {
      OverlapHandsTwice(s, t, answer);
    } else {
      NoDrainYet(s);
      FirstDrainKeeps(s, t, answer);
    }
  }

  /** A drain that was suspended goes on. */
  lemma DrainContinues(s: State, t: TaskId)
    requires CandidatesOk(s) && t in s.tasks && Draining(s.tasks[t]) && s.tasks[t].queue < |s.ice.queues|
    ensures CandidatesOk(DrainFrom(s, t, s.tasks[t].AnswerDrain?, s.tasks[t].queue, s.tasks[t].pos + 1))
  {
    if s.life.cleanupStarted || s.ice.overlapped {
      DrainFromGrows(s, t, s.tasks[t].AnswerDrain?, s.tasks[t].queue, s.tasks[t].pos + 1);
    } else {
      assert forall u :: u in s.tasks && u != t ==> !Draining(s.tasks[u]);
      DrainFromKeeps(s, t, s.tasks[t].AnswerDrain?, s.tasks[t].pos + 1);
    }
  }

  // ----- every step -----

  lemma FinishQuiet(s: State, t: TaskId)
    ensures Quiet(s, Cleanup(s), t) && Quiet(s, FinishCall(s), t)
  {
  }

  lemma HandleQuiet(s: State, t: TaskId, signal: Signal)
    requires t !in s.tasks && !signal.IceCandidate?
    ensures Quiet(s, Handle(s, t, signal), t)
  {
  }

  lemma ReceiveKeeps(s: State, own: bool, key: SignalKey, signal: Signal, t: TaskId)
    requires CandidatesOk(s) && t !in s.tasks
    ensures CandidatesOk(Receive(s, own, key, signal, t))
  {
    var heard := s.(handled := s.handled + {key});
    if signal.IceCandidate? {
      HandleIceCandidateKeeps(heard, t);
    } else {
      HandleQuiet(heard, t, signal);
      QuietKeeps(heard, Handle(heard, t, signal), t);
    }
  }

  lemma PeerArrives(s: State, t: TaskId)
    requires t in s.tasks && !Draining(s.tasks[t])
    requires s.tasks[t].StartMedia? || s.tasks[t].ResumeMedia? || s.tasks[t].OfferMedia?
    ensures Quiet(s, Fulfilled(s, t), t)
  {
  }

  lemma FulfilledQuiet(s: State, t: TaskId)
    requires t in s.tasks && !Draining(s.tasks[t]) && !Negotiating(s.tasks[t])
    ensures Quiet(s, Fulfilled(s, t), t)
  {
    if s.tasks[t].StartMedia? || s.tasks[t].ResumeMedia? || s.tasks[t].OfferMedia? { PeerArrives(s, t); }
  }

  lemma RejectedKeeps(s: State, t: TaskId)
    requires CandidatesOk(s) && t in s.tasks && !Draining(s.tasks[t])
    ensures CandidatesOk(Rejected(s, t))
  {
    var done := if s.tasks[t].AnswerRemote? then SetAnswering(Finished(s, t), false) else Finished(s, t);
    QuietKeeps(s, done, t);
    FinishQuiet(done, t);
    QuietKeeps(done, FinishCall(done), t);
  }

  lemma FulfilledKeeps(s: State, t: TaskId)
    requires CandidatesOk(s) && t in s.tasks && !Draining(s.tasks[t])
    ensures CandidatesOk(Fulfilled(s, t))
  {
    if Negotiating(s.tasks[t]) {
      if s.ice.queues != [] { StartDrainKeeps(s, t, s.tasks[t].AnswerRemote?); }
    } else {
      FulfilledQuiet(s, t);
      QuietKeeps(s, Fulfilled(s, t), t);
    }
  }

  lemma DrainResult(s: State, t: TaskId, ok: bool)
    requires t in s.tasks && Draining(s.tasks[t])
    ensures ResumeTask(s, t, ok)
            == if s.tasks[t].queue < |s.ice.queues| then
                 DrainFrom(s, t, s.tasks[t].AnswerDrain?, s.tasks[t].queue, s.tasks[t].pos + 1)
               else s
  {
  }

  lemma DrainResumes(s: State, t: TaskId, ok: bool)
    requires CandidatesOk(s) && t in s.tasks && Draining(s.tasks[t])
    ensures CandidatesOk(ResumeTask(s, t, ok))
  {
    DrainResult(s, t, ok);
    if s.tasks[t].queue < |s.ice.queues| { DrainContinues(s, t); }
  }

  lemma ResumeKeeps(s: State, t: TaskId, ok: bool)
    requires CandidatesOk(s) && t in s.tasks
    ensures CandidatesOk(ResumeTask(s, t, ok))
  {
    if Draining(s.tasks[t]) {
      DrainResumes(s, t, ok);
    } else {
      FulfilledKeeps(s, t);
      RejectedKeeps(s, t);
    }
  }

  lemma OtherQuiet(s: State, e: Event)
    requires !e.Received? && !e.Resume?
    ensures Quiet(s, Step(s, e), Starts(e))
  {
  }

  lemma StepKeeps(s: State, e: Event)
    requires CandidatesOk(s)
    ensures CandidatesOk(Step(s, e))
  {
    match e
    case Received(own, key, signal, t) => if t !in s.tasks { ReceiveKeeps(s, own, key, signal, t); }
    case Resume(t, ok) => if t in s.tasks { ResumeKeeps(s, t, ok); }
    case _ =>
      OtherQuiet(s, e);
      QuietKeeps(s, Step(s, e), Starts(e));
  }

  lemma {:induction false} RunKeeps(events: seq<Event>)
    ensures CandidatesOk(Run(events))
  {
    if events != [] {
      RunKeeps(events[..|events| - 1]);
      StepKeeps(Run(events[..|events| - 1]), events[|events| - 1]);
    } else {
      assert Pending(INIT.ice) == [];
    }
  }

  /**
   Candidate conservation: until cleanup, and as long as no two drains overlapped,
   every accepted candidate is either still pending in the queue or has been handed
   to the peer connection, and exactly once; none is handed over before the remote
   description is set, those from the queue go out in the order they arrived, and
   none is left in the queue once a description is set and no drain is under way.
   */
  lemma CandidatesAreConserved(events: seq<Event>)
    requires !Run(events).life.cleanupStarted && !Run(events).ice.overlapped
    ensures var ice := Run(events).ice;
            && ExactlyOnce(ice.handed, Pending(ice), ice.arrived)
            && (ice.handed != [] ==> ice.remoteSet)
            && Increasing(ice.fromQueue + Pending(ice))
            && (ice.remoteSet && !SomeDrain(Run(events).tasks) ==> Current(ice) == [])
  {
    RunKeeps(events);
  }

  /** Exactly when: before cleanup, some candidate was handed over twice if and only if two drains overlapped. */
  lemma HandedTwiceExactlyOnOverlap(events: seq<Event>)
    requires !Run(events).life.cleanupStarted
    ensures HandedTwice(Run(events).ice.handed) <==> Run(events).ice.overlapped
  {
    RunKeeps(events);
    var ice := Run(events).ice;
    if !ice.overlapped { ExactlyOnceNotTwice(ice.handed, Pending(ice), ice.arrived); }
  }
}
