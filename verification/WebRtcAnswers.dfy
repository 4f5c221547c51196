/** Answers of the WebRTC client: until cleanup at most one is applied. */
module WebRtcAnswers {
  import opened WebRtcModel

  predicate Applying(pc: Pc) { pc.AnswerDrain? || pc.AnswerDrained? }

  ghost predicate TasksOk(n: Negotiation, tasks: map<TaskId, Pc>) {
    && (forall t :: t in tasks && tasks[t].AnswerRemote? ==> n.answerInProgress && n.answersApplied == 0)
    && (forall t, u :: t in tasks && u in tasks && tasks[t].AnswerRemote? && tasks[u].AnswerRemote? ==> t == u)
    && (forall t :: t in tasks && Applying(tasks[t]) ==> n.answersApplied == 1)
  }

  ghost predicate AnswersOk(s: State) {
    !s.life.cleanupStarted ==>
      && s.negotiation.answersApplied <= 1
      && (s.negotiation.answersApplied == 1 ==> s.ice.remoteSet)
      && TasksOk(s.negotiation, s.tasks)
  }

  /** A step that neither begins nor applies nor ends an answer: at most handler `t` changes. */
  predicate Quiet(s: State, s': State, t: TaskId) {
    && (s.life.cleanupStarted ==> s'.life.cleanupStarted)
    && (!s'.life.cleanupStarted ==>
          && s'.negotiation.answerInProgress == s.negotiation.answerInProgress
          && s'.negotiation.answersApplied == s.negotiation.answersApplied
          && (s.ice.remoteSet ==> s'.ice.remoteSet)
          && QuietTask(s.tasks, s'.tasks, t))
  }

  predicate QuietTask(tasks: map<TaskId, Pc>, tasks': map<TaskId, Pc>, t: TaskId) {
    tasks' == tasks
    || (&& t in tasks' && tasks' == tasks[t := tasks'[t]]
        && !tasks'[t].AnswerRemote?
        && (Applying(tasks'[t]) ==> t in tasks && Applying(tasks[t])))
  }

  lemma QuietKeeps(s: State, s': State, t: TaskId)
    requires AnswersOk(s) && Quiet(s, s', t)
    ensures AnswersOk(s')
  {
  }

  lemma FinishQuiet(s: State, t: TaskId)
    ensures Quiet(s, Cleanup(s), t) && FinishCall(s).life.cleanupStarted
  {
  }

  lemma HandleKeeps(s: State, t: TaskId, signal: Signal)
    requires AnswersOk(s) && t !in s.tasks
    ensures AnswersOk(Handle(s, t, signal))
  {
    if !signal.Answer? {
      OtherSignalQuiet(s, t, signal);
      QuietKeeps(s, Handle(s, t, signal), t);
    }
  }

  lemma OtherSignalQuiet(s: State, t: TaskId, signal: Signal)
    requires !signal.Answer?
    ensures Quiet(s, Handle(s, t, signal), t)
  {
  }

  lemma DrainQuiet(s: State, t: TaskId, answer: bool, queue: nat, pos: nat)
    requires queue < |s.ice.queues| && (answer ==> t in s.tasks && Applying(s.tasks[t]))
    ensures Quiet(s, DrainFrom(s, t, answer, queue, pos), t)
  {
  }

  lemma StartDrainKeeps(s: State, t: TaskId, answer: bool)
    requires AnswersOk(s) && s.ice.queues != [] && t in s.tasks
    requires if answer then s.tasks[t].AnswerRemote? else s.tasks[t].OfferRemote?
    ensures AnswersOk(StartDrain(s, t, answer))
  {
  }

  lemma PeerArrives(s: State, t: TaskId)
    requires t in s.tasks && (s.tasks[t].StartMedia? || s.tasks[t].ResumeMedia? || s.tasks[t].OfferMedia?)
    ensures Quiet(s, Fulfilled(s, t), t)
  {
  }

  lemma FulfilledQuiet(s: State, t: TaskId)
    requires t in s.tasks && !s.tasks[t].AnswerRemote? && !s.tasks[t].OfferRemote? && !Applying(s.tasks[t])
    ensures Quiet(s, Fulfilled(s, t), t)
  {
    if s.tasks[t].StartMedia? || s.tasks[t].ResumeMedia? || s.tasks[t].OfferMedia? { PeerArrives(s, t); }
  }

  lemma RejectedKeeps(s: State, t: TaskId)
    requires AnswersOk(s) && t in s.tasks
    ensures AnswersOk(Rejected(s, t))
  {
    QuietKeeps(s, Finished(s, t), t);
    FinishQuiet(Finished(s, t), t);
    FinishQuiet(SetAnswering(Finished(s, t), false), t);
  }

  lemma ResumeKeeps(s: State, t: TaskId, ok: bool)
    requires AnswersOk(s) && t in s.tasks
    ensures AnswersOk(ResumeTask(s, t, ok))
  {
    var pc := s.tasks[t];
    if Draining(pc) {
      if pc.queue < |s.ice.queues| {
        DrainQuiet(s, t, pc.AnswerDrain?, pc.queue, pc.pos + 1);
        QuietKeeps(s, ResumeTask(s, t, ok), t);
      }
    } else if !ok {
      RejectedKeeps(s, t);
    } else if pc.AnswerRemote? || pc.OfferRemote? {
      if s.ice.queues != [] { StartDrainKeeps(s, t, pc.AnswerRemote?); }
    } else if !pc.AnswerDrained? {
      FulfilledQuiet(s, t);
      QuietKeeps(s, Fulfilled(s, t), t);
    }
  }

  lemma OtherQuiet(s: State, e: Event)
    requires !e.Received? && !e.Resume?
    ensures Quiet(s, Step(s, e), Starts(e))
  {
  }

  lemma StepKeeps(s: State, e: Event)
    requires AnswersOk(s)
    ensures AnswersOk(Step(s, e))
  {
    match e
    case Received(own, key, signal, t) =>
      if t !in s.tasks { HandleKeeps(s.(handled := s.handled + {key}), t, signal); }
    case Resume(t, ok) => if t in s.tasks { ResumeKeeps(s, t, ok); }
    case _ =>
      OtherQuiet(s, e);
      QuietKeeps(s, Step(s, e), Starts(e));
  }

  lemma {:induction false} RunKeeps(events: seq<Event>)
    ensures AnswersOk(Run(events))
  {
    if events != [] {
      RunKeeps(events[..|events| - 1]);
      StepKeeps(Run(events[..|events| - 1]), events[|events| - 1]);
    }
  }

  /** Until cleanup at most one answer is applied, however many arrive and whatever offers were sent. */
  lemma AtMostOneAnswerIsApplied(events: seq<Event>)
    requires !Run(events).life.cleanupStarted
    ensures Run(events).negotiation.answersApplied <= 1
    ensures Run(events).negotiation.answersApplied == 1 ==> Run(events).ice.remoteSet
  {
    RunKeeps(events);
  }
}
