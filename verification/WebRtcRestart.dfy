/** A concrete history of a callee whose ICE restart is answered, and the answer is ignored. */
module WebRtcRestart {
  import opened Options
  import opened WebRtcModel

  const JOINED := INIT.(link := Link(true, Some(true), true, []))
  const OFFERED := JOINED.(tasks := map[1 := OfferMedia], handled := {"offer"})
  const PREPARED :=
    OFFERED.(stream := true, tasks := map[1 := OfferRemote], ice := Ice([[]], false, true, 0, [], [], 0, false))
  const NEGOTIATED :=
    PREPARED.(tasks := map[1 := OfferDrained], ice := Ice([[], []], true, true, 0, [], [], 0, false))
  const ANSWERED := NEGOTIATED.(link := Link(true, Some(true), true, [PushAnswer]), tasks := map[1 := Done])
  const TROUBLED := ANSWERED.(restart := Restart(0, true, 1, 0))
  const RESTARTING := ANSWERED.(restart := Restart(1, false, 0, 1), tasks := map[1 := Done, 2 := RestartCreate])
  const RESTARTED :=
    RESTARTING.(link := Link(true, Some(true), true, [PushAnswer, PushOffer]), tasks := map[1 := Done, 2 := Done])

  lemma OfferArrives()
    ensures Reachable(OFFERED)
  {
    assert Run([]) == INIT;
    StepReaches(INIT, Initialize, INIT.(link := Link(true, Some(false), true, [])));
    StepReaches(INIT.(link := Link(true, Some(false), true, [])), ChannelState(true), JOINED);
    StepReaches(JOINED, Received(false, "offer", Offer(true), 1), OFFERED);
  }

  lemma OfferIsNegotiated()
    ensures Reachable(NEGOTIATED)
  {
    OfferArrives();
    StepReaches(OFFERED, Resume(1, true), PREPARED);
    assert !SomeDrain(PREPARED.tasks);
    assert PREPARED.ice.queues[0] == [];
    assert PREPARED.ice.queues + [[]] == NEGOTIATED.ice.queues;
    StepReaches(PREPARED, Resume(1, true), NEGOTIATED);
  }

  lemma OfferIsAnswered()
    ensures Reachable(ANSWERED)
  {
    OfferIsNegotiated();
    StepReaches(NEGOTIATED, Resume(1, true), NEGOTIATED.(tasks := map[1 := OfferCreate]));
    StepReaches(NEGOTIATED.(tasks := map[1 := OfferCreate]), Resume(1, true),
                NEGOTIATED.(tasks := map[1 := OfferLocal]));
    StepReaches(NEGOTIATED.(tasks := map[1 := OfferLocal]), Resume(1, true), ANSWERED);
  }

  lemma RestartBegins()
    ensures Reachable(RESTARTING)
  {
    OfferIsAnswered();
    StepReaches(ANSWERED, ConnectionTrouble, TROUBLED);
    StepReaches(TROUBLED, TimerFires(2), RESTARTING);
  }

  lemma RestartIsOffered()
    ensures Reachable(RESTARTED)
  {
    RestartBegins();
    var created := RESTARTING.(tasks := map[1 := Done, 2 := RestartLocal]);
    StepReaches(RESTARTING, Resume(2, true), created);
    StepReaches(created, Resume(2, true), RESTARTED);
  }

  /**
   The callee has pushed its restart offer and never applied an answer; the
   answer to that offer arrives with a local offer waiting for it, and is ignored.
   */
  lemma RestartAnswerIsLost()
    ensures exists events :: (var s := Run(events);
              && s.link.pushed == [PushAnswer, PushOffer] && s.restart.offers == 1
              && s.ice.peer && !s.life.cleanupStarted && s.negotiation.answersApplied == 0
              && "answer" !in s.handled
              && Step(s, Received(false, "answer", Answer(true, true), 3)) == s.(handled := s.handled + {"answer"}))
  {
    RestartIsOffered();
    var events :| Run(events) == RESTARTED;
    assert Run(events).link.pushed == [PushAnswer, PushOffer];
  }
}
