/** A concrete history of the WebRTC client in which two drains overlap. */
module WebRtcOverlap {
  import opened Options
  import opened WebRtcModel
  import opened WebRtcCandidates

  /** A joined client that has queued one candidate. */
  const BOUND := INIT.(link := Link(true, Some(false), true, []))
  const ONE_QUEUED :=
    BOUND.(ice := Ice([[0]], false, false, 1, [], [], 0, false), handled := {"candidate"})

  lemma CandidateIsQueued()
    ensures Reachable(ONE_QUEUED)
  {
    assert Run([]) == INIT;
    StepReaches(INIT, Initialize, BOUND);
    var queues: seq<seq<Candidate>> := [[]];
    var enqueued := Enqueue(BOUND.ice.(arrived := 1), 0).queues;
    assert enqueued == queues[0 := queues[0] + [0]];
    assert enqueued[0] == [0];
    assert enqueued == [[0]];
    StepReaches(BOUND, Received(false, "candidate", IceCandidate(true), 9), ONE_QUEUED);
  }

  /** Two offers arrive before the first one has its media. */
  const BOTH_WAITING :=
    ONE_QUEUED.(tasks := map[1 := OfferMedia, 2 := OfferMedia], handled := {"candidate", "offer-1", "offer-2"})
  const BOTH_REMOTE :=
    BOTH_WAITING.(tasks := map[1 := OfferRemote, 2 := OfferRemote], stream := true,
                 ice := Ice([[0]], false, true, 1, [], [], 0, false))

  lemma TwoOffersArrive()
    ensures Reachable(BOTH_WAITING)
  {
    CandidateIsQueued();
    var first := ONE_QUEUED.(tasks := map[1 := OfferMedia], handled := {"candidate", "offer-1"});
    StepReaches(ONE_QUEUED, Received(false, "offer-1", Offer(true), 1), first);
    StepReaches(first, Received(false, "offer-2", Offer(true), 2), BOTH_WAITING);
  }

  lemma BothHaveMedia()
    ensures Reachable(BOTH_REMOTE)
  {
    TwoOffersArrive();
    var first := BOTH_WAITING.(tasks := map[1 := OfferRemote, 2 := OfferMedia], stream := true,
                              ice := BOTH_REMOTE.ice);
    StepReaches(BOTH_WAITING, Resume(1, true), first);
    StepReaches(first, Resume(2, true), BOTH_REMOTE);
  }

  /** The first drain has handed the candidate over and is suspended when the second one starts. */
  const FIRST_DRAINS :=
    BOTH_REMOTE.(tasks := map[1 := OfferDrain(0, 0), 2 := OfferRemote],
                ice := Ice([[0]], true, true, 1, [0], [0], 1, false))
  const BOTH_DRAIN :=
    FIRST_DRAINS.(tasks := map[1 := OfferDrain(0, 0), 2 := OfferDrain(0, 0)],
                 ice := Ice([[0]], true, true, 1, [0, 0], [0, 0], 1, true))

  lemma FirstDrainIs()
    ensures StartDrain(BOTH_REMOTE, 1, false) == FIRST_DRAINS
  {
    assert !SomeDrain(BOTH_REMOTE.tasks);
    assert HandFromQueue(BOTH_REMOTE.ice.(remoteSet := true), 0, 0) == FIRST_DRAINS.ice;
  }

  lemma FirstDrainStarts()
    ensures Reachable(FIRST_DRAINS)
  {
    BothHaveMedia();
    FirstDrainIs();
    StepReaches(BOTH_REMOTE, Resume(1, true), FIRST_DRAINS);
  }

  lemma SecondDrainIs()
    ensures StartDrain(FIRST_DRAINS, 2, false) == BOTH_DRAIN
  {
    assert Draining(FIRST_DRAINS.tasks[1]);
    assert HandFromQueue(FIRST_DRAINS.ice.(overlapped := true), 0, 0) == BOTH_DRAIN.ice;
  }

  lemma SecondDrainStarts()
    ensures Reachable(BOTH_DRAIN)
  {
    FirstDrainStarts();
    SecondDrainIs();
    StepReaches(FIRST_DRAINS, Resume(2, true), BOTH_DRAIN);
  }

  /** Two offers negotiated at once hand the only candidate over twice, before any cleanup. */
  lemma OverlapIsPossible()
    ensures exists events :: !Run(events).life.cleanupStarted && HandedTwice(Run(events).ice.handed)
  {
    SecondDrainStarts();
    var events :| Run(events) == BOTH_DRAIN;
    assert BOTH_DRAIN.ice.handed[0] == BOTH_DRAIN.ice.handed[1];
    assert !Run(events).life.cleanupStarted;
  }
}
