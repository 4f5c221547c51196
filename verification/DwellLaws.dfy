/** Conservation and progress of the dwell-time accounting, over every run. */
module DwellLaws {
  import opened DwellModel

  // ----- sums -----

  /** What the trackers of a post have reported so far. */
  function Reported(ts: seq<Tracker>, p: PostId): int {
    if ts == [] then 0
    else Reported(ts[..|ts| - 1], p) + (if ts[|ts| - 1].postId == p then ts[|ts| - 1].reported else 0)
  }

  function DwellIn(b: Batch, p: PostId): int { if p in b then b[p].payload.dwell else 0 }

  function Emitted(batches: seq<Batch>, p: PostId): int {
    if batches == [] then 0
    else Emitted(batches[..|batches| - 1], p) + DwellIn(batches[|batches| - 1], p)
  }

  lemma {:induction false} ReportedUpdate(ts: seq<Tracker>, i: nat, t: Tracker, p: PostId)
    requires i < |ts| && t.postId == ts[i].postId
    ensures Reported(ts[i := t], p) == Reported(ts, p) + (if t.postId == p then t.reported - ts[i].reported else 0)
  {
    var n := |ts| - 1;
    if i == n {
      assert ts[i := t][..n] == ts[..n];
    } else {
      assert ts[i := t][..n] == ts[..n][i := t];
      ReportedUpdate(ts[..n], i, t, p);
    }
  }

  lemma EmittedAppend(batches: seq<Batch>, b: Batch, p: PostId)
    ensures Emitted(batches + [b], p) == Emitted(batches, p) + DwellIn(b, p)
  {
    assert (batches + [b])[..|batches|] == batches;
  }

  // ----- conservation -----

  /** Every reported millisecond of a post is buffered or was emitted. */
  ghost predicate Balanced(s: State) {
    forall p :: Reported(s.trackers, p) == DwellIn(s.buffer, p) + Emitted(s.emitted, p)
  }

  /** A step that changes one tracker without touching what it has reported. */
  lemma SetTrackerBalanced(s: State, i: nat, t: Tracker)
    requires Balanced(s) && i < |s.trackers|
    requires t.postId == s.trackers[i].postId && t.reported == s.trackers[i].reported
    ensures Balanced(SetTracker(s, i, t))
  {
    forall p ensures Reported(s.trackers[i := t], p) == Reported(s.trackers, p) {
      ReportedUpdate(s.trackers, i, t, p);
    }
  }

  lemma BufferDwellBalanced(s: State, i: nat)
    requires Balanced(s) && i < |s.trackers|
    ensures Balanced(BufferDwell(s, i))
  {
    var t := s.trackers[i];
    var s' := BufferDwell(s, i);
    if DirectPayload(t).Some? {
      forall p ensures Reported(s'.trackers, p) == DwellIn(s'.buffer, p) + Emitted(s'.emitted, p) {
        ReportedUpdate(s.trackers, i, t.(reported := t.total), p);
      }
    }
  }

  lemma PauseBalanced(s: State, i: nat, now: int)
    requires Balanced(s) && i < |s.trackers|
    ensures Balanced(Pause(s, i, now))
  {
    var t := s.trackers[i];
    if t.startTime != 0 {
      var stopped := t.(total := t.total + (now - t.startTime), startTime := 0);
      SetTrackerBalanced(s, i, stopped);
      BufferDwellBalanced(SetTracker(s, i, stopped), i);
    }
  }

  lemma {:induction false} PauseActiveBalanced(s: State, clock: seq<int>, n: nat)
    requires Balanced(s) && n <= |s.trackers| && |s.trackers| == |clock|
    ensures Balanced(PauseActive(s, clock, n))
  {
    if n > 0 {
      PauseActiveBalanced(s, clock, n - 1);
      PauseBalanced(PauseActive(s, clock, n - 1), n - 1, clock[n - 1]);
    }
  }

  lemma EmitBufferBalanced(s: State)
    requires Balanced(s)
    ensures Balanced(EmitBuffer(s))
  {
    forall p { EmittedAppend(s.emitted, s.buffer, p); }
  }

  lemma SendDwellBalanced(s: State, i: nat)
    requires Balanced(s) && i < |s.trackers|
    ensures Balanced(SendDwell(s, i))
  {
    var t := s.trackers[i];
    var s' := SendDwell(s, i);
    forall p ensures Reported(s'.trackers, p) == DwellIn(s'.buffer, p) + Emitted(s'.emitted, p) {
      ReportedUpdate(s.trackers, i, t.(reported := t.total), p);
      if s'.emitted != s.emitted {
        EmittedAppend(s.emitted, s'.emitted[|s.emitted|], p);
      }
    }
  }

  lemma IntersectedBalanced(s: State, i: nat, intersecting: bool, ratio: real, now: int)
    requires Balanced(s) && i < |s.trackers|
    ensures Balanced(Intersected(s, i, intersecting, ratio, now))
  {
    var t := s.trackers[i];
    if intersecting {
      var shown := if t.visible then t else Resume(t.(visible := true), now);
      SetTrackerBalanced(s, i, if ratio > shown.depth then shown.(depth := ratio) else shown);
    } else if t.visible {
      SetTrackerBalanced(s, i, t.(visible := false));
      PauseBalanced(SetTracker(s, i, t.(visible := false)), i, now);
    }
  }

  lemma FlushBalanced(s: State, clock: seq<int>)
    requires Balanced(s) && |s.trackers| == |clock|
    ensures Balanced(Flush(s, clock))
  {
    PauseActiveBalanced(s.(flushing := true), clock, |s.trackers|);
    EmitBufferBalanced(PauseActive(s.(flushing := true), clock, |s.trackers|).(timer := false));
  }

  lemma DestroyBalanced(s: State, i: nat, now: int)
    requires Balanced(s) && i < |s.trackers|
    ensures Balanced(SetTracker(s, i, s.trackers[i].(active := false)))
    ensures Balanced(SendDwell(Pause(SetTracker(s, i, s.trackers[i].(active := false)), i, now), i))
  {
    SetTrackerBalanced(s, i, s.trackers[i].(active := false));
    var gone := SetTracker(s, i, s.trackers[i].(active := false));
    PauseBalanced(gone, i, now);
    SendDwellBalanced(Pause(gone, i, now), i);
  }

  lemma StepBalanced(s: State, e: Event)
    requires Balanced(s)
    ensures Balanced(Step(s, e))
  {
    match e
    case Mount(postId, source) =>
      assert postId != "" ==> Step(s, e).trackers[..|s.trackers|] == s.trackers;
    case Intersect(i, intersecting, ratio, now) =>
      if i < |s.trackers| { IntersectedBalanced(s, i, intersecting, ratio, now); }
    case VisibilityChange(i, hidden, now) =>
      if i < |s.trackers| {
        PauseBalanced(s, i, now);
        SetTrackerBalanced(s, i, Resume(s.trackers[i], now));
      }
    case NavigationClick(clock) => if |clock| == |s.trackers| { FlushBalanced(s, clock); }
    case PageLoadingStart(clock) => if |clock| == |s.trackers| { FlushBalanced(s, clock); }
    case PageLoadingStop =>
    case TimerFires => EmitBufferBalanced(s);
    case Destroy(i, now) => if i < |s.trackers| { DestroyBalanced(s, i, now); }
  }

  /**
   Conservation: in every run, with any number of trackers on a post, what the
   trackers of a post have reported is exactly what is buffered for it plus what
   was emitted for it. No assumption about the clock is needed.
   */
  lemma {:induction false} DwellIsConserved(events: seq<Event>, p: PostId)
    ensures Reported(Run(events).trackers, p) == DwellIn(Run(events).buffer, p) + Emitted(Run(events).emitted, p)
  {
    RunBalanced(events);
  }

  lemma {:induction false} RunBalanced(events: seq<Event>)
    ensures Balanced(Run(events))
  {
    if events != [] {
      RunBalanced(events[..|events| - 1]);
      StepBalanced(Run(events[..|events| - 1]), events[|events| - 1]);
    }
  }
}
