/** Progress of the dwell-time accounting, and what merged payloads contain. */
module DwellProgress {
  import opened DwellModel

  // ----- what an entry contains -----

  /** The left-to-right merge of a non-empty list of contributions. */
  function MergeAll(parts: seq<Payload>): Payload
    requires parts != []
  {
    if |parts| == 1 then parts[0] else Merge(MergeAll(parts[..|parts| - 1]), parts[|parts| - 1])
  }

  function SumDwell(parts: seq<Payload>): int {
    if parts == [] then 0 else SumDwell(parts[..|parts| - 1]) + parts[|parts| - 1].dwell
  }

  lemma MergeIsAssociative(a: Payload, b: Payload, c: Payload)
    ensures Merge(Merge(a, b), c) == Merge(a, Merge(b, c))
  {
  }

  /** Merging in groups gives what merging one by one gives. */
  lemma {:induction false} GroupingIsIrrelevant(xs: seq<Payload>, ys: seq<Payload>)
    requires xs != [] && ys != []
    ensures MergeAll(xs + ys) == Merge(MergeAll(xs), MergeAll(ys))
  {
    var n := |ys| - 1;
    assert (xs + ys)[..|xs + ys| - 1] == xs + ys[..n];
    if n == 0 {
      assert xs + ys[..0] == xs;
    } else {
      GroupingIsIrrelevant(xs, ys[..n]);
      MergeIsAssociative(MergeAll(xs), MergeAll(ys[..n]), ys[n]);
    }
  }

  /** A merged payload carries the sum of the dwell times and the largest scroll depth of its contributions. */
  lemma {:induction false} MergedPayload(parts: seq<Payload>)
    requires parts != []
    ensures MergeAll(parts).dwell == SumDwell(parts)
    ensures forall i :: 0 <= i < |parts| ==> parts[i].depth <= MergeAll(parts).depth
    ensures exists i :: 0 <= i < |parts| && parts[i].depth == MergeAll(parts).depth
    ensures MergeAll(parts).expanded <==> exists i :: 0 <= i < |parts| && parts[i].expanded
    ensures parts[|parts| - 1].source != "" ==> MergeAll(parts).source == parts[|parts| - 1].source
  {
    var n := |parts| - 1;
    if n == 0 {
      assert parts[..0] == [];
      assert SumDwell(parts) == SumDwell(parts[..0]) + parts[0].dwell;
    } else {
      var init := parts[..n];
      MergedPayload(init);
      var i :| 0 <= i < |init| && init[i].depth == MergeAll(init).depth;
      assert parts[i].depth == MergeAll(init).depth;
      assert MergeAll(parts).depth == parts[n].depth || MergeAll(parts).depth == parts[i].depth;
      if MergeAll(init).expanded {
        var j :| 0 <= j < |init| && init[j].expanded;
        assert parts[j].expanded;
      }
    }
  }

  ghost predicate EntryOk(p: PostId, e: Entry) {
    && e.parts != []
    && e.payload == MergeAll(e.parts)
    && e.payload.postId == p
    && forall i :: 0 <= i < |e.parts| ==> e.parts[i].postId == p && e.parts[i].dwell >= MIN_DWELL_TIME_MS
  }

  ghost predicate BatchOk(b: Batch) { forall p :: p in b ==> EntryOk(p, b[p]) }

  lemma AddPartOk(b: Batch, p: Payload)
    requires BatchOk(b) && p.dwell >= MIN_DWELL_TIME_MS
    ensures EntryOk(p.postId, AddPart(Lookup(b, p.postId), p))
  {
    if p.postId in b {
      var parts := b[p.postId].parts;
      assert (parts + [p])[..|parts|] == parts;
    }
  }

  // ----- the invariant -----

  /** A tracker's clock was started in the past, and what it has not reported is below the minimum. */
  predicate TrackerOk(t: Tracker, now: int) {
    && t.postId != ""
    && 0 <= t.total - t.reported < MIN_DWELL_TIME_MS
    && (t.startTime != 0 ==> t.startTime <= now)
  }

  ghost predicate AllTrackersOk(trackers: seq<Tracker>, now: int) {
    forall i :: 0 <= i < |trackers| ==> TrackerOk(trackers[i], now)
  }

  ghost predicate TrackersOk(s: State, now: int) { AllTrackersOk(s.trackers, now) }

  ghost predicate AllBatchesOk(batches: seq<Batch>) { forall k :: 0 <= k < |batches| ==> BatchOk(batches[k]) }

  /** A non-empty buffer has an armed timer, and every entry is the merge of long enough contributions. */
  ghost predicate BufferOk(s: State) {
    (s.buffer != map[] ==> s.timer) && BatchOk(s.buffer) && AllBatchesOk(s.emitted)
  }

  lemma BufferDwellKeeps(s: State, i: nat)
    requires i < |s.trackers| && BufferOk(s)
    ensures BufferOk(BufferDwell(s, i))
  {
    var p := DirectPayload(s.trackers[i]);
    if p.Some? { AddPartOk(s.buffer, p.value); }
  }

  lemma PauseKeeps(s: State, i: nat, now: int)
    requires i < |s.trackers| && BufferOk(s)
    ensures BufferOk(Pause(s, i, now))
  {
    var t := s.trackers[i];
    if t.startTime != 0 {
      var stopped := SetTracker(s, i, t.(total := t.total + (now - t.startTime), startTime := 0));
      assert stopped.buffer == s.buffer && stopped.emitted == s.emitted && stopped.timer == s.timer;
      BufferDwellKeeps(stopped, i);
      assert Pause(s, i, now) == BufferDwell(stopped, i);
    }
  }

  lemma PauseNextKeeps(s: State, i: nat, now: int)
    requires i < |s.trackers| && BufferOk(s)
    ensures BufferOk(if s.trackers[i].active then Pause(s, i, now) else s)
  {
    PauseKeeps(s, i, now);
  }

  lemma {:induction false} PauseActiveKeeps(s: State, clock: seq<int>, n: nat)
    requires n <= |s.trackers| && |s.trackers| == |clock| && BufferOk(s)
    ensures BufferOk(PauseActive(s, clock, n))
  {
    if n > 0 {
      PauseActiveKeeps(s, clock, n - 1);
      var s' := PauseActive(s, clock, n - 1);
      PauseNextKeeps(s', n - 1, clock[n - 1]);
      assert PauseActive(s, clock, n) == if s'.trackers[n - 1].active then Pause(s', n - 1, clock[n - 1]) else s';
    }
  }

  lemma SendDwellKeeps(s: State, i: nat)
    requires i < |s.trackers| && BufferOk(s)
    ensures BufferOk(SendDwell(s, i))
  {
    var p := DirectPayload(s.trackers[i]);
    if p.Some? { AddPartOk(s.buffer, p.value); }
  }

  /** The flush disarms the timer before it empties the buffer, all in one segment. */
  lemma FlushKeeps(s: State, clock: seq<int>)
    requires |s.trackers| == |clock| && BufferOk(s)
    ensures BufferOk(Flush(s, clock))
  {
    PauseActiveKeeps(s.(flushing := true), clock, |s.trackers|);
  }

  lemma StepKeepsBuffer(s: State, e: Event)
    requires BufferOk(s)
    ensures BufferOk(Step(s, e))
  {
    match e
    case Mount(_, _) =>
    case Intersect(i, intersecting, ratio, now) =>
      if i < |s.trackers| { PauseKeeps(SetTracker(s, i, s.trackers[i].(visible := false)), i, now); }
    case VisibilityChange(i, hidden, now) => if i < |s.trackers| { PauseKeeps(s, i, now); }
    case NavigationClick(clock) => if |clock| == |s.trackers| { FlushKeeps(s, clock); }
    case PageLoadingStart(clock) => if |clock| == |s.trackers| { FlushKeeps(s, clock); }
    case PageLoadingStop =>
    case TimerFires =>
    case Destroy(i, now) =>
      if i < |s.trackers| {
        var gone := SetTracker(s, i, s.trackers[i].(active := false));
        PauseKeeps(gone, i, now);
        SendDwellKeeps(Pause(gone, i, now), i);
      }
  }

  lemma {:induction false} RunKeepsBuffer(events: seq<Event>)
    ensures BufferOk(Run(events))
  {
    if events != [] {
      RunKeepsBuffer(events[..|events| - 1]);
      StepKeepsBuffer(Run(events[..|events| - 1]), events[|events| - 1]);
    }
  }

  /** Nothing is left behind: between any two steps a non-empty buffer has an armed batch timer. */
  lemma {:induction false} BufferedDwellHasATimer(events: seq<Event>)
    requires Run(events).buffer != map[]
    ensures Run(events).timer
  {
    RunKeepsBuffer(events);
  }

  predicate IsShort(d: Dismissal) { d.postId != "" && 0 < d.dwell < SCROLL_PAST_THRESHOLD_MS }

  lemma {:induction false} PauseActiveDismissesNothing(s: State, clock: seq<int>, n: nat)
    requires n <= |s.trackers| && |s.trackers| == |clock|
    ensures PauseActive(s, clock, n).dismissed == s.dismissed
  {
    if n > 0 { PauseActiveDismissesNothing(s, clock, n - 1); }
  }

  /** At most one dismissal is added, a short one. */
  predicate AddsShort(before: seq<Dismissal>, after: seq<Dismissal>) {
    after == before || (after != [] && after[..|after| - 1] == before && IsShort(after[|after| - 1]))
  }

  lemma IntersectedDismisses(s: State, i: nat, intersecting: bool, ratio: real, now: int)
    requires i < |s.trackers|
    ensures AddsShort(s.dismissed, Intersected(s, i, intersecting, ratio, now).dismissed)
  {
  }

  lemma StepDismisses(s: State, e: Event)
    ensures AddsShort(s.dismissed, Step(s, e).dismissed)
  {
    match e
    case Intersect(i, intersecting, ratio, now) =>
      if i < |s.trackers| { IntersectedDismisses(s, i, intersecting, ratio, now); }
    case Destroy(_, _) =>
    case VisibilityChange(_, _, _) =>
    case NavigationClick(clock) =>
      if |clock| == |s.trackers| { PauseActiveDismissesNothing(s.(flushing := true), clock, |s.trackers|); }
    case PageLoadingStart(clock) =>
      if |clock| == |s.trackers| { PauseActiveDismissesNothing(s.(flushing := true), clock, |s.trackers|); }
    case _ =>
  }

  /** Every reported dismissal is of a post that was seen, and for less than the scroll-past threshold. */
  lemma {:induction false} DismissalsAreShort(events: seq<Event>, k: nat)
    requires k < |Run(events).dismissed|
    ensures IsShort(Run(events).dismissed[k])
  {
    if events != [] {
      var before := Run(events[..|events| - 1]);
      StepDismisses(before, events[|events| - 1]);
      if k < |before.dismissed| {
        DismissalsAreShort(events[..|events| - 1], k);
        assert Run(events).dismissed[..|before.dismissed|][k] == Run(events).dismissed[k];
      }
    }
  }

  /** Every payload ever emitted is the merge of its contributions: their sum, their largest depth, their post. */
  lemma EmittedPayloadsAreMerges(events: seq<Event>, k: nat, p: PostId)
    requires k < |Run(events).emitted| && p in Run(events).emitted[k]
    ensures var e := Run(events).emitted[k][p];
            && e.parts != []
            && e.payload.postId == p
            && e.payload.dwell == SumDwell(e.parts) >= MIN_DWELL_TIME_MS
            && (forall i :: 0 <= i < |e.parts| ==> e.parts[i].depth <= e.payload.depth)
            && (exists i :: 0 <= i < |e.parts| && e.parts[i].depth == e.payload.depth)
  {
    RunKeepsBuffer(events);
    var e := Run(events).emitted[k][p];
    assert EntryOk(p, e);
    MergedPayload(e.parts);
    SumIsLong(e.parts);
  }

  lemma {:induction false} SumIsLong(parts: seq<Payload>)
    requires parts != [] && forall i :: 0 <= i < |parts| ==> parts[i].dwell >= MIN_DWELL_TIME_MS
    ensures SumDwell(parts) >= MIN_DWELL_TIME_MS
  {
    if |parts| == 1 {
      assert SumDwell(parts[..0]) == 0;
    } else {
      SumIsLong(parts[..|parts| - 1]);
    }
  }

  // ----- the unreported remainder, under a clock that does not run backwards -----

  function Readings(e: Event): seq<int> {
    match e
    case Intersect(_, _, _, now) => [now]
    case VisibilityChange(_, _, now) => [now]
    case NavigationClick(clock) => clock
    case PageLoadingStart(clock) => clock
    case Destroy(_, now) => [now]
    case _ => []
  }

  predicate NotBefore(clock: seq<int>, start: int) {
    && (forall i :: 0 <= i < |clock| ==> start <= clock[i])
    && (forall i, j :: 0 <= i < j < |clock| ==> clock[i] <= clock[j])
  }

  function Latest(clock: seq<int>, start: int): int { if clock == [] then start else clock[|clock| - 1] }

  /** The latest reading of a run that starts at time 0. */
  function Now(events: seq<Event>): int {
    if events == [] then 0
    else Latest(Readings(events[|events| - 1]), Now(events[..|events| - 1]))
  }

  predicate MonotoneClock(events: seq<Event>) {
    events == []
    || (MonotoneClock(events[..|events| - 1]) && NotBefore(Readings(events[|events| - 1]), Now(events[..|events| - 1])))
  }

  lemma Later(s: State, now: int, later: int)
    requires TrackersOk(s, now) && now <= later
    ensures TrackersOk(s, later)
  {
  }

  lemma PauseRemainder(s: State, i: nat, now: int)
    requires i < |s.trackers| && TrackersOk(s, now)
    ensures TrackersOk(Pause(s, i, now), now) && Pause(s, i, now).trackers[i].startTime == 0
    ensures |Pause(s, i, now).trackers| == |s.trackers|
  {
  }

  lemma {:induction false} PauseActiveRemainder(s: State, clock: seq<int>, n: nat, start: int)
    requires n <= |s.trackers| && |s.trackers| == |clock| && TrackersOk(s, start) && NotBefore(clock, start)
    ensures TrackersOk(PauseActive(s, clock, n), if n == 0 then start else clock[n - 1])
  {
    if n > 0 {
      PauseActiveRemainder(s, clock, n - 1, start);
      var s' := PauseActive(s, clock, n - 1);
      Later(s', if n == 1 then start else clock[n - 2], clock[n - 1]);
      PauseRemainder(s', n - 1, clock[n - 1]);
    }
  }

  lemma FlushRemainder(s: State, clock: seq<int>, start: int)
    requires |s.trackers| == |clock| && TrackersOk(s, start) && NotBefore(clock, start)
    ensures TrackersOk(Flush(s, clock), Latest(clock, start))
  {
    PauseActiveRemainder(s.(flushing := true), clock, |s.trackers|, start);
  }

  lemma IntersectedRemainder(s: State, i: nat, intersecting: bool, ratio: real, now: int)
    requires i < |s.trackers| && TrackersOk(s, now)
    ensures TrackersOk(Intersected(s, i, intersecting, ratio, now), now)
  {
    PauseRemainder(SetTracker(s, i, s.trackers[i].(visible := false)), i, now);
  }

  lemma DestroyRemainder(s: State, i: nat, now: int)
    requires i < |s.trackers| && TrackersOk(s, now)
    ensures var gone := SetTracker(s, i, s.trackers[i].(active := false));
            TrackersOk(gone, now) && TrackersOk(SendDwell(Pause(gone, i, now), i), now)
  {
    PauseRemainder(SetTracker(s, i, s.trackers[i].(active := false)), i, now);
  }

  lemma StepRemainder(s: State, e: Event, start: int)
    requires TrackersOk(s, start) && NotBefore(Readings(e), start)
    ensures TrackersOk(Step(s, e), Latest(Readings(e), start))
  {
    var now := Latest(Readings(e), start);
    Later(s, start, now);
    match e
    case Mount(_, _) =>
    case Intersect(i, intersecting, ratio, _) =>
      if i < |s.trackers| { IntersectedRemainder(s, i, intersecting, ratio, now); }
    case VisibilityChange(i, hidden, _) => if i < |s.trackers| { PauseRemainder(s, i, now); }
    case NavigationClick(clock) =>
      if |clock| == |s.trackers| { FlushRemainder(s, clock, start); }
    case PageLoadingStart(clock) =>
      if |clock| == |s.trackers| { FlushRemainder(s, clock, start); }
    case PageLoadingStop =>
    case TimerFires =>
    case Destroy(i, _) =>
      if i < |s.trackers| { DestroyRemainder(s, i, now); }
  }

  /**
   The unreported remainder: when the clock does not run backwards, every tracker
   has reported all of its dwell time but less than MIN_DWELL_TIME_MS, and never
   more than all of it.
   */
  lemma {:induction false} RemainderIsSmall(events: seq<Event>, i: nat)
    requires MonotoneClock(events) && i < |Run(events).trackers|
    ensures var t := Run(events).trackers[i]; 0 <= t.total - t.reported < MIN_DWELL_TIME_MS
  {
    RunRemainder(events);
  }

  lemma {:induction false} RunRemainder(events: seq<Event>)
    requires MonotoneClock(events)
    ensures TrackersOk(Run(events), Now(events))
  {
    if events != [] {
      RunRemainder(events[..|events| - 1]);
      StepRemainder(Run(events[..|events| - 1]), events[|events| - 1], Now(events[..|events| - 1]));
    }
  }
}
