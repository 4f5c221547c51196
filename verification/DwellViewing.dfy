/** What the dwell times measure: the intervals in which a post was on screen, told by the events alone. */
module DwellViewing {
  import opened Options
  import opened DwellModel
  import opened DwellLaws
  import opened DwellProgress

  // ----- what there was to see -----

  /** The post was looked at from one clock reading to another. */
  datatype View = View(from: int, to: int)

  /**
   What happened to the element of one mounted post: where it is shown, whether it
   was removed, whether it is on screen, since when it is being looked at, the
   finished views, and the ratios at which it was seen. A clock reading of 0, the epoch, begins no view: 0 is falsy.
   */
  datatype Watch = Watch(
    postId: PostId, source: string, gone: bool, onScreen: bool, since: Option<int>, views: seq<View>,
    ratios: seq<real>)

  /** The posts in mount order, and whether the page is being left. */
  datatype Screen = Screen(watches: seq<Watch>, leaving: bool)

  function Open(w: Watch, now: int): Watch {
    if w.since.None? && now != 0 then w.(since := Some(now)) else w
  }

  function Close(w: Watch, now: int): Watch {
    match w.since
    case None => w
    case Some(from) => w.(since := None, views := w.views + [View(from, now)])
  }

  /** The page is being left: every view ends; post k reads clock[k]. */
  function CloseAll(watches: seq<Watch>, clock: seq<int>): (closed: seq<Watch>)
    requires |clock| == |watches|
    ensures |closed| == |watches|
  {
    seq(|watches|, k requires 0 <= k < |watches| =>
      if watches[k].gone then watches[k] else Close(watches[k], clock[k]))
  }

  /** An element crosses an intersection threshold: in view, or out of it. */
  function Seen(w: Watch, intersecting: bool, ratio: real, now: int): Watch {
    if intersecting then
      (if w.onScreen then w else Open(w.(onScreen := true), now)).(ratios := w.ratios + [ratio])
    else if w.onScreen then Close(w.(onScreen := false), now)
    else w
  }

  predicate SomeoneThere(watches: seq<Watch>) { exists k :: 0 <= k < |watches| && !watches[k].gone }

  function Look(sc: Screen, e: Event): Screen {
    match e
    case Mount(postId, source) =>
      if postId == "" then sc
      else
        var shownAs := if source == "" then "timeline" else source;
        sc.(watches := sc.watches + [Watch(postId, shownAs, false, false, None, [], [])])
    case Intersect(i, intersecting, ratio, now) =>
      if i < |sc.watches| && !sc.watches[i].gone then
        sc.(watches := sc.watches[i := Seen(sc.watches[i], intersecting, ratio, now)])
      else sc
    case VisibilityChange(i, hidden, now) =>
      if i < |sc.watches| && !sc.watches[i].gone && sc.watches[i].onScreen then
        sc.(watches := sc.watches[i := if hidden then Close(sc.watches[i], now) else Open(sc.watches[i], now)])
      else sc
    case NavigationClick(clock) =>
      if |clock| == |sc.watches| then Screen(CloseAll(sc.watches, clock), true) else sc
    case PageLoadingStart(clock) =>
      if |clock| == |sc.watches| && !sc.leaving && SomeoneThere(sc.watches) then
        Screen(CloseAll(sc.watches, clock), true)
      else sc
    case PageLoadingStop => sc.(leaving := false)
    case TimerFires => sc
    case Destroy(i, now) =>
      if i < |sc.watches| && !sc.watches[i].gone then
        var w := sc.watches[i].(gone := true);
        sc.(watches := sc.watches[i := if sc.leaving then w else Close(w, now)])
      else sc
  }

  function Watched(events: seq<Event>): Screen {
    if events == [] then Screen([], false)
    else Look(Watched(events[..|events| - 1]), events[|events| - 1])
  }

  /** The time looked at in finished views. */
  function Duration(views: seq<View>): int {
    if views == [] then 0
    else Duration(views[..|views| - 1]) + (views[|views| - 1].to - views[|views| - 1].from)
  }

  /** The largest ratio, at least 0. */
  function Largest(ratios: seq<real>): real {
    if ratios == [] then 0.0 else MaxReal(Largest(ratios[..|ratios| - 1]), ratios[|ratios| - 1])
  }

  lemma {:induction false} LargestIsTheLargest(ratios: seq<real>)
    ensures Largest(ratios) >= 0.0 && forall k :: 0 <= k < |ratios| ==> ratios[k] <= Largest(ratios)
    ensures Largest(ratios) == 0.0 || Largest(ratios) in ratios
  {
    if ratios != [] {
      var n := |ratios| - 1;
      LargestIsTheLargest(ratios[..n]);
      forall k | 0 <= k <= n ensures ratios[k] <= Largest(ratios) {
        if k < n { assert ratios[..n][k] == ratios[k]; }
      }
    }
  }

  // ----- what the trackers hold of it -----

  predicate Measures(t: Tracker, w: Watch) {
    && t.postId == w.postId && t.source == w.source && t.active == !w.gone && t.visible == w.onScreen
    && w.since == (if t.startTime == 0 then None else Some(t.startTime))
    && t.total == Duration(w.views)
    && t.depth == Largest(w.ratios)
  }

  ghost predicate AllMeasure(trackers: seq<Tracker>, watches: seq<Watch>) {
    |trackers| == |watches| && forall i :: 0 <= i < |trackers| ==> Measures(trackers[i], watches[i])
  }

  ghost predicate Follows(s: State, sc: Screen) { s.flushing == sc.leaving && AllMeasure(s.trackers, sc.watches) }

  lemma MeasureOne(trackers: seq<Tracker>, watches: seq<Watch>, i: nat, t: Tracker, w: Watch)
    requires AllMeasure(trackers, watches) && i < |trackers| && Measures(t, w)
    ensures AllMeasure(trackers[i := t], watches[i := w])
  {
  }

  lemma DurationAppend(views: seq<View>, v: View)
    ensures Duration(views + [v]) == Duration(views) + (v.to - v.from)
  {
    assert (views + [v])[..|views|] == views;
  }

  lemma LargestAppend(ratios: seq<real>, ratio: real)
    ensures Largest(ratios + [ratio]) == MaxReal(Largest(ratios), ratio)
  {
    assert (ratios + [ratio])[..|ratios|] == ratios;
  }

  /** A tracker's clock stops: its total grows by the view that ends. */
  function Stopped(t: Tracker, now: int): Tracker {
    if t.startTime == 0 then t else t.(total := t.total + (now - t.startTime), startTime := 0)
  }

  lemma StoppedMeasures(t: Tracker, w: Watch, now: int)
    requires Measures(t, w)
    ensures Measures(Stopped(t, now), Close(w, now))
  {
    if t.startTime != 0 { DurationAppend(w.views, View(t.startTime, now)); }
  }

  /** Pausing stops one clock; apart from that it only moves the mark of what was reported. */
  lemma PauseStops(s: State, i: nat, now: int)
    requires i < |s.trackers|
    ensures var s' := Pause(s, i, now);
            && |s'.trackers| == |s.trackers| && s'.flushing == s.flushing
            && s'.trackers[i] == Stopped(s.trackers[i], now).(reported := s'.trackers[i].reported)
            && s'.trackers == s.trackers[i := s'.trackers[i]]
  {
  }

  lemma PauseFollows(s: State, i: nat, now: int, watches: seq<Watch>)
    requires AllMeasure(s.trackers, watches) && i < |s.trackers|
    ensures AllMeasure(Pause(s, i, now).trackers, watches[i := Close(watches[i], now)])
  {
    PauseStops(s, i, now);
    StoppedMeasures(s.trackers[i], watches[i], now);
    MeasureOne(s.trackers, watches, i, Pause(s, i, now).trackers[i], Close(watches[i], now));
  }

  /** The first `n` posts are no longer looked at. */
  function CloseFirst(watches: seq<Watch>, clock: seq<int>, n: nat): (closed: seq<Watch>)
    requires |clock| == |watches| && n <= |watches|
    ensures |closed| == |watches|
  {
    CloseAll(watches, clock)[..n] + watches[n..]
  }

  lemma CloseNext(watches: seq<Watch>, clock: seq<int>, n: nat)
    requires |clock| == |watches| && 0 < n <= |watches|
    ensures CloseFirst(watches, clock, n)
            == CloseFirst(watches, clock, n - 1)[n - 1 := CloseAll(watches, clock)[n - 1]]
    ensures CloseFirst(watches, clock, n - 1)[n - 1] == watches[n - 1]
  {
  }

  lemma PauseNextFollows(s: State, i: nat, now: int, watches: seq<Watch>)
    requires AllMeasure(s.trackers, watches) && i < |s.trackers|
    ensures var w := watches[i];
            var s' := if s.trackers[i].active then Pause(s, i, now) else s;
            && s'.flushing == s.flushing && |s'.trackers| == |s.trackers|
            && AllMeasure(s'.trackers, watches[i := if w.gone then w else Close(w, now)])
  {
    assert Measures(s.trackers[i], watches[i]);
    if s.trackers[i].active {
      PauseStops(s, i, now);
      PauseFollows(s, i, now, watches);
    } else {
      assert watches[i := watches[i]] == watches;
    }
  }

  lemma {:induction false} PauseActiveFollows(s: State, clock: seq<int>, n: nat, watches: seq<Watch>)
    requires AllMeasure(s.trackers, watches) && |clock| == |s.trackers| && n <= |s.trackers|
    ensures AllMeasure(PauseActive(s, clock, n).trackers, CloseFirst(watches, clock, n))
    ensures PauseActive(s, clock, n).flushing == s.flushing
  {
    if n == 0 {
      assert CloseFirst(watches, clock, 0) == watches;
    } else {
      PauseActiveFollows(s, clock, n - 1, watches);
      CloseNext(watches, clock, n);
      PauseNextFollows(PauseActive(s, clock, n - 1), n - 1, clock[n - 1], CloseFirst(watches, clock, n - 1));
    }
  }

  lemma FlushFollows(s: State, clock: seq<int>, sc: Screen)
    requires Follows(s, sc) && |clock| == |s.trackers|
    ensures Follows(Flush(s, clock), Screen(CloseAll(sc.watches, clock), true))
  {
    PauseActiveFollows(s.(flushing := true), clock, |s.trackers|, sc.watches);
    assert CloseFirst(sc.watches, clock, |s.trackers|) == CloseAll(sc.watches, clock);
  }

  lemma ResumedMeasures(t: Tracker, w: Watch, now: int)
    requires Measures(t, w)
    ensures Measures(Resume(t, now), Open(w, now))
  {
  }

  lemma RatioMeasures(t: Tracker, w: Watch, ratio: real)
    requires Measures(t, w)
    ensures Measures(if ratio > t.depth then t.(depth := ratio) else t, w.(ratios := w.ratios + [ratio]))
  {
    LargestAppend(w.ratios, ratio);
  }

  lemma EnteredMeasures(t: Tracker, w: Watch, ratio: real, now: int)
    requires Measures(t, w)
    ensures var shown := if t.visible then t else Resume(t.(visible := true), now);
            Measures(if ratio > shown.depth then shown.(depth := ratio) else shown, Seen(w, true, ratio, now))
  {
    if t.visible {
      RatioMeasures(t, w, ratio);
    } else {
      assert Measures(t.(visible := true), w.(onScreen := true));
      ResumedMeasures(t.(visible := true), w.(onScreen := true), now);
      RatioMeasures(Resume(t.(visible := true), now), Open(w.(onScreen := true), now), ratio);
    }
  }

  lemma EnteredFollows(s: State, i: nat, ratio: real, now: int, sc: Screen)
    requires Follows(s, sc) && i < |s.trackers|
    ensures Follows(Intersected(s, i, true, ratio, now),
                    sc.(watches := sc.watches[i := Seen(sc.watches[i], true, ratio, now)]))
  {
    assert Measures(s.trackers[i], sc.watches[i]);
    EnteredMeasures(s.trackers[i], sc.watches[i], ratio, now);
    MeasureOne(s.trackers, sc.watches, i, Intersected(s, i, true, ratio, now).trackers[i],
               Seen(sc.watches[i], true, ratio, now));
  }

  lemma LeftFollows(s: State, i: nat, now: int, sc: Screen)
    requires Follows(s, sc) && i < |s.trackers| && s.trackers[i].visible
    ensures Follows(Pause(SetTracker(s, i, s.trackers[i].(visible := false)), i, now),
                    sc.(watches := sc.watches[i := Close(sc.watches[i].(onScreen := false), now)]))
  {
    var t, w := s.trackers[i].(visible := false), sc.watches[i].(onScreen := false);
    assert Measures(s.trackers[i], sc.watches[i]);
    MeasureOne(s.trackers, sc.watches, i, t, w);
    PauseStops(SetTracker(s, i, t), i, now);
    PauseFollows(SetTracker(s, i, t), i, now, sc.watches[i := w]);
  }

  lemma IntersectedFollows(s: State, i: nat, intersecting: bool, ratio: real, now: int, sc: Screen)
    requires Follows(s, sc) && i < |s.trackers|
    ensures Follows(Intersected(s, i, intersecting, ratio, now),
                    sc.(watches := sc.watches[i := Seen(sc.watches[i], intersecting, ratio, now)]))
  {
    assert Measures(s.trackers[i], sc.watches[i]);
    if intersecting {
      EnteredFollows(s, i, ratio, now, sc);
    } else if s.trackers[i].visible {
      LeftFollows(s, i, now, sc);
    }
  }

  lemma VisibilityFollows(s: State, i: nat, hidden: bool, now: int, sc: Screen)
    requires Follows(s, sc) && i < |s.trackers|
    ensures var w := sc.watches[i];
            Follows(if hidden then Pause(s, i, now) else SetTracker(s, i, Resume(s.trackers[i], now)),
                    sc.(watches := sc.watches[i := if hidden then Close(w, now) else Open(w, now)]))
  {
    assert Measures(s.trackers[i], sc.watches[i]);
    if hidden {
      PauseStops(s, i, now);
      PauseFollows(s, i, now, sc.watches);
    }
  }

  lemma SendDwellFollows(s: State, i: nat, sc: Screen)
    requires Follows(s, sc) && i < |s.trackers|
    ensures Follows(SendDwell(s, i), sc)
  {
    assert Measures(s.trackers[i], sc.watches[i]);
  }

  lemma DestroyFollows(s: State, i: nat, now: int, sc: Screen)
    requires Follows(s, sc) && i < |s.trackers| && s.trackers[i].active
    ensures Follows(Step(s, Destroy(i, now)), Look(sc, Destroy(i, now)))
  {
    var t, w := s.trackers[i].(active := false), sc.watches[i].(gone := true);
    assert Measures(s.trackers[i], sc.watches[i]);
    MeasureOne(s.trackers, sc.watches, i, t, w);
    if !s.flushing {
      var gone := SetTracker(s, i, t);
      PauseStops(gone, i, now);
      PauseFollows(gone, i, now, sc.watches[i := w]);
      SendDwellFollows(Pause(gone, i, now), i, Look(sc, Destroy(i, now)));
    }
  }

  lemma MountFollows(s: State, e: Event, sc: Screen)
    requires Follows(s, sc) && e.Mount?
    ensures Follows(Step(s, e), Look(sc, e))
  {
  }

  lemma StartFollows(s: State, clock: seq<int>, sc: Screen)
    requires Follows(s, sc)
    ensures Follows(Step(s, PageLoadingStart(clock)), Look(sc, PageLoadingStart(clock)))
  {
    if |clock| == |s.trackers| {
      FlushFollows(s, clock, sc);
      if exists i :: 0 <= i < |s.trackers| && s.trackers[i].active {
        var i :| 0 <= i < |s.trackers| && s.trackers[i].active;
        assert Measures(s.trackers[i], sc.watches[i]);
      }
      if SomeoneThere(sc.watches) {
        var k :| 0 <= k < |sc.watches| && !sc.watches[k].gone;
        assert Measures(s.trackers[k], sc.watches[k]);
      }
    }
  }

  lemma StepFollows(s: State, e: Event, sc: Screen)
    requires Follows(s, sc)
    ensures Follows(Step(s, e), Look(sc, e))
  {
    match e
    case Mount(_, _) => MountFollows(s, e, sc);
    case Intersect(i, intersecting, ratio, now) =>
      if i < |s.trackers| {
        assert Measures(s.trackers[i], sc.watches[i]);
        IntersectedFollows(s, i, intersecting, ratio, now, sc);
      }
    case VisibilityChange(i, hidden, now) =>
      if i < |s.trackers| {
        assert Measures(s.trackers[i], sc.watches[i]);
        VisibilityFollows(s, i, hidden, now, sc);
      }
    case NavigationClick(clock) => if |clock| == |s.trackers| { FlushFollows(s, clock, sc); }
    case PageLoadingStart(clock) => StartFollows(s, clock, sc);
    case PageLoadingStop =>
    case TimerFires =>
    case Destroy(i, now) =>
      if i < |s.trackers| {
        assert Measures(s.trackers[i], sc.watches[i]);
        if s.trackers[i].active { DestroyFollows(s, i, now, sc); }
      }
  }

  lemma {:induction false} RunFollows(events: seq<Event>)
    ensures Follows(Run(events), Watched(events))
  {
    if events != [] {
      var n := |events| - 1;
      RunFollows(events[..n]);
      StepFollows(Run(events[..n]), events[n], Watched(events[..n]));
    }
  }

  // ----- theorems -----

  /**
   The dwell time is the viewing time. In every run each tracker belongs to the post
   mounted in its place; its total is the time of the finished views of that post,
   its clock runs exactly since the unfinished one began, and its scroll depth is the
   largest ratio at which the post was seen.
   */
  lemma DwellIsViewingTime(events: seq<Event>, i: nat)
    requires i < |Run(events).trackers|
    ensures i < |Watched(events).watches|
    ensures var t, w := Run(events).trackers[i], Watched(events).watches[i];
            && t.postId == w.postId
            && t.total == Duration(w.views)
            && (t.startTime != 0 <==> w.since.Some?) && (w.since.Some? ==> t.startTime == w.since.value)
            && t.depth == Largest(w.ratios)
  {
    RunFollows(events);
    assert Measures(Run(events).trackers[i], Watched(events).watches[i]);
  }

  /** The finished viewing time of all mounted elements of a post. */
  function Viewed(watches: seq<Watch>, p: PostId): int {
    if watches == [] then 0
    else
      var w := watches[|watches| - 1];
      Viewed(watches[..|watches| - 1], p) + (if w.postId == p then Duration(w.views) else 0)
  }

  function Mounted(watches: seq<Watch>, p: PostId): nat {
    if watches == [] then 0
    else Mounted(watches[..|watches| - 1], p) + (if watches[|watches| - 1].postId == p then 1 else 0)
  }

  predicate NearlyReported(t: Tracker) { 0 <= t.total - t.reported < MIN_DWELL_TIME_MS }

  lemma {:induction false} ReportedIsNearlyViewed(trackers: seq<Tracker>, watches: seq<Watch>, p: PostId)
    requires AllMeasure(trackers, watches) && forall i :: 0 <= i < |trackers| ==> NearlyReported(trackers[i])
    ensures Reported(trackers, p) <= Viewed(watches, p)
    ensures Viewed(watches, p) <= Reported(trackers, p) + (MIN_DWELL_TIME_MS - 1) * Mounted(watches, p)
  {
    if trackers != [] {
      var n := |trackers| - 1;
      ReportedIsNearlyViewed(trackers[..n], watches[..n], p);
      assert Measures(trackers[n], watches[n]) && NearlyReported(trackers[n]);
    }
  }

  /**
   Viewing time reaches the server. When the clock does not run backwards, what is
   buffered for a post and was emitted for it is never more than the finished
   viewing time of the post, and short of it by less than MIN_DWELL_TIME_MS for each of
   its mounted elements.
   */
  lemma ViewingTimeIsDelivered(events: seq<Event>, p: PostId)
    requires MonotoneClock(events)
    ensures var s, watches := Run(events), Watched(events).watches;
            var delivered := DwellIn(s.buffer, p) + Emitted(s.emitted, p);
            delivered <= Viewed(watches, p) <= delivered + (MIN_DWELL_TIME_MS - 1) * Mounted(watches, p)
  {
    RunFollows(events);
    RunRemainder(events);
    DwellIsConserved(events, p);
    var s := Run(events);
    forall i | 0 <= i < |s.trackers| ensures NearlyReported(s.trackers[i]) {
      assert TrackerOk(s.trackers[i], Now(events));
    }
    ReportedIsNearlyViewed(s.trackers, Watched(events).watches, p);
  }

  /** A firing batch timer and a click that leaves the page leave nothing in the buffer. */
  lemma BufferIsEmptied(events: seq<Event>, clock: seq<int>)
    requires |clock| == |Run(events).trackers|
    ensures Run(events).timer ==> Run(events + [TimerFires]).buffer == map[]
    ensures Run(events + [NavigationClick(clock)]).buffer == map[]
  {
    RunAppend(events, TimerFires);
    RunAppend(events, NavigationClick(clock));
  }

  /** An element that is removed while the page stays leaves nothing of its post in the buffer. */
  lemma RemovalEmptiesItsPost(events: seq<Event>, i: nat, now: int)
    requires i < |Run(events).trackers| && Run(events).trackers[i].active && !Run(events).flushing
    ensures Run(events).trackers[i].postId !in Run(events + [Destroy(i, now)]).buffer
  {
    RunAppend(events, Destroy(i, now));
    PauseStops(SetTracker(Run(events), i, Run(events).trackers[i].(active := false)), i, now);
  }

  /**
   A post is reported as scrolled past exactly when it leaves the screen after it
   was looked at for some time but, in all its views, for less than the threshold.
   */
  lemma DismissedExactlyWhenScrolledPast(events: seq<Event>, i: nat, ratio: real, now: int)
    requires i < |Run(events).trackers| && Run(events).trackers[i].active
    ensures i < |Watched(events).watches| && i < |Watched(events + [Intersect(i, false, ratio, now)]).watches|
    ensures var left := Watched(events + [Intersect(i, false, ratio, now)]).watches[i];
            var time := Duration(left.views);
            var passed := Watched(events).watches[i].onScreen && 0 < time < SCROLL_PAST_THRESHOLD_MS;
            Run(events + [Intersect(i, false, ratio, now)]).dismissed
            == Run(events).dismissed + (if passed && left.postId != "" then [Dismissal(left.postId, time)] else [])
  {
    var e := Intersect(i, false, ratio, now);
    RunAppend(events, e);
    RunFollows(events);
    RunFollows(events + [e]);
    assert Measures(Run(events).trackers[i], Watched(events).watches[i]);
    assert Measures(Run(events + [e]).trackers[i], Watched(events + [e]).watches[i]);
    LeavingDismisses(Run(events), i, ratio, now);
  }

  lemma LeavingDismisses(s: State, i: nat, ratio: real, now: int)
    requires i < |s.trackers|
    ensures var s' := Intersected(s, i, false, ratio, now);
            && |s'.trackers| == |s.trackers|
            && var t := s'.trackers[i];
               s'.dismissed
               == s.dismissed + (if s.trackers[i].visible && 0 < t.total < SCROLL_PAST_THRESHOLD_MS && t.postId != ""
                                 then [Dismissal(t.postId, t.total)] else [])
  {
  }
}
