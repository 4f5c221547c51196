/**
 The PostClick hooks and the page globals they share (timeline_hooks.js), updated in
 place. Each method is proved against the functions of the transition system.
 */
module DwellHooks {
  import opened Options
  import opened DwellModel
  import DwellLaws

  class PostClick {
    const postId: PostId
    const source: string
    /** 0 stands for null: both are falsy. */
    var startTime: int
    var totalDwellTime: int
    var lastReportedDwellTime: int
    var maxScrollDepth: real
    var isVisible: bool
    var wasExpanded: bool
    /** Membership in activeDwellTrackers. */
    var registered: bool

    ghost function Value(): Tracker
      reads this
    {
      Tracker(postId, source, startTime, totalDwellTime, lastReportedDwellTime, maxScrollDepth,
              isVisible, wasExpanded, registered)
    }

    constructor (postId: PostId, source: string)
      ensures Value() == Tracker(postId, OrElse(source, "timeline"), 0, 0, 0, 0.0, false, false, true)
    {
      this.postId, this.source := postId, if source != "" then source else "timeline";
      startTime, totalDwellTime, lastReportedDwellTime, maxScrollDepth := 0, 0, 0, 0.0;
      isVisible, wasExpanded, registered := false, false, true;
    }

    method ResumeTracking(now: int)
      modifies this
      ensures Value() == Resume(old(Value()), now)
      ensures startTime == (if old(startTime) == 0 then now else old(startTime))
    {
      if startTime == 0 { startTime := now; }
    }

    /** buildDwellPayload on this hook. */
    method BuildDwellPayload(dwellTimeMs: int) returns (payload: Option<Payload>)
      ensures payload == PayloadFor(Value(), dwellTimeMs)
      ensures payload.Some? <==> postId != "" && dwellTimeMs >= MIN_DWELL_TIME_MS
    {
      if postId == "" || dwellTimeMs < MIN_DWELL_TIME_MS { return None; }
      return Some(Payload(postId, dwellTimeMs, maxScrollDepth, wasExpanded, source));
    }
  }

  /** The module-level state of one page: its hooks in mount order, the merge buffer and the batch timer. */
  class Page {
    var hooks: seq<PostClick>
    var dwellTimeBuffer: Batch
    var batchTimeout: bool
    var navigationFlushInProgress: bool
    /** What safePushEvent was called with. */
    var emitted: seq<Batch>
    var dismissed: seq<Dismissal>
    ghost var history: seq<Event>

    ghost predicate Hooked()
      reads this
    {
      forall j, k :: 0 <= j < k < |hooks| ==> hooks[j] != hooks[k]
    }

    ghost function Trackers(): (ts: seq<Tracker>)
      reads this, hooks
      ensures |ts| == |hooks|
    {
      seq(|hooks|, k requires 0 <= k < |hooks| reads this, hooks => hooks[k].Value())
    }

    ghost function View(): State
      reads this, hooks
    {
      State(Trackers(), dwellTimeBuffer, batchTimeout, navigationFlushInProgress, emitted, dismissed)
    }

    /** The page is in the state that its history leads to. */
    ghost predicate Valid()
      reads this, hooks
    {
      Hooked() && View() == Run(history)
    }

    constructor ()
      ensures Valid() && history == [] && hooks == []
    {
      hooks, dwellTimeBuffer, batchTimeout, navigationFlushInProgress := [], map[], false, false;
      emitted, dismissed, history := [], [], [];
    }

    ghost method Happened(before: State, e: Event)
      requires Hooked() && before == Run(history) && View() == Step(before, e)
      modifies this`history
      ensures Valid() && history == old(history) + [e]
    {
      RunAppend(history, e);
      history := history + [e];
    }

    /** queueDwellPayload, with mergeDwellPayloads spelled out by AddPart. */
    method QueueDwellPayload(postId: PostId, payload: Payload)
      modifies this`dwellTimeBuffer
      ensures dwellTimeBuffer == old(dwellTimeBuffer)[postId := AddPart(Lookup(old(dwellTimeBuffer), postId), payload)]
    {
      var existing := if postId in dwellTimeBuffer then Some(dwellTimeBuffer[postId]) else None;
      dwellTimeBuffer := dwellTimeBuffer[postId := AddPart(existing, payload)];
    }

    /** takeQueuedDwellPayload. */
    method TakeQueuedDwellPayload(postId: PostId) returns (queued: Option<Entry>)
      modifies this`dwellTimeBuffer
      ensures queued == Lookup(old(dwellTimeBuffer), postId)
      ensures dwellTimeBuffer == old(dwellTimeBuffer) - {postId}
    {
      if postId !in dwellTimeBuffer { return None; }
      queued := Some(dwellTimeBuffer[postId]);
      dwellTimeBuffer := dwellTimeBuffer - {postId};
    }

    /** bufferDwellData of hook i, which arms the batch timer when it queues something. */
    method BufferDwellData(i: nat)
      requires Hooked() && i < |hooks|
      modifies this`dwellTimeBuffer, this`batchTimeout, hooks[i]
      ensures Hooked() && View() == BufferDwell(old(View()), i)
      ensures hooks[i].postId != "" ==> hooks[i].totalDwellTime - hooks[i].lastReportedDwellTime < MIN_DWELL_TIME_MS
      ensures dwellTimeBuffer != old(dwellTimeBuffer) ==> batchTimeout
      ensures hooks[i].registered == old(hooks[i].registered) && hooks[i].startTime == old(hooks[i].startTime)
      ensures hooks[i].totalDwellTime == old(hooks[i].totalDwellTime)
    {
      var hook := hooks[i];
      var payload := hook.BuildDwellPayload(hook.totalDwellTime - hook.lastReportedDwellTime);
      if payload.None? { return; }
      QueueDwellPayload(hook.postId, payload.value);
      hook.lastReportedDwellTime := hook.totalDwellTime;
      batchTimeout := true;
      assert Trackers() == old(Trackers())[i := hook.Value()];
    }

    method PauseTracking(i: nat, now: int)
      requires Hooked() && i < |hooks|
      modifies this`dwellTimeBuffer, this`batchTimeout, hooks[i]
      ensures Hooked() && View() == Pause(old(View()), i, now)
      ensures hooks[i].startTime == 0
      ensures hooks[i].totalDwellTime
              == old(hooks[i].totalDwellTime)
                 + (if old(hooks[i].startTime) != 0 then now - old(hooks[i].startTime) else 0)
      ensures hooks[i].registered == old(hooks[i].registered)
    {
      var hook := hooks[i];
      if hook.startTime == 0 { return; }
      hook.totalDwellTime := hook.totalDwellTime + (now - hook.startTime);
      hook.startTime := 0;
      assert Trackers() == old(Trackers())[i := hook.Value()];
      BufferDwellData(i);
    }

    /** sendBatch, and the end of the flush: emit the whole buffer. */
    method SendBatch()
      modifies this`dwellTimeBuffer, this`emitted
      ensures View() == EmitBuffer(old(View()))
      ensures dwellTimeBuffer == map[]
    {
      if dwellTimeBuffer == map[] { return; }
      emitted := emitted + [dwellTimeBuffer];
      dwellTimeBuffer := map[];
    }

    /** activeDwellTrackers.forEach(pauseTracking); hook k reads clock[k]. */
    method PauseActiveTrackers(clock: seq<int>)
      requires Hooked() && |clock| == |hooks|
      modifies this`dwellTimeBuffer, this`batchTimeout, hooks
      ensures Hooked() && View() == PauseActive(old(View()), clock, |hooks|)
    {
      ghost var before := View();
      for k := 0 to |hooks|
        invariant Hooked() && View() == PauseActive(before, clock, k)
      {
        assert hooks[k].Value() == View().trackers[k];
        if hooks[k].registered { PauseTracking(k, clock[k]); }
      }
    }

    method FlushDwellBatchBeforeNavigation(clock: seq<int>)
      requires Hooked() && |clock| == |hooks|
      modifies this`dwellTimeBuffer, this`batchTimeout, this`navigationFlushInProgress, this`emitted, hooks
      ensures Hooked() && View() == Flush(old(View()), clock)
      ensures dwellTimeBuffer == map[] && !batchTimeout && navigationFlushInProgress
    {
      ghost var before := View();
      navigationFlushInProgress := true;
      assert View() == before.(flushing := true);
      PauseActiveTrackers(clock);
      ghost var paused := View();
      batchTimeout := false;
      assert View() == paused.(timer := false);
      SendBatch();
    }

    /** sendDwellData of hook i: the queued payload of its post, merged with what the hook still holds. */
    method SendDwellData(i: nat)
      requires Hooked() && i < |hooks|
      modifies this`dwellTimeBuffer, this`emitted, hooks[i]
      ensures Hooked() && View() == SendDwell(old(View()), i)
      ensures hooks[i].postId !in dwellTimeBuffer
      ensures hooks[i].registered == old(hooks[i].registered)
    {
      var hook := hooks[i];
      var queued := TakeQueuedDwellPayload(hook.postId);
      var direct := hook.BuildDwellPayload(hook.totalDwellTime - hook.lastReportedDwellTime);
      if direct.Some? {
        hook.lastReportedDwellTime := hook.totalDwellTime;
        emitted := emitted + [map[hook.postId := AddPart(queued, direct.value)]];
        assert Trackers() == old(Trackers())[i := hook.Value()];
      } else if queued.Some? {
        emitted := emitted + [map[hook.postId := queued.value]];
      } else {
        assert dwellTimeBuffer == old(dwellTimeBuffer);
      }
    }

    // ----- the events of the page -----

    /** mounted: a hook without a post id tracks nothing. */
    method Mounted(postId: PostId, source: string)
      requires Valid()
      modifies this
      ensures Valid() && history == old(history) + [Mount(postId, source)]
    {
      ghost var before := View();
      if postId != "" {
        var hook := new PostClick(postId, source);
        hooks := hooks + [hook];
        assert Trackers() == before.trackers + [hook.Value()];
      }
      Happened(before, Mount(postId, source));
    }

    /** The batch timer fires. */
    method BatchTimerFires()
      requires Valid() && batchTimeout
      modifies this
      ensures Valid() && history == old(history) + [TimerFires]
    {
      ghost var before := View();
      SendBatch();
      batchTimeout := false;
      Happened(before, TimerFires);
    }

    /** A click on a post with a link. */
    method ClickedThrough(clock: seq<int>)
      requires Valid() && |clock| == |hooks|
      modifies this, hooks
      ensures Valid() && history == old(history) + [NavigationClick(clock)]
    {
      ghost var before := View();
      FlushDwellBatchBeforeNavigation(clock);
      Happened(before, NavigationClick(clock));
    }

    /** phx:page-loading-start: flush, unless a flush is under way or no tracker is registered. */
    method PageLoadingStarted(clock: seq<int>)
      requires Valid() && |clock| == |hooks|
      modifies this, hooks
      ensures Valid() && history == old(history) + [PageLoadingStart(clock)]
    {
      ghost var before := View();
      var someTracker := false;
      for k := 0 to |hooks|
        invariant View() == before && history == old(history)
        invariant someTracker <==> exists j :: 0 <= j < k && before.trackers[j].active
      {
        assert hooks[k].Value() == before.trackers[k];
        someTracker := someTracker || hooks[k].registered;
      }
      if !navigationFlushInProgress && someTracker { FlushDwellBatchBeforeNavigation(clock); }
      Happened(before, PageLoadingStart(clock));
    }

    method PageLoadingStopped()
      requires Valid()
      modifies this
      ensures Valid() && history == old(history) + [PageLoadingStop]
    {
      ghost var before := View();
      navigationFlushInProgress := false;
      Happened(before, PageLoadingStop);
    }

    /** Report everything a hook still holds. */
    method Drain(i: nat, now: int)
      requires Hooked() && i < |hooks|
      modifies this`dwellTimeBuffer, this`batchTimeout, this`emitted, hooks[i]
      ensures Hooked() && View() == SendDwell(Pause(old(View()), i, now), i)
      ensures hooks[i].registered == old(hooks[i].registered)
    {
      PauseTracking(i, now);
      SendDwellData(i);
    }

    /** destroyed: during a navigation flush nothing more is sent. */
    method Destroyed(i: nat, now: int)
      requires Valid() && i < |hooks| && hooks[i].registered
      modifies this, hooks
      ensures Valid() && history == old(history) + [Destroy(i, now)]
      ensures !hooks[i].registered && (old(navigationFlushInProgress) ==> emitted == old(emitted))
    {
      ghost var before := View();
      assert hooks[i].Value() == before.trackers[i];
      hooks[i].registered := false;
      assert Trackers() == before.trackers[i := hooks[i].Value()];
      if !navigationFlushInProgress { Drain(i, now); }
      Happened(before, Destroy(i, now));
    }

    /** The visibilitychange listener of a hook. */
    method VisibilityChanged(i: nat, hidden: bool, now: int)
      requires Valid() && i < |hooks| && hooks[i].registered
      modifies this, hooks
      ensures Valid() && history == old(history) + [VisibilityChange(i, hidden, now)]
    {
      ghost var before := View();
      assert hooks[i].Value() == before.trackers[i];
      if hooks[i].isVisible {
        if hidden {
          PauseTracking(i, now);
        } else {
          hooks[i].ResumeTracking(now);
          assert Trackers() == before.trackers[i := hooks[i].Value()];
        }
      }
      Happened(before, VisibilityChange(i, hidden, now));
    }

    /** A post comes into view, or is seen more completely. */
    method Entered(i: nat, ratio: real, now: int)
      requires Hooked() && i < |hooks|
      modifies hooks[i]
      ensures Hooked() && View() == Intersected(old(View()), i, true, ratio, now)
    {
      var hook := hooks[i];
      ghost var before := View();
      assert before.trackers[i] == hook.Value();
      if !hook.isVisible {
        hook.isVisible := true;
        hook.ResumeTracking(now);
      }
      if ratio > hook.maxScrollDepth { hook.maxScrollDepth := ratio; }
      assert Trackers() == before.trackers[i := hook.Value()];
    }

    /** A post leaves the view; one that was scrolled past quickly is reported as dismissed. */
    method Left(i: nat, ratio: real, now: int)
      requires Hooked() && i < |hooks|
      modifies this`dwellTimeBuffer, this`batchTimeout, this`dismissed, hooks[i]
      ensures Hooked() && View() == Intersected(old(View()), i, false, ratio, now)
    {
      var hook := hooks[i];
      ghost var before := View();
      assert before.trackers[i] == hook.Value();
      if !hook.isVisible { return; }
      hook.isVisible := false;
      assert Trackers() == before.trackers[i := hook.Value()];
      PauseTracking(i, now);
      ghost var paused := View();
      assert paused == Pause(SetTracker(before, i, before.trackers[i].(visible := false)), i, now);
      assert paused.trackers[i] == hook.Value();
      if hook.totalDwellTime < SCROLL_PAST_THRESHOLD_MS && hook.totalDwellTime > 0 && hook.postId != "" {
        dismissed := dismissed + [Dismissal(hook.postId, hook.totalDwellTime)];
      }
    }

    /** handleIntersection. */
    method HandleIntersection(i: nat, isIntersecting: bool, ratio: real, now: int)
      requires Valid() && i < |hooks| && hooks[i].registered
      modifies this, hooks
      ensures Valid() && history == old(history) + [Intersect(i, isIntersecting, ratio, now)]
    {
      ghost var before := View();
      assert hooks[i].Value() == before.trackers[i];
      if isIntersecting { Entered(i, ratio, now); } else { Left(i, ratio, now); }
      Happened(before, Intersect(i, isIntersecting, ratio, now));
    }
  }

  /** Conservation, for the objects: what the hooks of a post have reported is buffered or was emitted. */
  lemma HooksConserveDwell(page: Page, p: PostId)
    requires page.Valid()
    ensures DwellLaws.Reported(page.Trackers(), p)
            == DwellLaws.DwellIn(page.dwellTimeBuffer, p) + DwellLaws.Emitted(page.emitted, p)
  {
    DwellLaws.DwellIsConserved(page.history, p);
  }
}
