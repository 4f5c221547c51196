/**
 Dwell-time accounting of the timeline (timeline_hooks.js): any number of post
 trackers share one merge buffer and one batch timer. A step is one synchronous
 segment; every reading of Date.now() is a parameter. A payload counts as emitted
 when safePushEvent is called.
 */
module DwellModel {
  import opened Options

  const SCROLL_PAST_THRESHOLD_MS := 500
  const MIN_DWELL_TIME_MS := 1000

  type PostId = string

  datatype Payload = Payload(postId: PostId, dwell: int, depth: real, expanded: bool, source: string)

  function MaxReal(a: real, b: real): real { if a < b then b else a }

  /** JavaScript's `a || b` on strings. */
  function OrElse(a: string, b: string): string { if a != "" then a else b }

  /** mergeDwellPayloads on two present payloads. */
  function Merge(existing: Payload, incoming: Payload): Payload {
    Payload(OrElse(incoming.postId, existing.postId),
            existing.dwell + incoming.dwell,
            MaxReal(existing.depth, incoming.depth),
            existing.expanded || incoming.expanded,
            OrElse(incoming.source, existing.source))
  }

  /** A PostClick hook; `startTime` is 0 while the clock is stopped (null and 0 are both falsy). */
  datatype Tracker = Tracker(
    postId: PostId,
    source: string,
    startTime: int,
    total: int,
    reported: int,
    depth: real,
    visible: bool,
    expanded: bool,
    active: bool)

  /** A payload and the contributions that were merged into it, oldest first. */
  datatype Entry = Entry(payload: Payload, parts: seq<Payload>)

  type Batch = map<PostId, Entry>

  /** A dismissal that was reported for a post scrolled past quickly. */
  datatype Dismissal = Dismissal(postId: PostId, dwell: int)

  datatype State = State(
    trackers: seq<Tracker>,
    buffer: Batch,
    timer: bool,
    flushing: bool,
    emitted: seq<Batch>,
    dismissed: seq<Dismissal>)

  const INIT := State([], map[], false, false, [], [])

  datatype Event =
    | Mount(postId: PostId, source: string)
    | Intersect(tracker: nat, intersecting: bool, ratio: real, now: int)
    | VisibilityChange(tracker: nat, hidden: bool, now: int)
    | NavigationClick(clock: seq<int>)
    | PageLoadingStart(clock: seq<int>)
    | PageLoadingStop
    | TimerFires
    | Destroy(tracker: nat, now: int)

  /** buildDwellPayload. */
  function PayloadFor(t: Tracker, dwell: int): Option<Payload> {
    if t.postId == "" || dwell < MIN_DWELL_TIME_MS then None
    else Some(Payload(t.postId, dwell, t.depth, t.expanded, t.source))
  }

  /** The payload for the time a tracker has not reported yet. */
  function DirectPayload(t: Tracker): Option<Payload> { PayloadFor(t, t.total - t.reported) }

  function AddPart(entry: Option<Entry>, p: Payload): Entry {
    if entry.None? then Entry(p, [p]) else Entry(Merge(entry.value.payload, p), entry.value.parts + [p])
  }

  function Lookup(b: Batch, p: PostId): Option<Entry> { if p in b then Some(b[p]) else None }

  function SetTracker(s: State, i: nat, t: Tracker): State
    requires i < |s.trackers|
  {
    s.(trackers := s.trackers[i := t])
  }

  function Resume(t: Tracker, now: int): Tracker { if t.startTime == 0 then t.(startTime := now) else t }

  /** bufferDwellData: queue what is unreported if it is long enough, and arm the batch timer. */
  function BufferDwell(s: State, i: nat): State
    requires i < |s.trackers|
  {
    var t := s.trackers[i];
    match DirectPayload(t)
    case None => s
    case Some(p) =>
      SetTracker(s, i, t.(reported := t.total))
      .(buffer := s.buffer[t.postId := AddPart(Lookup(s.buffer, t.postId), p)], timer := true)
  }

  function Pause(s: State, i: nat, now: int): State
    requires i < |s.trackers|
  {
    var t := s.trackers[i];
    if t.startTime == 0 then s
    else BufferDwell(SetTracker(s, i, t.(total := t.total + (now - t.startTime), startTime := 0)), i)
  }

  /** activeDwellTrackers.forEach(pauseTracking), in mount order; tracker k reads clock[k]. */
  function PauseActive(s: State, clock: seq<int>, n: nat): State
    requires n <= |s.trackers| && |s.trackers| == |clock|
    ensures |PauseActive(s, clock, n).trackers| == |s.trackers|
  {
    if n == 0 then s
    else
      var s' := PauseActive(s, clock, n - 1);
      if s'.trackers[n - 1].active then Pause(s', n - 1, clock[n - 1]) else s'
  }

  function EmitBuffer(s: State): State {
    if s.buffer == map[] then s else s.(buffer := map[], emitted := s.emitted + [s.buffer])
  }

  /** flushDwellBatchBeforeNavigation. */
  function Flush(s: State, clock: seq<int>): State
    requires |s.trackers| == |clock|
  {
    EmitBuffer(PauseActive(s.(flushing := true), clock, |s.trackers|).(timer := false))
  }

  /** sendDwellData: the queued payload of the post, merged with what this tracker still holds. */
  function SendDwell(s: State, i: nat): State
    requires i < |s.trackers|
  {
    var t := s.trackers[i];
    var queued := Lookup(s.buffer, t.postId);
    match DirectPayload(t)
    case Some(p) =>
      SetTracker(s, i, t.(reported := t.total))
      .(buffer := s.buffer - {t.postId}, emitted := s.emitted + [map[t.postId := AddPart(queued, p)]])
    case None =>
      if queued.None? then s
      else s.(buffer := s.buffer - {t.postId}, emitted := s.emitted + [map[t.postId := queued.value]])
  }

  /** handleIntersection. */
  function Intersected(s: State, i: nat, intersecting: bool, ratio: real, now: int): State
    requires i < |s.trackers|
  {
    var t := s.trackers[i];
    if intersecting then
      var shown := if t.visible then t else Resume(t.(visible := true), now);
      SetTracker(s, i, if ratio > shown.depth then shown.(depth := ratio) else shown)
    else if t.visible then
      var paused := Pause(SetTracker(s, i, t.(visible := false)), i, now);
      var after := paused.trackers[i];
      if 0 < after.total < SCROLL_PAST_THRESHOLD_MS && after.postId != "" then
        paused.(dismissed := paused.dismissed + [Dismissal(after.postId, after.total)])
      else paused
    else s
  }

  function Step(s: State, e: Event): State {
    match e
    case Mount(postId, source) =>
      if postId == "" then s
      else s.(trackers := s.trackers + [Tracker(postId, OrElse(source, "timeline"), 0, 0, 0, 0.0, false, false, true)])
    case Intersect(i, intersecting, ratio, now) =>
      if i < |s.trackers| && s.trackers[i].active then Intersected(s, i, intersecting, ratio, now) else s
    case VisibilityChange(i, hidden, now) =>
      if i < |s.trackers| && s.trackers[i].active && s.trackers[i].visible then
        if hidden then Pause(s, i, now) else SetTracker(s, i, Resume(s.trackers[i], now))
      else s
    case NavigationClick(clock) => if |clock| == |s.trackers| then Flush(s, clock) else s
    case PageLoadingStart(clock) =>
      if |clock| == |s.trackers| && !s.flushing && (exists i :: 0 <= i < |s.trackers| && s.trackers[i].active) then
        Flush(s, clock)
      else s
    case PageLoadingStop => s.(flushing := false)
    case TimerFires => if s.timer then EmitBuffer(s).(timer := false) else s
    case Destroy(i, now) =>
      if i < |s.trackers| && s.trackers[i].active then
        var gone := SetTracker(s, i, s.trackers[i].(active := false));
        if s.flushing then gone else SendDwell(Pause(gone, i, now), i)
      else s
  }

  function Run(events: seq<Event>): State {
    if events == [] then INIT else Step(Run(events[..|events| - 1]), events[|events| - 1])
  }

  lemma RunAppend(events: seq<Event>, e: Event)
    ensures Run(events + [e]) == Step(Run(events), e)
  {
    assert (events + [e])[..|events|] == events;
  }
}
