/** What is reported of the viewing times: every contribution, in order, told by the events alone. */
module DwellReports {
  import opened Options
  import opened DwellModel
  import opened DwellViewing

  // ----- what is to be reported -----

  /** What was reported of each mounted element, and all contributions in order. */
  datatype Ledger = Ledger(reported: seq<int>, log: seq<Payload>)

  /** The finished viewing time of element k is reported once MIN_DWELL_TIME_MS of it is unreported. */
  function Settle(watches: seq<Watch>, l: Ledger, k: nat): (r: Ledger)
    requires k < |watches| == |l.reported|
    ensures |r.reported| == |l.reported|
  {
    var w, time := watches[k], Duration(watches[k].views);
    if time - l.reported[k] < MIN_DWELL_TIME_MS then l
    else
      Ledger(l.reported[k := time],
             l.log + [Payload(w.postId, time - l.reported[k], Largest(w.ratios), false, w.source)])
  }

  function SettleFirst(watches: seq<Watch>, l: Ledger, n: nat): (r: Ledger)
    requires n <= |watches| == |l.reported|
    ensures |r.reported| == |l.reported|
  {
    if n == 0 then l else Settle(watches, SettleFirst(watches, l, n - 1), n - 1)
  }

  /** A newly mounted element has reported nothing. */
  function Extend(reported: seq<int>, n: nat): (r: seq<int>)
    requires |reported| <= n
    ensures |r| == n
  {
    reported + seq(n - |reported|, _ => 0)
  }

  lemma LookKeepsWatches(sc: Screen, e: Event)
    ensures |sc.watches| <= |Look(sc, e).watches|
  {
  }

  function Due(events: seq<Event>): (l: Ledger)
    ensures |l.reported| == |Watched(events).watches|
  {
    if events == [] then Ledger([], [])
    else
      var before, sc := Due(events[..|events| - 1]), Watched(events);
      LookKeepsWatches(Watched(events[..|events| - 1]), events[|events| - 1]);
      SettleFirst(sc.watches, before.(reported := Extend(before.reported, |sc.watches|)), |sc.watches|)
  }

  /** The contributions to one post. */
  function For(log: seq<Payload>, p: PostId): seq<Payload> {
    if log == [] then []
    else For(log[..|log| - 1], p) + (if log[|log| - 1].postId == p then [log[|log| - 1]] else [])
  }

  // ----- what was reported -----

  function PartsIn(b: Batch, p: PostId): seq<Payload> { if p in b then b[p].parts else [] }

  function EmittedParts(batches: seq<Batch>, p: PostId): seq<Payload> {
    if batches == [] then []
    else EmittedParts(batches[..|batches| - 1], p) + PartsIn(batches[|batches| - 1], p)
  }

  /** All contributions to a post, emitted and then buffered. */
  function AllParts(s: State, p: PostId): seq<Payload> { EmittedParts(s.emitted, p) + PartsIn(s.buffer, p) }

  lemma EmittedPartsAppend(batches: seq<Batch>, b: Batch, p: PostId)
    ensures EmittedParts(batches + [b], p) == EmittedParts(batches, p) + PartsIn(b, p)
  {
    assert (batches + [b])[..|batches|] == batches;
  }

  lemma ForAppend(log: seq<Payload>, q: Payload, p: PostId)
    ensures For(log + [q], p) == For(log, p) + (if q.postId == p then [q] else [])
  {
    assert (log + [q])[..|log|] == log;
  }

  // ----- they are the same -----

  ghost predicate SameParts(s: State, log: seq<Payload>) { forall p :: AllParts(s, p) == For(log, p) }

  /** The tracker has reported what the ledger says, and nothing long enough is left. */
  predicate Settled(t: Tracker, reported: int) {
    t.postId != "" && !t.expanded && t.reported == reported && t.total - t.reported < MIN_DWELL_TIME_MS
  }

  ghost predicate AllSettled(trackers: seq<Tracker>, reported: seq<int>) {
    |trackers| == |reported| && forall i :: 0 <= i < |trackers| ==> Settled(trackers[i], reported[i])
  }

  ghost predicate Accounts(s: State, sc: Screen, l: Ledger) {
    Follows(s, sc) && AllSettled(s.trackers, l.reported) && SameParts(s, l.log)
  }

  lemma NothingDue(watches: seq<Watch>, trackers: seq<Tracker>, l: Ledger, k: nat)
    requires AllMeasure(trackers, watches) && AllSettled(trackers, l.reported) && k < |watches|
    ensures Settle(watches, l, k) == l
  {
    assert Measures(trackers[k], watches[k]) && Settled(trackers[k], l.reported[k]);
  }

  lemma {:induction false} NothingDueUpTo(watches: seq<Watch>, trackers: seq<Tracker>, l: Ledger, n: nat)
    requires AllMeasure(trackers, watches) && AllSettled(trackers, l.reported) && n <= |watches|
    ensures SettleFirst(watches, l, n) == l
  {
    if n > 0 {
      NothingDueUpTo(watches, trackers, l, n - 1);
      NothingDue(watches, trackers, l, n - 1);
    }
  }

  /** Buffering a contribution puts it behind the others of its post. */
  lemma BufferedParts(s: State, i: nat, q: Payload)
    requires i < |s.trackers| && DirectPayload(s.trackers[i]) == Some(q)
    ensures forall p :: AllParts(BufferDwell(s, i), p) == AllParts(s, p) + (if q.postId == p then [q] else [])
  {
    var s' := BufferDwell(s, i);
    forall p ensures AllParts(s', p) == AllParts(s, p) + (if q.postId == p then [q] else []) {
      assert PartsIn(s'.buffer, p) == PartsIn(s.buffer, p) + (if q.postId == p then [q] else []);
    }
  }

  /** Tracker `i`, whose total may have grown, reports what is due. */
  lemma BufferSettles(s: State, i: nat, watches: seq<Watch>, l: Ledger)
    requires i < |s.trackers| == |watches| == |l.reported| && Measures(s.trackers[i], watches[i])
    requires s.trackers[i].postId != "" && !s.trackers[i].expanded && s.trackers[i].reported == l.reported[i]
    requires SameParts(s, l.log)
    ensures var s', l' := BufferDwell(s, i), Settle(watches, l, i);
            && Settled(s'.trackers[i], l'.reported[i]) && SameParts(s', l'.log)
            && s'.trackers == s.trackers[i := s'.trackers[i]] && l'.reported == l.reported[i := l'.reported[i]]
  {
    var t := s.trackers[i];
    if DirectPayload(t).Some? {
      var q := DirectPayload(t).value;
      BufferedParts(s, i, q);
      forall p ensures AllParts(BufferDwell(s, i), p) == For(l.log + [q], p) { ForAppend(l.log, q, p); }
    }
  }

  lemma RunningPause(s: State, i: nat, now: int)
    requires i < |s.trackers| && s.trackers[i].startTime != 0
    ensures Pause(s, i, now) == BufferDwell(SetTracker(s, i, Stopped(s.trackers[i], now)), i)
  {
  }

  /** A pause stops the clock and reports what is due. */
  lemma PauseSettles(s: State, i: nat, now: int, watches: seq<Watch>, l: Ledger)
    requires AllMeasure(s.trackers, watches) && AllSettled(s.trackers, l.reported) && SameParts(s, l.log)
    requires i < |s.trackers|
    ensures var s', l' := Pause(s, i, now), Settle(watches[i := Close(watches[i], now)], l, i);
            AllSettled(s'.trackers, l'.reported) && SameParts(s', l'.log)
  {
    var t, closed := s.trackers[i], watches[i := Close(watches[i], now)];
    assert Measures(t, watches[i]) && Settled(t, l.reported[i]);
    StoppedMeasures(t, watches[i], now);
    if t.startTime == 0 {
      assert closed == watches;
      NothingDue(watches, s.trackers, l, i);
    } else {
      var stopped := SetTracker(s, i, Stopped(t, now));
      assert SameParts(stopped, l.log) by {
        forall p ensures AllParts(stopped, p) == For(l.log, p) { assert AllParts(stopped, p) == AllParts(s, p); }
      }
      BufferSettles(stopped, i, closed, l);
      RunningPause(s, i, now);
      OthersStaySettled(s.trackers, l, stopped, i, Pause(s, i, now), Settle(closed, l, i));
    }
  }

  lemma OthersStaySettled(trackers: seq<Tracker>, l: Ledger, stopped: State, i: nat, s': State, l': Ledger)
    requires AllSettled(trackers, l.reported) && i < |trackers|
    requires |stopped.trackers| == |trackers| && stopped.trackers == trackers[i := stopped.trackers[i]]
    requires |s'.trackers| == |trackers| && s'.trackers == stopped.trackers[i := s'.trackers[i]]
    requires |l'.reported| == |l.reported| && l'.reported == l.reported[i := l'.reported[i]]
    requires Settled(s'.trackers[i], l'.reported[i])
    ensures AllSettled(s'.trackers, l'.reported)
  {
    forall k | 0 <= k < |trackers| ensures Settled(s'.trackers[k], l'.reported[k]) {
      if k != i { assert Settled(trackers[k], l.reported[k]); }
    }
  }

  // ----- every event -----

  /** Elements of which nothing is due do not matter. */
  lemma {:induction false} SettleOnly(watches: seq<Watch>, l: Ledger, n: nat, i: nat)
    requires n <= |watches| == |l.reported| && i < |watches|
    requires forall k :: 0 <= k < |watches| && k != i ==> Duration(watches[k].views) - l.reported[k] < MIN_DWELL_TIME_MS
    ensures SettleFirst(watches, l, n) == (if i < n then Settle(watches, l, i) else l)
  {
    if n > 0 { SettleOnly(watches, l, n - 1, i); }
  }

  lemma {:induction false} SettleFirstDepends(v: seq<Watch>, w: seq<Watch>, l: Ledger, n: nat)
    requires n <= |v| == |w| == |l.reported| && v[..n] == w[..n]
    ensures SettleFirst(v, l, n) == SettleFirst(w, l, n)
  {
    if n > 0 {
      assert v[..n - 1] == v[..n][..n - 1] == w[..n - 1] && v[n - 1] == v[..n][n - 1] == w[n - 1];
      SettleFirstDepends(v, w, l, n - 1);
    }
  }

  /** The state after an event in which no view ended. */
  lemma NoViewEnded(s: State, sc: Screen, l: Ledger)
    requires Accounts(s, sc, l)
    ensures Accounts(s, sc, SettleFirst(sc.watches, l, |sc.watches|))
  {
    NothingDueUpTo(sc.watches, s.trackers, l, |sc.watches|);
  }

  lemma PauseAccounts(s: State, i: nat, now: int, watches: seq<Watch>, l: Ledger)
    requires AllMeasure(s.trackers, watches) && AllSettled(s.trackers, l.reported) && SameParts(s, l.log)
    requires i < |s.trackers|
    ensures var s', closed := Pause(s, i, now), watches[i := Close(watches[i], now)];
            var l' := SettleFirst(closed, l, |closed|);
            AllSettled(s'.trackers, l'.reported) && SameParts(s', l'.log)
  {
    PauseSettles(s, i, now, watches, l);
    forall k | 0 <= k < |watches| && k != i ensures Duration(watches[k].views) - l.reported[k] < MIN_DWELL_TIME_MS {
      assert Measures(s.trackers[k], watches[k]) && Settled(s.trackers[k], l.reported[k]);
    }
    SettleOnly(watches[i := Close(watches[i], now)], l, |watches|, i);
  }

  lemma PauseNextSettles(s: State, i: nat, now: int, watches: seq<Watch>, l: Ledger)
    requires AllMeasure(s.trackers, watches) && AllSettled(s.trackers, l.reported) && SameParts(s, l.log)
    requires i < |s.trackers|
    ensures var w, s' := watches[i], if s.trackers[i].active then Pause(s, i, now) else s;
            var l' := Settle(watches[i := if w.gone then w else Close(w, now)], l, i);
            AllSettled(s'.trackers, l'.reported) && SameParts(s', l'.log)
  {
    assert Measures(s.trackers[i], watches[i]);
    if s.trackers[i].active {
      PauseSettles(s, i, now, watches, l);
    } else {
      assert watches[i := watches[i]] == watches;
      NothingDue(watches, s.trackers, l, i);
    }
  }

  lemma SettleNext(watches: seq<Watch>, clock: seq<int>, l: Ledger, n: nat)
    requires |clock| == |watches| == |l.reported| && 0 < n <= |watches|
    ensures var before, after, w := CloseFirst(watches, clock, n - 1), CloseFirst(watches, clock, n), watches[n - 1];
            && before[n - 1] == w && after == before[n - 1 := if w.gone then w else Close(w, clock[n - 1])]
            && SettleFirst(after, l, n) == Settle(after, SettleFirst(before, l, n - 1), n - 1)
  {
    CloseNext(watches, clock, n);
    var before, after := CloseFirst(watches, clock, n - 1), CloseFirst(watches, clock, n);
    assert before[..n - 1] == after[..n - 1];
    SettleFirstDepends(before, after, l, n - 1);
  }

  lemma PauseActiveNext(s: State, clock: seq<int>, n: nat)
    requires |clock| == |s.trackers| && 0 < n <= |s.trackers|
    ensures var s' := PauseActive(s, clock, n - 1);
            PauseActive(s, clock, n) == if s'.trackers[n - 1].active then Pause(s', n - 1, clock[n - 1]) else s'
  {
  }

  ghost predicate PausedSettled(s: State, l: Ledger) { AllSettled(s.trackers, l.reported) && SameParts(s, l.log) }

  lemma NextSettles(
      s: State, before: seq<Watch>, l: Ledger, i: nat, now: int, s': State, after: seq<Watch>, l': Ledger)
    requires AllMeasure(s.trackers, before) && PausedSettled(s, l) && i < |before| == |after|
    requires s' == if s.trackers[i].active then Pause(s, i, now) else s
    requires after == before[i := if before[i].gone then before[i] else Close(before[i], now)]
    requires l' == Settle(after, l, i)
    ensures PausedSettled(s', l')
  {
    PauseNextSettles(s, i, now, before, l);
  }

  ghost predicate PausedUpTo(s: State, clock: seq<int>, n: nat, watches: seq<Watch>, l: Ledger)
    requires |clock| == |s.trackers| == |watches| == |l.reported| && n <= |clock|
  {
    PausedSettled(PauseActive(s, clock, n), SettleFirst(CloseFirst(watches, clock, n), l, n))
  }

  lemma PausedNext(s: State, clock: seq<int>, n: nat, watches: seq<Watch>, l: Ledger)
    requires |clock| == |s.trackers| == |watches| == |l.reported| && 0 < n <= |clock|
    requires PausedUpTo(s, clock, n - 1, watches, l)
    requires AllMeasure(PauseActive(s, clock, n - 1).trackers, CloseFirst(watches, clock, n - 1))
    ensures PausedUpTo(s, clock, n, watches, l)
  {
    SettleNext(watches, clock, l, n);
    PauseActiveNext(s, clock, n);
    var before, after := CloseFirst(watches, clock, n - 1), CloseFirst(watches, clock, n);
    NextSettles(PauseActive(s, clock, n - 1), before, SettleFirst(before, l, n - 1), n - 1, clock[n - 1],
                PauseActive(s, clock, n), after, SettleFirst(after, l, n));
  }

  lemma PausedAtFirst(s: State, clock: seq<int>, watches: seq<Watch>, l: Ledger)
    requires |clock| == |s.trackers| == |watches| && PausedSettled(s, l)
    ensures PausedUpTo(s, clock, 0, watches, l)
  {
  }

  lemma {:induction false} PauseActiveSettles(s: State, clock: seq<int>, n: nat, watches: seq<Watch>, l: Ledger)
    requires AllMeasure(s.trackers, watches) && PausedSettled(s, l)
    requires |clock| == |s.trackers| && n <= |s.trackers|
    ensures PausedUpTo(s, clock, n, watches, l)
  {
    if n == 0 {
      PausedAtFirst(s, clock, watches, l);
    } else {
      PauseActiveSettles(s, clock, n - 1, watches, l);
      PauseActiveFollows(s, clock, n - 1, watches);
      PausedNext(s, clock, n, watches, l);
    }
  }

  lemma EmitKeepsParts(s: State, log: seq<Payload>)
    requires SameParts(s, log)
    ensures SameParts(EmitBuffer(s), log)
  {
    if s.buffer != map[] {
      forall p ensures AllParts(EmitBuffer(s), p) == For(log, p) {
        EmittedPartsAppend(s.emitted, s.buffer, p);
        assert AllParts(s, p) == For(log, p);
      }
    }
  }

  lemma SendKeepsParts(s: State, i: nat, log: seq<Payload>)
    requires i < |s.trackers| && SameParts(s, log) && DirectPayload(s.trackers[i]).None?
    ensures SameParts(SendDwell(s, i), log) && SendDwell(s, i).trackers == s.trackers
  {
    var s', post := SendDwell(s, i), s.trackers[i].postId;
    if s' != s {
      forall p ensures AllParts(s', p) == For(log, p) {
        EmittedPartsAppend(s.emitted, map[post := s.buffer[post]], p);
        assert AllParts(s, p) == For(log, p);
      }
    }
  }

  lemma FlushAccounts(s: State, clock: seq<int>, sc: Screen, l: Ledger)
    requires Accounts(s, sc, l) && |clock| == |s.trackers|
    ensures var closed := CloseAll(sc.watches, clock);
            Accounts(Flush(s, clock), Screen(closed, true), SettleFirst(closed, l, |closed|))
  {
    var leaving, n := s.(flushing := true), |s.trackers|;
    FlushFollows(s, clock, sc);
    assert SameParts(leaving, l.log) by {
      forall p ensures AllParts(leaving, p) == For(l.log, p) { assert AllParts(leaving, p) == AllParts(s, p); }
    }
    PauseActiveSettles(leaving, clock, n, sc.watches, l);
    assert CloseFirst(sc.watches, clock, n) == CloseAll(sc.watches, clock);
    var quiet := PauseActive(leaving, clock, n).(timer := false);
    var log := SettleFirst(CloseAll(sc.watches, clock), l, n).log;
    assert SameParts(quiet, log) by {
      forall p ensures AllParts(quiet, p) == For(log, p) {
        assert AllParts(quiet, p) == AllParts(PauseActive(leaving, clock, n), p);
      }
    }
    EmitKeepsParts(quiet, log);
  }

  lemma SamePartsIn(s: State, s': State, log: seq<Payload>)
    requires SameParts(s, log) && s'.buffer == s.buffer && s'.emitted == s.emitted
    ensures SameParts(s', log)
  {
    forall p ensures AllParts(s', p) == For(log, p) { assert AllParts(s', p) == AllParts(s, p); }
  }

  /** Nothing but the clock, the depth, the visibility and the registration may differ. */
  predicate KeepsTotals(t: Tracker, t': Tracker) {
    t' == t.(startTime := t'.startTime, depth := t'.depth, visible := t'.visible, active := t'.active)
  }

  /** An event that changes no total and no mark, buffer or emission. */
  lemma QuietAccounts(s: State, s': State, sc': Screen, l: Ledger)
    requires AllSettled(s.trackers, l.reported) && SameParts(s, l.log) && Follows(s', sc')
    requires s'.buffer == s.buffer && s'.emitted == s.emitted && |s'.trackers| == |s.trackers|
    requires forall i :: 0 <= i < |s.trackers| ==> KeepsTotals(s.trackers[i], s'.trackers[i])
    ensures Accounts(s', sc', SettleFirst(sc'.watches, l, |sc'.watches|))
  {
    SamePartsIn(s, s', l.log);
    forall i | 0 <= i < |s'.trackers| ensures Settled(s'.trackers[i], l.reported[i]) {
      assert Settled(s.trackers[i], l.reported[i]) && KeepsTotals(s.trackers[i], s'.trackers[i]);
    }
    NoViewEnded(s', sc', l);
  }

  /** An event that pauses one tracker, shown or removed by the same event. */
  lemma PausedAccounts(s: State, i: nat, t: Tracker, w: Watch, now: int, watches: seq<Watch>, l: Ledger)
    requires AllMeasure(s.trackers, watches) && PausedSettled(s, l) && i < |s.trackers| && Measures(t, w)
    requires t == s.trackers[i].(visible := t.visible, active := t.active)
    ensures var s', closed := Pause(SetTracker(s, i, t), i, now), watches[i := Close(w, now)];
            PausedSettled(s', SettleFirst(closed, l, |closed|)) && AllMeasure(s'.trackers, closed)
  {
    var changed := SetTracker(s, i, t);
    SamePartsIn(s, changed, l.log);
    MeasureOne(s.trackers, watches, i, t, w);
    assert Settled(s.trackers[i], l.reported[i]);
    assert watches[i := w][i := Close(w, now)] == watches[i := Close(w, now)];
    PauseFollows(changed, i, now, watches[i := w]);
    PauseAccounts(changed, i, now, watches[i := w], l);
  }

  lemma MountAccounts(s: State, e: Event, sc: Screen, l: Ledger)
    requires Accounts(s, sc, l) && e.Mount?
    ensures |sc.watches| <= |Look(sc, e).watches|
    ensures var sc' := Look(sc, e);
            Accounts(Step(s, e), sc',
                     SettleFirst(sc'.watches, l.(reported := Extend(l.reported, |sc'.watches|)), |sc'.watches|))
  {
    var s', sc' := Step(s, e), Look(sc, e);
    var l' := l.(reported := Extend(l.reported, |sc'.watches|));
    MountFollows(s, e, sc);
    SamePartsIn(s, s', l.log);
    forall i | 0 <= i < |s'.trackers| ensures Settled(s'.trackers[i], l'.reported[i]) {
      if i < |s.trackers| { assert Settled(s.trackers[i], l.reported[i]); }
    }
    NoViewEnded(s', sc', l');
  }

  ghost predicate StepAccounted(s: State, e: Event, sc: Screen, l: Ledger)
    requires |l.reported| == |Look(sc, e).watches|
  {
    Accounts(Step(s, e), Look(sc, e), SettleFirst(Look(sc, e).watches, l, |l.reported|))
  }

  lemma LeavingIs(s: State, e: Event)
    requires e.Intersect? && e.tracker < |s.trackers| && s.trackers[e.tracker].active
    requires !e.intersecting && s.trackers[e.tracker].visible
    ensures var paused := Pause(SetTracker(s, e.tracker, s.trackers[e.tracker].(visible := false)), e.tracker, e.now);
            && Step(s, e).trackers == paused.trackers && Step(s, e).buffer == paused.buffer
            && Step(s, e).emitted == paused.emitted
  {
  }

  lemma LeavingAccounts(s: State, e: Event, sc: Screen, l: Ledger)
    requires Accounts(s, sc, l) && e.Intersect? && e.tracker < |s.trackers| && s.trackers[e.tracker].active
    requires !e.intersecting && s.trackers[e.tracker].visible && Follows(Step(s, e), Look(sc, e))
    ensures |Look(sc, e).watches| == |sc.watches| && StepAccounted(s, e, sc, l)
  {
    var i := e.tracker;
    var t, w := s.trackers[i].(visible := false), sc.watches[i].(onScreen := false);
    assert Measures(s.trackers[i], sc.watches[i]);
    LeavingIs(s, e);
    PausedAccounts(s, i, t, w, e.now, sc.watches, l);
    var closed := sc.watches[i := Close(w, e.now)];
    assert Look(sc, e).watches == closed;
    SamePartsIn(Pause(SetTracker(s, i, t), i, e.now), Step(s, e), SettleFirst(closed, l, |closed|).log);
  }

  lemma StayingIs(s: State, e: Event)
    requires e.Intersect? && e.tracker < |s.trackers| && s.trackers[e.tracker].active
    requires e.intersecting || !s.trackers[e.tracker].visible
    ensures var s' := Step(s, e);
            && s'.buffer == s.buffer && s'.emitted == s.emitted && |s'.trackers| == |s.trackers|
            && KeepsTotals(s.trackers[e.tracker], s'.trackers[e.tracker])
            && s'.trackers == s.trackers[e.tracker := s'.trackers[e.tracker]]
  {
  }

  lemma StayingAccounts(s: State, s': State, i: nat, sc': Screen, l: Ledger)
    requires AllSettled(s.trackers, l.reported) && SameParts(s, l.log) && Follows(s', sc') && i < |s.trackers|
    requires s'.buffer == s.buffer && s'.emitted == s.emitted && |s'.trackers| == |s.trackers|
    requires KeepsTotals(s.trackers[i], s'.trackers[i]) && s'.trackers == s.trackers[i := s'.trackers[i]]
    ensures Accounts(s', sc', SettleFirst(sc'.watches, l, |sc'.watches|))
  {
    QuietAccounts(s, s', sc', l);
  }

  lemma IntersectAccounts(s: State, e: Event, sc: Screen, l: Ledger)
    requires Accounts(s, sc, l) && e.Intersect? && e.tracker < |s.trackers| && s.trackers[e.tracker].active
    ensures |Look(sc, e).watches| == |sc.watches| && StepAccounted(s, e, sc, l)
  {
    StepFollows(s, e, sc);
    if !e.intersecting && s.trackers[e.tracker].visible {
      LeavingAccounts(s, e, sc, l);
    } else {
      StayingIs(s, e);
      StayingAccounts(s, Step(s, e), e.tracker, Look(sc, e), l);
    }
  }

  lemma VisibilityAccounts(s: State, e: Event, sc: Screen, l: Ledger)
    requires Accounts(s, sc, l) && e.VisibilityChange? && e.tracker < |s.trackers| && s.trackers[e.tracker].active
    ensures |Look(sc, e).watches| == |sc.watches| && StepAccounted(s, e, sc, l)
  {
    var i := e.tracker;
    assert Measures(s.trackers[i], sc.watches[i]) && Settled(s.trackers[i], l.reported[i]);
    StepFollows(s, e, sc);
    if e.hidden && s.trackers[i].visible {
      PauseAccounts(s, i, e.now, sc.watches, l);
    } else {
      QuietAccounts(s, Step(s, e), Look(sc, e), l);
    }
  }

  lemma DestroyAccounts(s: State, e: Event, sc: Screen, l: Ledger)
    requires Accounts(s, sc, l) && e.Destroy? && e.tracker < |s.trackers| && s.trackers[e.tracker].active
    ensures |Look(sc, e).watches| == |sc.watches| && StepAccounted(s, e, sc, l)
  {
    var i, now := e.tracker, e.now;
    var t, w := s.trackers[i].(active := false), sc.watches[i].(gone := true);
    assert Measures(s.trackers[i], sc.watches[i]) && Settled(s.trackers[i], l.reported[i]);
    StepFollows(s, e, sc);
    if s.flushing {
      QuietAccounts(s, Step(s, e), Look(sc, e), l);
    } else {
      PausedAccounts(s, i, t, w, now, sc.watches, l);
      var paused, l' := Pause(SetTracker(s, i, t), i, now), SettleFirst(Look(sc, e).watches, l, |l.reported|);
      assert Settled(paused.trackers[i], l'.reported[i]);
      SendKeepsParts(paused, i, l'.log);
    }
  }

  lemma TimerAccounts(s: State, sc: Screen, l: Ledger)
    requires Accounts(s, sc, l)
    ensures StepAccounted(s, TimerFires, sc, l)
  {
    EmitKeepsParts(s, l.log);
    SamePartsIn(if s.timer then EmitBuffer(s) else s, Step(s, TimerFires), l.log);
    assert Step(s, TimerFires).trackers == s.trackers;
    NoViewEnded(Step(s, TimerFires), sc, l);
  }

  lemma NothingHappens(s: State, sc: Screen, e: Event, l: Ledger)
    requires Accounts(s, sc, l) && Step(s, e) == s
    ensures |Look(sc, e).watches| == |sc.watches| && StepAccounted(s, e, sc, l)
  {
    StepFollows(s, e, sc);
    NoViewEnded(s, Look(sc, e), l);
  }

  lemma StepAccounts(s: State, e: Event, sc: Screen, l: Ledger)
    requires Accounts(s, sc, l)
    ensures |sc.watches| <= |Look(sc, e).watches|
    ensures StepAccounted(s, e, sc, l.(reported := Extend(l.reported, |Look(sc, e).watches|)))
  {
    LookKeepsWatches(sc, e);
    StepFollows(s, e, sc);
    assert Extend(l.reported, |l.reported|) == l.reported;
    match e
    case Mount(_, _) => MountAccounts(s, e, sc, l);
    case Intersect(i, _, _, _) =>
      if i < |s.trackers| && s.trackers[i].active {
        IntersectAccounts(s, e, sc, l);
      } else {
        NothingHappens(s, sc, e, l);
      }
    case VisibilityChange(i, _, _) =>
      if i < |s.trackers| && s.trackers[i].active {
        VisibilityAccounts(s, e, sc, l);
      } else {
        NothingHappens(s, sc, e, l);
      }
    case NavigationClick(clock) =>
      if |clock| == |s.trackers| { FlushAccounts(s, clock, sc, l); } else { NothingHappens(s, sc, e, l); }
    case PageLoadingStart(clock) =>
      if Step(s, e) == s { NothingHappens(s, sc, e, l); } else { StartAccounts(s, clock, sc, l); }
    case PageLoadingStop => QuietAccounts(s, Step(s, e), Look(sc, e), l);
    case TimerFires => TimerAccounts(s, sc, l);
    case Destroy(i, _) =>
      if i < |s.trackers| && s.trackers[i].active {
        DestroyAccounts(s, e, sc, l);
      } else {
        NothingHappens(s, sc, e, l);
      }
  }

  lemma StartAccounts(s: State, clock: seq<int>, sc: Screen, l: Ledger)
    requires Accounts(s, sc, l) && Step(s, PageLoadingStart(clock)) != s
    ensures |Look(sc, PageLoadingStart(clock)).watches| == |sc.watches|
    ensures StepAccounted(s, PageLoadingStart(clock), sc, l)
  {
    var k :| 0 <= k < |s.trackers| && s.trackers[k].active;
    assert Measures(s.trackers[k], sc.watches[k]);
    FlushAccounts(s, clock, sc, l);
  }

  lemma {:induction false} RunAccounts(events: seq<Event>)
    ensures Accounts(Run(events), Watched(events), Due(events))
  {
    if events == [] {
      assert forall p :: AllParts(INIT, p) == For([], p);
    } else {
      var n := |events| - 1;
      RunAccounts(events[..n]);
      StepAccounts(Run(events[..n]), events[n], Watched(events[..n]), Due(events[..n]));
    }
  }

  // ----- theorem -----

  /**
   Exactly the viewing time is reported. In every run and for every post, the
   contributions that were emitted and those that are buffered are, in order, the ones
   that are due: one as soon as MIN_DWELL_TIME_MS of finished viewing time of an element are
   unreported, with all of that time, the largest ratio so far and the element's source.
   */
  lemma ReportsAreExactlyDue(events: seq<Event>, p: PostId)
    ensures EmittedParts(Run(events).emitted, p) + PartsIn(Run(events).buffer, p) == For(Due(events).log, p)
  {
    RunAccounts(events);
    assert AllParts(Run(events), p) == For(Due(events).log, p);
  }
}
