/** Where the feed's promises stop: business clocks of resumed journeys, journeys that change mode at
    midnight, and counters lost between a checkpoint and the next save. */
module ReplayFindings {
  import opened Wrappers
  import opened Runs
  import opened Journeys
  import opened Replay
  import opened ReplayTheorems

  const MINUTE := 60_000

  /** The business clock of a journey: its start, then one reading per phase. */
  function Clock(v: Visit, phase: nat): int {
    if phase == 0 then v.start
    else v.start + (if v.live then phase else phase * 12 * MINUTE)
  }

  ghost predicate ClockWithinDay(v: Visit) {
    forall phase: nat | phase <= 4 :: v.day * DAY <= Clock(v, phase) < (v.day + 1) * DAY
  }

  lemma ClockFits(v: Visit)
    requires !v.live
    ensures ClockWithinDay(v) <==> 0 <= v.start - v.day * DAY < DAY - 48 * MINUTE
  {
    if ClockWithinDay(v) {
      assert v.day * DAY <= Clock(v, 0) && Clock(v, 4) < (v.day + 1) * DAY;
    }
  }

  lemma StartedClock(feed: Feed, v: Visit, now: int)
    requires VisitOk(feed, v, now) && !v.live
    ensures ClockWithinDay(v) <==>
      v.start == HistoricalStart(v.day, v.slot) || v.start < (v.day + 1) * DAY - 48 * MINUTE
    ensures (forall phase: nat | phase <= 4 :: Clock(v, phase) < now) <==>
      v.start == HistoricalStart(v.day, v.slot) || v.start < now - 48 * MINUTE
  {
    ClockFits(v);
    assert (v.day + 1) * DAY <= now;
    if forall phase: nat | phase <= 4 :: Clock(v, phase) < now { assert Clock(v, 4) < now; }
  }

  /** Every clock reading of a completed historical journey, taken up again or not, lies in its business day exactly
      when it kept its slot's own start, or was begun live at least 48 minutes before that day's end. */
  lemma HistoricalClockExactly(feed: Feed, s0: State, startDay: int, es: seq<Event>, s: State, t: Receipt)
    requires Initial(feed, s0, startDay) && Run(feed, s0, es) == Some(s) && t in s.audit.receipts && !t.visit.live
    ensures var v := t.visit;
      ClockWithinDay(v) <==> v.start == HistoricalStart(v.day, v.slot) || v.start < (v.day + 1) * DAY - 48 * MINUTE
  {
    StartsAreOk(feed, s0, startDay, es, s);
    StartedClock(feed, t.visit, s.now);
    hide ClockWithinDay, Run, Initial;
  }

  /** When a historical journey is begun, all its clock readings are past exactly when it keeps its slot's own start,
      or was first begun live more than 48 minutes ago: otherwise it dates events into the future. */
  lemma ClockIsPastExactly(feed: Feed, s0: State, startDay: int, es: seq<Event>, s: State)
    requires Initial(feed, s0, startDay) && Run(feed, s0, es) == Some(s) && Enabled(feed, s, Begin)
    requires Historical(feed, s.process.calendar.nextDay, Today(s))
    ensures var v := NextVisit(feed, s.process.calendar, s.now);
      && !v.live
      && ((forall phase: nat | phase <= 4 :: Clock(v, phase) < s.now) <==>
          v.start == HistoricalStart(v.day, v.slot) || v.start < s.now - 48 * MINUTE)
  {
    StartsAreOk(feed, s0, startDay, es, s);
    NextVisitOk(feed, startDay, s);
    StartedClock(feed, NextVisit(feed, s.process.calendar, s.now), s.now);
    hide ClockWithinDay, Run, Initial, Scheduled, Started, Clock;
  }

  // ---------------------------------------------------------------- runs that show the gaps

  function OneCall(v: Visit): Script {
    Script((h: seq<Exchange>) =>
             if |h| == 0 then Send(Request("/track", if v.live then "live" else "historical", ""), false) else Finish,
           (h: seq<Exchange>) => Tally(1, 1, 0, multiset{}),
           1)
  }

  const SMALL := Feed(v => OneCall(v), day => 4, 0)

  const LIVE_CALL := Request("/track", "live", "")
  const REPLAYED_CALL := Request("/track", "historical", "")

  function FirstStart(): State {
    var c := Checkpoint(0, 0, 0, 0, [], None);
    State(Disk(c, map[], ZERO), Up(c, ZERO, None), Backend(map[], [], {}), 0, Audit([], [], true))
  }

  /** A live journey killed after its call arrived, up to the restart. */
  lemma KilledLiveJourney() returns (es: seq<Event>, s: State)
    ensures Initial(SMALL, FirstStart(), 0) && Run(SMALL, FirstStart(), es) == Some(s)
    ensures s.process == Up(s.disk.calendar, ZERO, None) && s.now == 0
    ensures s.backend == Backend(map[LIVE_CALL := "ok"], [LIVE_CALL], {LIVE_CALL})
    ensures s.disk == Disk(Checkpoint(0, 0, 0, 0, [], Some(Active(0, 0, 0, ZERO))), map[], ZERO)
    ensures s.audit == Audit([], [], true)
  {
    es, s := [], FirstStart();
    assert Run(SMALL, FirstStart(), es) == Some(s);
    assert Initial(SMALL, s, 0);
    hide After, Initial;
    es, s := Extend(Steps(SMALL), FirstStart(), es, s, Begin);
    var begun := FirstBegun();
    assert s == begun by { FirstBegin(); }
    assert Move(SMALL, s.process.attempt.value) == Send(LIVE_CALL, false);
    hide Begun;
    es, s := Extend(Steps(SMALL), FirstStart(), es, s, Transmit);
    assert s == begun.(backend := Backend(map[], [], {LIVE_CALL}));
    es, s := Extend(Steps(SMALL), FirstStart(), es, s, Arrive(LIVE_CALL, "ok"));
    assert s == begun.(backend := Backend(map[LIVE_CALL := "ok"], [LIVE_CALL], {LIVE_CALL}));
    es, s := Extend(Steps(SMALL), FirstStart(), es, s, Crash);
    es, s := Extend(Steps(SMALL), FirstStart(), es, s, Restart);
  }

  function FirstBegun(): State {
    var c := Checkpoint(0, 0, 0, 0, [], Some(Active(0, 0, 0, ZERO)));
    FirstStart().(disk := Disk(c, map[], ZERO),
                  process := Up(c, ZERO, Some(Attempt(Visit(0, 0, 0, true), map[], [], false, false))))
  }

  lemma FirstBegin()
    ensures Enabled(SMALL, FirstStart(), Begin) && Apply(SMALL, FirstStart(), Begin) == FirstBegun()
  {
  }

  /** A live journey killed before midnight and taken up after it asks for other things: what it had already
      made the backend do stays, though the completed journey's trace does not contain it. */
  lemma ModeChangeLeavesAnEffect() returns (es: seq<Event>, s: State)
    ensures Initial(SMALL, FirstStart(), 0) && Run(SMALL, FirstStart(), es) == Some(s)
    ensures s.backend.log == [LIVE_CALL, REPLAYED_CALL]
    ensures |s.audit.receipts| == 1 && s.audit.receipts[0].trace == [Exchange(REPLAYED_CALL, Returned("ok"))]
  {
    hide After;
    es, s := KilledLiveJourney();
    hide Initial;
    es, s := Extend(Steps(SMALL), FirstStart(), es, s, Tick(DAY));
    es, s := Extend(Steps(SMALL), FirstStart(), es, s, Begin);
    assert s.process.attempt.value == Attempt(Visit(0, 0, 0, false), map[], [], false, false);
    es, s := ReplayedCall(es, s);
  }

  lemma ReplayedCall(es0: seq<Event>, s0: State) returns (es: seq<Event>, s: State)
    requires Run(SMALL, FirstStart(), es0) == Some(s0) && s0.process.Up? && s0.audit.receipts == []
    requires s0.process.attempt == Some(Attempt(Visit(0, 0, 0, false), map[], [], false, false))
    requires s0.backend == Backend(map[LIVE_CALL := "ok"], [LIVE_CALL], {LIVE_CALL})
    ensures Run(SMALL, FirstStart(), es) == Some(s) && s.backend.log == [LIVE_CALL, REPLAYED_CALL]
    ensures |s.audit.receipts| == 1 && s.audit.receipts[0].trace == [Exchange(REPLAYED_CALL, Returned("ok"))]
  {
    hide After, Plus;
    es, s := Extend(Steps(SMALL), FirstStart(), es0, s0, Transmit);
    es, s := Extend(Steps(SMALL), FirstStart(), es, s, Arrive(REPLAYED_CALL, "ok"));
    assert s.backend.log == [LIVE_CALL, REPLAYED_CALL];
    es, s := Extend(Steps(SMALL), FirstStart(), es, s, Confirm);
    assert s.process.attempt.value.history == [Exchange(REPLAYED_CALL, Returned("ok"))];
    es, s := Extend(Steps(SMALL), FirstStart(), es, s, Commit);
  }

  lemma EarnedOne(receipts: seq<Receipt>)
    requires |receipts| == 1 && |receipts[0].trace| == 1
    ensures Earned(SMALL, receipts) == Tally(1, 1, 0, multiset{})
  {
    var t := receipts[0];
    var one := Tally(1, 1, 0, multiset{});
    assert receipts[..0] == [] && t.trace[..0] == [];
    TotalOfOne(t.visit, t.trace);
    hide Total;
    assert Earned(SMALL, receipts) == Plus(Earned(SMALL, []), one);
    assert Plus(ZERO, one) == one;
  }

  lemma TotalOfOne(v: Visit, h: seq<Exchange>)
    requires |h| == 1
    ensures Total(SMALL.script(v), h) == Tally(1, 1, 0, multiset{})
  {
  }

  /** Killed between the checkpoint and the next save, the feed restarts with counters that miss the journey it
      has completed. */
  lemma CountersCanLag() returns (es: seq<Event>, s: State)
    ensures Initial(SMALL, FirstStart(), 0) && Run(SMALL, FirstStart(), es) == Some(s)
    ensures s.process.Up? && s.disk.calendar.customersCompleted == 1
    ensures s.process.tally == ZERO && Earned(SMALL, s.audit.receipts) == Tally(1, 1, 0, multiset{})
  {
    hide After;
    es, s := KilledLiveJourney();
    es, s := Extend(Steps(SMALL), FirstStart(), es, s, Begin);
    assert s.process.attempt.value == Attempt(Visit(0, 0, 0, true), map[], [], false, false);
    es, s := Extend(Steps(SMALL), FirstStart(), es, s, Confirm);
    assert s.process.attempt.value.history == [Exchange(LIVE_CALL, Returned("ok"))];
    es, s := Extend(Steps(SMALL), FirstStart(), es, s, Commit);
    assert |s.audit.receipts| == 1;
    EarnedOne(s.audit.receipts);
    hide Earned;
    es, s := Extend(Steps(SMALL), FirstStart(), es, s, Crash);
    es, s := Extend(Steps(SMALL), FirstStart(), es, s, Restart);
  }

  /** A past day that has its volume stays at its slot until it is closed, and closes with exactly that many
      customers. */
  ghost predicate Closing(day: int, slot: nat, n: nat, startDay: int, s: State) {
    var c := s.disk.calendar;
    && (s.process.Up? ==> s.process.calendar == c)
    && n == day - startDay
    && day < Today(s)
    && (c.nextDay == day ==>
          && c.slot == slot && |s.audit.allDays| == n
          && (s.process.Up? ==> s.process.attempt.None? || s.process.attempt.value.committed))
    && (c.nextDay != day ==> c.nextDay > day && |s.audit.allDays| > n && s.audit.allDays[n] == DayRecord(day, slot))
  }

  lemma StepKeepsClosing(feed: Feed, startDay: int, day: int, slot: nat, n: nat, s: State, e: Event)
    requires Scheduled(feed, startDay, s) && Closing(day, slot, n, startDay, s) && Enabled(feed, s, e)
    requires slot >= feed.volume(day)
    ensures Closing(day, slot, n, startDay, Apply(feed, s, e))
  {
  }

  lemma {:induction false} RunKeepsClosing(feed: Feed, startDay: int, day: int, slot: nat, n: nat, s: State,
                                           es: seq<Event>, t: State)
    requires Scheduled(feed, startDay, s) && Closing(day, slot, n, startDay, s) && slot >= feed.volume(day)
    requires Run(feed, s, es) == Some(t)
    ensures Closing(day, slot, n, startDay, t)
    decreases |es|
  {
    hide Enabled, Apply, Scheduled, Closing;
    if es != [] {
      var init := es[..|es| - 1];
      var before := Run(feed, s, init).value;
      RunKeepsClosing(feed, startDay, day, slot, n, s, init, before);
      RunKeepsScheduled(feed, startDay, s, init);
      StepKeepsClosing(feed, startDay, day, slot, n, before, es[|es| - 1]);
    }
  }

  /** A journey left open on a day that is over, a live one killed shortly before midnight say, is completed by the
      time that day is closed exactly when the day had not reached its volume without it. Otherwise it is never
      taken up again, whatever had already taken effect. */
  lemma LeftOpenIsCompletedExactly(feed: Feed, s0: State, startDay: int, past: seq<Event>, s: State,
                                   es: seq<Event>, t: State)
    requires Initial(feed, s0, startDay) && Run(feed, s0, past) == Some(s) && s.process.Up? && s.process.attempt.None?
    requires s.disk.calendar.nextDay < Today(s)
    requires Run(feed, s, es) == Some(t) && t.disk.calendar.nextDay > s.disk.calendar.nextDay
    ensures var c := s.disk.calendar;
      (c.nextDay, c.slot) in References(t.audit.receipts) <==> c.slot < feed.volume(c.nextDay)
  {
    var c := s.disk.calendar;
    var n := c.nextDay - startDay;
    InitialIsScheduled(feed, s0, startDay);
    RunKeepsScheduled(feed, startDay, s0, past);
    RunKeepsScheduled(feed, startDay, s, es);
    hide After, Initial;
    DaysCounted(feed, startDay, s);
    DaysCounted(feed, startDay, t);
    DaysAreComplete(feed, startDay, t, n);
    if c.slot >= feed.volume(c.nextDay) {
      RunKeepsClosing(feed, startDay, c.nextDay, c.slot, n, s, es, t);
    }
    hide Scheduled, References;
  }

  lemma DaysCounted(feed: Feed, startDay: int, s: State)
    requires Scheduled(feed, startDay, s)
    ensures s.disk.calendar.nextDay == startDay + |s.audit.allDays|
    ensures s.process.Up? ==> s.process.calendar == s.disk.calendar
  {
  }

  /** Such a clock is reached: a live journey begun half an hour before midnight and killed, taken up a minute after
      midnight, leaves its day and runs ahead of the time. */
  lemma ClockLeavesItsDay() returns (es: seq<Event>, s: State)
    ensures Initial(SMALL, FirstStart(), 0) && Run(SMALL, FirstStart(), es) == Some(s)
    ensures s.process.Up? && s.process.attempt.Some?
    ensures var v := s.process.attempt.value.visit; !v.live && !ClockWithinDay(v) && Clock(v, 4) > s.now
  {
    es, s := [], FirstStart();
    assert Run(SMALL, FirstStart(), es) == Some(s);
    assert Initial(SMALL, s, 0);
    hide After, Initial;
    es, s := Extend(Steps(SMALL), FirstStart(), es, s, Tick(DAY - 30 * MINUTE));
    es, s := Extend(Steps(SMALL), FirstStart(), es, s, Begin);
    var start := DAY - 30 * MINUTE;
    assert s.disk.calendar == Checkpoint(0, 0, 0, 0, [], Some(Active(0, 0, start, ZERO)));
    es, s := Extend(Steps(SMALL), FirstStart(), es, s, Crash);
    es, s := Extend(Steps(SMALL), FirstStart(), es, s, Restart);
    es, s := Extend(Steps(SMALL), FirstStart(), es, s, Tick(31 * MINUTE));
    assert s.now == DAY + MINUTE && s.process.calendar == Checkpoint(0, 0, 0, 0, [], Some(Active(0, 0, start, ZERO)));
    es, s := Extend(Steps(SMALL), FirstStart(), es, s, Begin);
    var v := s.process.attempt.value.visit;
    assert v == Visit(0, 0, start, false);
    ClockFits(v);
  }

  /** Journeys that ask for nothing, four a day. */
  const IDLE := Feed(v => Script((h: seq<Exchange>) => Finish, (h: seq<Exchange>) => ZERO, 0), day => 4, 0)

  lemma OneMoreLive(es: seq<Event>, s: State) returns (es': seq<Event>, s': State)
    requires Run(IDLE, FirstStart(), es) == Some(s) && s.now == 0 && s.process.Up? && s.process.attempt.None?
    requires var c := s.process.calendar; s.disk.calendar == c && c.nextDay == 0 && c.active.None?
    ensures Run(IDLE, FirstStart(), es') == Some(s') && s'.now == 0 && s'.process.Up? && s'.process.attempt.None?
    ensures var c := s'.process.calendar;
      s'.disk.calendar == c && c.nextDay == 0 && c.active.None? && c.slot == s.process.calendar.slot + 1
  {
    hide After, HistoricalStart;
    es', s' := Extend(Steps(IDLE), FirstStart(), es, s, Begin);
    es', s' := Extend(Steps(IDLE), FirstStart(), es', s', Commit);
    es', s' := Extend(Steps(IDLE), FirstStart(), es', s', Unlink);
  }

  lemma {:induction false} LiveDay(slots: nat) returns (es: seq<Event>, s: State)
    ensures Run(IDLE, FirstStart(), es) == Some(s) && s.now == 0 && s.process.Up? && s.process.attempt.None?
    ensures var c := s.process.calendar;
      s.disk.calendar == c && c.nextDay == 0 && c.active.None? && c.slot == slots
  {
    if slots == 0 {
      es, s := [], FirstStart();
    } else {
      es, s := LiveDay(slots - 1);
      es, s := OneMoreLive(es, s);
    }
  }

  /** A run in which an open journey is left for good: the fifth live one of a day of four, killed before midnight. */
  lemma FifthJourneyIsDropped() returns (past: seq<Event>, s: State, t: State)
    ensures Initial(IDLE, FirstStart(), 0) && Run(IDLE, FirstStart(), past) == Some(s)
    ensures s.disk.calendar.active.Some? && s.disk.calendar.slot == 4 == IDLE.volume(0) && s.disk.calendar.nextDay == 0
    ensures Run(IDLE, s, [EndDay]) == Some(t) && (0, 4) !in References(t.audit.receipts)
  {
    past, s := LiveDay(4);
    assert Initial(IDLE, FirstStart(), 0);
    hide After, Initial, HistoricalStart;
    past, s := Extend(Steps(IDLE), FirstStart(), past, s, Begin);
    past, s := Extend(Steps(IDLE), FirstStart(), past, s, Crash);
    past, s := Extend(Steps(IDLE), FirstStart(), past, s, Restart);
    past, s := Extend(Steps(IDLE), FirstStart(), past, s, Tick(DAY));
    assert Enabled(IDLE, s, EndDay);
    t := Closed(s);
    LeftOpenIsCompletedExactly(IDLE, FirstStart(), 0, past, s, [EndDay], t);
  }

  lemma Closed(s: State) returns (t: State)
    requires Enabled(IDLE, s, EndDay)
    ensures t == Apply(IDLE, s, EndDay) && Run(IDLE, s, [EndDay]) == Some(t)
  {
    var es;
    es, t := Extend(Steps(IDLE), s, [], s, EndDay);
    assert [] + [EndDay] == [EndDay];
  }

  const FIRST_CALL := Request("/follow-ups", "", "")
  const OTHER_CALL := Request("/enrich/upsert", "", "")

  /** A step that may fail without ending the attempt, and something else asked for when it has. */
  function WithFallback(h: seq<Exchange>): Action {
    if |h| == 0 then Send(FIRST_CALL, true)
    else if |h| == 1 && h[0].outcome.Failed? then Send(OTHER_CALL, false)
    else Finish
  }

  const CAREFUL := Feed(v => Script(WithFallback, (h: seq<Exchange>) => ZERO, 2), day => 4, 0)

  /** A failure a step catches can leave an effect too: the attempt goes on, asks for something else, is given up in
      the end, and the attempt that completes does not ask for it. */
  lemma CaughtFailureLeavesAnEffect() returns (es: seq<Event>, s: State)
    ensures Initial(CAREFUL, FirstStart(), 0) && Run(CAREFUL, FirstStart(), es) == Some(s)
    ensures s.backend.log == [OTHER_CALL, FIRST_CALL]
    ensures |s.audit.receipts| == 1 && s.audit.receipts[0].trace == [Exchange(FIRST_CALL, Returned("ok"))]
  {
    es, s := [], FirstStart();
    assert Run(CAREFUL, FirstStart(), es) == Some(s);
    assert Initial(CAREFUL, s, 0);
    hide After, Initial, HistoricalStart;
    es, s := FailsOnce(es, s);
    es, s := Extend(Steps(CAREFUL), FirstStart(), es, s, Begin);
    assert s.process.attempt.value == Attempt(Visit(0, 0, 0, true), map[OTHER_CALL := "ok"], [], false, false);
    es, s := Extend(Steps(CAREFUL), FirstStart(), es, s, Arrive(FIRST_CALL, "ok"));
    assert s.backend.log == [OTHER_CALL, FIRST_CALL];
    es, s := Extend(Steps(CAREFUL), FirstStart(), es, s, Confirm);
    assert s.process.attempt.value.history == [Exchange(FIRST_CALL, Returned("ok"))];
    es, s := Extend(Steps(CAREFUL), FirstStart(), es, s, Commit);
  }

  /** The open journey after some exchanges, the backend having heard some requests. */
  function Careful(history: seq<Exchange>, journal: map<Request, Response>, b: Backend): State {
    var c := Checkpoint(0, 0, 0, 0, [], Some(Active(0, 0, 0, ZERO)));
    var doomed := history != [] && history[0].outcome.Failed?;
    FirstStart().(disk := Disk(c, journal, ZERO), backend := b,
                  process := Up(c, ZERO, Some(Attempt(Visit(0, 0, 0, true), journal, history, doomed, false))))
  }

  const FIRST_FAILED := [Exchange(FIRST_CALL, Failed)]
  const BOTH_DONE := [Exchange(FIRST_CALL, Failed), Exchange(OTHER_CALL, Returned("ok"))]
  const ASKED := Backend(map[], [], {FIRST_CALL})
  const DONE := Backend(map[OTHER_CALL := "ok"], [OTHER_CALL], {FIRST_CALL, OTHER_CALL})

  lemma CarefulBegin()
    ensures Enabled(CAREFUL, FirstStart(), Begin)
    ensures Apply(CAREFUL, FirstStart(), Begin) == Careful([], map[], Backend(map[], [], {}))
  {
  }

  lemma CarefulFirst()
    ensures Enabled(CAREFUL, Careful([], map[], Backend(map[], [], {})), Transmit)
    ensures Apply(CAREFUL, Careful([], map[], Backend(map[], [], {})), Transmit) == Careful([], map[], ASKED)
    ensures Enabled(CAREFUL, Careful([], map[], ASKED), Fail)
    ensures Apply(CAREFUL, Careful([], map[], ASKED), Fail) == Careful(FIRST_FAILED, map[], ASKED)
  {
    PlusZero(ZERO);
    hide Plus;
    assert [] + [Exchange(FIRST_CALL, Failed)] == FIRST_FAILED;
  }

  lemma CarefulOther()
    ensures Enabled(CAREFUL, Careful(FIRST_FAILED, map[], ASKED), Transmit)
    ensures var t := Apply(CAREFUL, Careful(FIRST_FAILED, map[], ASKED), Transmit);
      && Enabled(CAREFUL, t, Arrive(OTHER_CALL, "ok"))
      && Apply(CAREFUL, t, Arrive(OTHER_CALL, "ok")) == Careful(FIRST_FAILED, map[], DONE)
  {
    hide Plus;
    var s := Careful(FIRST_FAILED, map[], ASKED);
    assert Move(CAREFUL, s.process.attempt.value) == Send(OTHER_CALL, false);
    assert {FIRST_CALL} + {OTHER_CALL} == {FIRST_CALL, OTHER_CALL};
  }

  lemma CarefulConfirm()
    ensures Enabled(CAREFUL, Careful(FIRST_FAILED, map[], DONE), Confirm)
    ensures Apply(CAREFUL, Careful(FIRST_FAILED, map[], DONE), Confirm) ==
      Careful(BOTH_DONE, map[OTHER_CALL := "ok"], DONE)
    ensures Enabled(CAREFUL, Careful(BOTH_DONE, map[OTHER_CALL := "ok"], DONE), GiveUp)
  {
    PlusZero(ZERO);
    hide Plus;
    var s := Careful(FIRST_FAILED, map[], DONE);
    assert Move(CAREFUL, s.process.attempt.value) == Send(OTHER_CALL, false);
    assert FIRST_FAILED + [Exchange(OTHER_CALL, Returned("ok"))] == BOTH_DONE;
  }

  lemma FailsOnce(es0: seq<Event>, s0: State) returns (es: seq<Event>, s: State)
    requires s0 == FirstStart() && Run(CAREFUL, FirstStart(), es0) == Some(s0)
    ensures Run(CAREFUL, FirstStart(), es) == Some(s) && s.now == 0
    ensures s.process == Up(s.disk.calendar, ZERO, None) && s.audit == Audit([], [], true)
    ensures s.disk == Disk(Checkpoint(0, 0, 0, 0, [], Some(Active(0, 0, 0, ZERO))), map[OTHER_CALL := "ok"], ZERO)
    ensures s.backend == DONE
  {
    hide After, Enabled, Confirmed, FailedCall, Begun;
    CarefulBegin();
    CarefulFirst();
    CarefulOther();
    CarefulConfirm();
    es, s := Extend(Steps(CAREFUL), FirstStart(), es0, s0, Begin);
    es, s := Extend(Steps(CAREFUL), FirstStart(), es, s, Transmit);
    es, s := Extend(Steps(CAREFUL), FirstStart(), es, s, Fail);
    es, s := Extend(Steps(CAREFUL), FirstStart(), es, s, Transmit);
    es, s := Extend(Steps(CAREFUL), FirstStart(), es, s, Arrive(OTHER_CALL, "ok"));
    es, s := Extend(Steps(CAREFUL), FirstStart(), es, s, Confirm);
    es, s := Extend(Steps(CAREFUL), FirstStart(), es, s, GiveUp);
  }
}
