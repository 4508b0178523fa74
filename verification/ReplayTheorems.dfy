/** What every step of the feed keeps, and what follows over whole runs with any number of kills, failed
    calls, retries and late or repeated arrivals. */
module ReplayTheorems {
  import opened Wrappers
  import opened Journeys
  import opened Replay

  // ---------------------------------------------------------------- effects and traces

  ghost predicate Distinct<T>(xs: seq<T>) {
    forall i, j | 0 <= i < j < |xs| :: xs[i] != xs[j]
  }

  /** The log holds exactly the requests with an answer, each once. */
  ghost predicate OnceEach(b: Backend) {
    Distinct(b.log) && (forall r :: r in b.log <==> r in b.applied)
  }

  /** Every call of the history is answered as the journal says, or failed in a doomed attempt. */
  ghost predicate Journaled(a: Attempt) {
    forall x | x in a.history ::
      if x.outcome.Failed? then a.doomed
      else x.request in a.journal && a.journal[x.request] == x.outcome.response
  }

  ghost predicate AttemptOk(feed: Feed, s: State, a: Attempt) {
    && a.journal == s.disk.journal
    && Follows(feed.script(a.visit), a.history)
    && Journaled(a)
  }

  ghost predicate ReceiptsOk(feed: Feed, s: State) {
    forall t | t in s.audit.receipts :: Uninterrupted(feed.script(t.visit), s.backend.applied, t.trace)
  }

  ghost predicate Traced(feed: Feed, s: State) {
    && OnceEach(s.backend)
    && Within(s.disk.journal, s.backend.applied)
    && (s.process.Up? && s.process.attempt.Some? ==> AttemptOk(feed, s, s.process.attempt.value))
    && ReceiptsOk(feed, s)
  }

  lemma ArriveKeepsTraced(feed: Feed, s: State, r: Request, response: Response)
    requires Traced(feed, s) && Enabled(feed, s, Arrive(r, response))
    ensures Traced(feed, Apply(feed, s, Arrive(r, response)))
  {
  }

  lemma ExchangeKeepsAttempt(feed: Feed, s: State, t: State, a: Attempt, b: Attempt, x: Exchange)
    requires AttemptOk(feed, s, a) && b.journal == t.disk.journal && Within(a.journal, b.journal)
    requires b.visit == a.visit && b.history == a.history + [x] && (a.doomed ==> b.doomed)
    requires Move(feed, a).Send? && Move(feed, a).request == x.request
    requires if x.outcome.Failed? then b.doomed
      else x.request in b.journal && b.journal[x.request] == x.outcome.response
    ensures AttemptOk(feed, t, b)
  {
    FollowsAppend(feed.script(a.visit), a.history, x);
    forall y | y in b.history
      ensures if y.outcome.Failed? then b.doomed
        else y.request in b.journal && b.journal[y.request] == y.outcome.response
    {
      assert y in a.history || y == x;
    }
  }

  lemma ExchangeKeepsTraced(feed: Feed, s: State, e: Event)
    requires Traced(feed, s) && Enabled(feed, s, e) && (e.FromJournal? || e.Confirm? || e.Fail?)
    ensures Traced(feed, Apply(feed, s, e))
  {
    var t := Apply(feed, s, e);
    var a := s.process.attempt.value;
    assert t.backend == s.backend && t.audit == s.audit;
    assert Within(t.disk.journal, t.backend.applied);
    if t.process.attempt.Some? {
      var b := t.process.attempt.value;
      var r := Move(feed, a).request;
      var x := Exchange(r, if e.Fail? then Failed else Returned(b.journal[r]));
      assert b.history == a.history + [x];
      ExchangeKeepsAttempt(feed, s, t, a, b, x);
    }
  }

  lemma CommitKeepsTraced(feed: Feed, s: State)
    requires Traced(feed, s) && Enabled(feed, s, Commit)
    ensures Traced(feed, Apply(feed, s, Commit))
  {
    var t := Apply(feed, s, Commit);
    var a := s.process.attempt.value;
    forall x | x in a.history
      ensures x.request in s.backend.applied && x.outcome == Returned(s.backend.applied[x.request])
    {
      assert !x.outcome.Failed?;
    }
    forall x | x in t.audit.receipts
      ensures Uninterrupted(feed.script(x.visit), t.backend.applied, x.trace)
    {
      assert x in s.audit.receipts || x.trace == a.history;
    }
  }

  lemma StepKeepsTraced(feed: Feed, s: State, e: Event)
    requires Traced(feed, s) && Enabled(feed, s, e)
    ensures Traced(feed, Apply(feed, s, e))
    ensures Within(s.backend.applied, Apply(feed, s, e).backend.applied)
  {
    match e
    case Arrive(r, response) => ArriveKeepsTraced(feed, s, r, response);
    case FromJournal => ExchangeKeepsTraced(feed, s, e);
    case Confirm => ExchangeKeepsTraced(feed, s, e);
    case Fail => ExchangeKeepsTraced(feed, s, e);
    case Commit => CommitKeepsTraced(feed, s);
    case Begin => assert Follows(feed.script(NextVisit(feed, s.process.calendar, s.now)), []);
    case _ =>
  }

  lemma {:induction false} RunKeepsTraced(feed: Feed, s: State, es: seq<Event>)
    requires Traced(feed, s) && Run(feed, s, es).Some?
    ensures Traced(feed, Run(feed, s, es).value)
  {
    hide Enabled, Apply, Traced;
    if es != [] {
      RunKeepsTraced(feed, s, es[..|es| - 1]);
      StepKeepsTraced(feed, Run(feed, s, es[..|es| - 1]).value, es[|es| - 1]);
    }
  }

  /** Crash-recovery refinement. However a run is interrupted, retried or delayed, the exchanges of every
      completed journey are the uninterrupted run of its program against the backend's answers, and each request
      of it took effect exactly once; no request at all took effect twice. */
  lemma ReplayIsUninterrupted(feed: Feed, s0: State, startDay: int, es: seq<Event>, s: State)
    requires Initial(feed, s0, startDay) && Run(feed, s0, es) == Some(s)
    ensures Distinct(s.backend.log)
    ensures forall t | t in s.audit.receipts ::
      && Uninterrupted(feed.script(t.visit), s.backend.applied, t.trace)
      && forall x | x in t.trace :: x.request in s.backend.log
  {
    RunKeepsTraced(feed, s0, es);
    forall t, x | t in s.audit.receipts && x in t.trace ensures x.request in s.backend.log {
      assert x.request in s.backend.applied;
    }
  }

  // ---------------------------------------------------------------- the day and slot schedule

  function DaySlots(day: int, slots: nat): seq<(int, nat)> {
    seq(slots, i requires 0 <= i < slots => (day, i))
  }

  /** Every slot of every completed day, in order. */
  function AllSlots(days: seq<DayRecord>): seq<(int, nat)> {
    if days == [] then []
    else
      var d := days[|days| - 1];
      AllSlots(days[..|days| - 1]) + DaySlots(d.date, d.customers)
  }

  function Customers(days: seq<DayRecord>): nat {
    if days == [] then 0 else Customers(days[..|days| - 1]) + days[|days| - 1].customers
  }

  function References(receipts: seq<Receipt>): seq<(int, nat)> {
    seq(|receipts|, i requires 0 <= i < |receipts| => (receipts[i].visit.day, receipts[i].visit.slot))
  }

  /** The days follow one another from the start, each with its volume. */
  ghost predicate InOrder(feed: Feed, startDay: int, days: seq<DayRecord>) {
    forall i | 0 <= i < |days| :: days[i].date == startDay + i && days[i].customers >= feed.volume(startDay + i)
  }

  ghost predicate Scheduled(feed: Feed, startDay: int, s: State) {
    var c := s.disk.calendar;
    && (s.process.Up? ==> s.process.calendar == c)
    && References(s.audit.receipts) == AllSlots(s.audit.allDays) + DaySlots(c.nextDay, c.slot)
    && c.customersCompleted == |s.audit.receipts|
    && c.daysCompleted == |s.audit.allDays|
    && c.nextDay == startDay + c.daysCompleted
    && c.days == LastDays(s.audit.allDays)
    && InOrder(feed, startDay, s.audit.allDays)
    && c.nextDay <= Today(s) && feed.seedEnd <= Today(s)
    && (Running(s) ==> s.process.attempt.value.visit.day == c.nextDay && s.process.attempt.value.visit.slot == c.slot)
  }

  lemma AppendReceipt(receipts: seq<Receipt>, t: Receipt)
    ensures References(receipts + [t]) == References(receipts) + [(t.visit.day, t.visit.slot)]
  {
  }

  lemma CommitKeepsScheduled(feed: Feed, startDay: int, s: State)
    requires Scheduled(feed, startDay, s) && Enabled(feed, s, Commit)
    ensures Scheduled(feed, startDay, Apply(feed, s, Commit))
  {
    var t := Apply(feed, s, Commit);
    var c := s.disk.calendar;
    var r := t.audit.receipts[|s.audit.receipts|];
    AppendReceipt(s.audit.receipts, r);
    assert DaySlots(c.nextDay, c.slot + 1) == DaySlots(c.nextDay, c.slot) + [(c.nextDay, c.slot)];
  }

  lemma LastOfLast(days: seq<DayRecord>, d: DayRecord)
    ensures LastDays(LastDays(days) + [d]) == LastDays(days + [d])
  {
    if |days| > 400 {
      assert LastDays(days) + [d] == (days + [d])[|days| - 400..];
    }
  }

  lemma AppendInOrder(feed: Feed, startDay: int, days: seq<DayRecord>, d: DayRecord)
    requires InOrder(feed, startDay, days) && d.date == startDay + |days| && d.customers >= feed.volume(d.date)
    ensures InOrder(feed, startDay, days + [d])
  {
  }

  lemma AppendDay(days: seq<DayRecord>, d: DayRecord)
    ensures AllSlots(days + [d]) + DaySlots(d.date + 1, 0) == AllSlots(days) + DaySlots(d.date, d.customers)
  {
    assert DaySlots(d.date + 1, 0) == [];
    hide DaySlots;
    assert (days + [d])[..|days|] == days;
    assert AllSlots(days + [d]) == AllSlots(days) + DaySlots(d.date, d.customers);
  }

  lemma EndDayKeepsScheduled(feed: Feed, startDay: int, s: State)
    requires Scheduled(feed, startDay, s) && Enabled(feed, s, EndDay)
    ensures Scheduled(feed, startDay, Apply(feed, s, EndDay))
  {
    hide References, AllSlots, DaySlots, LastDays, InOrder;
    var c := s.disk.calendar;
    AppendInOrder(feed, startDay, s.audit.allDays, DayRecord(c.nextDay, c.slot));
    AppendDay(s.audit.allDays, DayRecord(c.nextDay, c.slot));
    LastOfLast(s.audit.allDays, DayRecord(c.nextDay, c.slot));
  }

  lemma BeginKeepsScheduled(feed: Feed, startDay: int, s: State)
    requires Scheduled(feed, startDay, s) && Enabled(feed, s, Begin)
    ensures Scheduled(feed, startDay, Apply(feed, s, Begin))
  {
    hide References, AllSlots, DaySlots, HistoricalStart;
  }

  lemma ExchangeKeepsScheduled(feed: Feed, startDay: int, s: State, e: Event)
    requires Scheduled(feed, startDay, s) && Enabled(feed, s, e) && (e.FromJournal? || e.Confirm? || e.Fail?)
    ensures Scheduled(feed, startDay, Apply(feed, s, e))
  {
    hide References, AllSlots, DaySlots;
  }

  lemma StepKeepsScheduled(feed: Feed, startDay: int, s: State, e: Event)
    requires Scheduled(feed, startDay, s) && Enabled(feed, s, e)
    ensures Scheduled(feed, startDay, Apply(feed, s, e))
  {
    hide References, AllSlots, DaySlots, Begun, Exchanged, Committed, DayEnded;
    match e
    case Commit => CommitKeepsScheduled(feed, startDay, s);
    case EndDay => EndDayKeepsScheduled(feed, startDay, s);
    case Begin => BeginKeepsScheduled(feed, startDay, s);
    case FromJournal => ExchangeKeepsScheduled(feed, startDay, s, e);
    case Confirm => ExchangeKeepsScheduled(feed, startDay, s, e);
    case Fail => ExchangeKeepsScheduled(feed, startDay, s, e);
    case Tick(elapsed) => assert Today(s) <= (s.now + elapsed) / DAY;
    case _ =>
  }

  lemma {:induction false} RunKeepsScheduled(feed: Feed, startDay: int, s: State, es: seq<Event>)
    requires Scheduled(feed, startDay, s) && Run(feed, s, es).Some?
    ensures Scheduled(feed, startDay, Run(feed, s, es).value)
  {
    hide Enabled, Apply, Scheduled;
    if es != [] {
      RunKeepsScheduled(feed, startDay, s, es[..|es| - 1]);
      StepKeepsScheduled(feed, startDay, Run(feed, s, es[..|es| - 1]).value, es[|es| - 1]);
    }
  }

  lemma InitialIsScheduled(feed: Feed, s: State, startDay: int)
    requires Initial(feed, s, startDay)
    ensures Scheduled(feed, startDay, s)
  {
  }

  lemma {:induction false} AllSlotsCount(days: seq<DayRecord>)
    ensures |AllSlots(days)| == Customers(days)
  {
    if days != [] { AllSlotsCount(days[..|days| - 1]); }
  }

  /** Checkpoint conservation, over every run and every interruption: customers completed are those of the
      completed days plus the open slot, and the next day lies as many days after the start as were completed. */
  lemma CheckpointConservation(feed: Feed, s0: State, startDay: int, es: seq<Event>, s: State)
    requires Initial(feed, s0, startDay) && Run(feed, s0, es) == Some(s)
    ensures var c := s.disk.calendar;
      && c.customersCompleted == Customers(s.audit.allDays) + c.slot
      && c.nextDay == startDay + c.daysCompleted == startDay + |s.audit.allDays|
      && startDay <= c.nextDay <= Today(s)
      && |c.days| == (if |s.audit.allDays| <= 400 then |s.audit.allDays| else 400)
      && c.days == s.audit.allDays[|s.audit.allDays| - |c.days|..]
  {
    InitialIsScheduled(feed, s0, startDay);
    RunKeepsScheduled(feed, startDay, s0, es);
    AllSlotsCount(s.audit.allDays);
    assert |References(s.audit.receipts)| == |s.audit.receipts|;
  }

  /** Exactly when the live branch keeps the balance: when the checkpoint names today, or no slot is open. */
  lemma LiveBranchConservesExactly(c: Checkpoint, days: nat, today: int)
    requires c.customersCompleted == days + c.slot
    ensures var d := LiveCalendar(c, today);
      d.customersCompleted == days + d.slot <==> c.nextDay == today || c.slot == 0
  {
  }

  /** In no reachable state does it start the count over: a day that is not historical is today. */
  lemma LiveBranchNeverStartsOver(feed: Feed, s0: State, startDay: int, es: seq<Event>, s: State)
    requires Initial(feed, s0, startDay) && Run(feed, s0, es) == Some(s) && s.process.Up?
    requires !Historical(feed, s.process.calendar.nextDay, Today(s))
    ensures s.process.calendar.nextDay == Today(s)
    ensures LiveCalendar(s.process.calendar, Today(s)) == s.process.calendar == s.disk.calendar
  {
    InitialIsScheduled(feed, s0, startDay);
    RunKeepsScheduled(feed, startDay, s0, es);
    hide Run, Initial;
  }

  ghost function Consecutive(days: seq<DayRecord>, startDay: int): bool {
    forall i | 0 <= i < |days| :: days[i].date == startDay + i
  }

  /** Which references the slots of consecutive days hold. */
  lemma {:induction false} SlotMembers(days: seq<DayRecord>, startDay: int, day: int, slot: nat)
    requires Consecutive(days, startDay)
    ensures (day, slot) in AllSlots(days) <==>
            startDay <= day < startDay + |days| && slot < days[day - startDay].customers
  {
    if days != [] {
      var init, d := days[..|days| - 1], days[|days| - 1];
      SlotMembers(init, startDay, day, slot);
      SlotsOf(d.date, d.customers, day, slot);
    }
  }

  lemma SlotsOf(date: int, slots: nat, day: int, slot: nat)
    ensures (day, slot) in DaySlots(date, slots) <==> day == date && slot < slots
  {
    if day == date && slot < slots { assert DaySlots(date, slots)[slot] == (day, slot); }
  }

  lemma DistinctConcat<T>(a: seq<T>, b: seq<T>)
    requires Distinct(a) && Distinct(b) && forall x | x in b :: x !in a
    ensures Distinct(a + b)
  {
    forall i, j | 0 <= i < j < |a + b| ensures (a + b)[i] != (a + b)[j] {
      if i < |a| <= j { assert a[i] in a && b[j - |a|] in b; }
    }
  }

  lemma {:induction false} SlotsAreDistinct(days: seq<DayRecord>, startDay: int)
    requires Consecutive(days, startDay)
    ensures Distinct(AllSlots(days))
  {
    if days != [] {
      var init, d := days[..|days| - 1], days[|days| - 1];
      SlotsAreDistinct(init, startDay);
      forall x | x in DaySlots(d.date, d.customers) ensures x !in AllSlots(init) {
        SlotMembers(init, startDay, x.0, x.1);
      }
      DistinctConcat(AllSlots(init), DaySlots(d.date, d.customers));
    }
  }

  lemma NoReferenceTwice(feed: Feed, s0: State, startDay: int, es: seq<Event>, s: State)
    requires Initial(feed, s0, startDay) && Run(feed, s0, es) == Some(s)
    ensures Distinct(References(s.audit.receipts))
  {
    InitialIsScheduled(feed, s0, startDay);
    RunKeepsScheduled(feed, startDay, s0, es);
    hide Run, Initial;
    ReferencesAreDistinct(feed, startDay, s);
  }

  /** No reference is ever completed twice, and every completed day has exactly its slots, one journey each, and at
      least the wanted volume of them. */
  lemma EveryDayIsComplete(feed: Feed, s0: State, startDay: int, es: seq<Event>, s: State, i: nat)
    requires Initial(feed, s0, startDay) && Run(feed, s0, es) == Some(s)
    requires i < |s.audit.allDays|
    ensures Distinct(References(s.audit.receipts))
    ensures var d := s.audit.allDays[i];
      && d.date == startDay + i && feed.volume(d.date) <= d.customers
      && (forall slot: nat :: (d.date, slot) in References(s.audit.receipts) <==> slot < d.customers)
  {
    InitialIsScheduled(feed, s0, startDay);
    RunKeepsScheduled(feed, startDay, s0, es);
    hide Run, Initial, Scheduled, References, Distinct;
    ReferencesAreDistinct(feed, startDay, s);
    DaysAreComplete(feed, startDay, s, i);
  }

  /** A journey's band: forced in slots 0 to 3, else left to the program. */
  function ForcedBand(slot: nat): Option<nat> {
    if slot < 4 then Some(slot % 4) else None
  }

  /** What a journey asks for is settled by its band and its visit. */
  ghost predicate Banded(feed: Feed, program: (Option<nat>, Visit) -> Script) {
    forall v :: feed.script(v) == program(ForcedBand(v.slot), v)
  }

  ghost predicate CoversBand(feed: Feed, program: (Option<nat>, Visit) -> Script, s: State, day: int, band: nat) {
    exists t | t in s.audit.receipts ::
      && t.visit.day == day && t.visit.slot == band
      && Uninterrupted(program(Some(band), t.visit), s.backend.applied, t.trace)
  }

  /** On a completed day of at least four customers each band has had one journey run through, as that band's
      program. */
  lemma EveryBandIsCovered(feed: Feed, program: (Option<nat>, Visit) -> Script, s0: State, startDay: int,
                           es: seq<Event>, s: State, i: nat, band: nat)
    requires Banded(feed, program) && Initial(feed, s0, startDay) && Run(feed, s0, es) == Some(s)
    requires i < |s.audit.allDays| && feed.volume(startDay + i) >= 4 && band < 4
    ensures CoversBand(feed, program, s, startDay + i, band)
  {
    hide Run, Initial, Uninterrupted, Distinct, References, Banded;
    EveryDayIsComplete(feed, s0, startDay, es, s, i);
    ReplayIsUninterrupted(feed, s0, startDay, es, s);
    var t := ReceiptOf(s.audit.receipts, startDay + i, band);
    BandOf(feed, program, t.visit, band);
    assert Uninterrupted(program(Some(band), t.visit), s.backend.applied, t.trace);
  }

  lemma ReceiptOf(receipts: seq<Receipt>, day: int, slot: nat) returns (t: Receipt)
    requires (day, slot) in References(receipts)
    ensures t in receipts && t.visit.day == day && t.visit.slot == slot
  {
    var k :| 0 <= k < |receipts| && References(receipts)[k] == (day, slot);
    t := receipts[k];
  }

  lemma BandOf(feed: Feed, program: (Option<nat>, Visit) -> Script, v: Visit, band: nat)
    requires Banded(feed, program) && v.slot == band < 4
    ensures feed.script(v) == program(Some(band), v)
  {
  }

  lemma ReferencesAreDistinct(feed: Feed, startDay: int, s: State)
    requires Scheduled(feed, startDay, s)
    ensures Distinct(References(s.audit.receipts))
  {
    var c, days := s.disk.calendar, s.audit.allDays;
    hide AllSlots, References;
    SlotsAreDistinct(days, startDay);
    forall x | x in DaySlots(c.nextDay, c.slot) ensures x !in AllSlots(days) {
      SlotMembers(days, startDay, x.0, x.1);
    }
    DistinctConcat(AllSlots(days), DaySlots(c.nextDay, c.slot));
  }

  lemma DaysAreComplete(feed: Feed, startDay: int, s: State, i: nat)
    requires Scheduled(feed, startDay, s) && i < |s.audit.allDays|
    ensures var d := s.audit.allDays[i];
      && d.date == startDay + i && feed.volume(d.date) <= d.customers
      && (forall slot: nat :: (d.date, slot) in References(s.audit.receipts) <==> slot < d.customers)
  {
    var c, days := s.disk.calendar, s.audit.allDays;
    hide AllSlots, References;
    forall slot: nat
      ensures (days[i].date, slot) in References(s.audit.receipts) <==> slot < days[i].customers
    {
      SlotMembers(days, startDay, days[i].date, slot);
      SlotsOf(c.nextDay, c.slot, days[i].date, slot);
    }
  }

  // ---------------------------------------------------------------- starts of journeys

  /** A start is the slot's own historical one, or was taken from the clock on the day itself. */
  predicate StartOk(day: int, slot: nat, start: int, now: int) {
    start == HistoricalStart(day, slot) || (start / DAY == day && start <= now)
  }

  ghost predicate VisitOk(feed: Feed, v: Visit, now: int) {
    && StartOk(v.day, v.slot, v.start, now)
    && if v.live then v.day >= feed.seedEnd else v.day < now / DAY && v.slot < feed.volume(v.day)
  }

  ghost predicate Started(feed: Feed, s: State) {
    && (s.disk.calendar.active.Some? ==>
          var a := s.disk.calendar.active.value; StartOk(a.day, a.slot, a.start, s.now))
    && (s.process.Up? && s.process.attempt.Some? ==> VisitOk(feed, s.process.attempt.value.visit, s.now))
    && forall t | t in s.audit.receipts :: VisitOk(feed, t.visit, s.now)
  }

  lemma VisitStaysOk(feed: Feed, v: Visit, now: int, later: int)
    requires VisitOk(feed, v, now) && now <= later
    ensures VisitOk(feed, v, later)
  {
    assert now / DAY <= later / DAY;
  }

  lemma NextVisitOk(feed: Feed, startDay: int, s: State)
    requires Scheduled(feed, startDay, s) && Started(feed, s) && Enabled(feed, s, Begin)
    ensures var v := NextVisit(feed, s.process.calendar, s.now);
      VisitOk(feed, v, s.now) && (v.live <==> !Historical(feed, v.day, Today(s)))
  {
    hide HistoricalStart, References, AllSlots;
  }

  lemma BeginKeepsStarted(feed: Feed, startDay: int, s: State)
    requires Scheduled(feed, startDay, s) && Started(feed, s) && Enabled(feed, s, Begin)
    ensures Started(feed, Apply(feed, s, Begin))
  {
    NextVisitOk(feed, startDay, s);
    hide HistoricalStart, NextVisit, VisitOk, Scheduled;
    var v := NextVisit(feed, s.process.calendar, s.now);
    assert StartOk(v.day, v.slot, v.start, s.now) by { StartOfVisit(feed, v, s.now); }
  }

  lemma StartOfVisit(feed: Feed, v: Visit, now: int)
    requires VisitOk(feed, v, now)
    ensures StartOk(v.day, v.slot, v.start, now)
  {
  }

  lemma StepKeepsStarted(feed: Feed, startDay: int, s: State, e: Event)
    requires Scheduled(feed, startDay, s) && Started(feed, s) && Enabled(feed, s, e)
    ensures Started(feed, Apply(feed, s, e))
  {
    hide HistoricalStart, VisitOk, Scheduled;
    match e
    case Begin => BeginKeepsStarted(feed, startDay, s);
    case Tick(elapsed) =>
      forall v | VisitOk(feed, v, s.now) ensures VisitOk(feed, v, s.now + elapsed) {
        VisitStaysOk(feed, v, s.now, s.now + elapsed);
      }
    case Commit =>
      var t := Apply(feed, s, e);
      forall r | r in t.audit.receipts ensures VisitOk(feed, r.visit, t.now) {
        assert r in s.audit.receipts || r == t.audit.receipts[|s.audit.receipts|];
      }
    case Save => assert Scheduled(feed, startDay, s); SavedCalendar(feed, startDay, s);
    case EndDay => SavedCalendar(feed, startDay, s);
    case _ =>
  }

  lemma SavedCalendar(feed: Feed, startDay: int, s: State)
    requires Scheduled(feed, startDay, s)
    ensures s.process.Up? ==> s.process.calendar == s.disk.calendar
  {
  }

  lemma {:induction false} RunKeepsStarted(feed: Feed, startDay: int, s: State, es: seq<Event>)
    requires Scheduled(feed, startDay, s) && Started(feed, s) && Run(feed, s, es).Some?
    ensures Started(feed, Run(feed, s, es).value)
  {
    hide Enabled, Apply, Scheduled, Started;
    if es != [] {
      var init := es[..|es| - 1];
      RunKeepsStarted(feed, startDay, s, init);
      RunKeepsScheduled(feed, startDay, s, init);
      StepKeepsStarted(feed, startDay, Run(feed, s, init).value, es[|es| - 1]);
    }
  }

  /** Every journey begun in a run starts at its slot's own time of day, or at a moment of its own day that has
      come; a historical one belongs to a day that is over, and to a slot below the day's volume. */
  lemma StartsAreOk(feed: Feed, s0: State, startDay: int, es: seq<Event>, s: State)
    requires Initial(feed, s0, startDay) && Run(feed, s0, es) == Some(s)
    ensures Scheduled(feed, startDay, s) && Started(feed, s)
  {
    InitialIsScheduled(feed, s0, startDay);
    RunKeepsScheduled(feed, startDay, s0, es);
    RunKeepsStarted(feed, startDay, s0, es);
    hide Run, Scheduled;
  }

  // ---------------------------------------------------------------- counters

  function Earned(feed: Feed, receipts: seq<Receipt>): Tally {
    if receipts == [] then ZERO
    else
      var t := receipts[|receipts| - 1];
      Plus(Earned(feed, receipts[..|receipts| - 1]), Total(feed.script(t.visit), t.trace))
  }

  ghost predicate CountedOnce(feed: Feed, s: State) {
    && (s.process.Up? ==> s.process.calendar == s.disk.calendar)
    && (Running(s) ==>
          var a := s.process.attempt.value; var active := s.disk.calendar.active;
          && active.Some?
          && active.value.day == a.visit.day && active.value.slot == a.visit.slot && active.value.start == a.visit.start
          && s.process.tally == Plus(active.value.tally, Total(feed.script(a.visit), a.history)))
    && (forall t | t in s.audit.receipts :: t.after == Plus(t.before, Total(feed.script(t.visit), t.trace)))
  }

  /** The counters stand for the completed journeys: in the checkpoint while a journey is open, else in memory or,
      with no process, in status.json. */
  ghost predicate Accurate(feed: Feed, s: State) {
    var earned := Earned(feed, s.audit.receipts);
    match s.disk.calendar.active
    case Some(active) => active.tally == earned
    case None => (if s.process.Up? then s.process.tally else s.disk.status) == earned
  }

  ghost predicate InBalance(feed: Feed, s: State) {
    s.audit.exact ==> Accurate(feed, s)
  }

  /** A kill between journeys with counters not saved, or a journey left for another with something counted. */
  ghost predicate Miscounts(feed: Feed, s: State, e: Event) {
    match e
    case Crash => !Recoverable(s)
    case Begin =>
      s.process.Up? &&
      var c, v := s.process.calendar, NextVisit(feed, s.process.calendar, s.now);
      !Accounted(if v.live then LiveCalendar(c, Today(s)) else c, v, s.process.tally)
    case _ => false
  }

  lemma StepKeepsCounts(feed: Feed, s: State, e: Event)
    requires CountedOnce(feed, s) && Enabled(feed, s, e)
    ensures CountedOnce(feed, Apply(feed, s, e))
  {
    var t := Apply(feed, s, e);
    if e.Commit? {
      var a := s.process.attempt.value;
      forall r | r in t.audit.receipts ensures r.after == Plus(r.before, Total(feed.script(r.visit), r.trace)) {
        assert r in s.audit.receipts || r == t.audit.receipts[|s.audit.receipts|];
      }
    } else {
      assert t.audit.receipts == s.audit.receipts;
      if Running(s) && Running(t) && (e.FromJournal? || e.Confirm? || e.Fail?) {
        var a, b := s.process.attempt.value, t.process.attempt.value;
        var x := b.history[|b.history| - 1];
        FollowsAppend(feed.script(a.visit), a.history, x);
        PlusAssoc(s.disk.calendar.active.value.tally, Total(feed.script(a.visit), a.history),
                  feed.script(a.visit).gain(b.history));
      } else if e.Begin? {
        PlusZero(t.process.tally);
      }
    }
  }

  lemma PlusAssoc(a: Tally, b: Tally, c: Tally)
    ensures Plus(Plus(a, b), c) == Plus(a, Plus(b, c))
  {
  }

  lemma PlusZero(a: Tally)
    ensures Plus(a, ZERO) == a
  {
  }

  lemma BeginAccurately(feed: Feed, s: State)
    requires CountedOnce(feed, s) && Accurate(feed, s) && Enabled(feed, s, Begin)
    ensures Accurate(feed, Apply(feed, s, Begin)) <==> !Miscounts(feed, s, Begin)
    ensures Apply(feed, s, Begin).audit.exact <==> s.audit.exact && !Miscounts(feed, s, Begin)
  {
    hide Earned;
  }

  lemma CommitAccurately(feed: Feed, s: State)
    requires CountedOnce(feed, s) && Accurate(feed, s) && Enabled(feed, s, Commit)
    ensures Accurate(feed, Apply(feed, s, Commit))
  {
    var t := Apply(feed, s, Commit);
    assert t.audit.receipts[..|t.audit.receipts| - 1] == s.audit.receipts;
  }

  /** Accurate counters stay accurate over a step exactly when it does not miscount. */
  lemma StepMiscountsExactly(feed: Feed, s: State, e: Event)
    requires CountedOnce(feed, s) && Accurate(feed, s) && Enabled(feed, s, e)
    ensures Accurate(feed, Apply(feed, s, e)) <==> !Miscounts(feed, s, e)
    ensures Apply(feed, s, e).audit.exact <==> s.audit.exact && !Miscounts(feed, s, e)
  {
    match e
    case Begin => BeginAccurately(feed, s);
    case Commit => CommitAccurately(feed, s);
    case _ =>
      assert Apply(feed, s, e).audit.receipts == s.audit.receipts;
      hide Earned, CountedOnce;
  }

  lemma StepKeepsBalance(feed: Feed, s: State, e: Event)
    requires CountedOnce(feed, s) && InBalance(feed, s) && Enabled(feed, s, e)
    ensures InBalance(feed, Apply(feed, s, e))
  {
    hide CountedOnce, Accurate, Miscounts;
    if s.audit.exact {
      StepMiscountsExactly(feed, s, e);
    } else {
      hide Enabled;
    }
  }

  lemma {:induction false} RunKeepsCounts(feed: Feed, s: State, es: seq<Event>)
    requires CountedOnce(feed, s) && InBalance(feed, s) && Run(feed, s, es).Some?
    ensures CountedOnce(feed, Run(feed, s, es).value) && InBalance(feed, Run(feed, s, es).value)
  {
    hide Enabled, Apply, CountedOnce, InBalance;
    if es != [] {
      var init := es[..|es| - 1];
      RunKeepsCounts(feed, s, init);
      StepKeepsCounts(feed, Run(feed, s, init).value, es[|es| - 1]);
      StepKeepsBalance(feed, Run(feed, s, init).value, es[|es| - 1]);
    }
  }

  /** Replay does not double count: a completed journey adds to the snapshot taken when it began exactly what
      one uninterrupted run of it counts. While nothing has miscounted, the counters are the sum over the completed
      journeys. */
  lemma ReplayCountsOnce(feed: Feed, s0: State, startDay: int, es: seq<Event>, s: State)
    requires Initial(feed, s0, startDay) && Run(feed, s0, es) == Some(s)
    ensures forall t | t in s.audit.receipts :: t.after == Plus(t.before, Total(feed.script(t.visit), t.trace))
    ensures s.audit.exact ==> Accurate(feed, s)
  {
    RunKeepsCounts(feed, s0, es);
    hide Accurate, Earned, Run;
  }

  /** When accurate counters go wrong, in any reachable state: exactly at a kill between journeys with counters not
      yet in status.json, or when a journey is begun in place of an open one that has counted something. */
  lemma CountersLagExactly(feed: Feed, s0: State, startDay: int, es: seq<Event>, s: State, e: Event)
    requires Initial(feed, s0, startDay) && Run(feed, s0, es) == Some(s)
    requires Accurate(feed, s) && Enabled(feed, s, e)
    ensures Accurate(feed, Apply(feed, s, e)) <==> !Miscounts(feed, s, e)
    ensures e == Crash && s.process.Up? && s.disk.calendar.active.None? ==>
      (Apply(feed, Apply(feed, s, e), Restart).process.tally == Earned(feed, s.audit.receipts) <==>
       s.disk.status == s.process.tally)
  {
    RunKeepsCounts(feed, s0, es);
    hide Run, Initial, CountedOnce;
    StepMiscountsExactly(feed, s, e);
    hide Miscounts, Earned, Enabled;
  }

  // ---------------------------------------------------------------- crash-only runs leave no trace

  /** None of the journey's possible requests has taken effect yet. */
  ghost predicate Unasked(script: Script, log: seq<Request>) {
    forall h | Follows(script, h) && script.next(h).Send? :: script.next(h).request !in log
  }

  ghost predicate NeverAsked(script: Script, foreign: set<Request>) {
    forall h | Follows(script, h) && script.next(h).Send? :: script.next(h).request !in foreign
  }

  /** A log without requests of other journeys that were still under way. */
  ghost function Own(log: seq<Request>, foreign: set<Request>): seq<Request> {
    if log == [] then []
    else
      var last := log[|log| - 1];
      Own(log[..|log| - 1], foreign) + (if last in foreign then [] else [last])
  }

  lemma OwnAppend(log: seq<Request>, r: Request, foreign: set<Request>)
    ensures Own(log + [r], foreign) == Own(log, foreign) + (if r in foreign then [] else [r])
  {
    assert (log + [r])[..|log + [r]| - 1] == log;
  }

  lemma {:induction false} OwnHas(log: seq<Request>, foreign: set<Request>, r: Request)
    ensures r in Own(log, foreign) <==> r in log && r !in foreign
  {
    if log != [] {
      OwnHas(log[..|log| - 1], foreign, r);
      assert log == log[..|log| - 1] + [log[|log| - 1]];
    }
  }

  lemma {:induction false} OwnIsDistinct(log: seq<Request>, foreign: set<Request>)
    requires Distinct(log)
    ensures Distinct(Own(log, foreign))
  {
    if log != [] {
      var init, last := log[..|log| - 1], log[|log| - 1];
      OwnIsDistinct(init, foreign);
      OwnHas(init, foreign, last);
      assert last !in init;
    }
  }

  lemma {:induction false} OwnOfOwn(log: seq<Request>, foreign: set<Request>)
    requires forall r | r in log :: r !in foreign
    ensures Own(log, foreign) == log
  {
    if log != [] {
      assert log == log[..|log| - 1] + [log[|log| - 1]];
      OwnOfOwn(log[..|log| - 1], foreign);
    }
  }

  /** Events of attempts at one visit in which a failing call ends the attempt. */
  ghost predicate Devoted(feed: Feed, v: Visit, s: State, e: Event) {
    && Enabled(feed, s, e)
    && (e.Begin? ==> NextVisit(feed, s.process.calendar, s.now) == v)
    && (e.Fail? ==> !Move(feed, s.process.attempt.value).caught)
    && !e.Commit? && !e.Unlink?
  }

  ghost predicate DevotedRun(feed: Feed, v: Visit, s: State, es: seq<Event>)
    ensures DevotedRun(feed, v, s, es) ==> Run(feed, s, es).Some?
  {
    es == [] ||
    (DevotedRun(feed, v, s, es[..|es| - 1]) && Devoted(feed, v, Run(feed, s, es[..|es| - 1]).value, es[|es| - 1]))
  }

  /** What the backend holds beyond `log0` is what the furthest attempt `m` asked for, in that order, possibly
      followed by the one call that has arrived but is not journaled. */
  ghost predicate Reached(script: Script, log0: seq<Request>, m: seq<Exchange>, log: seq<Request>) {
    log == log0 + FirstAsked(m) ||
    (script.next(m).Send? && log == log0 + FirstAsked(m) + [script.next(m).request])
  }

  ghost predicate Frontier(feed: Feed, v: Visit, log0: seq<Request>, foreign: set<Request>, m: seq<Exchange>,
                           s: State) {
    var script := feed.script(v);
    && OnceEach(s.backend)
    && Unasked(script, log0) && NeverAsked(script, foreign)
    && Follows(script, m)
    && AnsweredBy(m, s.disk.journal)
    && (forall r | r in s.disk.journal :: r in log0 || r in FirstAsked(m))
    && Reached(script, log0, m, Own(s.backend.log, foreign))
    && (forall r | r in s.backend.wire ::
          r in s.backend.log || r in foreign || (script.next(m).Send? && r == script.next(m).request))
    && (s.process.Up? && s.process.attempt.Some? ==>
          var a := s.process.attempt.value;
          a.visit == v && a.history <= m && a.journal == s.disk.journal && !a.doomed && !a.committed)
  }

  lemma AskingIsAtFrontier(feed: Feed, v: Visit, log0: seq<Request>, foreign: set<Request>, m: seq<Exchange>, s: State)
    requires Frontier(feed, v, log0, foreign, m, s) && Running(s) && Move(feed, s.process.attempt.value).Send?
    ensures var a := s.process.attempt.value; var r := Move(feed, a).request;
      if |a.history| < |m| then
        r == m[|a.history|].request && r in a.journal && m[|a.history|].outcome == Returned(a.journal[r])
      else a.history == m && (r in a.journal <==> r in FirstAsked(m))
  {
    var a := s.process.attempt.value;
    if |a.history| < |m| {
      FollowsPrefix(feed.script(v), m, |a.history|);
      assert m[..|a.history|] == a.history;
      assert m[|a.history|] in m;
    } else {
      assert a.history == m;
      var r := Move(feed, a).request;
      FirstAskedHas(m, r);
      assert r !in log0;
      if r in FirstAsked(m) {
        var x :| x in m && x.request == r;
      }
    }
  }

  lemma ExtendHistory(h: seq<Exchange>, m: seq<Exchange>, x: Exchange)
    requires h <= m && (|h| < |m| ==> x == m[|h|])
    ensures |h| < |m| ==> h + [x] <= m
    ensures |h| == |m| ==> h + [x] == m + [x]
  {
  }

  lemma FromJournalKeepsFrontier(feed: Feed, v: Visit, log0: seq<Request>, foreign: set<Request>, m: seq<Exchange>,
                                 s: State)
    returns (m': seq<Exchange>)
    requires Frontier(feed, v, log0, foreign, m, s) && Enabled(feed, s, FromJournal)
    ensures Frontier(feed, v, log0, foreign, m', Apply(feed, s, FromJournal))
  {
    AskingIsAtFrontier(feed, v, log0, foreign, m, s);
    var a := s.process.attempt.value;
    var r := Move(feed, a).request;
    var x := Exchange(r, Returned(a.journal[r]));
    ExtendHistory(a.history, m, x);
    if |a.history| < |m| {
      m' := m;
    } else {
      m' := m + [x];
      FollowsAppend(feed.script(v), m, x);
      assert r in FirstAsked(m);
      OwnHas(s.backend.log, foreign, r);
      assert Own(s.backend.log, foreign) == log0 + FirstAsked(m) by { PendingIsNew(feed, v, log0, foreign, m, s); }
    }
  }

  /** The pending request is not one of those already journaled. */
  lemma PendingIsNew(feed: Feed, v: Visit, log0: seq<Request>, foreign: set<Request>, m: seq<Exchange>, s: State)
    requires Frontier(feed, v, log0, foreign, m, s) && feed.script(v).next(m).Send?
    ensures var r := feed.script(v).next(m).request; var log := Own(s.backend.log, foreign);
      && (r in FirstAsked(m) ==> log == log0 + FirstAsked(m))
      && (r in s.backend.log && r !in FirstAsked(m) ==> log == log0 + FirstAsked(m) + [r])
  {
    var r, log := feed.script(v).next(m).request, Own(s.backend.log, foreign);
    assert r !in log0 && r !in foreign;
    OwnHas(s.backend.log, foreign, r);
    OwnIsDistinct(s.backend.log, foreign);
    if log == log0 + FirstAsked(m) + [r] {
      LastIsNew(log, log0, FirstAsked(m), r);
    }
  }

  lemma LastIsNew(log: seq<Request>, before: seq<Request>, f: seq<Request>, r: Request)
    requires Distinct(log) && log == before + f + [r]
    ensures r !in f
  {
    forall i | 0 <= i < |f| ensures f[i] != r {
      assert log[|before| + i] == f[i] && log[|before| + |f|] == r;
    }
  }

  /** The call being confirmed is the one after the furthest attempt, and nothing has arrived beyond it. */
  lemma ConfirmedIsNext(feed: Feed, v: Visit, log0: seq<Request>, foreign: set<Request>, m: seq<Exchange>, s: State)
    requires Frontier(feed, v, log0, foreign, m, s) && Enabled(feed, s, Confirm)
    ensures s.process.attempt.value.history == m
    ensures feed.script(v).next(m).Send?
    ensures var r := feed.script(v).next(m).request;
      && r == Move(feed, s.process.attempt.value).request
      && r !in FirstAsked(m)
      && Own(s.backend.log, foreign) == log0 + FirstAsked(m) + [r]
  {
    AskingIsAtFrontier(feed, v, log0, foreign, m, s);
    PendingIsNew(feed, v, log0, foreign, m, s);
  }

  /** The frontier moves on by one call that the journal now answers. */
  lemma FrontierMoves(feed: Feed, v: Visit, log0: seq<Request>, foreign: set<Request>, m: seq<Exchange>, s: State,
                      t: State, r: Request, response: Response)
    requires Frontier(feed, v, log0, foreign, m, s) && Running(s)
    requires feed.script(v).next(m).Send? && feed.script(v).next(m).request == r && r !in FirstAsked(m)
    requires Own(s.backend.log, foreign) == log0 + FirstAsked(m) + [r] && r in s.backend.log
    requires t.backend == s.backend && t.disk.journal == s.disk.journal[r := response] && t.process.Up?
    requires t.process.attempt ==
      Some(s.process.attempt.value.(history := m + [Exchange(r, Returned(response))], journal := t.disk.journal))
    ensures Frontier(feed, v, log0, foreign, m + [Exchange(r, Returned(response))], t)
  {
    hide OnceEach, Unasked, NeverAsked, AnsweredBy, Own, FirstAsked, Follows;
    var n := m + [Exchange(r, Returned(response))];
    FollowsAppend(feed.script(v), m, Exchange(r, Returned(response)));
    StillAnswered(m, s.disk.journal, r, response);
    assert log0 + (FirstAsked(m) + [r]) == log0 + FirstAsked(m) + [r];
    forall q | q in t.disk.journal ensures q in log0 || q in FirstAsked(n) {
      assert q in s.disk.journal || q == r;
    }
  }

  lemma ConfirmKeepsFrontier(feed: Feed, v: Visit, log0: seq<Request>, foreign: set<Request>, m: seq<Exchange>,
                             s: State)
    returns (m': seq<Exchange>)
    requires Frontier(feed, v, log0, foreign, m, s) && Enabled(feed, s, Confirm)
    ensures Frontier(feed, v, log0, foreign, m', Apply(feed, s, Confirm))
  {
    ConfirmedIsNext(feed, v, log0, foreign, m, s);
    var r := Move(feed, s.process.attempt.value).request;
    assert s.process.attempt.value.journal == s.disk.journal && r in s.backend.log by {
      OwnHas(s.backend.log, foreign, r);
    }
    hide Frontier, Own, FirstAsked;
    FrontierMoves(feed, v, log0, foreign, m, s, Apply(feed, s, Confirm), r, s.backend.applied[r]);
    m' := m + [Exchange(r, Returned(s.backend.applied[r]))];
  }

  lemma StillAnswered(m: seq<Exchange>, journal: map<Request, Response>, r: Request, response: Response)
    requires AnsweredBy(m, journal) && r !in FirstAsked(m)
    ensures AnsweredBy(m + [Exchange(r, Returned(response))], journal[r := response])
  {
    var x := Exchange(r, Returned(response));
    forall y | y in m + [x] ensures y.request in journal[r := response]
      && y.outcome == Returned(journal[r := response][y.request])
    {
      assert y in m || y == x;
      if y in m { FirstAskedHas(m, y.request); }
    }
  }

  lemma ArriveKeepsFrontier(feed: Feed, v: Visit, log0: seq<Request>, foreign: set<Request>, m: seq<Exchange>,
                            s: State, e: Event)
    requires Frontier(feed, v, log0, foreign, m, s) && Enabled(feed, s, e) && e.Arrive?
    ensures Frontier(feed, v, log0, foreign, m, Apply(feed, s, e))
  {
    var r := e.request;
    if r !in s.backend.applied {
      OwnAppend(s.backend.log, r, foreign);
      if r !in foreign {
        PendingIsNew(feed, v, log0, foreign, m, s);
        OwnHas(s.backend.log, foreign, r);
      }
    }
    hide Own;
  }

  lemma StepKeepsFrontier(feed: Feed, v: Visit, log0: seq<Request>, foreign: set<Request>, m: seq<Exchange>, s: State,
                          e: Event)
    returns (m': seq<Exchange>)
    requires Frontier(feed, v, log0, foreign, m, s) && Devoted(feed, v, s, e)
    ensures Frontier(feed, v, log0, foreign, m', Apply(feed, s, e))
  {
    m' := m;
    match e
    case FromJournal => m' := FromJournalKeepsFrontier(feed, v, log0, foreign, m, s);
    case Confirm => m' := ConfirmKeepsFrontier(feed, v, log0, foreign, m, s);
    case Arrive(_, _) => ArriveKeepsFrontier(feed, v, log0, foreign, m, s, e);
    case Transmit => AskingIsAtFrontier(feed, v, log0, foreign, m, s);
    case Fail => AskingIsAtFrontier(feed, v, log0, foreign, m, s);
    case Begin => assert [] <= m;
    case _ =>
  }

  lemma {:induction false} RunKeepsFrontier(feed: Feed, v: Visit, foreign: set<Request>, s: State, es: seq<Event>)
    returns (m: seq<Exchange>)
    requires Frontier(feed, v, Own(s.backend.log, foreign), foreign, [], s) && DevotedRun(feed, v, s, es)
    ensures Frontier(feed, v, Own(s.backend.log, foreign), foreign, m, Run(feed, s, es).value)
  {
    hide Devoted, Enabled, Apply, Frontier, Own;
    m := [];
    if es != [] {
      var init := es[..|es| - 1];
      m := RunKeepsFrontier(feed, v, foreign, s, init);
      DevotedStep(feed, v, s, es);
      m := StepKeepsFrontier(feed, v, Own(s.backend.log, foreign), foreign, m, Run(feed, s, init).value, es[|es| - 1]);
    }
  }

  lemma DevotedStep(feed: Feed, v: Visit, s: State, es: seq<Event>)
    requires DevotedRun(feed, v, s, es) && es != []
    ensures var init := es[..|es| - 1];
      && Devoted(feed, v, Run(feed, s, init).value, es[|es| - 1])
      && Enabled(feed, Run(feed, s, init).value, es[|es| - 1])
      && Run(feed, s, es) == Some(Apply(feed, Run(feed, s, init).value, es[|es| - 1]))
  {
  }

  /** Kills and aborting failures leave no trace: however often a journey is killed, retried or waits for late
      arrivals, its own and those of other journeys still under way, when it commits the backend has executed exactly
      the requests of its uninterrupted run, once each and in the order that run makes them. */
  lemma CrashOnlyReplayIsInvisible(feed: Feed, v: Visit, foreign: set<Request>, s: State, es: seq<Event>, t: State)
    requires Traced(feed, s) && s.process.Up? && s.process.attempt.None?
    requires forall r :: r in foreign <==> r in s.backend.wire && r !in s.backend.log
    requires Unasked(feed.script(v), s.backend.log) && NeverAsked(feed.script(v), foreign)
    requires DevotedRun(feed, v, s, es) && Run(feed, s, es) == Some(t) && Enabled(feed, t, Commit)
    ensures var h := t.process.attempt.value.history;
      && t.process.attempt.value.visit == v
      && Own(t.backend.log, foreign) == s.backend.log + FirstAsked(h)
      && Uninterrupted(feed.script(v), t.backend.applied, h)
  {
    OwnOfOwn(s.backend.log, foreign);
    StartsAtFrontier(feed, v, foreign, s);
    var m := RunKeepsFrontier(feed, v, foreign, s, es);
    RunKeepsTraced(feed, s, es);
    hide Run, Own;
    FrontierIsDone(feed, v, s.backend.log, foreign, m, t);
    CommittedRun(feed, t);
  }

  lemma FrontierIsDone(feed: Feed, v: Visit, log0: seq<Request>, foreign: set<Request>, m: seq<Exchange>, t: State)
    requires Frontier(feed, v, log0, foreign, m, t) && Enabled(feed, t, Commit)
    ensures var a := t.process.attempt.value;
      a.visit == v && a.history == m && Own(t.backend.log, foreign) == log0 + FirstAsked(m)
  {
    var a := t.process.attempt.value;
    hide OnceEach, Unasked, NeverAsked, AnsweredBy;
    if |a.history| < |m| {
      ShorterStillSends(feed.script(v), a.history, m);
      assert false;
    }
    assert a.history == m;
  }

  lemma CommittedRun(feed: Feed, t: State)
    requires Traced(feed, t) && Enabled(feed, t, Commit)
    ensures var a := t.process.attempt.value; Uninterrupted(feed.script(a.visit), t.backend.applied, a.history)
  {
    CommitKeepsTraced(feed, t);
    var u := Apply(feed, t, Commit);
    assert u.audit.receipts[|t.audit.receipts|] in u.audit.receipts;
    hide OnceEach, Uninterrupted;
  }

  lemma ShorterStillSends(script: Script, h: seq<Exchange>, m: seq<Exchange>)
    requires Follows(script, m) && h <= m && |h| < |m|
    ensures script.next(h).Send?
  {
    FollowsPrefix(script, m, |h|);
    assert m[..|h|] == h;
  }

  lemma StartsAtFrontier(feed: Feed, v: Visit, foreign: set<Request>, s: State)
    requires Traced(feed, s) && s.process.Up? && s.process.attempt.None?
    requires forall r :: r in foreign <==> r in s.backend.wire && r !in s.backend.log
    requires Unasked(feed.script(v), s.backend.log) && NeverAsked(feed.script(v), foreign)
    ensures Frontier(feed, v, Own(s.backend.log, foreign), foreign, [], s)
  {
    OwnOfOwn(s.backend.log, foreign);
    assert s.backend.log + FirstAsked([]) == s.backend.log;
  }

  /** Exactly when an interrupted journey is taken up again as the same program: a live one, while it is still
      its own day. After midnight it is re-run as a historical one, with other business times. */
  lemma ResumesSameVisitExactly(feed: Feed, s0: State, startDay: int, es: seq<Event>, s: State, later: int)
    requires Initial(feed, s0, startDay) && Run(feed, s0, es) == Some(s) && Running(s) && later >= s.now
    ensures var v := s.process.attempt.value.visit;
      NextVisit(feed, s.disk.calendar, later) == v <==> (v.live ==> later / DAY == v.day)
  {
    StartsAreOk(feed, s0, startDay, es, s);
    RunKeepsCounts(feed, s0, es);
    hide Run, Initial, InBalance;
    SameVisit(feed, startDay, s, later);
    hide *;
  }

  lemma SameVisit(feed: Feed, startDay: int, s: State, later: int)
    requires Scheduled(feed, startDay, s) && Started(feed, s) && CountedOnce(feed, s) && Running(s) && later >= s.now
    ensures var v := s.process.attempt.value.visit;
      NextVisit(feed, s.disk.calendar, later) == v <==> (v.live ==> later / DAY == v.day)
  {
    assert s.now / DAY <= later / DAY;
    hide References, AllSlots, HistoricalStart;
  }

  /** Slots of a day start between nine and nineteen o'clock, thirteen seconds apart until the last of these ten hours
      is full; two of them start together exactly when 36000 slots or a multiple lie between them. */
  lemma SlotsStartTogetherExactly(day: int, a: nat, b: nat)
    ensures day * DAY + 9 * 3_600_000 <= HistoricalStart(day, a) < day * DAY + 19 * 3_600_000
    ensures 13 * a < 36_000 ==> HistoricalStart(day, a) == day * DAY + 9 * 3_600_000 + 13_000 * a
    ensures HistoricalStart(day, a) == HistoricalStart(day, b) <==> (a - b) % 36_000 == 0
  {
    SameResidue36000(13 * a, 13 * b);
    ThirteenIsPrime(a - b);
  }

  lemma ThirteenIsPrime(d: int)
    ensures (13 * d) % 36_000 == 0 <==> d % 36_000 == 0
  {
    Whole(13 * d);
    Whole(d);
    if (13 * d) % 36_000 == 0 {
      Multiple(11_077 * (13 * d / 36_000) - 4 * d);
    } else if d % 36_000 == 0 {
      Multiple(13 * (d / 36_000));
    }
  }

  lemma Whole(x: int)
    ensures x % 36_000 == 0 ==> x == 36_000 * (x / 36_000)
  {
  }

  lemma Multiple(q: int)
    ensures (36_000 * q) % 36_000 == 0
  {
  }

  lemma SameResidue36000(x: int, y: int)
    ensures x % 36_000 == y % 36_000 <==> (x - y) % 36_000 == 0
  {
  }
}
