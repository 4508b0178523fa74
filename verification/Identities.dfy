/** Customers of a whole run: the numbers made from the days and slots of its journeys never repeat. */
module Identities {
  import opened Wrappers
  import opened Runs
  import opened Journeys
  import opened Replay
  import opened ReplayTheorems
  import opened ReplayFindings
  import opened Calendar

  const LAST_ORDINAL := 3_652_059

  lemma LastOrdinal()
    ensures Ordinal(Date(MAX_YEAR, 12, 31)) == LAST_ORDINAL
  {
  }

  /** The date of an ordinal: each is that of exactly one date. */
  function DateOf(n: int): (d: Date)
    requires 1 <= n <= LAST_ORDINAL
    ensures Calendar.Valid(d) && Ordinal(d) == n
  {
    LastOrdinal();
    if n == 1 then Date(MIN_YEAR, 1, 1)
    else
      var before := DateOf(n - 1);
      NextDayIsNext(before);
      NextDay(before)
  }

  /** The feed's daily volume is the calendar's: a baseline the arguments allow, a wave and a jitter per day. */
  ghost predicate ByCalendar(feed: Feed, base: int, weekend: int -> bool, wave: int -> real, jitter: int -> real) {
    && 4 <= base <= 10000
    && forall day :: feed.volume(day) == Volume(base, weekend(day), wave(day), jitter(day))
         && -1.0 <= wave(day) <= 1.0 && 0.9 <= jitter(day) <= 1.1
  }

  lemma DailyVolume(feed: Feed, base: int, weekend: int -> bool, wave: int -> real, jitter: int -> real, day: int)
    requires ByCalendar(feed, base, weekend, wave, jitter)
    ensures 4 <= feed.volume(day) < SLOTS
  {
    VolumeInRange(base, weekend(day), wave(day), jitter(day));
    assert feed.volume(day) == Volume(base, weekend(day), wave(day), jitter(day));
    hide Volume;
  }

  /** Every completed day of a run has had each of the four bands run through. */
  lemma EveryDayCoversTheBands(feed: Feed, base: int, weekend: int -> bool, wave: int -> real, jitter: int -> real,
                               program: (Option<nat>, Visit) -> Script, s0: State, startDay: int, es: seq<Event>,
                               s: State, i: nat, band: nat)
    requires ByCalendar(feed, base, weekend, wave, jitter) && Banded(feed, program)
    requires Initial(feed, s0, startDay) && Run(feed, s0, es) == Some(s) && i < |s.audit.allDays| && band < 4
    ensures CoversBand(feed, program, s, startDay + i, band)
  {
    hide *;
    DailyVolume(feed, base, weekend, wave, jitter, startDay + i);
    EveryBandIsCovered(feed, program, s0, startDay, es, s, i, band);
  }

  /** The date of a visit is on the calendar, day 0 of the run being the given ordinal. */
  predicate Dated(epoch: int, v: Visit) {
    1 <= epoch + v.day <= LAST_ORDINAL
  }

  function DateDigitsOf(epoch: int, v: Visit): int
    requires Dated(epoch, v)
  {
    DateDigits(DateOf(epoch + v.day))
  }

  function NumberOf(epoch: int, v: Visit): int
    requires Dated(epoch, v)
  {
    CustomerNumber(DateOf(epoch + v.day), v.slot)
  }

  lemma VisitsDiffer(receipts: seq<Receipt>, i: nat, j: nat)
    requires i < j < |receipts| && Distinct(References(receipts))
    ensures receipts[i].visit.day != receipts[j].visit.day || receipts[i].visit.slot != receipts[j].visit.slot
  {
    var refs := References(receipts);
    assert refs[i] == (receipts[i].visit.day, receipts[i].visit.slot);
    assert refs[j] == (receipts[j].visit.day, receipts[j].visit.slot);
  }

  lemma DatesDiffer(m: int, n: int)
    requires 1 <= m <= LAST_ORDINAL && 1 <= n <= LAST_ORDINAL && m != n
    ensures DateOf(m) != DateOf(n)
  {
    hide Ordinal;
  }

  lemma NumbersDiffer(epoch: int, a: Visit, b: Visit)
    requires Dated(epoch, a) && Dated(epoch, b) && a.slot < SLOTS && b.slot < SLOTS
    requires a.day != b.day || a.slot != b.slot
    ensures NumberOf(epoch, a) != NumberOf(epoch, b)
  {
    hide CustomerNumber, Ordinal, DateOf, Calendar.Valid;
    if a.day != b.day { DatesDiffer(epoch + a.day, epoch + b.day); }
    CustomerNumbersAreDistinct(DateOf(epoch + a.day), a.slot, DateOf(epoch + b.day), b.slot);
  }

  lemma SlotFits(feed: Feed, base: int, weekend: int -> bool, wave: int -> real, jitter: int -> real, v: Visit,
                 now: int)
    requires ByCalendar(feed, base, weekend, wave, jitter) && VisitOk(feed, v, now) && !v.live
    ensures v.slot < SLOTS
  {
    DailyVolume(feed, base, weekend, wave, jitter, v.day);
    hide ByCalendar;
  }

  /** Exactly when two completed journeys of a run get the same customer number: when their slots differ by a hundred
      thousand for every unit between the digits of their dates. One of them is then a live journey whose slot does
      not fit five digits, so customers whose slots fit have numbers of their own. */
  lemma NumbersCollideExactly(feed: Feed, base: int, weekend: int -> bool, wave: int -> real, jitter: int -> real,
                              s0: State, startDay: int, es: seq<Event>, s: State, epoch: int, i: nat, j: nat)
    requires ByCalendar(feed, base, weekend, wave, jitter)
    requires Initial(feed, s0, startDay) && Run(feed, s0, es) == Some(s) && i < j < |s.audit.receipts|
    requires Dated(epoch, s.audit.receipts[i].visit) && Dated(epoch, s.audit.receipts[j].visit)
    ensures var a, b := s.audit.receipts[i].visit, s.audit.receipts[j].visit;
      && (NumberOf(epoch, a) == NumberOf(epoch, b) <==>
          a.slot - b.slot == SLOTS * (DateDigitsOf(epoch, b) - DateDigitsOf(epoch, a)))
      && (NumberOf(epoch, a) == NumberOf(epoch, b) ==> (a.live && a.slot >= SLOTS) || (b.live && b.slot >= SLOTS))
  {
    var a, b := s.audit.receipts[i].visit, s.audit.receipts[j].visit;
    assert NumberOf(epoch, a) - NumberOf(epoch, b) ==
      SLOTS * (DateDigitsOf(epoch, a) - DateDigitsOf(epoch, b)) + a.slot - b.slot;
    hide Dated, NumberOf, DateDigitsOf, Initial, Run, ByCalendar;
    NoReferenceTwice(feed, s0, startDay, es, s);
    StartsAreOk(feed, s0, startDay, es, s);
    VisitsDiffer(s.audit.receipts, i, j);
    if !a.live { SlotFits(feed, base, weekend, wave, jitter, a, s.now); }
    if !b.live { SlotFits(feed, base, weekend, wave, jitter, b, s.now); }
    if a.slot < SLOTS && b.slot < SLOTS { NumbersDiffer(epoch, a, b); }
  }

  /** Over any run, with any crashes and retries, no two completed journeys whose slots fit get the same number; those
      of historical journeys always fit. */
  lemma CustomersOfARunAreDistinct(feed: Feed, base: int, weekend: int -> bool, wave: int -> real, jitter: int -> real,
                                   s0: State, startDay: int, es: seq<Event>, s: State, epoch: int, i: nat, j: nat)
    requires ByCalendar(feed, base, weekend, wave, jitter)
    requires Initial(feed, s0, startDay) && Run(feed, s0, es) == Some(s) && i < j < |s.audit.receipts|
    requires Dated(epoch, s.audit.receipts[i].visit) && Dated(epoch, s.audit.receipts[j].visit)
    requires s.audit.receipts[i].visit.live ==> s.audit.receipts[i].visit.slot < SLOTS
    requires s.audit.receipts[j].visit.live ==> s.audit.receipts[j].visit.slot < SLOTS
    ensures NumberOf(epoch, s.audit.receipts[i].visit) != NumberOf(epoch, s.audit.receipts[j].visit)
  {
    hide Dated, NumberOf, DateDigitsOf, Initial, Run, ByCalendar;
    NumbersCollideExactly(feed, base, weekend, wave, jitter, s0, startDay, es, s, epoch, i, j);
  }

  /** The feed of quiet journeys is one the calendar allows. */
  lemma IdleByCalendar()
    ensures ByCalendar(IDLE, 4, day => false, day => 0.0, day => 1.0)
  {
    assert Unrounded(4, false, 0.0, 1.0) == 4.0;
  }

  /** A run with a hundred thousand and one customers on its first day, which is live and not the last of its month:
      the last of them and the first customer of the next day have one number. */
  lemma NumbersRepeat(epoch: int) returns (es: seq<Event>, s: State)
    requires 1 <= epoch < LAST_ORDINAL
    requires var d := DateOf(epoch); d.day < DaysIn(d.year, d.month)
    ensures Initial(IDLE, FirstStart(), 0) && Run(IDLE, FirstStart(), es) == Some(s)
    ensures |s.audit.receipts| == SLOTS + 2
    ensures var a, b := s.audit.receipts[SLOTS].visit, s.audit.receipts[SLOTS + 1].visit;
      a.day == 0 && b.day == 1 && NumberOf(epoch, a) == NumberOf(epoch, b)
  {
    es, s := OverfullDay();
    hide IDLE, Initial, Run, DateOf, CustomerNumber;
    NextNumber(epoch);
  }

  /** Day 1's first number is what the hundred thousand and first customer of day 0 gets. */
  lemma NextNumber(epoch: int)
    requires 1 <= epoch < LAST_ORDINAL
    requires var d := DateOf(epoch); d.day < DaysIn(d.year, d.month)
    ensures CustomerNumber(DateOf(epoch), SLOTS) == CustomerNumber(DateOf(epoch + 1), 0)
  {
    var d := DateOf(epoch);
    assert DateOf(epoch + 1) == NextDay(d);
    hide DateOf, Ordinal, Calendar.Valid;
  }

  lemma OverfullDay() returns (es: seq<Event>, s: State)
    ensures Initial(IDLE, FirstStart(), 0) && Run(IDLE, FirstStart(), es) == Some(s)
    ensures |s.audit.receipts| == SLOTS + 2
    ensures var a, b := s.audit.receipts[SLOTS].visit, s.audit.receipts[SLOTS + 1].visit;
      a.day == 0 && a.slot == SLOTS && b.day == 1 && b.slot == 0
  {
    es, s := LiveDay(SLOTS + 1);
    hide After, HistoricalStart;
    assert Initial(IDLE, FirstStart(), 0);
    es, s := Extend(Steps(IDLE), FirstStart(), es, s, Tick(DAY));
    es, s := Extend(Steps(IDLE), FirstStart(), es, s, EndDay);
    es, s := Extend(Steps(IDLE), FirstStart(), es, s, Begin);
    es, s := Extend(Steps(IDLE), FirstStart(), es, s, Commit);
    InitialIsScheduled(IDLE, FirstStart(), 0);
    RunKeepsScheduled(IDLE, 0, FirstStart(), es);
    LastTwo(s);
  }

  lemma LastTwo(s: State)
    requires Scheduled(IDLE, 0, s) && s.disk.calendar.nextDay == 1 && s.disk.calendar.slot == 1
    requires s.audit.allDays == [DayRecord(0, SLOTS + 1)]
    ensures |s.audit.receipts| == SLOTS + 2
    ensures var a, b := s.audit.receipts[SLOTS].visit, s.audit.receipts[SLOTS + 1].visit;
      a.day == 0 && a.slot == SLOTS && b.day == 1 && b.slot == 0
  {
    var refs := References(s.audit.receipts);
    var days := s.audit.allDays;
    assert days[..|days| - 1] == [] && days[|days| - 1] == DayRecord(0, SLOTS + 1);
    assert AllSlots(days) == AllSlots([]) + DaySlots(0, SLOTS + 1) && AllSlots([]) == [];
    hide AllSlots;
    assert refs == DaySlots(0, SLOTS + 1) + DaySlots(1, 1);
    assert refs[SLOTS] == (0, SLOTS) && refs[SLOTS + 1] == (1, 0);
  }
}
