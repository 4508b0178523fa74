/** The daily feed as a machine over its durable files, its memory and a backend that remembers answers by
    idempotency key. A kill may come between any two of its steps. */
module Replay {
  import opened Wrappers
  import opened Runs
  import opened Journeys

  const DAY := 86_400_000

  /** A journey: whose turn it is (business day and slot), when it started, and whether it runs live. Together
      with the run identity, day and slot are its reference. */
  datatype Visit = Visit(day: int, slot: nat, start: int, live: bool)

  /** What stays fixed over a run: the journeys' programs, the customers wanted per day, the end of the seed. */
  datatype Feed = Feed(script: Visit -> Script, volume: int -> nat, seedEnd: int)

  datatype Active = Active(day: int, slot: nat, start: int, tally: Tally)

  datatype DayRecord = DayRecord(date: int, customers: nat)

  /** calendar.json */
  datatype Checkpoint = Checkpoint(nextDay: int, slot: nat, daysCompleted: nat, customersCompleted: nat,
                                   days: seq<DayRecord>, active: Option<Active>)

  /** calendar.json, journey.json (empty when absent) and the counters of status.json. */
  datatype Disk = Disk(calendar: Checkpoint, journal: map<Request, Response>, status: Tally)

  /** One attempt at a journey. `doomed` once a call has failed; `committed` once the checkpoint has advanced. */
  datatype Attempt = Attempt(visit: Visit, journal: map<Request, Response>, history: seq<Exchange>,
                             doomed: bool, committed: bool)

  datatype Process = Down | Up(calendar: Checkpoint, tally: Tally, attempt: Option<Attempt>)

  /** The backend keeps the answer it gave to each key; `log` is the order in which requests took effect and
      `wire` what was ever sent and may arrive, again and again, at any later time. */
  datatype Backend = Backend(applied: map<Request, Response>, log: seq<Request>, wire: set<Request>)

  datatype Receipt = Receipt(visit: Visit, trace: seq<Exchange>, before: Tally, after: Tally)

  /** An observer's record of what was completed. `exact` until a crash between journeys finds counters that are not
      in status.json, or a started journey is left for another one after counting something. */
  datatype Audit = Audit(receipts: seq<Receipt>, allDays: seq<DayRecord>, exact: bool)

  datatype State = State(disk: Disk, process: Process, backend: Backend, now: int, audit: Audit)

  datatype Event =
    | Restart
    | Crash
    | Tick(elapsed: nat)
    | Begin
    | FromJournal
    | Transmit
    | Arrive(request: Request, response: Response)
    | Confirm
    | Fail
    | GiveUp
    | Commit
    | Unlink
    | EndDay
    | Save

  function Today(s: State): int {
    s.now / DAY
  }

  function LastDays(days: seq<DayRecord>): seq<DayRecord> {
    if |days| <= 400 then days else days[|days| - 400..]
  }

  /** 09:00 plus thirteen seconds a slot, wrapped within ten hours. */
  function HistoricalStart(day: int, slot: nat): int {
    day * DAY + (9 * 3600 + (slot * 13) % 36000) * 1000
  }

  predicate Historical(feed: Feed, day: int, today: int) {
    day < feed.seedEnd || day < today
  }

  /** The live branch starts the count over when the checkpoint names another day. */
  function LiveCalendar(c: Checkpoint, today: int): Checkpoint {
    if c.nextDay != today then c.(nextDay := today, slot := 0) else c
  }

  predicate Resumes(c: Checkpoint, day: int, slot: nat) {
    c.active.Some? && c.active.value.day == day && c.active.value.slot == slot
  }

  function NextVisit(feed: Feed, c: Checkpoint, now: int): Visit {
    var live := !Historical(feed, c.nextDay, now / DAY);
    var d := if live then LiveCalendar(c, now / DAY) else c;
    var start := if Resumes(d, d.nextDay, d.slot) then d.active.value.start
                 else if live then now else HistoricalStart(d.nextDay, d.slot);
    Visit(d.nextDay, d.slot, start, live)
  }

  predicate Running(s: State) {
    s.process.Up? && s.process.attempt.Some? && !s.process.attempt.value.committed
  }

  function Move(feed: Feed, a: Attempt): Action {
    feed.script(a.visit).next(a.history)
  }

  ghost predicate Enabled(feed: Feed, s: State, e: Event) {
    match e
    case Restart => s.process.Down?
    case Crash => true
    case Tick(_) => true
    case Begin =>
      s.process.Up? && s.process.attempt.None? &&
      var c := s.process.calendar;
      Historical(feed, c.nextDay, Today(s)) ==> c.slot < feed.volume(c.nextDay)
    case FromJournal =>
      Running(s) && var a := s.process.attempt.value;
      Move(feed, a).Send? && Move(feed, a).request in a.journal
    case Transmit => Running(s) && Asks(feed, s.process.attempt.value)
    case Arrive(r, _) => r in s.backend.wire
    case Confirm =>
      Running(s) && Asks(feed, s.process.attempt.value) &&
      var r := Move(feed, s.process.attempt.value).request; r in s.backend.wire && r in s.backend.applied
    case Fail => Running(s) && Asks(feed, s.process.attempt.value)
    case GiveUp =>
      Running(s) && var a := s.process.attempt.value;
      Move(feed, a).Abort? || (Move(feed, a).Finish? && a.doomed)
    case Commit =>
      Running(s) && var a := s.process.attempt.value; Move(feed, a).Finish? && !a.doomed
    case Unlink => s.process.Up? && s.process.attempt.Some? && s.process.attempt.value.committed
    case EndDay =>
      s.process.Up? && s.process.attempt.None? &&
      var c := s.process.calendar;
      Historical(feed, c.nextDay, Today(s)) && c.slot >= feed.volume(c.nextDay)
    case Save => s.process.Up?
  }

  /** The next move is a call the journal does not answer. */
  predicate Asks(feed: Feed, a: Attempt) {
    Move(feed, a).Send? && Move(feed, a).request !in a.journal
  }

  /** No journey is left for another one with something counted. */
  predicate Accounted(c: Checkpoint, v: Visit, tally: Tally) {
    c.active.None? || Resumes(c, v.day, v.slot) || c.active.value.tally == tally
  }

  /** The counters would survive a kill: in the checkpoint's open journey or in status.json. */
  predicate Recoverable(s: State) {
    s.process.Up? ==> s.disk.calendar.active.Some? || s.disk.status == s.process.tally
  }

  function Begun(feed: Feed, s: State): State
    requires s.process.Up?
  {
    var c0 := s.process.calendar;
    var v := NextVisit(feed, c0, s.now);
    var c := if v.live then LiveCalendar(c0, Today(s)) else c0;
    var tally := if Resumes(c, v.day, v.slot) then c.active.value.tally else s.process.tally;
    var c' := c.(active := Some(Active(v.day, v.slot, v.start, tally)));
    s.(disk := s.disk.(calendar := c'),
       process := Up(c', tally, Some(Attempt(v, s.disk.journal, [], false, false))),
       audit := s.audit.(exact := s.audit.exact && Accounted(c, v, s.process.tally)))
  }

  /** The attempt after one more exchange, with what the journey counts on it. */
  function Exchanged(feed: Feed, s: State, x: Exchange): Process
    requires s.process.Up? && s.process.attempt.Some?
  {
    var a := s.process.attempt.value;
    var h := a.history + [x];
    s.process.(attempt := Some(a.(history := h)),
               tally := Plus(s.process.tally, feed.script(a.visit).gain(h)))
  }

  function Confirmed(feed: Feed, s: State): State
    requires Running(s) && Asks(feed, s.process.attempt.value)
    requires Move(feed, s.process.attempt.value).request in s.backend.applied
  {
    var r := Move(feed, s.process.attempt.value).request;
    var x := s.backend.applied[r];
    var p := Exchanged(feed, s, Exchange(r, Returned(x)));
    var j := s.process.attempt.value.journal[r := x];
    s.(disk := s.disk.(journal := j), process := p.(attempt := Some(p.attempt.value.(journal := j))))
  }

  function FailedCall(feed: Feed, s: State): State
    requires Running(s) && Asks(feed, s.process.attempt.value)
  {
    var move := Move(feed, s.process.attempt.value);
    if move.caught then
      var p := Exchanged(feed, s, Exchange(move.request, Failed));
      s.(process := p.(attempt := Some(p.attempt.value.(doomed := true))))
    else s.(process := s.process.(attempt := None))
  }

  function Committed(s: State): State
    requires Running(s)
  {
    var a := s.process.attempt.value;
    var c := s.process.calendar;
    var c' := c.(slot := c.slot + 1, customersCompleted := c.customersCompleted + 1, active := None);
    var before := if c.active.Some? then c.active.value.tally else s.process.tally;
    s.(disk := s.disk.(calendar := c'),
       process := s.process.(calendar := c', attempt := Some(a.(committed := true))),
       audit := s.audit.(receipts := s.audit.receipts + [Receipt(a.visit, a.history, before, s.process.tally)]))
  }

  function DayEnded(s: State): State
    requires s.process.Up?
  {
    var c := s.process.calendar;
    var d := DayRecord(c.nextDay, c.slot);
    var c' := c.(days := LastDays(c.days + [d]), daysCompleted := c.daysCompleted + 1,
                 nextDay := c.nextDay + 1, slot := 0);
    s.(disk := s.disk.(calendar := c'), process := s.process.(calendar := c'),
       audit := s.audit.(allDays := s.audit.allDays + [d]))
  }

  function Apply(feed: Feed, s: State, e: Event): State
    requires Enabled(feed, s, e)
  {
    match e
    case Restart => s.(process := Up(s.disk.calendar, s.disk.status, None))
    case Crash => s.(process := Down, audit := s.audit.(exact := s.audit.exact && Recoverable(s)))
    case Tick(elapsed) => s.(now := s.now + elapsed)
    case Begin => Begun(feed, s)
    case FromJournal =>
      var r := Move(feed, s.process.attempt.value).request;
      s.(process := Exchanged(feed, s, Exchange(r, Returned(s.process.attempt.value.journal[r]))))
    case Transmit =>
      s.(backend := s.backend.(wire := s.backend.wire + {Move(feed, s.process.attempt.value).request}))
    case Arrive(r, response) =>
      if r in s.backend.applied then s
      else s.(backend := s.backend.(applied := s.backend.applied[r := response], log := s.backend.log + [r]))
    case Confirm => Confirmed(feed, s)
    case Fail => FailedCall(feed, s)
    case GiveUp => s.(process := s.process.(attempt := None))
    case Commit => Committed(s)
    case Unlink => s.(disk := s.disk.(journal := map[]), process := s.process.(attempt := None))
    case EndDay => DayEnded(s)
    case Save =>
      s.(disk := s.disk.(calendar := s.process.calendar, status := s.process.tally))
  }

  ghost function Step(feed: Feed, s: State, e: Event): Option<State> {
    if Enabled(feed, s, e) then Some(Apply(feed, s, e)) else None
  }

  ghost function Steps(feed: Feed): (State, Event) -> Option<State> {
    (t: State, e: Event) => Step(feed, t, e)
  }

  /** The state after a run of events, if each is enabled where it happens. */
  ghost function Run(feed: Feed, s: State, es: seq<Event>): Option<State> {
    After(Steps(feed), s, es)
  }

  /** The first run with an empty directory and a backend that has not heard from this run yet. */
  ghost predicate Initial(feed: Feed, s: State, startDay: int) {
    && s.disk == Disk(Checkpoint(startDay, 0, 0, 0, [], None), map[], ZERO)
    && s.process == Up(s.disk.calendar, ZERO, None)
    && s.backend == Backend(map[], [], {})
    && s.audit == Audit([], [], true)
    && startDay <= Today(s) && feed.seedEnd <= Today(s)
  }
}
