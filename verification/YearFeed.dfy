/** The feed itself: an object over its checkpoint directory and the backend, proved step by step against the
    machine, so that every durable state it passes through is one from which a kill has been accounted for. */
module YearFeed {
  import opened Wrappers
  import opened Runs
  import opened Journeys
  import opened Replay
  import opened ReplayTheorems

  /** calendar.json, journey.json and status.json; every write replaces a file as a whole. */
  class Directory {
    var calendar: Checkpoint
    var journal: map<Request, Response>
    var status: Tally

    constructor (startDay: int)
      ensures calendar == Checkpoint(startDay, 0, 0, 0, [], None) && journal == map[] && status == ZERO
    {
      calendar, journal, status := Checkpoint(startDay, 0, 0, 0, [], None), map[], ZERO;
    }
  }

  /** The application as the feed sees it: it answers a known idempotency key with the answer it gave before. */
  class Service {
    var applied: map<Request, Response>
    var log: seq<Request>
    var wire: set<Request>

    constructor ()
      ensures applied == map[] && log == [] && wire == {}
    {
      applied, log, wire := map[], [], {};
    }

    method Receive(request: Request) returns (response: Response)
      requires request in wire
      modifies this`applied, this`log
      ensures request in applied && response == applied[request]
      ensures request in old(applied) ==> applied == old(applied) && log == old(log)
      ensures request !in old(applied) ==> applied == old(applied)[request := response] && log == old(log) + [request]
    {
      if request !in applied {
        var answer: Response := *;
        applied := applied[request := answer];
        log := log + [request];
      }
      response := applied[request];
    }
  }

  lemma BeginIsBegun(feed: Feed, s: State)
    ensures Enabled(feed, s, Begin) ==>
      s.process.Up? && s.process.attempt.None? && Apply(feed, s, Begin) == Begun(feed, s)
  {
  }

  /** What the opening of a journey settles. */
  lemma BegunShape(feed: Feed, s: State)
    requires s.process.Up? && s.process.attempt.None?
    ensures var t := Begun(feed, s); var v := NextVisit(feed, s.process.calendar, s.now);
      && t.process.Up? && t.process.attempt == Some(Attempt(v, s.disk.journal, [], false, false))
      && t.process.calendar == t.disk.calendar
      && t.process.calendar.nextDay == v.day && t.process.calendar.slot == v.slot
      && t.process.calendar.active == Some(Active(v.day, v.slot, v.start, t.process.tally))
      && t.audit.receipts == s.audit.receipts && t.audit.allDays == s.audit.allDays
  {
  }

  /** A journey's visit, how far its program has come, the error count it began with, its checkpoint passed. */
  datatype Trip = Trip(visit: Visit, history: seq<Exchange>, errorsBefore: nat, committed: bool)

  datatype DayEnd = Completed | Stopped | Raised

  class Runner {
    const feed: Feed
    const files: Directory
    const service: Service

    var running: bool
    var now: int
    var calendar: Checkpoint
    var counters: Tally
    /** None outside a journey. */
    var currentJournal: Option<map<Request, Response>>
    var errors: nat
    /** The local variables of the journey in hand. */
    var trip: Trip

    ghost const origin: State
    ghost const startDay: int
    ghost var events: seq<Event>
    ghost var audit: Audit

    ghost function Process(): Process
      reads this
    {
      if !running then Down
      else Up(calendar, counters,
              if currentJournal.None? then None
              else Some(Attempt(trip.visit, currentJournal.value, trip.history, errors > trip.errorsBefore,
                                trip.committed)))
    }

    ghost function Machine(): State
      reads this, files, service
    {
      State(Disk(files.calendar, files.journal, files.status), Process(),
                  Backend(service.applied, service.log, service.wire), now, audit)
    }

    /** The object is where the machine gets to by the events recorded so far. */
    ghost predicate Valid()
      reads this, files, service
    {
      Initial(feed, origin, startDay) && Run(feed, origin, events) == Some(Machine()) && trip.errorsBefore <= errors
    }

    /** A first start in an empty directory. */
    constructor (feed: Feed, startDay: int, now: int)
      requires startDay <= now / DAY && feed.seedEnd <= now / DAY
      ensures Valid() && events == [] && this.feed == feed && this.startDay == startDay && this.now == now
      ensures running && currentJournal.None? && fresh(files) && fresh(service)
    {
      var directory := new Directory(startDay);
      var application := new Service();
      this.feed, this.files, this.service, this.startDay := feed, directory, application, startDay;
      this.running, this.now, this.calendar, this.counters := true, now, directory.calendar, ZERO;
      this.currentJournal, this.trip := None, Trip(Visit(startDay, 0, now, false), [], 0, true);
      this.errors := 0;
      this.audit, this.events := Audit([], [], true), [];
      this.origin := State(Disk(directory.calendar, map[], ZERO), Up(directory.calendar, ZERO, None),
                                 Backend(map[], [], {}), now, Audit([], [], true));
    }

    ghost method Note(e: Event, s: State)
      requires Initial(feed, origin, startDay) && trip.errorsBefore <= errors
      requires Run(feed, origin, events) == Some(s) && Enabled(feed, s, e) && Machine() == Apply(feed, s, e)
      modifies this`events
      ensures Valid() && events == old(events) + [e]
    {
      OneMore(Steps(feed), origin, events, e);
      events := events + [e];
    }

    /** A kill: memory is gone, the files and the service stay. */
    method Kill()
      requires Valid()
      modifies this
      ensures Valid() && events == old(events) + [Crash] && !running
      ensures now == old(now)
    {
      ghost var s := Machine();
      running, currentJournal := false, None;
      audit := audit.(exact := audit.exact && Recoverable(s));
      Note(Crash, s);
    }

    /** Start-up from the files. */
    method Restore()
      requires Valid() && !running
      modifies this
      ensures Valid() && events == old(events) + [Restart]
      ensures running && currentJournal.None? && calendar == files.calendar && counters == files.status
      ensures now == old(now) && audit == old(audit)
    {
      ghost var s := Machine();
      running, calendar, counters, currentJournal := true, files.calendar, files.status, None;
      Note(Restart, s);
    }

    method Wait(elapsed: nat)
      requires Valid()
      modifies this`now, this`events
      ensures Valid() && events == old(events) + [Tick(elapsed)] && now == old(now) + elapsed
    {
      ghost var s := Machine();
      now := now + elapsed;
      Note(Tick(elapsed), s);
    }

    /** Something sent earlier arrives late, or once more. */
    method LateArrival(request: Request)
      requires Valid() && request in service.wire
      modifies service`applied, service`log, this`events
      ensures Valid() && request in service.applied
      ensures request in old(service.applied) ==> service.log == old(service.log)
    {
      ghost var s := Machine();
      var response := service.Receive(request);
      Note(Arrive(request, response), s);
    }

    method Save()
      requires Valid() && running
      modifies files`calendar, files`status, this`events
      ensures Valid() && events == old(events) + [Event.Save]
      ensures files.calendar == calendar && files.status == counters
    {
      ghost var s := Machine();
      files.calendar, files.status := calendar, counters;
      Note(Event.Save, s);
    }

    /** One call of the journey in hand. A confirmed call is answered from the journal; any other is sent under
        its idempotency key and journaled once answered. The program then counts and moves on, unless the
        failure ends the attempt. */
    method Api(request: Request, caught: bool) returns (outcome: Outcome)
      requires Valid() && Running(Machine()) && feed.script(trip.visit).next(trip.history) == Send(request, caught)
      modifies this`currentJournal, this`trip, this`errors, this`counters, this`events
      modifies service, files`journal
      ensures Valid() && trip.visit == old(trip.visit)
      ensures outcome.Failed? && !caught ==> currentJournal.None?
      ensures outcome.Returned? || caught ==>
        Running(Machine()) && trip == old(trip).(history := old(trip.history) + [Exchange(request, outcome)])
      ensures request in old(currentJournal.value) ==>
        && outcome == Returned(old(currentJournal.value)[request])
        && service.log == old(service.log) && files.journal == old(files.journal)
      ensures outcome.Returned? ==> currentJournal.Some? && request in currentJournal.value &&
                                    currentJournal.value[request] == outcome.response
      ensures files.journal == old(files.journal) || files.journal == currentJournal.GetOr(map[])
    {
      if request in currentJournal.value {
        outcome := Returned(currentJournal.value[request]);
        AnsweredFromJournal(request);
        return;
      }
      var answer := Post(request);
      if answer.Some? {
        outcome := Returned(answer.value);
        Answered(request, answer.value);
      } else {
        outcome := Failed;
        CallFailed(request, caught);
      }
    }

    /** The request goes out; it may or may not reach the service, and the answer may or may not come back. */
    method Post(request: Request) returns (answer: Option<Response>)
      requires Valid() && Running(Machine()) && Asks(feed, Machine().process.attempt.value)
      requires Move(feed, Machine().process.attempt.value).request == request
      modifies this`events, service
      ensures Valid()
      ensures request in service.wire
      ensures answer.Some? ==> request in service.applied && service.applied[request] == answer.value
    {
      ghost var s := Machine();
      service.wire := service.wire + {request};
      Note(Transmit, s);
      var reached: bool := *;
      var replied: bool := *;
      answer := None;
      if reached {
        LateArrival(request);
        if replied {
          answer := Some(service.applied[request]);
        }
      }
    }

    method AnsweredFromJournal(request: Request)
      requires Valid() && Enabled(feed, Machine(), FromJournal)
      requires Move(feed, Machine().process.attempt.value).request == request
      modifies this`trip, this`counters, this`events
      ensures Valid() && Running(Machine())
      ensures trip ==
        old(trip).(history := old(trip.history) + [Exchange(request, Returned(currentJournal.value[request]))])
    {
      ghost var s := Machine();
      trip := trip.(history := trip.history + [Exchange(request, Returned(currentJournal.value[request]))]);
      counters := Plus(counters, feed.script(trip.visit).gain(trip.history));
      Note(FromJournal, s);
    }

    /** The answer is journaled before the journey moves on. */
    method Answered(request: Request, answer: Response)
      requires Valid() && Enabled(feed, Machine(), Confirm)
      requires Move(feed, Machine().process.attempt.value).request == request && service.applied[request] == answer
      modifies this`currentJournal, this`trip, this`counters, this`events, files`journal
      ensures Valid() && Running(Machine())
      ensures trip == old(trip).(history := old(trip.history) + [Exchange(request, Returned(answer))])
      ensures currentJournal == Some(old(currentJournal.value)[request := answer])
      ensures files.journal == currentJournal.value
    {
      ghost var s := Machine();
      currentJournal := Some(currentJournal.value[request := answer]);
      files.journal := currentJournal.value;
      trip := trip.(history := trip.history + [Exchange(request, Returned(answer))]);
      counters := Plus(counters, feed.script(trip.visit).gain(trip.history));
      Note(Confirm, s);
    }

    method CallFailed(request: Request, caught: bool)
      requires Valid() && Enabled(feed, Machine(), Event.Fail)
      requires Move(feed, Machine().process.attempt.value) == Send(request, caught)
      modifies this`currentJournal, this`trip, this`errors, this`counters, this`events
      ensures Valid() && errors == old(errors) + 1 && trip.visit == old(trip.visit)
      ensures !caught ==> currentJournal.None?
      ensures caught ==>
        && Running(Machine()) && currentJournal == old(currentJournal)
        && trip == old(trip).(history := old(trip.history) + [Exchange(request, Failed)])
    {
      ghost var s := Machine();
      errors := errors + 1;
      if caught {
        trip := trip.(history := trip.history + [Exchange(request, Failed)]);
        counters := Plus(counters, feed.script(trip.visit).gain(trip.history));
      } else {
        currentJournal := None;
      }
      Note(Event.Fail, s);
    }

    /** The journey's opening: its reference, start and business counters are fixed in the checkpoint before its
        first call; a journey taken up again gets back the start and counters it began with. */
    method BeginJourney()
      requires Valid() && Enabled(feed, Machine(), Begin)
      modifies this, files`calendar
      ensures Valid() && events == old(events) + [Begin]
      ensures Machine() == Begun(feed, old(Machine()))
      ensures trip.history == [] && unchanged(`now)
    {
      hide Run, Initial, Enabled;
      ghost var s := Machine();
      assert Enabled(feed, s, Begin) ==>
        s.process.Up? && s.process.attempt.None? && Apply(feed, s, Begin) == Begun(feed, s) by {
        BeginIsBegun(feed, s);
      }
      hide Apply, NextVisit, LiveCalendar;
      var c, v := OpenSlot();
      var resumed := Resumes(c, v.day, v.slot);
      audit := audit.(exact := audit.exact && Accounted(c, v, counters));
      if resumed {
        counters := c.active.value.tally;
      }
      calendar := c.(active := Some(Active(v.day, v.slot, v.start, counters)));
      files.calendar := calendar;
      currentJournal, trip := Some(files.journal), Trip(v, [], errors, false);
      assert Machine() == Begun(feed, s);
      Note(Begin, s);
    }

    /** Whose turn it is: the open slot of the day to replay, or of today when the replay has caught up; with
        the start of a journey taken up again, of a live one, or of a historical one. */
    method OpenSlot() returns (c: Checkpoint, v: Visit)
      ensures v == NextVisit(feed, calendar, now)
      ensures c == if v.live then LiveCalendar(calendar, now / DAY) else calendar
    {
      c := calendar;
      var today := now / DAY;
      var live := !Historical(feed, c.nextDay, today);
      if live && c.nextDay != today {
        c := c.(nextDay := today, slot := 0);
      }
      var start :=
        if Resumes(c, c.nextDay, c.slot) then c.active.value.start
        else if live then now
        else HistoricalStart(c.nextDay, c.slot);
      v := Visit(c.nextDay, c.slot, start, live);
    }

    method CommitJourney()
      requires Valid() && Enabled(feed, Machine(), Commit)
      modifies this, files`calendar
      ensures Valid() && events == old(events) + [Commit]
      ensures calendar == old(calendar).(slot := old(calendar.slot) + 1,
                                         customersCompleted := old(calendar.customersCompleted) + 1, active := None)
      ensures |audit.receipts| == |old(audit.receipts)| + 1
      ensures audit.receipts[..|old(audit.receipts)|] == old(audit.receipts)
      ensures audit.receipts[|old(audit.receipts)|].visit == old(trip.visit)
      ensures audit.receipts[|old(audit.receipts)|].trace == old(trip.history)
      ensures trip.committed && trip.visit == old(trip.visit) && currentJournal.Some?
      ensures unchanged(`running, `now, `counters)
      ensures audit.allDays == old(audit.allDays) && files.calendar == calendar
    {
      ghost var s := Machine();
      ghost var before := if calendar.active.Some? then calendar.active.value.tally else counters;
      calendar := calendar.(slot := calendar.slot + 1, customersCompleted := calendar.customersCompleted + 1,
                            active := None);
      files.calendar := calendar;
      trip := trip.(committed := true);
      audit := audit.(receipts := audit.receipts + [Receipt(trip.visit, trip.history, before, counters)]);
      Note(Commit, s);
    }

    method UnlinkJournal()
      requires Valid() && Enabled(feed, Machine(), Unlink)
      modifies this`currentJournal, this`events, files`journal
      ensures Valid() && events == old(events) + [Unlink]
      ensures currentJournal.None? && files.journal == map[]
    {
      ghost var s := Machine();
      files.journal := map[];
      currentJournal := None;
      Note(Unlink, s);
    }

    method Abandon()
      requires Valid() && Enabled(feed, Machine(), GiveUp)
      modifies this`currentJournal, this`events
      ensures Valid() && events == old(events) + [GiveUp] && currentJournal.None?
    {
      ghost var s := Machine();
      currentJournal := None;
      Note(GiveUp, s);
    }

    /** One attempt at the next journey. When it completes, its trace is the uninterrupted run of its program
        against the answers the service holds, and every request of it has taken effect once; when it does not,
        the checkpoint still names it and nothing is counted as completed. */
    method Journey() returns (done: bool)
      requires Valid() && Enabled(feed, Machine(), Begin)
      requires Bounded(feed.script(NextVisit(feed, calendar, now)))
      modifies this, files, service
      ensures Valid() && running && currentJournal.None? && unchanged(`now)
      ensures trip.visit == NextVisit(feed, old(calendar), now) && audit.allDays == old(audit.allDays)
      ensures calendar == files.calendar && calendar.nextDay == trip.visit.day
      ensures done ==>
        && calendar.slot == trip.visit.slot + 1 && calendar.active.None? && files.journal == map[]
        && |audit.receipts| == |old(audit.receipts)| + 1
        && audit.receipts[..|old(audit.receipts)|] == old(audit.receipts)
        && CompletedOnce(audit.receipts[|old(audit.receipts)|])
      ensures !done ==>
        && audit.receipts == old(audit.receipts) && calendar.slot == trip.visit.slot
        && Resumes(calendar, trip.visit.day, trip.visit.slot) && calendar.active.value.start == trip.visit.start
    {
      hide Run, Initial, Apply, NextVisit;
      BegunShape(feed, Machine());
      BeginJourney();
      hide Begun, Enabled, Valid, CompletedOnce;
      done := Pursue();
    }

    /** The journey just begun, to its end or to a failure that leaves it to be retried. */
    method Pursue() returns (done: bool)
      requires Valid() && Running(Machine()) && Bounded(feed.script(trip.visit))
      requires Resumes(calendar, trip.visit.day, trip.visit.slot) && calendar.active.value.start == trip.visit.start
      requires calendar.nextDay == trip.visit.day && calendar.slot == trip.visit.slot && calendar == files.calendar
      modifies this, files, service
      ensures Valid() && running && currentJournal.None? && unchanged(`now)
      ensures trip.visit == old(trip.visit) && audit.allDays == old(audit.allDays)
      ensures calendar == files.calendar && calendar.nextDay == trip.visit.day
      ensures done ==>
        && calendar.slot == trip.visit.slot + 1 && calendar.active.None? && files.journal == map[]
        && |audit.receipts| == |old(audit.receipts)| + 1
        && audit.receipts[..|old(audit.receipts)|] == old(audit.receipts)
        && CompletedOnce(audit.receipts[|old(audit.receipts)|])
      ensures !done ==>
        && audit.receipts == old(audit.receipts) && calendar.slot == trip.visit.slot
        && Resumes(calendar, trip.visit.day, trip.visit.slot) && calendar.active.value.start == trip.visit.start
    {
      hide Run, Initial, Apply, NextVisit;
      ghost var receipts := audit.receipts;
      done := Calls();
      if !done {
        return;
      }
      if feed.script(trip.visit).next(trip.history).Abort? || errors > trip.errorsBefore {
        Abandon();
        return false;
      }
      CommitJourney();
      UnlinkJournal();
      NewestReceipt(audit.receipts[|receipts|]);
    }

    /** The journey's calls, until its program sends no more or a failing call ends the attempt. */
    method Calls() returns (through: bool)
      requires Valid() && Running(Machine()) && Bounded(feed.script(trip.visit))
      modifies this`currentJournal, this`trip, this`errors, this`counters, this`events
      modifies service, files`journal
      ensures Valid() && trip.visit == old(trip.visit)
      ensures through ==> Running(Machine()) && !feed.script(trip.visit).next(trip.history).Send?
      ensures !through ==> currentJournal.None?
    {
      hide Run, Initial, Apply;
      while feed.script(trip.visit).next(trip.history).Send?
        invariant Valid() && Running(Machine()) && trip.visit == old(trip.visit)
        decreases feed.script(trip.visit).limit - |trip.history|
      {
        var move := feed.script(trip.visit).next(trip.history);
        var outcome := Api(move.request, move.caught);
        if outcome.Failed? && !move.caught {
          return false;
        }
      }
      return true;
    }

    /** The receipt of a journey that was run once, whatever came between. */
    ghost predicate CompletedOnce(t: Receipt)
      reads this`trip, service
    {
      && t.visit == trip.visit
      && Uninterrupted(feed.script(trip.visit), service.applied, t.trace)
      && t.after == Plus(t.before, Total(feed.script(trip.visit), t.trace))
      && Distinct(service.log) && forall x | x in t.trace :: x.request in service.log
    }

    lemma NewestReceipt(t: Receipt)
      requires Valid()
      requires t in audit.receipts && t.visit == trip.visit
      ensures CompletedOnce(t)
    {
      Invariants();
      hide Run;
      forall x | x in t.trace ensures x.request in service.log {
        assert x.request in service.applied;
      }
    }

    /** Closes the day: its record, the next day, slot zero, in one write of the checkpoint. */
    method FinishDay()
      requires Valid() && Enabled(feed, Machine(), EndDay)
      modifies this`calendar, this`audit, this`events, files`calendar
      ensures Valid() && events == old(events) + [EndDay]
      ensures calendar == DayEnded(old(Machine())).process.calendar && files.calendar == calendar
      ensures audit ==
        old(audit).(allDays := old(audit.allDays) + [DayRecord(old(calendar.nextDay), old(calendar.slot))])
    {
      hide Run, Initial;
      ghost var s := Machine();
      var d := DayRecord(calendar.nextDay, calendar.slot);
      calendar := calendar.(days := LastDays(calendar.days + [d]), daysCompleted := calendar.daysCompleted + 1,
                            nextDay := calendar.nextDay + 1, slot := 0);
      files.calendar := calendar;
      audit := audit.(allDays := audit.allDays + [d]);
      Note(EndDay, s);
    }

    ghost predicate Idle()
      reads this, files, service
    {
      Valid() && running && currentJournal.None?
    }

    /** One historical day: journeys until the day has its volume. It ends early when told to stop or when a
        journey raises; the open slot then stays where it is. */
    method Day(day: int) returns (end: DayEnd)
      requires Idle() && day == calendar.nextDay && Historical(feed, day, now / DAY)
      requires forall v :: Bounded(feed.script(v))
      modifies this, files, service
      ensures Idle() && unchanged(`now)
      ensures end.Completed? ==>
        && calendar.nextDay == day + 1 && calendar.slot == 0
        && exists n: nat | n >= feed.volume(day) :: audit.allDays == old(audit.allDays) + [DayRecord(day, n)]
      ensures !end.Completed? ==> calendar.nextDay == day && audit.allDays == old(audit.allDays)
    {
      hide Run, Initial, Apply;
      var target := feed.volume(day);
      while calendar.slot < target
        invariant Idle() && calendar.nextDay == day && unchanged(`now)
        invariant audit.allDays == old(audit.allDays)
        decreases target - calendar.slot
      {
        var stopping: bool := *;
        if stopping {
          return Stopped;
        }
        var done := Journey();
        if !done {
          return Raised;
        }
        Save();
      }
      var stopping: bool := *;
      if stopping {
        return Stopped;
      }
      FinishDay();
      Save();
      return Completed;
    }

    /** One turn of the endless loop: a historical day while the replay lags behind, else one live journey of today. */
    method Turn() returns (live: bool)
      requires Idle() && forall v :: Bounded(feed.script(v))
      modifies this, files, service
      ensures Idle() && unchanged(`now) && files.calendar == calendar && files.status == counters
      ensures live <==> !Historical(feed, old(calendar.nextDay), now / DAY)
      ensures live ==>
        && trip.visit.live && trip.visit.day == calendar.nextDay == now / DAY && audit.allDays == old(audit.allDays)
        && |audit.receipts| <= |old(audit.receipts)| + 1
      ensures !live ==> old(calendar.nextDay) <= calendar.nextDay <= old(calendar.nextDay) + 1
      ensures !live && calendar.nextDay == old(calendar.nextDay) ==> audit.allDays == old(audit.allDays)
      ensures !live && calendar.nextDay > old(calendar.nextDay) ==>
        exists n: nat | n >= feed.volume(old(calendar.nextDay)) ::
          audit.allDays == old(audit.allDays) + [DayRecord(old(calendar.nextDay), n)]
    {
      hide Run, Initial, Apply, Bounded;
      live := !Historical(feed, calendar.nextDay, now / DAY);
      if live {
        LiveVisit(calendar, now);
        var done := Journey();
      } else {
        var end := Day(calendar.nextDay);
      }
      Save();
    }

    /** Beyond the replay it is today's turn. */
    lemma LiveVisit(c: Checkpoint, now: int)
      requires !Historical(feed, c.nextDay, now / DAY)
      ensures NextVisit(feed, c, now).live && NextVisit(feed, c, now).day == now / DAY
    {
    }

    /** Any number of turns with time passing, late arrivals and kills between them. Kills inside a turn are
        the machine's: every durable state inside a turn is one of its states. Whatever happens, the checkpoint
        balances, no request takes effect twice, and every receipt is that of an uninterrupted run. */
    method RunTurns(turns: nat)
      requires Idle() && forall v :: Bounded(feed.script(v))
      modifies this, files, service
      ensures Idle()
      ensures Distinct(service.log)
      ensures files.calendar.customersCompleted == Customers(audit.allDays) + files.calendar.slot
      ensures files.calendar.nextDay == startDay + |audit.allDays| <= now / DAY
      ensures forall t | t in audit.receipts :: Uninterrupted(feed.script(t.visit), service.applied, t.trace)
    {
      for i := 0 to turns
        invariant Idle()
      {
        var elapsed: nat := *;
        Wait(elapsed);
        var late: Request := *;
        if late in service.wire {
          LateArrival(late);
        }
        var killed: bool := *;
        if killed {
          Kill();
          Restore();
        }
        var live := Turn();
      }
      CheckpointConservation(feed, origin, startDay, events, Machine());
      ReplayIsUninterrupted(feed, origin, startDay, events, Machine());
    }

    /** What every reachable state satisfies. */
    lemma Invariants()
      requires Valid()
      ensures Traced(feed, Machine()) && Scheduled(feed, startDay, Machine())
      ensures CountedOnce(feed, Machine()) && InBalance(feed, Machine())
    {
      InitialIsScheduled(feed, origin, startDay);
      RunKeepsTraced(feed, origin, events);
      RunKeepsScheduled(feed, startDay, origin, events);
      RunKeepsCounts(feed, origin, events);
    }
  }
}
