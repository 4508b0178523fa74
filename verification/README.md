# A verified model of the feed, stream, consent, session, fixture and gate logic

This project models the parts of the repository whose correctness does not show in any one function: protocols that
must survive a kill, a late answer or another tab, loops whose totals must agree with closed forms, and gates that
must report exactly what holds. Every theorem is for all inputs, all runs or all reachable states. Code that changes
state step by step is written as methods over classes and proved against functions on values; the theorems are then
about those functions and about runs of a machine built from them.

| files | what they model |
|---|---|
| `Wrappers`, `Runs`, `Text` | optional values; the runs of a machine; string primitives of the stream decoder (folding, blank-line search, splitting, trimming) |
| `EventStream`, `StreamTheorems`, `StreamMessages`, `StreamReadings`, `StreamInvariance`, `StreamWitnesses`, `StreamRoundTrip` | the incremental decoder of the AI job stream |
| `Journeys`, `Replay`, `YearFeed` | the daily feed: a journey as an adaptive program, the machine over files, memory and backend, and the feed as an object |
| `ReplayTheorems`, `ReplayCounts`, `ReplayFindings` | crash recovery, conservation, counters, and where the feed's promises end |
| `Calendar`, `Identities` | month arithmetic, ordinals, customer and telephone numbers, daily volume |
| `Consent`, `ConsentTheorems` | click identifiers under marketing consent, over many tabs |
| `Session`, `SessionTheorems` | the token authority and the component that verifies it |
| `Fixtures`, `FixtureTheorems`, `FixtureFigures` | the fixture generator and its reconciliation file |
| `Jobs`, `JobTheorems`, `JobSteps` | the feed's table of durable model jobs |
| `ReleaseGate` | the evidence gate and the case file it is fed |
| `Coverage`, `Drafts` | task rotation, read rotation, the follow-up queue; the draft store |

## Assumptions

- Replacing a file is atomic, and one feed owns its directory (it holds an operating-system lock).
- The backend answers a known idempotency key with the answer it gave before. `YEAR_DATA_FEED.md` says that not
  every operation does; for those the exactly-once results do not speak. Distinct requests have distinct keys.
- A request sent once may arrive any number of times at any later moment, or never. A resend after signing in again is
  such a repeated arrival.
- A journey's program is any function from its exchanges so far to its next move that sends a bounded number of
  requests; what it counts is any function of the same exchanges. Business days are day numbers, the clock is in
  milliseconds and does not run backwards.
- A journey's day and its live start come from one reading of the clock. The feed reads it twice, so a start a moment
  past midnight under the day before is not modelled.
- In the browser one stretch of code runs without interruption from other tabs. Consent and click identifiers are
  written by this code only; the `_ttp` and `_twpid` cookies are written by others, at any time.
- The backend never gives the same job id twice.
- Digests do not collide; resolving and reading an evidence path is a function of the path.

## What turned out not to hold

Each of these is a lemma with a concrete run or an exact condition.

- Chunking: `\r\r\n` makes the decoder depend on how the text is cut (`CrCrlfBreaksInvariance`). For text closed by a
  blank line, however its line ends are written, the blocks are independent of the cut exactly when no such sequence
  occurs (`FramingIsChunkInvariantExactly`). The messages of any text can be independent of the cut only if its lines
  read the same without any carriage return at their ends as with one taken off (`InvariantReadsBare`); unless a block
  holds both a line of carriage returns alone and two event names, that is enough (`DeliveryIsChunkInvariantExactly`),
  and there it is not (`TwoNamesNeedMore`).
- A live journey killed before midnight is re-run afterwards as a historical one, with other requests
  (`ModeChangeLeavesAnEffect`, `ResumesSameVisitExactly`), or, when its day already has its volume, never completed
  (`LeftOpenIsCompletedExactly`, with a run in `FifthJourneyIsDropped`).
- Its clock can then leave its day, and run ahead of the time, although `YEAR_DATA_FEED.md` says that no events are
  dated into the future: `ClockLeavesItsDay` is a run, `HistoricalClockExactly` and `ClockIsPastExactly` say when.
- A failed call that a step catches can leave an effect that the completed journey does not ask for
  (`CaughtFailureLeavesAnEffect`).
- Counters go wrong exactly when a kill between journeys finds them unsaved, or a journey is begun in place of an
  open one that has counted something (`CountersLagExactly`; a run in `CountersCanLag`).
- A live day has no volume to stop at: past the hundred thousandth customer the numbers run into those of later
  dates (`NumbersCollideExactly`, with a run in `NumbersRepeat`).
- Consent: closing the page right after a withdrawal leaves the identifiers stored, and a later grant sends them
  (`ClosedPageKeepsIds`, `ResidueIsSentAfterGrant`). The reported page address and referrer are not filtered, so
  identifiers in them are sent without consent (`SendsIdsExactly`, `UnconsentedIdsExactly`). The documentation says
  that withdrawal removes the stored click identifiers; `UntilGranted` says exactly when it has.
- Session: once signed out, the gate asks again after every denial, without end (`SignedOutNeverRests`, reached in
  `DeniedAtOnce`); an unpublished token change keeps the old verdict on screen (`SwitchIsUnverifiedExactly`).
- Jobs: a restart forgets jobs taken on since the last save (`UnsavedJobIsLost`) and waits again for jobs that ended
  since then (`FailedJobComesBack`, `EndedStaysExactly`); a supervised task can be stuck until restart
  (`GetsStuckExactly`, `RegovernedWhileScoring`, with a run in `TaskGetsStuck`).
- Fixtures: users' home workspaces resolve exactly when the users divide evenly among tenants
  (`UsersResolveExactly`); both profiles do.
- Telephone numbers repeat every month (`PhonesCollideExactly`).

## Model

| member | source | states |
|---|---|---|
| EventStream.StreamAiJob | frontend/src/lib/api.ts:136-164 | The chunked loop delivers, in order, the messages of the decoding of all chunks; the inner loop ends because the buffer shrinks. |
| EventStream.DrainBuffer | frontend/src/lib/api.ts:144-162 | Draining hands out every complete block, leftmost first, and leaves the rest of the buffer. |
| EventStream.ScanBlock | frontend/src/lib/api.ts:148-160 | A block gives one message, its data lines joined, or none when it has no data line. |
| StreamTheorems.ReadIsDrain | frontend/src/lib/api.ts:139-164 | Without CR CR LF, re-folding the residue after every chunk agrees with folding the whole text once. |
| StreamTheorems.ChunkingInvariance | frontend/src/lib/api.ts:137-164 | Two ways of cutting one text deliver the same messages and leave the same residue, cuts inside CRLF and empty chunks included. |
| StreamTheorems.CrCrlfBreaksInvariance | frontend/src/lib/api.ts:142-143 | A text with CR CR LF that decodes differently under two cuts. |
| StreamTheorems.CrCrlfHasBadCut | frontend/src/lib/api.ts:142-143 | Every text closed by a blank line, LF or CRLF, and with CR CR LF has a cut that changes its blocks. |
| StreamTheorems.FramingIsChunkInvariantExactly | frontend/src/lib/api.ts:142-147 | For text closed by a blank line, LF or CRLF, the blocks handed out are independent of the cut if and only if no CRLF follows a carriage return. |
| StreamMessages.CutDeliversLess | frontend/src/lib/api.ts:142-160 | A text closed by a blank line, LF or CRLF, with a data line ending in CR CR LF delivers more carriage returns read whole than cut right after that line. |
| StreamMessages.DataLineHasBadCut | frontend/src/lib/api.ts:142-160 | Every such text, wherever the data line is, has two cuts that deliver different messages. |
| StreamMessages.DataLinesDecideExactly | frontend/src/lib/api.ts:136-164 | For closed text whose CR CR LF all end data lines, the delivered messages are independent of the cut if and only if there is none. |
| StreamReadings.DecodePeels | frontend/src/lib/api.ts:137-164 | Under any chunking the messages are the line-by-line reading of the text's lines, each without one or more, up to all, of the carriage returns at its end. |
| StreamReadings.SlowestReading | frontend/src/lib/api.ts:137-164 | For every text some chunking delivers the reading without any carriage return at the end of a line. |
| StreamInvariance.InvariantReadsBare | frontend/src/lib/api.ts:137-164 | If the messages of a text, any text, do not depend on the chunks, its lines read the same with all carriage returns at their ends gone as with one taken off. |
| StreamInvariance.TextSandwich | frontend/src/lib/api.ts:148-160 | If these two readings agree, so does every reading in between, unless a block holds a line of carriage returns alone and two event names. |
| StreamInvariance.DeliveryIsChunkInvariantExactly | frontend/src/lib/api.ts:136-164 | So, outside such blocks, the messages of any text, closed or not, are independent of chunking if and only if the two readings agree. |
| StreamWitnesses.SoftLinePartsMessages | frontend/src/lib/api.ts:142-147 | A line of CR CR LF alone delivers one message read whole and two when cut after it. |
| StreamWitnesses.TwoNamesNeedMore | frontend/src/lib/api.ts:142-153 | With two names in a block the two readings can agree and a cut deliver the data under another name. |
| StreamTheorems.UnterminatedBlockIsNotDelivered | frontend/src/lib/api.ts:144-147 | Text after the last blank line, LF or CRLF, or before there is any, is never delivered, however it arrives. |
| StreamTheorems.BlocksReadLikeLines | frontend/src/lib/api.ts:145-161 | Splitting at blank lines and reading blocks equals reading the text line by line, dispatching at empty lines. |
| StreamTheorems.DecodeReadsLines | frontend/src/lib/api.ts:137-164 | Under any chunking the decoder refines the line-by-line reading of the folded text. |
| StreamRoundTrip.RoundTrip | frontend/src/lib/api.ts:148-160 | Printable messages, printed and decoded under any chunking, come back unchanged. |
| StreamRoundTrip.RoundTripExactly | frontend/src/lib/api.ts:148-160 | Printing round-trips if and only if every message is printable: a trimmed one-line name and data no line of which ends in a carriage return. |
| StreamRoundTrip.InterpretNames | frontend/src/lib/api.ts:148-151 | Every delivered name is non-empty, trimmed and of one line. |
| StreamRoundTrip.ReadEventLine | frontend/src/lib/api.ts:151-151 | An event line written with a trimmed, non-empty name is read back as that name. |
| StreamRoundTrip.ReadDataLine | frontend/src/lib/api.ts:152-152 | A data line written with one blank before its text is read back as exactly that text, further blanks kept. |
| StreamRoundTrip.ReadBareDataLine | frontend/src/lib/api.ts:152-152 | A data line without a blank after the colon is read whole. |
| StreamRoundTrip.ReadAnyEventLine | frontend/src/lib/api.ts:151-151 | An event line names what is left after trimming, and goes back to the default name when nothing is. |
| StreamRoundTrip.RoundTripAnyForm | frontend/src/lib/api.ts:148-160 | Messages come back under any chunking however each is written: every data line with or without the blank, the name padded, or left out when it is the default. |
| Text.IndexOfBlank | frontend/src/lib/api.ts:144-144 | The first position of two line feeds in a row, or -1 when there is none. |
| Text.SplitJoin | frontend/src/lib/api.ts:150-150 | The pieces hold no line feed and give the text back when joined by line feeds. |
| Text.TrimCutsSpace | frontend/src/lib/api.ts:151-151 | Trimming keeps one stretch of the text; all that it cuts is white space. |
| Text.SpacesByCode | frontend/src/lib/api.ts:151-151 | The characters trimmed, by code point. |
| Journeys.UninterruptedIsUnique | scripts/live/year_feed.py:195-226 | Against fixed answers a program has one uninterrupted run. |
| ReplayTheorems.ReplayIsUninterrupted | scripts/live/year_feed.py:161-172 | After any interruptions, retries and late arrivals, a completed journey's exchanges are the uninterrupted run of its program against the backend's answers; each of its requests took effect, and no request ever took effect twice. |
| ReplayTheorems.CrashOnlyReplayIsInvisible | scripts/live/year_feed.py:191-235 | When a journey was only killed or aborted and retried, the backend has executed exactly the requests of its uninterrupted run, once each and in that order, beside late arrivals of other journeys' requests still under way. |
| ReplayTheorems.StepKeepsTraced | scripts/live/year_feed.py:161-172 | Every step keeps: what is journaled or exchanged is what the backend answered, and what took effect is in its log once. |
| ReplayTheorems.StepKeepsScheduled | scripts/live/year_feed.py:223-249 | Every step keeps: the references completed are all slots of the completed days, in order, and the open day's slots so far. |
| ReplayTheorems.CheckpointConservation | scripts/live/year_feed.py:223-249 | Over every run, customers completed are the sum over all completed days plus the open slot, the next day is the start plus the days completed and not in the future, and the stored list is the last 400 days, or all when there are fewer. |
| ReplayTheorems.LiveBranchConservesExactly | scripts/live/year_feed.py:301-304 | Starting the count over for another day would keep the balance if and only if the checkpoint named today or no slot were open. |
| ReplayTheorems.LiveBranchNeverStartsOver | scripts/live/year_feed.py:293-304 | In no reachable state is the count started over: when the live branch runs, the checkpoint names today. |
| ReplayTheorems.NoReferenceTwice | scripts/live/year_feed.py:191-228 | No day and slot is ever completed twice. |
| ReplayTheorems.EveryDayIsComplete | scripts/live/year_feed.py:217-249 | A completed day has at least its volume of customers, and each of its slots exactly once. |
| ReplayTheorems.EveryBandIsCovered | scripts/live/year_feed.py:217-217 | On a completed day of at least four customers each band has had one journey run through, by the program of that band. |
| Identities.EveryDayCoversTheBands | scripts/live/year_feed.py:53-56 | With the volumes the feed computes, every completed day of every run has had all four bands run through. |
| ReplayTheorems.StepKeepsStarted | scripts/live/year_feed.py:204-211 | Every step keeps: each open, attempted or completed journey starts at its slot's own time, or in its own day and not in the future. |
| ReplayTheorems.StartsAreOk | scripts/live/year_feed.py:204-211 | So it is in every reachable state; historical journeys belong to days that are over and to slots below the volume. |
| ReplayTheorems.NextVisitOk | scripts/live/year_feed.py:293-304 | The next journey starts so too, and is live if and only if its day is not historical. |
| ReplayTheorems.SlotsStartTogetherExactly | scripts/live/year_feed.py:205-205 | Historical journeys start between 9 and 19 o'clock, 13 seconds apart until these ten hours are full; two slots of a day start together if and only if a multiple of 36000 lies between them. |
| ReplayTheorems.StepKeepsCounts | scripts/live/year_feed.py:204-213 | Every step keeps: the counters are the snapshot of the journey's start plus what one run of its exchanges counts. |
| ReplayTheorems.ReplayCountsOnce | scripts/live/year_feed.py:206-213 | At completion the counters and grades equal the snapshot taken at the start plus one uninterrupted run's increments, whatever failed before; while nothing has miscounted they are the sum over the completed journeys. |
| ReplayCounts.ReceiptsCountExactly | scripts/live/year_feed.py:206-213 | Over every run, each completed journey has moved customers, events, purchases and each grade by exactly the sum of what its program counts after the exchanges of its trace, whatever was retried. |
| ReplayCounts.CountersAddUp | scripts/live/year_feed.py:204-213 | While nothing has miscounted, each of the counters is, field by field, that sum over all completed journeys. |
| ReplayTheorems.CountersLagExactly | scripts/live/year_feed.py:204-227 | In any reachable state, accurate counters go wrong if and only if a kill between journeys finds them unsaved or a journey is begun in place of an open one that has counted; after kill and restart between journeys they are right if and only if status.json held them. |
| ReplayTheorems.ResumesSameVisitExactly | scripts/live/year_feed.py:204-205 | In every reachable state, an interrupted journey is taken up as the same program if and only if it is historical or it is still its own day. |
| ReplayFindings.LeftOpenIsCompletedExactly | scripts/live/year_feed.py:240-248 | A journey left open on a day that is over is completed by the time the day is closed if and only if the day had not reached its volume without it. |
| ReplayFindings.FifthJourneyIsDropped | scripts/live/year_feed.py:240-248 | A run in which the fifth live journey of a day of four, killed before midnight, is never completed. |
| ReplayFindings.HistoricalClockExactly | scripts/live/year_feed.py:205-220 | In every run, all clock readings of a completed historical journey, resumed or not, fall in its day if and only if it kept its slot's own start or began at least 48 minutes before that day's end. |
| ReplayFindings.ClockIsPastExactly | scripts/live/year_feed.py:205-220 | When a historical journey begins in any run, all its clock readings are past if and only if it keeps its slot's own start or was begun more than 48 minutes before. |
| ReplayFindings.ClockLeavesItsDay | scripts/live/year_feed.py:205-220 | A run in which a historical journey, begun live half an hour before midnight, leaves its day and dates events into the future. |
| ReplayFindings.ModeChangeLeavesAnEffect | scripts/live/year_feed.py:293-304 | A run in which a live journey killed before midnight leaves an effect that its later completion does not contain. |
| ReplayFindings.CaughtFailureLeavesAnEffect | scripts/live/year_feed.py:221-232 | A run in which an attempt goes on after a caught failure and leaves an effect the completed journey does not ask for. |
| ReplayFindings.CountersCanLag | scripts/live/year_feed.py:223-227 | A run in which a kill between checkpoint and save leaves the counters behind the checkpoint. |
| YearFeed.Service.Receive | scripts/live/year_feed.py:169-169 | The backend as assumed: a known key gets its old answer without effect, a new one takes effect once. |
| YearFeed.Runner.Restore | scripts/live/year_feed.py:93-125 | Start-up takes checkpoint and counters from the files, as the machine's restart. |
| YearFeed.Runner.Kill | scripts/live/year_feed.py:85-105 | A kill loses memory and nothing else. |
| YearFeed.Runner.Save | scripts/live/year_feed.py:174-189 | Checkpoint and counters are written as they are in memory. |
| YearFeed.Runner.Api | scripts/live/year_feed.py:161-172 | A journaled call is answered without sending; any other is sent, and journaled before the journey goes on; each path is a run of the machine. |
| YearFeed.Runner.Post | scripts/live/ace_feed.py:404-415 | A sent request may or may not arrive, and its answer may or may not come back. |
| YearFeed.Runner.Answered | scripts/live/year_feed.py:170-172 | The answer is in the journal file before the journey moves on. |
| YearFeed.Runner.CallFailed | scripts/live/year_feed.py:221-232 | A failed call is counted as an error; unless a step catches it, the attempt is over and its journal stays. |
| YearFeed.Runner.BeginJourney | scripts/live/year_feed.py:192-214 | Reference, start and counter snapshot are in the checkpoint before the first call; a journey taken up again gets back its start and counters. |
| YearFeed.Runner.CommitJourney | scripts/live/year_feed.py:223-227 | Slot and customer count advance together and the open journey is cleared, in one write. |
| YearFeed.Runner.UnlinkJournal | scripts/live/year_feed.py:228-232 | The journal is removed only after the checkpoint has advanced. |
| YearFeed.Runner.Journey | scripts/live/year_feed.py:191-235 | A journey either completes once, as one uninterrupted run, or leaves its slot, start and journal for a retry. |
| YearFeed.Runner.Pursue | scripts/live/year_feed.py:216-235 | The journey after its opening: calls, the error check, checkpoint, journal. |
| YearFeed.Runner.Calls | scripts/live/year_feed.py:217-220 | The calls of a journey end, at the program's last move or at a failure that is not caught. |
| YearFeed.Runner.Day | scripts/live/year_feed.py:237-249 | A day's loop completes the missing slots and closes the day, or stops with the day open. |
| YearFeed.Runner.FinishDay | scripts/live/year_feed.py:245-249 | Closing a day appends it, keeps the last 400, and opens the next day at slot 0. |
| YearFeed.Runner.Turn | scripts/live/year_feed.py:293-306 | One turn replays a past day, which is then closed with at least its volume or still open, or runs one live journey of today, completed or not; which of the two is decided by the day that was next. |
| YearFeed.Runner.RunTurns | scripts/live/year_feed.py:290-310 | Over any number of turns, with time passing, late arrivals and kills between them, the checkpoint balances, nothing takes effect twice and every receipt is an uninterrupted run. |
| Calendar.ShiftMovesMonths | scripts/live/year_feed.py:41-44 | A shift gives a valid date exactly that many months on, its day cut to the month's length, and fails exactly outside years 1 to 9999. |
| Calendar.ShiftIsMonotone | scripts/live/year_feed.py:41-44 | Shifting is monotone in the date and in the distance, strictly in the distance. |
| Calendar.ShiftsComposeExactly | scripts/live/year_feed.py:41-44 | Two shifts equal one if and only if the month in between does not cut the day shorter than the last one does. |
| Calendar.ShiftRoundTripExactly | scripts/live/year_feed.py:41-44 | Shifting there and back is the identity for every distance if and only if the day is at most 28. |
| Calendar.SeedEndsByAnniversary | scripts/live/year_feed.py:100-101 | For 1 to 12 months of history the seed ends by the anniversary and not before the start. |
| Calendar.NextDayIsNext | scripts/live/year_feed.py:47-50 | The day after is the next ordinal, across months, years and leap days. |
| Calendar.OrdinalOrders | scripts/live/year_feed.py:47-50 | Ordinals order dates and determine them. |
| Calendar.CustomerNumbersAreDistinct | scripts/live/year_feed.py:203-203 | Two customer numbers are equal if and only if date and slot are. |
| Calendar.PhonesCollideExactly | scripts/live/ace_feed.py:189-192 | Two telephone numbers of a run are equal if and only if day of the month and slot are. |
| Calendar.PhoneFromDay | scripts/live/ace_feed.py:189-192 | Month and year do not enter a telephone number. |
| Calendar.VolumeInRange | scripts/live/year_feed.py:53-56 | For every baseline the arguments allow, a day has 4 to 12980 customers, which fits the numbering. |
| Calendar.VolumeIsNearest | scripts/live/year_feed.py:53-56 | A day's volume is the whole number nearest to the baseline times three quarters on weekends, season and jitter, or four. |
| Calendar.WeekendsAreQuieter | scripts/live/year_feed.py:53-56 | All else equal, a weekend never has more customers than a weekday. |
| Calendar.MonthLengths | scripts/live/year_feed.py:41-44 | The lengths of the twelve months. |
| Identities.DateOf | scripts/live/year_feed.py:47-50 | Every ordinal up to 31 December 9999 is that of a date. |
| Identities.CustomersOfARunAreDistinct | scripts/live/year_feed.py:191-228 | Over any run with any crashes, no two completed journeys get the same customer number; live slots must fit five digits, historical ones always do. |
| Identities.NumbersCollideExactly | scripts/live/year_feed.py:203-203 | Two completed journeys of a run get the same number if and only if their slots differ by a hundred thousand for each unit between the digits of their dates; one of them is then live with a slot of six digits or more. |
| Identities.NumbersRepeat | scripts/live/year_feed.py:203-203 | A run, with a volume the arguments allow, whose first day gets a hundred thousand and one live customers, the last with the number of the next day's first. |
| Consent.Browser.GetVisitorId | packages/client-core/src/tracking.ts:17-21 | The visitor id is made once and then kept. |
| Consent.Browser.PersistClickIds | packages/client-core/src/tracking.ts:56-69 | With marketing consent the address's identifiers replace stored ones, and twclid the cookie; without it nothing changes. |
| Consent.Browser.ForgetClickIds | packages/client-core/src/tracking.ts:31-32 | The seven stored identifiers and the cookie are removed. |
| Consent.Browser.ReadClickIds | packages/client-core/src/tracking.ts:49-55 | The identifier fields: address before store, the cookie as fallback for twclid, the two pixel cookies; all null without consent. |
| Consent.Browser.SendTrack | packages/client-core/src/tracking.ts:70-78 | A request goes out if and only if its category is essential or consented to. |
| Consent.Browser.InstallAceTracking | packages/client-core/src/tracking.ts:79-85 | Loading stores identifiers if allowed, reports the view if allowed, and always reports the essential event. |
| Consent.Browser.SaveLocalConsent | packages/client-core/src/tracking.ts:24-28 | The choice is stored at once; the rest waits in its tab. |
| Consent.Browser.ResumeSave | packages/client-core/src/tracking.ts:29-36 | The rest of a save acts on its own choice, but storing and sending go by the consent stored by then. |
| ConsentTheorems.StepKeepsSound | packages/client-core/src/tracking.ts:24-85 | Every step keeps: identifiers kept without consent are owed by the latest save, which is pending or was lost. |
| ConsentTheorems.ResidueIsOwed | packages/client-core/src/tracking.ts:24-33 | In every reachable state, identifiers stored without marketing consent mean that the latest save is a withdrawal whose second half is still pending in an open page, or was lost with a closed one. |
| ConsentTheorems.UntilGranted | packages/client-core/src/tracking.ts:24-69 | From any reachable state without consent until the next grant: nothing is stored, late grants included; the store is empty if and only if it was, or the second half of a withdrawal has run; nothing sent carries an identifier field. |
| ConsentTheorems.OnlyExposedIds | packages/client-core/src/tracking.ts:49-76 | Since any moment with an empty store, every stored or sent identifier comes from an address that was open while marketing consent held: erased ones do not come back. |
| ConsentTheorems.PostsAreConsented | packages/client-core/src/tracking.ts:70-78 | Every request ever sent was allowed by the consent of that step, carries identifier fields only under marketing consent, and names the one visitor. |
| ConsentTheorems.PostsFollowTheChoice | packages/client-core/src/tracking.ts:70-73 | In every run, a request of the analytics, marketing or personalization category, or with identifier fields, was sent under a choice whose own field of that name is true. |
| ConsentTheorems.TrackSendsExactly | packages/client-core/src/tracking.ts:70-78 | From every state, a tracking call sends exactly one request, of its category, page and the choice in force, or none, as that field of the choice says. |
| ConsentTheorems.TrackCarriesExactly | packages/client-core/src/tracking.ts:49-76 | In every reachable state, what a request carries for each of the seven identifiers and two pixel cookies, and its visitor. |
| ConsentTheorems.LoadSendsExactly | packages/client-core/src/tracking.ts:79-85 | A load sends its view if and only if analytics is granted, and then always the essential event. |
| ConsentTheorems.LoadStoresExactly | packages/client-core/src/tracking.ts:56-69 | A load with marketing granted stores each of the seven identifiers its address names and changes no other. |
| ConsentTheorems.ResumeSendsExactly | packages/client-core/src/tracking.ts:34-34 | The rest of a save sends one essential event if the choice saved has analytics, and nothing otherwise. |
| ConsentTheorems.ResumeStoresExactly | packages/client-core/src/tracking.ts:30-33 | The rest of a withdrawal leaves none of the seven identifiers and no cookie; that of a grant stores those the address names. |
| ConsentTheorems.OthersSendNothing | packages/client-core/src/tracking.ts:24-29 | No other event sends anything, and a save is in force at once. |
| ConsentTheorems.PagesExactly | packages/client-core/src/tracking.ts:70-76 | Which address and referrer a page has after each event. |
| ConsentTheorems.FirstIsFirst | packages/client-core/src/tracking.ts:58-60 | The value of a parameter is that of its first mention. |
| ConsentTheorems.SendsIdsExactly | packages/client-core/src/tracking.ts:29-84 | From any reachable state without marketing consent, any event, load, track or late half of a save, sends an identifier if and only if it sends at all and the page's address or its referrer names one. |
| ConsentTheorems.UnconsentedIdsExactly | packages/client-core/src/tracking.ts:70-78 | Over every run, a request sent without marketing consent carries an identifier if and only if the address or referrer it reports names one. |
| ConsentTheorems.ClosedPageKeepsIds | packages/client-core/src/tracking.ts:26-33 | For every identifier there is a run that withdraws consent and keeps it stored with nothing pending. |
| ConsentTheorems.GrantedIdsAreKept | packages/client-core/src/tracking.ts:49-69 | Under a grant a stored identifier stays stored and goes out from every page, however tabs come and go, until another choice, another value for it, or an earlier withdrawal running late. |
| ConsentTheorems.ResidueIsSentAfterGrant | packages/client-core/src/tracking.ts:49-55 | Whatever was not erased is sent after the next grant, from a page that does not name it. |
| Session.SessionAuthority.Initialize | packages/client-core/src/session-authority.ts:17-29 | The session store's token wins over the legacy one, which is adopted at most once and removed. |
| Session.SessionAuthority.GetSessionToken | packages/client-core/src/session-authority.ts:33-36 | The token held, after the one-time initialisation. |
| Session.SessionAuthority.Publish | packages/client-core/src/session-authority.ts:12-15 | A listening component has started its next attempt before the announcement returns. |
| Session.SessionAuthority.SetSessionToken | packages/client-core/src/session-authority.ts:38-48 | Memory and session store take the token and the legacy store is emptied; the component hears of it only if the change is published. |
| Session.SessionAuthority.ClearSessionToken | packages/client-core/src/session-authority.ts:50-59 | All three hold nothing, and the component has been told. |
| Session.CustomerBootstrap.ResolveSession | frontend/src/customer-app/CustomerBootstrap.tsx:15-21 | A new attempt becomes the newest, with the token held at that moment. |
| Session.CustomerBootstrap.OnAnswer | frontend/src/customer-app/CustomerBootstrap.tsx:21-35 | Only the newest attempt's answer counts; a denial clears the token, which starts another attempt, and then shows signed out. |
| Session.CustomerBootstrap.Install | frontend/src/customer-app/CustomerBootstrap.tsx:42-50 | Mounting listens and starts an attempt. |
| Session.CustomerBootstrap.OnPageShow | frontend/src/customer-app/CustomerBootstrap.tsx:44-44 | A restored page starts an attempt, another page event does not. |
| Session.CustomerBootstrap.Cleanup | frontend/src/customer-app/CustomerBootstrap.tsx:51-55 | Unmounting outdates every attempt. |
| SessionTheorems.StepKeepsSound | frontend/src/customer-app/CustomerBootstrap.tsx:15-56 | Every step with published changes keeps: the newest attempt has the held token, and the view tells its outcome. |
| SessionTheorems.GateIsTruthful | frontend/src/customer-app/CustomerBootstrap.tsx:15-56 | In every reachable state, a workspace is shown only to the user named for the token now held, signed out means no token, and an answer is awaited if and only if the view resolves or says signed out. |
| SessionTheorems.SessionEndsExactly | frontend/src/customer-app/CustomerBootstrap.tsx:24-30 | A held token is lost if and only if someone signs out or sets an empty one, or the backend denies that very token to the newest attempt of a mounted component. |
| SessionTheorems.SettlesExactly | frontend/src/customer-app/CustomerBootstrap.tsx:21-35 | In every reachable state, an answer of 401 or 403 to the newest attempt signs out and empties the token; any other refusal keeps it and offers a retry; an acceptance shows the user named. |
| SessionTheorems.AsksExactly | frontend/src/customer-app/CustomerBootstrap.tsx:15-56 | Which events send a request, status by status, and with which token. |
| SessionTheorems.TokenExactly | packages/client-core/src/session-authority.ts:12-59 | What each event does to the token in memory, the two stores and the count of sessions. |
| SessionTheorems.OtherAnswersAreIgnored | frontend/src/customer-app/CustomerBootstrap.tsx:22-25 | An answer about a token no longer held, or to an unmounted component, changes nothing. |
| SessionTheorems.SignedOutNeverRests | frontend/src/customer-app/CustomerBootstrap.tsx:27-29 | From signed out, any number of denials leads back to signed out with one more request each. |
| SessionTheorems.DeniedAtOnce | frontend/src/customer-app/CustomerBootstrap.tsx:27-29 | A page opened over a token the backend denies is signed out, with the next request already on its way. |
| SessionTheorems.SessionIsKept | packages/client-core/src/session-authority.ts:17-36 | Without a sign-in, sign-out, switch or denial the token held stays the session store's, or else the legacy one, over any mounts, restores, reloads and failures. |
| SessionTheorems.ReloadKeepsSession | packages/client-core/src/session-authority.ts:17-48 | After any events a reload holds the same token. |
| SessionTheorems.SwitchIsUnverifiedExactly | frontend/src/lib/api.ts:501-511 | An unpublished change leaves the shown workspace unverified if and only if it changes the token. |
| Fixtures.WriteTenants | qa/fixtures/generate-profiles.py:47-56 | The tenant and workspace rows. |
| Fixtures.WriteUsers | qa/fixtures/generate-profiles.py:57-69 | The user rows and their memberships. |
| Fixtures.WriteCampaigns | qa/fixtures/generate-profiles.py:71-79 | The campaign rows, around the workspaces in use. |
| Fixtures.WriteLeads | qa/fixtures/generate-profiles.py:81-93 | The lead rows, around the campaigns. |
| Fixtures.WriteStats | qa/fixtures/generate-profiles.py:95-103 | Ninety statistics per campaign. |
| Fixtures.WriteEvents | qa/fixtures/generate-profiles.py:105-130 | Ten events per lead, and totals that are the counts and sums of exactly those rows. |
| Fixtures.AddToTotals | qa/fixtures/generate-profiles.py:128-130 | If the totals are the counts and sums of the rows so far, after one more event they are those of the rows with it. |
| Fixtures.Generate | qa/fixtures/generate-profiles.py:35-145 | All tables, and a reconciliation that holds their accumulated totals and, column by column, the sums of the daily figures. |
| FixtureTheorems.EventNumbers | qa/fixtures/generate-profiles.py:117-121 | Event numbers are exactly 1 to ten times the leads, increasing. |
| FixtureTheorems.RefundsHavePayments | qa/fixtures/generate-profiles.py:113-126 | Every refund names an earlier, larger payment of the same lead, campaign, workspace and tenant; no payment is refunded twice. |
| FixtureTheorems.TotalsAgree | qa/fixtures/generate-profiles.py:128-139 | For every number of leads each event kind's accumulated count is its closed form (a fifth qualified, a tenth paid, a fiftieth refunded), refunds are exact, revenue is bounded and net revenue is never negative. |
| FixtureFigures.RevenueIsFixed | qa/fixtures/generate-profiles.py:119-130 | Revenue in closed form for every number of leads; 130.03 and 1300.04 million minor units for the two profiles. |
| FixtureFigures.LeadsInFull | qa/fixtures/generate-profiles.py:86-93 | How many leads are at each stage and of each marketing consent, in closed form: customers are as many as pay, and with the qualified as many as qualify. |
| FixtureFigures.LinksInFull | qa/fixtures/generate-profiles.py:82-121 | Which lead and campaign each row is about, and which event comes when: the ad before the page before the lead before qualification, payment and refund. |
| FixtureFigures.StatesInFull | qa/fixtures/generate-profiles.py:47-69 | Which tenants, workspaces and users are in use in each profile, where each user is at home, and that memberships repeat it. |
| FixtureFigures.CampaignsTakeTurns | qa/fixtures/generate-profiles.py:71-79 | Two campaigns share provider, state or workspace if and only if that many lie between them. |
| FixtureFigures.TimesInStep | qa/fixtures/generate-profiles.py:114-123 | A lead's events are a minute apart, received five seconds later, around its creation and update. |
| FixtureFigures.LeadsStartTogetherExactly | qa/fixtures/generate-profiles.py:84-85 | Two leads start at the same moment if and only if a multiple of 2200 lies between them, for every seed. |
| FixtureFigures.SeedMovesDays | qa/fixtures/generate-profiles.py:84-85 | The seed moves the starting days around the 88, and nothing else. |
| FixtureTheorems.LeadTellsItsEvents | qa/fixtures/generate-profiles.py:86-93 | A lead is a customer if and only if it has a payment event, high-band if and only if it has a qualified event, and was created when its creation event occurred. |
| FixtureTheorems.TimesInWindow | qa/fixtures/generate-profiles.py:84-123 | For every seed all lead, event and receipt times lie in the 90-day window. |
| FixtureTheorems.MarketingIsInUse | qa/fixtures/generate-profiles.py:71-126 | Every campaign, lead, statistic and event belongs to an existing campaign, workspace and tenant that fit together and are active. |
| FixtureTheorems.UsersResolveExactly | qa/fixtures/generate-profiles.py:57-65 | Every user's home is a workspace of the user's tenant if and only if the tenants divide the users. |
| FixtureTheorems.SpendIsFixed | qa/fixtures/generate-profiles.py:95-103 | Total provider spend is 130500 per campaign, for every seed. |
| FixtureFigures.ViewsInRange | qa/fixtures/generate-profiles.py:95-103 | Impressions come to 100 to 139 and clicks to 10 to 16 a statistic, for every seed. |
| FixtureFigures.StatsRepeatExactly | qa/fixtures/generate-profiles.py:95-103 | When two daily statistics have the same spend, impressions or clicks. |
| Jobs.JobFeed.SubmitMl | scripts/live/ace_feed.py:1047-1058 | A job is taken on unless one of its task is pending; the visible list keeps the newest forty. |
| Jobs.JobFeed.RunSupervised | scripts/live/ace_feed.py:1128-1148 | A supervised task scores with its artifact, or trains once; a failure on the way unmarks it. |
| Jobs.JobFeed.RegovernTask | scripts/live/ace_feed.py:1119-1121 | An artifact is withdrawn for retraining once per task. |
| Jobs.JobFeed.PollJob | scripts/live/ace_feed.py:1062-1099 | What success, final failure and any other status do to the table. |
| Jobs.JobFeed.constructor | scripts/live/year_feed.py:121-125 | After a restart the unfinished visible jobs are pending again; the record of all jobs ever taken on stays and notes those forgotten and those brought back. |
| JobTheorems.StepKeepsSound | scripts/live/ace_feed.py:1047-1100 | Every step, restarts included, keeps the table consistent with what is written down. |
| JobTheorems.OneJobPerTask | scripts/live/ace_feed.py:1016-1055 | At most one job per task is ever pending. |
| JobSteps.PollsExactly | scripts/live/ace_feed.py:1061-1100 | In every reachable state, what a poll does to pending jobs, counter, artifacts, training marks and visible lines, for every status the backend may report. |
| JobSteps.CyclesExactly | scripts/live/ace_feed.py:1128-1148 | In every reachable state, when a supervised task scores, trains, or does nothing, and what that changes. |
| JobSteps.SubmitsExactly | scripts/live/ace_feed.py:1047-1058 | Any other task submits unless a job of it is pending. |
| JobSteps.ListShowsNewest | scripts/live/ace_feed.py:1056-1057 | Between restarts the visible list shows the forty jobs taken on last, the latest first. |
| JobSteps.RestartsExactly | scripts/live/year_feed.py:121-125 | A restart waits again for exactly the saved lines of the five unfinished statuses and takes everything else from what was saved. |
| JobSteps.WithdrawnOnce | scripts/live/ace_feed.py:1119-1121 | Between restarts an artifact is withdrawn at most once per task. |
| JobSteps.TasksExactly | scripts/live/ace_feed.py:1117-1123 | Which tasks are supervised and which can be withdrawn. |
| JobTheorems.AccountIsComplete | scripts/live/ace_feed.py:1047-1058 | Over every run the account holds a job if and only if it was ever taken on, whatever restarts came between. |
| JobTheorems.JobsAreConserved | scripts/live/ace_feed.py:1061-1100 | Jobs ever taken on are the pending, the succeeded, the finally failed and those a restart forgot; the success counter counts no job twice and never more than succeeded. |
| JobTheorems.CounterIsExactUntilRestart | scripts/live/ace_feed.py:1061-1100 | Before any restart the counter is the number of successes, and no ended job is waited for again. |
| JobTheorems.EndedStaysExactly | scripts/live/year_feed.py:121-125 | Over every run with restarts, an ended job is waited for again if and only if some restart finds it unfinished in the saved list; otherwise it stays ended as it was. |
| JobTheorems.SavedEndingIsFinal | scripts/live/year_feed.py:121-125 | Once its ending has been saved, a job stays ended as it was through every run. |
| JobTheorems.UnsavedJobIsLost | scripts/live/year_feed.py:121-125 | A run in which a job taken on after the last save is forgotten. |
| JobTheorems.FailedJobComesBack | scripts/live/year_feed.py:121-125 | A run in which a finally failed job is waited for again after a restart. |
| JobTheorems.ArtifactsAreProduced | scripts/live/ace_feed.py:1070-1075 | Every artifact came out of a successful, counted training job of its task, or was there from the start. |
| JobTheorems.TrainsScoresRetrains | scripts/live/ace_feed.py:1070-1148 | A delivered artifact is what the task scores with next; after a scoring job has failed for good the task is trained anew. |
| JobTheorems.RestartKeepsExactly | scripts/live/year_feed.py:122-125 | A restart after a save keeps exactly the pending jobs with a visible unfinished line. |
| JobTheorems.StuckIsForever | scripts/live/ace_feed.py:1130-1133 | A task marked as training without job or artifact gets no job until restart. |
| JobTheorems.GetsStuckExactly | scripts/live/ace_feed.py:1067-1075 | A task gets there if and only if a job of it succeeds while it is marked, without delivering an artifact as a training job. |
| JobTheorems.RegovernedWhileScoring | scripts/live/ace_feed.py:1119-1133 | Withdrawing an artifact while a scoring job is out leads there when that job succeeds. |
| JobTheorems.TaskGetsStuck | scripts/live/ace_feed.py:1119-1133 | A run from an empty start that gets a task stuck. |
| ReleaseGate.Evaluate | qa/release_gate.py:5-28 | The gate raises exactly the objections there are, and reports complete evidence if and only if SHA, ids, candidates, statuses, scopes and digests all hold; it qualifies nothing. |
| ReleaseGate.EvaluateCase | qa/release_gate.py:12-26 | A case's own objections, no more and no fewer. |
| ReleaseGate.EvaluateEvidence | qa/release_gate.py:19-26 | An item is objected to if and only if it is incomplete, outside the root, unreadable or of another digest. |
| ReleaseGate.CompleteMeansNoObjection | qa/release_gate.py:5-28 | Nothing can be objected to if and only if the evidence is complete. |
| ReleaseGate.CompleteInFull | qa/release_gate.py:5-28 | Complete evidence, down to the fields: 40 lower-case hexadecimal digits, one record for each planned scenario and no other, each of the candidate, in scope, passed or excluded with approver and reason, with evidence inside the root whose digest is the one stated. |
| ReleaseGate.ObjectionsInFull | qa/release_gate.py:6-11 | The objections to the records as a whole, down to their fields. |
| ReleaseGate.FaultInFull | qa/release_gate.py:12-26 | The objections to one record, down to its fields. |
| ReleaseGate.WriteCases | qa/write_case_status.py:9-14 | One case per planned row, with its existing reports, never a pass. |
| ReleaseGate.WrittenInFull | qa/write_case_status.py:9-14 | A written case, field by field; its evidence is every existing report listed under what its id has before the first hyphen. |
| ReleaseGate.WrittenEvidenceStands | qa/write_case_status.py:11-14 | As long as the files stay as they were, no evidence so written is objected to. |
| ReleaseGate.WrittenCasesNeverPass | qa/write_case_status.py:9-16 | The written cases lose no scenario and invent none, and are complete if and only if nothing was planned and the SHA is valid. |
| Coverage.Rotation.FeatureWrites | scripts/live/ace_feed.py:858-865 | A cycle runs all tasks, or the next three around the list. |
| Coverage.Rotation.ReadSweep | scripts/live/ace_feed.py:1203-1213 | Reads continue around the list where the last sweep stopped. |
| Coverage.CyclesCoverExactly | scripts/live/ace_feed.py:862-865 | Consecutive partial cycles run every task if and only if there are at least a third as many as tasks, rounded up. |
| Coverage.StretchCoversExactly | scripts/live/ace_feed.py:1205-1207 | A stretch of reads hits every path if and only if it is as long as the list. |
| Coverage.RoundOfReads | scripts/live/ace_feed.py:1205-1207 | One round visits every path exactly once, wherever it starts. |
| Coverage.WorkFollowUpQueue | scripts/live/ace_feed.py:868-878 | The first open follow-ups are completed: forty when more than 300 are open, six when more than 60, else none. |
| Coverage.BacklogStaysBounded | scripts/live/ace_feed.py:873-877 | With at most forty new ones a cycle the queue never exceeds its start or 340. |
| Coverage.SteadyBacklogExactly | scripts/live/ace_feed.py:873-877 | At a steady rate the queue stays bounded for ever if and only if the rate is at most forty. |
| Coverage.SmallBacklogExactly | scripts/live/ace_feed.py:873-877 | At a steady rate the queue stays within 66 for ever if and only if at most six arrive per cycle. |
| Drafts.DraftStore.ReadDraft | packages/client-core/src/draft-store.ts:43-77 | What a form sees, and that it erases another owner's or an expired draft. |
| Drafts.DraftStore.WriteDraft | packages/client-core/src/draft-store.ts:79-106 | A write keeps the creation time of a draft it can see; an oversized or failed one stores nothing. |
| Drafts.HeldExactly | packages/client-core/src/draft-store.ts:43-106 | What is held is what the last undisturbed write left. |
| Drafts.ReadsOwnLastWriteExactly | packages/client-core/src/draft-store.ts:43-77 | Over any interleaving of forms sharing a key, a form reads a draft if and only if the last write was by its own owner and version, is unexpired and valid, and nothing has erased it since; it gets that write's value. |
| Drafts.ReadsExactly | packages/client-core/src/draft-store.ts:17-77 | The same told from the events alone: equal owners in all four parts, equal versions, within the time to live, nothing stored, cleared or visited by another owner since. |
| Drafts.CreatedExactly | packages/client-core/src/draft-store.ts:79-93 | A stored write keeps the creation time of a draft it sees and starts anew when it sees none. |
| Drafts.CreationTimeIsKept | packages/client-core/src/draft-store.ts:82-93 | Along a chain of writes that each see the draft, its creation time stays. |

## Left out

- EventStream.StreamAiJob: bytes arrive as text already; UTF-8 decoding, parsing the data as JSON, aborting, and an exception from the consumer are not modelled. As in the code, and unlike the WHATWG HTML standard, section 9.2.6, a lone CR ends no line and `id` and `retry` are ignored.
- StreamInvariance.DeliveryIsChunkInvariantExactly: one direction only for text with a block that holds both a line of two or more carriage returns alone and events of different names; what decides there is how many carriage returns each such line has, and `TwoNamesNeedMore` shows that the condition no longer suffices.
- YearFeed.Runner.Turn: the operations between journeys (feature scenarios, sweeps, AI cycles) send through no journal and are not part of the machine; a failing write to disk, signing in and the dashboard are not modelled.
- YearFeed.Runner.Restore: the check that a checkpoint belongs to the workspace and start date, and the restored feature results, are not modelled.
- ReplayTheorems.CrashOnlyReplayIsInvisible: speaks of attempts in which a failed call ends the attempt; `CaughtFailureLeavesAnEffect` shows that it fails when a step catches the failure and the attempt goes on.
- Identities.CustomersOfARunAreDistinct: for live journeys only up to the slots that fit; `NumbersCollideExactly` says what happens beyond.
- Calendar.VolumeInRange: the sine and the random factor are any reals in their ranges; floating-point rounding is not modelled.
- Calendar.PhonesCollideExactly: the offset taken from the run's digest is any number.
- Consent.Browser.SendTrack: the caller's own properties and the time of the event are not part of the request modelled; a store that throws or is edited by hand is not either.
- Consent.Browser.PersistClickIds: the cookie holds the identifier; its encoding, lifetime and flags are left out.
- Session.SessionAuthority.SetSessionToken: stores that throw are not modelled; neither is a token change that another tab makes in the legacy store.
- Fixtures.Generate: the text forms of identifiers (padded numbers), names, currencies and the files themselves are left out; the functional profile's list of names limits it to four tenants.
- Jobs.JobFeed.PollJob: whether the result counts as a pass in the report, and governing an evaluation, are left out.
- Jobs.JobFeed.constructor: the status file of the other feed, which keeps artifacts but no jobs, is not modelled.
- ReleaseGate.Evaluate: the order in which missing records are listed, the wording of objections and records that are not objects are left out.
- ReleaseGate.WriteCases: the explanatory texts and the written files are left out.
- Coverage.WorkFollowUpQueue: `BacklogStaysBounded` takes the listing to show at least as many open follow-ups as the quota asks for.
- Drafts.DraftStore.WriteDraft: sizes are not computed; too large, or no room, is an outcome of the write. The schema version, always the form's own, is left out.
- Provider calls, HTML report building, the dashboards, React rendering and the request wrapper: input and output.
- The backend: only what the assumptions say of it.
- `frontend/src/customer-app/CustomerWorkspace.tsx`: mostly view code.
- Retry policy, scope keys, mutation labels, locale helpers and route tables: they would only add easy members.
