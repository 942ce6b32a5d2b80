# Parlio API: the stateful cores, proved

This project models the parts of the Parlio API that keep state and have to get it right: the booking
engine, the outbound dialler, trials and billing, the number pool, and the smaller cores around them
(shared inbox, live-call hub, retention sweep, rate limiter, concurrency report).

Each service is written twice over the same data. A specification function takes one step on values
(`Step`, `Swept`, `Dispatch`, ...); a class or loop with the source's own mutations is proved to take
exactly that step. What the source promises is then proved about the steps: one lemma for each
operation, and a lemma by induction for whole runs.  What a step achieves is stated once more in plain
terms, without the functions that compute it, so that the specification itself is held to the promise
(the `Effects` modules, and the lemmas whose names end in `Exactly`).

Time is a whole number of microseconds on one clock with a fixed offset; money is whole pence. A
service method is one atomic step, and what it learns from outside (the carrier's answer, the
assistant's turn, a fresh reference) is a parameter.

| file | what it holds |
|---|---|
| `Wrappers.dfy`, `Clock.dfy`, `Ordered.dfy` | optional values, calendar arithmetic, increasing lists |
| `Opening.dfy`, `FreeSlots.dfy`, `Availability.dfy` | opening hours, the slot search, the offer to a team |
| `Bookings.dfy`, `BookingEffects.dfy`, `SimulatedDiary.dfy` | booking, moving and cancelling in shared diaries; the in-memory provider |
| `CallingWindow.dfy`, `Phone.dfy`, `Outbound.dfy`, `OutboundEffects.dfy`, `OutboundSafety.dfy`, `OutboundService.dfy` | the dialler |
| `Subscriptions.dfy`, `TrialEffects.dfy`, `TrialTimeline.dfy`, `Credits.dfy`, `NumberPool.dfy` | trials, invoices and credit, numbers |
| `Inbox.dfy`, `InboxEffects.dfy`, `InboxService.dfy` | conversations, hand-over, late answers |
| `LiveHub.dfy`, `Retention.dfy`, `RateLimiting.dfy`, `Concurrency.dfy` | the smaller cores |

## Where the code falls short of its promise

Each of these is proved with the exact condition under which the promise holds, and most with an input
that breaks it.

- An offered start can be refused when it is booked: availability asks the calendar about the range
  alone, booking about the slot with its buffer (`Availability.OfferIsHonoured`).
- A booking made for a team member without a calendar name of its own is afterwards looked up in the
  account's default calendar, whatever calendar the connection names (`Bookings.CalendarIsFoundAgain`).
  Just there double booking comes back (`Bookings.StepKeeps`), and nothing done later makes it good
  (`Bookings.NeverDoubleBooked`): booked, moved and booked again, a member has two appointments at once
  (`Bookings.BookedTwice`).
- Rescheduling leaves out every diary entry with the appointment's own times, so an appointment can be
  moved onto an entry that the calendar's owner made at those times (`Bookings.OwnersEntryIsExcludedToo`,
  `Bookings.MovedOntoOwnersEntry`).
- Rescheduling checks the service's length, not the booking's own, so a longer booking can be moved to
  run past closing time (`Bookings.RescheduledWithinHours`).
- The simulated calendar's references repeat after a deletion, and deleting by one can drop somebody
  else's appointment (`SimulatedDiary.DeleteUndoesCreate`, `SimulatedDiary.RefsRepeat`).
- A schedule marked as always open ignores its holidays, although the description of the window
  function says they are honoured (`Opening.ClosedHolidayHonoured`, `Opening.HolidayHoursHonoured`,
  `Opening.BareHolidayKeepsWeek`).
- The daily cap on calls to a number counts only the jobs in one listing of the store: it holds exactly
  while every dial finds a call to spare in the true count (`OutboundSafety.DailyCapHolds`), and a desk
  of one job more than a listing breaks it (`OutboundSafety.CapNeedsFullListing`).
- Expiring stale dials and dispatching due ones read the newest five thousand jobs of all desks
  together: a job with that many newer ones is neither expired nor dialled
  (`OutboundService.Service.ExpireStale`, `OutboundService.ScannedIfRecent`).
- The overlap count of the concurrency report misses calls hidden by calls of no length
  (`Concurrency.OverlapsCounted`, `Concurrency.ZeroLengthCallIsMissed`).
- Masking callers happens only together with redacting words: a missed call, with neither transcript
  nor summary, keeps its full number (`Retention.MaskedWithWords`, `Retention.MissedCallKeepsNumber`).
  Likewise it keeps the details extracted from it (`Retention.ExtractedWithWords`).
- The retention sweep never gets past the newest five thousand old calls: it leaves nothing behind
  exactly when those beyond are clean already (`Retention.SweepLeavesNothingBehind`), and a call beyond
  them is passed over by every sweep until it is purged (`Retention.OldestNeverReached`). A call with a
  summary is counted again every night (`Retention.CountedAgain`).
- A late conversation that is closed and opened again keeps its mark but not its deadline: its next
  unanswered message is never flagged (`Inbox.LateMarkKept`, `Inbox.ReopenedLateIsMissed`).
- The sweep for late answers is shown the newest five thousand conversations of all tenants together:
  an unanswered message is marked exactly when its conversation is among them, its deadline has passed
  and the conversation was not marked before (`InboxService.UnansweredIsMarked`). One older than that is
  never marked, however late the answer (`InboxService.OldIsUnshown`, `InboxService.UnshownIsNeverMarked`).
- A contact can end up with two open conversations on a channel: when a closed one is reopened or
  answered, and when the open one is older than the newest two thousand (`InboxService.OneOpenKept`).
- A supervisor's line does not cut the transcript, so it can grow past two hundred lines until the next
  item comes (`LiveHub.TranscriptIsTail`, `LiveHub.OneLineTooMany`).
- A late event revives an ended call once a thousand others have ended (`LiveHub.LateEventRevives`).
- A period closed while the account is not served draws credit without an invoice for the rest
  (`Credits.CloseAccountsForGross`, `Credits.AccountsBalance`).
- Only the newest thousand credits are drawn on or counted: credit is drawn first in, first out exactly
  when those beyond are used up or nothing is drawn (`Credits.EarlierCreditsFirst`).
- Only the newest thousand numbers in stock are looked through, and only a tenant's newest thousand are
  returned on closing: calls stay routed to a closed account exactly when it had more
  (`NumberPool.NumberService.FindStocked`, `NumberPool.NumberService.CloseAccount`).
- A number bought but not routed to the trunk is billed and on no record, and no later step finds it
  (`NumberPool.StrandingBreaks`, `NumberPool.RunConserves`).

## Model

| member | source | states |
|---|---|---|
| Opening.DayWindow | apps/api/parlio_api/calendar.py:269-279 | a day's window is not empty and stays between its two midnights, so windows of different days never meet |
| Opening.HolidayOn | apps/voice-worker/parlio_voice/models.py:107-109 | the override used is one entered for that very day, and none is missed |
| Opening.ClosedHolidayHonoured | apps/api/parlio_api/calendar.py:269-279 | a day marked as closed is closed if and only if the schedule is not always open |
| Opening.HolidayHoursHonoured | apps/api/parlio_api/calendar.py:269-279 | an override's own hours are the day's window if and only if the schedule is not always open or they come to the same |
| Opening.BareHolidayKeepsWeek | apps/api/parlio_api/calendar.py:269-279 | an override without hours of its own leaves the weekly hours, if and only if the schedule is not always open or they come to the same |
| Opening.WeekHonoured | apps/api/parlio_api/calendar.py:269-279 | on a day without an override the day's window is that of its weekday, if that opens before it closes, and none otherwise |
| Opening.AlwaysOpen | apps/api/parlio_api/calendar.py:269-271 | an always-open schedule opens every day from midnight to a minute before the next |
| FreeSlots.FindFreeSlots | apps/api/parlio_api/calendar.py:299-347 | the nested day and cursor loop returns exactly the first `limit` starts that are offerable, in strictly increasing order, and ends even on a grid of zero |
| Ordered.FirstOfUnique | apps/api/parlio_api/calendar.py:299-347 | at most one list is the first `limit` starts of a set in order, so the search's answer is fixed by what is offerable |
| FreeSlots.CursorTried | apps/api/parlio_api/calendar.py:339-345 | one turn of the inner loop keeps the cursor exactly when it is offerable, and skips no offerable start up to the next one |
| FreeSlots.CursorIsOfferable | apps/api/parlio_api/calendar.py:339-345 | for a cursor within the day's window the loop's own tests decide offerability, and it never passes midnight |
| FreeSlots.DayOpens | apps/api/parlio_api/calendar.py:282-288 | rounding the first cursor up to the grid, even past midnight, skips no offerable start |
| FreeSlots.DayCloses | apps/api/parlio_api/calendar.py:339-346 | leaving a day at the first cursor that no longer fits skips no offerable start |
| Availability.GriddedSearchIsTheCheck | apps/api/parlio_api/calendar.py:299-379 | on a grid, for a service that is not an emergency, the search offers a start if and only if the point check allows it, it lies in the range and horizon, and its padded slot is clear |
| Availability.OfferedIsAllowed | apps/api/parlio_api/calendar.py:350-379 | every start offered, on a grid or not, passes the point check made at booking time |
| Availability.UrgentOffer | apps/api/parlio_api/calendar.py:299-347 | an emergency service that may ignore the rules is offered exactly every quarter of an hour from the day's start, the range's or now, to a minute before midnight, within the range and horizon and clear of the diary by the gap |
| Availability.UngriddedOffer | apps/api/parlio_api/calendar.py:299-347 | without a grid an appointment is offered exactly at the first moment that opening, range and notice allow and every usual length after that, within hours, range and horizon and clear of the diary by the gap |
| Availability.GriddedOffer | apps/api/parlio_api/calendar.py:299-347 | on a grid it is offered exactly at the grid points of the day within hours, range, notice and horizon, clear of the diary by the gap |
| Availability.AllowedExactly | apps/api/parlio_api/calendar.py:350-379 | the point check passes an emergency up to five minutes past, and anything else exactly within notice, horizon, hours and grid |
| Availability.RefusedForAReason | apps/api/parlio_api/calendar.py:350-379 | each refusal's reason is true of the start refused |
| Availability.FreeSeesWholeDiary | apps/api/parlio_api/calendar.py:1232-1236 | asking only about the padded slot gives the same answer as looking at the whole diary |
| Availability.OfferIsHonoured | apps/api/parlio_api/calendar.py:981-993 | an offered start is free when booked, whatever the diary, if and only if its padding lies inside the range that was asked about |
| Availability.PaddedFetchIsHonoured | apps/api/parlio_api/calendar.py:981-993 | had the calendar been asked about the padded range, every offered start would be allowed and free |
| Availability.OfferTeam | apps/api/parlio_api/calendar.py:994-1016 | sixty starts a member, merged and cut to twenty, are exactly the first twenty starts of the whole team |
| Availability.TeamListIsExact | apps/api/parlio_api/calendar.py:994-1016 | cutting each member's list at sixty loses nothing: the first twenty of the cut lists are the first twenty of the uncut union |
| Availability.OfferMember | apps/api/parlio_api/calendar.py:996-1014 | one member's list is the first sixty starts of that member's own hours and diary, and empty without a reachable calendar |
| Availability.Merge | apps/api/parlio_api/calendar.py:1004-1015 | merging by start adds exactly the starts listed |
| Availability.SortKeys | apps/api/parlio_api/calendar.py:1016-1016 | the merged starts come out once each, in increasing order |
| Availability.OfferedStartHasATaker | apps/api/parlio_api/calendar.py:1137-1161 | an offered team start whose padding lies in the range leaves a member who passes both checks, on that member's own hours and diary |
| Availability.OfferedInOwnHours | apps/api/parlio_api/calendar.py:994-1016 | an ordinary start offered for a team lies within the own hours of a reachable member, or the tenant's if it has none |
| Availability.TeamOffersExactly | apps/api/parlio_api/calendar.py:981-1016 | a team is offered exactly what a reachable member is offered, on its own hours if it has any, given what its calendar shows of the range |
| Bookings.TakerIsCanTake | apps/api/parlio_api/calendar.py:1143-1161 | the offer's check on a member and the check made at booking time agree, when both look into the same diary |
| Bookings.OfferedIsBookable | apps/api/parlio_api/calendar.py:1137-1161 | an offered team start whose padding lies in the range can be booked at that instant: somebody passes the very check that booking makes, so booking succeeds |
| BookingEffects.BookableExactly | apps/api/parlio_api/calendar.py:1088-1161 | a slot can be booked with a member exactly when the connection is bookable, the service known, the member reachable, its hours and the rules allow the start, and nothing in its diary comes within the gap |
| BookingEffects.NotBookableForAReason | apps/api/parlio_api/calendar.py:1088-1161 | the reason why it cannot is the first true one, in the order of the checks |
| BookingEffects.MembersDiary | apps/api/parlio_api/calendar.py:868-880 | a member books into its own calendar, else its connection's, else the account's default one; not at all if its connection is gone or not bookable |
| BookingEffects.BookedAsAsked | apps/api/parlio_api/calendar.py:1088-1227 | a booking lasts the service's minutes, else those asked for, else the usual ones, is made for the start and member asked, and puts its slot into that member's diary; nothing else changes |
| BookingEffects.EditableExactly | apps/api/parlio_api/calendar.py:1333-1348 | only a booking of ours that is not cancelled can be changed, and each error is the true one |
| BookingEffects.ReassignableExactly | apps/api/parlio_api/calendar.py:1340-1366 | a booking goes to another member exactly when that one is active, reachable and has room at its time |
| BookingEffects.ReassignedAsAsked | apps/api/parlio_api/calendar.py:1340-1366 | reassigning changes the member and the diary, and leaves slot, service and status |
| BookingEffects.MovableExactly | apps/api/parlio_api/calendar.py:1368-1408 | a booking moves exactly when the member's hours and the primary rules allow the new start and the diary has room, entries at its old times aside |
| BookingEffects.RescheduledAsAsked | apps/api/parlio_api/calendar.py:1368-1411 | a moved booking starts when asked, keeps its length, service and member, stands confirmed, and its diary entry moves with it; nothing else changes |
| BookingEffects.CancelledAsAsked | apps/api/parlio_api/calendar.py:1413-1430 | cancelling marks the booking, deletes its entry and changes nothing else |
| BookingEffects.RefusedChangesNothing | apps/api/parlio_api/calendar.py:1340-1430 | a change that is refused changes nothing |
| BookingEffects.OwnersSeen | apps/api/parlio_api/calendar.py:1232-1236 | what owners enter themselves is seen in that diary and touches nothing of ours |
| BookingEffects.LookedUpIn | apps/api/parlio_api/calendar.py:1323-1331 | a booking is looked up in its member's calendar, or the default one, of its own connection's account |
| Ordered.MergeLosesNothing | apps/api/parlio_api/calendar.py:994-1016 | for any lists cut no shorter than the merged one, the first few of the merge are the first few of the union of the whole sets |
| Bookings.NeverDoubleBooked | apps/api/parlio_api/calendar.py:1088-1430 | over every run of booking, reassigning, rescheduling and cancelling, the entries in our diaries stay exactly the live bookings' slots, none shared, and entries of a diary the buffer apart, if and only if each booking for a member is looked up where it went |
| Bookings.OrphanForGood | apps/api/parlio_api/calendar.py:1293-1430 | an entry outside the default calendars that no booking finds again is never deleted, and never found, by any run |
| Bookings.AstrayIsOrphan | apps/api/parlio_api/calendar.py:1323-1331 | a booking entered in one calendar and looked up in another leaves such an entry |
| Bookings.StepKeeps | apps/api/parlio_api/calendar.py:1088-1430 | a step keeps diaries and bookings matched and spaced if and only if it makes no booking that will be looked up in another diary |
| Bookings.TracedSetUp | apps/api/parlio_api/calendar.py:868-880 | when every member names a calendar or falls back on a default one, every booking of every run is looked up where it went |
| Bookings.BookedTwice | apps/api/parlio_api/calendar.py:1293-1331 | a run of three steps, on a member without a calendar name and a connection with one, that leaves the member with two live bookings at one time |
| Bookings.LiveBookingsApart | apps/api/parlio_api/calendar.py:1088-1430 | two live bookings in one diary are at least the buffer apart |
| Bookings.BookKeeps | apps/api/parlio_api/calendar.py:1088-1201 | booking keeps diaries and bookings matched and spaced if and only if the member it goes to names a calendar, or the connection uses the default one |
| Bookings.ReassignKeeps | apps/api/parlio_api/calendar.py:1340-1366 | moving a booking to another member keeps diaries and bookings matched and spaced if and only if that member names a calendar, or the connection uses the default one |
| Bookings.RescheduleKeeps | apps/api/parlio_api/calendar.py:1368-1411 | moving a booking in time, its own slot left out of the check, keeps diaries and bookings matched and spaced |
| Bookings.CancelKeeps | apps/api/parlio_api/calendar.py:1413-1430 | cancelling removes one entry and keeps the rest matched and spaced |
| Bookings.MoveIsCancelThenPlace | apps/api/parlio_api/calendar.py:1293-1321 | deleting and creating the event leaves what cancelling and booking afresh would |
| Bookings.ExclusionIsExact | apps/api/parlio_api/calendar.py:1395-1406 | of our own entries in the diary, leaving out the periods equal to the booking's slot leaves out the booking's entry and no other |
| Bookings.OwnersEntryIsExcludedToo | apps/api/parlio_api/calendar.py:1395-1406 | a move that passes the check clears every entry of the owner if and only if none with the appointment's old times lies in the way |
| Bookings.MovedOntoOwnersEntry | apps/api/parlio_api/calendar.py:1395-1406 | an appointment moved by an hour passes the check although its owner's entry lies in the way |
| Bookings.CalendarIsFoundAgain | apps/api/parlio_api/calendar.py:1323-1331 | the diary looked up later is the one booked into if and only if the member names a calendar or the connection uses the default one |
| Bookings.RescheduledWithinHours | apps/api/parlio_api/calendar.py:1383-1391 | every allowed new start keeps the booking inside opening hours if and only if the booking is no longer than the service's length, or notice outlasts the horizon and nothing is allowed |
| Bookings.OwnerEditKeeps | apps/api/parlio_api/calendar.py:1232-1236 | whatever others put into the diaries, our entries stay matched and spaced |
| Bookings.KeepPartitions | apps/api/parlio_api/calendar.py:1133-1142 | preferring members that cover the area splits the pool into two lists that together hold each member just as often |
| Bookings.KeepInOrder | apps/api/parlio_api/calendar.py:1133-1142 | each of the two lists keeps the order of the pool |
| Bookings.CalendarService.Book | apps/api/parlio_api/calendar.py:1088-1201 | booking succeeds if and only if somebody (or the sole diary) can take the slot, then makes exactly that step, with somebody who covers the area if such a member can; everyone turned down by the rules gives one of their reasons, anything else a taken slot; a refusal changes nothing |
| Bookings.CalendarService.FindTakers | apps/api/parlio_api/calendar.py:1137-1161 | the candidates can all take the slot: everyone able when no area is known, exactly those able who cover it when there is one, and failing that one other at most; none only if nobody can |
| Bookings.CalendarService.TryMember | apps/api/parlio_api/calendar.py:1143-1161 | the verdict on one member is that of the specification, reason included |
| Bookings.CalendarService.Reassign | apps/api/parlio_api/calendar.py:1340-1366 | makes exactly the specified step, and every error leaves all as it was |
| Bookings.CalendarService.Reschedule | apps/api/parlio_api/calendar.py:1368-1411 | asks the primary connection's rules with the booking's service and the member's hours, then makes exactly the specified step; every error leaves all as it was |
| Bookings.CalendarService.Cancel | apps/api/parlio_api/calendar.py:1413-1430 | cancels once, answers again without effect, and refuses what it does not own |
| Bookings.CalendarService.CreateEvent | apps/api/parlio_api/calendar.py:1293-1321 | enters the booking in the diary under the new reference |
| Bookings.CalendarService.DeleteEvent | apps/api/parlio_api/calendar.py:1293-1321 | removes the entry with that reference and no other |
| SimulatedDiary.DeleteUndoesCreate | apps/api/parlio_api/calendar.py:423-439 | deleting by the reference just given undoes the creation if and only if no entry already held it |
| SimulatedDiary.RefsRepeat | apps/api/parlio_api/calendar.py:423-439 | after creations only, deleting an entry makes the next reference repeat if and only if it was not the last |
| SimulatedDiary.CreatedExactly | apps/api/parlio_api/calendar.py:423-428 | creating adds one entry numbered after those held and makes its time busy in that diary alone |
| SimulatedDiary.DeletedExactly | apps/api/parlio_api/calendar.py:430-439 | deleting takes the first entry with the reference and its time from that diary, or nothing |
| SimulatedDiary.SimulatedBackend.CreateEvent | apps/api/parlio_api/calendar.py:423-428 | appends the entry and the busy period, numbered by how many are held |
| SimulatedDiary.SimulatedBackend.DeleteEvent | apps/api/parlio_api/calendar.py:430-439 | drops the first entry with the reference and one equal busy period, or nothing |
| CallingWindow.FindNextWindow | apps/api/parlio_api/outbound.py:320-333 | the loop over days returns the specified instant |
| CallingWindow.NextWindowIsLeast | apps/api/parlio_api/outbound.py:320-333 | the result is the least callable instant at or after the one given |
| CallingWindow.NextWindowIsInside | apps/api/parlio_api/outbound.py:315-333 | it lies in the calling window if and only if the window starts before it ends |
| CallingWindow.RaisesOnlyWithoutDays | apps/api/parlio_api/outbound.py:320-333 | eight days are enough: the search fails if and only if no weekday is allowed |
| CallingWindow.CallableExactly | apps/api/parlio_api/outbound.py:315-318 | calls may be made on an allowed weekday from the window's start until before its end, and at its very start |
| CallingWindow.SevenDaysFail | apps/api/parlio_api/outbound.py:320-333 | seven would not be: they fail if and only if today's opening has passed and today is the only weekday allowed |
| CallingWindow.NextWindowIdempotent | apps/api/parlio_api/outbound.py:320-333 | asking again from the answer gives the answer |
| CallingWindow.NextWindowMonotone | apps/api/parlio_api/outbound.py:320-333 | a later question never gets an earlier answer |
| Phone.NormaliseIdempotent | apps/api/parlio_api/outbound.py:336-344 | a normalised number normalises to itself, so list lookups agree |
| Phone.NormaliseShape | apps/api/parlio_api/outbound.py:336-344 | a normalised number starts with a plus and holds digits and pluses only |
| Phone.FormsAgree | apps/api/parlio_api/outbound.py:336-344 | the national form, the bare and the plus form and the one with an exit code of a British number normalise alike |
| Phone.PunctuationIgnored | apps/api/parlio_api/outbound.py:336-337 | characters that are neither digits nor plus signs make no difference |
| Phone.CountriesByCode | apps/api/parlio_api/outbound.py:347-351 | a number's country is told by its code |
| OutboundSafety.StepEvolves | apps/api/parlio_api/outbound.py:597-1034 | no step loses a job, and each leaves it idle, closed, answered, settled or dialled, in those ways only |
| OutboundEffects.ScheduledAsAsked | apps/api/parlio_api/outbound.py:711-774 | a job is planned for the first calling instant from the time asked for, or now, exactly when policy, lists, consent and country permit it and there is time before its deadline; it is suppressed exactly when listed or blocked; and cancelled otherwise |
| OutboundEffects.NothingStored | apps/api/parlio_api/outbound.py:711-774 | nothing is stored exactly when the assistant is unknown or a permitted call finds no weekday |
| OutboundEffects.StoredExactly | apps/api/parlio_api/outbound.py:711-774 | a job scheduled is stored behind those there are; a new policy replaces the old one |
| OutboundEffects.DialledExactly | apps/api/parlio_api/outbound.py:832-866 | a waiting job is dialled exactly when in time, not listed, enabled, inside the window and under the cap or asked for by a person, with its assistant there; and closed exactly when too late, listed, or without its assistant |
| OutboundEffects.PutOffUntil | apps/api/parlio_api/outbound.py:847-862 | otherwise it is put off: by the retry gap, to the next calling instant, or to the first one a day later |
| OutboundEffects.DispatchedAsDecided | apps/api/parlio_api/outbound.py:832-883 | a dispatch sets a status, a time, or a dialled call with its attempt, and nothing else |
| OutboundEffects.OthersNotDispatched | apps/api/parlio_api/outbound.py:797-811 | only a job that waits is ever dispatched |
| OutboundEffects.RetriedExactly | apps/api/parlio_api/outbound.py:885-901 | after an attempt that reached nobody a job is retried exactly while attempts are left and there is time after the gap, at the first calling instant; else it is exhausted; any other outcome completes it |
| OutboundEffects.SettlingFails | apps/api/parlio_api/outbound.py:885-901 | settling raises exactly when a retry is due and no weekday is left |
| OutboundEffects.StoredAfterAttempt | apps/api/parlio_api/outbound.py:902-908 | only an opt-out or a wrong number changes more than the job |
| OutboundEffects.EndedAsReported | apps/api/parlio_api/outbound.py:1003-1022 | an active job is settled with the outcome noted during its call, or else the reported one, or as a ticket where one was raised and nothing final said |
| OutboundEffects.StartedAsReported | apps/api/parlio_api/outbound.py:997-1008 | a call that starts puts a dialled job in progress; the end of a job not active changes nothing |
| OutboundEffects.ExpiredExactly | apps/api/parlio_api/outbound.py:813-830 | a dial is given up exactly when its job is active and was last called the stale time ago |
| OutboundEffects.JobFound | apps/api/parlio_api/outbound.py:1024-1033 | a foreign call belongs to the newest job, of those shown, last called under its id |
| OutboundEffects.SuppressedExactly | apps/api/parlio_api/outbound.py:601-618 | suppressing lists one number and drops the waiting jobs to it among the newest five hundred |
| OutboundEffects.UnsuppressedExactly | apps/api/parlio_api/outbound.py:623-624 | taking a number off the list takes that one off and brings no job back |
| OutboundEffects.CancelledExactly | apps/api/parlio_api/outbound.py:776-785 | cancelling stops a waiting job and no other |
| OutboundSafety.RunKeepsJobs | apps/api/parlio_api/outbound.py:711-932 | over every run, attempts are numbered 1, 2, .. up to the maximum, a waiting job has one left, an active one has begun |
| OutboundSafety.OneAttemptIsNeeded | apps/api/parlio_api/outbound.py:858-883 | the maximum holds after the first dial if and only if it is at least one |
| OutboundSafety.TerminalIsFinal | apps/api/parlio_api/outbound.py:885-932 | no step moves a job out of a terminal status or gives it an attempt |
| OutboundSafety.ChangeBurnsFuel | apps/api/parlio_api/outbound.py:832-932 | every dial, answer, outcome, expiry or closing lowers the job's measure; any other step, a deferral included, leaves it exactly as it was |
| OutboundSafety.JobsComeToRest | apps/api/parlio_api/outbound.py:832-932 | over every run a job changes at most four times per attempt allowed, and once more |
| OutboundSafety.AttemptsAreGated | apps/api/parlio_api/outbound.py:832-883 | an attempt is only added by dispatching a waiting job with the policy on, before its deadline, to a number not suppressed; unasked, also inside the window and under the cap |
| OutboundSafety.DoNotCallHolds | apps/api/parlio_api/outbound.py:601-627 | over every run in which a number is not taken off the list, no job to it gains an attempt, not even by hand |
| OutboundSafety.SuppressedForGood | apps/api/parlio_api/outbound.py:601-622 | from the moment of suppression, however the number was written, nobody dials it until it is taken off |
| OutboundSafety.OptOutIsListed | apps/api/parlio_api/outbound.py:905-908 | a call that ends in an opt-out or a wrong number puts the number on the list |
| OutboundSafety.DailyCapHolds | apps/api/parlio_api/outbound.py:787-883 | over every run on an ordered clock, no closed 24 hours hold more attempts to a number than the cap, over all jobs and failed dials included, if and only if every dial, automated or by hand, found fewer than the cap in the day before, listed or not |
| OutboundSafety.DialKeepsCap | apps/api/parlio_api/outbound.py:866-883 | a dial keeps the cap if and only if the listed and the unlisted calls to the number in the last day are fewer than the cap |
| OutboundSafety.OneListingKeepsCap | apps/api/parlio_api/outbound.py:787-875 | so it holds for every tenant whose jobs fit in one listing, when nobody dials by hand, whatever the clock does |
| OutboundSafety.CountIsWhole | apps/api/parlio_api/outbound.py:787-795 | the count is the true one if and only if no job beyond one listing called the number in the last day |
| OutboundSafety.CapNeedsFullListing | apps/api/parlio_api/outbound.py:787-795 | with one job more than a listing holds, the cap can be broken |
| OutboundService.Service.SuppressNumber | apps/api/parlio_api/outbound.py:601-622 | the listed waiting jobs to the number are suppressed, and only those |
| OutboundService.Service.CountToday | apps/api/parlio_api/outbound.py:787-795 | the nested count over the listing is the specified one |
| OutboundService.Service.SettleJob | apps/api/parlio_api/outbound.py:885-932 | retry, exhaustion, completion or failure as specified, raising only where the window search does |
| OutboundService.Service.FinishAttempt | apps/api/parlio_api/outbound.py:885-932 | the outcome is stored, and suppresses the number when it must |
| OutboundService.Service.DispatchJob | apps/api/parlio_api/outbound.py:832-883 | closes, defers, dials or fails the job exactly as specified, raising only where no calling window can be found |
| OutboundService.Service.Decide | apps/api/parlio_api/outbound.py:832-866 | the gates at dial time in their order |
| OutboundService.Service.OnCallEnded | apps/api/parlio_api/outbound.py:1003-1022 | a call's end settles its job once, and only while the job is active; a job known only by a foreign call id is looked for among those a scan over all desks shows |
| OutboundService.Service.ExpireStale | apps/api/parlio_api/outbound.py:813-830 | a run of expiries after which the stale jobs are exactly those that were stale and that the scan over all desks does not show, unless no calling day is left |
| OutboundService.Service.Due | apps/api/parlio_api/outbound.py:797-811 | lists exactly the waiting jobs whose time has come, of those that a scan over all desks shows, earliest first |
| OutboundService.Service.Tick | apps/api/parlio_api/outbound.py:1241-1247 | a turn of the loop is the expiries and then one automated dispatch for each due job that the scan over all desks shows, in order of time, and counts them; it ends early only where no calling day is left |
| OutboundService.ScannedIfRecent | apps/api/parlio_api/outbound.py:797-830 | a desk's job is shown in a scan if and only if fewer than five thousand jobs, of whatever desks, came after it |
| OutboundService.OthersUntouched | apps/api/parlio_api/outbound.py:1241-1247 | dispatching one job changes no other, so a list read beforehand stays good |
| TrialTimeline.RunSound | apps/api/parlio_api/billing.py:951-1305 | every run of opening, rolling, sweeping, changing plan, checkout, extending and converting keeps the trial's timeline in order |
| TrialTimeline.NeverEarly | apps/api/parlio_api/billing.py:1033-1149 | a trial without a card never lapses before its end, is never paused before the grace days, never closed before the closing days |
| TrialTimeline.ViewAgreesWithService | apps/api/parlio_api/billing.py:993-1031 | what the dashboard says about calls being answered is what happens to the calls |
| TrialTimeline.NoticesRunInOrder | apps/api/parlio_api/billing.py:1043-1102 | between extensions each notice is sent at most once, reminders before expiry before pause before closing |
| TrialTimeline.StepRises | apps/api/parlio_api/billing.py:1033-1102 | a notice sent now ranks above all those sent since the last extension |
| TrialTimeline.ThreeSweepsClose | apps/api/parlio_api/billing.py:1033-1102 | once every deadline has passed, three sweeps close any trial without a card |
| TrialEffects.OpenedAsPromised | apps/api/parlio_api/billing.py:951-970 | a new tenant is on trial for the starter plan's days, or active at once, and served |
| TrialEffects.ReadAsPromised | apps/api/parlio_api/billing.py:952-959 | reading leaves a period that contains now: over, it moves to the month, the coupon has a month less, and a trial without a card lapses into grace; else nothing changes |
| TrialEffects.ClosedOnce | apps/api/parlio_api/billing.py:952-959 | a period is closed once: read again in its month nothing more happens |
| TrialEffects.PlanChangedAsAsked | apps/api/parlio_api/billing.py:1151-1191 | a change of plan gives a running trial the new plan's days from the opening, or ends it; otherwise only plan and coupon change |
| TrialEffects.PayingActivates | apps/api/parlio_api/billing.py:1208-1226 | whatever its state, a tenant that pays on the spot is active on its plan, answered, and out of the trial's lifecycle |
| TrialEffects.OthersReportBack | apps/api/parlio_api/billing.py:1208-1226 | with any other provider checking out only changes the plan |
| TrialEffects.ConvertingActivates | apps/api/parlio_api/billing.py:1294-1305 | a converted tenant is active without a trial, and answered; nothing else changes |
| TrialEffects.ExtendedAsPromised | apps/api/parlio_api/billing.py:1280-1292 | an extension counts from the trial's end or now; a trial without a card runs again to that instant with every notice to come; anyone else keeps its status |
| TrialEffects.RemindedExactly | apps/api/parlio_api/billing.py:1052-1067 | a running trial is sent exactly the last reminder whose day has come, unless it was sent |
| TrialEffects.StagesExactly | apps/api/parlio_api/billing.py:1053-1096 | a stage ends exactly at its instant, is told once, and leads to the next one with its status and reason |
| TrialEffects.DaysShownExactly | apps/api/parlio_api/billing.py:1005-1031 | the dashboard names the stage and counts its days left, a begun one as a whole |
| TrialTimeline.PlanChangedSound | apps/api/parlio_api/billing.py:1151-1191 | changing plan, coupon or not, keeps the timeline in order |
| TrialTimeline.ExtendedSound | apps/api/parlio_api/billing.py:1280-1292 | an extension starts the notices again and keeps the period open to the new end |
| TrialTimeline.TrialService.SweepTrials | apps/api/parlio_api/billing.py:1033-1106 | each tenant listed is swept exactly once as specified and hears at most one notice; a tenant not listed is left as it is |
| TrialTimeline.TrialService.SweepSub | apps/api/parlio_api/billing.py:1043-1102 | the branches for one trial give the specified subscription and notice |
| Credits.DiscountsStayWithinPrice | apps/api/parlio_api/billing.py:268-273 | no discount exceeds the price, whatever the price, if and only if neither part of the coupon is negative |
| Credits.CouponTakesOff | apps/api/parlio_api/billing.py:268-273 | a coupon takes off its percentage, rounded down, then its amount, never below nothing |
| Credits.CouponRunsItsMonths | apps/api/parlio_api/billing.py:1119-1149 | a coupon for m months discounts exactly m closed periods (at least one), an unlimited one all of them |
| Credits.DrawnExactly | apps/api/parlio_api/billing.py:1333-1350 | of the credits listed, drawing takes exactly the smaller of balance and request, and changes no grant |
| Credits.ListedDrawnExactly | apps/api/parlio_api/billing.py:1326-1350 | the whole balance falls by the smaller of the request and the balance of the newest thousand credits, and no grant changes |
| Credits.EarlierCreditsFirst | apps/api/parlio_api/billing.py:1326-1350 | a later credit is touched only when all earlier ones are used up, if and only if nothing is drawn or every credit beyond one listing is used up |
| Credits.EarlierDrawnFirst | apps/api/parlio_api/billing.py:1333-1350 | among the credits listed a later one is touched only when all earlier ones are used up |
| Credits.NewestAreShown | apps/api/parlio_api/billing.py:1326-1331 | of more than a thousand credits just the last thousand count |
| Credits.BillAddsUp | apps/api/parlio_api/billing.py:1545-1552 | total and credit make up the gross, the total is what the balance leaves, the credit is within the balance, the discount within the price |
| Credits.BillHoldsEverything | apps/api/parlio_api/billing.py:1545-1552 | gross is the price after the coupon with all extras, and credit pays as much of it as there is |
| Credits.CloseAccountsForGross | apps/api/parlio_api/billing.py:1119-1149 | what a close invoices and takes off the balance is its gross if and only if the account is served or the balance listed covers it |
| Credits.AccountsBalance | apps/api/parlio_api/billing.py:1119-1350 | at every point of every run, granted is drawn plus remaining; invoiced plus drawn never exceeds what was charged, and equals it if and only if every close was served or covered by the balance listed |
| Credits.ChangeConserves | apps/api/parlio_api/billing.py:1119-1350 | what one grant or one close does to the balance and the invoices |
| Credits.Account.ConsumeCredits | apps/api/parlio_api/billing.py:1326-1350 | the loop draws on the newest thousand credits in order, and leaves those beyond as they are |
| Credits.Account.GrantCredit | apps/api/parlio_api/billing.py:1307-1324 | a grant is appended whole |
| Credits.Account.ClosePeriod | apps/api/parlio_api/billing.py:1119-1149 | a close draws the credit, up to the balance listed, and, when served, invoices the rest |
| NumberPool.RunConserves | apps/api/parlio_api/billing.py:1695-1891 | over every run, each number the carrier bills is in exactly one record, and calls are routed for exactly the tenants' numbers, each to its own tenant, if and only if no purchase on the way was stranded without a route |
| NumberPool.StepConserves | apps/api/parlio_api/billing.py:1695-1891 | a step keeps this if and only if it strands no purchase |
| NumberPool.StrandingBreaks | apps/api/parlio_api/billing.py:1712-1714 | a number bought whose routing then fails is billed and on no record |
| NumberPool.RunKeepsStray | apps/api/parlio_api/billing.py:1695-1891 | no run puts such a number back on record, or gives it up |
| NumberPool.BuyingConserves | apps/api/parlio_api/billing.py:1695-1728 | buying stock keeps this if and only if the carrier has not sold us the number before |
| NumberPool.ProvisioningFromStockConserves | apps/api/parlio_api/billing.py:1747-1805 | handing a number out of stock keeps it |
| NumberPool.ProvisioningFromCarrierConserves | apps/api/parlio_api/billing.py:1755-1805 | buying for a tenant keeps it if and only if the carrier has not sold us the number before |
| NumberPool.ReturningConserves | apps/api/parlio_api/billing.py:1855-1873 | taking a number back into stock keeps it, and costs us no number |
| NumberPool.ReleasingConserves | apps/api/parlio_api/billing.py:1875-1891 | giving a tenant's number up keeps it |
| NumberPool.PoolReleasingConserves | apps/api/parlio_api/billing.py:1730-1745 | giving a stocked number up keeps it |
| NumberPool.ReviewConserves | apps/api/parlio_api/billing.py:1807-1853 | the carrier's verdict on a pending number keeps it |
| NumberPool.BoughtIsStocked | apps/api/parlio_api/billing.py:1695-1728 | a number bought is in stock, ready if it needs no review |
| NumberPool.ProvidedServes | apps/api/parlio_api/billing.py:1755-1805 | a number provided belongs to its tenant, its calls go there, and other tenants' numbers stay |
| NumberPool.ReturnedIsStocked | apps/api/parlio_api/billing.py:1855-1873 | a number returned is in stock with its status: ready for the next tenant if it was in service |
| NumberPool.ReturnUndoesHandOut | apps/api/parlio_api/billing.py:1747-1873 | handing a number out and taking it back leaves everything as it was |
| NumberPool.ReleaseUndoesBuying | apps/api/parlio_api/billing.py:1755-1891 | so does buying a number for a tenant and giving it up |
| NumberPool.PoolReleaseUndoesBuying | apps/api/parlio_api/billing.py:1695-1745 | and buying one for stock and giving it up |
| NumberPool.ReviewedExactly | apps/api/parlio_api/billing.py:1807-1853 | a verdict settles the record it is about and no other |
| NumberPool.NumberService.BuyPoolNumbers | apps/api/parlio_api/billing.py:1695-1728 | exactly the offers before a refusal or a failed routing are stocked; the books stay straight if and only if no routing fails, whose number is billed and nothing more; earlier stock, owners and routes stay as they were |
| NumberPool.NumberService.FindStocked | apps/api/parlio_api/billing.py:1747-1753 | finds a ready record of the number exactly when there is one among the newest thousand in stock |
| NumberPool.NumberService.ProvisionNumber | apps/api/parlio_api/billing.py:1755-1805 | succeeds if and only if the tenant is admitted, its listing does not show the number, and the number is in the stock listed, or sold and routed; then exactly the specified step is made, from stock if it is there; failure changes nothing, but for a number sold and not routed |
| NumberPool.NumberService.ReturnNumberToPool | apps/api/parlio_api/billing.py:1855-1873 | succeeds for the owner alone, and moves the number |
| NumberPool.NumberService.ReleaseNumber | apps/api/parlio_api/billing.py:1875-1891 | succeeds for the owner alone, and gives the number up |
| NumberPool.NumberService.ReleasePoolNumber | apps/api/parlio_api/billing.py:1730-1745 | gives up the stocked record if there is one |
| NumberPool.NumberService.CloseAccount | apps/api/parlio_api/billing.py:1085-1090 | closing an account returns every number its listing shows to stock, and leaves no call routed to it if and only if it has no more than a thousand |
| Inbox.SummaryAgrees | apps/api/parlio_api/inbox.py:886-900 | over every run the cached count is the number of messages, the preview and direction those of the latest one that is not a note |
| InboxEffects.NewThreadIsOpen | apps/api/parlio_api/inbox.py:852-883 | a new conversation is open with the assistant on, nobody assigned and nothing unread or due |
| InboxEffects.TextWaits | apps/api/parlio_api/inbox.py:916-935 | a text nobody answers at once is filed, unread, opens a closed thread and waits for its deadline, an earlier one standing |
| InboxEffects.CannedReplyGoesOut | apps/api/parlio_api/inbox.py:936-960 | a keyword's or reminder's reply goes out after the text; nothing is unread or late any more |
| InboxEffects.AssistantReplies | apps/api/parlio_api/inbox.py:961-1001 | the assistant's reply goes out and counts as one thing to read |
| InboxEffects.AssistantHandsOver | apps/api/parlio_api/inbox.py:961-1001 | handing over silences the assistant and leaves the thread waiting with a new deadline and its ticket; a web visitor is told |
| InboxEffects.PersonReplies | apps/api/parlio_api/inbox.py:1038-1052 | a person's reply goes out, silences the assistant, takes the thread if nobody has it, and is announced to a web visitor on joining |
| InboxEffects.NoteChangesNothing | apps/api/parlio_api/inbox.py:1072-1084 | a note changes nothing that the contact or a deadline depends on |
| InboxEffects.CallIsFiled | apps/api/parlio_api/inbox.py:1217-1254 | a call is a message, unread when missed; one we made answers everything |
| InboxEffects.ClosingCloses | apps/api/parlio_api/inbox.py:1100-1113 | closing closes: nothing is unread, no deadline runs, and a web visitor is told the first time |
| InboxEffects.UpdatedAsAsked | apps/api/parlio_api/inbox.py:1086-1135 | an update sets what it is asked to and leaves the rest |
| InboxEffects.OnTimeIsLeft | apps/api/parlio_api/inbox.py:1257-1293 | the sweep leaves alone what is not late |
| InboxEffects.LateIsMarked | apps/api/parlio_api/inbox.py:1257-1293 | what is late is marked, and no more where no callback is needed |
| InboxEffects.CallbackOpened | apps/api/parlio_api/inbox.py:1257-1293 | somebody still waiting without a ticket gets one, and a web visitor its number |
| Inbox.AgentStaysSilent | apps/api/parlio_api/inbox.py:916-1052 | after a person replies or is called in, the assistant is not consulted on the thread until it is switched back on |
| Inbox.SweepTwice | apps/api/parlio_api/inbox.py:1257-1293 | a thread flagged is left alone by every later sweep, and a sweep repeated at the same instant flags nothing |
| Inbox.CallbacksBounded | apps/api/parlio_api/inbox.py:1257-1293 | over every run the sweep opens at most one callback ticket per hand-over, and one more |
| Inbox.LateMarkKept | apps/api/parlio_api/inbox.py:1086-1135 | a step leaves a late mark backed by a passed deadline if and only if it does not close a late thread |
| Inbox.LateMarksDeserved | apps/api/parlio_api/inbox.py:886-1293 | over every run in which no late thread is closed, a mark means the present deadline has passed |
| Inbox.UnansweredIsFlagged | apps/api/parlio_api/inbox.py:916-961 | a text not answered at once, whatever the reason, is due to be flagged if and only if the thread was not marked before and the deadline that stands, an earlier one if there is one, has passed |
| Inbox.FreshDeadlineIsWatched | apps/api/parlio_api/inbox.py:916-1293 | after every run in which no late thread is closed, a text not answered at once on a thread without a deadline is due to be flagged if and only if its own deadline has passed |
| Inbox.ReopenedLateIsMissed | apps/api/parlio_api/inbox.py:1086-1135 | a late thread closed and opened again: its next unanswered text is never flagged, at any later time |
| InboxService.ThreadRunsAlone | apps/api/parlio_api/inbox.py:852-1293 | in a run of the whole inbox each thread goes through exactly its own steps |
| InboxService.ArrivesInOneThread | apps/api/parlio_api/inbox.py:852-1254 | what arrives touches its own thread alone, a new one if there was none |
| InboxService.OpenForExactly | apps/api/parlio_api/inbox.py:852-883 | a thread is open for a contact when it is that tenant's, channel's and identity's and not closed |
| InboxService.EverySummaryAgrees | apps/api/parlio_api/inbox.py:886-900 | over every run of the whole inbox each thread's summary is that of its messages |
| InboxService.OneOpenKept | apps/api/parlio_api/inbox.py:852-883 | a step leaves each contact of a tenant at most one open thread on a channel if and only if it opens no closed one beside another, and no new one beside one too old to be shown |
| InboxService.UnansweredIsMarked | apps/api/parlio_api/inbox.py:1257-1293 | a sweep marks a thread with an unanswered text if and only if the sweep is shown the thread, its deadline has passed and it was not marked before |
| InboxService.UnshownIsNeverMarked | apps/api/parlio_api/inbox.py:1257-1293 | over every run in which no sweep is shown a thread, the thread is never marked |
| InboxService.OldIsUnshown | apps/api/parlio_api/inbox.py:1260-1260 | a thread is shown to a sweep if and only if fewer than five thousand threads, of whatever tenants, are newer |
| InboxService.Service.Append | apps/api/parlio_api/inbox.py:886-900 | the message is stored, and count, preview, unread and deadline follow |
| InboxService.Service.Deliver | apps/api/parlio_api/inbox.py:1003-1036 | the outgoing message is stored, and the unread count set as asked |
| InboxService.Service.Announce | apps/api/parlio_api/inbox.py:1054-1070 | a status line goes to web chat only, and answers nothing |
| InboxService.Service.FindOrOpen | apps/api/parlio_api/inbox.py:852-883 | the newest open thread of that tenant's contact and channel among the tenant's newest two thousand, or a new one only when there is none among them |
| InboxService.Service.Inbound | apps/api/parlio_api/inbox.py:916-1001 | a text is filed, answered and handed over as specified |
| InboxService.Service.Answer | apps/api/parlio_api/inbox.py:936-1001 | keyword, reminder reply, assistant, hand-over, in that order |
| InboxService.Service.Reply | apps/api/parlio_api/inbox.py:1038-1052 | a person's reply takes the thread, pauses the assistant and is announced on joining, as far as the messages listed show it to be the first |
| InboxService.Service.Note | apps/api/parlio_api/inbox.py:1072-1084 | a note is stored without touching preview or direction |
| InboxService.Service.Update | apps/api/parlio_api/inbox.py:1086-1135 | status, owner, assistant and read marks change as asked, in order |
| InboxService.Service.OnCallEnded | apps/api/parlio_api/inbox.py:1217-1254 | a call is filed in its contact's thread, unread when missed |
| InboxService.Service.SweepSla | apps/api/parlio_api/inbox.py:1257-1293 | every thread among the newest five thousand of all tenants is swept exactly once as specified, no other is touched, and those reported are exactly those that became late |
| LiveHub.FeedRunKeeps | apps/api/parlio_api/live.py:195-218 | however sending and reading interleave, a queue is the end of what it was offered, within its bound, and its reader gets messages in order, none twice |
| LiveHub.NothingMissed | apps/api/parlio_api/live.py:210-218 | a queue offered no more than it can hold, or without a bound, loses nothing, however sending and reading interleave |
| LiveHub.OnlyFullQueuesDrop | apps/api/parlio_api/live.py:210-218 | only a full queue loses a message, and just the oldest |
| LiveHub.SignalRunApart | apps/api/parlio_api/live.py:142-183 | over every run, no call is both live and remembered as ended |
| LiveHub.EndedStaysEnded | apps/api/parlio_api/live.py:142-183 | over every run in which its end is still remembered, nothing revives an ended call |
| LiveHub.LateEventRevives | apps/api/parlio_api/live.py:120-183 | a late event revives an ended call if and only if a thousand others have ended since |
| LiveHub.Feed.Put | apps/api/parlio_api/live.py:210-218 | a full queue drops its oldest message, never the newest |
| LiveHub.Feed.Get | apps/api/parlio_api/live.py:195-218 | reading takes the oldest message still queued |
| LiveHub.OfferAll | apps/api/parlio_api/live.py:210-218 | every queue in the set is offered the message exactly once |
| LiveHub.LiveCallHub.Publish | apps/api/parlio_api/live.py:210-218 | the tenant's queues are offered the message, and nobody else's is touched |
| LiveHub.LiveCallHub.Subscribe | apps/api/parlio_api/live.py:195-201 | a new queue starts with a snapshot of exactly the tenant's live calls |
| LiveHub.LiveCallHub.Unsubscribe | apps/api/parlio_api/live.py:203-208 | that queue leaves, and no other |
| LiveHub.LiveCallHub.OnEvent | apps/api/parlio_api/live.py:142-183 | an event folds into its call and reaches its tenant's queues once, with what it carries, unless it is late, or ends a call not known |
| LiveHub.SnapshotIsOwn | apps/api/parlio_api/live.py:127-131 | a snapshot holds all of the tenant's live calls and nobody else's |
| LiveHub.FirstEventOpens | apps/api/parlio_api/live.py:156-166 | a first event opens its call, ringing, for its tenant |
| LiveHub.EventMeetsItsCall | apps/api/parlio_api/live.py:142-183 | an event of a known call is folded into that one |
| LiveHub.EventTellsOneThing | apps/api/parlio_api/live.py:64-102 | each event tells one thing of its call and leaves the rest |
| LiveHub.CountersCount | apps/api/parlio_api/live.py:64-102 | over any events of a call its transfers, tickets and escalation are those told |
| LiveHub.LineSaysWhat | apps/api/parlio_api/live.py:75-91 | a line is what was said and by whom, a supervisor's wordless command named instead |
| LiveHub.CarriedExactly | apps/api/parlio_api/live.py:142-183 | dashboards are told a line's words and an end's reason, and of anything else just the call |
| LiveHub.TranscriptIsTail | apps/api/parlio_api/live.py:64-102 | over any events of a call its transcript is the last two hundred lines said if and only if no more were said or no supervisor has spoken since the last item |
| LiveHub.TranscriptSoFar | apps/api/parlio_api/live.py:64-102 | over any events of a call its transcript is the last two hundred lines said, and as many more as supervisors have added since the last item |
| LiveHub.OneLineTooMany | apps/api/parlio_api/live.py:76-91 | two hundred items and one supervisor's line leave two hundred and one lines |
| Retention.SweepLeavesNothingBehind | apps/api/parlio_api/compliance.py:172-200 | no surviving call past its age keeps recordings, transcript or unredacted summary if and only if every old call beyond the limit was clean before |
| Retention.PassCleans | apps/api/parlio_api/compliance.py:179-200 | for any limit, a pass leaves all clean if and only if every call it does not reach was clean |
| Retention.SweepKeepsYoung | apps/api/parlio_api/compliance.py:172-200 | a sweep takes no words, details or caller from a call within the age for transcripts, no recordings within that for recordings, and no surviving call its place |
| Retention.YoungIsKept | apps/api/parlio_api/compliance.py:186-200 | the same for redacting one call |
| Retention.OldIsReplaced | apps/api/parlio_api/compliance.py:192-198 | past its age a summary gives way to the notice, and a caller is masked only where that is asked for |
| Retention.MaskHidesTheEnd | apps/api/parlio_api/compliance.py:85-88 | masking hides the last six characters, or everything of a shorter number |
| Retention.KeptExactly | apps/api/parlio_api/compliance.py:176-178 | exactly the calls no older than the limit survive the purge, each as often as before |
| Retention.KeptInOrder | apps/api/parlio_api/compliance.py:176-178 | and in the same order |
| Retention.RecordingsCounted | apps/api/parlio_api/compliance.py:188-190 | the first counter counts the calls whose recordings go |
| Retention.WordsCounted | apps/api/parlio_api/compliance.py:191-199 | the second counts those whose words go |
| Retention.SweepMasks | apps/api/parlio_api/compliance.py:172-200 | a sweep within its limit leaves the caller of a call past the age for transcripts hidden if and only if it was hidden, or the call had a transcript or a summary |
| Retention.SweepForgets | apps/api/parlio_api/compliance.py:172-200 | a sweep within its limit leaves a call past the age for transcripts without extracted details if and only if it had none, or had a transcript or a summary |
| Retention.MaskedWithWords | apps/api/parlio_api/compliance.py:192-198 | redacting one call, past the age for transcripts, hides its caller if and only if it was hidden, or there were words to redact |
| Retention.ExtractedWithWords | apps/api/parlio_api/compliance.py:192-195 | redacting one call, past the age for transcripts, leaves no extracted details if and only if there were none, or there were words to redact |
| Retention.MissedCallKeepsNumber | apps/api/parlio_api/compliance.py:186-200 | a missed call without transcript or summary keeps its full number through the sweep, although masking is asked for |
| Retention.LaterSweepAbsorbs | apps/api/parlio_api/compliance.py:172-200 | sweeping twice leaves the rows that the later sweep alone would leave if and only if the later one misses no call the earlier one changed; so always within its limit |
| Retention.RedactAbsorbs | apps/api/parlio_api/compliance.py:85-200 | redacting a call again later gives what redacting later alone gives, masking included |
| Retention.OldestNeverReached | apps/api/parlio_api/compliance.py:179-187 | behind as many old calls as the limit, a call is left as it is by every list of sweeps at which it is not yet purged |
| Retention.CountedAgain | apps/api/parlio_api/compliance.py:186-201 | dropped recordings are counted once; a redacted call is counted again if and only if it has a summary |
| Retention.ComplianceService.SweepTenant | apps/api/parlio_api/compliance.py:172-209 | the rows, the number purged and both counters are those specified |
| RateLimiting.ServedIsLimited | apps/api/parlio_api/observability.py:208-234 | over every run of requests to the limiter, of any keys in any order, no closed minute, wherever it begins, holds more accepted hits of a key than the highest limit its requests met |
| RateLimiting.RateIsLimited | apps/api/parlio_api/observability.py:208-234 | the same for a bare sequence of request times under a fixed limit |
| RateLimiting.WindowsWithinLimit | apps/api/parlio_api/observability.py:222-234 | the same for every history whose hits were each let in under the limit |
| RateLimiting.RateLimiter.Check | apps/api/parlio_api/observability.py:222-234 | lets a request in if and only if fewer than the limit of the whole history fall in the last minute; what remains is exact; nothing but the key's own state changes |
| RateLimiting.LetInExactly | apps/api/parlio_api/observability.py:222-234 | nobody is turned away needlessly: a request is let in if and only if the closed minute up to it holds fewer accepted hits of its key than the limit, and is told exactly what remains |
| RateLimiting.KeptAreRecent | apps/api/parlio_api/observability.py:226-230 | after pruning, the deque's length counts the last minute of the whole history |
| RateLimiting.Prune | apps/api/parlio_api/observability.py:226-228 | pruning drops old hits only, from the front, and stops at the first recent one |
| Concurrency.Sweep | apps/api/parlio_api/insights.py:399-415 | the peak is the most calls running at any instant, and the time given is the earliest at which it is reached |
| Concurrency.SweepEvents | apps/api/parlio_api/admin.py:891-901 | one pass over sorted starts and ends keeps the running peak and its time |
| Concurrency.PeakIsPeak | apps/api/parlio_api/insights.py:399-415 | the highest tally in the sorted events is the highest number of calls running, ties and calls of no length included |
| Concurrency.OverlapsCounted | apps/api/parlio_api/insights.py:407-413 | the overlap count never exceeds the calls that begin during an earlier one, and equals it if and only if none of them is hidden by calls of no length |
| Concurrency.PositiveLengthsAreCounted | apps/api/parlio_api/insights.py:407-413 | when every call lasts some time the count is exactly those calls |
| Concurrency.ZeroLengthCallIsMissed | apps/api/parlio_api/insights.py:407-413 | a call of no length in the middle of another goes uncounted |

## Left out

- Bookings.NeverDoubleBooked: assumes that the provider hands out a reference it does not hold already, that connections and members stay the same during a run, and that no provider call fails between deleting an event and creating it again.
- Bookings.CalendarService.Book: the choice among several free members is any pick of theirs; the policy behind it is not part of this model, and neither is the path through an external scheduler. A service is looked up by its id, not by its name.
- FreeSlots.FindFreeSlots: a requested duration is not negative; the code would accept a negative one.
- OutboundSafety.DailyCapHolds: the clock does not run backwards between dispatches; the direction from spare calls to the cap needs no clock.
- OutboundService.Service.Tick: of the other desks' jobs it sees only how many of this desk's a scan shows; in the code a dispatch for another desk that finds no calling window ends the turn for all.
- OutboundService.Service.OnCallEnded: a late end event of an older attempt is taken for the latest one, as in the code, which compares no attempt numbers.
- RateLimiting.RateLimiter.Check: the clock does not run backwards between requests of a key.
- Retention.LaterSweepAbsorbs: for a policy that does not change between the sweeps.
- Concurrency.Sweep: every call ends no earlier than it starts.
- TrialTimeline.RunSound: staff setting a status by hand and payment webhooks are not among the steps; they do not reset the notices.
- Inbox.AgentStaysSilent: one call of the service is one step; a ticket opened by the sweep does not come back to change the thread meanwhile.
- InboxService.Service.FindOrOpen: names and contact records, which it fills in on the way, are not modelled.
- LiveHub.LiveCallHub.OnEvent: queued messages hold the call as it was; in the code they share the one call object, so a slow reader sees later changes. Listening in, taking over and approvals are not modelled.
- Time zones and daylight saving: one fixed offset. Floating-point rounding of days and minutes: whole numbers. The length of a month: the month around an instant is a parameter.
- Phone numbers: decimal digits of ASCII only; other Unicode digits pass the code's own test.
- Exceptions of the store, the carrier or the provider, other than a refused sale, a failed routing, a failed dial, a failed ticket and an empty calling week.
- Texts for people: refusal reasons are cases, notifications and e-mails are not sent.
- Leads, tickets and message templates that the dialler and the inbox touch besides their own state; contacts and their names.
- HTTP, authentication, signatures, language models, connectors, analytics and reports other than the two concurrency sweeps: no state of their own that the properties above speak about.
- Easier relatives of the machines above: connector retries, alert reconciliation, roadmap votes, counters.
