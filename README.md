# Salon platform: queue and booking lifecycle in Dafny

This project models the core of a salon booking platform:

- the per-salon live queue (`QueueService`);
- the booking lifecycle that drives it (`BookingService`): online booking, confirmation after payment, walk-ins, start, completion, cancellation, no-shows and the overdue sweep;
- the query rules of the queue, booking and barber repositories;
- the entity helpers of `Booking`, `User` and `Salon`;
- the guard chains and record patches of the salon, review, authentication, user-profile and notification services.

How the model is laid out:

- **One database object.** `Store.Store` is a class with one `seq` per table: users, salons, services, barbers, bookings, queue entries, reviews and notifications. An entity's id is its index. A deleted review or notification leaves `None` behind, so ids stay stable. A further `seq` logs the live-queue broadcasts. The services are modules whose methods take the store and state, field by field, what they modify.
- **Invariants.** Every method keeps `Store.Valid()`:
  - every booking refers to existing rows;
  - every queue entry refers to a booking that is past the pending stage;
  - a booking has at most one entry;
  - the position of a waiting entry is mirrored on its booking;
  - phone numbers are unique.
- **Time.** Time is whole minutes: the clock is a `now` parameter, and a time of day is minutes after midnight.
- **Failures.** A failure is a value (`Failure`: not found, a business rule, not queued, a null counter, a duplicate phone, a bad page size). Every service method runs in one transaction, so each method states that a failure writes nothing to the tables. The live-queue broadcasts are not rolled back: `confirmBooking` and `processOverdueBookings` can fail after broadcasting, and their contracts say which broadcasts were sent.
- **Repositories** are functions over the tables, specified by exactly which rows they return and, where the query orders them, in what order.
- **Order-dependent code is imperative.** The reorder loop of the queue and the wait-estimate loop are `while` loops proved against reference functions. The loop of `processOverdueBookings` is one too.

Two things the model follows as the code is written, not as one might idealise them:

- Tail positions are one past the largest position of any status, so waiting positions have gaps except right after a reorder.
- The reorder loop estimates each wait on the partly renumbered table.

## Model

| member | source | states |
|---|---|---|
| Domain.MinusMinutes | src/main/java/com/salonplatform/service/BookingService.java:345 | the cutoff lies exactly the given number of minutes before the clock reading |
| Entities.IsLate | src/main/java/com/salonplatform/entity/Booking.java:98-103 | a booking is late exactly when it has not started and more than the grace minutes have passed since its estimated start (strictly) |
| Entities.MarkStarted | src/main/java/com/salonplatform/entity/Booking.java:105-108 | the booking is in progress and its actual start is now; every other field is as it was |
| Entities.MarkCompleted | src/main/java/com/salonplatform/entity/Booking.java:110-113 | the booking is completed and its actual end is now; every other field is as it was |
| Entities.StartedIsNeverLate | src/main/java/com/salonplatform/entity/Booking.java:98-108 | after markStarted the booking is in progress and is never late, whatever the grace and the clock |
| Entities.LatenessPersists | src/main/java/com/salonplatform/entity/Booking.java:98-103 | a booking late at one time is late at every later time |
| Entities.StartThenComplete | src/main/java/com/salonplatform/entity/Booking.java:105-113 | markStarted then markCompleted record both times and the status Completed, and leave every other field as it was |
| Entities.IncrementNoShowCount | src/main/java/com/salonplatform/entity/User.java:109-111 | fails exactly on an unset counter; otherwise the no-show count rises by one and nothing else changes |
| Entities.IncrementTotalBookings | src/main/java/com/salonplatform/entity/User.java:113-115 | fails exactly on an unset counter; otherwise the booking count rises by one and nothing else changes |
| Entities.IsBlacklisted | src/main/java/com/salonplatform/entity/User.java:117-119 | an unset no-show counter is a null-value failure; otherwise blacklisted exactly when the counter is at least three |
| Entities.IsAccountNonLocked | src/main/java/com/salonplatform/entity/User.java:93-96 | an unset active flag is a null-value failure; otherwise non-locked exactly when the flag is true |
| Entities.IsEnabled | src/main/java/com/salonplatform/entity/User.java:103-106 | an unset active flag is a null-value failure; otherwise enabled exactly when the account is active and verified |
| Entities.EnabledIsNonLocked | src/main/java/com/salonplatform/entity/User.java:93-106 | isEnabled and isAccountNonLocked fail on the same users; an enabled account is non-locked, and enabled means non-locked and verified |
| Entities.BlacklistPersists | src/main/java/com/salonplatform/entity/User.java:109-119 | a blacklisted customer is still blacklisted after one more no-show (no operation lowers the count) |
| Entities.NoShowsAdd | src/main/java/com/salonplatform/entity/User.java:109-111 | k no-shows in a row add exactly k to a set counter and change nothing else |
| Entities.ThirdNoShowBlacklists | src/main/java/com/salonplatform/entity/User.java:109-119 | a customer with no no-shows is blacklisted after k more exactly when k is at least 3 |
| Entities.OvernightSalonNeverOpen | src/main/java/com/salonplatform/entity/Salon.java:102-105 | at minute granularity: a salon is never open at a minute unless its opening minute is strictly before its closing minute, and never at its exact opening or closing minute; a salon whose closing minute is the opening minute plus one is open at no minute |
| Entities.IsOpenNow | src/main/java/com/salonplatform/entity/Salon.java:102-105 | a salon switched closed is never open now, and a salon open now opens before it closes |
| Entities.RoundHalfUp2 | src/main/java/com/salonplatform/entity/Salon.java:113 | the result has at most two decimals and keeps the sign of its argument |
| Entities.RoundHalfUp2Error | src/main/java/com/salonplatform/entity/Salon.java:113 | two-decimal half-up rounding moves a value by at most half a hundredth, ties going away from zero |
| Entities.RoundHalfUp2Bounds | src/main/java/com/salonplatform/entity/Salon.java:113 | rounding keeps a value that lies between 0 and a whole bound within those bounds |
| Entities.UpdateRating | src/main/java/com/salonplatform/entity/Salon.java:107-116 | the review count rises by one, the first rating is taken as given, and no field other than rating and count changes |
| Entities.UpdateRatingStaysOnScale | src/main/java/com/salonplatform/entity/Salon.java:107-116 | with ratings on the 0..5 scale the updated rating stays on it and is within half a hundredth of the exact weighted mean |
| BarberRepository.BySalon | src/main/java/com/salonplatform/repository/BarberRepository.java:12 | exactly the barbers of the salon, each once, in table order |
| BarberRepository.AvailableBySalon | src/main/java/com/salonplatform/repository/BarberRepository.java:13 | exactly the salon's barbers who are available, each once, in table order, and as many as there are such barbers |
| BarberRepository.FindByUserId | src/main/java/com/salonplatform/repository/BarberRepository.java:14 | none exactly when no barber belongs to the user; otherwise a barber of that user |
| BarberRepository.AvailableByLoad | src/main/java/com/salonplatform/repository/BarberRepository.java:16-19 | exactly the salon's available barbers, each once, by ascending number of services done |
| BookingRepository.ByCustomer | src/main/java/com/salonplatform/repository/BookingRepository.java:15 | exactly the customer's bookings, each once, in table order |
| BookingRepository.BySalon | src/main/java/com/salonplatform/repository/BookingRepository.java:16 | exactly the salon's bookings, each once, in table order |
| BookingRepository.ByBarber | src/main/java/com/salonplatform/repository/BookingRepository.java:17 | exactly the bookings assigned to the barber, each once, in table order |
| BookingRepository.ByStatus | src/main/java/com/salonplatform/repository/BookingRepository.java:18 | exactly the bookings with the status, each once, in table order |
| BookingRepository.Where | src/main/java/com/salonplatform/repository/BookingRepository.java:15-18 | the ids of exactly the bookings that pass the filter, each once, in increasing order |
| BookingRepository.ActiveBySalon | src/main/java/com/salonplatform/repository/BookingRepository.java:20-23 | exactly the salon's pending, confirmed and in-progress bookings, each once, by ascending estimated start |
| BookingRepository.UpcomingByCustomer | src/main/java/com/salonplatform/repository/BookingRepository.java:25-28 | exactly the customer's pending and confirmed bookings, each once, by descending estimated start |
| BookingRepository.BySalonAndDateRange | src/main/java/com/salonplatform/repository/BookingRepository.java:30-35 | exactly the salon's bookings estimated to start within the range, both ends included, each once, ascending; an empty range finds nothing |
| BookingRepository.CountOnlineBookingsToday | src/main/java/com/salonplatform/repository/BookingRepository.java:37-41 | the exact number of the salon's online pending or confirmed bookings estimated to start at or after now, and so zero exactly when there is none |
| BookingRepository.IsOverdue | src/main/java/com/salonplatform/repository/BookingRepository.java:43-45 | a booking is overdue at a cutoff exactly when it is confirmed and late at the cutoff with no grace |
| BookingRepository.FindOverdueBookings | src/main/java/com/salonplatform/repository/BookingRepository.java:43-46 | exactly the confirmed, unstarted bookings estimated to start strictly before the cutoff, in table order |
| BookingRepository.OverdueGrowsWithCutoff | src/main/java/com/salonplatform/repository/BookingRepository.java:43-46 | every booking overdue at a cutoff is overdue at any later cutoff |
| QueueRepository.BySalon | src/main/java/com/salonplatform/repository/QueueRepository.java:15 | exactly the salon's entries of every status, each once, by ascending position |
| QueueRepository.BySalonAndStatus | src/main/java/com/salonplatform/repository/QueueRepository.java:14 | exactly the salon's entries with the status, each once, by ascending position |
| QueueRepository.FindByBookingId | src/main/java/com/salonplatform/repository/QueueRepository.java:17 | none exactly when no entry belongs to the booking; otherwise an entry of that booking |
| QueueRepository.MaxPosition | src/main/java/com/salonplatform/repository/QueueRepository.java:19-20 | none exactly when the salon has no entry; otherwise the largest position over the salon's entries of every status, held by one of them |
| QueueRepository.CountWaiting | src/main/java/com/salonplatform/repository/QueueRepository.java:22-24 | zero exactly when the salon has no waiting entry |
| QueueRepository.CountWaitingIsListLength | src/main/java/com/salonplatform/repository/QueueRepository.java:14-24 | the waiting count equals the length of the salon's waiting list |
| UserRepository.FindByPhone | src/main/java/com/salonplatform/repository/UserRepository.java:12 | none exactly when no user has the phone; otherwise the user with it |
| UserRepository.FindByEmail | src/main/java/com/salonplatform/repository/UserRepository.java:13 | none exactly when no user has the email; otherwise the user with it |
| UserRepository.FirstWhere | src/main/java/com/salonplatform/repository/UserRepository.java:12-13 | the first user that passes the filter, or none exactly when no user does |
| NotificationService.Send | src/main/java/com/salonplatform/service/NotificationService.java:103-114 | every send… call appends exactly one notification: to the booking's customer, about that booking, unread, in-app, of the call's fixed type; the earlier ones are untouched |
| NotificationService.UnreadCount | src/main/java/com/salonplatform/service/NotificationService.java:79-81 | the exact number of the user's stored unread notifications, and so zero exactly when there is none |
| NotificationService.RecentNotifications | src/main/java/com/salonplatform/service/NotificationService.java:74-76 | a page size below one is refused; otherwise the newest min(limit, n) of the user's n stored notifications, newest first: every notification of the user left off the page is older than every one on it |
| NotificationService.Mine | src/main/java/com/salonplatform/service/NotificationService.java:74-76 | exactly the ids of the user's stored notifications, oldest first, as many as there are |
| NotificationService.NewestFirst | src/main/java/com/salonplatform/service/NotificationService.java:74-76 | a prefix of the reversed id list of the user's notifications is newest first, and every id left out is older than every id kept |
| NotificationService.AllReadClearsOnlyThatUser | src/main/java/com/salonplatform/service/NotificationService.java:92-96 | after marking all read the user has no unread notification and every other user's unread count is unchanged |
| NotificationService.MarkAsRead | src/main/java/com/salonplatform/service/NotificationService.java:84-89 | the one stored notification becomes read and nothing else changes; an unknown id changes nothing |
| NotificationService.MarkAllAsRead | src/main/java/com/salonplatform/service/NotificationService.java:92-96 | the table becomes the one in which every notification of the user is read and the others are as they were |
| NotificationService.DeleteNotification | src/main/java/com/salonplatform/service/NotificationService.java:99-101 | removes that notification only; an unknown id changes nothing |
| QueueService.SalonWaitIsSum | src/main/java/com/salonplatform/service/QueueService.java:273-298 | the wait defined entry by entry over the table equals the sum, over the salon's entries, of what each entry ahead still takes |
| QueueService.CalculateEstimatedWait | src/main/java/com/salonplatform/service/QueueService.java:268-299 | nothing for position 1 or less; otherwise the loop over the salon's entries in position order adds, for each entry ahead (waiting or in service, smaller position), the whole duration of a waiting one and max(0, duration − elapsed) of a started one, and nothing for an in-service one without a start time |
| QueueService.Share | src/main/java/com/salonplatform/service/QueueService.java:281-295 | one entry's contribution to the wait: what it still takes when it is ahead, else nothing |
| QueueService.WaitAheadNonNegative | src/main/java/com/salonplatform/service/QueueService.java:268-299 | with non-negative durations no estimated wait is negative |
| QueueService.WaitAheadMonotone | src/main/java/com/salonplatform/service/QueueService.java:268-299 | with non-negative durations a later position never has a shorter estimated wait |
| QueueService.WaitAheadShrinksOverTime | src/main/java/com/salonplatform/service/QueueService.java:282-292 | with the queue unchanged the estimated wait never grows as time passes |
| QueueService.StepEffect | src/main/java/com/salonplatform/service/QueueService.java:84-98 | one turn of the reorder loop: an entry already at its target is left alone with its booking; otherwise the entry takes the target place and the wait estimated on the table as it then stands, its booking records that place and a start now plus that wait, and no other entry or booking changes |
| QueueService.RenumberShape | src/main/java/com/salonplatform/service/QueueService.java:83-101 | the reorder loop changes only the position and wait estimate of entries |
| QueueService.RenumberPlaces | src/main/java/com/salonplatform/service/QueueService.java:82-101 | entries the loop does not visit are untouched, and the j-th visited entry ends at place j + 1 |
| QueueService.RenumberUntouched | src/main/java/com/salonplatform/service/QueueService.java:83-101 | an entry none of the first k turns visits is unchanged |
| QueueService.RenumberSettledAt | src/main/java/com/salonplatform/service/QueueService.java:84 | the j-th visited entry, already at place j + 1, is not touched at all |
| QueueService.RenumberSettled | src/main/java/com/salonplatform/service/QueueService.java:84 | every visited entry already at its place is left exactly as it was |
| QueueService.RenumberMovedAt | src/main/java/com/salonplatform/service/QueueService.java:85-95 | a visited entry that moves gets the wait estimated on the table as it stood at its turn (earlier entries already renumbered), and its booking's estimated start is now plus that wait |
| QueueService.MovedAtTurn | src/main/java/com/salonplatform/service/QueueService.java:85-95 | the entry of the current turn, when not at its place, gets the wait estimated then and its booking a start that far from now |
| QueueService.MovedStaysPut | src/main/java/com/salonplatform/service/QueueService.java:83-101 | a later turn leaves an earlier entry and its booking as they were |
| QueueService.StepOther | src/main/java/com/salonplatform/service/QueueService.java:84-98 | one turn leaves every other entry and every other booking as it was |
| QueueService.RenumberMoved | src/main/java/com/salonplatform/service/QueueService.java:85-95 | every visited entry that moves gets the wait estimated at its turn, and its booking a start now plus that wait |
| QueueService.RenumberBookingFields | src/main/java/com/salonplatform/service/QueueService.java:89-98 | the reorder loop changes only the queue position and estimated start of bookings |
| QueueService.RenumberOtherBookings | src/main/java/com/salonplatform/service/QueueService.java:89-98 | bookings whose entry the loop does not visit are untouched |
| QueueService.StepKeepsMirror | src/main/java/com/salonplatform/service/QueueService.java:84-98 | one turn keeps every waiting entry's place recorded on its booking and keeps one entry per booking |
| QueueService.RenumberKeepsMirror | src/main/java/com/salonplatform/service/QueueService.java:83-101 | the reorder loop keeps every waiting entry's place recorded on its booking and keeps one entry per booking |
| QueueService.RenumberKeepsConsistent | src/main/java/com/salonplatform/service/QueueService.java:83-101 | the reorder loop keeps every database invariant |
| QueueService.Renumber | src/main/java/com/salonplatform/service/QueueService.java:82-101 | renumbering the waiting entries keeps both tables' lengths and keeps every entry linked to an existing booking |
| QueueService.WaitingList | src/main/java/com/salonplatform/service/QueueService.java:79-80 | exactly the salon's waiting entries, each once, by ascending position |
| QueueService.Reorder | src/main/java/com/salonplatform/service/QueueService.java:79-101 | the reordered tables have the same lengths and every entry still refers to an existing booking |
| QueueService.PlaceAfterReorder | src/main/java/com/salonplatform/service/QueueService.java:82-101 | a waiting entry of the salon ends at one past its index in the waiting list |
| QueueService.ReorderTouchesOnlyWaiting | src/main/java/com/salonplatform/service/QueueService.java:79-101 | which entries wait in the salon is unchanged, and every other entry, in service, completed, skipped or of another salon, is untouched |
| QueueService.ReorderPlacesFromOne | src/main/java/com/salonplatform/service/QueueService.java:79-101 | after a reorder the salon's waiting entries stand at places 1 to N, N the number waiting |
| QueueService.ReorderKeepsOrder | src/main/java/com/salonplatform/service/QueueService.java:79-101 | after a reorder no two waiting entries share a place, and one that stood ahead of another still does |
| QueueService.SalonQueue | src/main/java/com/salonplatform/service/QueueService.java:150-158 | exactly the salon's waiting and in-service entries, each once, by ascending position |
| QueueService.LiveView | src/main/java/com/salonplatform/service/QueueService.java:301-311 | the broadcast carries the entries of the salon's live view, in its order |
| QueueService.BroadcastQueueUpdate | src/main/java/com/salonplatform/service/QueueService.java:301-311 | appends one broadcast of the salon's live view to the log |
| QueueService.UpdatesStep | src/main/java/com/salonplatform/service/QueueService.java:316-324 | each waiting entry adds a position-update notice exactly when its booking's recorded place is at least three greater than the entry's |
| QueueService.NoUpdatesWhenMirrored | src/main/java/com/salonplatform/service/QueueService.java:313-325 | while every waiting entry's place is recorded on its booking no notice is sent |
| QueueService.NotifyQueueChanges | src/main/java/com/salonplatform/service/QueueService.java:313-325 | appends, in waiting-list order, the notices for entries that moved up three or more places |
| QueueService.SendUpdates | src/main/java/com/salonplatform/service/QueueService.java:316-324 | the loop appends exactly the notices the rule selects, in order |
| QueueService.ReorderKeepsConsistent | src/main/java/com/salonplatform/service/QueueService.java:76-108 | a reorder keeps every database invariant, and afterwards no position-change notice is due |
| QueueService.RenumberLoop | src/main/java/com/salonplatform/service/QueueService.java:82-101 | the in-place loop leaves the tables the turns of the renumbering make, the wait estimated each time on the partly renumbered table |
| QueueService.RenumberEntry | src/main/java/com/salonplatform/service/QueueService.java:84-99 | one iteration of the loop body leaves the tables one turn makes |
| QueueService.ReorderQueue | src/main/java/com/salonplatform/service/QueueService.java:76-108 | keeps the invariants; the queue and bookings become the full reorder of the salon's waiting entries; one broadcast of the new live view; no notification is added |
| QueueService.Announce | src/main/java/com/salonplatform/service/QueueService.java:103-107 | the broadcast and the notices at the end of reorderQueue: one broadcast, and no notice when none is due |
| QueueService.RenumberWaiting | src/main/java/com/salonplatform/service/QueueService.java:79-101 | keeps the invariants, leaves the reordered tables, and leaves no position-change notice due |
| QueueService.TailPosition | src/main/java/com/salonplatform/service/QueueService.java:37-41 | the new place is greater than every place of the salon's entries of any status; 1 for an empty salon; otherwise one past a place some entry holds |
| QueueService.AppendKeepsConsistent | src/main/java/com/salonplatform/service/QueueService.java:46-62 | adding a waiting entry for an unqueued, non-pending booking, with its place recorded on the booking, keeps every invariant |
| QueueService.AddToQueue | src/main/java/com/salonplatform/service/QueueService.java:32-70 | appends one waiting entry at one past the salon's largest place (any status), with the wait estimated for that place; the booking records the place and nothing else changes; the entry stands behind every other entry of the salon; one broadcast; the invariants hold |
| QueueService.LeaveWaitingKeepsConsistent | src/main/java/com/salonplatform/service/QueueService.java:118-137 | changing an entry's status to anything but waiting keeps every invariant |
| QueueService.MarkInService | src/main/java/com/salonplatform/service/QueueService.java:114-122 | a booking without an entry fails and nothing changes; otherwise only that entry's status becomes in service, keeping its place, and one broadcast follows |
| QueueService.RemoveFromQueue | src/main/java/com/salonplatform/service/QueueService.java:128-145 | a booking without an entry is ignored; otherwise the entry is marked completed and the salon reordered, with the broadcast of reorderQueue and no notice |
| QueueService.RemovalClosesGap | src/main/java/com/salonplatform/service/QueueService.java:128-145 | after a removal the entry is no longer waiting and the salon's waiting entries stand at places 1 to N |
| QueueService.RequeueAtTail | src/main/java/com/salonplatform/service/QueueService.java:214-229 | the entry waits again at one past the salon's largest place; its booking records that place |
| QueueService.RequeueKeepsConsistent | src/main/java/com/salonplatform/service/QueueService.java:214-229 | putting an entry back at the tail keeps every invariant |
| QueueService.LateArrivalGoesLast | src/main/java/com/salonplatform/service/QueueService.java:198-237 | after skip, reorder and requeue, the late entry waits in its salon behind every other entry of any status, with its place recorded on its booking |
| QueueService.HandleLateArrival | src/main/java/com/salonplatform/service/QueueService.java:198-237 | a booking without an entry fails and nothing changes; otherwise the entry is skipped, the salon reordered, the entry put back at the tail with the wait estimated there, the customer told once and the queue broadcast after the reorder and again at the end |
| QueueService.MoveToEnd | src/main/java/com/salonplatform/service/QueueService.java:204-234 | the steps of handleLateArrival for a known entry, in their order |
| QueueService.RequeueAndTell | src/main/java/com/salonplatform/service/QueueService.java:214-234 | the entry back at the tail, one late-arrival notice for its booking, one broadcast |
| QueueService.SkipAndReorder | src/main/java/com/salonplatform/service/QueueService.java:206-211 | the entry skipped and the salon reordered, with the broadcast of reorderQueue and no notice; the skipped entry changes only in status |
| QueueService.RequeueLast | src/main/java/com/salonplatform/service/QueueService.java:214-229 | the tables become the requeue of the entry at the tail, and the invariants hold |
| QueueService.NotifyNextInQueue | src/main/java/com/salonplatform/service/QueueService.java:174-192 | appends the notices for the salon's waiting list: turn-next to its head if it stands at place 1, get-ready to the second if there is one |
| QueueService.TellNext | src/main/java/com/salonplatform/service/QueueService.java:178-191 | the sends for a given waiting list, in that order |
| QueueService.NoticesFollowCount | src/main/java/com/salonplatform/service/QueueService.java:174-192 | at most two notices; none while nobody waits; with two or more waiting the last goes to the second in line |
| QueueService.ReorderKeepsCount | src/main/java/com/salonplatform/service/QueueService.java:79-101 | a reorder leaves as many waiting entries as it found |
| QueueService.ReorderedHead | src/main/java/com/salonplatform/service/QueueService.java:79-101 | after a reorder the waiting list is as long as before and starts with the same entry, now at place 1 |
| QueueService.ReorderedHeadIsTold | src/main/java/com/salonplatform/service/QueueService.java:174-192 | right after a reorder the first waiting customer is told their turn is next, and exactly one more notice goes out when two or more wait |
| QueueService.CustomerQueueStatus | src/main/java/com/salonplatform/service/QueueService.java:163-168 | fails with not-queued exactly when the booking has no entry; otherwise the booking's entry |
| QueueService.QueuedBookingHasStatus | src/main/java/com/salonplatform/service/QueueService.java:163-168 | once an entry is added for an unqueued booking its status finds that entry |
| QueueService.TruncDiv | src/main/java/com/salonplatform/service/QueueService.java:262 | Java's division by a positive divisor: the quotient truncated toward zero |
| QueueService.QueueStatsOf | src/main/java/com/salonplatform/service/QueueService.java:242-264 | the average is zero when nobody waits, and otherwise the truncated quotient of the total by the number waiting |
| QueueService.StatsMatchLists | src/main/java/com/salonplatform/service/QueueService.java:242-264 | the number waiting is the length of the waiting list, the total is the sum of their stored estimates, and waiting plus in service is the length of the live view |
| QueueService.StatsNonNegative | src/main/java/com/salonplatform/service/QueueService.java:242-264 | with non-negative stored estimates the total and the average are non-negative |
| BookingService.WaitingDurationsNonNegative | src/main/java/com/salonplatform/service/BookingService.java:367-370 | with no negative durations the summed durations of the waiting entries are not negative |
| BookingService.NextAvailableSlot | src/main/java/com/salonplatform/service/BookingService.java:359-373 | now plus the estimated durations of exactly the salon's waiting entries (an empty queue gives now; in-service entries are not counted), never earlier than now when durations are not negative |
| BookingService.LeastLoadedFirst | src/main/java/com/salonplatform/service/BookingService.java:375-383 | the head of the load-ordered list of available barbers has done no more services than any available barber of the salon |
| BookingService.AssignBarber | src/main/java/com/salonplatform/service/BookingService.java:375-384 | no barber exactly when the salon has no available barber; otherwise an available barber of the salon with the fewest services |
| BookingService.OnlineBookingCheck | src/main/java/com/salonplatform/service/BookingService.java:47-69 | passes exactly when the customer exists and is not blacklisted, the salon exists and takes online bookings, and the service exists and is active; otherwise the first failing check in that order |
| BookingService.NoShowsBlockOnlineBooking | src/main/java/com/salonplatform/service/BookingService.java:51-53 | a customer with three or more no-shows is refused as blocked, whatever the salon and service |
| BookingService.OnlineBooking | src/main/java/com/salonplatform/service/BookingService.java:76-94 | the saved booking: online, pending, unpaid, not queued, priced and timed by the service, starting no earlier than now, with no barber exactly when none is available and otherwise the least loaded available one |
| BookingService.CreateOnlineBooking | src/main/java/com/salonplatform/service/BookingService.java:44-122 | on a failing check that failure and no write; otherwise exactly one new booking, the one described above, whose id is returned and which has no queue entry yet; the database invariants hold after |
| BookingService.EnqueuedIsLast | src/main/java/com/salonplatform/service/BookingService.java:145 | a booking with no entry, once enqueued, has the new last entry, waiting, its place recorded on the booking and behind every other entry of its salon |
| BookingService.ConfirmCheck | src/main/java/com/salonplatform/service/BookingService.java:131-148 | a missing booking is not found; a booking not pending cannot be confirmed; a pending one passes exactly when its customer's booking counter can be incremented, and otherwise fails with a null value |
| BookingService.PaidFor | src/main/java/com/salonplatform/service/BookingService.java:139-141 | the booking is confirmed, paid, with the payment id recorded; every other field is as it was |
| BookingService.ConfirmBooking | src/main/java/com/salonplatform/service/BookingService.java:128-155 | missing booking or a status other than pending: that failure, no write and no broadcast; an unset booking counter: a null-value failure that writes nothing to the tables, but the queue broadcast of the enqueue already went out; otherwise the booking is confirmed and paid with the payment id and enqueued last, the customer's booking counter grows by one, the salon's queue is broadcast and the customer told |
| BookingService.EnqueueRolledBack | src/main/java/com/salonplatform/service/BookingService.java:138-147 | paying and enqueueing followed by the rollback of the counter failure: the tables are as before and only the queue broadcast of the enqueue remains |
| BookingService.Confirm | src/main/java/com/salonplatform/service/BookingService.java:138-152 | the writes of a confirmation whose checks passed, with the same new state as above |
| BookingService.CountAndNotify | src/main/java/com/salonplatform/service/BookingService.java:147-152 | the customer's booking counter grows by one and a confirmation notice is appended; nothing else changes |
| BookingService.PayAndEnqueue | src/main/java/com/salonplatform/service/BookingService.java:138-145 | the booking is confirmed and paid and joins its salon's queue last; the queue is broadcast |
| BookingService.GuestPhone | src/main/java/com/salonplatform/service/BookingService.java:388 | the customer's own phone when given; otherwise "GUEST_" followed by the token |
| BookingService.WalkInCheck | src/main/java/com/salonplatform/service/BookingService.java:164-177 | passes exactly when salon, barber and service exist and no user has the guest's phone; a phone already registered is refused as a duplicate |
| BookingService.WalkInBooking | src/main/java/com/salonplatform/service/BookingService.java:179-192 | the saved booking: walk-in, confirmed, unpaid, with the chosen barber, priced and timed by the service, starting no earlier than now |
| BookingService.CreateWalkInBooking | src/main/java/com/salonplatform/service/BookingService.java:161-209 | on a failing check that failure and no write; otherwise a guest user with the given or generated phone is added, then the walk-in booking, which joins the salon's queue last; its id is returned and the queue broadcast |
| BookingService.AdmitWalkIn | src/main/java/com/salonplatform/service/BookingService.java:179-197 | the walk-in booking is added under the next id and enqueued last; the queue is broadcast |
| BookingService.GuestUser | src/main/java/com/salonplatform/service/BookingService.java:386-394 | a guest is a customer with the given phone and name and no email, whose stored password matches no text, and whose unset active flag and counters make the lock check, the blacklist check and both counter increments null-value failures |
| BookingService.RemovedLeavesQueue | src/main/java/com/salonplatform/service/BookingService.java:298 | after a removal no entry of the booking is waiting, and every booking keeps everything but its place and estimated start |
| BookingService.RemovedKeepsConsistent | src/main/java/com/salonplatform/service/BookingService.java:298 | a removal keeps every database invariant |
| BookingService.Leave | src/main/java/com/salonplatform/service/BookingService.java:255 | removal from the queue as described, with every booking keeping everything but its place and estimated start, and no notification |
| BookingService.StartCheck | src/main/java/com/salonplatform/service/BookingService.java:218-226 | passes exactly when the booking exists, is confirmed and has a queue entry; a missing booking is not found, and a missing entry is reported only for a confirmed booking |
| BookingService.StartService | src/main/java/com/salonplatform/service/BookingService.java:215-235 | a missing or unconfirmed booking, or one with no queue entry, fails with no write; otherwise the booking starts now, its entry goes in service, the queue is broadcast and the customer told |
| BookingService.CountService | src/main/java/com/salonplatform/service/BookingService.java:258-262 | the booking's barber, when it has one, has done one more service; every other barber, and every other field, is unchanged |
| BookingService.CompleteCheck | src/main/java/com/salonplatform/service/BookingService.java:244-249 | passes exactly when the booking exists and is in progress; a missing booking is not found, any other status is refused as not in progress |
| BookingService.StartedCanComplete | src/main/java/com/salonplatform/service/BookingService.java:224-249 | a booking that has been started passes the check of completeService |
| BookingService.CompleteService | src/main/java/com/salonplatform/service/BookingService.java:241-271 | a missing booking or one not in progress fails with no write; otherwise the booking is completed now and leaves the queue, its barber (if any) has one more service, the next customers are told and a review is requested |
| BookingService.Acknowledge | src/main/java/com/salonplatform/service/BookingService.java:257-268 | the barber is credited with one service, then the next-in-queue notices and the review request are appended |
| BookingService.Finish | src/main/java/com/salonplatform/service/BookingService.java:251-255 | the booking is completed now and removed from the queue, with no notification |
| BookingService.CancelCheck | src/main/java/com/salonplatform/service/BookingService.java:280-289 | passes exactly when the booking exists, is neither completed nor cancelled, and the cancelling user exists |
| BookingService.CancelledBy | src/main/java/com/salonplatform/service/BookingService.java:291-294 | the booking is cancelled now by the user for the reason given; every other field is as it was |
| BookingService.CancelBooking | src/main/java/com/salonplatform/service/BookingService.java:277-312 | on a failing check that failure and no write; otherwise the booking is cancelled now by the user for the reason, leaves the queue, and its customer is told |
| BookingService.NoShowCheck | src/main/java/com/salonplatform/service/BookingService.java:321-328 | a missing booking is not found; otherwise, whatever its status, it passes exactly when the customer's no-show counter can be incremented, and fails with a null value when not |
| BookingService.MarkNoShow | src/main/java/com/salonplatform/service/BookingService.java:318-338 | a missing booking or an unset no-show counter fails with no write; otherwise, whatever its status, the booking becomes a no-show and leaves the queue, its customer's no-show counter grows by one, and every other booking keeps everything but its place and estimated start |
| BookingService.MarkedStep | src/main/java/com/salonplatform/service/BookingService.java:351-352 | marking the next online overdue booking extends what the loop has marked |
| BookingService.MarkedSkip | src/main/java/com/salonplatform/service/BookingService.java:351 | skipping a walk-in leaves what is marked unchanged |
| BookingService.CountedStep | src/main/java/com/salonplatform/service/BookingService.java:328-330 | counting the next online booking's customer extends what the loop has counted |
| BookingService.CountedSkip | src/main/java/com/salonplatform/service/BookingService.java:351 | skipping a walk-in leaves what is counted unchanged |
| BookingService.CountersSet | src/main/java/com/salonplatform/service/BookingService.java:346-353 | when no overdue online booking has a customer with an unset counter, each one the loop reaches has a counter to increment |
| BookingService.MarkOverdue | src/main/java/com/salonplatform/service/BookingService.java:350-354 | one turn of the loop is exactly one sweep step: an online overdue booking is marked no-show and counted, its entry removed with the broadcasts of the removal, a walk-in skipped; no notification is sent |
| BookingService.Step | src/main/java/com/salonplatform/service/BookingService.java:350-354 | one sweep step keeps both tables' lengths and keeps every queue entry linked to an existing booking |
| BookingService.SweepOf | src/main/java/com/salonplatform/service/BookingService.java:350-354 | the sweep over a list of ids, step by step, keeps both tables' lengths and every link, and collects the broadcasts in order |
| BookingService.SweepOneMore | src/main/java/com/salonplatform/service/BookingService.java:350-354 | sweeping one more id is the sweep so far followed by one step |
| BookingService.SweepTurn | src/main/java/com/salonplatform/service/BookingService.java:350-354 | one loop turn advances the tables and the broadcast log from the sweep of the first k ids to that of the first k + 1 |
| BookingService.NothingSoFar | src/main/java/com/salonplatform/service/BookingService.java:350 | before the first turn nothing is marked or counted |
| BookingService.MarkAllOverdue | src/main/java/com/salonplatform/service/BookingService.java:350-354 | after the loop the tables are the sweep of every overdue id in turn and the broadcast log has gained exactly the sweep's broadcasts |
| BookingService.MarkedNoShows | src/main/java/com/salonplatform/service/BookingService.java:350-354 | the reference result: each overdue online booking becomes a no-show, and nothing else about any booking changes |
| BookingService.AllOverdueMarked | src/main/java/com/salonplatform/service/BookingService.java:350-354 | after the loop the bookings are the reference result (every overdue online booking a no-show, nothing else) up to place and estimated start |
| BookingService.AllOverdueCounted | src/main/java/com/salonplatform/service/BookingService.java:350-354 | after the loop each customer's no-show counter has grown by their number of overdue online bookings |
| BookingService.MarkOverdueBookings | src/main/java/com/salonplatform/service/BookingService.java:346-354 | every overdue online booking at the cutoff is a no-show, each customer counted once per such booking, with no notification; the tables and broadcasts are exactly those of the overdue sweep |
| BookingService.ProcessOverdueBookings | src/main/java/com/salonplatform/service/BookingService.java:344-355 | fails with a null value exactly when some overdue online booking's customer has an unset counter: the tables are rolled back but the broadcasts of the bookings handled before it stay sent; otherwise every online booking overdue at now minus the cutoff minutes is marked and counted, walk-ins are left alone, and tables and broadcasts are exactly those of the overdue sweep |
| BookingService.Reached | src/main/java/com/salonplatform/service/BookingService.java:350-354 | how far the loop gets: no earlier overdue booking stalls it, and it stops at an online booking whose customer has an unset counter |
| BookingService.StopsShortIffUnset | src/main/java/com/salonplatform/service/BookingService.java:346-354 | the loop stops short exactly when some overdue online booking's customer has an unset counter |
| BookingService.CustomersExist | src/main/java/com/salonplatform/service/BookingService.java:352 | in a consistent store every booking's customer is a stored user |
| BookingService.CountersSetBeforeStall | src/main/java/com/salonplatform/service/BookingService.java:350-354 | every online booking the loop handles before it stalls has a customer with a set counter |
| BookingService.MarkUntilStalled | src/main/java/com/salonplatform/service/BookingService.java:350-354 | running the loop up to the stall and rolling back leaves the tables as they were, with the broadcasts of the handled bookings sent |
| BookingService.FailOverdue | src/main/java/com/salonplatform/service/BookingService.java:344-355 | the failing sweep leaves the tables as they were and has sent the broadcasts of every booking handled before the stall |
| SalonService.ValidateCoordinates | src/main/java/com/salonplatform/service/SalonService.java:300-309 | passes exactly when both coordinates are given, the latitude within -90 to 90 and the longitude within -180 to 180; a missing one is reported as such |
| SalonService.CreateSalonCheck | src/main/java/com/salonplatform/service/SalonService.java:40-47 | passes exactly when the owner exists, is a salon owner or an admin, and gave valid coordinates; a missing owner and a wrong role are reported as such |
| SalonService.NewSalon | src/main/java/com/salonplatform/service/SalonService.java:49-69 | the salon is owned by its creator and takes the requested name, address and coordinates; hours default to 09:00 and 21:00 when missing; it is open, takes online bookings at the default share, is unrated and on a free trial expiring a fixed time from now |
| SalonService.NewService | src/main/java/com/salonplatform/service/SalonService.java:74-82 | the service belongs to the salon, is active, and takes the requested name, description, price, duration and category |
| SalonService.OwnerCheck | src/main/java/com/salonplatform/service/SalonService.java:94-99 | passes exactly when the salon exists and the caller owns it; a missing salon is reported as such |
| SalonService.NewServices | src/main/java/com/salonplatform/service/SalonService.java:73-86 | one service per request, in request order, each of the new salon, active, with the requested name, price and duration |
| SalonService.NewSalonDefaults | src/main/java/com/salonplatform/service/SalonService.java:49-69 | a new salon is open, takes online bookings, allows 70 percent online, has no rating or reviews, is on the free tier for 30 days, and without given hours is open strictly between 09:00 and 21:00 |
| SalonService.CreatorOwns | src/main/java/com/salonplatform/service/SalonService.java:97 | the creator of a salon passes the owner check of later changes and everyone else is refused |
| SalonService.CreateSalon | src/main/java/com/salonplatform/service/SalonService.java:37-90 | on a failing check that failure and no write; otherwise the new salon is added under the next id, followed by its requested services in order |
| SalonService.Patched | src/main/java/com/salonplatform/service/SalonService.java:101-107 | each of the seven patchable fields (name, description, address, phone, opening and closing time, online-booking share) takes the request's value when given and keeps the salon's when not; every other field is kept |
| SalonService.PatchLaws | src/main/java/com/salonplatform/service/SalonService.java:101-107 | an empty patch changes nothing, a patch applied twice is applied once, and the owner and rating never change |
| SalonService.UpdateSalon | src/main/java/com/salonplatform/service/SalonService.java:93-111 | only the owner of an existing salon may patch it; otherwise nothing changes |
| SalonService.ToggleSalonStatus | src/main/java/com/salonplatform/service/SalonService.java:225-230 | fails exactly for a missing salon, writing nothing; otherwise sets its open flag, whoever asks |
| SalonService.AddService | src/main/java/com/salonplatform/service/SalonService.java:233-253 | only the owner of an existing salon may add a service; a missing category is a null-value failure that leaves the services as they were (the save is rolled back); otherwise the new active service gets the next id |
| SalonService.NewBarberCanBeAssigned | src/main/java/com/salonplatform/service/SalonService.java:264-273 | a barber just added is available with no services, so the salon has a barber to assign, one with no services behind them |
| SalonService.NewBarber | src/main/java/com/salonplatform/service/SalonService.java:264-273 | the barber has no account, no rating and no services yet, is available at the salon, and takes the requested name and phone |
| SalonService.AddBarber | src/main/java/com/salonplatform/service/SalonService.java:256-277 | only the owner of an existing salon may add a barber; the new barber gets the next id |
| SalonService.NextAvailableTime | src/main/java/com/salonplatform/service/SalonService.java:287-298 | the same instant the booking service estimates as the next free slot |
| SalonService.GetAvailability | src/main/java/com/salonplatform/service/SalonService.java:199-222 | fails exactly for a missing salon; otherwise the salon's id, whether it is open at the clock time, whether it takes online bookings, the count of waiting customers, the number of its available barbers, the next free slot as the booking service estimates it, and a wait never negative and equal to the time until that slot when durations are not negative |
| SalonService.Lower | src/main/java/com/salonplatform/repository/SalonRepository.java:30-31 | same length, no upper-case ASCII letter left, every other character kept |
| SalonService.ClosedSalonFoundByCity | src/main/java/com/salonplatform/repository/SalonRepository.java:29-31 | a closed salon whose city is the keyword is found by the query as written and not by the intended search |
| SalonService.TrimStart | src/main/java/com/salonplatform/service/SalonService.java:130 | a suffix of the text that is empty or starts above U+0020, after a prefix of characters at or below it |
| SalonService.TrimEnd | src/main/java/com/salonplatform/service/SalonService.java:130 | a prefix of the text that is empty or ends above U+0020, before a suffix of characters at or below it |
| SalonService.IsBlank | src/main/java/com/salonplatform/service/SalonService.java:130 | a keyword is blank exactly when trimming both ends leaves nothing |
| SalonService.SearchSalons | src/main/java/com/salonplatform/service/SalonService.java:129-139 | every open salon, in table order, when the keyword is missing or blank; otherwise exactly the open salons whose name or city mentions it ignoring case, in table order |
| ReviewService.Ratings | src/main/java/com/salonplatform/repository/ReviewRepository.java:18-22 | the ratings averaged for a salon or barber: no more than the stored rows |
| ReviewService.RatingsAppend | src/main/java/com/salonplatform/service/ReviewService.java:59-63 | storing a review adds its rating, last, to exactly the salon and barber it is about |
| ReviewService.TotalAppend | src/main/java/com/salonplatform/repository/ReviewRepository.java:18-22 | the total of two lists of ratings joined is the sum of their totals |
| ReviewService.RatingsDelete | src/main/java/com/salonplatform/service/ReviewService.java:94-97 | deleting a stored review takes one rating, and its value from the total, out of exactly the targets it was about |
| ReviewService.RatingsOfScale | src/main/java/com/salonplatform/service/ReviewService.java:46-48 | with every stored rating from 1 to 5, every rating averaged is too |
| ReviewService.TotalBounds | src/main/java/com/salonplatform/repository/ReviewRepository.java:18-22 | n ratings from 1 to 5 total between n and 5n |
| ReviewService.MeanOnScale | src/main/java/com/salonplatform/service/ReviewService.java:101-116 | a refreshed rating is 0 with no reviews and between 1 and 5 otherwise |
| ReviewService.QuotientBounds | src/main/java/com/salonplatform/repository/ReviewRepository.java:18-22 | a total between n and 5n divided by n lies between 1 and 5 |
| ReviewService.RatedSalon | src/main/java/com/salonplatform/service/ReviewService.java:101-108 | the salon's rating becomes the mean of its reviews and its review count their number; nothing else changes |
| ReviewService.RatedBarber | src/main/java/com/salonplatform/service/ReviewService.java:110-116 | the barber's rating becomes the mean of their reviews; nothing else changes |
| ReviewService.CreateReviewCheck | src/main/java/com/salonplatform/service/ReviewService.java:31-48 | passes exactly when the booking exists, is the customer's own, is completed, is not yet reviewed, and the rating is from 1 to 5; the first three failures are reported as such, in that order |
| ReviewService.NewReview | src/main/java/com/salonplatform/service/ReviewService.java:50-57 | the review is of the booking, by its customer, for its salon and barber, with the given rating and comment |
| ReviewService.CreateKeepsInvariants | src/main/java/com/salonplatform/service/ReviewService.java:42-59 | an accepted review keeps every stored rating from 1 to 5 and every booking reviewed at most once, marks its booking reviewed, and adds its rating to its own salon and barber only |
| ReviewService.CreateReview | src/main/java/com/salonplatform/service/ReviewService.java:30-67 | on a failing check that failure and no write; otherwise the review is stored under the next id and its salon's rating, and its barber's when the booking has one, is refreshed |
| ReviewService.DeleteReviewCheck | src/main/java/com/salonplatform/service/ReviewService.java:87-104 | passes exactly when the review exists, is the user's own, and its salon and barber exist; a missing review and someone else's are reported as such |
| ReviewService.DeleteKeepsInvariants | src/main/java/com/salonplatform/service/ReviewService.java:94-97 | a deletion keeps every stored rating from 1 to 5, lets its booking be reviewed again, and lowers its salon's review count by one |
| ReviewService.DeleteReview | src/main/java/com/salonplatform/service/ReviewService.java:86-99 | on a failing check that failure and no write; otherwise the review is removed and its salon's rating, and its barber's when it named one, is refreshed |
| AuthService.HasDigit | src/main/java/com/salonplatform/service/AuthService.java:256 | the regular expression read literally: the password splits into a run without line terminators, a digit, and another such run |
| AuthService.ValidatePassword | src/main/java/com/salonplatform/service/AuthService.java:250-259 | passes exactly when the password is given, has at least six characters and contains a digit; a missing or short one and a digit-free one are reported as such |
| AuthService.Upper | src/main/java/com/salonplatform/service/AuthService.java:267 | same length, no lower-case ASCII letter left, every other character kept |
| AuthService.DetermineUserRole | src/main/java/com/salonplatform/service/AuthService.java:261-280 | never an administrator; a barber or salon owner exactly when the request names that role in any case; a customer otherwise |
| AuthService.NoSelfMadeAdmins | src/main/java/com/salonplatform/service/AuthService.java:269-273 | asking for the administrator role, in any case, gives a customer |
| AuthService.IsPhoneAvailable | src/main/java/com/salonplatform/service/AuthService.java:285-287 | true exactly when no user has the phone |
| AuthService.IsEmailAvailable | src/main/java/com/salonplatform/service/AuthService.java:292-297 | true exactly when the address is missing or empty or no user has it |
| AuthService.RegisterCheck | src/main/java/com/salonplatform/service/AuthService.java:41-51 | passes exactly when the phone is free, a given email is free and the password is valid; a taken phone is reported first |
| AuthService.NewUser | src/main/java/com/salonplatform/service/AuthService.java:54-64 | the user takes the requested phone, email and name, its stored password matches the requested one, its role is the determined role, its counters are zero, and it is not blacklisted, not locked and not yet enabled |
| AuthService.AvailableMeansRegistrable | src/main/java/com/salonplatform/service/AuthService.java:285-297 | with phone and a non-empty email reported available, registration is decided by the password rules alone |
| AuthService.RegisteredIsKnown | src/main/java/com/salonplatform/service/AuthService.java:42-66 | once registered, the phone finds the new user, is no longer available, and a second registration with it is refused |
| AuthService.RegisterKeepsEmailsUnique | src/main/java/com/salonplatform/service/AuthService.java:46-66 | registration keeps email addresses unique |
| AuthService.RegisterUser | src/main/java/com/salonplatform/service/AuthService.java:38-89 | on a failing check that failure and no write; otherwise the new user is added under the next id |
| AuthService.LoginCheck | src/main/java/com/salonplatform/service/AuthService.java:99-104 | an unknown phone is refused as an invalid login, a deactivated account as such; a success is the active account with that phone |
| AuthService.RegisteredPassesLoginChecks | src/main/java/com/salonplatform/service/AuthService.java:60-104 | a user just registered passes the checks before authentication |
| AuthService.VerifyAccount | src/main/java/com/salonplatform/service/AuthService.java:137-147 | fails exactly for an unknown user, writing nothing; otherwise marks the user verified, whatever the code, so the account is enabled exactly when it is not locked |
| AuthService.ChangePasswordCheck | src/main/java/com/salonplatform/service/AuthService.java:154-163 | passes exactly when the user exists, the old password matches and the new one is valid; an unknown user and a wrong old password are reported as such |
| AuthService.ChangePassword | src/main/java/com/salonplatform/service/AuthService.java:153-170 | on a failing check no write; otherwise the encoded new password is stored, which the new password then matches and the old one only if it is the same |
| AuthService.RequestPasswordReset | src/main/java/com/salonplatform/service/AuthService.java:176-188 | succeeds exactly when some account has the phone |
| UserService.UpdateProfileCheck | src/main/java/com/salonplatform/service/UserService.java:39-49 | passes exactly when the user exists and a given new email is the user's own or nobody's; otherwise a missing user or an email in use |
| UserService.Edited | src/main/java/com/salonplatform/service/UserService.java:42-55 | a given non-empty name and email replace the stored ones, a given image address replaces it even when empty, and nothing else changes |
| UserService.EditIdempotent | src/main/java/com/salonplatform/service/UserService.java:42-55 | applying the same edit twice is applying it once |
| UserService.EditKeepsEmailsUnique | src/main/java/com/salonplatform/service/UserService.java:46-51 | an accepted edit keeps email addresses unique |
| UserService.UpdateProfile | src/main/java/com/salonplatform/service/UserService.java:38-59 | on a failing check no write; otherwise the edited profile is saved |
| UserService.ChangePasswordCheck | src/main/java/com/salonplatform/service/UserService.java:63-72 | passes exactly when the user exists, the old password matches and the new one has at least six characters; a missing user and a wrong old password are reported as such |
| UserService.PasswordRulesDiffer | src/main/java/com/salonplatform/service/UserService.java:70-72 | every new password the authentication service accepts is accepted here, and a six-letter password with no digit is accepted here but refused there |
| UserService.ChangePassword | src/main/java/com/salonplatform/service/UserService.java:62-76 | on a failing check no write; otherwise the encoded new password is stored |
| UserService.DeactivateAccount | src/main/java/com/salonplatform/service/UserService.java:79-84 | fails exactly for a missing user, writing nothing; otherwise the account becomes inactive, is no longer enabled, and its phone is refused at login |
| UserService.DeactivatedCannotLogIn | src/main/java/com/salonplatform/service/AuthService.java:99-104 | with phones unique, an inactive account's phone is refused at login as deactivated |

## Left out

- HTTP controllers, role annotations, DTO mapping, exception-to-HTTP mapping and message text: the model keeps the event kind of each notification, not its rendered string.
- The WebSocket transport: a broadcast is recorded as the salon and the queue it carried.
- Concurrency: each service call is one atomic step, and a failure rolls the whole call back.
- The scheduler: only `processOverdueBookings` itself is modelled, with the cutoff `now - autoCancelMinutes`.
- JWT tokens, `AuthenticationManager` and the password encoder. Encoding is an uninterpreted constructor (`Encoded`), and `matches` holds exactly for the encoding of the same text. As a result `loginUser` is modelled up to its pre-checks (`AuthService.LoginCheck`), and `refreshToken` and `logout` are not modelled: neither touches the database beyond a lookup.
- `resetPassword` only validates its argument and writes nothing; that is `AuthService.ValidatePassword`.
- The random UUID of a guest phone is a `token` parameter. The 15-character limit of the phone column is not modelled.
- Floating point and `BigDecimal` scale:
  - coordinates are `real`;
  - `findNearbySalons` (the haversine query) is not modelled;
  - ReviewService.RatedSalon and ReviewService.RatedBarber store the exact mean of the ratings, not the `Double` average converted to a two-decimal column.
- Java `int` overflow and column lengths: integers are unbounded.
- Row order the database does not promise. The model returns tied rows of an `ORDER BY` in table order, and it returns the rows of queries with no `ORDER BY` in table order too. The queries with no `ORDER BY` are `BookingRepository.ByCustomer`, `BySalon`, `ByBarber`, `ByStatus` and `FindOverdueBookings`, `BarberRepository.BySalon` and `AvailableBySalon`, and the salon search in `SalonService.SearchSalons`. The database may return them in any order.
- BookingService.ProcessOverdueBookings: the order of its broadcasts, and on a failure which broadcasts went out before the sweep stalls, follow the table order of `FindOverdueBookings`. The database may visit the overdue bookings in another order.
- The clock is read once per call: `getAvailability` reads it twice, and the model uses one `now` for both.
- Dead code: `calculateRefundAmount`, whose only call is commented out. The unused result of `countOnlineBookingsToday` in `createOnlineBooking` is also left out; the query itself is modelled as `BookingRepository.CountOnlineBookingsToday`.
- QueueService.AddToQueue: requires that the booking has no entry yet and is not pending, which both callers guarantee. The Java method does not check either.
- Statuses:
  - the queue status `COMPLETED` is called `Served`, to keep it apart from the booking status;
  - a service category is modelled only as an optional name; images and payment records are not modelled.
- Read-only getters that only map rows to responses are not modelled: `getSalonDetails`, `getSalonServices`, `getOwnedSalons`, `getSalonReviews`, `getBarberReviews` and `getUserProfile`. `UserService.getUserNotifications` runs the same query as `NotificationService.getUserNotifications`, modelled as `NotificationService.RecentNotifications`.
- AuthService.ValidatePassword, AuthService.ChangePasswordCheck and UserService.ChangePasswordCheck: count a password's length in characters, not in the UTF-16 code units `String.length()` counts. A character outside the Basic Multilingual Plane counts once here and twice in Java, so "abc😀1" is too short here and long enough there.
- Text:
  - upper and lower case are mapped on ASCII letters only;
  - `LIKE` wildcards inside a search keyword are taken literally.
- The `UserRole` enum file is not part of this model. The four roles are declared directly.
- Entity mutators (`markStarted`, `incrementNoShowCount`, `updateRating`, …) are functions from record to record, since entities are values in the tables.

## Findings

| source | as written | input that shows it | evidently intended | confidence | as-written member | corrected member |
|---|---|---|---|---|---|---|
| src/main/java/com/salonplatform/repository/SalonRepository.java:29-31 | `isOpen = true AND name LIKE … OR city LIKE …`; `AND` binds tighter, so the open-salon filter applies only to the name match | a closed salon whose city equals the keyword is returned by the search | only open salons, matching on name or city: `isOpen AND (name LIKE … OR city LIKE …)` | not executed | SalonService.MatchesAsWritten, shown by SalonService.ClosedSalonFoundByCity | SalonService.Matches, used by SalonService.SearchSalons |
