# AdvisingHub queue front end — a Dafny model

AdvisingHub is an Angular front end for a student advising queue. This
project models the parts of it that hold logic rather than layout:

- the staff queue screen: queue items that are Waiting, Being Served,
  Completed or No Show, plus an Active/Paused gate in front of "serve next";
- the notification store: a toast stack and a history capped at ten notices;
- the service catalogue store: create, update by id, delete by id;
- the student pages. The join page has guards, ticket construction and a
  history capped at fifty rows. The queue status page leaves the queue into
  an uncapped history. The history page normalises stored rows. The
  dashboard has storage fallbacks, "mark all read" and dismissal;
- the two mock services: the queue mock and the notifications mock.

Each source file becomes one module. Helpers shared by several files are:

- `Wrappers`: Option and Result.
- `Text`: the decimal rendering `${n}`, JavaScript's `trim` and the
  em dash the pages show for a missing value.
- `Lists`: `[x, ...list].slice(0, cap)` and `filter`.

Components whose methods change fields are classes. Their fields are
`seq`s and records. Each method's `ensures` ties the new state to a pure
function of the old state. The properties are proved about those functions,
either in their own `ensures` or in lemmas beside them.

The model keeps these inputs outside Dafny:

- **Randomness.** Every `Math.random()` draw is an integer parameter, and
  its range is a precondition. Ticket ids take six alphabet indices in
  [0, 32). Positions take a draw in [0, 18). Waits take a jitter in [-5, 5].
  Service ids take n in [1000, 9999]. Notice ids take a draw in
  [100000, 999999].
- **Clock readings.** These are opaque string parameters.
- **Browser storage.** Each key the code reads is a field. Its value is a
  small datatype. `Missing`/`None` covers an absent, empty or unparseable
  value. Where the code treats them differently, separate cases cover JSON
  `null` and a value that is not a list.

Some behaviours of the code are worth knowing:

- `serveNext` picks the first Waiting item in list order and ignores
  priority.
- "Complete" and "No show" apply to the current item even when it is still
  Waiting. They change every item with that student id.
- Joining writes the active ticket before it appends the history row. When
  the stored history is not a list, `unshift` throws inside the `try`.
  The page then reports "Something went wrong" but the ticket stays stored.
  `JoinQueuePage.JoinQueueComponent.JoinQueue` states this partial effect.
- The history page's `JSON.parse` is not guarded. Unparseable text, and a
  `null` element read as a row, make loading fail. `HistoryPage.LoadFromStorage`
  returns a `Failure` for both.
- The join page, the status page and the history page share two storage keys but disagree on field names. A ticket joined on one page therefore shows default values on the next (see "Left out").
- On the dashboard, `safeParse` returns the `[]` fallback for a missing key.
  So the fallback keys for services and notifications are read only when
  the primary key holds JSON `null`.

## Model

| member | source | states |
|---|---|---|
| `StaffQueueManagement.Toggled` | frontend/ahfrontend/src/app/staff-queue-management/staff-queue-management.component.ts:94-96 | toggling always changes the status |
| `StaffQueueManagement.ToggleTwice` | frontend/ahfrontend/src/app/staff-queue-management/staff-queue-management.component.ts:95 | toggling twice restores the original status |
| `StaffQueueManagement.Count` | frontend/ahfrontend/src/app/staff-queue-management/staff-queue-management.component.ts:71-73 | a state's count never exceeds the list length |
| `StaffQueueManagement.WaitingCount` | frontend/ahfrontend/src/app/staff-queue-management/staff-queue-management.component.ts:71 | `waitingCount` is at most the list length and is zero exactly when no item is Waiting |
| `StaffQueueManagement.BeingServedCount` | frontend/ahfrontend/src/app/staff-queue-management/staff-queue-management.component.ts:72 | `beingServedCount` is at most the list length and is zero exactly when no item is Being Served |
| `StaffQueueManagement.CompletedTodayCount` | frontend/ahfrontend/src/app/staff-queue-management/staff-queue-management.component.ts:73 | `completedTodayCount` is at most the list length and is zero exactly when no item is Completed |
| `StaffQueueManagement.CountsPartition` | frontend/ahfrontend/src/app/staff-queue-management/staff-queue-management.component.ts:71-73 | the Waiting, Being Served, Completed and No Show counts add up to the list length |
| `StaffQueueManagement.CountersWithinLength` | frontend/ahfrontend/src/app/staff-queue-management/staff-queue-management.component.ts:71-73 | waitingCount + beingServedCount + completedTodayCount never exceeds the list length |
| `StaffQueueManagement.FirstWith` | frontend/ahfrontend/src/app/staff-queue-management/staff-queue-management.component.ts:105 | findIndex: the returned index is the unique first item in the state; None means no item is in it |
| `StaffQueueManagement.Current` | frontend/ahfrontend/src/app/staff-queue-management/staff-queue-management.component.ts:76-80 | current is the first Being Served item, else the first Waiting item; it is null exactly when no item is Waiting or Being Served |
| `StaffQueueManagement.ServeNextOf` | frontend/ahfrontend/src/app/staff-queue-management/staff-queue-management.component.ts:98-108 | Paused, or someone already Being Served, or nobody Waiting: the list is unchanged. Otherwise only the first Waiting item changes, and only its state, to Being Served. The length is kept |
| `StaffQueueManagement.ServeNextKeepsOneServer` | frontend/ahfrontend/src/app/staff-queue-management/staff-queue-management.component.ts:101-107 | with at most one item Being Served before serveNext, at most one is after |
| `StaffQueueManagement.ServeNextMovesOne` | frontend/ahfrontend/src/app/staff-queue-management/staff-queue-management.component.ts:105-107 | a promotion lowers waitingCount by 1, makes beingServedCount 1 and keeps completedTodayCount |
| `StaffQueueManagement.SetStateOf` | frontend/ahfrontend/src/app/staff-queue-management/staff-queue-management.component.ts:115 | the map keeps length and order; items with the student id take the new state and keep every other field; the others are unchanged |
| `StaffQueueManagement.Retire` | frontend/ahfrontend/src/app/staff-queue-management/staff-queue-management.component.ts:110-126 | with no current item nothing changes. Otherwise every item with current's studentId takes the new state, even when current is still Waiting, and all other items stay untouched |
| `StaffQueueManagement.RetireClearsServer` | frontend/ahfrontend/src/app/staff-queue-management/staff-queue-management.component.ts:110-126 | with at most one item Being Served before complete or no-show, none is Being Served after |
| `StaffQueueManagement.StaffQueue.constructor` | frontend/ahfrontend/src/app/staff-queue-management/staff-queue-management.component.ts:33-69 | the queue starts Active with the three mock items |
| `StaffQueueManagement.StaffQueue.ToggleQueue` | frontend/ahfrontend/src/app/staff-queue-management/staff-queue-management.component.ts:94-96 | flips Active and Paused and leaves items alone |
| `StaffQueueManagement.StaffQueue.ServeNext` | frontend/ahfrontend/src/app/staff-queue-management/staff-queue-management.component.ts:98-108 | items become ServeNextOf(status, old items); the at-most-one-served invariant is kept |
| `StaffQueueManagement.StaffQueue.CompleteCurrent` | frontend/ahfrontend/src/app/staff-queue-management/staff-queue-management.component.ts:110-117 | items become Retire(old items, Completed); nobody is left Being Served if at most one was |
| `StaffQueueManagement.StaffQueue.NoShowCurrent` | frontend/ahfrontend/src/app/staff-queue-management/staff-queue-management.component.ts:119-126 | items become Retire(old items, NoShow); nobody is left Being Served if at most one was |
| `Lists.PrependCapped` | frontend/ahfrontend/src/app/notification-store.service.ts:31 | [x, ...s].slice(0, cap) has length min(old + 1, cap), x first, and the rest is a prefix of s |
| `Lists.PrependCappedBounded` | frontend/ahfrontend/src/app/pages/user/join-queue.component.ts:149-153 | a capped log never exceeds its cap, and below the cap nothing is dropped |
| `Lists.Keep` | frontend/ahfrontend/src/app/notification-store.service.ts:41 | filter keeps exactly the entries that pass the test |
| `Lists.KeepAppend` | frontend/ahfrontend/src/app/notification-store.service.ts:41 | filter keeps order: filtering a concatenation concatenates the filtered parts |
| `Lists.KeepAll` | frontend/ahfrontend/src/app/services-store.service.ts:53 | filtering a list where nothing fails the test returns it unchanged |
| `Lists.KeepIdempotent` | frontend/ahfrontend/src/app/services-store.service.ts:53 | filtering twice by the same test is filtering once |
| `Lists.KeepLength` | frontend/ahfrontend/src/app/pages/user/user-dashboard/user-dashboard.component.ts:123 | filtering shortens the list by exactly the number of rejected entries |
| `NotificationStoreService.NoticeId` | frontend/ahfrontend/src/app/notification-store.service.ts:23 | the id is "N-" followed by the six digits of the draw, which read back as the draw |
| `NotificationStoreService.NoticeIdInjective` | frontend/ahfrontend/src/app/notification-store.service.ts:23 | two notices get the same id only when their draws are equal |
| `NotificationStoreService.WithoutId` | frontend/ahfrontend/src/app/notification-store.service.ts:40-42 | dismissal leaves no toast with the id and keeps every toast with another id |
| `NotificationStoreService.WithoutAbsentId` | frontend/ahfrontend/src/app/notification-store.service.ts:41 | dismissing an id no toast has leaves the toasts unchanged |
| `NotificationStoreService.WithoutIdIdempotent` | frontend/ahfrontend/src/app/notification-store.service.ts:41 | dismissing twice is dismissing once |
| `NotificationStoreService.WithoutIdKeepsOrder` | frontend/ahfrontend/src/app/notification-store.service.ts:41 | dismissal keeps the order of the remaining toasts |
| `NotificationStoreService.NotificationStore.constructor` | frontend/ahfrontend/src/app/notification-store.service.ts:16-19 | toasts and history start empty |
| `NotificationStoreService.NotificationStore.Push` | frontend/ahfrontend/src/app/notification-store.service.ts:21-38 | the history gets the notice first and is capped at 10, with the rest a prefix of the old history; the toasts grow by exactly the notice at the head |
| `NotificationStoreService.NotificationStore.DismissToast` | frontend/ahfrontend/src/app/notification-store.service.ts:40-42 | toasts lose every entry with the id; history unchanged |
| `NotificationStoreService.NotificationStore.ClearHistory` | frontend/ahfrontend/src/app/notification-store.service.ts:44-46 | history becomes empty; toasts unchanged |
| `ServicesStoreService.MakeId` | frontend/ahfrontend/src/app/services-store.service.ts:56-59 | the id is "SVC-" followed by four digits that read back as n, 1000 <= n <= 9999 |
| `ServicesStoreService.NewService` | frontend/ahfrontend/src/app/services-store.service.ts:36-40 | the created service carries the input's name, description, duration and priority, a generated id and the new timestamp |
| `ServicesStoreService.Apply` | frontend/ahfrontend/src/app/services-store.service.ts:47 | an updated service keeps its id, takes every field of the patch and the new timestamp |
| `ServicesStoreService.Patched` | frontend/ahfrontend/src/app/services-store.service.ts:44-50 | update keeps length and order; entries with the id take the patch fields and keep their id; the others stay unchanged |
| `ServicesStoreService.PatchedAbsent` | frontend/ahfrontend/src/app/services-store.service.ts:45-49 | updating an absent id changes nothing |
| `ServicesStoreService.PatchedIdempotent` | frontend/ahfrontend/src/app/services-store.service.ts:44-50 | applying the same update twice is applying it once |
| `ServicesStoreService.WithoutService` | frontend/ahfrontend/src/app/services-store.service.ts:52-54 | delete leaves no entry with the id and keeps every other entry |
| `ServicesStoreService.DeleteIdempotent` | frontend/ahfrontend/src/app/services-store.service.ts:53 | deleting twice is deleting once |
| `ServicesStoreService.DeleteKeepsOrder` | frontend/ahfrontend/src/app/services-store.service.ts:53 | deletion keeps the remaining entries in their original order |
| `ServicesStoreService.DeleteAfterUpdate` | frontend/ahfrontend/src/app/services-store.service.ts:44-54 | deleting an id after updating it equals deleting it: update touches only that id's entries |
| `ServicesStoreService.ServicesStore.constructor` | frontend/ahfrontend/src/app/services-store.service.ts:16-33 | the store starts with the two catalogue services |
| `ServicesStoreService.ServicesStore.Create` | frontend/ahfrontend/src/app/services-store.service.ts:35-42 | the list grows by one with the new service at index 0 and the old list after it |
| `ServicesStoreService.ServicesStore.Update` | frontend/ahfrontend/src/app/services-store.service.ts:44-50 | services become Patched(old services, id, patch, now) |
| `ServicesStoreService.ServicesStore.Delete` | frontend/ahfrontend/src/app/services-store.service.ts:52-54 | services become WithoutService(old services, id) |
| `Text.Trim` | frontend/ahfrontend/src/app/pages/user/join-queue.component.ts:106 | trim removes exactly the leading and trailing JavaScript whitespace; the result is empty exactly when the input is all whitespace |
| `Text.TrimIdempotent` | frontend/ahfrontend/src/app/pages/user/join-queue.component.ts:106 | trimming twice is trimming once |
| `JoinQueuePage.SelectedService` | frontend/ahfrontend/src/app/pages/user/join-queue.component.ts:74-77 | the first catalogue service with the selected id; None exactly when no service has it |
| `JoinQueuePage.RandomPosition` | frontend/ahfrontend/src/app/pages/user/join-queue.component.ts:171-173 | the position lies in [2, 19] |
| `JoinQueuePage.RandomWait` | frontend/ahfrontend/src/app/pages/user/join-queue.component.ts:175-178 | the wait is max(5, base + jitter): at least 5, at most max(5, base + 5) |
| `JoinQueuePage.TicketSuffix` | frontend/ahfrontend/src/app/pages/user/join-queue.component.ts:167 | the i-th drawn character is the alphabet entry at the i-th draw |
| `JoinQueuePage.TicketIdOf` | frontend/ahfrontend/src/app/pages/user/join-queue.component.ts:164-169 | the id is "AH-" followed by one alphabet character per draw |
| `JoinQueuePage.TicketIdUnambiguous` | frontend/ahfrontend/src/app/pages/user/join-queue.component.ts:165 | no drawn character is I, O, 0 or 1 |
| `JoinQueuePage.GenerateTicketId` | frontend/ahfrontend/src/app/pages/user/join-queue.component.ts:164-169 | the loop builds TicketIdOf(picks), a string of length 9 |
| `JoinQueuePage.StoredNotes` | frontend/ahfrontend/src/app/pages/user/join-queue.component.ts:106-112 | notes are stored trimmed, and absent exactly when they are all whitespace |
| `JoinQueuePage.NewTicket` | frontend/ahfrontend/src/app/pages/user/join-queue.component.ts:108-118 | a new ticket is waiting, carries the service's id and name, an "AH-" id of length 9, a position in [2, 19], a wait of at least 5 and the trimmed notes |
| `JoinQueuePage.HistoryRowOf` | frontend/ahfrontend/src/app/pages/user/join-queue.component.ts:122-127 | the logged row carries the ticket's id, service name and status, and its creation time as the date |
| `JoinQueuePage.ReadHistoryRows` | frontend/ahfrontend/src/app/pages/user/join-queue.component.ts:155-162 | a stored list is read as is; nothing stored reads as [] |
| `JoinQueuePage.JoinQueueComponent.constructor` | frontend/ahfrontend/src/app/pages/user/join-queue.component.ts:44-64 | the page starts with the four services, no ticket and an empty form |
| `JoinQueuePage.JoinQueueComponent.OnInit` | frontend/ahfrontend/src/app/pages/user/join-queue.component.ts:66-68 | the active ticket is the stored one |
| `JoinQueuePage.JoinQueueComponent.AppendHistory` | frontend/ahfrontend/src/app/pages/user/join-queue.component.ts:149-153 | the row goes first and at most 50 rows are kept; a stored non-list makes it fail with nothing written |
| `JoinQueuePage.JoinQueueComponent.JoinQueue` | frontend/ahfrontend/src/app/pages/user/join-queue.component.ts:83-138 | with a ticket already active, the already-active message is set. An invalid form sets no message. An unknown service sets the service message. In each of these three cases ticket, storage and form are untouched. Otherwise the new waiting ticket is stored first. If the stored history is a list or nothing, the ticket is logged under the cap of 50, becomes active and the form is reset. If the stored history is not a list, the ticket stays stored but does not become active, the history and form are kept, and "Something went wrong" is set |
| `QueueStatusPage.ReadActiveTicket` | frontend/ahfrontend/src/app/pages/user/queue-status.component.ts:119-148 | stored fields are kept; a missing id, service name, status or join time becomes "QS-0000", "Academic Advising", "waiting" or the clock reading |
| `QueueStatusPage.ReadStoredTicket` | frontend/ahfrontend/src/app/pages/user/queue-status.component.ts:127-144 | reading back a stored normalised ticket gives the same ticket |
| `QueueStatusPage.StatusLabelOf` | frontend/ahfrontend/src/app/pages/user/queue-status.component.ts:57-73 | each known status has its own label, and every other status reads "Waiting in Queue" |
| `QueueStatusPage.BadgeClassOf` | frontend/ahfrontend/src/app/pages/user/queue-status.component.ts:39-55 | each known status has its own badge, and every other status gets the info badge |
| `QueueStatusPage.StatusLabel` | frontend/ahfrontend/src/app/pages/user/queue-status.component.ts:57-73 | with no ticket the label is "Waiting in Queue"; otherwise it is the label of the ticket's status |
| `QueueStatusPage.BadgeClass` | frontend/ahfrontend/src/app/pages/user/queue-status.component.ts:39-55 | with no ticket the badge is the info badge; otherwise it is the badge of the ticket's status |
| `QueueStatusPage.LabelMatchesBadge` | frontend/ahfrontend/src/app/pages/user/queue-status.component.ts:39-73 | two tickets share a label exactly when they share a badge |
| `QueueStatusPage.NoTicketReadsWaiting` | frontend/ahfrontend/src/app/pages/user/queue-status.component.ts:40 | without a ticket the page shows the waiting label and the info badge |
| `QueueStatusPage.PositionDisplay` | frontend/ahfrontend/src/app/pages/user/queue-status.component.ts:75-79 | an em dash exactly when the position is missing, else "#" followed by a numeral that reads back as the position |
| `QueueStatusPage.WaitDisplay` | frontend/ahfrontend/src/app/pages/user/queue-status.component.ts:81-86 | an em dash exactly when the wait is missing, "Now" exactly when it is <= 0, else a numeral reading back as the wait followed by " min" |
| `QueueStatusPage.DemoTicketDisplay` | frontend/ahfrontend/src/app/pages/user/queue-status.component.ts:106-116 | the demo ticket shows "#3", "30 min" and "Waiting in Queue" |
| `QueueStatusPage.ReadHistory` | frontend/ahfrontend/src/app/pages/user/queue-status.component.ts:150-159 | a stored list is read as is; nothing stored, or anything that is not a list, reads as [] |
| `QueueStatusPage.QueueStatusComponent.constructor` | frontend/ahfrontend/src/app/pages/user/queue-status.component.ts:29-30 | the page reads the two storage keys |
| `QueueStatusPage.QueueStatusComponent.LeaveQueue` | frontend/ahfrontend/src/app/pages/user/queue-status.component.ts:88-104 | with no ticket nothing changes. Otherwise the history grows by exactly one uncapped entry at the head: the ticket's fields with outcome left. Older entries follow in order and the active ticket is removed |
| `QueueStatusPage.QueueStatusComponent.SeedDemoTicket` | frontend/ahfrontend/src/app/pages/user/queue-status.component.ts:106-116 | the demo ticket is stored and the history is unchanged |
| `HistoryPage.Truthy` | frontend/ahfrontend/src/app/pages/user/history.component.ts:115-116 | a missing or zero number normalises to null, any other is kept |
| `HistoryPage.Normalize` | frontend/ahfrontend/src/app/pages/user/history.component.ts:110-119 | id falls back to "hist_" + (i + 1); serviceName to service, then "Service"; status and outcome to "unknown"; a falsy position or wait becomes null; joinedAtIso is joinedAt, else date; leftAtIso is endedAt |
| `HistoryPage.NormalizeComplete` | frontend/ahfrontend/src/app/pages/user/history.component.ts:110-119 | normalising a row that has every field gives it back unchanged |
| `HistoryPage.FallbackIdsDistinct` | frontend/ahfrontend/src/app/pages/user/history.component.ts:111 | rows without an id at different indices get different ids |
| `HistoryPage.NormalizeAll` | frontend/ahfrontend/src/app/pages/user/history.component.ts:110-119 | the map keeps length and order, row i normalised with index i; a null element makes it fail |
| `HistoryPage.LoadFromStorage` | frontend/ahfrontend/src/app/pages/user/history.component.ts:103-120 | nothing stored or a non-array gives []; unparseable text fails; an array gives its normalised rows |
| `HistoryPage.OutcomeBadgeThemeClass` | frontend/ahfrontend/src/app/pages/user/history.component.ts:61-69 | served gives success, left gives warn, canceled and no_show give danger, anything else gives info |
| `HistoryPage.OutcomeLabel` | frontend/ahfrontend/src/app/pages/user/history.component.ts:71-79 | each known outcome has its own label, anything else reads "Unknown" |
| `HistoryPage.BadgeFollowsLabel` | frontend/ahfrontend/src/app/pages/user/history.component.ts:61-79 | outcomes with the same label get the same badge |
| `HistoryPage.StatusLabel` | frontend/ahfrontend/src/app/pages/user/history.component.ts:81-91 | each known status has its own label, anything else reads "Unknown" |
| `HistoryPage.FormatPosition` | frontend/ahfrontend/src/app/pages/user/history.component.ts:93-96 | an em dash exactly for a missing or zero position, else "#" and a numeral reading back as it |
| `HistoryPage.FormatWait` | frontend/ahfrontend/src/app/pages/user/history.component.ts:98-101 | an em dash exactly for a missing or zero wait, else a numeral reading back as it followed by " min" |
| `HistoryPage.NormalizeKeepsDisplay` | frontend/ahfrontend/src/app/pages/user/history.component.ts:93-101 | normalisation does not change how a position or wait is displayed |
| `HistoryPage.HistoryComponent.constructor` | frontend/ahfrontend/src/app/pages/user/history.component.ts:41-42 | the page starts with no rows |
| `HistoryPage.HistoryComponent.Refresh` | frontend/ahfrontend/src/app/pages/user/history.component.ts:44-54 | on success the rows are the loaded ones; on a load failure the rows stay and the error is reported |
| `HistoryPage.HistoryComponent.ClearHistory` | frontend/ahfrontend/src/app/pages/user/history.component.ts:56-59 | the stored history is removed and the rows are empty |
| `UserDashboardPage.InitialTicket` | frontend/ahfrontend/src/app/pages/user/user-dashboard/user-dashboard.component.ts:43-66 | the primary key's ticket, else the fallback key's, else the default ticket |
| `UserDashboardPage.InitialList` | frontend/ahfrontend/src/app/pages/user/user-dashboard/user-dashboard.component.ts:48-82 | a non-empty primary list is used; a missing or empty one gives the defaults; the fallback key counts only when the primary holds null |
| `UserDashboardPage.SafeParse` | frontend/ahfrontend/src/app/pages/user/user-dashboard/user-dashboard.component.ts:146-154 | a missing key gives the fallback, a stored null gives null, and a stored value is returned as is |
| `UserDashboardPage.FreshDashboard` | frontend/ahfrontend/src/app/pages/user/user-dashboard/user-dashboard.component.ts:58-74 | with nothing stored: the default ticket (Waiting, position 3, wait 30) and the three default services |
| `UserDashboardPage.InitialListsNonEmpty` | frontend/ahfrontend/src/app/pages/user/user-dashboard/user-dashboard.component.ts:68-82 | after loading, services and notifications are never empty |
| `UserDashboardPage.Top5` | frontend/ahfrontend/src/app/pages/user/user-dashboard/user-dashboard.component.ts:85-87 | the prefix of length min(5, n) of the notifications |
| `UserDashboardPage.MarkRead` | frontend/ahfrontend/src/app/pages/user/user-dashboard/user-dashboard.component.ts:96 | a NEW notification becomes INFO and any other one is unchanged; message and time are kept, and the result is never NEW |
| `UserDashboardPage.AllRead` | frontend/ahfrontend/src/app/pages/user/user-dashboard/user-dashboard.component.ts:95-98 | no NEW remains: NEW becomes INFO, other types, messages, times and the length are kept |
| `UserDashboardPage.AllReadIdempotent` | frontend/ahfrontend/src/app/pages/user/user-dashboard/user-dashboard.component.ts:96 | marking all read twice is marking once |
| `UserDashboardPage.LeftNoticeShown` | frontend/ahfrontend/src/app/pages/user/user-dashboard/user-dashboard.component.ts:100-106 | after leaving, the leave notice heads the top five |
| `UserDashboardPage.Without` | frontend/ahfrontend/src/app/pages/user/user-dashboard/user-dashboard.component.ts:122-125 | the dismissed notification is gone and every other one is kept |
| `UserDashboardPage.WithoutKeepsOrder` | frontend/ahfrontend/src/app/pages/user/user-dashboard/user-dashboard.component.ts:123 | dismissal keeps the order of the others |
| `UserDashboardPage.WithoutAbsent` | frontend/ahfrontend/src/app/pages/user/user-dashboard/user-dashboard.component.ts:123 | dismissing a notification that is not listed changes nothing |
| `UserDashboardPage.BadgeClassForStatus` | frontend/ahfrontend/src/app/pages/user/user-dashboard/user-dashboard.component.ts:127-135 | Served gives success, Almost Ready gives warn, Left gives danger, Waiting and anything else give info |
| `UserDashboardPage.BadgeClassForNotif` | frontend/ahfrontend/src/app/pages/user/user-dashboard/user-dashboard.component.ts:137-144 | ALERT gives danger, INFO gives success, NEW or no type gives info |
| `UserDashboardPage.AllReadBadges` | frontend/ahfrontend/src/app/pages/user/user-dashboard/user-dashboard.component.ts:95-98 | after mark all read, no typed notification keeps the info (NEW) badge |
| `UserDashboardPage.UserDashboardComponent.constructor` | frontend/ahfrontend/src/app/pages/user/user-dashboard/user-dashboard.component.ts:36-38 | the page starts with no ticket, services or notifications |
| `UserDashboardPage.UserDashboardComponent.OnInit` | frontend/ahfrontend/src/app/pages/user/user-dashboard/user-dashboard.component.ts:42-83 | ticket, services and notifications are loaded with their fallbacks and defaults |
| `UserDashboardPage.UserDashboardComponent.MarkAllRead` | frontend/ahfrontend/src/app/pages/user/user-dashboard/user-dashboard.component.ts:95-98 | notifications become AllRead(old) and are stored |
| `UserDashboardPage.UserDashboardComponent.LeaveQueue` | frontend/ahfrontend/src/app/pages/user/user-dashboard/user-dashboard.component.ts:100-106 | the active ticket is null, both ticket keys are removed, and exactly one INFO "You left the queue." notice is prepended and stored |
| `UserDashboardPage.UserDashboardComponent.DismissNotification` | frontend/ahfrontend/src/app/pages/user/user-dashboard/user-dashboard.component.ts:122-125 | notifications lose the given one and are stored |
| `QueueMock.InitialTicket` | frontend/ahfrontend/src/app/services/queue-mock.service.ts:14-22 | the initial ticket is WAITING at position 3 with a 30-minute estimate |
| `QueueMock.StatusLabel` | frontend/ahfrontend/src/app/services/queue-mock.service.ts:53-66 | WAITING, ALMOST_READY, SERVED and NOT_IN_QUEUE map to their four distinct labels |
| `QueueMock.StateOfLabel` | frontend/ahfrontend/src/app/services/queue-mock.service.ts:53-66 | reading a shown label back: whenever it yields a state, that state's label is the shown text |
| `QueueMock.LabelRoundTrip` | frontend/ahfrontend/src/app/services/queue-mock.service.ts:53-66 | every state's label leads back to the state |
| `QueueMock.QueueMockService.constructor` | frontend/ahfrontend/src/app/services/queue-mock.service.ts:14-37 | the mock starts with the initial ticket and two history items |
| `QueueMock.QueueMockService.GetActiveTicket` | frontend/ahfrontend/src/app/services/queue-mock.service.ts:39-41 | returns the current active ticket |
| `QueueMock.QueueMockService.GetHistory` | frontend/ahfrontend/src/app/services/queue-mock.service.ts:43-45 | returns the history |
| `QueueMock.QueueMockService.LeaveQueue` | frontend/ahfrontend/src/app/services/queue-mock.service.ts:48-50 | the active ticket becomes none and the history is unchanged, so a second call changes nothing |
| `NotificationsMock.AllRead` | frontend/ahfrontend/src/app/services/notifications-mock.service.ts:17-19 | every notification is read; length, order, id, type, message and createdAt are kept |
| `NotificationsMock.AllReadIdempotent` | frontend/ahfrontend/src/app/services/notifications-mock.service.ts:18 | marking all read twice is marking once |
| `NotificationsMock.AllReadFixed` | frontend/ahfrontend/src/app/services/notifications-mock.service.ts:18 | a list already all read is unchanged |
| `NotificationsMock.NotificationsMockService.constructor` | frontend/ahfrontend/src/app/services/notifications-mock.service.ts:7-11 | the mock starts with the three notifications |
| `NotificationsMock.NotificationsMockService.GetNotifications` | frontend/ahfrontend/src/app/services/notifications-mock.service.ts:13-15 | returns the current notifications |
| `NotificationsMock.NotificationsMockService.MarkAllRead` | frontend/ahfrontend/src/app/services/notifications-mock.service.ts:17-19 | notifications become AllRead(old) |

## Left out

- Rendering, templates, routing (`router.navigate*`, `goToJoin`), `alert`, the clipboard and `manageCurrent`. These hold no logic the model could state.
- Angular signals, `computed` and RxJS `Observable`/`BehaviorSubject` are plain fields and functions here. The queue mock's `of(...)` becomes a getter method.
- `localStorage` and `JSON.parse`/`JSON.stringify` are not modelled as text. Each key is a field whose value is already parsed, and the cases the code tells apart are kept. A storage write that throws (for example a full quota) is not modelled, so the join page's `catch` runs only when `unshift` throws on a stored non-list.
- `Number(...)` coercion and `NaN` checks are dropped. Numeric fields are `Option<int>`, and a stored numeric string is not converted.
- `QueueStatusPage.ReadActiveTicket`: a stored `position` or `estWaitMin` of JSON `null` is not modelled. `None` stands only for a missing field. In the code `Number(null)` is 0, so the status page shows "#0" and "Now" for such a ticket, not the em dash.
- Storage keys that several pages share are modelled as separate fields of each page. `ah_activeTicket` is used by the join page and the status page. `ah_ticketHistory` is used by the join page, the status page and the history page. So the model does not show what one page's write means for another page's read.
- Cross-page effects of those shared keys are therefore not modelled. A ticket written by the join page has `ticketId` and `estimatedWaitMins`, which the status page does not read, so it shows "QS-0000" and an em dash for the wait. Rows logged by the join page have no `id` and no `date`, so the history page shows them as "hist_N" with no join time. The status page's `joinedAtIso` and `leftAtIso` are read by the history page as `joinedAt` and `endedAt`, so both come out null.
- Shapes `JSON.parse` can yield that the declared types exclude are not modelled, such as a dashboard services value that is an object, or a status that is not a string.
- Clocks: `Date`, `toISOString`, `toLocaleTimeString`, `nowTime`, `formattedTime` and the one-second live clock. Timestamps are opaque string parameters.
- The four-second `setTimeout` that auto-dismisses a toast. Its effect is a later `DismissToast` call.
- `Math.random` becomes the caller's choice of draw, so the model says nothing about distribution. Nothing in the code prevents id collisions, and neither does the model.
- `setTab`, `mode` and `activeTab` on the staff screen only select what is displayed.
- `UserDashboardPage.Without`: `dismissNotification` compares objects by reference. The model compares by value, so it drops every equal copy where the code drops only the one object.
- Form validators (`required`, `maxLength(300)`) are the boolean `formValid` parameter of `JoinQueue`. `markAllAsTouched` only changes display.
- `JoinQueuePage.JoinQueueComponent.JoinQueue`: the `submitting` flag is true only while the method runs. The model states its value at exit only.
- `services-management.component.ts`, `services-catalog.service.ts`, `app.routes.ts`, `models/queue.models.ts` and `join-queue.component.spec.ts` are not part of this model. They hold form setup, static data, routing, type declarations and a creation-only test. The types in `models/queue.models.ts` appear in the mock modules.
