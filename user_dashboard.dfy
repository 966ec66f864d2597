/** The student dashboard: the active ticket, the service list and the
    notifications, each loaded from storage with defaults. */
module UserDashboardPage {
  import opened Wrappers
  import Lists

  /** The stored ticket's status is whatever string was stored. */
  datatype ActiveTicket = ActiveTicket(serviceName: string, ticketId: string, status: string, position: int, estimatedWait: int)

  datatype ServiceItem = ServiceItem(id: string, name: string, description: Option<string>, avgMinutes: Option<int>)

  datatype NotifType = Info | Alert | New

  /** `time` is an opaque clock reading. */
  datatype UserNotification = UserNotification(kind: Option<NotifType>, message: string, time: Option<string>)

  /** What one storage key yields when parsed: `Missing` when it is absent,
      empty or does not parse, `JsonNull` for a stored `null`, else the value. */
  datatype Stored<T> = Missing | JsonNull | Present(value: T)

  /** The keys the dashboard reads: each value has a primary and a fallback key. */
  datatype DashboardStorage = DashboardStorage(
    activeTicket: Stored<ActiveTicket>,
    activeTicketSimple: Stored<ActiveTicket>,
    services: Stored<seq<ServiceItem>>,
    servicesSimple: Stored<seq<ServiceItem>>,
    notifications: Stored<seq<UserNotification>>,
    notificationsSimple: Stored<seq<UserNotification>>)

  const DefaultTicket: ActiveTicket := ActiveTicket("General Advising", "QS-1234", "Waiting", 3, 30)

  const DefaultServices: seq<ServiceItem> := [
    ServiceItem("svc1", "General Advising", Some("Course planning, registration help, holds."), Some(20)),
    ServiceItem("svc2", "Graduation Check", Some("Degree audit + graduation readiness."), Some(30)),
    ServiceItem("svc3", "Major Change", Some("Requirements + eligibility discussion."), Some(25))
  ]

  function DefaultNotifications(now: string): seq<UserNotification> {
    [ UserNotification(Some(New), "New service added: Academic Standing Support.", Some(now)),
      UserNotification(Some(Alert), "High demand today\U{2014}estimated wait times may increase.", Some(now)),
      UserNotification(Some(Info), "Bring your degree plan for Graduation Check.", Some(now)) ]
  }

  const LeftMessage: string := "You left the queue."

  /** `safeParse(key, fallback)`, with None standing for JavaScript's null. */
  function SafeParse<T>(stored: Stored<T>, fallback: Option<T>): (r: Option<T>)
    ensures stored.Missing? ==> r == fallback
    ensures stored.JsonNull? ==> r.None?
    ensures stored.Present? ==> r == Some(stored.value)
  {
    match stored
    case Missing => fallback
    case JsonNull => None
    case Present(v) => Some(v)
  }

  /** `a ?? b`. */
  function Coalesce<T>(a: Option<T>, b: Option<T>): Option<T> {
    if a.Some? then a else b
  }

  /** The active ticket after `ngOnInit`: the primary key's ticket, else the
      fallback key's, else the default ticket. */
  function InitialTicket(st: DashboardStorage): (t: ActiveTicket)
    ensures st.activeTicket.Present? ==> t == st.activeTicket.value
    ensures !st.activeTicket.Present? && st.activeTicketSimple.Present? ==> t == st.activeTicketSimple.value
    ensures !st.activeTicket.Present? && !st.activeTicketSimple.Present? ==> t == DefaultTicket
  {
    Coalesce(SafeParse(st.activeTicket, None), SafeParse(st.activeTicketSimple, None)).GetOr(DefaultTicket)
  }

  /** A list read from a primary and a fallback key, with `[]` as the
      fallback of each read, and `defaults` when the result is empty. The
      fallback key is consulted only when the primary one holds `null`. */
  function InitialList<T>(primary: Stored<seq<T>>, secondary: Stored<seq<T>>, defaults: seq<T>): (r: seq<T>)
    ensures primary.Present? && primary.value != [] ==> r == primary.value
    ensures primary.Missing? || primary == Present([]) ==> r == defaults
    ensures primary.JsonNull? && secondary.Present? && secondary.value != [] ==> r == secondary.value
    ensures primary.JsonNull? && !(secondary.Present? && secondary.value != []) ==> r == defaults
  {
    var loaded := Coalesce(SafeParse(primary, Some([])), SafeParse(secondary, Some([]))).GetOr([]);
    if loaded == [] then defaults else loaded
  }

  function InitialServices(st: DashboardStorage): seq<ServiceItem> {
    InitialList(st.services, st.servicesSimple, DefaultServices)
  }

  function InitialNotifications(st: DashboardStorage, now: string): seq<UserNotification> {
    InitialList(st.notifications, st.notificationsSimple, DefaultNotifications(now))
  }

  /** With nothing stored the dashboard shows the default ticket (Waiting,
      third, 30 minutes) and the three default services. */
  lemma FreshDashboard(now: string)
    ensures var st := DashboardStorage(Missing, Missing, Missing, Missing, Missing, Missing);
            && InitialTicket(st) == DefaultTicket
            && InitialTicket(st).status == "Waiting" && InitialTicket(st).position == 3
            && InitialTicket(st).estimatedWait == 30
            && |InitialServices(st)| == 3 && InitialServices(st) == DefaultServices
            && |InitialNotifications(st, now)| == 3
  {
  }

  /** The loaded lists are never empty. */
  lemma InitialListsNonEmpty(st: DashboardStorage, now: string)
    ensures InitialServices(st) != [] && InitialNotifications(st, now) != []
  {
  }

  /** `notificationsTop5`: the first five notifications (or all, if fewer). */
  function Top5(ns: seq<UserNotification>): (r: seq<UserNotification>)
    ensures |r| == Lists.Min(5, |ns|)
    ensures forall i :: 0 <= i < |r| ==> r[i] == ns[i]
  {
    ns[..Lists.Min(5, |ns|)]
  }

  /** One notification with NEW turned into INFO. */
  function MarkRead(n: UserNotification): (r: UserNotification)
    ensures r.kind != Some(New)
    ensures r.message == n.message && r.time == n.time
    ensures n.kind == Some(New) ==> r.kind == Some(Info)
    ensures n.kind != Some(New) ==> r == n
  {
    if n.kind == Some(New) then n.(kind := Some(Info)) else n
  }

  /** The list `markAllRead` leaves behind. */
  function AllRead(ns: seq<UserNotification>): (r: seq<UserNotification>)
    ensures |r| == |ns|
    ensures forall i :: 0 <= i < |r| ==> r[i].kind != Some(New)
    ensures forall i :: 0 <= i < |r| ==> r[i].message == ns[i].message && r[i].time == ns[i].time
    ensures forall i :: 0 <= i < |r| ==> ns[i].kind == Some(New) ==> r[i].kind == Some(Info)
    ensures forall i :: 0 <= i < |r| ==> ns[i].kind != Some(New) ==> r[i].kind == ns[i].kind
  {
    seq(|ns|, i requires 0 <= i < |ns| => MarkRead(ns[i]))
  }

  /** Marking everything read twice is marking it once. */
  lemma AllReadIdempotent(ns: seq<UserNotification>)
    ensures AllRead(AllRead(ns)) == AllRead(ns)
  {
  }

  /** The notification `leaveQueue` adds, stamped `now`. */
  function LeftNotice(now: string): UserNotification {
    UserNotification(Some(Info), LeftMessage, Some(now))
  }

  /** After leaving, the leave notice heads the five shown. */
  lemma LeftNoticeShown(ns: seq<UserNotification>, now: string)
    ensures Top5([LeftNotice(now)] + ns)[0] == LeftNotice(now)
    ensures |Top5([LeftNotice(now)] + ns)| == Lists.Min(5, |ns| + 1)
  {
  }

  /** `notifications.filter(n => n !== notification)`. */
  function Without(ns: seq<UserNotification>, n: UserNotification): (r: seq<UserNotification>)
    ensures n !in r
    ensures forall i :: 0 <= i < |r| ==> r[i] in ns
    ensures forall i :: 0 <= i < |ns| && ns[i] != n ==> ns[i] in r
  {
    Lists.Keep(ns, (x: UserNotification) => x != n)
  }

  /** Dismissal keeps the order of the remaining notifications. */
  lemma WithoutKeepsOrder(a: seq<UserNotification>, b: seq<UserNotification>, n: UserNotification)
    ensures Without(a + b, n) == Without(a, n) + Without(b, n)
  {
    Lists.KeepAppend(a, b, (x: UserNotification) => x != n);
  }

  /** Dismissing a notification that is not shown changes nothing. */
  lemma WithoutAbsent(ns: seq<UserNotification>, n: UserNotification)
    requires n !in ns
    ensures Without(ns, n) == ns
  {
    Lists.KeepAll(ns, (x: UserNotification) => x != n);
  }

  function BadgeClassForStatus(status: string): (r: string)
    ensures r == "success" <==> status == "Served"
    ensures r == "warn" <==> status == "Almost Ready"
    ensures r == "danger" <==> status == "Left"
    ensures r == "info" <==> status !in ["Served", "Almost Ready", "Left"]
  {
    match status
    case "Served" => "success"
    case "Almost Ready" => "warn"
    case "Waiting" => "info"
    case "Left" => "danger"
    case _ => "info"
  }

  function BadgeClassForNotif(kind: Option<NotifType>): (r: string)
    ensures r == "danger" <==> kind == Some(Alert)
    ensures r == "success" <==> kind == Some(Info)
    ensures r == "info" <==> kind == Some(New) || kind.None?
  {
    match kind
    case Some(Alert) => "danger"
    case Some(New) => "info"
    case Some(Info) => "success"
    case None => "info"
  }

  /** After "mark all read" no notification wears the NEW badge colour
      unless it has no type. */
  lemma AllReadBadges(ns: seq<UserNotification>)
    ensures forall i :: 0 <= i < |AllRead(ns)| && AllRead(ns)[i].kind.Some? ==>
              BadgeClassForNotif(AllRead(ns)[i].kind) != "info"
  {
  }

  class UserDashboardComponent {
    var activeTicket: Option<ActiveTicket>
    var services: seq<ServiceItem>
    var notifications: seq<UserNotification>
    var storage: DashboardStorage

    constructor (storage: DashboardStorage)
      ensures activeTicket == None && services == [] && notifications == []
      ensures this.storage == storage
    {
      activeTicket := None;
      services := [];
      notifications := [];
      this.storage := storage;
    }

    /** `ngOnInit`, with `now` the clock reading on the default notifications. */
    method OnInit(now: string)
      modifies this
      ensures activeTicket == Some(InitialTicket(old(storage)))
      ensures services == InitialServices(old(storage))
      ensures notifications == InitialNotifications(old(storage), now)
      ensures storage == old(storage)
    {
      activeTicket := Some(InitialTicket(storage));
      services := InitialServices(storage);
      notifications := InitialNotifications(storage, now);
    }

    method MarkAllRead()
      modifies this
      ensures notifications == AllRead(old(notifications))
      ensures storage == old(storage).(notifications := Present(notifications))
      ensures activeTicket == old(activeTicket) && services == old(services)
    {
      notifications := AllRead(notifications);
      storage := storage.(notifications := Present(notifications));
    }

    /** `leaveQueue`, with `now` the clock reading on the new notice. */
    method LeaveQueue(now: string)
      modifies this
      ensures activeTicket == None
      ensures notifications == [LeftNotice(now)] + old(notifications)
      ensures storage == old(storage).(activeTicket := Missing, activeTicketSimple := Missing,
                                       notifications := Present(notifications))
      ensures services == old(services)
    {
      activeTicket := None;
      storage := storage.(activeTicket := Missing, activeTicketSimple := Missing);
      notifications := [LeftNotice(now)] + notifications;
      storage := storage.(notifications := Present(notifications));
    }

    method DismissNotification(n: UserNotification)
      modifies this
      ensures notifications == Without(old(notifications), n)
      ensures storage == old(storage).(notifications := Present(notifications))
      ensures activeTicket == old(activeTicket) && services == old(services)
    {
      notifications := Without(notifications, n);
      storage := storage.(notifications := Present(notifications));
    }
  }
}
