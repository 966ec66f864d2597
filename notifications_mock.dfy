/** The mock notification service: a list of notifications with a read flag. */
module NotificationsMock {

  datatype NotifType = Info | Alert

  /** `createdAt` is an opaque timestamp. */
  datatype UserNotification = UserNotification(id: string, kind: NotifType, message: string, createdAt: string, read: bool)

  /** The list `markAllRead` publishes: the same notifications, all read. */
  function AllRead(ns: seq<UserNotification>): (r: seq<UserNotification>)
    ensures |r| == |ns|
    ensures forall i :: 0 <= i < |r| ==> r[i].read
    ensures forall i :: 0 <= i < |r| ==>
              r[i].id == ns[i].id && r[i].kind == ns[i].kind &&
              r[i].message == ns[i].message && r[i].createdAt == ns[i].createdAt
  {
    if ns == [] then [] else [ns[0].(read := true)] + AllRead(ns[1..])
  }

  /** Marking everything read twice is marking it once. */
  lemma {:induction false} AllReadIdempotent(ns: seq<UserNotification>)
    ensures AllRead(AllRead(ns)) == AllRead(ns)
  {
    if ns != [] {
      var r := AllRead(ns);
      assert r[1..] == AllRead(ns[1..]);
      AllReadIdempotent(ns[1..]);
    }
  }

  /** A list that is already all read is left as it is. */
  lemma {:induction false} AllReadFixed(ns: seq<UserNotification>)
    requires forall i :: 0 <= i < |ns| ==> ns[i].read
    ensures AllRead(ns) == ns
  {
    if ns != [] {
      AllReadFixed(ns[1..]);
      assert ns == [ns[0]] + ns[1..];
    }
  }

  class NotificationsMockService {
    var notifications: seq<UserNotification>

    /** `t1`, `t2`, `t3` are the creation times of the three mock notifications. */
    constructor (t1: string, t2: string, t3: string)
      ensures notifications == [
        UserNotification("N1", Info, "New service added: Academic Standing Support.", t1, false),
        UserNotification("N2", Alert, "High demand today\U{2014}estimated wait times may increase.", t2, false),
        UserNotification("N3", Info, "Bring your degree plan for Graduation Check.", t3, true)]
    {
      notifications := [
        UserNotification("N1", Info, "New service added: Academic Standing Support.", t1, false),
        UserNotification("N2", Alert, "High demand today\U{2014}estimated wait times may increase.", t2, false),
        UserNotification("N3", Info, "Bring your degree plan for Graduation Check.", t3, true)];
    }

    method GetNotifications() returns (ns: seq<UserNotification>)
      ensures ns == notifications
    {
      ns := notifications;
    }

    method MarkAllRead()
      modifies this
      ensures notifications == AllRead(old(notifications))
    {
      notifications := AllRead(notifications);
    }
  }
}
