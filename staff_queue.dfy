/** The staff queue screen: a list of queue items, each Waiting, Being
    Served, Completed or No Show, and an Active/Paused gate in front of
    "serve next". */
module StaffQueueManagement {
  import opened Wrappers

  datatype QueueStatus = Active | Paused
  datatype ServiceState = Waiting | BeingServed | Completed | NoShow
  datatype Priority = Normal | High

  datatype QueueItem = QueueItem(
    name: string,
    studentId: string,
    priority: Priority,
    reason: string,
    joinedAgo: string,
    notes: Option<string>,
    estWaitMin: int,
    state: ServiceState)

  /** The mock queue the screen starts with. */
  const InitialItems: seq<QueueItem> := [
    QueueItem("John Smith", "STU001", Normal, "Transcript Request", "Joined 15 min ago",
              Some("Notes: Needs urgent processing for job application"), 25, BeingServed),
    QueueItem("Ariana M.", "STU002", Normal, "Add/Drop", "Joined 6 min ago", None, 18, Waiting),
    QueueItem("Jordan S.", "STU003", High, "Graduation Check", "Joined 3 min ago", None, 10, Waiting)
  ]

  /** The status `toggleQueue` switches to. */
  function Toggled(s: QueueStatus): (r: QueueStatus)
    ensures r != s
  {
    if s == Active then Paused else Active
  }

  /** Toggling twice restores the original status. */
  lemma ToggleTwice(s: QueueStatus)
    ensures Toggled(Toggled(s)) == s
  {
  }

  /** Number of items in state `s` (`items.filter(x => x.state === s).length`). */
  function Count(items: seq<QueueItem>, s: ServiceState): (n: nat)
    ensures n <= |items|
  {
    if items == [] then 0 else (if items[0].state == s then 1 else 0) + Count(items[1..], s)
  }

  /** The `waitingCount` counter: zero exactly when nobody is Waiting. */
  function WaitingCount(items: seq<QueueItem>): (n: nat)
    ensures n <= |items|
    ensures n == 0 <==> forall i :: 0 <= i < |items| ==> items[i].state != Waiting
  {
    CountZero(items, Waiting);
    Count(items, Waiting)
  }

  /** The `beingServedCount` counter: zero exactly when nobody is Being Served. */
  function BeingServedCount(items: seq<QueueItem>): (n: nat)
    ensures n <= |items|
    ensures n == 0 <==> forall i :: 0 <= i < |items| ==> items[i].state != BeingServed
  {
    CountZero(items, BeingServed);
    Count(items, BeingServed)
  }

  /** The `completedTodayCount` counter: zero exactly when nobody is Completed. */
  function CompletedTodayCount(items: seq<QueueItem>): (n: nat)
    ensures n <= |items|
    ensures n == 0 <==> forall i :: 0 <= i < |items| ==> items[i].state != Completed
  {
    CountZero(items, Completed);
    Count(items, Completed)
  }

  /** A state is absent exactly when its count is zero. */
  lemma {:induction false} CountZero(items: seq<QueueItem>, s: ServiceState)
    ensures Count(items, s) == 0 <==> forall i :: 0 <= i < |items| ==> items[i].state != s
  {
    if items != [] {
      CountZero(items[1..], s);
      assert forall i :: 1 <= i < |items| ==> items[i] == items[1..][i - 1];
    }
  }

  /** Replacing one item changes each count by what left and what arrived. */
  lemma {:induction false} CountUpdate(items: seq<QueueItem>, k: nat, x: QueueItem, s: ServiceState)
    requires k < |items|
    ensures Count(items[k := x], s) ==
            Count(items, s) - (if items[k].state == s then 1 else 0) + (if x.state == s then 1 else 0)
  {
    if k > 0 {
      assert items[k := x][1..] == items[1..][k - 1 := x];
      CountUpdate(items[1..], k - 1, x, s);
    } else {
      assert items[k := x][1..] == items[1..];
    }
  }

  /** With a count of at most one, two items in that state are the same item. */
  lemma {:induction false} CountAtMostOne(items: seq<QueueItem>, s: ServiceState, i: nat, j: nat)
    requires Count(items, s) <= 1
    requires i < |items| && j < |items| && items[i].state == s && items[j].state == s
    ensures i == j
  {
    if i > 0 && j > 0 {
      CountAtMostOne(items[1..], s, i - 1, j - 1);
    } else if i > 0 || j > 0 {
      var m := if i > 0 then i else j;
      assert items[1..][m - 1].state == s;
      CountZero(items[1..], s);
    }
  }

  /** Every item is in exactly one of the four states. */
  lemma {:induction false} CountsPartition(items: seq<QueueItem>)
    ensures Count(items, Waiting) + Count(items, BeingServed) + Count(items, Completed) +
            Count(items, NoShow) == |items|
  {
    if items != [] {
      CountsPartition(items[1..]);
    }
  }

  /** The three counters on the screen never add up to more than the list. */
  lemma CountersWithinLength(items: seq<QueueItem>)
    ensures WaitingCount(items) + BeingServedCount(items) + CompletedTodayCount(items) <= |items|
  {
    CountsPartition(items);
  }

  /** `k` is the first index whose item is in state `s`. */
  predicate FirstIn(items: seq<QueueItem>, k: nat, s: ServiceState) {
    k < |items| && items[k].state == s && forall j :: 0 <= j < k ==> items[j].state != s
  }

  /** `items.findIndex(x => x.state === s)`, with -1 as None. */
  function FirstWith(items: seq<QueueItem>, s: ServiceState): (r: Option<nat>)
    ensures r.Some? ==> FirstIn(items, r.value, s)
    ensures r.None? ==> forall j :: 0 <= j < |items| ==> items[j].state != s
    ensures forall k: nat :: FirstIn(items, k, s) ==> r == Some(k)
  {
    if items == [] then None
    else if items[0].state == s then Some(0)
    else match FirstWith(items[1..], s)
         case None => None
         case Some(k) => Some(k + 1)
  }

  /** The item on the "Current Queue" card: the first one Being Served,
      otherwise the first one Waiting, otherwise none. */
  function Current(items: seq<QueueItem>): (r: Option<QueueItem>)
    ensures forall k: nat :: FirstIn(items, k, BeingServed) ==> r == Some(items[k])
    ensures (forall j :: 0 <= j < |items| ==> items[j].state != BeingServed) ==>
              forall k: nat :: FirstIn(items, k, Waiting) ==> r == Some(items[k])
    ensures r.None? <==>
              forall j :: 0 <= j < |items| ==> items[j].state != BeingServed && items[j].state != Waiting
  {
    match FirstWith(items, BeingServed)
    case Some(k) => Some(items[k])
    case None =>
      match FirstWith(items, Waiting)
      case Some(k) => Some(items[k])
      case None => None
  }

  /** The list `serveNext` leaves behind. */
  function ServeNextOf(status: QueueStatus, items: seq<QueueItem>): (r: seq<QueueItem>)
    ensures |r| == |items|
    ensures status == Paused ==> r == items
    ensures (exists j :: 0 <= j < |items| && items[j].state == BeingServed) ==> r == items
    ensures (forall j :: 0 <= j < |items| ==> items[j].state != Waiting) ==> r == items
    ensures status == Active && (forall j :: 0 <= j < |items| ==> items[j].state != BeingServed) ==>
              forall k: nat :: FirstIn(items, k, Waiting) ==>
                r[k] == items[k].(state := BeingServed) &&
                forall j :: 0 <= j < |items| && j != k ==> r[j] == items[j]
  {
    if status == Paused || exists j :: 0 <= j < |items| && items[j].state == BeingServed then
      items
    else
      match FirstWith(items, Waiting)
      case None => items
      case Some(k) => items[k := items[k].(state := BeingServed)]
  }

  /** `serveNext` never puts a second item in service. */
  lemma ServeNextKeepsOneServer(status: QueueStatus, items: seq<QueueItem>)
    requires BeingServedCount(items) <= 1
    ensures BeingServedCount(ServeNextOf(status, items)) <= 1
  {
    var r := ServeNextOf(status, items);
    if r != items {
      var k := FirstWith(items, Waiting).value;
      assert r == items[k := items[k].(state := BeingServed)];
      CountUpdate(items, k, items[k].(state := BeingServed), BeingServed);
      CountZero(items, BeingServed);
    }
  }

  /** A promotion moves exactly one item from Waiting to Being Served and
      leaves the Completed count alone. */
  lemma ServeNextMovesOne(items: seq<QueueItem>)
    requires BeingServedCount(items) == 0 && WaitingCount(items) > 0
    ensures WaitingCount(ServeNextOf(Active, items)) == WaitingCount(items) - 1
    ensures BeingServedCount(ServeNextOf(Active, items)) == 1
    ensures CompletedTodayCount(ServeNextOf(Active, items)) == CompletedTodayCount(items)
  {
    CountZero(items, BeingServed);
    CountZero(items, Waiting);
    var k := FirstWith(items, Waiting).value;
    var x := items[k].(state := BeingServed);
    CountUpdate(items, k, x, Waiting);
    CountUpdate(items, k, x, BeingServed);
    CountUpdate(items, k, x, Completed);
  }

  /** Every item of student `id` set to state `to`, the others as they were. */
  function SetStateOf(items: seq<QueueItem>, id: string, to: ServiceState): (r: seq<QueueItem>)
    ensures |r| == |items|
    ensures forall i :: 0 <= i < |items| ==>
              r[i] == if items[i].studentId == id then items[i].(state := to) else items[i]
  {
    if items == [] then []
    else [if items[0].studentId == id then items[0].(state := to) else items[0]]
         + SetStateOf(items[1..], id, to)
  }

  /** The list `completeCurrent` (to = Completed) or `noShowCurrent`
      (to = NoShow) leaves behind: every item of the current item's student
      takes state `to`, whether the current item was Being Served or still
      Waiting; with no current item nothing changes. */
  function Retire(items: seq<QueueItem>, to: ServiceState): (r: seq<QueueItem>)
    ensures |r| == |items|
    ensures Current(items).None? ==> r == items
    ensures Current(items).Some? ==>
              forall i :: 0 <= i < |items| ==>
                r[i] == if items[i].studentId == Current(items).value.studentId
                        then items[i].(state := to) else items[i]
  {
    match Current(items)
    case None => items
    case Some(cur) => SetStateOf(items, cur.studentId, to)
  }

  /** Retiring the current item when at most one is Being Served leaves no
      one Being Served: the one in service (if any) was the current one. */
  lemma RetireClearsServer(items: seq<QueueItem>, to: ServiceState)
    requires to != BeingServed
    requires BeingServedCount(items) <= 1
    ensures BeingServedCount(Retire(items, to)) == 0
  {
    var r := Retire(items, to);
    forall i | 0 <= i < |r| ensures r[i].state != BeingServed {
      if items[i].state == BeingServed {
        var k := FirstWith(items, BeingServed).value;
        CountAtMostOne(items, BeingServed, i, k);
      }
    }
    CountZero(r, BeingServed);
  }

  /** The staff queue component's state: the gate and the list. */
  class StaffQueue {
    var queueStatus: QueueStatus
    var items: seq<QueueItem>

    constructor ()
      ensures queueStatus == Active && items == InitialItems
    {
      queueStatus := Active;
      items := InitialItems;
    }

    method ToggleQueue()
      modifies this
      ensures queueStatus == Toggled(old(queueStatus))
      ensures items == old(items)
    {
      queueStatus := if queueStatus == Active then Paused else Active;
    }

    method ServeNext()
      modifies this
      ensures items == ServeNextOf(old(queueStatus), old(items))
      ensures queueStatus == old(queueStatus)
      ensures BeingServedCount(old(items)) <= 1 ==> BeingServedCount(items) <= 1
    {
      if BeingServedCount(items) <= 1 {
        ServeNextKeepsOneServer(queueStatus, items);
      }
      if queueStatus == Paused {
        return;
      }
      var list := items;
      if exists j :: 0 <= j < |list| && list[j].state == BeingServed {
        return;
      }
      var next := FirstWith(list, Waiting);
      if next.Some? {
        list := list[next.value := list[next.value].(state := BeingServed)];
      }
      items := list;
    }

    method CompleteCurrent()
      modifies this
      ensures items == Retire(old(items), Completed)
      ensures queueStatus == old(queueStatus)
      ensures BeingServedCount(old(items)) <= 1 ==> BeingServedCount(items) == 0
    {
      if BeingServedCount(items) <= 1 {
        RetireClearsServer(items, Completed);
      }
      var cur := Current(items);
      if cur.None? {
        return;
      }
      items := SetStateOf(items, cur.value.studentId, Completed);
    }

    method NoShowCurrent()
      modifies this
      ensures items == Retire(old(items), NoShow)
      ensures queueStatus == old(queueStatus)
      ensures BeingServedCount(old(items)) <= 1 ==> BeingServedCount(items) == 0
    {
      if BeingServedCount(items) <= 1 {
        RetireClearsServer(items, NoShow);
      }
      var cur := Current(items);
      if cur.None? {
        return;
      }
      items := SetStateOf(items, cur.value.studentId, NoShow);
    }
  }
}
