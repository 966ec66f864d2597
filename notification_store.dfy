/** The application-wide notification store: a stack of toasts and a
    notification-centre history that keeps the ten newest notices. */
module NotificationStoreService {
  import opened Wrappers
  import Text
  import Lists

  datatype NoticeType = Info | Success | Warning

  /** `createdAt` is an opaque timestamp. */
  datatype Notice = Notice(id: string, kind: NoticeType, title: string, message: Option<string>, createdAt: string)

  /** How many notices the history keeps. */
  const HistoryCap: nat := 10

  /** The id "N-<draw>" of a new notice, where `draw` is the random number
      `Math.floor(100000 + Math.random() * 900000)`. */
  function NoticeId(draw: int): (id: string)
    requires 100000 <= draw <= 999999
    ensures |id| == 8 && id[..2] == "N-"
    ensures Text.IsNumeral(id[2..]) && Text.DigitsValue(id[2..]) == draw
  {
    Text.NatToStringLength(draw, 5);
    Text.NatToStringRoundTrip(draw);
    var id := "N-" + Text.NatToString(draw);
    assert id[2..] == Text.NatToString(draw);
    id
  }

  /** Two draws give the same id only when they are equal. */
  lemma NoticeIdInjective(a: int, b: int)
    requires 100000 <= a <= 999999 && 100000 <= b <= 999999
    requires NoticeId(a) == NoticeId(b)
    ensures a == b
  {
  }

  /** `list.filter(n => n.id !== id)`. */
  function WithoutId(list: seq<Notice>, id: string): (r: seq<Notice>)
    ensures forall i :: 0 <= i < |r| ==> r[i].id != id && r[i] in list
    ensures forall i :: 0 <= i < |list| && list[i].id != id ==> list[i] in r
  {
    Lists.Keep(list, (n: Notice) => n.id != id)
  }

  /** Dismissing an id no toast carries changes nothing. */
  lemma WithoutAbsentId(list: seq<Notice>, id: string)
    requires forall i :: 0 <= i < |list| ==> list[i].id != id
    ensures WithoutId(list, id) == list
  {
    Lists.KeepAll(list, (n: Notice) => n.id != id);
  }

  /** Dismissing the same id twice is dismissing it once. */
  lemma WithoutIdIdempotent(list: seq<Notice>, id: string)
    ensures WithoutId(WithoutId(list, id), id) == WithoutId(list, id)
  {
    WithoutAbsentId(WithoutId(list, id), id);
  }

  /** Dismissal keeps the order of the remaining toasts: it works on each
      part of a split list separately. */
  lemma WithoutIdKeepsOrder(a: seq<Notice>, b: seq<Notice>, id: string)
    ensures WithoutId(a + b, id) == WithoutId(a, id) + WithoutId(b, id)
  {
    Lists.KeepAppend(a, b, (n: Notice) => n.id != id);
  }

  class NotificationStore {
    var toasts: seq<Notice>
    var history: seq<Notice>

    constructor ()
      ensures toasts == [] && history == []
    {
      toasts := [];
      history := [];
    }

    /** Records a new notice built from the caller's type, title and message,
        the random `draw` and the clock reading `now`. The four-second
        auto-dismiss timer is not part of this model. */
    method Push(kind: NoticeType, title: string, message: Option<string>, draw: int, now: string)
      requires 100000 <= draw <= 999999
      modifies this
      ensures var n := Notice(NoticeId(draw), kind, title, message, now);
              && history == Lists.PrependCapped(old(history), n, HistoryCap)
              && toasts == [n] + old(toasts)
      ensures |history| == Lists.Min(|old(history)| + 1, HistoryCap)
      ensures history[0] == toasts[0] && history[1..] == old(history)[..|history| - 1]
    {
      var notice := Notice(NoticeId(draw), kind, title, message, now);
      history := Lists.PrependCapped(history, notice, HistoryCap);
      toasts := [notice] + toasts;
    }

    method DismissToast(id: string)
      modifies this
      ensures toasts == WithoutId(old(toasts), id)
      ensures history == old(history)
    {
      toasts := WithoutId(toasts, id);
    }

    method ClearHistory()
      modifies this
      ensures history == []
      ensures toasts == old(toasts)
    {
      history := [];
    }
  }
}
