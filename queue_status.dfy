/** The student's queue status page. It keeps no state of its own: every
    display value is read from the stored active ticket, and leaving the
    queue moves that ticket into the stored history. */
module QueueStatusPage {
  import opened Wrappers
  import Text

  /** A stored active-ticket record as parsed: any field may be missing, and
      the status is whatever string was stored. */
  datatype RawTicket = RawTicket(
    id: Option<string>,
    serviceName: Option<string>,
    status: Option<string>,
    position: Option<int>,
    estWaitMin: Option<int>,
    joinedAtIso: Option<string>)

  /** The normalised ticket the page works with. */
  datatype ActiveTicket = ActiveTicket(
    id: string,
    serviceName: string,
    status: string,
    position: Option<int>,
    estWaitMin: Option<int>,
    joinedAtIso: string)

  datatype Outcome = Left | Served | Canceled

  /** A history entry: the ticket's fields plus when and how it ended. */
  datatype HistoryItem = HistoryItem(ticket: ActiveTicket, leftAtIso: string, outcome: Outcome)

  const DefaultId: string := "QS-0000"
  const DefaultServiceName: string := "Academic Advising"
  const DefaultStatus: string := "waiting"

  /** `readActiveTicket`: None when nothing usable is stored, otherwise the
      stored fields with defaults for the missing ones; `now` is the clock
      reading used for a missing join time. */
  function ReadActiveTicket(stored: Option<RawTicket>, now: string): (r: Option<ActiveTicket>)
    ensures r.None? <==> stored.None?
    ensures stored.Some? ==>
              var raw := stored.value;
              && (raw.id.Some? ==> r.value.id == raw.id.value)
              && (raw.id.None? ==> r.value.id == DefaultId)
              && (raw.serviceName.Some? ==> r.value.serviceName == raw.serviceName.value)
              && (raw.serviceName.None? ==> r.value.serviceName == DefaultServiceName)
              && (raw.status.Some? ==> r.value.status == raw.status.value)
              && (raw.status.None? ==> r.value.status == DefaultStatus)
              && r.value.position == raw.position && r.value.estWaitMin == raw.estWaitMin
              && (raw.joinedAtIso.Some? ==> r.value.joinedAtIso == raw.joinedAtIso.value)
              && (raw.joinedAtIso.None? ==> r.value.joinedAtIso == now)
  {
    match stored
    case None => None
    case Some(raw) =>
      Some(ActiveTicket(raw.id.GetOr(DefaultId), raw.serviceName.GetOr(DefaultServiceName),
                        raw.status.GetOr(DefaultStatus), raw.position, raw.estWaitMin,
                        raw.joinedAtIso.GetOr(now)))
  }

  /** The record of a normalised ticket with every field present. */
  function RawOf(t: ActiveTicket): RawTicket {
    RawTicket(Some(t.id), Some(t.serviceName), Some(t.status), t.position, t.estWaitMin, Some(t.joinedAtIso))
  }

  /** Storing a normalised ticket and reading it back gives the same ticket,
      whatever the clock says. */
  lemma ReadStoredTicket(t: ActiveTicket, now: string)
    ensures ReadActiveTicket(Some(RawOf(t)), now) == Some(t)
  {
  }

  /** The status the page shows: the ticket's, or "waiting" without one. */
  function StatusOf(t: Option<ActiveTicket>): string {
    if t.Some? then t.value.status else DefaultStatus
  }

  /** The label for a status; unknown statuses read as waiting. */
  function StatusLabelOf(status: string): (r: string)
    ensures r == "Ready" <==> status == "ready"
    ensures r == "Almost Ready" <==> status == "almost_ready"
    ensures r == "Served" <==> status == "served"
    ensures r == "Canceled" <==> status == "canceled"
    ensures r == "Waiting in Queue" <==> status !in ["ready", "almost_ready", "served", "canceled"]
  {
    match status
    case "ready" => "Ready"
    case "almost_ready" => "Almost Ready"
    case "served" => "Served"
    case "canceled" => "Canceled"
    case _ => "Waiting in Queue"
  }

  /** The badge style for a status; unknown statuses get the info badge. */
  function BadgeClassOf(status: string): (r: string)
    ensures r == "ah-badge ah-badge--success" <==> status == "ready"
    ensures r == "ah-badge ah-badge--warning" <==> status == "almost_ready"
    ensures r == "ah-badge ah-badge--neutral" <==> status == "served"
    ensures r == "ah-badge ah-badge--danger" <==> status == "canceled"
    ensures r == "ah-badge ah-badge--info" <==> status !in ["ready", "almost_ready", "served", "canceled"]
  {
    match status
    case "ready" => "ah-badge ah-badge--success"
    case "almost_ready" => "ah-badge ah-badge--warning"
    case "served" => "ah-badge ah-badge--neutral"
    case "canceled" => "ah-badge ah-badge--danger"
    case _ => "ah-badge ah-badge--info"
  }

  /** `statusLabel()` and `badgeClass()` of the page. */
  function StatusLabel(t: Option<ActiveTicket>): (r: string)
    ensures t.None? ==> r == "Waiting in Queue"
    ensures t.Some? ==> r == StatusLabelOf(t.value.status)
  {
    StatusLabelOf(StatusOf(t))
  }

  function BadgeClass(t: Option<ActiveTicket>): (r: string)
    ensures t.None? ==> r == "ah-badge ah-badge--info"
    ensures t.Some? ==> r == BadgeClassOf(t.value.status)
  {
    BadgeClassOf(StatusOf(t))
  }

  /** The label and the badge tell the same story: two statuses share a
      label exactly when they share a badge. */
  lemma LabelMatchesBadge(a: Option<ActiveTicket>, b: Option<ActiveTicket>)
    ensures StatusLabel(a) == StatusLabel(b) <==> BadgeClass(a) == BadgeClass(b)
  {
  }

  /** Without a ticket the page shows the waiting label and the info badge. */
  lemma NoTicketReadsWaiting()
    ensures StatusLabel(None) == "Waiting in Queue"
    ensures BadgeClass(None) == "ah-badge ah-badge--info"
  {
  }

  /** `positionDisplay()`: an em dash without a position, else "#<n>". */
  function PositionDisplay(t: Option<ActiveTicket>): (r: string)
    ensures r == Text.EmDash <==> t.None? || t.value.position.None?
    ensures r != Text.EmDash ==>
              |r| >= 2 && r[0] == '#' && Text.IsSignedNumeral(r[1..]) &&
              Text.SignedValue(r[1..]) == t.value.position.value
  {
    if t.None? || t.value.position.None? then Text.EmDash
    else
      var n := t.value.position.value;
      Text.IntToStringRoundTrip(n);
      assert ("#" + Text.IntToString(n))[1..] == Text.IntToString(n);
      "#" + Text.IntToString(n)
  }

  /** `waitDisplay()`: an em dash without an estimate, "Now" when it is not
      positive, else "<n> min". */
  function WaitDisplay(t: Option<ActiveTicket>): (r: string)
    ensures r == Text.EmDash <==> t.None? || t.value.estWaitMin.None?
    ensures r == "Now" <==> t.Some? && t.value.estWaitMin.Some? && t.value.estWaitMin.value <= 0
    ensures r != Text.EmDash && r != "Now" ==>
              |r| > 4 && r[|r| - 4..] == " min" && Text.IsNumeral(r[..|r| - 4]) &&
              Text.DigitsValue(r[..|r| - 4]) == t.value.estWaitMin.value
  {
    if t.None? || t.value.estWaitMin.None? then Text.EmDash
    else if t.value.estWaitMin.value <= 0 then "Now"
    else
      var n := t.value.estWaitMin.value;
      var digits := Text.NatToString(n);
      Text.NatToStringRoundTrip(n);
      var r := digits + " min";
      assert r[..|r| - 4] == digits && r[|r| - 4..] == " min";
      r
  }

  /** The demo ticket the page can store, joined at `now`. */
  function DemoTicket(now: string): RawTicket {
    RawTicket(Some("QS-7003"), Some("Graduation Check"), Some("waiting"), Some(3), Some(30), Some(now))
  }

  /** What the page shows for the demo ticket. */
  lemma DemoTicketDisplay(now: string, readTime: string)
    ensures var t := ReadActiveTicket(Some(DemoTicket(now)), readTime);
            && PositionDisplay(t) == "#3" && WaitDisplay(t) == "30 min"
            && StatusLabel(t) == "Waiting in Queue"
  {
    var t := ReadActiveTicket(Some(DemoTicket(now)), readTime);
    assert Text.NatToString(3) == "3";
    assert Text.NatToString(30) == Text.NatToString(3) + "0";
  }

  /** `readHistory`: the stored list, or [] when nothing usable is stored. */
  function ReadHistory(stored: Option<seq<HistoryItem>>): (r: seq<HistoryItem>)
    ensures stored.None? ==> r == []
    ensures stored.Some? ==> r == stored.value
  {
    stored.GetOr([])
  }

  class QueueStatusComponent {
    /** The stored active ticket (None when absent, empty, unparseable or
        not an object). */
    var storedTicket: Option<RawTicket>
    /** The stored history (None when absent, unparseable or not a list). */
    var storedHistory: Option<seq<HistoryItem>>

    constructor (storedTicket: Option<RawTicket>, storedHistory: Option<seq<HistoryItem>>)
      ensures this.storedTicket == storedTicket && this.storedHistory == storedHistory
    {
      this.storedTicket := storedTicket;
      this.storedHistory := storedHistory;
    }

    /** `leaveQueue`: the active ticket becomes the newest history entry
        with outcome `left`, and the stored ticket is removed. `readTime` is
        the clock reading while the ticket is read, `leftTime` the one
        stamped on the entry. The history is not capped here. */
    method LeaveQueue(readTime: string, leftTime: string)
      modifies this
      ensures ReadActiveTicket(old(storedTicket), readTime).None? ==>
                storedTicket == old(storedTicket) && storedHistory == old(storedHistory)
      ensures ReadActiveTicket(old(storedTicket), readTime).Some? ==>
                && storedHistory ==
                     Some([HistoryItem(ReadActiveTicket(old(storedTicket), readTime).value, leftTime, Left)]
                          + ReadHistory(old(storedHistory)))
                && storedTicket == None
      ensures storedTicket == None
      ensures |ReadHistory(storedHistory)| ==
                |ReadHistory(old(storedHistory))| + (if old(storedTicket).Some? then 1 else 0)
    {
      var t := ReadActiveTicket(storedTicket, readTime);
      if t.None? {
        return;
      }
      var history := ReadHistory(storedHistory);
      var item := HistoryItem(t.value, leftTime, Left);
      history := [item] + history;
      storedHistory := Some(history);
      storedTicket := None;
    }

    /** `seedDemoTicket`: stores the demo ticket. */
    method SeedDemoTicket(now: string)
      modifies this
      ensures storedTicket == Some(DemoTicket(now))
      ensures storedHistory == old(storedHistory)
    {
      storedTicket := Some(DemoTicket(now));
    }
  }
}
