/** The student's ticket history page: stored history rows, normalised
    into display rows with fallbacks for missing fields. */
module HistoryPage {
  import opened Wrappers
  import Text

  /** A stored history row as parsed: every field may be missing; status and
      outcome are whatever strings were stored. */
  datatype RawHistoryItem = RawHistoryItem(
    id: Option<string>,
    serviceName: Option<string>,
    service: Option<string>,
    date: Option<string>,
    joinedAt: Option<string>,
    endedAt: Option<string>,
    status: Option<string>,
    outcome: Option<string>,
    position: Option<int>,
    estWaitMin: Option<int>)

  datatype HistoryItemVM = HistoryItemVM(
    id: string,
    serviceName: string,
    status: string,
    outcome: string,
    position: Option<int>,
    estWaitMin: Option<int>,
    joinedAtIso: Option<string>,
    leftAtIso: Option<string>)

  /** What the history key holds. `NothingStored`: absent or empty;
      `Malformed`: text that is not JSON; `NotAList`: JSON that is not an
      array; `Entries`: an array whose elements are rows or JSON null (None). */
  datatype StoredHistory =
    | NothingStored
    | Malformed
    | NotAList
    | Entries(entries: seq<Option<RawHistoryItem>>)

  /** Why loading throws: `JSON.parse` fails, or a null element is read
      like a row. */
  datatype LoadError = ParseError | NullEntry

  /** `n ? n : null`: a missing or zero number counts as absent. */
  function Truthy(n: Option<int>): (r: Option<int>)
    ensures r.None? <==> n.None? || n.value == 0
    ensures r.Some? ==> r == n
  {
    if n.Some? && n.value != 0 then n else None
  }

  /** The display row for the stored row at index `i`. */
  function Normalize(item: RawHistoryItem, i: nat): (vm: HistoryItemVM)
    ensures item.id.Some? ==> vm.id == item.id.value
    ensures item.id.None? ==> vm.id == "hist_" + Text.NatToString(i + 1)
    ensures item.serviceName.Some? ==> vm.serviceName == item.serviceName.value
    ensures item.serviceName.None? && item.service.Some? ==> vm.serviceName == item.service.value
    ensures item.serviceName.None? && item.service.None? ==> vm.serviceName == "Service"
    ensures vm.status == item.status.GetOr("unknown") && vm.outcome == item.outcome.GetOr("unknown")
    ensures vm.position.None? <==> item.position.None? || item.position.value == 0
    ensures vm.estWaitMin.None? <==> item.estWaitMin.None? || item.estWaitMin.value == 0
    ensures vm.position.Some? ==> vm.position == item.position
    ensures vm.estWaitMin.Some? ==> vm.estWaitMin == item.estWaitMin
    ensures item.joinedAt.Some? ==> vm.joinedAtIso == item.joinedAt
    ensures item.joinedAt.None? ==> vm.joinedAtIso == item.date
    ensures vm.leftAtIso == item.endedAt
  {
    HistoryItemVM(
      if item.id.Some? then item.id.value else "hist_" + Text.NatToString(i + 1),
      if item.serviceName.Some? then item.serviceName.value else item.service.GetOr("Service"),
      item.status.GetOr("unknown"),
      item.outcome.GetOr("unknown"),
      Truthy(item.position),
      Truthy(item.estWaitMin),
      if item.joinedAt.Some? then item.joinedAt else item.date,
      item.endedAt)
  }

  /** A display row stored back with all its fields. */
  function RawOf(vm: HistoryItemVM): RawHistoryItem {
    RawHistoryItem(Some(vm.id), Some(vm.serviceName), None, vm.joinedAtIso, vm.joinedAtIso,
                   vm.leftAtIso, Some(vm.status), Some(vm.outcome), vm.position, vm.estWaitMin)
  }

  /** Normalising a complete row gives that row back, at any index. */
  lemma NormalizeComplete(vm: HistoryItemVM, i: nat)
    requires vm.position != Some(0) && vm.estWaitMin != Some(0)
    ensures Normalize(RawOf(vm), i) == vm
  {
  }

  /** Rows without an id get distinct fallback ids. */
  lemma FallbackIdsDistinct(item1: RawHistoryItem, item2: RawHistoryItem, i: nat, j: nat)
    requires item1.id.None? && item2.id.None? && i != j
    ensures Normalize(item1, i).id != Normalize(item2, j).id
  {
    var a := Text.NatToString(i + 1);
    var b := Text.NatToString(j + 1);
    assert ("hist_" + a)[5..] == a && ("hist_" + b)[5..] == b;
    Text.NatToStringRoundTrip(i + 1);
    Text.NatToStringRoundTrip(j + 1);
  }

  /** The normalised rows of `parsed.map(...)`, or the TypeError a null
      element raises. */
  function NormalizeAll(entries: seq<Option<RawHistoryItem>>): (r: Result<seq<HistoryItemVM>, LoadError>)
    ensures r.Failure? <==> exists i :: 0 <= i < |entries| && entries[i].None?
    ensures r.Failure? ==> r.error == NullEntry
    ensures r.Success? ==> |r.value| == |entries|
    ensures r.Success? ==>
              forall i :: 0 <= i < |entries| ==> entries[i].Some? && r.value[i] == Normalize(entries[i].value, i)
  {
    if exists i :: 0 <= i < |entries| && entries[i].None? then Failure(NullEntry)
    else Success(seq(|entries|, i requires 0 <= i < |entries| => Normalize(entries[i].value, i)))
  }

  /** `loadFromLocalStorage`: no rows when nothing or a non-array is stored;
      a failure when the stored text does not parse or holds a null row. */
  function LoadFromStorage(stored: StoredHistory): (r: Result<seq<HistoryItemVM>, LoadError>)
    ensures stored.NothingStored? || stored.NotAList? ==> r == Success([])
    ensures stored.Malformed? ==> r == Failure(ParseError)
    ensures stored.Entries? ==> r == NormalizeAll(stored.entries)
    ensures r.Success? ==> |r.value| == (if stored.Entries? then |stored.entries| else 0)
  {
    match stored
    case NothingStored => Success([])
    case Malformed => Failure(ParseError)
    case NotAList => Success([])
    case Entries(entries) => NormalizeAll(entries)
  }

  /** The theme of an outcome's badge. */
  function OutcomeBadgeThemeClass(outcome: string): (r: string)
    ensures r == "success" <==> outcome == "served"
    ensures r == "warn" <==> outcome == "left"
    ensures r == "danger" <==> outcome == "canceled" || outcome == "no_show"
    ensures r == "info" <==> outcome !in ["served", "left", "canceled", "no_show"]
  {
    match outcome
    case "served" => "success"
    case "left" => "warn"
    case "canceled" => "danger"
    case "no_show" => "danger"
    case _ => "info"
  }

  function OutcomeLabel(outcome: string): (r: string)
    ensures r == "Served" <==> outcome == "served"
    ensures r == "Left" <==> outcome == "left"
    ensures r == "Canceled" <==> outcome == "canceled"
    ensures r == "No Show" <==> outcome == "no_show"
    ensures r == "Unknown" <==> outcome !in ["served", "left", "canceled", "no_show"]
  {
    match outcome
    case "served" => "Served"
    case "left" => "Left"
    case "canceled" => "Canceled"
    case "no_show" => "No Show"
    case _ => "Unknown"
  }

  /** Outcomes with the same label get the same badge. */
  lemma BadgeFollowsLabel(a: string, b: string)
    requires OutcomeLabel(a) == OutcomeLabel(b)
    ensures OutcomeBadgeThemeClass(a) == OutcomeBadgeThemeClass(b)
  {
  }

  function StatusLabel(status: string): (r: string)
    ensures r == "Waiting" <==> status == "waiting"
    ensures r == "Almost Ready" <==> status == "almost_ready"
    ensures r == "Ready" <==> status == "ready"
    ensures r == "Served" <==> status == "served"
    ensures r == "Left" <==> status == "left"
    ensures r == "Canceled" <==> status == "canceled"
    ensures r == "Unknown" <==>
              status !in ["waiting", "almost_ready", "ready", "served", "left", "canceled"]
  {
    match status
    case "waiting" => "Waiting"
    case "almost_ready" => "Almost Ready"
    case "ready" => "Ready"
    case "served" => "Served"
    case "left" => "Left"
    case "canceled" => "Canceled"
    case _ => "Unknown"
  }

  /** `formatPosition`: an em dash for a missing or zero position, else "#<n>". */
  function FormatPosition(pos: Option<int>): (r: string)
    ensures r == Text.EmDash <==> pos.None? || pos.value == 0
    ensures r != Text.EmDash ==>
              |r| >= 2 && r[0] == '#' && Text.IsSignedNumeral(r[1..]) && Text.SignedValue(r[1..]) == pos.value
  {
    if pos.None? || pos.value == 0 then Text.EmDash
    else
      var s := Text.IntToString(pos.value);
      Text.IntToStringRoundTrip(pos.value);
      assert ("#" + s)[1..] == s;
      "#" + s
  }

  /** `formatWait`: an em dash for a missing or zero wait, else "<n> min". */
  function FormatWait(min: Option<int>): (r: string)
    ensures r == Text.EmDash <==> min.None? || min.value == 0
    ensures r != Text.EmDash ==>
              |r| > 4 && r[|r| - 4..] == " min" && Text.IsSignedNumeral(r[..|r| - 4]) &&
              Text.SignedValue(r[..|r| - 4]) == min.value
  {
    if min.None? || min.value == 0 then Text.EmDash
    else
      var s := Text.IntToString(min.value);
      Text.IntToStringRoundTrip(min.value);
      var r := s + " min";
      assert r[..|r| - 4] == s && r[|r| - 4..] == " min";
      r
  }

  /** Normalisation does not change what the page shows for a position or
      a wait. */
  lemma NormalizeKeepsDisplay(item: RawHistoryItem, i: nat)
    ensures FormatPosition(Normalize(item, i).position) == FormatPosition(item.position)
    ensures FormatWait(Normalize(item, i).estWaitMin) == FormatWait(item.estWaitMin)
  {
  }

  class HistoryComponent {
    var items: seq<HistoryItemVM>
    var stored: StoredHistory

    constructor (stored: StoredHistory)
      ensures items == [] && this.stored == stored
    {
      items := [];
      this.stored := stored;
    }

    /** `refresh` (also what `ngOnInit` does): reload the rows; when loading
        throws, the rows stay as they were and the error is returned. */
    method Refresh() returns (error: Option<LoadError>)
      modifies this
      ensures stored == old(stored)
      ensures LoadFromStorage(stored).Success? ==> error.None? && items == LoadFromStorage(stored).value
      ensures LoadFromStorage(stored).Failure? ==>
                error == Some(LoadFromStorage(stored).error) && items == old(items)
    {
      var loaded := LoadFromStorage(stored);
      if loaded.Failure? {
        return Some(loaded.error);
      }
      items := loaded.value;
      return None;
    }

    method ClearHistory()
      modifies this
      ensures items == [] && stored == NothingStored
    {
      stored := NothingStored;
      items := [];
    }
  }
}
