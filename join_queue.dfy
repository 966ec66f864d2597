/** The student's "join the queue" page: pick a service, optionally add
    notes, and receive a ticket that is stored as the active ticket and
    logged in the ticket history. */
module JoinQueuePage {
  import opened Wrappers
  import Text
  import Lists

  datatype TicketStatus = Waiting | AlmostReady | Served | Left

  datatype ServiceItem = ServiceItem(id: string, name: string, avgWaitMins: int)

  /** Timestamps are opaque strings. */
  datatype ActiveTicket = ActiveTicket(
    ticketId: string,
    serviceId: string,
    serviceName: string,
    notes: Option<string>,
    status: TicketStatus,
    position: int,
    estimatedWaitMins: int,
    createdAtISO: string,
    updatedAtISO: string)

  datatype TicketHistoryRow = TicketHistoryRow(ticketId: string, serviceName: string, status: TicketStatus, dateISO: string)

  /** What reading the history key yields. `NoHistory`: the key is absent,
      empty or does not parse; `NotAList`: it parses to something that is
      not an array; `Rows`: the stored rows. */
  datatype StoredHistory = NoHistory | NotAList | Rows(rows: seq<TicketHistoryRow>)

  const Catalogue: seq<ServiceItem> := [
    ServiceItem("gen", "General Advising", 25),
    ServiceItem("cs", "Computer Science Advising", 35),
    ServiceItem("fin", "Financial Aid Support", 20),
    ServiceItem("reg", "Registration Help", 15)
  ]

  /** How many rows the history keeps when a ticket is added. */
  const HistoryCap: nat := 50

  /** The ticket id alphabet: capital letters and digits without the easily
      confused I, O, 0 and 1. */
  const TicketAlphabet: string := "ABCDEFGHJKLMNPQRSTUVWXYZ23456789"

  const AlreadyActiveError: string :=
    "You already have an active ticket. Please view Queue Status or leave the queue first."
  const NoServiceError: string := "Please select a service."
  const GenericError: string := "Something went wrong. Please try again."

  /** The service whose id the form selected: the first with that id. */
  function SelectedService(services: seq<ServiceItem>, id: string): (r: Option<ServiceItem>)
    ensures r.None? <==> forall i :: 0 <= i < |services| ==> services[i].id != id
    ensures forall k :: 0 <= k < |services| && services[k].id == id ==>
              (forall j :: 0 <= j < k ==> services[j].id != id) ==> r == Some(services[k])
  {
    if services == [] then None
    else if services[0].id == id then Some(services[0])
    else SelectedService(services[1..], id)
  }

  /** `Math.floor(Math.random() * 18) + 2`, for the random `draw` in [0, 18). */
  function RandomPosition(draw: int): (p: int)
    requires 0 <= draw < 18
    ensures 2 <= p <= 19
  {
    draw + 2
  }

  /** The base wait plus a jitter in [-5, 5], never below five minutes. */
  function RandomWait(base: int, jitter: int): (w: int)
    requires -5 <= jitter <= 5
    ensures w >= 5 && w >= base - 5
    ensures w <= if base + 5 >= 5 then base + 5 else 5
    ensures base + jitter >= 5 ==> w == base + jitter
    ensures base + jitter < 5 ==> w == 5
  {
    if base + jitter >= 5 then base + jitter else 5
  }

  predicate ValidPicks(picks: seq<int>) {
    forall i :: 0 <= i < |picks| ==> 0 <= picks[i] < |TicketAlphabet|
  }

  /** The characters `TicketAlphabet[picks[0]]`, `TicketAlphabet[picks[1]]`, ... */
  function TicketSuffix(picks: seq<int>): (s: string)
    requires ValidPicks(picks)
    ensures |s| == |picks|
    ensures forall i :: 0 <= i < |picks| ==> s[i] == TicketAlphabet[picks[i]]
  {
    if picks == [] then []
    else TicketSuffix(picks[..|picks| - 1]) + [TicketAlphabet[picks[|picks| - 1]]]
  }

  /** The ticket id drawn with the random alphabet indices `picks`. */
  function TicketIdOf(picks: seq<int>): (id: string)
    requires ValidPicks(picks)
    ensures |id| == |picks| + 3 && id[..3] == "AH-"
    ensures forall i :: 3 <= i < |id| ==> id[i] in TicketAlphabet
    ensures forall i :: 0 <= i < |picks| ==> id[i + 3] == TicketAlphabet[picks[i]]
  {
    "AH-" + TicketSuffix(picks)
  }

  /** No drawn character is one of the confusable I, O, 0 or 1. */
  lemma TicketIdUnambiguous(picks: seq<int>)
    requires ValidPicks(picks)
    ensures forall i :: 3 <= i < |TicketIdOf(picks)| ==>
              TicketIdOf(picks)[i] !in ['I', 'O', '0', '1']
  {
    var id := TicketIdOf(picks);
    forall i | 3 <= i < |id| ensures id[i] !in ['I', 'O', '0', '1'] {
      var k := picks[i - 3];
      assert id[i] == TicketAlphabet[k];
    }
  }

  /** `generateTicketId`: "AH-" followed by six drawn characters. */
  method GenerateTicketId(picks: seq<int>) returns (out: string)
    requires |picks| == 6 && ValidPicks(picks)
    ensures out == TicketIdOf(picks)
    ensures |out| == 9
  {
    out := "AH-";
    for i := 0 to 6
      invariant out == "AH-" + TicketSuffix(picks[..i])
    {
      assert picks[..i + 1][..i] == picks[..i];
      out := out + [TicketAlphabet[picks[i]]];
    }
    assert picks[..6] == picks;
  }

  /** The notes as stored: trimmed, and absent when nothing is left. */
  function StoredNotes(notes: string): (r: Option<string>)
    ensures r.None? <==> forall i :: 0 <= i < |notes| ==> Text.IsJsWhitespace(notes[i])
    ensures r.Some? ==> r.value == Text.Trim(notes) && r.value != []
  {
    var t := Text.Trim(notes);
    if t == [] then None else Some(t)
  }

  /** The ticket a successful join creates, from the chosen service, the
      form's notes, the random draws and the clock reading `now`. */
  function NewTicket(svc: ServiceItem, notes: string, picks: seq<int>, posDraw: int, jitter: int, now: string)
    : (t: ActiveTicket)
    requires |picks| == 6 && ValidPicks(picks) && 0 <= posDraw < 18 && -5 <= jitter <= 5
    ensures t.status == Waiting
    ensures t.serviceId == svc.id && t.serviceName == svc.name
    ensures |t.ticketId| == 9 && t.ticketId[..3] == "AH-"
    ensures 2 <= t.position <= 19
    ensures 5 <= t.estimatedWaitMins && svc.avgWaitMins - 5 <= t.estimatedWaitMins
    ensures t.notes == StoredNotes(notes)
    ensures t.createdAtISO == now && t.updatedAtISO == now
  {
    ActiveTicket(TicketIdOf(picks), svc.id, svc.name, StoredNotes(notes), Waiting,
                 RandomPosition(posDraw), RandomWait(svc.avgWaitMins, jitter), now, now)
  }

  /** The history row logged for a new ticket. */
  function HistoryRowOf(t: ActiveTicket): (r: TicketHistoryRow)
    ensures r.ticketId == t.ticketId && r.serviceName == t.serviceName
    ensures r.status == t.status && r.dateISO == t.createdAtISO
  {
    TicketHistoryRow(t.ticketId, t.serviceName, t.status, t.createdAtISO)
  }

  /** The rows `readHistory` returns for a key that holds a list or nothing. */
  function ReadHistoryRows(stored: StoredHistory): (r: seq<TicketHistoryRow>)
    ensures stored.Rows? ==> r == stored.rows
    ensures !stored.Rows? ==> r == []
  {
    if stored.Rows? then stored.rows else []
  }

  class JoinQueueComponent {
    const services: seq<ServiceItem>
    var activeTicket: Option<ActiveTicket>
    var submitting: bool
    var submitError: Option<string>
    var formServiceId: string
    var formNotes: string
    /** The stored active ticket (None when absent or not parseable). */
    var storedTicket: Option<ActiveTicket>
    var storedHistory: StoredHistory

    constructor (storedTicket: Option<ActiveTicket>, storedHistory: StoredHistory)
      ensures services == Catalogue
      ensures activeTicket == None && !submitting && submitError == None
      ensures formServiceId == "" && formNotes == ""
      ensures this.storedTicket == storedTicket && this.storedHistory == storedHistory
    {
      services := Catalogue;
      activeTicket := None;
      submitting := false;
      submitError := None;
      formServiceId := "";
      formNotes := "";
      this.storedTicket := storedTicket;
      this.storedHistory := storedHistory;
    }

    /** `ngOnInit`: the page picks up the stored active ticket. */
    method OnInit()
      modifies this
      ensures activeTicket == old(storedTicket)
      ensures storedTicket == old(storedTicket) && storedHistory == old(storedHistory)
      ensures submitting == old(submitting) && submitError == old(submitError)
      ensures formServiceId == old(formServiceId) && formNotes == old(formNotes)
    {
      activeTicket := storedTicket;
    }

    /** `appendHistory`: the row goes first and at most fifty rows are kept.
        A stored value that is not a list makes `unshift` throw. */
    method AppendHistory(row: TicketHistoryRow) returns (ok: bool)
      modifies this`storedHistory
      ensures ok == !old(storedHistory).NotAList?
      ensures ok ==> storedHistory == Rows(Lists.PrependCapped(ReadHistoryRows(old(storedHistory)), row, HistoryCap))
      ensures !ok ==> storedHistory == old(storedHistory)
    {
      if storedHistory.NotAList? {
        return false;
      }
      var history := ReadHistoryRows(storedHistory);
      storedHistory := Rows(Lists.PrependCapped(history, row, HistoryCap));
      return true;
    }

    /** The fields `joinQueue` leaves alone when it refuses. */
    twostate predicate KeptTicketAndForm()
      reads this
    {
      && activeTicket == old(activeTicket)
      && storedTicket == old(storedTicket)
      && storedHistory == old(storedHistory)
      && submitting == old(submitting)
      && formServiceId == old(formServiceId)
      && formNotes == old(formNotes)
    }

    /** `joinQueue`, with the form's validity `formValid`, the random
        alphabet indices `picks`, the random position draw `posDraw`, the
        random `jitter` and the clock reading `now` supplied by the caller. */
    method JoinQueue(formValid: bool, picks: seq<int>, posDraw: int, jitter: int, now: string)
      requires |picks| == 6 && ValidPicks(picks) && 0 <= posDraw < 18 && -5 <= jitter <= 5
      modifies this
      ensures old(activeTicket).Some? ==> submitError == Some(AlreadyActiveError) && KeptTicketAndForm()
      ensures old(activeTicket).None? && !formValid ==> submitError == None && KeptTicketAndForm()
      ensures old(activeTicket).None? && formValid && SelectedService(services, old(formServiceId)).None? ==>
                submitError == Some(NoServiceError) && KeptTicketAndForm()
      ensures old(activeTicket).None? && formValid && SelectedService(services, old(formServiceId)).Some? ==>
                var t := NewTicket(SelectedService(services, old(formServiceId)).value, old(formNotes),
                                   picks, posDraw, jitter, now);
                && storedTicket == Some(t)
                && !submitting
                && (old(storedHistory).NotAList? ==>
                      && submitError == Some(GenericError)
                      && activeTicket == None && storedHistory == old(storedHistory)
                      && formServiceId == old(formServiceId) && formNotes == old(formNotes))
                && (!old(storedHistory).NotAList? ==>
                      && submitError == None
                      && activeTicket == Some(t)
                      && storedHistory ==
                           Rows(Lists.PrependCapped(ReadHistoryRows(old(storedHistory)), HistoryRowOf(t), HistoryCap))
                      && formServiceId == "" && formNotes == "")
    {
      submitError := None;
      if activeTicket.Some? {
        submitError := Some(AlreadyActiveError);
        return;
      }
      if !formValid {
        return;
      }
      var service := SelectedService(services, formServiceId);
      if service.None? {
        submitError := Some(NoServiceError);
        return;
      }
      submitting := true;
      var id := GenerateTicketId(picks);
      var notesRaw := Text.Trim(formNotes);
      var ticket := ActiveTicket(id, service.value.id, service.value.name,
                                 if notesRaw == [] then None else Some(notesRaw), Waiting,
                                 RandomPosition(posDraw), RandomWait(service.value.avgWaitMins, jitter), now, now);
      storedTicket := Some(ticket);
      var ok := AppendHistory(HistoryRowOf(ticket));
      if ok {
        activeTicket := Some(ticket);
        formServiceId, formNotes := "", "";
      } else {
        submitError := Some(GenericError);
      }
      submitting := false;
    }
  }
}
