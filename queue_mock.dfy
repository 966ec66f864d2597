/** The mock queue service behind the dashboard: one active ticket, a short
    history, and the labels of the queue states. */
module QueueMock {
  import opened Wrappers

  datatype QueueState = WaitingState | AlmostReady | ServedState | NotInQueue

  /** The states an active ticket can be in: every state but Not in Queue. */
  type TicketState = s: QueueState | s != NotInQueue witness WaitingState

  /** `joinedAt` is an opaque timestamp. */
  datatype ActiveTicket = ActiveTicket(
    ticketId: string,
    serviceId: string,
    serviceName: string,
    position: int,
    estimatedWaitMinutes: int,
    state: TicketState,
    joinedAt: string)

  datatype HistoryOutcome = Served | Cancelled | NoShow

  datatype QueueHistoryItem = QueueHistoryItem(id: string, serviceName: string, date: string, outcome: HistoryOutcome)

  /** The ticket the service starts with, joined at `now`. */
  function InitialTicket(now: string): (t: ActiveTicket)
    ensures t.state == WaitingState && t.position == 3 && t.estimatedWaitMinutes == 30
    ensures t.ticketId == "QS-1234" && t.serviceName == "General Advising"
  {
    ActiveTicket("QS-1234", "general", "General Advising", 3, 30, WaitingState, now)
  }

  /** The label shown for a queue state. */
  function StatusLabel(state: QueueState): (r: string)
    ensures state == WaitingState <==> r == "Waiting in Queue"
    ensures state == AlmostReady <==> r == "Almost Ready"
    ensures state == ServedState <==> r == "Served"
    ensures state == NotInQueue <==> r == "Not in Queue"
  {
    match state
    case WaitingState => "Waiting in Queue"
    case AlmostReady => "Almost Ready"
    case ServedState => "Served"
    case NotInQueue => "Not in Queue"
  }

  /** The state a label names, when it names one. */
  function StateOfLabel(shown: string): (r: Option<QueueState>)
    ensures r.Some? ==> StatusLabel(r.value) == shown
  {
    match shown
    case "Waiting in Queue" => Some(WaitingState)
    case "Almost Ready" => Some(AlmostReady)
    case "Served" => Some(ServedState)
    case "Not in Queue" => Some(NotInQueue)
    case _ => None
  }

  /** Every label leads back to its state, so no two states share a label. */
  lemma LabelRoundTrip(state: QueueState)
    ensures StateOfLabel(StatusLabel(state)) == Some(state)
  {
  }

  class QueueMockService {
    var activeTicket: Option<ActiveTicket>
    var history: seq<QueueHistoryItem>

    /** `now` and `yesterday` are the timestamps on the mock data. */
    constructor (now: string, yesterday: string)
      ensures activeTicket == Some(InitialTicket(now))
      ensures history == [QueueHistoryItem("h1", "Registration Help", now, Served),
                          QueueHistoryItem("h2", "General Advising", yesterday, Cancelled)]
    {
      activeTicket := Some(InitialTicket(now));
      history := [QueueHistoryItem("h1", "Registration Help", now, Served),
                  QueueHistoryItem("h2", "General Advising", yesterday, Cancelled)];
    }

    method GetActiveTicket() returns (t: Option<ActiveTicket>)
      ensures t == activeTicket
    {
      t := activeTicket;
    }

    method GetHistory() returns (h: seq<QueueHistoryItem>)
      ensures h == history
    {
      h := history;
    }

    /** Drops the active ticket; calling it again changes nothing more. */
    method LeaveQueue()
      modifies this
      ensures activeTicket == None
      ensures history == old(history)
    {
      activeTicket := None;
    }
  }
}
