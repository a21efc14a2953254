/** The trap's status and the event a cycle reports, the rule that derives one from a
    change of the other, and the two values kept in RTC memory across deep sleep. */
module TrapState {

  /** The last sampled reading of the trap switch. Unknown only before the first sample. */
  datatype Status = Sprung | Set | Unknown

  /** What one wake cycle reports over the radio; None means nothing is sent. */
  datatype Event = Sprung | Set | Heartbeat | None

  /** The C enumerator value of a status. */
  function StatusOrdinal(s: Status): (n: nat)
    ensures n < 3
  {
    match s
    case Sprung => 0
    case Set => 1
    case Unknown => 2
  }

  /** The C enumerator value of an event. */
  function EventOrdinal(e: Event): (n: nat)
    ensures n < 4
  {
    match e
    case Sprung => 0
    case Set => 1
    case Heartbeat => 2
    case None => 3
  }

  /** The status whose enumerator value is n: the inverse of StatusOrdinal. */
  function StatusOfOrdinal(n: nat): (s: Status)
    requires n < 3
    ensures StatusOrdinal(s) == n
  {
    if n == 0 then Status.Sprung else if n == 1 then Status.Set else Status.Unknown
  }

  /** The event whose enumerator value is n: the inverse of EventOrdinal. */
  function EventOfOrdinal(n: nat): (e: Event)
    requires n < 4
    ensures EventOrdinal(e) == n
  {
    if n == 0 then Event.Sprung else if n == 1 then Event.Set
    else if n == 2 then Event.Heartbeat else Event.None
  }

  lemma OrdinalsRoundTrip(s: Status, e: Event)
    ensures StatusOfOrdinal(StatusOrdinal(s)) == s
    ensures EventOfOrdinal(EventOrdinal(e)) == e
  {
  }

  /** The status_name table, indexed by enumerator value. */
  const StatusNames: seq<string> := ["sprung", "set", "unknown"]

  /** The event_name table, indexed by enumerator value. */
  const EventNames: seq<string> := ["sprung", "set", "heartbeat", "none"]

  function StatusName(s: Status): string
  {
    StatusNames[StatusOrdinal(s)]
  }

  function EventName(e: Event): string
  {
    EventNames[EventOrdinal(e)]
  }

  /** The name tables follow enumerator order, and no two values share a name. */
  lemma NameTablesInEnumOrder(s: Status, t: Status, e: Event, f: Event)
    ensures StatusName(Status.Sprung) == "sprung" && StatusName(Status.Set) == "set"
    ensures StatusName(Status.Unknown) == "unknown"
    ensures EventName(Event.Sprung) == "sprung" && EventName(Event.Set) == "set"
    ensures EventName(Event.Heartbeat) == "heartbeat" && EventName(Event.None) == "none"
    ensures StatusName(s) == StatusName(t) ==> s == t
    ensures EventName(e) == EventName(f) ==> e == f
  {
  }

  /** The event a change of status reports: a change to Sprung or to Set reports that
      status; no change, or a change to Unknown, reports nothing. Never a heartbeat. */
  function EventFromStatusTransition(oldStatus: Status, newStatus: Status): (e: Event)
    ensures !e.Heartbeat?
    ensures e.None? <==> oldStatus == newStatus || newStatus.Unknown?
    ensures e.Sprung? <==> oldStatus != newStatus && newStatus.Sprung?
    ensures e.Set? <==> oldStatus != newStatus && newStatus.Set?
  {
    if oldStatus != newStatus && newStatus.Sprung? then Event.Sprung
    else if oldStatus != newStatus && newStatus.Set? then Event.Set
    else Event.None
  }

  /** A reported change names the new status: its event has the same enumerator value
      and the same name, so the status can be read back from the event. */
  lemma TransitionEventNamesNewStatus(oldStatus: Status, newStatus: Status)
    ensures var e := EventFromStatusTransition(oldStatus, newStatus);
      !e.None? ==> EventOrdinal(e) == StatusOrdinal(newStatus) && EventName(e) == StatusName(newStatus)
    ensures EventFromStatusTransition(newStatus, newStatus).None?
    ensures EventFromStatusTransition(oldStatus, Status.Unknown).None?
  {
  }

  /** The value of RTC memory: the last sampled status and the time of the last uplink. */
  datatype RetainedState = RetainedState(status: Status, previousMessageTime: int)

  /** What RTC memory holds after a power-on reset. */
  const ColdBoot := RetainedState(Status.Unknown, 0)

  /** The two RTC_DATA_ATTR globals, which each wake cycle updates in place. */
  class RtcMemory {
    var status: Status
    var previousMessageTime: int

    function State(): RetainedState
      reads this
    {
      RetainedState(status, previousMessageTime)
    }

    /** The memory as a power-on reset leaves it. */
    constructor ()
      ensures State() == ColdBoot
      ensures status == Status.Unknown && previousMessageTime == 0
    {
      status := Status.Unknown;
      previousMessageTime := 0;
    }
  }
}
