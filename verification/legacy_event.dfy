/**
 * The earlier, time-window guild event (src/guildEvent/guildEvent.go): an
 * event is active strictly between its start and end instants, and its end
 * is fixed at construction from a duration in hours. Instants are Unix
 * nanoseconds; the clock reading `time.Now()` is a parameter.
 */
module LegacyEvents {
  import opened Wrappers
  import opened GoTime

  /** `EventType`, a string kind. */
  type EventType = string

  const Slayer: EventType := "slayer"
  const Diana: EventType := "diana"
  const Dungeons: EventType := "dungeons"

  datatype GuildEvent = GuildEvent(id: int, kind: EventType, description: string, startTime: int, endTime: int)

  datatype Event =
    | SlayerEvent(base: GuildEvent)
    | DianaEvent(base: GuildEvent)
    | DungeonsEvent(base: GuildEvent)
    | BaseEvent(base: GuildEvent)

  /** The kind an event was built as; `None` for the bare base event. */
  function KindOf(e: Event): Option<EventType> {
    match e
    case SlayerEvent(_) => Some(Slayer)
    case DianaEvent(_) => Some(Diana)
    case DungeonsEvent(_) => Some(Dungeons)
    case BaseEvent(_) => None
  }

  /** `time.Duration(hours) * time.Hour`, a 64-bit product that wraps around. */
  function HoursDuration(hours: int): (d: int)
    ensures IsInt64(d)
    ensures IsInt64(hours * Hour) ==> d == hours * Hour
  {
    WrapInt64(hours * Hour)
  }

  /**
   * `NewGuildEvent` at clock reading `now`: id 1, the given kind and
   * description, starting now and ending `durationHours` hours later; the
   * kind picks the concrete type.
   */
  function NewGuildEvent(kind: EventType, description: string, durationHours: int, now: int): (r: Event)
    ensures r.base.id == 1
    ensures r.base.kind == kind && r.base.description == description
    ensures r.base.startTime == now
    ensures r.base.endTime - r.base.startTime == HoursDuration(durationHours)
    ensures KindOf(r) == (if kind in {Slayer, Diana, Dungeons} then Some(kind) else None)
  {
    var base := GuildEvent(1, kind, description, now, now + HoursDuration(durationHours));
    if kind == Slayer then SlayerEvent(base)
    else if kind == Diana then DianaEvent(base)
    else if kind == Dungeons then DungeonsEvent(base)
    else BaseEvent(base)
  }

  /** `GetDuration`: the end minus the start, as a saturating `Duration`. */
  function GetDuration(e: Event): (d: int)
    ensures IsInt64(d)
  {
    Sub(e.base.endTime, e.base.startTime)
  }

  /** `IsActive` at clock reading `now`: after the start and before the end. */
  function IsActive(e: Event, now: int): bool {
    e.base.startTime < now && now < e.base.endTime
  }

  /** A constructed event lasts its duration in hours (wrapped to 64 bits, as the product is). */
  lemma DurationOfNewEvent(kind: EventType, description: string, durationHours: int, now: int)
    ensures GetDuration(NewGuildEvent(kind, description, durationHours, now)) == HoursDuration(durationHours)
    ensures IsInt64(durationHours * Hour) ==>
      GetDuration(NewGuildEvent(kind, description, durationHours, now)) == durationHours * Hour
  {
  }

  /**
   * A constructed event of a positive, representable duration is active
   * exactly strictly inside its window; at its first and last instant it is not.
   */
  lemma ActiveWindowOfNewEvent(kind: EventType, description: string, durationHours: int, now: int, t: int)
    requires durationHours > 0 && IsInt64(durationHours * Hour)
    ensures IsActive(NewGuildEvent(kind, description, durationHours, now), t)
        <==> now < t < now + durationHours * Hour
    ensures !IsActive(NewGuildEvent(kind, description, durationHours, now), now)
    ensures !IsActive(NewGuildEvent(kind, description, durationHours, now), now + durationHours * Hour)
  {
  }

  /** An event built with no positive duration is never active. */
  lemma NonPositiveDurationNeverActive(kind: EventType, description: string, durationHours: int, now: int, t: int)
    requires durationHours <= 0 && IsInt64(durationHours * Hour)
    ensures !IsActive(NewGuildEvent(kind, description, durationHours, now), t)
  {
  }

  /** `Start`, `End` and `AddUser` succeed and leave the event as it was. */
  function Start(e: Event): (r: (Event, Option<string>)) {
    (e, None)
  }

  function End(e: Event): (r: (Event, Option<string>)) {
    (e, None)
  }

  function AddUser(e: Event): (r: (Event, Option<string>)) {
    (e, None)
  }

  /** The life-cycle hooks never fail and never change the event, and they never move its window. */
  lemma HooksAreInert(e: Event, now: int)
    ensures Start(e).1.None? && End(e).1.None? && AddUser(e).1.None?
    ensures Start(e).0 == e && End(e).0 == e && AddUser(e).0 == e
    ensures IsActive(Start(AddUser(e).0).0, now) == IsActive(e, now)
  {
  }
}
