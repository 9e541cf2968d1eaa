/**
 * The guild event as the REST API delivers it (internal/model/guild_event.go)
 * and its JSON decoder. The decoder's use of `json.Unmarshal` is abstracted:
 * `RawGuildEvent` is the outer object already parsed, with `event_data`
 * kept as what decoding it as Diana rows and as Dungeons rows would give.
 * Instants are Unix nanoseconds; float64 values are exact reals.
 */
module EventModel {
  import opened Wrappers

  /** One Diana snapshot row. */
  datatype DianaData = DianaData(
    id: string,
    fetchTime: int,
    burrowsTreasure: int,
    burrowsCombat: int,
    gaiaConstruct: int,
    minosChampion: int,
    minosHunter: int,
    minosInquisitor: int,
    minotaur: int,
    siameseLynx: int)

  /** One Dungeons snapshot row. */
  datatype DungeonsData = DungeonsData(
    id: string,
    fetchTime: int,
    experience: real,
    completions: map<int, int>,
    masterCompletions: map<int, int>,
    classXp: map<string, real>,
    secrets: int)

  /** The `EventData` interface, implemented by both row kinds. */
  datatype EventData = Diana(diana: DianaData) | Dungeons(dungeons: DungeonsData)

  /** `GetUser`: the user a row belongs to. */
  function GetUser(d: EventData): string {
    match d
    case Diana(row) => row.id
    case Dungeons(row) => row.id
  }

  const DianaType: string := "diana"
  const DungeonsType: string := "dungeons"

  /**
   * `GuildEvent`; `eventData` is `None` for a nil slice. `isInLine` is not
   * a JSON field: only `SetInLine` writes it.
   */
  datatype GuildEvent = GuildEvent(
    id: string,
    users: seq<string>,
    startTime: int,
    duration: int,
    kind: string,
    isHidden: bool,
    eventData: Option<seq<EventData>>,
    isInLine: bool)

  /**
   * The `event_data` member: absent or empty, the literal `null`, or
   * present, with the result of decoding it as each row kind.
   */
  datatype RawEventData =
    | Absent
    | Null
    | Present(asDiana: Result<seq<DianaData>>, asDungeons: Result<seq<DungeonsData>>)

  /** `rawGuildEvent`: the outer object once `json.Unmarshal` has parsed it. */
  datatype RawGuildEvent = RawGuildEvent(
    id: string,
    users: seq<string>,
    startTime: int,
    duration: int,
    kind: string,
    isHidden: bool,
    eventData: RawEventData)

  /** `g` carries the basic fields of `raw`. */
  predicate CopiedFrom(g: GuildEvent, raw: RawGuildEvent) {
    && g.id == raw.id
    && g.users == raw.users
    && g.startTime == raw.startTime
    && g.duration == raw.duration
    && g.kind == raw.kind
    && g.isHidden == raw.isHidden
  }

  /** The Diana rows as `EventData`, one for one and in order. */
  function WrapDiana(rows: seq<DianaData>): (r: seq<EventData>)
    ensures |r| == |rows|
    ensures forall i :: 0 <= i < |rows| ==> r[i] == Diana(rows[i])
  {
    if rows == [] then [] else [Diana(rows[0])] + WrapDiana(rows[1..])
  }

  /** The Dungeons rows as `EventData`, one for one and in order. */
  function WrapDungeons(rows: seq<DungeonsData>): (r: seq<EventData>)
    ensures |r| == |rows|
    ensures forall i :: 0 <= i < |rows| ==> r[i] == Dungeons(rows[i])
  {
    if rows == [] then [] else [Dungeons(rows[0])] + WrapDungeons(rows[1..])
  }

  /**
   * `UnmarshalJSON` into the existing value `g`: the new value of `g` and
   * the error returned. A parse error leaves `g` alone; otherwise the basic
   * fields are copied first, so they stay copied whatever follows. Missing
   * or `null` event data clears it whatever the type; otherwise the type
   * picks the row kind, and any other type is an error that leaves the
   * event data as it was.
   */
  function UnmarshalJSON(g: GuildEvent, raw: Result<RawGuildEvent>): (r: (GuildEvent, Option<string>))
    ensures raw.Err? ==> r == (g, Some(raw.error))
    ensures raw.Ok? ==> CopiedFrom(r.0, raw.value)
    ensures r.0.isInLine == g.isInLine
    ensures raw.Ok? && !raw.value.eventData.Present? ==> r.1 == None && r.0.eventData == None
    ensures r.1.Some? ==> r.0.eventData == g.eventData
    ensures raw.Ok? && raw.value.eventData.Present? && raw.value.kind !in {DianaType, DungeonsType} ==>
      r.1 == Some("unknown event type: " + raw.value.kind)
    ensures raw.Ok? && r.1.None? && raw.value.eventData.Present? ==>
      && r.0.eventData.Some?
      && (raw.value.kind == DianaType ==>
            raw.value.eventData.asDiana.Ok? && |r.0.eventData.value| == |raw.value.eventData.asDiana.value|)
      && (raw.value.kind == DungeonsType ==>
            raw.value.eventData.asDungeons.Ok? && |r.0.eventData.value| == |raw.value.eventData.asDungeons.value|)
  {
    match raw
    case Err(e) => (g, Some(e))
    case Ok(raw) =>
      var copied := g.(id := raw.id, users := raw.users, startTime := raw.startTime,
                       duration := raw.duration, kind := raw.kind, isHidden := raw.isHidden);
      match raw.eventData
      case Absent => (copied.(eventData := None), None)
      case Null => (copied.(eventData := None), None)
      case Present(asDiana, asDungeons) =>
        if raw.kind == DianaType then
          match asDiana
          case Err(e) => (copied, Some(e))
          case Ok(rows) => (copied.(eventData := Some(WrapDiana(rows))), None)
        else if raw.kind == DungeonsType then
          match asDungeons
          case Err(e) => (copied, Some(e))
          case Ok(rows) => (copied.(eventData := Some(WrapDungeons(rows))), None)
        else (copied, Some("unknown event type: " + raw.kind))
  }

  /**
   * A decoded Diana or Dungeons event holds one row per decoded row, in the
   * decoded order, each belonging to the same user as its row.
   */
  lemma DecodedRowsInOrder(g: GuildEvent, raw: RawGuildEvent)
    requires raw.eventData.Present?
    ensures var r := UnmarshalJSON(g, Ok(raw));
      && (raw.kind == DianaType && raw.eventData.asDiana.Ok? ==>
            var rows := raw.eventData.asDiana.value;
            && r.1 == None
            && |r.0.eventData.value| == |rows|
            && forall i :: 0 <= i < |rows| ==>
                 r.0.eventData.value[i] == Diana(rows[i]) && GetUser(r.0.eventData.value[i]) == rows[i].id)
      && (raw.kind == DungeonsType && raw.eventData.asDungeons.Ok? ==>
            var rows := raw.eventData.asDungeons.value;
            && r.1 == None
            && |r.0.eventData.value| == |rows|
            && forall i :: 0 <= i < |rows| ==>
                 r.0.eventData.value[i] == Dungeons(rows[i]) && GetUser(r.0.eventData.value[i]) == rows[i].id)
  {
  }

  /** A successful decode depends on the target only through `isInLine`, so decoding again changes nothing. */
  lemma DecodeOverwrites(g1: GuildEvent, g2: GuildEvent, raw: RawGuildEvent)
    requires UnmarshalJSON(g1, Ok(raw)).1.None?
    ensures UnmarshalJSON(g2, Ok(raw)).1.None?
    ensures UnmarshalJSON(g1, Ok(raw)).0 == UnmarshalJSON(g2, Ok(raw)).0.(isInLine := g1.isInLine)
    ensures UnmarshalJSON(UnmarshalJSON(g1, Ok(raw)).0, Ok(raw)) == UnmarshalJSON(g1, Ok(raw))
  {
  }

  /** `SetInLine`. */
  function SetInLine(g: GuildEvent, isInLine: bool): (r: GuildEvent)
    ensures r.(isInLine := g.isInLine) == g
  {
    g.(isInLine := isInLine)
  }

  /** `GetSectionInline`. */
  function GetSectionInline(g: GuildEvent): bool {
    g.isInLine
  }

  /** The layout flag set on an event is the one it reports, and decoding into it later keeps it. */
  lemma InlineSurvivesDecode(g: GuildEvent, b: bool, raw: Result<RawGuildEvent>)
    ensures GetSectionInline(SetInLine(g, b)) == b
    ensures GetSectionInline(UnmarshalJSON(SetInLine(g, b), raw).0) == b
  {
  }
}
