/**
 * Guild events and the slayer event life cycle (src/guildData/guildEvent.go).
 *
 * An event is a value; `Start`, `End`, `FetchData` and `AddUser` return the
 * event they leave behind. What the Go code reads from the outside world is a
 * `Remote`: the Hypixel replies for each player, the order in which Go hands
 * out the keys of the decoded boss map, the ids `gonanoid` produces (or
 * its failure), and the clock reading taken at each participant. The order
 * in which Go visits the participants is a parameter that lists every
 * participant once.
 */
module GuildEvents {
  import opened Wrappers
  import opened Collections
  import opened Sorting
  import opened GoTime
  import opened HypixelApi
  import opened SlayerScore

  /** A Discord user id. */
  type Snowflake = string

  /** `EventType`: 0, 1 and 2 are the slayer, diana and dungeons kinds. */
  type EventType = int

  const Slayer: EventType := 0
  const Diana: EventType := 1
  const Dungeons: EventType := 2

  /** `GuildUser`: a Discord member linked to a Minecraft account. */
  datatype GuildUser = GuildUser(snowflake: Snowflake, mcUuid: string, mcUsername: string, discordUsername: string)

  /** The fields every event shares; times are Unix nanoseconds. */
  datatype GuildEvent = GuildEvent(
    id: string,
    eventName: string,
    kind: EventType,
    description: string,
    startTime: int,
    durationHours: int,
    isActive: bool,
    lastFetch: int,
    users: map<Snowflake, GuildUser>,
    hidden: bool,
    hasEnded: bool)

  /** Per participant, the slayer snapshots in the order they were taken. */
  type SlayerData = map<Snowflake, seq<SlayerEventData>>

  /** The concrete event types behind the Go `Event` interface. */
  datatype Event =
    | SlayerEvent(base: GuildEvent, data: SlayerData)
    | DianaEvent(base: GuildEvent)
    | DungeonsEvent(base: GuildEvent)
    | BaseEvent(base: GuildEvent)

  /** The kind an event was built as; `None` for the bare base event. */
  function KindOf(e: Event): Option<EventType> {
    match e
    case SlayerEvent(_, _) => Some(Slayer)
    case DianaEvent(_) => Some(Diana)
    case DungeonsEvent(_) => Some(Dungeons)
    case BaseEvent(_) => None
  }

  /**
   * `EventType.String`: the three known kinds by name, any other value in
   * decimal, which starts with a digit or '-' and so never reads as a name.
   */
  function EventTypeString(t: EventType): (r: string)
    ensures t == Slayer <==> r == "slayer"
    ensures t == Diana <==> r == "diana"
    ensures t == Dungeons <==> r == "dungeons"
    ensures !(Slayer <= t <= Dungeons) ==> |r| > 0 && (Text.IsDigit(r[0]) || r[0] == '-')
  {
    if t == Slayer then "slayer"
    else if t == Diana then "diana"
    else if t == Dungeons then "dungeons"
    else Text.Itoa(t)
  }

  /** Distinct kinds are named distinctly, so the name identifies the kind. */
  lemma EventTypeStringInjective(a: EventType, b: EventType)
    requires a != b
    ensures EventTypeString(a) != EventTypeString(b)
  {
    if !(Slayer <= a <= Dungeons) && !(Slayer <= b <= Dungeons) {
      Text.ItoaInjective(a, b);
    }
  }

  /**
   * `NewGuildEvent`: every argument lands in its field, the participants
   * start empty, and the kind picks the concrete type (with empty slayer
   * data for a slayer event).
   */
  function NewGuildEvent(
    id: string, eventName: string, kind: EventType, description: string, startTime: int,
    lastFetch: int, durationHours: int, isActive: bool, hidden: bool, hasEnded: bool): (r: Event)
    ensures r.base == GuildEvent(id, eventName, kind, description, startTime, durationHours, isActive,
                                 lastFetch, map[], hidden, hasEnded)
    ensures KindOf(r) == (if Slayer <= kind <= Dungeons then Some(kind) else None)
    ensures r.SlayerEvent? ==> r.data == map[]
  {
    var base := GuildEvent(id, eventName, kind, description, startTime, durationHours, isActive,
                           lastFetch, map[], hidden, hasEnded);
    if kind == Slayer then SlayerEvent(base, map[])
    else if kind == Diana then DianaEvent(base)
    else if kind == Dungeons then DungeonsEvent(base)
    else BaseEvent(base)
  }

  /** Every participant is stored under its own snowflake. */
  predicate UsersKeyed(users: map<Snowflake, GuildUser>) {
    forall k :: k in users ==> users[k].snowflake == k
  }

  /** `AddUser`: stores `user` under its snowflake, replacing any previous entry; nothing else changes. */
  function AddUser(e: Event, user: GuildUser): (r: Event)
    ensures user.snowflake in r.base.users && r.base.users[user.snowflake] == user
    ensures forall k :: k != user.snowflake ==>
      (k in r.base.users <==> k in e.base.users) && (k in e.base.users ==> r.base.users[k] == e.base.users[k])
    ensures r.base.(users := e.base.users) == e.base
    ensures r.(base := e.base) == e
  {
    e.(base := e.base.(users := e.base.users[user.snowflake := user]))
  }

  /** Adding users one at a time keeps every participant under its own snowflake. */
  lemma AddUserKeepsUsersKeyed(e: Event, user: GuildUser)
    requires UsersKeyed(e.base.users)
    ensures UsersKeyed(AddUser(e, user).base.users)
  {
    var r := AddUser(e, user);
    forall k | k in r.base.users
      ensures r.base.users[k].snowflake == k
    {
      if k != user.snowflake {
        assert k in e.base.users;
      }
    }
  }

  /** The refresh interval of `ShouldFetchData`. */
  const FetchInterval: int := 3 * Hour

  /**
   * `ShouldFetchData` at instant `now`: true exactly when more than three
   * hours have passed since the last fetch. A last fetch in the future and
   * exactly three hours both give false.
   */
  function ShouldFetchData(e: Event, now: int): (r: bool)
    ensures r <==> now - e.base.lastFetch > FetchInterval
  {
    var elapsed := Sub(now, e.base.lastFetch);
    if elapsed < 0 then false else elapsed > FetchInterval
  }

  // ------------------------------------------------------ the outside world

  /** What one round of fetches reads from outside the program. */
  datatype Remote = Remote(
    /** The reply to the profiles request for a Minecraft UUID. */
    profiles: string -> HttpReply<ProfilesByPlayer>,
    /** The reply to the profile request for a UUID and a profile id. */
    profile: (string, string) -> HttpReply<PlayerData>,
    /** The order in which Go hands out the keys of a decoded boss map. */
    bossOrder: map<string, SlayerBoss> -> seq<string>,
    /** The id `gonanoid` gives the boss data of a participant ("" when it fails). */
    bossId: (Snowflake, BossType) -> string,
    /** The id `gonanoid` gives a participant's snapshot, or its failure. */
    snapshotId: Snowflake -> Result<string>,
    /** The instant `time.Now()` reads when a participant's snapshot is stamped. */
    clock: Snowflake -> int)

  /** The ten counters and the experience of `d` are those of `v`. */
  predicate Copies(d: BossData, v: SlayerBoss) {
    && d.bossKillsTier0 == v.bossKillsTier0 && d.bossKillsTier1 == v.bossKillsTier1
    && d.bossKillsTier2 == v.bossKillsTier2 && d.bossKillsTier3 == v.bossKillsTier3
    && d.bossKillsTier4 == v.bossKillsTier4
    && d.bossAttemptsTier0 == v.bossAttemptsTier0 && d.bossAttemptsTier1 == v.bossAttemptsTier1
    && d.bossAttemptsTier2 == v.bossAttemptsTier2 && d.bossAttemptsTier3 == v.bossAttemptsTier3
    && d.bossAttemptsTier4 == v.bossAttemptsTier4
    && d.xp == v.xp
  }

  /** Key `k` of the API's boss map names boss `b`. */
  predicate ParsesTo(k: string, bosses: map<string, SlayerBoss>, b: BossType) {
    k in bosses && ParseBossTypeString(k) == (b, true)
  }

  function CopyBoss(v: SlayerBoss, id: string): BossData {
    BossData(id, v.bossKillsTier0, v.bossKillsTier1, v.bossKillsTier2, v.bossKillsTier3, v.bossKillsTier4,
             v.bossAttemptsTier0, v.bossAttemptsTier1, v.bossAttemptsTier2, v.bossAttemptsTier3,
             v.bossAttemptsTier4, v.xp)
  }

  /** The loop of `convertUtilsSlayerDataToEventSlayerData` from the keys `order` on, starting from `acc`. */
  function ConvertFrom(bosses: map<string, SlayerBoss>, order: seq<string>, ids: BossType -> string,
                       acc: map<BossType, BossData>): (r: map<BossType, BossData>)
    ensures forall b :: b in r <==> b in acc || exists i :: 0 <= i < |order| && ParsesTo(order[i], bosses, b)
    ensures forall b :: b in r ==>
      (b in acc && r[b] == acc[b]) || exists k :: ParsesTo(k, bosses, b) && Copies(r[b], bosses[k]) && r[b].id == ids(b)
    decreases |order|
  {
    if order == [] then acc
    else
      var k := order[0];
      var (b, ok) := ParseBossTypeString(k);
      var acc' := if ok && k in bosses then acc[b := CopyBoss(bosses[k], ids(b))] else acc;
      var r := ConvertFrom(bosses, order[1..], ids, acc');
      assert forall i :: 0 <= i < |order| - 1 ==> order[1..][i] == order[i + 1];
      assert forall c :: c in acc' ==> (c in acc && acc'[c] == acc[c]) || (c == b && ParsesTo(k, bosses, b));
      assert forall c :: (exists i :: 0 <= i < |order| && ParsesTo(order[i], bosses, c)) ==>
        ParsesTo(order[0], bosses, c) || exists i :: 0 <= i < |order| - 1 && ParsesTo(order[1..][i], bosses, c);
      r
  }

  /**
   * `convertUtilsSlayerDataToEventSlayerData`: keeps the keys that name a
   * boss, copying their counters verbatim under a fresh id; the others are
   * dropped. When two keys name the same boss the later one in `order` wins.
   */
  function Convert(bosses: map<string, SlayerBoss>, order: seq<string>, ids: BossType -> string): (r: map<BossType, BossData>)
    ensures forall b :: b in r ==>
      IsBoss(b) && r[b].id == ids(b) && exists k :: ParsesTo(k, bosses, b) && Copies(r[b], bosses[k])
    ensures IsEnumeration(order, bosses.Keys) ==>
      forall b :: b in r <==> exists k :: ParsesTo(k, bosses, b)
  {
    EnumerationCoversKeys(bosses, order);
    ConvertFrom(bosses, order, ids, map[])
  }

  lemma EnumerationCoversKeys(bosses: map<string, SlayerBoss>, order: seq<string>)
    ensures IsEnumeration(order, bosses.Keys) ==> forall b, k :: ParsesTo(k, bosses, b) ==> k in order
  {
  }

  /** Go's `%w` wrapping of an error with a context message. */
  function Wrap<T>(context: string, r: Result<T>): (w: Result<T>)
    ensures w.Ok? <==> r.Ok?
    ensures r.Ok? ==> w == r
    ensures r.Err? ==> w.error == context + ": " + r.error
  {
    if r.Err? then Err(context + ": " + r.error) else r
  }

  /**
   * One participant's fetch: the active profile, its slayer data, the
   * conversion, and the snapshot id. `refresh` selects the `FetchData`
   * variant, where a failed id is an error and the fetch date is the zero
   * time; `Start` and `End` use "" for a failed id and stamp the clock
   * reading taken for this participant.
   */
  function TakeSnapshot(user: GuildUser, key: Snowflake, refresh: bool, remote: Remote): (r: Result<SlayerEventData>)
    ensures var profile := FetchActivePlayerProfile(user.mcUuid, remote.profiles(user.mcUuid));
      && (profile.Err? ==> r == Err("failed to get Active Player Profile: " + profile.error))
      && (profile.Ok? ==>
            var slayer := FetchPlayerSlayerData(user.mcUuid, remote.profile(user.mcUuid, profile.value));
            && (slayer.Err? ==> r == Err("failed to fetch slayer data: " + slayer.error))
            && (slayer.Ok? && refresh && remote.snapshotId(key).Err? ==>
                  r == Err("failed to create an id: " + remote.snapshotId(key).error))
            && (slayer.Ok? && (!refresh || remote.snapshotId(key).Ok?) ==>
                  r.Ok? && r.value.bossData == Convert(slayer.value.slayerBosses,
                                                       remote.bossOrder(slayer.value.slayerBosses),
                                                       b => remote.bossId(key, b)))
            && (slayer.Ok? && r.Ok? && IsEnumeration(remote.bossOrder(slayer.value.slayerBosses),
                                                     slayer.value.slayerBosses.Keys) ==>
                  forall b :: b in r.value.bossData <==> exists k :: ParsesTo(k, slayer.value.slayerBosses, b)))
    ensures r.Ok? ==> r.value.fetchDate == (if refresh then ZeroTime else remote.clock(key))
    ensures r.Ok? ==> r.value.id == (if remote.snapshotId(key).Ok? then remote.snapshotId(key).value else "")
  {
    var profileId :- Wrap("failed to get Active Player Profile",
                          FetchActivePlayerProfile(user.mcUuid, remote.profiles(user.mcUuid)));
    var slayer :- Wrap("failed to fetch slayer data",
                       FetchPlayerSlayerData(user.mcUuid, remote.profile(user.mcUuid, profileId)));
    var bosses := slayer.slayerBosses;
    var bossData := Convert(bosses, remote.bossOrder(bosses), b => remote.bossId(key, b));
    var generated := remote.snapshotId(key);
    if refresh then
      var id :- Wrap("failed to create an id", generated);
      Ok(SlayerEventData(id, ZeroTime, bossData))
    else
      Ok(SlayerEventData(if generated.Ok? then generated.value else "", remote.clock(key), bossData))
  }

  /** A participant's snapshots; none when the key is absent. */
  function History(data: SlayerData, k: Snowflake): seq<SlayerEventData> {
    if k in data then data[k] else []
  }

  /** A round's fetches, one result per participant of `users`. */
  type Fetches = Snowflake -> Result<SlayerEventData>

  /**
   * The fetch of each participant in a round of `Start` and `End`
   * (`refresh` false) or `FetchData` (`refresh` true).
   */
  function Fetcher(users: map<Snowflake, GuildUser>, refresh: bool, remote: Remote): Fetches {
    sf => if sf in users then TakeSnapshot(users[sf], Target(users, refresh)(sf), refresh, remote) else Err("")
  }

  /**
   * Where a participant's snapshot is stored: `Start` and `End` use the
   * participants map key, `FetchData` the user's own snowflake.
   */
  function Target(users: map<Snowflake, GuildUser>, refresh: bool): Snowflake -> Snowflake {
    sf => if refresh && sf in users then users[sf].snowflake else sf
  }

  /** Each participant of `order` is stored under its own key. */
  predicate KeyedFor(order: seq<Snowflake>, target: Snowflake -> Snowflake) {
    forall i :: 0 <= i < |order| ==> target(order[i]) == order[i]
  }

  /** `Start` and `End` store under the map key; `FetchData` does too once every user sits under its own snowflake. */
  lemma TargetsKeyed(users: map<Snowflake, GuildUser>, order: seq<Snowflake>, refresh: bool)
    ensures (!refresh || UsersKeyed(users)) && (forall i :: 0 <= i < |order| ==> order[i] in users) ==>
      KeyedFor(order, Target(users, refresh))
  {
  }

  /**
   * The participants `done` were each fetched successfully and gained exactly
   * their snapshot at the end of their history; every other key is untouched.
   */
  ghost predicate AppendedFor(before: SlayerData, after: SlayerData, done: seq<Snowflake>, fetch: Fetches) {
    && (forall i :: 0 <= i < |done| ==> fetch(done[i]).Ok?)
    && (forall i :: 0 <= i < |done| ==> History(after, done[i]) == History(before, done[i]) + [fetch(done[i]).value])
    && (forall k :: k !in done ==> (k in after <==> k in before) && History(after, k) == History(before, k))
  }

  /** The round stopped at participant `order[j]`, whose fetch failed with the reported error, after appending for those before it. */
  ghost predicate StoppedAt(before: SlayerData, after: SlayerData, error: Option<string>, order: seq<Snowflake>, j: int,
                            fetch: Fetches)
  {
    && 0 <= j < |order|
    && fetch(order[j]).Err?
    && error == Some(fetch(order[j]).error)
    && AppendedFor(before, after, order[..j], fetch)
  }

  /** Appending for the head participant and then for the rest is appending for all of them. */
  lemma AppendedForCons(before: SlayerData, mid: SlayerData, after: SlayerData, order: seq<Snowflake>, j: nat,
                        fetch: Fetches)
    requires Distinct(order) && 1 <= j <= |order|
    requires fetch(order[0]).Ok?
    requires mid == before[order[0] := History(before, order[0]) + [fetch(order[0]).value]]
    requires AppendedFor(mid, after, order[1..j], fetch)
    ensures AppendedFor(before, after, order[..j], fetch)
  {
    ConsFetched(before, mid, after, order, j, fetch);
    ConsUntouched(before, mid, after, order, j, fetch);
  }

  lemma ConsFetched(before: SlayerData, mid: SlayerData, after: SlayerData, order: seq<Snowflake>, j: nat,
                    fetch: Fetches)
    requires Distinct(order) && 1 <= j <= |order|
    requires fetch(order[0]).Ok?
    requires mid == before[order[0] := History(before, order[0]) + [fetch(order[0]).value]]
    requires AppendedFor(mid, after, order[1..j], fetch)
    ensures forall i :: 0 <= i < j ==> fetch(order[..j][i]).Ok?
    ensures forall i :: 0 <= i < j ==>
      History(after, order[..j][i]) == History(before, order[..j][i]) + [fetch(order[..j][i]).value]
  {
    var done := order[..j];
    var rest := order[1..j];
    forall i | 0 <= i < j
      ensures fetch(done[i]).Ok?
      ensures History(after, done[i]) == History(before, done[i]) + [fetch(done[i]).value]
    {
      if i == 0 {
        assert forall m :: 0 <= m < |rest| ==> rest[m] == order[m + 1];
        assert order[0] !in rest;
      } else {
        assert done[i] == rest[i - 1] == order[i];
      }
    }
  }

  lemma ConsUntouched(before: SlayerData, mid: SlayerData, after: SlayerData, order: seq<Snowflake>, j: nat,
                      fetch: Fetches)
    requires Distinct(order) && 1 <= j <= |order|
    requires fetch(order[0]).Ok?
    requires mid == before[order[0] := History(before, order[0]) + [fetch(order[0]).value]]
    requires AppendedFor(mid, after, order[1..j], fetch)
    ensures forall k :: k !in order[..j] ==> (k in after <==> k in before) && History(after, k) == History(before, k)
  {
    var done := order[..j];
    var rest := order[1..j];
    forall k | k !in done
      ensures (k in after <==> k in before) && History(after, k) == History(before, k)
    {
      assert done[0] == order[0];
      assert k !in rest by {
        assert forall m :: 0 <= m < |rest| ==> rest[m] == done[m + 1];
      }
    }
  }

  /**
   * The participant loop of `Start`, `End` and `FetchData`: fetch each
   * participant in `order` and append the snapshot to its history under
   * `target`, stopping at the first error, which is returned with the data
   * written so far.
   */
  function Round(data: SlayerData, order: seq<Snowflake>, fetch: Fetches, target: Snowflake -> Snowflake)
    : (r: (SlayerData, Option<string>))
    requires Distinct(order)
    ensures r.1.None? <==> forall i :: 0 <= i < |order| ==> fetch(order[i]).Ok?
    ensures KeyedFor(order, target) && r.1.None? ==> AppendedFor(data, r.0, order, fetch)
    ensures KeyedFor(order, target) && r.1.Some? ==> exists j :: StoppedAt(data, r.0, r.1, order, j, fetch)
    decreases |order|
  {
    if order == [] then
      (data, None)
    else
      var sf := order[0];
      if fetch(sf).Err? then
        var r := (data, Some(fetch(sf).error));
        assert order[..0] == [];
        assert StoppedAt(data, r.0, r.1, order, 0, fetch);
        r
      else
        var key := target(sf);
        var mid := data[key := History(data, key) + [fetch(sf).value]];
        assert forall i :: 0 <= i < |order| - 1 ==> order[1..][i] == order[i + 1];
        var r := Round(mid, order[1..], fetch, target);
        RoundCons(data, mid, r, order, fetch, target);
        r
  }

  /** The step of `Round`: a successful fetch of the head participant followed by the rest of the round. */
  lemma RoundCons(data: SlayerData, mid: SlayerData, r: (SlayerData, Option<string>), order: seq<Snowflake>,
                  fetch: Fetches, target: Snowflake -> Snowflake)
    requires Distinct(order) && |order| > 0
    requires fetch(order[0]).Ok?
    requires mid == data[target(order[0]) := History(data, target(order[0])) + [fetch(order[0]).value]]
    requires KeyedFor(order[1..], target) && r.1.None? ==> AppendedFor(mid, r.0, order[1..], fetch)
    requires KeyedFor(order[1..], target) && r.1.Some? ==> exists j :: StoppedAt(mid, r.0, r.1, order[1..], j, fetch)
    ensures KeyedFor(order, target) && r.1.None? ==> AppendedFor(data, r.0, order, fetch)
    ensures KeyedFor(order, target) && r.1.Some? ==> exists j :: StoppedAt(data, r.0, r.1, order, j, fetch)
  {
    if KeyedFor(order, target) {
      assert target(order[0]) == order[0];
      assert KeyedFor(order[1..], target) by {
        assert forall i :: 0 <= i < |order| - 1 ==> order[1..][i] == order[i + 1];
      }
      if r.1.None? {
        RoundConsDone(data, mid, r.0, order, fetch, target);
      } else {
        var j :| StoppedAt(mid, r.0, r.1, order[1..], j, fetch);
        RoundConsStopped(data, mid, r, order, j, fetch, target);
      }
    }
  }

  lemma RoundConsDone(data: SlayerData, mid: SlayerData, after: SlayerData, order: seq<Snowflake>,
                      fetch: Fetches, target: Snowflake -> Snowflake)
    requires Distinct(order) && |order| > 0
    requires fetch(order[0]).Ok?
    requires mid == data[order[0] := History(data, order[0]) + [fetch(order[0]).value]]
    requires AppendedFor(mid, after, order[1..], fetch)
    ensures AppendedFor(data, after, order, fetch)
  {
    assert order[1..|order|] == order[1..];
    AppendedForCons(data, mid, after, order, |order|, fetch);
    assert order[..|order|] == order;
  }

  lemma RoundConsStopped(data: SlayerData, mid: SlayerData, r: (SlayerData, Option<string>), order: seq<Snowflake>,
                         j: int, fetch: Fetches, target: Snowflake -> Snowflake)
    requires Distinct(order) && |order| > 0
    requires fetch(order[0]).Ok?
    requires mid == data[order[0] := History(data, order[0]) + [fetch(order[0]).value]]
    requires StoppedAt(mid, r.0, r.1, order[1..], j, fetch)
    ensures StoppedAt(data, r.0, r.1, order, j + 1, fetch)
  {
    assert order[1..][..j] == order[1..j + 1];
    assert order[1..][j] == order[j + 1];
    AppendedForCons(data, mid, r.0, order, j + 1, fetch);
  }

  /** What a life-cycle call leaves behind: success, an error with the partial effects, or a panic. */
  datatype Outcome = Done(event: Event) | Failed(event: Event, error: string) | Panicked(message: string)

  /**
   * `Start`: on a slayer event, one baseline snapshot per participant, then
   * `IsActive` and `hasEnded` are both set. The first failing fetch returns
   * its error with the snapshots taken so far and the flags untouched. The
   * base event panics.
   */
  function Start(e: Event, order: seq<Snowflake>, remote: Remote): (r: Outcome)
    requires IsEnumeration(order, e.base.users.Keys)
    ensures r.Panicked? <==> !e.SlayerEvent?
    ensures e.SlayerEvent? ==>
      (r.Done? <==> forall i :: 0 <= i < |order| ==> Fetcher(e.base.users, false, remote)(order[i]).Ok?)
    ensures r.Done? ==>
      && r.event.SlayerEvent?
      && r.event.base == e.base.(isActive := true, hasEnded := true)
      && AppendedFor(e.data, r.event.data, order, Fetcher(e.base.users, false, remote))
    ensures r.Failed? ==>
      && r.event.SlayerEvent?
      && r.event.base == e.base
      && exists j :: StoppedAt(e.data, r.event.data, Some(r.error), order, j, Fetcher(e.base.users, false, remote))
  {
    match e
    case SlayerEvent(base, data) =>
      TargetsKeyed(base.users, order, false);
      var (data', error) := Round(data, order, Fetcher(base.users, false, remote), Target(base.users, false));
      if error.Some? then Failed(SlayerEvent(base, data'), error.value)
      else Done(SlayerEvent(base.(isActive := true, hasEnded := true), data'))
    case _ => Panicked("This event has not been implemented")
  }

  /**
   * `End`: on a slayer event, one final snapshot per participant, then
   * `IsActive` is cleared. Every other event ends without effect.
   */
  function End(e: Event, order: seq<Snowflake>, remote: Remote): (r: Outcome)
    requires IsEnumeration(order, e.base.users.Keys)
    ensures !r.Panicked?
    ensures !e.SlayerEvent? ==> r == Done(e)
    ensures e.SlayerEvent? ==>
      (r.Done? <==> forall i :: 0 <= i < |order| ==> Fetcher(e.base.users, false, remote)(order[i]).Ok?)
    ensures e.SlayerEvent? && r.Done? ==>
      && r.event.SlayerEvent?
      && r.event.base == e.base.(isActive := false)
      && AppendedFor(e.data, r.event.data, order, Fetcher(e.base.users, false, remote))
    ensures r.Failed? ==>
      && r.event.SlayerEvent?
      && r.event.base == e.base
      && exists j :: StoppedAt(e.data, r.event.data, Some(r.error), order, j, Fetcher(e.base.users, false, remote))
  {
    match e
    case SlayerEvent(base, data) =>
      TargetsKeyed(base.users, order, false);
      var (data', error) := Round(data, order, Fetcher(base.users, false, remote), Target(base.users, false));
      if error.Some? then Failed(SlayerEvent(base, data'), error.value)
      else Done(SlayerEvent(base.(isActive := false), data'))
    case _ => Done(e)
  }

  /**
   * `FetchData`: on a slayer event, one refresh snapshot per participant,
   * stored under the user's own snowflake with the zero time as fetch date;
   * no flag changes and `LastFetch` is left alone. Every other event fetches
   * nothing.
   */
  function FetchData(e: Event, order: seq<Snowflake>, remote: Remote): (r: Outcome)
    requires IsEnumeration(order, e.base.users.Keys)
    ensures !r.Panicked?
    ensures !e.SlayerEvent? ==> r == Done(e)
    ensures e.SlayerEvent? ==>
      (r.Done? <==> forall i :: 0 <= i < |order| ==> Fetcher(e.base.users, true, remote)(order[i]).Ok?)
    ensures (r.Done? || r.Failed?) ==> r.event.base == e.base && r.event.SlayerEvent? == e.SlayerEvent?
    ensures e.SlayerEvent? && r.Done? && UsersKeyed(e.base.users) ==>
      AppendedFor(e.data, r.event.data, order, Fetcher(e.base.users, true, remote))
    ensures r.Failed? && UsersKeyed(e.base.users) ==>
      && r.event.SlayerEvent?
      && exists j :: StoppedAt(e.data, r.event.data, Some(r.error), order, j, Fetcher(e.base.users, true, remote))
  {
    match e
    case SlayerEvent(base, data) =>
      TargetsKeyed(base.users, order, true);
      var (data', error) := Round(data, order, Fetcher(base.users, true, remote), Target(base.users, true));
      if error.Some? then Failed(SlayerEvent(base, data'), error.value)
      else Done(SlayerEvent(base, data'))
    case _ => Done(e)
  }

  /**
   * A snapshot of `Start` or `End` is stamped with the clock reading taken
   * for that participant, and one of `FetchData` with the zero time; a failed
   * id is "" for the first two and an error for the last.
   */
  lemma SnapshotStamps(users: map<Snowflake, GuildUser>, sf: Snowflake, refresh: bool, remote: Remote)
    requires sf in users && Fetcher(users, refresh, remote)(sf).Ok?
    ensures Fetcher(users, refresh, remote)(sf).value.fetchDate == (if refresh then ZeroTime else remote.clock(sf))
    ensures refresh ==> remote.snapshotId(Target(users, refresh)(sf)).Ok?
  {
    var r := TakeSnapshot(users[sf], Target(users, refresh)(sf), refresh, remote);
    assert Fetcher(users, refresh, remote)(sf) == r;
  }

  /** The boss map of a user's active profile, as the API returns it. */
  function SlayerReply(user: GuildUser, remote: Remote): Result<map<string, SlayerBoss>> {
    var profileId :- FetchActivePlayerProfile(user.mcUuid, remote.profiles(user.mcUuid));
    var slayer :- FetchPlayerSlayerData(user.mcUuid, remote.profile(user.mcUuid, profileId));
    Ok(slayer.slayerBosses)
  }

  /** Go's `range` over a decoded boss map visits every key once. */
  ghost predicate RangesOverKeys(remote: Remote) {
    forall m: map<string, SlayerBoss> :: IsEnumeration(remote.bossOrder(m), m.Keys)
  }

  /**
   * A participant's snapshot in any round holds exactly the bosses that
   * some key of the API's boss map names.
   */
  lemma SnapshotHoldsEveryBoss(users: map<Snowflake, GuildUser>, sf: Snowflake, refresh: bool, remote: Remote)
    requires RangesOverKeys(remote)
    requires sf in users && Fetcher(users, refresh, remote)(sf).Ok?
    ensures SlayerReply(users[sf], remote).Ok?
    ensures forall b :: b in Fetcher(users, refresh, remote)(sf).value.bossData <==>
      exists k :: ParsesTo(k, SlayerReply(users[sf], remote).value, b)
  {
    var r := TakeSnapshot(users[sf], Target(users, refresh)(sf), refresh, remote);
    assert Fetcher(users, refresh, remote)(sf) == r;
  }

  // ------------------------------------------------------------- ranking

  /** A participant's points: the score of the newest snapshot minus that of the oldest. */
  function Delta(history: seq<SlayerEventData>): (r: real)
    requires |history| > 0
    ensures |history| == 1 ==> r == 0.0
    ensures history[0].bossData == history[|history| - 1].bossData ==> r == 0.0
  {
    CalculatePoints(history[|history| - 1]) - CalculatePoints(history[0])
  }

  function PointsOf(data: SlayerData, k: Snowflake): real {
    if k in data && |data[k]| > 0 then Delta(data[k]) else 0.0
  }

  /** Every participant has at least one snapshot. */
  predicate AllFetched(data: SlayerData) {
    forall k :: k in data ==> data[k] != []
  }

  /** The participants of `order` by descending points. */
  function RankIds(data: SlayerData, order: seq<Snowflake>): (ids: seq<Snowflake>)
    requires IsEnumeration(order, data.Keys)
    ensures |ids| == |data|
    ensures multiset(ids) == multiset(order)
    ensures forall k :: k in data <==> k in ids
    ensures forall i, j :: 0 <= i < j < |ids| ==> PointsOf(data, ids[i]) >= PointsOf(data, ids[j])
  {
    var ids := SortDesc(order, k => PointsOf(data, k));
    EnumerationLength(order, data.Keys);
    PermutationCoversKeys(order, ids, data.Keys);
    ids
  }

  /**
   * `sortByPoints` on a slayer event: the participants of `data` ordered by
   * points, highest first, with each participant's points alongside. A
   * participant with no snapshot makes `data[0]` panic (`None`). The Go
   * sort is not stable; the model fixes one of the orders it may produce.
   */
  function SortByPoints(data: SlayerData, order: seq<Snowflake>): (r: Option<(seq<Snowflake>, seq<real>)>)
    requires IsEnumeration(order, data.Keys)
    ensures r.None? <==> !AllFetched(data)
    ensures r.Some? ==>
      var (ids, points) := r.value;
      && |ids| == |points| == |data|
      && multiset(ids) == multiset(order)
      && (forall k :: k in data <==> k in ids)
      && (forall i :: 0 <= i < |ids| ==> ids[i] in data && points[i] == Delta(data[ids[i]]))
      && (forall i, j :: 0 <= i < j < |points| ==> points[i] >= points[j])
  {
    if !AllFetched(data) then None
    else
      var ids := RankIds(data, order);
      assert forall i :: 0 <= i < |ids| ==> ids[i] in data by {
        assert forall i :: 0 <= i < |ids| ==> ids[i] in ids;
      }
      Some((ids, seq(|ids|, i requires 0 <= i < |ids| => PointsOf(data, ids[i]))))
  }
}
