/**
 * The Go slash commands and buttons that change what the bot knows
 * (src/commands/buttons.go, src/commands/startGuildEvent.go,
 * src/commands/registerAccount.go), each as a transition: the bot's maps, the
 * interaction and the answers of the outside world go in; the maps left
 * behind, the one reply, and the database writes in their order come out.
 * Go holds the events by reference, so whatever `Start` or `AddUser` did to an
 * event stays in the map even when the command then fails.
 */
module Commands {
  import opened Wrappers
  import opened Text
  import opened Collections
  import opened HypixelApi
  import opened GuildEvents
  import opened Discord

  /** The bot's memory: linked users by Discord id and events by id. */
  datatype Bot = Bot(users: map<Snowflake, GuildUser>, events: map<string, Event>)

  /** The answer to an interaction. */
  datatype Reply =
    | NoReply
      /** `RespondWithErrorPrivate`: an ephemeral red embed titled with the message. */
    | PrivateError(title: string)
    | Content(text: string, ephemeral: bool)
    | StartedEmbed(title: string, description: string)
    | Choices(choices: seq<Choice>)

  /** A database call, in the order the command issues it. */
  datatype Write = SaveEventData(event: Event) | UpdateEvent(event: Event) | SaveUser(user: GuildUser)

  /** What a command leaves behind, or the panic that ends it. */
  datatype Step = Step(bot: Bot, reply: Reply, writes: seq<Write>) | Panic(message: string)

  /** Nothing changes, nothing is written, and the reply is `reply`. */
  function Refuse(bot: Bot, reply: Reply): (r: Step) {
    Step(bot, reply, [])
  }

  /**
   * `after` is `before` with `user` added to the participants of event
   * `eventId`, stored under the user's snowflake; every other event, every
   * other field of that event and the user map are as they were.
   */
  predicate JoinedTo(before: Bot, after: Bot, eventId: string, user: GuildUser) {
    && eventId in before.events && eventId in after.events
    && after.users == before.users
    && after.events.Keys == before.events.Keys
    && (forall k :: k in before.events && k != eventId ==> after.events[k] == before.events[k])
    && after.events[eventId].base.users == before.events[eventId].base.users[user.snowflake := user]
    && after.events[eventId].base.(users := before.events[eventId].base.users) == before.events[eventId].base
    && after.events[eventId].(base := before.events[eventId].base) == before.events[eventId]
  }

  // ------------------------------------------------------------ join button

  const JoinPrefix: string := "joinEvent"

  /**
   * The "joinEvent" branch of `HandleButtonInteraction`: the custom id is
   * split at every '_' and the second part names the event. Any other first
   * part is not answered; "joinEvent" with no second part indexes past the
   * end of the parts and panics.
   */
  function JoinEvent(bot: Bot, customId: string, clicker: Snowflake): (r: Step)
    ensures r.Panic? <==> customId == JoinPrefix
    ensures Split(customId, '_')[0] != JoinPrefix ==> r == Refuse(bot, NoReply)
    ensures r.Step? ==> r.writes == [] && r.bot.users == bot.users
    ensures r.Step? && r.bot != bot ==>
      && clicker in bot.users
      && JoinedTo(bot, r.bot, Split(customId, '_')[1], bot.users[clicker])
      && bot.users[clicker].snowflake !in bot.events[Split(customId, '_')[1]].base.users
  {
    var parts := Split(customId, '_');
    if parts[0] != JoinPrefix then Refuse(bot, NoReply)
    else if |parts| < 2 then Panic("index out of range")
    else
      var eventId := parts[1];
      if eventId !in bot.events then Refuse(bot, PrivateError("Event not found."))
      else if clicker !in bot.users then Refuse(bot, PrivateError("Please register your account with /register"))
      else
        var user := bot.users[clicker];
        var event := bot.events[eventId];
        if user.snowflake in event.base.users then Refuse(bot, PrivateError("You are already resisted to the event."))
        else
          Step(AddParticipant(bot, eventId, user),
               Content("You have joined the event: **" + EventTypeString(event.base.kind) + "**!", true), [])
  }

  /** `event.AddUser(&user)` on the event stored under `eventId`. */
  function AddParticipant(bot: Bot, eventId: string, user: GuildUser): (r: Bot)
    requires eventId in bot.events
    ensures JoinedTo(bot, r, eventId, user)
  {
    bot.(events := bot.events[eventId := AddUser(bot.events[eventId], user)])
  }

  /** The event id a "joinEvent" button names: the text between the first and the second '_'. */
  lemma JoinReadsSecondPart(bot: Bot, a: string, b: string, clicker: Snowflake)
    requires '_' !in a
    ensures var r := JoinEvent(bot, JoinPrefix + "_" + a + "_" + b, clicker);
      && r.Step?
      && (a !in bot.events ==> r == Refuse(bot, PrivateError("Event not found.")))
      && (r.bot != bot ==> JoinedTo(bot, r.bot, a, bot.users[clicker]))
  {
    var s := JoinPrefix + "_" + a + "_" + b;
    assert s == JoinPrefix + ['_'] + (a + ['_'] + b);
    SplitAfterPrefix(JoinPrefix, '_', a + ['_'] + b);
    SplitAfterPrefix(a, '_', b);
  }

  /** An unknown event, or a clicker who never linked an account, changes nothing. */
  lemma JoinRefusals(bot: Bot, eventId: string, clicker: Snowflake)
    requires '_' !in eventId
    ensures eventId !in bot.events ==>
      JoinEvent(bot, JoinPrefix + "_" + eventId, clicker) == Refuse(bot, PrivateError("Event not found."))
    ensures eventId in bot.events && clicker !in bot.users ==>
      JoinEvent(bot, JoinPrefix + "_" + eventId, clicker)
        == Refuse(bot, PrivateError("Please register your account with /register"))
  {
    SplitAfterPrefix(JoinPrefix, '_', eventId);
    assert Split(eventId, '_') == [eventId];
  }

  /**
   * A first click of a linked member adds exactly that member; a second
   * click on the same button is refused and changes nothing.
   */
  lemma JoinTwice(bot: Bot, eventId: string, clicker: Snowflake)
    requires '_' !in eventId
    requires eventId in bot.events && clicker in bot.users
    requires bot.users[clicker].snowflake !in bot.events[eventId].base.users
    ensures var first := JoinEvent(bot, JoinPrefix + "_" + eventId, clicker);
      && first.Step?
      && JoinedTo(bot, first.bot, eventId, bot.users[clicker])
      && JoinEvent(first.bot, JoinPrefix + "_" + eventId, clicker)
           == Refuse(first.bot, PrivateError("You are already resisted to the event."))
  {
    SplitAfterPrefix(JoinPrefix, '_', eventId);
    assert Split(eventId, '_') == [eventId];
  }

  // ----------------------------------------------------------- start command

  /** A command option as Discord delivers it: a string, or an option of another type. */
  datatype CommandOption = StringOption(value: string) | OtherOption

  /** The event id of `startguildEvent`: the first option, when there is one and it is a string. */
  function OptionEventId(options: seq<CommandOption>): (r: Option<string>)
    ensures r.Some? <==> |options| > 0 && options[0].StringOption?
  {
    if |options| > 0 && options[0].StringOption? then Some(options[0].value) else None
  }

  /** `order` is the order Go visits the participants of the event the options name. */
  predicate OrderFits(bot: Bot, options: seq<CommandOption>, order: seq<Snowflake>) {
    OptionEventId(options).Some? && OptionEventId(options).value in bot.events ==>
      IsEnumeration(order, bot.events[OptionEventId(options).value].base.users.Keys)
  }

  /** The command reaches the call of `Start` on the event its option names. */
  predicate ReachesStart(bot: Bot, options: seq<CommandOption>) {
    && OptionEventId(options).Some?
    && OptionEventId(options).value in bot.events
    && |bot.events[OptionEventId(options).value].base.users| > 0
  }

  /**
   * The command branch of `startguildEvent`: an event-id option, a known
   * event and at least one participant are required, in that order, before
   * `Start` runs. Whatever `Start` did stays in the map; a failed `Start`
   * reports its error and writes nothing, and a successful one is saved and
   * then updated. This holds however often the event was started before.
   */
  function StartCommand(bot: Bot, options: seq<CommandOption>, order: seq<Snowflake>, remote: Remote): (r: Step)
    requires OrderFits(bot, options, order)
    ensures !ReachesStart(bot, options) ==> r.Step? && r.bot == bot && r.writes == [] && r.reply.PrivateError?
    ensures r.Panic? <==> ReachesStart(bot, options) && !bot.events[OptionEventId(options).value].SlayerEvent?
    ensures r.Step? ==> r.bot.users == bot.users && r.bot.events.Keys == bot.events.Keys
    ensures r.Step? ==> forall k :: k in bot.events && Some(k) != OptionEventId(options) ==> r.bot.events[k] == bot.events[k]
    ensures r.Step? && r.writes != [] ==> ReachesStart(bot, options)
    ensures r.Step? && ReachesStart(bot, options) ==>
      var id := OptionEventId(options).value;
      var started := Start(bot.events[id], order, remote);
      && !started.Panicked?
      && r.bot.events[id] == started.event
      && (r.writes != [] <==> started.Done?)
      && (started.Done? ==>
            && r.writes == [SaveEventData(started.event), UpdateEvent(started.event)]
            && r.bot.events[id].base == bot.events[id].base.(isActive := true, hasEnded := true))
      && (started.Failed? ==>
            && r.reply == PrivateError("Failed to start event: " + started.error)
            && r.bot.events[id].base == bot.events[id].base)
  {
    match OptionEventId(options)
    case None => Refuse(bot, PrivateError("Invalid or missing 'event-id' option."))
    case Some(id) =>
      if id !in bot.events then Refuse(bot, PrivateError("Event with ID " + id + " not found."))
      else
        if |bot.events[id].base.users| == 0 then Refuse(bot, PrivateError("Event has no users."))
        else StartKnown(bot, id, order, remote)
  }

  /**
   * `startguildEvent` once its gates are passed: `Start`, whose effects stay
   * in the map, then the two writes when it succeeded or the error reply
   * when it failed.
   */
  function StartKnown(bot: Bot, id: string, order: seq<Snowflake>, remote: Remote): (r: Step)
    requires id in bot.events && IsEnumeration(order, bot.events[id].base.users.Keys)
    ensures r.Panic? <==> !bot.events[id].SlayerEvent?
    ensures r.Step? ==> r.bot.users == bot.users && r.bot.events.Keys == bot.events.Keys
    ensures r.Step? ==> forall k :: k in bot.events && k != id ==> r.bot.events[k] == bot.events[k]
    ensures r.Step? ==>
      var started := Start(bot.events[id], order, remote);
      && !started.Panicked?
      && r.bot.events[id] == started.event
      && (r.writes != [] <==> started.Done?)
      && (started.Done? ==>
            && r.writes == [SaveEventData(started.event), UpdateEvent(started.event)]
            && r.reply.StartedEmbed?
            && r.bot.events[id].base == bot.events[id].base.(isActive := true, hasEnded := true))
      && (started.Failed? ==>
            && r.reply == PrivateError("Failed to start event: " + started.error)
            && r.bot.events[id].base == bot.events[id].base)
  {
    var event := bot.events[id];
    match StartEvent(event, order, remote)
    case Panicked(message) => Panic(message)
    case Failed(partial, error) =>
      Step(bot.(events := bot.events[id := partial]), PrivateError("Failed to start event: " + error), [])
    case Done(started) =>
      Step(bot.(events := bot.events[id := started]),
           StartedEmbed("Event '" + event.base.description + "' Started",
                        "Event with ID: " + started.base.id + " has successfully started."),
           [SaveEventData(started), UpdateEvent(started)])
  }

  /** What the command relies on about `Start`. */
  function StartEvent(e: Event, order: seq<Snowflake>, remote: Remote): (r: Outcome)
    requires IsEnumeration(order, e.base.users.Keys)
    ensures r.Panicked? <==> !e.SlayerEvent?
    ensures r.Done? ==> r.event.base == e.base.(isActive := true, hasEnded := true)
    ensures r.Failed? ==> r.event.base == e.base
  {
    Start(e, order, remote)
  }

  /** The three refusals before `Start`, with their messages. */
  lemma StartRefusals(bot: Bot, options: seq<CommandOption>, order: seq<Snowflake>, remote: Remote)
    requires OrderFits(bot, options, order)
    ensures OptionEventId(options).None? ==>
      StartCommand(bot, options, order, remote) == Refuse(bot, PrivateError("Invalid or missing 'event-id' option."))
    ensures OptionEventId(options).Some? && OptionEventId(options).value !in bot.events ==>
      StartCommand(bot, options, order, remote)
        == Refuse(bot, PrivateError("Event with ID " + OptionEventId(options).value + " not found."))
    ensures (OptionEventId(options).Some? && OptionEventId(options).value in bot.events
             && bot.events[OptionEventId(options).value].base.users == map[]) ==>
      StartCommand(bot, options, order, remote) == Refuse(bot, PrivateError("Event has no users."))
  {
  }

  /**
   * Starting a slayer event whose participants' profiles all fetch
   * successfully gives every participant exactly one new snapshot, sets
   * both flags, and issues the save before the update.
   */
  lemma StartSlayerSucceeds(bot: Bot, id: string, order: seq<Snowflake>, remote: Remote)
    requires id in bot.events && bot.events[id].SlayerEvent? && |bot.events[id].base.users| > 0
    requires IsEnumeration(order, bot.events[id].base.users.Keys)
    requires forall i :: 0 <= i < |order| ==> Fetcher(bot.events[id].base.users, false, remote)(order[i]).Ok?
    ensures var r := StartCommand(bot, [StringOption(id)], order, remote);
      && r.Step?
      && r.bot.events[id].SlayerEvent?
      && r.bot.events[id].base.isActive && r.bot.events[id].base.hasEnded
      && AppendedFor(bot.events[id].data, r.bot.events[id].data, order,
                     Fetcher(bot.events[id].base.users, false, remote))
      && r.writes == [SaveEventData(r.bot.events[id]), UpdateEvent(r.bot.events[id])]
  {
  }

  // ---------------------------------------------------- start autocomplete

  /** An event `startguildEvent` offers: not active, or not ended. */
  predicate Startable(e: Event) {
    !e.base.isActive || !e.base.hasEnded
  }

  /** The choice offered for an event: "Event <id>: <kind>", sending back its id. */
  function StartChoice(e: Event): Choice {
    Choice("Event " + e.base.id + ": " + EventTypeString(e.base.kind), e.base.id)
  }

  /** The choices for the startable events, visited in `order`. */
  function StartableChoices(events: map<string, Event>, order: seq<string>): (r: seq<Choice>)
    requires forall i :: 0 <= i < |order| ==> order[i] in events
    ensures |r| <= |order|
    ensures forall i :: 0 <= i < |order| && Startable(events[order[i]]) ==> StartChoice(events[order[i]]) in r
    ensures forall c :: c in r ==> exists i :: 0 <= i < |order| && Startable(events[order[i]]) && c == StartChoice(events[order[i]])
  {
    if order == [] then []
    else
      var rest := StartableChoices(events, order[1..]);
      assert forall i :: 1 <= i < |order| ==> order[i] == order[1..][i - 1];
      if Startable(events[order[0]]) then [StartChoice(events[order[0]])] + rest else rest
  }

  /** The Discord limit on autocomplete choices. */
  const MaxChoices: int := 25

  /**
   * The autocomplete branch of `startguildEvent`: the startable events in
   * Go's map order, cut to the first 25.
   */
  function StartAutocomplete(bot: Bot, order: seq<string>): (r: Reply)
    requires IsEnumeration(order, bot.events.Keys)
    ensures r.Choices?
    ensures |r.choices| <= MaxChoices
    ensures var all := StartableChoices(bot.events, order);
      r.choices <= all && |r.choices| == if |all| > MaxChoices then MaxChoices else |all|
  {
    var all := StartableChoices(bot.events, order);
    if |all| > MaxChoices then Choices(all[..MaxChoices]) else Choices(all)
  }

  /**
   * With at most 25 startable events, an event is offered exactly when it is
   * startable, whichever order Go visits the map in.
   */
  lemma AutocompleteOffersStartable(bot: Bot, order: seq<string>, k: string)
    requires IsEnumeration(order, bot.events.Keys)
    requires |StartableChoices(bot.events, order)| <= MaxChoices
    requires k in bot.events
    ensures Startable(bot.events[k]) ==> StartChoice(bot.events[k]) in StartAutocomplete(bot, order).choices
    ensures (forall j :: j in bot.events && StartChoice(bot.events[j]) == StartChoice(bot.events[k]) ==> !Startable(bot.events[j]))
        ==> StartChoice(bot.events[k]) !in StartAutocomplete(bot, order).choices
  {
    var i :| 0 <= i < |order| && order[i] == k;
  }

  // ------------------------------------------------------ register account

  /** The reply `registerAccount` gives for an error of the Minecraft-name lookup. */
  function UuidErrorText(error: string): (out: string)
    ensures error == StatusError(400) ==> out == "Invalid minecraft account name (Not possible)"
    ensures error == StatusError(404) ==> out == "Invalid minecraft account name (No exiting account with that name)"
  {
    StatusErrorTexts();
    if error == "error: Unable to fetch data. Status code: 400" then "Invalid minecraft account name (Not possible)"
    else if error == "error: Unable to fetch data. Status code: 404" then
      "Invalid minecraft account name (No exiting account with that name)"
    else "Unknown error, please contact staff"
  }

  /** The Mojang and Hypixel answers `registerAccount` reads, by the name or UUID asked for. */
  datatype Lookups = Lookups(mojang: string -> HttpReply<McUuid>, hypixel: string -> HttpReply<HypixelPlayer>)

  /** The account linked by a successful registration. */
  function Linked(memberId: Snowflake, memberName: string, mc: McUuid): GuildUser {
    GuildUser(memberId, mc.id, mc.name, memberName)
  }

  /**
   * `registerAccount` for member `memberId` named `memberName`: an already
   * linked member is told the stored name; otherwise the Minecraft name
   * (the first option) is looked up at Mojang, its UUID at Hypixel, and the
   * account is linked exactly when the Discord name Hypixel holds equals the
   * member's name ignoring case. A failing save still leaves the link in
   * memory; only the reply differs. `saveError` is the answer of the
   * database to `SaveUser`.
   */
  function RegisterAccount(bot: Bot, memberId: Snowflake, memberName: string, options: seq<string>,
                           lookups: Lookups, saveError: Option<string>): (r: Step)
    ensures r.Panic? <==> memberId !in bot.users && options == []
    ensures r.Step? ==> r.bot.events == bot.events
    ensures r.Step? ==> forall k :: k != memberId ==>
      (k in r.bot.users <==> k in bot.users) && (k in bot.users ==> r.bot.users[k] == bot.users[k])
    ensures r.Step? && memberId in bot.users ==> r.bot == bot && r.writes == []
    ensures r.Step? && r.bot != bot ==>
      && memberId !in bot.users
      && var mc := FetchApi(lookups.mojang(options[0]));
         && mc.Ok?
         && CheckUserName(lookups.hypixel(mc.value.id)).Ok?
         && Lower(CheckUserName(lookups.hypixel(mc.value.id)).value) == Lower(memberName)
         && r.bot.users == bot.users[memberId := Linked(memberId, memberName, mc.value)]
         && r.writes == [SaveUser(Linked(memberId, memberName, mc.value))]
    ensures r.Step? && r.bot == bot ==> r.writes == []
  {
    if memberId in bot.users then
      Refuse(bot, Content("You are already registered, with the MC IGN: " + bot.users[memberId].mcUsername, false))
    else if options == [] then Panic("index out of range")
    else
      match FetchApi(lookups.mojang(options[0]))
      case Err(error) => Refuse(bot, Content(UuidErrorText(error), false))
      case Ok(mc) =>
        match CheckUserName(lookups.hypixel(mc.id))
        case Err(_) => Refuse(bot, NoReply)
        case Ok(discordName) =>
          if Lower(discordName) == Lower(memberName) then
            var user := Linked(memberId, memberName, mc);
            var out := if saveError.Some? then "Failed to save user (Please contact support)" else "Registration complete";
            Step(bot.(users := bot.users[memberId := user]), Content(out, false), [SaveUser(user)])
          else
            Refuse(bot, Content("You are not registered to this account", false))
  }

  /** A Mojang reply of status 400 or 404 is explained to the member; anything else asks them to contact staff. */
  lemma RegisterExplainsLookupStatus(bot: Bot, memberId: Snowflake, memberName: string, ign: string,
                                     lookups: Lookups, saveError: Option<string>, status: int)
    requires memberId !in bot.users
    requires lookups.mojang(ign).Response? && lookups.mojang(ign).status == status && status != StatusOK
    ensures var r := RegisterAccount(bot, memberId, memberName, [ign], lookups, saveError);
      && (status == 400 ==> r == Refuse(bot, Content("Invalid minecraft account name (Not possible)", false)))
      && (status == 404 ==> r == Refuse(bot, Content("Invalid minecraft account name (No exiting account with that name)", false)))
      && (status != 400 && status != 404 ==> r == Refuse(bot, Content("Unknown error, please contact staff", false)))
  {
    StatusErrorTexts();
    if status != 400 && status != 404 {
      StatusErrorDistinguishes(status);
    }
  }

  /** A status other than 400 and 404 renders differently from both. */
  lemma StatusErrorDistinguishes(status: int)
    requires status != 400 && status != 404
    ensures StatusError(status) != StatusError(400) && StatusError(status) != StatusError(404)
  {
    var prefix := "error: Unable to fetch data. Status code: ";
    assert StatusError(status)[|prefix|..] == Itoa(status);
    assert StatusError(400)[|prefix|..] == Itoa(400);
    assert StatusError(404)[|prefix|..] == Itoa(404);
    ItoaInjective(status, 400);
    ItoaInjective(status, 404);
  }

  /** The link is made exactly on a case-insensitive name match, and stays in memory when the save fails. */
  lemma RegisterLinksOnMatch(bot: Bot, memberId: Snowflake, memberName: string, ign: string,
                             lookups: Lookups, saveError: Option<string>)
    requires memberId !in bot.users
    requires FetchApi(lookups.mojang(ign)).Ok?
    requires CheckUserName(lookups.hypixel(FetchApi(lookups.mojang(ign)).value.id)).Ok?
    ensures var mc := FetchApi(lookups.mojang(ign)).value;
      var linkedName := CheckUserName(lookups.hypixel(mc.id)).value;
      var r := RegisterAccount(bot, memberId, memberName, [ign], lookups, saveError);
      && r.Step?
      && (Lower(linkedName) == Lower(memberName) ==>
            && r.bot.users == bot.users[memberId := Linked(memberId, memberName, mc)]
            && r.reply == Content(if saveError.Some? then "Failed to save user (Please contact support)"
                                  else "Registration complete", false))
      && (Lower(linkedName) != Lower(memberName) ==>
            r == Refuse(bot, Content("You are not registered to this account", false)))
  {
  }

  /** A failing Hypixel lookup ends the command silently. */
  lemma RegisterSilentOnNameLookupError(bot: Bot, memberId: Snowflake, memberName: string, ign: string,
                                        lookups: Lookups, saveError: Option<string>)
    requires memberId !in bot.users
    requires FetchApi(lookups.mojang(ign)).Ok?
    requires CheckUserName(lookups.hypixel(FetchApi(lookups.mojang(ign)).value.id)).Err?
    ensures RegisterAccount(bot, memberId, memberName, [ign], lookups, saveError) == Refuse(bot, NoReply)
  {
  }

  /** A member who is already linked is told the stored Minecraft name, and nothing is looked up or changed. */
  lemma RegisterAlreadyLinked(bot: Bot, memberId: Snowflake, memberName: string, options: seq<string>,
                              lookups: Lookups, saveError: Option<string>)
    requires memberId in bot.users
    ensures RegisterAccount(bot, memberId, memberName, options, lookups, saveError)
         == Refuse(bot, Content("You are already registered, with the MC IGN: " + bot.users[memberId].mcUsername, false))
  {
  }
}
