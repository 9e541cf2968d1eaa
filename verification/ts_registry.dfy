/**
 * The TypeScript bot's member registry (src/Bot.ts) and its `/register`
 * command (src/commands/register.ts). The registry is a map from Discord id
 * to member; the database row written beside it is an effect whose failure is
 * only logged.
 */
module TsRegistry {
  import opened Wrappers
  import opened HypixelApi

  type Snowflake = string

  /** `GuildUser` of the TypeScript bot. */
  datatype TsGuildUser = TsGuildUser(id: Snowflake, discordName: string, uuid: string, mcUsername: string)

  type Members = map<Snowflake, TsGuildUser>

  const AlreadyRegistered: string := "The user is already registed"

  function HasGuildMember(members: Members, key: Snowflake): bool {
    key in members
  }

  function GetGuildMember(members: Members, key: Snowflake): (r: Option<TsGuildUser>)
    ensures r.Some? <==> HasGuildMember(members, key)
  {
    if key in members then Some(members[key]) else None
  }

  /**
   * `addGuildMember`: a present key is refused; otherwise the method awaits
   * a pool connection, and `connectError` is the rejection of that await
   * when there is one, which propagates before the member is stored. The
   * outcome of the INSERT is only logged by its callback, so it is not an
   * input.
   */
  function AddGuildMember(members: Members, key: Snowflake, value: TsGuildUser, connectError: Option<string>): (r: Result<Members>)
    ensures r.Ok? <==> !HasGuildMember(members, key) && connectError.None?
    ensures HasGuildMember(members, key) ==> r == Err(AlreadyRegistered)
    ensures !HasGuildMember(members, key) && connectError.Some? ==> r == Err(connectError.value)
    ensures r.Ok? ==> HasGuildMember(r.value, key) && GetGuildMember(r.value, key) == Some(value)
    ensures r.Ok? ==> forall k :: k != key ==> GetGuildMember(r.value, k) == GetGuildMember(members, k)
    ensures r.Ok? ==> r.value.Keys == members.Keys + {key}
  {
    if key in members then Err(AlreadyRegistered)
    else if connectError.Some? then Err(connectError.value)
    else Ok(members[key := value])
  }

  /**
   * Adding a key twice: once the first add succeeds, the second is refused
   * whatever its connection does.
   */
  lemma AddTwiceRefused(members: Members, key: Snowflake, v1: TsGuildUser, v2: TsGuildUser, e: Option<string>)
    requires !HasGuildMember(members, key)
    ensures AddGuildMember(members, key, v1, None).Ok?
    ensures AddGuildMember(AddGuildMember(members, key, v1, None).value, key, v2, e) == Err(AlreadyRegistered)
  {
  }

  // -------------------------------------------------------------- /register

  /** The embed colours of the command. */
  const Red: int := 0xff0000
  const Green: int := 0x00ff00

  /** What `execute` ends with: one reply with one embed, or a rejected promise. */
  datatype Outcome = Replied(members: Members, description: string, color: int) | Threw(error: string)

  /** JavaScript falsiness of the Discord name Hypixel links (`null` or ""). */
  predicate Falsy(link: Option<string>) {
    link.None? || link.value == ""
  }

  /**
   * `execute` of `/register` for Discord user `userId` named `username`,
   * who typed the Minecraft name `ign`. `link` is what `checkMCUsername`
   * resolved to and `uuid` what `getMCUUID` resolved to; an `Err` is a
   * rejected promise, which ends the command without a reply. The
   * un-awaited `addGuildMember` is taken to have run before the reply, with
   * `connectError` its connection's rejection; that rejection is never
   * observed by the command, which replies green all the same.
   */
  function Register(members: Members, userId: Snowflake, username: string, ign: string,
                    link: Result<Option<string>>, uuid: Result<McUuid>, connectError: Option<string>): (r: Outcome)
    ensures r.Threw? ==> link.Err? || uuid.Err?
    ensures r.Replied? && r.color == Green ==>
      && !HasGuildMember(members, userId)
      && link == Ok(Some(username)) && username != ""
      && uuid.Ok?
      && (connectError.None? ==> r.members == members[userId := TsGuildUser(userId, username, uuid.value.id, ign)])
      && (connectError.Some? ==> r.members == members)
    ensures r.Replied? && r.color != Green ==> r.members == members && r.color == Red
  {
    match link
    case Err(error) => Threw(error)
    case Ok(name) =>
      if Falsy(name) then Replied(members, "Please add your Discord username on Hypixel.", Red)
      else if HasGuildMember(members, userId) then Replied(members, "You are already registered!", Red)
      else if name.value == username then
        match uuid
        case Err(error) => Threw(error)
        case Ok(mc) =>
          var added := AddGuildMember(members, userId, TsGuildUser(userId, username, mc.id, ign), connectError);
          Replied(if added.Ok? then added.value else members, "You are now registered!", Green)
      else Replied(members, "Your Discord username does not match the one on Hypixel.", Red)
  }

  /** A missing Hypixel link is reported first, even to a member who is already registered. */
  lemma MissingLinkReportedFirst(members: Members, userId: Snowflake, username: string, ign: string,
                                 link: Option<string>, uuid: Result<McUuid>, connectError: Option<string>)
    requires Falsy(link)
    ensures Register(members, userId, username, ign, Ok(link), uuid, connectError)
         == Replied(members, "Please add your Discord username on Hypixel.", Red)
  {
  }

  /**
   * For an unregistered user with a linked name, registration happens
   * exactly when the linked name equals the Discord user name, case
   * included, and the pool connects; afterwards the registry holds the new
   * member under the user's id.
   */
  lemma RegistersOnExactMatch(members: Members, userId: Snowflake, username: string, ign: string,
                              linked: string, mc: McUuid, connectError: Option<string>)
    requires linked != "" && !HasGuildMember(members, userId)
    ensures var r := Register(members, userId, username, ign, Ok(Some(linked)), Ok(mc), connectError);
      && r.Replied?
      && (linked == username <==> r.color == Green)
      && (linked == username && connectError.None? ==>
            GetGuildMember(r.members, userId) == Some(TsGuildUser(userId, username, mc.id, ign)))
      && (connectError.Some? ==> r.members == members)
      && (linked != username ==>
            r == Replied(members, "Your Discord username does not match the one on Hypixel.", Red))
  {
  }

  /** A registered member is told so, and the registry does not change. */
  lemma RegisteredMemberUnchanged(members: Members, userId: Snowflake, username: string, ign: string,
                                  linked: string, uuid: Result<McUuid>, connectError: Option<string>)
    requires linked != "" && HasGuildMember(members, userId)
    ensures Register(members, userId, username, ign, Ok(Some(linked)), uuid, connectError)
         == Replied(members, "You are already registered!", Red)
  {
  }

  /**
   * A rejected pool connection leaves the registry as it was, yet the user
   * who matched is still told they are now registered.
   */
  lemma GreenDespiteFailedConnect(members: Members, userId: Snowflake, username: string, ign: string,
                                  mc: McUuid, error: string)
    requires username != "" && !HasGuildMember(members, userId)
    ensures Register(members, userId, username, ign, Ok(Some(username)), Ok(mc), Some(error))
         == Replied(members, "You are now registered!", Green)
    ensures !HasGuildMember(Register(members, userId, username, ign, Ok(Some(username)), Ok(mc), Some(error)).members,
                            userId)
  {
  }
}
