/**
 * The Go client of the Hypixel and Mojang APIs (src/utils/hypixelapi.go).
 * Nothing here talks to the network: one HTTP GET is represented by the
 * reply it produced, already decoded from JSON when decoding succeeded, and
 * the functions state what the client does with that reply.
 */
module HypixelApi {
  import opened Wrappers
  import opened Text

  /** The outcome of one `http.Get`: a transport error, or a status code with the decoded body (or the read/decode error). */
  datatype HttpReply<T> = TransportError(message: string) | Response(status: int, body: Result<T>)

  const StatusOK: int := 200

  /** The error `fetchApi` builds for a non-200 status. */
  function StatusError(code: int): string {
    "error: Unable to fetch data. Status code: " + Itoa(code)
  }

  /** `fetchApi`: only a 200 reply whose body decoded yields a value. */
  function FetchApi<T>(reply: HttpReply<T>): (r: Result<T>)
    ensures r.Ok? <==> reply.Response? && reply.status == StatusOK && reply.body.Ok?
    ensures r.Ok? ==> r.value == reply.body.value
    ensures reply.Response? && reply.status != StatusOK ==> r == Err(StatusError(reply.status))
    ensures reply.TransportError? ==> r == Err(reply.message)
  {
    match reply
    case TransportError(message) => Err(message)
    case Response(status, body) =>
      if status != StatusOK then Err(StatusError(status)) else body
  }

  /** The two status-code errors the registration command recognises by their exact text. */
  lemma StatusErrorTexts()
    ensures StatusError(400) == "error: Unable to fetch data. Status code: 400"
    ensures StatusError(404) == "error: Unable to fetch data. Status code: 404"
  {
    assert NatToString(4) == "4";
    assert NatToString(40) == NatToString(4) + [Digit(0)];
    assert NatToString(400) == NatToString(40) + [Digit(0)];
    assert NatToString(404) == NatToString(40) + [Digit(4)];
  }

  // ---------------------------------------------------------------- profiles

  datatype Profile = Profile(profileId: string, cuteName: string, selected: bool)

  datatype ProfilesByPlayer = ProfilesByPlayer(success: bool, profiles: seq<Profile>)

  /** `getSelectedProfileID`: the id of the first selected profile, or "" when none is selected. */
  function SelectedProfileId(profiles: seq<Profile>): (id: string)
    ensures (forall i :: 0 <= i < |profiles| ==> !profiles[i].selected) ==> id == ""
    ensures (exists i :: 0 <= i < |profiles| && profiles[i].selected) ==>
      exists i :: 0 <= i < |profiles| && profiles[i].selected && id == profiles[i].profileId
        && forall j :: 0 <= j < i ==> !profiles[j].selected
  {
    if profiles == [] then ""
    else if profiles[0].selected then profiles[0].profileId
    else
      var id := SelectedProfileId(profiles[1..]);
      assert forall i :: 1 <= i < |profiles| ==> profiles[i] == profiles[1..][i - 1];
      id
  }

  /** `FetchActivePlayerProfile`: the selected profile's id, an error when it is empty. */
  function FetchActivePlayerProfile(minecraftUuid: string, reply: HttpReply<ProfilesByPlayer>): (r: Result<string>)
    ensures r.Ok? <==> FetchApi(reply).Ok? && SelectedProfileId(FetchApi(reply).value.profiles) != ""
    ensures r.Ok? ==> r.value == SelectedProfileId(FetchApi(reply).value.profiles) && r.value != ""
    ensures FetchApi(reply).Err? ==> r == Err(FetchApi(reply).error)
  {
    var data :- FetchApi(reply);
    var profileId := SelectedProfileId(data.profiles);
    if profileId == "" then
      Err("no active profile found for player with UUID: " + minecraftUuid)
    else
      Ok(profileId)
  }

  // ------------------------------------------------------------ slayer data

  /** One entry of `slayer_bosses` in the profile JSON. */
  datatype SlayerBoss = SlayerBoss(
    claimedLevels: map<string, bool>,
    bossKillsTier0: int, bossKillsTier1: int, bossKillsTier2: int, bossKillsTier3: int, bossKillsTier4: int,
    bossAttemptsTier0: int, bossAttemptsTier1: int, bossAttemptsTier2: int, bossAttemptsTier3: int,
    bossAttemptsTier4: int,
    xp: int)

  datatype PlayerSlayerData = PlayerSlayerData(slayerBosses: map<string, SlayerBoss>)

  datatype ProfileMember = ProfileMember(playerId: string, slayer: PlayerSlayerData)

  datatype ProfileData = ProfileData(profileId: string, members: map<string, ProfileMember>)

  datatype PlayerData = PlayerData(success: bool, profile: ProfileData)

  /** `FetchPlayerSlayerData`: the slayer block of member `uuid`, an error when the profile has no such member. */
  function FetchPlayerSlayerData(uuid: string, reply: HttpReply<PlayerData>): (r: Result<PlayerSlayerData>)
    ensures r.Ok? <==> FetchApi(reply).Ok? && uuid in FetchApi(reply).value.profile.members
    ensures r.Ok? ==> r.value == FetchApi(reply).value.profile.members[uuid].slayer
    ensures FetchApi(reply).Err? ==> r == Err(FetchApi(reply).error)
  {
    var data :- FetchApi(reply);
    if uuid in data.profile.members then
      Ok(data.profile.members[uuid].slayer)
    else
      Err("player " + uuid + " not found in profile")
  }

  // ------------------------------------------------ account-linking lookups

  /** The Mojang answer to a user-name lookup (`GetMCUUID`). */
  datatype McUuid = McUuid(id: string, name: string)

  /** The social-media links of a Hypixel player; an absent link decodes as "". */
  datatype HypixelPlayer = HypixelPlayer(discord: string)

  /** `CheckUserName`: the Discord name linked on Hypixel. */
  function CheckUserName(reply: HttpReply<HypixelPlayer>): (r: Result<string>)
    ensures r.Ok? <==> FetchApi(reply).Ok?
    ensures r.Ok? ==> r.value == FetchApi(reply).value.discord
  {
    var data :- FetchApi(reply);
    Ok(data.discord)
  }
}
