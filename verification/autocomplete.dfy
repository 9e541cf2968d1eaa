/**
 * Autocompletion of the `fetch_guild_event` and `fetch_user` commands
 * (internal/handlers/autocompletions): the typed text filters the known
 * events or users by a case-insensitive substring test, and typing nothing
 * offers everything. The REST fetches are parameters: the list as fetched or
 * the fetch error, and for users a lookup from id to Minecraft name.
 */
module Autocomplete {
  import opened Wrappers
  import opened Text
  import opened Discord
  import opened EventModel

  /** What the handler does: nothing, or answer with a list of choices (a nil list is the empty one). */
  datatype Answer = NoAnswer | Respond(choices: seq<Choice>)

  /** `strings.Contains(strings.ToLower(name), strings.ToLower(typed))`. */
  predicate Matches(name: string, typed: string) {
    Contains(Lower(name), Lower(typed))
  }

  /** Lower-casing either side first does not change the test; the empty text matches every name. */
  lemma MatchesIgnoresCase(name: string, typed: string)
    ensures Matches(Lower(name), typed) == Matches(name, typed)
    ensures Matches(name, Lower(typed)) == Matches(name, typed)
    ensures Matches(name, "")
  {
    LowerIdempotent(name);
    LowerIdempotent(typed);
    ContainsEmpty(Lower(name));
  }

  /** One choice per item, in order. */
  function AllChoices<T>(items: seq<T>, name: T -> string, value: T -> string): (r: seq<Choice>)
    ensures |r| == |items|
    ensures forall i :: 0 <= i < |items| ==> r[i] == Choice(name(items[i]), value(items[i]))
  {
    if items == [] then [] else [Choice(name(items[0]), value(items[0]))] + AllChoices(items[1..], name, value)
  }

  /** The filter loop: a choice for each item whose name matches, in order. */
  function FilterChoices<T>(items: seq<T>, name: T -> string, value: T -> string, typed: string): (r: seq<Choice>)
    ensures |r| <= |items|
    ensures forall c :: c in r <==>
      exists i :: 0 <= i < |items| && Matches(name(items[i]), typed) && c == Choice(name(items[i]), value(items[i]))
  {
    if items == [] then []
    else
      var rest := FilterChoices(items[1..], name, value, typed);
      assert forall i :: 0 < i < |items| ==> items[i] == items[1..][i - 1];
      if Matches(name(items[0]), typed) then [Choice(name(items[0]), value(items[0]))] + rest else rest
  }

  /** Filtering a concatenation filters each part and keeps them in order. */
  lemma {:induction false} FilterAppend<T>(a: seq<T>, b: seq<T>, name: T -> string, value: T -> string, typed: string)
    ensures FilterChoices(a + b, name, value, typed)
         == FilterChoices(a, name, value, typed) + FilterChoices(b, name, value, typed)
  {
    if a != [] {
      assert (a + b)[1..] == a[1..] + b;
      FilterAppend(a[1..], b, name, value, typed);
    } else {
      assert a + b == b;
    }
  }

  /** When every name matches, the filter keeps every item. */
  lemma {:induction false} FilterKeepsAll<T>(items: seq<T>, name: T -> string, value: T -> string, typed: string)
    requires forall i :: 0 <= i < |items| ==> Matches(name(items[i]), typed)
    ensures FilterChoices(items, name, value, typed) == AllChoices(items, name, value)
  {
    if items != [] {
      assert forall i :: 0 <= i < |items| - 1 ==> items[1..][i] == items[i + 1];
      FilterKeepsAll(items[1..], name, value, typed);
    }
  }

  /**
   * The filter with its fallback: the matching items, or every item when
   * nothing was typed and nothing matched. Typing nothing therefore offers
   * every item, and typing something offers exactly the matches.
   */
  function Suggest<T>(items: seq<T>, name: T -> string, value: T -> string, typed: string): (r: seq<Choice>)
    ensures typed == "" ==> r == AllChoices(items, name, value)
    ensures typed != "" ==> forall c :: c in r <==>
      exists i :: 0 <= i < |items| && Matches(name(items[i]), typed) && c == Choice(name(items[i]), value(items[i]))
  {
    var choices := FilterChoices(items, name, value, typed);
    if typed == "" then
      assert forall i :: 0 <= i < |items| ==> Matches(name(items[i]), typed) by {
        forall i | 0 <= i < |items| ensures Matches(name(items[i]), typed) {
          MatchesIgnoresCase(name(items[i]), typed);
        }
      }
      FilterKeepsAll(items, name, value, typed);
      if |choices| == 0 then AllChoices(items, name, value) else choices
    else choices
  }

  // ------------------------------------------------------------- events

  /**
   * `GuildEventAutocomplete`: only for `fetch_guild_event` with at least one
   * option, whose value is the typed text; a fetch error answers with no
   * choices; each choice shows and sends the event id.
   */
  function GuildEventAutocomplete(commandName: string, options: seq<string>, events: Result<seq<GuildEvent>>): (r: Answer)
    ensures r.NoAnswer? <==> commandName != "fetch_guild_event" || options == []
    ensures r.Respond? && events.Err? ==> r.choices == []
    ensures r.Respond? && events.Ok? ==> forall c :: c in r.choices ==>
      c.name == c.value && exists i :: 0 <= i < |events.value| && events.value[i].id == c.value
    ensures r.Respond? && events.Ok? && options[0] == "" ==> |r.choices| == |events.value|
  {
    if commandName != "fetch_guild_event" || |options| == 0 then NoAnswer
    else
      match events
      case Err(_) => Respond([])
      case Ok(events) => Respond(Suggest(events, (e: GuildEvent) => e.id, (e: GuildEvent) => e.id, options[0]))
  }

  /** For typed text, an event is offered exactly when its id contains the text, ignoring ASCII case. */
  lemma EventOfferedIffMatches(events: seq<GuildEvent>, typed: string, k: nat)
    requires typed != "" && k < |events|
    ensures var r := GuildEventAutocomplete("fetch_guild_event", [typed], Ok(events));
      Choice(events[k].id, events[k].id) in r.choices <==>
        exists i :: 0 <= i < |events| && events[i].id == events[k].id && Matches(events[i].id, typed)
  {
  }

  // -------------------------------------------------------------- users

  /** A user of the REST API; the handler uses only the id. */
  datatype ApiUser = ApiUser(id: string)

  /** The name shown for a user: the looked-up name, or the id when the lookup fails. */
  function DisplayName(u: ApiUser, username: string -> Result<string>): (n: string)
    ensures username(u.id).Ok? ==> n == username(u.id).value
    ensures username(u.id).Err? ==> n == u.id
  {
    match username(u.id)
    case Ok(name) => name
    case Err(_) => u.id
  }

  /**
   * `UserAutocomplete`: only for `fetch_user` with at least one option; a
   * fetch error answers with no choices; each choice shows the display name
   * and sends the user id.
   */
  function UserAutocomplete(commandName: string, options: seq<string>, users: Result<seq<ApiUser>>,
                            username: string -> Result<string>): (r: Answer)
    ensures r.NoAnswer? <==> commandName != "fetch_user" || options == []
    ensures r.Respond? && users.Err? ==> r.choices == []
    ensures r.Respond? && users.Ok? ==> forall c :: c in r.choices ==>
      exists i :: 0 <= i < |users.value| && c == Choice(DisplayName(users.value[i], username), users.value[i].id)
    ensures r.Respond? && users.Ok? && options[0] == "" ==> |r.choices| == |users.value|
  {
    if commandName != "fetch_user" || |options| == 0 then NoAnswer
    else
      match users
      case Err(_) => Respond([])
      case Ok(users) =>
        Respond(Suggest(users, (u: ApiUser) => DisplayName(u, username), (u: ApiUser) => u.id, options[0]))
  }

  /**
   * Typing nothing lists every user in order, under the looked-up name or,
   * when that lookup fails, under the id.
   */
  lemma EmptyTextListsEveryUser(users: seq<ApiUser>, username: string -> Result<string>, i: nat)
    requires i < |users|
    ensures var r := UserAutocomplete("fetch_user", [""], Ok(users), username);
      && |r.choices| == |users|
      && r.choices[i].value == users[i].id
      && (username(users[i].id).Err? ==> r.choices[i].name == users[i].id)
  {
  }

  /** For typed text, a user whose name lookup fails is offered exactly when the id contains the text. */
  lemma FailedLookupMatchesOnId(users: seq<ApiUser>, username: string -> Result<string>, typed: string, k: nat)
    requires typed != "" && k < |users| && username(users[k].id).Err?
    ensures var r := UserAutocomplete("fetch_user", [typed], Ok(users), username);
      Matches(users[k].id, typed) ==> Choice(users[k].id, users[k].id) in r.choices
  {
  }
}
