/**
 * The "Previous"/"Next" button handler of paged embeds
 * (internal/discord/buttons.go). Sessions are looked up by the id carried in
 * the button's custom id; the session's index is changed in place, so the
 * change survives even when rebuilding the embed panics. Session expiry
 * belongs to `PaginatedSessions`, which is not part of this model: a session
 * is either in the store or not.
 */
module PaginationButtons {
  import opened Wrappers
  import opened Text
  import opened Pagination

  type Sessions = map<string, PaginationData>

  /** Every stored session has a positive page size, as every session the commands create does. */
  predicate PositiveSizes(store: Sessions) {
    forall id :: id in store ==> store[id].pageSize > 0
  }

  const NotFound: string := "Pagination data not found or expired."
  const NotAllowed: string := "You are not allowed to change pages."

  datatype Reply =
    | NoReply
    | Message(content: string, ephemeral: bool)
    | Update(embed: Embed, components: seq<Button>)
    | Panic

  datatype Outcome = Outcome(store: Sessions, reply: Reply)

  /**
   * The index after a press: "prev" steps back while there is a page
   * before, "next" steps forward while there is a page after, any other
   * direction stays put.
   */
  function NextIndex(direction: string, index: int, amount: int): (j: int)
    ensures j == index || (direction == "prev" && j == index - 1) || (direction == "next" && j == index + 1)
    ensures j < index ==> j >= 0
    ensures j > index ==> j <= amount - 1
  {
    if direction == "prev" && index > 0 then index - 1
    else if direction == "next" && index < amount - 1 then index + 1
    else index
  }

  /**
   * `handlePaginationButton` pressed by `clicker` on a button with id
   * `customId`: an id of fewer than three "_"-parts is ignored, an unknown
   * session is answered publicly, a non-author privately; the author moves
   * the session's index and the message is rebuilt in place.
   */
  function HandlePaginationButton(store: Sessions, customId: string, clicker: string): (r: Outcome)
    requires PositiveSizes(store)
    ensures r.store.Keys == store.Keys
    ensures forall id :: id in store && r.store[id] != store[id] ==>
      && clicker == store[id].authorId
      && r.store[id] == store[id].(pageIndex := r.store[id].pageIndex)
    ensures PositiveSizes(r.store)
    ensures r.reply.Update? ==> |r.reply.components| == 2
  {
    var parts := SplitN(customId, '_', 3);
    if |parts| < 3 then Outcome(store, NoReply)
    else
      var direction, paginationId := parts[1], parts[2];
      if paginationId !in store then Outcome(store, Message(NotFound, false))
      else
        var pd := store[paginationId];
        if clicker != pd.authorId then Outcome(store, Message(NotAllowed, true))
        else
          var moved := pd.(pageIndex := NextIndex(direction, pd.pageIndex, PageAmount(pd)));
          var store' := store[paginationId := moved];
          match MakeEmbed(moved)
          case None => Outcome(store', Panic)
          case Some(embed) =>
            Outcome(store', Update(embed, Components(paginationId, moved.pageIndex, PageAmount(moved))))
  }

  /** The index of a session lies on one of its pages, or is 0 when there are none. */
  predicate InRange(pd: PaginationData)
    requires pd.pageSize > 0
  {
    0 <= pd.pageIndex <= if PageAmount(pd) > 0 then PageAmount(pd) - 1 else 0
  }

  predicate AllInRange(store: Sessions)
    requires PositiveSizes(store)
  {
    forall id :: id in store ==> InRange(store[id])
  }

  /** A press keeps every session's index on one of its pages, and then the embed never panics. */
  lemma PressKeepsIndexInRange(store: Sessions, customId: string, clicker: string)
    requires PositiveSizes(store) && AllInRange(store)
    ensures AllInRange(HandlePaginationButton(store, customId, clicker).store)
    ensures !HandlePaginationButton(store, customId, clicker).reply.Panic?
  {
    var r := HandlePaginationButton(store, customId, clicker);
    forall id | id in r.store
      ensures InRange(r.store[id])
    {
      assert PageAmount(r.store[id]) == PageAmount(store[id]);
    }
  }

  /**
   * Pressing a button the handler itself rendered for session `id`: the
   * author moves one page back or forward when there is one; anyone else is
   * refused and the session keeps its page.
   */
  lemma PressRenderedButton(store: Sessions, id: string, prev: bool, clicker: string)
    requires PositiveSizes(store) && id in store
    ensures var buttons := Components(id, store[id].pageIndex, PageAmount(store[id]));
      var pressed := if prev then buttons[0] else buttons[1];
      var r := HandlePaginationButton(store, pressed.customId, clicker);
      && (clicker != store[id].authorId ==> r == Outcome(store, Message(NotAllowed, true)))
      && (clicker == store[id].authorId ==>
            && id in r.store
            && r.store[id].pageIndex == (if pressed.disabled then store[id].pageIndex
                                         else if prev then store[id].pageIndex - 1
                                         else store[id].pageIndex + 1))
  {
    ButtonIdRoundTrip(id);
  }

  /** An id with no "_" at all, such as one of another component, gets no reply and changes nothing. */
  lemma ForeignIdIgnored(store: Sessions, customId: string, clicker: string)
    requires PositiveSizes(store) && '_' !in customId
    ensures HandlePaginationButton(store, customId, clicker) == Outcome(store, NoReply)
  {
    assert IndexOf(customId, '_') == -1;
  }

  /** An id naming no stored session is answered publicly and changes nothing. */
  lemma UnknownSessionReported(store: Sessions, direction: string, id: string, clicker: string)
    requires PositiveSizes(store) && id !in store && '_' !in direction
    ensures HandlePaginationButton(store, "page_" + direction + "_" + id, clicker)
         == Outcome(store, Message(NotFound, false))
  {
    assert "page_" + direction + "_" + id == "page" + ['_'] + direction + ['_'] + id;
    SplitNThree("page", direction, id, '_');
  }
}
