/**
 * Paged embeds (internal/utils/pagination.go): a session holds every field
 * of a listing and shows `pageSize` of them at a time, with a "Previous" and
 * a "Next" button whose custom ids carry the session id. The embed's
 * timestamp (`time.Now()`) and the session's creation instant are left out.
 */
module Pagination {
  import opened Wrappers
  import opened Text
  import opened Sections

  /** One embed field, as the `Section` interface exposes it. */
  datatype Section = Section(name: string, value: string, inline: bool)

  /** `PaginationData` without its creation instant. */
  datatype PaginationData = PaginationData(
    fields: seq<Section>,
    pageSize: int,
    pageIndex: int,
    description: string,
    authorId: string,
    title: string,
    footer: string,
    color: int)

  function Min(a: int, b: int): int {
    if a <= b then a else b
  }

  /**
   * `GetPageAmount` for a positive page size: the least number of pages of
   * `pageSize` fields that hold every field.
   */
  function PageAmount(data: PaginationData): (n: nat)
    requires data.pageSize > 0
    ensures n * data.pageSize >= |data.fields|
    ensures |data.fields| > 0 ==> (n - 1) * data.pageSize < |data.fields|
    ensures n == 0 <==> |data.fields| == 0
  {
    CeilDiv(|data.fields|, data.pageSize)
  }

  // ------------------------------------------------------------- buttons

  datatype Button = Button(caption: string, customId: string, disabled: bool)

  const PrevId: string := "page_prev_"
  const NextId: string := "page_next_"

  /**
   * `MakePaginationComponents`: "Previous" then "Next"; a button is disabled
   * when there is no page in its direction, and its id names the direction
   * and the session.
   */
  function Components(paginationId: string, pageIndex: int, totalPages: int): (r: seq<Button>)
    ensures |r| == 2
    ensures r[0].caption == "Previous" && r[1].caption == "Next"
    ensures r[0].customId == PrevId + paginationId && r[1].customId == NextId + paginationId
    ensures r[0].disabled <==> pageIndex - 1 < 0
    ensures r[1].disabled <==> pageIndex + 1 > totalPages - 1
  {
    [Button("Previous", PrevId + paginationId, pageIndex <= 0),
     Button("Next", NextId + paginationId, pageIndex >= totalPages - 1)]
  }

  /** A button id splits on "_" into "page", the direction and the whole session id, whatever the session id holds. */
  lemma ButtonIdRoundTrip(paginationId: string)
    ensures SplitN(PrevId + paginationId, '_', 3) == ["page", "prev", paginationId]
    ensures SplitN(NextId + paginationId, '_', 3) == ["page", "next", paginationId]
  {
    assert PrevId + paginationId == "page" + ['_'] + "prev" + ['_'] + paginationId;
    assert NextId + paginationId == "page" + ['_'] + "next" + ['_'] + paginationId;
    SplitNThree("page", "prev", paginationId, '_');
    SplitNThree("page", "next", paginationId, '_');
  }

  // --------------------------------------------------------- page slicing

  /**
   * The field loop of `MakePaginationEmbed` from iteration `i` on, for page
   * start `start`: it stops after `size` fields or at the end of `fields`,
   * and `None` is the index panic of a negative position.
   */
  function PageFrom(fields: seq<Section>, start: int, i: int, size: int): Option<seq<Section>>
    decreases size - i
  {
    if i >= size then Some([])
    else if |fields| - 1 < start + i then Some([])
    else if start + i < 0 then None
    else
      match PageFrom(fields, start, i + 1, size)
      case None => None
      case Some(rest) => Some([fields[start + i]] + rest)
  }

  /** The fields shown on the current page, or `None` when building it panics. */
  function PageFields(data: PaginationData): Option<seq<Section>> {
    PageFrom(data.fields, data.pageIndex * data.pageSize, 0, data.pageSize)
  }

  /** From a non-negative start, the loop copies the slice up to the page end, clipped to the fields. */
  lemma {:induction false} PageFromSlice(fields: seq<Section>, start: int, i: int, size: int)
    requires start >= 0 && 0 <= i <= size
    ensures PageFrom(fields, start, i, size)
         == Some(fields[Min(|fields|, start + i)..Min(|fields|, start + size)])
    decreases size - i
  {
    var hi := Min(|fields|, start + size);
    if i < size && start + i < |fields| {
      PageFromSlice(fields, start, i + 1, size);
      assert Min(|fields|, start + i + 1) == start + i + 1;
      assert fields[start + i..hi] == [fields[start + i]] + fields[start + i + 1..hi];
    } else {
      assert Min(|fields|, start + i) == hi;
      assert PageFrom(fields, start, i, size) == Some([]);
      assert fields[hi..hi] == [];
    }
  }

  /**
   * The page shown: for a positive size and a non-negative index it is the
   * slice `[index * size, (index + 1) * size)` clipped to the fields; a
   * negative index panics; a size of zero or less shows nothing.
   */
  lemma PageSlice(data: PaginationData)
    ensures data.pageSize > 0 && data.pageIndex >= 0 ==>
      var lo := data.pageIndex * data.pageSize;
      PageFields(data) == Some(data.fields[Min(|data.fields|, lo)..Min(|data.fields|, lo + data.pageSize)])
    ensures data.pageSize > 0 && data.pageIndex < 0 ==> PageFields(data) == None
    ensures data.pageSize <= 0 ==> PageFields(data) == Some([])
  {
    var size, index := data.pageSize, data.pageIndex;
    if size > 0 && index >= 0 {
      assert index * size >= 0;
      PageFromSlice(data.fields, index * size, 0, size);
    } else if size > 0 {
      assert index * size <= -1;
    }
  }

  /** A page never holds more than `pageSize` fields. */
  lemma PageBounded(data: PaginationData)
    requires PageFields(data).Some?
    ensures |PageFields(data).value| <= if data.pageSize > 0 then data.pageSize else 0
  {
    PageSlice(data);
    if data.pageSize > 0 && data.pageIndex >= 0 {
      var lo := data.pageIndex * data.pageSize;
      assert lo >= 0;
    }
  }

  /** The pages `0 .. k - 1` one after the other, or `None` when one of them panics. */
  function Browse(data: PaginationData, k: nat): Option<seq<Section>> {
    if k == 0 then Some([])
    else
      match (Browse(data, k - 1), PageFields(data.(pageIndex := k - 1)))
      case (Some(before), Some(page)) => Some(before + page)
      case _ => None
  }

  /** Paging through the first `k` pages shows the fields before `k * pageSize`, in order. */
  lemma {:induction false} BrowsePrefix(data: PaginationData, k: nat)
    requires data.pageSize > 0
    ensures Browse(data, k) == Some(data.fields[..Min(|data.fields|, k * data.pageSize)])
  {
    if k > 0 {
      BrowsePrefix(data, k - 1);
      var size := data.pageSize;
      PageSlice(data.(pageIndex := k - 1));
      var lo := (k - 1) * size;
      assert lo + size == k * size;
      assert lo >= 0;
      var n := |data.fields|;
      assert data.fields[..Min(n, lo)] + data.fields[Min(n, lo)..Min(n, lo + size)]
          == data.fields[..Min(n, k * size)];
    }
  }

  /** Paging from the first page to the last `GetPageAmount` page shows every field exactly once, in order. */
  lemma PagesCoverFields(data: PaginationData)
    requires data.pageSize > 0
    ensures Browse(data, PageAmount(data)) == Some(data.fields)
  {
    BrowsePrefix(data, PageAmount(data));
    assert data.fields[..|data.fields|] == data.fields;
  }

  // ---------------------------------------------------------------- embed

  /**
   * The footer: "Page: " with the zero-based index over ceil(|fields| / 5),
   * a total computed with 5 whatever the page size.
   */
  function Footer(data: PaginationData): string {
    "Page: " + Itoa(data.pageIndex) + "/" + Itoa(CeilDiv(|data.fields|, 5))
  }

  /** The footer's total is the page amount when pages hold 5 fields, and does not follow the page size. */
  lemma FooterTotal(data: PaginationData, size: int)
    ensures data.pageSize == 5 ==>
      Footer(data) == "Page: " + Itoa(data.pageIndex) + "/" + Itoa(PageAmount(data))
    ensures Footer(data.(pageSize := size)) == Footer(data)
  {
  }

  /** With six fields in pages of two there are three pages, yet the footer's total is ceil(6 / 5) = 2. */
  lemma FooterDisagreesWithPageAmount(data: PaginationData)
    requires |data.fields| == 6 && data.pageSize == 2 && data.pageIndex == 0
    ensures PageAmount(data) == 3
    ensures Footer(data) == "Page: 0/2"
  {
    assert CeilDiv(6, 2) == 3 by {
      assert CeilDiv(0, 2) == 0;
      assert CeilDiv(2, 2) == 1;
      assert CeilDiv(4, 2) == 2;
    }
    assert CeilDiv(6, 5) == 2 by {
      assert CeilDiv(-4, 5) == 0;
      assert CeilDiv(1, 5) == 1;
    }
    assert Itoa(0) == "0" && Itoa(2) == "2";
  }

  datatype Embed = Embed(title: string, description: string, color: int, footer: string, fields: seq<Section>)

  /**
   * `MakePaginationEmbed`: title, description and colour of the session,
   * the footer, and the current page's fields; `None` when the page loop
   * panics, which happens exactly for a negative index with a positive size.
   */
  function MakeEmbed(data: PaginationData): (r: Option<Embed>)
    ensures r.None? <==> data.pageSize > 0 && data.pageIndex < 0
    ensures r.Some? ==> PageFields(data) == Some(r.value.fields)
    ensures r.Some? ==> |r.value.fields| <= if data.pageSize > 0 then data.pageSize else 0
  {
    PageSlice(data);
    match PageFields(data)
    case None => None
    case Some(page) =>
      PageBounded(data);
      Some(Embed(data.title, data.description, data.color, Footer(data), page))
  }

  /**
   * `SendInitialPaginationResponse`: the embed of the current page and the
   * buttons for at least one page, so a listing with no fields still shows
   * one page with both buttons disabled. `None` is the embed's panic.
   */
  function InitialResponse(paginationId: string, data: PaginationData): (r: Option<(Embed, seq<Button>)>)
    requires data.pageSize > 0
    ensures r.None? <==> data.pageIndex < 0
    ensures r.Some? ==> Some(r.value.0) == MakeEmbed(data)
    ensures r.Some? ==> r.value.1 == Components(paginationId, data.pageIndex, if PageAmount(data) < 1 then 1 else PageAmount(data))
  {
    match MakeEmbed(data)
    case None => None
    case Some(embed) =>
      var totalPages := PageAmount(data);
      var totalPages := if totalPages < 1 then 1 else totalPages;
      Some((embed, Components(paginationId, data.pageIndex, totalPages)))
  }

  /** On its first page, a listing of at most one page shows both buttons disabled; a longer one enables only "Next". */
  lemma FirstPageButtons(paginationId: string, data: PaginationData)
    requires data.pageSize > 0 && data.pageIndex == 0
    ensures InitialResponse(paginationId, data).Some?
    ensures var buttons := InitialResponse(paginationId, data).value.1;
      && buttons[0].disabled
      && (buttons[1].disabled <==> |data.fields| <= data.pageSize)
  {
  }
}
