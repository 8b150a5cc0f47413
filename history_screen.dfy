/** The history screen: the user's emotion rows, newest first, fetched ten at
    a time, with pull-to-refresh starting over and reaching the end of the
    list fetching the next page while more rows exist. */
module HistoryScreen {
  import opened Wrappers
  import FaceAnalysis

  const PageSize := 10

  /** One row of the `emotions` table as the screen lists it. */
  datatype Row = Row(id: string, emotion: Option<string>, createdAt: string)

  /** `EMOTION_ICONS`, in declaration order. */
  const Icons: seq<(string, string)> := [
    ("Злой", "emoticon-angry-outline"), ("Отвращение", "emoticon-poop"),
    ("Страх", "emoticon-frown-outline"), ("Счастливый", "emoticon-happy-outline"),
    ("Грустный", "emoticon-sad-outline"), ("Удивление", "emoticon-excited-outline"),
    ("Нейтральный", "emoticon-neutral-outline"), ("Неизвестно", "emoticon-confused-outline")]

  const UnknownIcon := "emoticon-confused-outline"

  /** One of the icons of the table. */
  predicate IsIcon(icon: string)
  {
    exists i :: 0 <= i < |Icons| && Icons[i].1 == icon
  }

  /** `emotion || 'Неизвестно'` */
  function IconKey(emotion: Option<string>): (key: string)
    ensures emotion.None? || emotion.value == "" ==> key == "Неизвестно"
    ensures emotion.Some? && emotion.value != "" ==> key == emotion.value
  {
    if emotion.Some? && emotion.value != "" then emotion.value else "Неизвестно"
  }

  /** `getEmotionIcon`: the icon of the emotion; a missing or empty emotion,
      or one without an icon, gets the icon of 'Неизвестно'. */
  function EmotionIcon(emotion: Option<string>): (icon: string)
    ensures Lookup(Icons, IconKey(emotion)).None? ==> icon == UnknownIcon
    ensures Lookup(Icons, IconKey(emotion)).Some? ==> icon == Lookup(Icons, IconKey(emotion)).value
  {
    match Lookup(Icons, IconKey(emotion))
    case Some(icon) => icon
    case None => UnknownIcon
  }

  /** Every emotion gets one of the table's icons, and a missing or empty
      one gets the icon of 'Неизвестно'. */
  lemma EmotionIconInTable(emotion: Option<string>)
    ensures IsIcon(EmotionIcon(emotion))
    ensures emotion.None? || emotion.value == "" ==> EmotionIcon(emotion) == UnknownIcon
  {
    var key := IconKey(emotion);
    assert Icons[7] == ("Неизвестно", UnknownIcon);
    match Lookup(Icons, key)
    case Some(icon) =>
      var i :| 0 <= i < |Icons| && Icons[i] == (key, icon);
    case None =>
  }

  /** Only 'Неизвестно' and names without an icon share the fallback icon:
      the other seven labels each have an icon of their own. */
  lemma IconsDistinct(i: nat, j: nat)
    requires i < j < |Icons|
    ensures Icons[i].0 != Icons[j].0 && Icons[i].1 != Icons[j].1
  {
  }

  /** The face analysis's labels, in table order, are the icon table's keys:
      each stored label has an icon of its own, and only 'Неизвестно' is
      shown with the fallback icon. */
  lemma TranslationsHaveIcons(i: nat)
    requires i < |FaceAnalysis.LabelTranslations|
    ensures var emotion := FaceAnalysis.LabelTranslations[i].1;
      && EmotionIcon(Some(emotion)) == Icons[i].1
      && (EmotionIcon(Some(emotion)) == UnknownIcon <==> emotion == "Неизвестно")
  {
    assert Icons[i].0 == FaceAnalysis.LabelTranslations[i].1;
    forall j | 0 <= j < i ensures Icons[j].0 != Icons[i].0 {
      IconsDistinct(j, i);
    }
    LookupFinds(Icons, i);
    if i < 7 {
      IconsDistinct(i, 7);
    }
  }

  /** `currentPage * PAGE_SIZE`, where a reset starts from page 0. */
  function Offset(reset: bool, page: nat): (offset: nat)
    ensures reset ==> offset == 0
    ensures offset % PageSize == 0
  {
    (if reset then 0 else page) * PageSize
  }

  /** `(count || 0) > offset + PAGE_SIZE`: rows exist past this page. */
  predicate MoreAfter(count: int, offset: nat)
  {
    count > offset + PageSize
  }

  /** What the screen shows and where it continues from. */
  datatype View = View(history: seq<Row>, page: nat, hasMore: bool)

  /** The page counter as written: 0 after a reset, one more otherwise. */
  function NextPageAsWritten(reset: bool, page: nat): (next: nat)
    ensures reset ==> Offset(false, next) == Offset(reset, page)
    ensures !reset ==> Offset(false, next) == Offset(reset, page) + PageSize
  {
    if reset then 0 else page + 1
  }

  /** The page counter as intended: the page after the one just fetched. */
  function NextPage(reset: bool, page: nat): (next: nat)
    ensures Offset(false, next) == Offset(reset, page) + PageSize
  {
    (if reset then 0 else page) + 1
  }

  /** A successful fetch of `data` with total `count`: a reset replaces the
      list, a further page is appended to it. */
  function Fetched(v: View, reset: bool, data: seq<Row>, count: int, next: nat): (w: View)
    ensures reset ==> w.history == data
    ensures !reset ==> w.history == v.history + data
    ensures w.hasMore <==> count > Offset(reset, v.page) + PageSize
    ensures w.page == next
  {
    View(if reset then data else v.history + data, next, MoreAfter(count, Offset(reset, v.page)))
  }

  // ---------------------------------------------------------------------------
  // Paging through a table

  /** The screen after a refresh and then `k` load-mores, each triggered
      while `hasMore` held, with the intended page counter. */
  function Walk(table: seq<Row>, k: nat): (w: View)
    ensures w.page == k + 1
    ensures |w.history| <= PageSize * (k + 1)
  {
    if k == 0 then Fetched(View([], 0, true), true, Window(table, 0, PageSize), |table|, NextPage(true, 0))
    else
      var v := Walk(table, k - 1);
      Fetched(v, false, Window(table, Offset(false, v.page), PageSize), |table|, NextPage(false, v.page))
  }

  /** The same walk with the page counter as written. */
  function WalkAsWritten(table: seq<Row>, k: nat): (w: View)
    ensures w.page == k
    ensures |w.history| <= PageSize * (k + 1)
  {
    if k == 0 then Fetched(View([], 0, true), true, Window(table, 0, PageSize), |table|, NextPageAsWritten(true, 0))
    else
      var v := WalkAsWritten(table, k - 1);
      Fetched(v, false, Window(table, Offset(false, v.page), PageSize), |table|, NextPageAsWritten(false, v.page))
  }

  /** With the intended counter, every load-more continues where the last
      page ended: after a refresh and `k` load-mores the list is exactly the
      first `10(k+1)` rows, each once and in order, and more are offered
      exactly while rows remain. */
  lemma {:induction false} WalkShowsPrefix(table: seq<Row>, k: nat)
    requires k == 0 || |table| > PageSize * k
    ensures Walk(table, k) == View(table[..Min(PageSize * (k + 1), |table|)], k + 1, |table| > PageSize * (k + 1))
  {
    if k > 0 {
      WalkShowsPrefix(table, k - 1);
      WalkStep(table, k);
    }
  }

  /** One load-more after the first `10k` rows are shown appends the next
      page. */
  lemma WalkStep(table: seq<Row>, k: nat)
    requires k > 0 && |table| > PageSize * k
    requires Walk(table, k - 1) == View(table[..PageSize * k], k, true)
    ensures Walk(table, k) == View(table[..Min(PageSize * (k + 1), |table|)], k + 1, |table| > PageSize * (k + 1))
  {
    var v := Walk(table, k - 1);
    assert Offset(false, v.page) == PageSize * k;
    var hi := Min(PageSize * (k + 1), |table|);
    assert Window(table, PageSize * k, PageSize) == table[PageSize * k..hi];
    assert table[..PageSize * k] + table[PageSize * k..hi] == table[..hi];
  }

  /** As written, the first load-more after a refresh asks for offset 0
      again, so the first page is listed twice. */
  lemma FirstPageTwiceAsWritten(table: seq<Row>)
    requires |table| > PageSize
    ensures WalkAsWritten(table, 0).hasMore
    ensures WalkAsWritten(table, 1).history == table[..PageSize] + table[..PageSize]
    ensures Walk(table, 1).history == table[..Min(2 * PageSize, |table|)]
  {
    WalkShowsPrefix(table, 1);
  }

  // ---------------------------------------------------------------------------
  // The screen

  /** The range one query asks for, both ends included. */
  datatype Range = Range(first: nat, last: nat)

  class HistoryScreenState {
    var history: seq<Row>
    var page: nat
    var hasMore: bool
    var loading: bool
    var refreshing: bool
    var queries: seq<Range>

    constructor ()
      ensures history == [] && page == 0 && hasMore && loading && !refreshing && queries == []
    {
      history, page, hasMore := [], 0, true;
      loading, refreshing := true, false;
      queries := [];
    }

    function ViewOf(): View
      reads this
    {
      View(history, page, hasMore)
    }

    /** `fetchHistory(reset)`, with the user's id (if any) and the query's
      answer. Without a user nothing is asked; a failed query changes
      nothing; a successful one updates the view. `loading` and
      `refreshing` always end false. */
    method FetchHistory(reset: bool, userId: Option<string>, result: QueryResult<Row>)
      modifies this
      ensures !loading && !refreshing
      ensures userId.None? ==> ViewOf() == old(ViewOf()) && queries == old(queries)
      ensures userId.Some? ==>
        queries == old(queries) + [Range(Offset(reset, old(page)), Offset(reset, old(page)) + PageSize - 1)]
      ensures result.QueryFailed? ==> ViewOf() == old(ViewOf())
      ensures userId.Some? && result.QueryOk? ==>
        ViewOf() == Fetched(old(ViewOf()), reset, RowsOrEmpty(result.data), CountOrZero(result.count), NextPage(reset, old(page)))
    {
      var offset := Offset(reset, page);
      if userId.Some? {
        queries := queries + [Range(offset, offset + PageSize - 1)];
        if result.QueryOk? {
          var data := RowsOrEmpty(result.data);
          hasMore := MoreAfter(CountOrZero(result.count), offset);
          history := if reset then data else history + data;
          page := NextPage(reset, page);
        }
      }
      loading, refreshing := false, false;
    }

    /** `handleRefresh`: start over from the first page. */
    method Refresh(userId: Option<string>, result: QueryResult<Row>)
      modifies this
      ensures !loading && !refreshing
      ensures userId.Some? && result.QueryOk? ==>
        ViewOf() == Fetched(old(ViewOf()), true, RowsOrEmpty(result.data), CountOrZero(result.count), 1)
      ensures userId.None? || result.QueryFailed? ==> ViewOf() == old(ViewOf())
      ensures userId.Some? ==> queries == old(queries) + [Range(0, PageSize - 1)]
      ensures userId.None? ==> queries == old(queries)
    {
      refreshing := true;
      FetchHistory(true, userId, result);
    }

    /** `onEndReached`: the next page is fetched only while `hasMore`. */
    method EndReached(userId: Option<string>, result: QueryResult<Row>)
      modifies this
      ensures !old(hasMore) ==>
        && ViewOf() == old(ViewOf()) && queries == old(queries)
        && loading == old(loading) && refreshing == old(refreshing)
      ensures old(hasMore) && userId.Some? && result.QueryOk? ==>
        history == old(history) + RowsOrEmpty(result.data) && page == old(page) + 1
      ensures old(hasMore) ==> !loading && !refreshing
      ensures old(hasMore) && userId.Some? ==>
        queries == old(queries) + [Range(Offset(false, old(page)), Offset(false, old(page)) + PageSize - 1)]
      ensures old(hasMore) && (userId.None? || result.QueryFailed?) ==>
        ViewOf() == old(ViewOf()) && (userId.None? ==> queries == old(queries))
      ensures old(hasMore) && userId.Some? && result.QueryOk? ==>
        ViewOf() == Fetched(old(ViewOf()), false, RowsOrEmpty(result.data), CountOrZero(result.count), NextPage(false, old(page)))
    {
      if hasMore {
        FetchHistory(false, userId, result);
      }
    }
  }
}
