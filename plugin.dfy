/** The trip plugin's search handler and its helpers: it splits the search
    path segment, builds the store query, ranks the scored trips the store
    returns by relevance, falls back to all trips of the city when nothing
    scored, and paginates by offset. Also the query-date and picture-redirect
    helpers of the other trip routes. */
module Plugin {
  import opened Wrappers
  import Strings
  import Search

  /** The request's query string. `None` stands for a parameter that is
      missing or blank; a given "0" is `Some(0)`, which is truthy. */
  datatype RequestQuery = RequestQuery(
    moods: Option<string>,
    startDate: Option<Search.Date>,
    endDate: Option<Search.Date>,
    persons: Option<int>,
    days: Option<int>,
    page: Option<int>,
    pageSize: Option<int>,
    date: Option<Search.Date>)

  /** A search request: the `{opts}` path segment and the query string. */
  datatype Request = Request(opts: string, query: RequestQuery)

  /** What a store call hands back: an error or the data. */
  datatype StoreResult<T> = StoreError(message: string) | Found(data: seq<T>)

  /** The handler's reply: an error status, a page of ranked trips, or a page
      of the city's trips when nothing scored. */
  datatype Reply =
    | BadRequest(status: int, message: string)
    | RankedPage(trips: seq<Search.Scored>)
    | CityPage(docs: seq<Search.Doc>)

  const OptsSeparator: char := '.'
  const BadRequestStatus: int := 400
  const DefaultPage: int := 1
  const DefaultPageSize: int := 10
  const DataRoute: string := "/api/v1/data/"

  function Min(a: int, b: int): int { if a <= b then a else b }
  function Max(a: int, b: int): int { if a >= b then a else b }

  // ---------------------------------------------------------------------------
  // The search path segment and the store query
  // ---------------------------------------------------------------------------

  /** The city: the first `.`-separated piece of the path segment, that is the
      text before the first `.`, or the whole segment when it has none. */
  function CityOf(opts: string): (city: string)
    ensures city <= opts && OptsSeparator !in city
    ensures |city| == |opts| || opts[|city|] == OptsSeparator
  {
    Strings.Split(opts, OptsSeparator)[0]
  }

  /** The split pieces, city first, join back into the path segment. */
  lemma OptsRoundTrip(opts: string)
    ensures var parts := Strings.Split(opts, OptsSeparator);
      parts[0] == CityOf(opts) && Strings.Join(parts, OptsSeparator) == opts
  {
    Strings.JoinSplit(opts, OptsSeparator);
  }

  /** The store query. Missing moods become "", missing dates and numbers stay
      blank; the query never carries budget or accommodations. */
  function BuildQuery(req: Request): (q: Search.Query)
    ensures q.city == Some(CityOf(req.opts)) && !Search.IsEmptyQuery(q)
    ensures req.query.moods.None? ==> q.moods == ""
    ensures req.query.moods.Some? ==> q.moods == req.query.moods.value
    ensures q.startDate == req.query.startDate && q.endDate == req.query.endDate
    ensures q.persons == req.query.persons && q.days == req.query.days
    ensures q.budget.None? && q.accommodations.None?
  {
    Search.Query(
      city := Some(CityOf(req.opts)),
      moods := req.query.moods.GetOr(""),
      startDate := req.query.startDate,
      endDate := req.query.endDate,
      budget := None,
      persons := req.query.persons,
      days := req.query.days,
      accommodations := None)
  }

  /** The moods come from the query string only: whatever follows the city in
      the path segment does not change the store query. */
  lemma PathMoodsIgnored(city: string, tail: string, rq: RequestQuery)
    requires OptsSeparator !in city
    ensures BuildQuery(Request(city + [OptsSeparator] + tail, rq)) == BuildQuery(Request(city, rq))
  {
    Strings.SplitAfterPiece(city, tail, OptsSeparator);
    Strings.SplitWithoutSeparator(city, OptsSeparator);
  }

  // ---------------------------------------------------------------------------
  // Pagination
  // ---------------------------------------------------------------------------

  datatype PaginationOption = PaginationOption(pageSize: int, offset: int)

  /** The page size and the offset of the first item of the requested page;
      the page defaults to 1 and the page size to 10. */
  function GetPaginationOption(rq: RequestQuery): (o: PaginationOption)
    ensures rq.pageSize.None? ==> o.pageSize == DefaultPageSize
    ensures rq.pageSize.Some? ==> o.pageSize == rq.pageSize.value
    ensures rq.page.None? ==> o.offset == 0
    ensures rq.page.Some? ==> o.offset == (rq.page.value - 1) * o.pageSize
  {
    var page := rq.page.GetOr(DefaultPage);
    var pageSize := rq.pageSize.GetOr(DefaultPageSize);
    PaginationOption(pageSize, (page - 1) * pageSize)
  }

  /** An index argument of JavaScript's `slice` resolved against a length:
      a negative index counts from the end, and the result is clamped. */
  function ResolveIndex(i: int, n: nat): (r: nat)
    ensures r <= n
    ensures 0 <= i ==> r == Min(i, n)
    ensures i < 0 ==> r == Max(n + i, 0)
  {
    if i < 0 then (if n + i < 0 then 0 else n + i) else if i > n then n else i
  }

  /** JavaScript's `slice(start, end)`: the items from the resolved start up
      to the resolved end, or none when the end does not lie past the start. */
  function Slice<T>(s: seq<T>, start: int, end: int): seq<T> {
    var a, b := ResolveIndex(start, |s|), ResolveIndex(end, |s|);
    if a < b then s[a..b] else []
  }

  /** The requested page: the items from the offset on (underscore's `rest`),
      then at most a page size of them. */
  function GetPaginatedItems<T>(rq: RequestQuery, data: seq<T>): (items: seq<T>)
    ensures |items| <= |data|
    ensures forall x :: x in items ==> x in data
  {
    var o := GetPaginationOption(rq);
    Slice(Slice(data, o.offset, |data|), 0, o.pageSize)
  }

  /** `slice(start)` with a non-negative start drops the first `start` items. */
  lemma SliceFrom<T>(s: seq<T>, start: int)
    requires start >= 0
    ensures Slice(s, start, |s|) == s[Min(start, |s|)..]
  {
  }

  /** `slice(0, k)` with a non-negative k keeps the first k items. */
  lemma SliceTake<T>(s: seq<T>, k: int)
    requires k >= 0
    ensures Slice(s, 0, k) == s[..Min(k, |s|)]
  {
  }

  /** A product of two non-negative numbers is non-negative. */
  lemma ProductNonNegative(a: int, b: int)
    requires a >= 0 && b >= 0
    ensures a * b >= 0
  {
  }

  /** For a page of at least 1 and a non-negative page size, the page is the
      window of the data from the offset, at most a page size long, in the
      data's order; a page past the end is empty, not an error. */
  lemma PaginatedWindow<T>(rq: RequestQuery, data: seq<T>)
    requires rq.page.GetOr(DefaultPage) >= 1 && rq.pageSize.GetOr(DefaultPageSize) >= 0
    ensures var o := GetPaginationOption(rq);
      && 0 <= o.offset
      && GetPaginatedItems(rq, data) == data[Min(o.offset, |data|)..Min(o.offset + o.pageSize, |data|)]
      && |GetPaginatedItems(rq, data)| == Min(o.pageSize, Max(0, |data| - o.offset))
      && (o.offset >= |data| ==> GetPaginatedItems(rq, data) == [])
  {
    var o := GetPaginationOption(rq);
    var page := rq.page.GetOr(DefaultPage);
    ProductNonNegative(page - 1, o.pageSize);
    var off, size := o.offset, o.pageSize;
    assert off >= 0;
    SliceFrom(data, off);
    var lo := Min(off, |data|);
    var rest := data[lo..];
    SliceTake(rest, size);
    var b := Min(size, |rest|);
    assert GetPaginatedItems(rq, data) == rest[..b];
    assert rest[..b] == data[lo..lo + b];
  }

  /** Without page parameters the reply is the first ten items. */
  lemma DefaultPageIsFirstTen<T>(rq: RequestQuery, data: seq<T>)
    requires rq.page.None? && rq.pageSize.None?
    ensures GetPaginatedItems(rq, data) == data[..Min(DefaultPageSize, |data|)]
  {
    PaginatedWindow(rq, data);
  }

  /** Two consecutive pages together are the data's window over both. */
  lemma ConsecutivePages<T>(rq: RequestQuery, p: int, data: seq<T>)
    requires p >= 1 && rq.pageSize.GetOr(DefaultPageSize) >= 0
    ensures var size := rq.pageSize.GetOr(DefaultPageSize);
      GetPaginatedItems(rq.(page := Some(p)), data) + GetPaginatedItems(rq.(page := Some(p + 1)), data)
      == data[Min((p - 1) * size, |data|)..Min((p + 1) * size, |data|)]
  {
    var size := rq.pageSize.GetOr(DefaultPageSize);
    PaginatedWindow(rq.(page := Some(p)), data);
    PaginatedWindow(rq.(page := Some(p + 1)), data);
    assert (p + 1 - 1) * size == (p - 1) * size + size;
    assert (p - 1) * size >= 0;
  }

  /** Page 0 gives a negative offset, which `slice` counts from the end: the
      reply is the last page-size items. */
  lemma PageZeroGivesLastItems<T>(rq: RequestQuery, data: seq<T>)
    requires rq.page == Some(0) && rq.pageSize.GetOr(DefaultPageSize) > 0
    ensures GetPaginatedItems(rq, data) == data[Max(|data| - rq.pageSize.GetOr(DefaultPageSize), 0)..]
  {
    var size := rq.pageSize.GetOr(DefaultPageSize);
    assert GetPaginationOption(rq).offset == -size;
    var rest := Slice(data, -size, |data|);
    assert rest == data[Max(|data| - size, 0)..];
    assert |rest| <= size;
  }

  // ---------------------------------------------------------------------------
  // Ranking
  // ---------------------------------------------------------------------------

  /** Relevance never increases along the sequence. */
  predicate SortedByRelevance(s: seq<Search.Scored>) {
    forall i, j :: 0 <= i < j < |s| ==> s[i].relevance >= s[j].relevance
  }

  /** The sort callback: positive when `a` belongs after `b`, negative when
      before, zero on equal relevance. */
  function Compare(a: Search.Scored, b: Search.Scored): (r: int)
    ensures r > 0 <==> a.relevance < b.relevance
    ensures r < 0 <==> a.relevance > b.relevance
  {
    if a.relevance < b.relevance then 1
    else if a.relevance > b.relevance then -1
    else 0
  }

  /** Exchanges two neighbouring items. */
  method SwapWithPrevious(a: array<Search.Scored>, j: int)
    requires 0 < j < a.Length
    modifies a
    ensures a[j - 1] == old(a[j]) && a[j] == old(a[j - 1])
    ensures forall k :: 0 <= k < a.Length && k != j - 1 && k != j ==> a[k] == old(a[k])
    ensures multiset(a[..]) == old(multiset(a[..]))
  {
    a[j - 1], a[j] := a[j], a[j - 1];
  }

  /** Two arrangements of the same items that agree from position n on hold
      the same items before n. */
  lemma SameItemsBeforeSameSuffix<T>(s: seq<T>, t: seq<T>, n: nat)
    requires n <= |s| == |t| && multiset(s) == multiset(t)
    requires forall k :: n <= k < |s| ==> s[k] == t[k]
    ensures s[n..] == t[n..]
    ensures multiset(s[..n]) == multiset(t[..n])
  {
    assert s[n..] == t[n..];
    assert s == s[..n] + s[n..];
    assert t == t[..n] + t[n..];
    var ms, mt, rest := multiset(s[..n]), multiset(t[..n]), multiset(s[n..]);
    assert multiset(s) == ms + rest && multiset(t) == mt + rest;
    forall x
      ensures ms[x] == mt[x]
    {
      assert (ms + rest)[x] == (mt + rest)[x];
    }
  }

  /** The state of one pass while the item that started at i sits at j:
      the other first i + 1 items are in order, and the moving item ranks
      strictly above everything it has passed. */
  ghost predicate PassOrdered(s: seq<Search.Scored>, i: int, j: int)
    requires 0 <= j <= i < |s|
  {
    (forall k, m :: 0 <= k < m <= i && k != j && m != j ==> s[k].relevance >= s[m].relevance) &&
    (forall m :: j < m <= i ==> s[j].relevance > s[m].relevance)
  }

  /** Swapping the moving item with a lower-ranked predecessor keeps the
      pass's state one position further left. */
  lemma SwapKeepsPassOrdered(s: seq<Search.Scored>, t: seq<Search.Scored>, i: int, j: int)
    requires 0 < j <= i < |s| == |t|
    requires PassOrdered(s, i, j) && s[j - 1].relevance < s[j].relevance
    requires t[j - 1] == s[j] && t[j] == s[j - 1]
    requires forall k :: 0 <= k < |s| && k != j - 1 && k != j ==> t[k] == s[k]
    ensures PassOrdered(t, i, j - 1)
  {
  }

  /** When the moving item meets a predecessor ranked at least as high (or
      the front), the first i + 1 items are in order. */
  lemma PassDone(s: seq<Search.Scored>, i: int, j: int)
    requires 0 <= j <= i < |s|
    requires PassOrdered(s, i, j)
    requires j == 0 || s[j - 1].relevance >= s[j].relevance
    ensures forall k, m :: 0 <= k < m <= i ==> s[k].relevance >= s[m].relevance
  {
  }

  /** One pass of the sort: moves `a[i]` left past every item the callback
      places after it, so that the first i + 1 items are in order. */
  method InsertAt(a: array<Search.Scored>, i: int)
    requires 0 <= i < a.Length
    requires forall k, m :: 0 <= k < m < i ==> a[k].relevance >= a[m].relevance
    modifies a
    ensures forall k, m :: 0 <= k < m <= i ==> a[k].relevance >= a[m].relevance
    ensures multiset(a[..]) == old(multiset(a[..]))
    ensures a[i + 1..] == old(a[i + 1..])
    ensures multiset(a[..i + 1]) == old(multiset(a[..i + 1]))
  {
    var j := i;
    while j > 0 && Compare(a[j - 1], a[j]) > 0
      invariant 0 <= j <= i
      invariant PassOrdered(a[..], i, j)
      invariant multiset(a[..]) == old(multiset(a[..]))
      invariant forall k :: i < k < a.Length ==> a[k] == old(a[k])
    {
      ghost var s := a[..];
      SwapWithPrevious(a, j);
      SwapKeepsPassOrdered(s, a[..], i, j);
      j := j - 1;
    }
    PassDone(a[..], i, j);
    assert a[i + 1..] == old(a[i + 1..]) && multiset(a[..i + 1]) == old(multiset(a[..i + 1])) by {
      SameItemsBeforeSameSuffix(a[..], old(a[..]), i + 1);
    }
  }

  /** Sorts the array in place with the callback, by insertion: relevance
      never increases afterwards and the array holds the same items. */
  method SortByRelevance(a: array<Search.Scored>)
    modifies a
    ensures SortedByRelevance(a[..])
    ensures multiset(a[..]) == old(multiset(a[..]))
  {
    var i := 0;
    while i < a.Length
      invariant 0 <= i <= a.Length
      invariant forall k, m :: 0 <= k < m < i ==> a[k].relevance >= a[m].relevance
      invariant multiset(a[..]) == old(multiset(a[..]))
    {
      InsertAt(a, i);
      i := i + 1;
    }
  }

  /** Pagination runs after the full sort, so every item on a page has at
      least the relevance of every item after that page. */
  lemma PageOutranksLaterItems(rq: RequestQuery, ranked: seq<Search.Scored>)
    requires SortedByRelevance(ranked)
    requires rq.page.GetOr(DefaultPage) >= 1 && rq.pageSize.GetOr(DefaultPageSize) >= 0
    ensures var o := GetPaginationOption(rq);
      forall x, j :: x in GetPaginatedItems(rq, ranked) && Min(o.offset + o.pageSize, |ranked|) <= j < |ranked|
        ==> x.relevance >= ranked[j].relevance
  {
    PaginatedWindow(rq, ranked);
    var o := GetPaginationOption(rq);
    var lo, hi := Min(o.offset, |ranked|), Min(o.offset + o.pageSize, |ranked|);
    forall x, j | x in GetPaginatedItems(rq, ranked) && hi <= j < |ranked|
      ensures x.relevance >= ranked[j].relevance
    {
      var k :| lo <= k < hi && ranked[k] == x;
    }
  }

  // ---------------------------------------------------------------------------
  // The search handler
  // ---------------------------------------------------------------------------

  /** The search handler. `searchTripsByQuery` and `getTripsByCity` stand for
      the store's answers. A store error becomes a 400 reply; otherwise a
      non-empty scored list is sorted in place and paginated, and an empty one
      is replaced by the city's trips, paginated the same way. The second
      result is the scored list as the sort leaves it. */
  method SearchTrips(
    req: Request,
    searchTripsByQuery: Search.Query -> StoreResult<Search.Scored>,
    getTripsByCity: string -> StoreResult<Search.Doc>)
    returns (reply: Reply, ranked: seq<Search.Scored>)
    ensures var found := searchTripsByQuery(BuildQuery(req));
      found.StoreError? ==> reply == BadRequest(BadRequestStatus, found.message)
    ensures var found := searchTripsByQuery(BuildQuery(req));
      found.Found? && found.data != [] ==>
        && SortedByRelevance(ranked)
        && multiset(ranked) == multiset(found.data)
        && reply == RankedPage(GetPaginatedItems(req.query, ranked))
    ensures var found := searchTripsByQuery(BuildQuery(req));
      found.Found? && found.data == [] ==>
        var byCity := getTripsByCity(CityOf(req.opts));
        reply == if byCity.StoreError? then BadRequest(BadRequestStatus, byCity.message)
                 else CityPage(GetPaginatedItems(req.query, byCity.data))
  {
    var query := BuildQuery(req);
    ranked := [];
    var found := searchTripsByQuery(query);
    if found.StoreError? {
      reply := BadRequest(BadRequestStatus, found.message);
      return;
    }
    if |found.data| > 0 {
      var data := new Search.Scored[|found.data|](i requires 0 <= i < |found.data| => found.data[i]);
      assert data[..] == found.data;
      SortByRelevance(data);
      ranked := data[..];
      reply := RankedPage(GetPaginatedItems(req.query, ranked));
    } else {
      var byCity := getTripsByCity(query.city.value);
      if byCity.StoreError? {
        reply := BadRequest(BadRequestStatus, byCity.message);
      } else {
        reply := CityPage(GetPaginatedItems(req.query, byCity.data));
      }
    }
  }

  /** When the store answers the query with the list function run over the
      city view, every trip on a ranked page is a trip document of the
      requested city that passed both filters, with positive relevance. */
  lemma RankedPageFromCityView(req: Request, docs: seq<Search.Doc>, ranked: seq<Search.Scored>)
    requires multiset(ranked) == multiset(Search.Scan(BuildQuery(req), Search.CityView(docs)))
    ensures forall x :: x in GetPaginatedItems(req.query, ranked) ==>
      && x.trip in docs && x.trip.kind == "trip" && x.trip.city == CityOf(req.opts)
      && Search.Admitted(BuildQuery(req), x.trip) && x.relevance > 0.0
  {
    var q := BuildQuery(req);
    Search.ScanOfCityView(q, docs);
    Search.ScanEntries(q, Search.CityView(docs));
    forall x | x in GetPaginatedItems(req.query, ranked)
      ensures x in Search.Scan(q, Search.CityView(docs))
    {
      assert x in multiset(ranked);
    }
  }

  // ---------------------------------------------------------------------------
  // Helpers of the other trip routes
  // ---------------------------------------------------------------------------

  /** The `date` query parameter, or nothing when the query or its date is missing. */
  function GetQueryDate(query: Option<RequestQuery>): (date: Option<Search.Date>)
    ensures date.None? <==> query.None? || query.value.date.None?
    ensures date.Some? ==> date.value == query.value.date.value
  {
    if query.None? || query.value.date.None? then None else query.value.date
  }

  /** A non-blank `size` parameter. */
  predicate Truthy(s: Option<string>) {
    s.Some? && s.value != ""
  }

  /** Where a picture lives in the data route. */
  function PicturePath(documentId: string, name: string, ext: string): string {
    DataRoute + documentId + "/" + name + "." + ext
  }

  /** The redirect target of a picture request: the picture's path in the data
      route, followed by the size parameter exactly when one was given. */
  function PictureRedirect(documentId: string, name: string, ext: string, size: Option<string>): (url: string)
    ensures PicturePath(documentId, name, ext) <= url
    ensures Truthy(size) ==> url[|PicturePath(documentId, name, ext)|..] == "?size=" + size.value
    ensures !Truthy(size) ==> url == PicturePath(documentId, name, ext)
  {
    if Truthy(size) then
      DataRoute + documentId + "/" + name + "." + ext + "?size=" + size.value
    else
      DataRoute + documentId + "/" + name + "." + ext
  }

  /** With no `?` in the picture's identifiers, the redirect carries a query
      string exactly when a size was given. */
  lemma RedirectQueryOnlyWithSize(documentId: string, name: string, ext: string, size: Option<string>)
    requires '?' !in documentId && '?' !in name && '?' !in ext
    ensures '?' in PictureRedirect(documentId, name, ext, size) <==> Truthy(size)
  {
    var path := PicturePath(documentId, name, ext);
    assert '?' !in DataRoute;
    assert path == DataRoute + documentId + "/" + name + "." + ext;
    assert '?' !in path;
    if Truthy(size) {
      var url := PictureRedirect(documentId, name, ext, size);
      assert url == path + ("?size=" + size.value);
      assert url[|path|] == '?';
    }
  }
}
