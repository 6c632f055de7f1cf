/**
 * The recommendation routes: the quick recommendation's input, the phone
 * listing with its filters, sort and pages, and a phone's detail with the
 * phones similar to it.
 */
module RecommendationRoutes {
  import opened Wrappers
  import opened Sorting
  import opened Text
  import opened Numbers
  import opened Values
  import CbrEngine
  import Catalog

  // ---------------------------------------------------------------- quick recommendation

  /** `QuickRecommendRequest`. */
  datatype QuickRequest = QuickRequest(
    maxHarga: Option<int>, ram: Option<int>, memoriInternal: Option<int>, minBaterai: Option<int>,
    preferredBrand: Option<string>, preferredOs: Option<string>, topK: int)

  /** The request's field bounds. */
  predicate QuickAdmissible(q: QuickRequest)
  {
    && (q.maxHarga.None? || q.maxHarga.value >= 0)
    && (q.ram.None? || q.ram.value >= 1)
    && 1 <= q.topK <= 50
  }

  function OptNum(o: Option<int>): Value { if o.Some? then Num(o.value as real) else Null }

  function OptStr(o: Option<string>): Value { if o.Some? then Str(o.value) else Null }

  /** The user input the quick route builds: one preferred brand becomes a one-element list. */
  function QuickInput(q: QuickRequest): Row
  {
    map["max_harga" := OptNum(q.maxHarga), "ram" := OptNum(q.ram), "memori_internal" := OptNum(q.memoriInternal),
        "min_baterai" := OptNum(q.minBaterai),
        "preferred_brands" := if q.preferredBrand.Some? && q.preferredBrand.value != "" then Strs([q.preferredBrand.value]) else Null,
        "preferred_os" := OptStr(q.preferredOs)]
  }

  const QUICK_MIN_SIMILARITY: real := 0.2

  /**
   * The quick input asks for a brand exactly when a non-empty brand is
   * given. The brand check is then an exact match on the phone's brand
   * that never raises (a bare string would be a substring test), and the
   * query holds no attribute the request cannot set.
   */
  lemma QuickInputSpec(q: QuickRequest, phone: Row)
    ensures var brands := Get(QuickInput(q), "preferred_brands", Null);
      && (Truthy(brands) <==> q.preferredBrand.Some? && q.preferredBrand.value != "")
      && (Truthy(brands) ==>
            CbrEngine.BrandAmong(Get(phone, "Brand", Null), brands) == Ok(Get(phone, "Brand", Null) == Str(q.preferredBrand.value)))
    ensures forall e :: e in CbrEngine.ExtractQuery(QuickInput(q)) ==>
      e.0 == "ram" || e.0 == "memori_internal" || e.0 == "harga" || e.0 == "kapasitas_baterai"
  {
    var ui := QuickInput(q);
    assert Get(ui, "min_harga", Null) == Null && Get(ui, "min_rating", Null) == Null;
    assert Get(ui, "ukuran_layar", Null) == Null && Get(ui, "resolusi_kamera", Null) == Null;
  }

  /**
   * `quick_recommendation`: a request outside its bounds is refused;
   * otherwise the engine recommends for the quick input with a 0.2
   * threshold, filters applied, and returns at most `top_k` phones.
   */
  method QuickRecommendation(engine: CbrEngine.Engine, q: QuickRequest) returns (r: Result<CbrEngine.Response>)
    requires engine.Valid()
    ensures !QuickAdmissible(q) ==> r.Err?
    ensures QuickAdmissible(q) ==> r == engine.Recommended(QuickInput(q), q.topK, QUICK_MIN_SIMILARITY, true)
    ensures r.Ok? ==> |r.value.recommendations| <= q.topK && CbrEngine.RankedDescending(r.value.recommendations)
  {
    if !QuickAdmissible(q) {
      return Err("request outside the field bounds");
    }
    r := engine.Recommend(QuickInput(q), q.topK, QUICK_MIN_SIMILARITY, true);
    engine.RecommendSpec(QuickInput(q), q.topK, QUICK_MIN_SIMILARITY, true);
  }

  // ---------------------------------------------------------------- listing

  /** The filter and sort parameters of `list_all_phones`. */
  datatype Criteria = Criteria(
    brand: Option<string>, minPrice: Option<int>, maxPrice: Option<int>, minRam: Option<int>,
    sortBy: Option<string>, sortOrder: Option<string>)

  /** All query parameters of `list_all_phones`. */
  datatype ListingQuery = ListingQuery(page: int, limit: int, criteria: Criteria)

  /** The listing response. */
  datatype Listing = Listing(page: int, limit: int, total: nat, totalPages: int, phones: seq<Row>)

  /** A number filter is on when its value is given and not 0. */
  predicate Given(o: Option<int>) { o.Some? && o.value != 0 }

  predicate BrandGiven(o: Option<string>) { o.Some? && o.value != "" }

  /** Whether filter `k` (brand, minimum price, maximum price, minimum RAM) is on. */
  predicate FilterOn(c: Criteria, k: nat)
  {
    (k == 0 && BrandGiven(c.brand)) || (k == 1 && Given(c.minPrice)) || (k == 2 && Given(c.maxPrice)) || (k == 3 && Given(c.minRam))
  }

  /** The test filter `k` applies to a row; a brand cell that is not a string never matches. */
  predicate Keeps(c: Criteria, k: nat, row: Row)
  {
    match k
    case 0 => var b := Get(row, "Brand", NaN); c.brand.Some? && b.Str? && Lower(b.s) == Lower(c.brand.value)
    case 1 => c.minPrice.Some? && Catalog.Ge(Get(row, "Harga", NaN), Num(c.minPrice.value as real))
    case 2 => c.maxPrice.Some? && Catalog.Le(Get(row, "Harga", NaN), Num(c.maxPrice.value as real))
    case 3 => c.minRam.Some? && Catalog.Ge(Get(row, "Ram", NaN), Num(c.minRam.value as real))
    case _ => true
  }

  function Mask(c: Criteria, k: nat): Row -> bool { (row: Row) => Keeps(c, k, row) }

  /** The row passes the first `k` filters that are on. */
  predicate PassesFirst(c: Criteria, k: nat, row: Row)
  {
    forall j :: 0 <= j < k ==> FilterOn(c, j) ==> Keeps(c, j, row)
  }

  function UpTo(c: Criteria, k: nat): Row -> bool { (row: Row) => PassesFirst(c, k, row) }

  /** The column each filter reads. */
  function FilterColumn(k: nat): string
  {
    if k == 0 then "Brand" else if k == 3 then "Ram" else "Harga"
  }

  /** A filter that is on reads a column the frame lacks: `df[c]` raises a key error. */
  predicate MissingFilterColumn(c: Criteria, columns: seq<string>)
  {
    exists k :: 0 <= k < 4 && FilterOn(c, k) && FilterColumn(k) !in columns
  }

  const KEY_ERROR: string := "KeyError"
  const NOT_ORDERABLE: string := "'<' not supported"

  /** The rows passing every filter that is on, or the key error of a filter on a missing column. */
  function Filtered(base: Frame, c: Criteria): Result<seq<Row>>
  {
    if MissingFilterColumn(c, base.columns) then Err(KEY_ERROR) else Ok(Filter(base.rows, UpTo(c, 4)))
  }

  /** Applying filter `k` after the first `k` is filtering by the first `k + 1`. */
  lemma ListingStep(rows: seq<Row>, c: Criteria, k: nat)
    ensures Filter(rows, UpTo(c, k + 1)) ==
      if FilterOn(c, k) then Filter(Filter(rows, UpTo(c, k)), Mask(c, k)) else Filter(rows, UpTo(c, k))
  {
    forall row ensures PassesFirst(c, k + 1, row) <==> PassesFirst(c, k, row) && (FilterOn(c, k) ==> Keeps(c, k, row)) {
    }
    if FilterOn(c, k) {
      FilterTwice(rows, UpTo(c, k), Mask(c, k), UpTo(c, k + 1));
    } else {
      FilterSame(rows, UpTo(c, k), UpTo(c, k + 1));
    }
  }

  /** One filter of the listing: when it is on, its column must exist, and it narrows the rows. */
  method ApplyFilter(rows: seq<Row>, columns: seq<string>, c: Criteria, k: nat) returns (r: Result<seq<Row>>)
    requires k < 4
    ensures FilterOn(c, k) && FilterColumn(k) !in columns ==> r.Err?
    ensures !(FilterOn(c, k) && FilterColumn(k) !in columns) ==>
      r == Ok(if FilterOn(c, k) then Filter(rows, Mask(c, k)) else rows)
  {
    if !FilterOn(c, k) {
      return Ok(rows);
    }
    if FilterColumn(k) !in columns {
      return Err(KEY_ERROR);
    }
    r := Ok(Filter(rows, Mask(c, k)));
  }

  /** The four filters narrow a copy of the catalog one after the other. */
  method FilterRows(df: Frame, c: Criteria) returns (r: Result<seq<Row>>)
    ensures r == Filtered(df, c)
  {
    var rows := df.rows;
    FilterKeepsAll(df.rows, UpTo(c, 0));
    for k := 0 to 4
      invariant rows == Filter(df.rows, UpTo(c, k))
      invariant forall j :: 0 <= j < k ==> !(FilterOn(c, j) && FilterColumn(j) !in df.columns)
    {
      var f := ApplyFilter(rows, df.columns, c, k);
      if f.Err? {
        return Err(KEY_ERROR);
      }
      ListingStep(df.rows, c, k);
      rows := f.value;
    }
    r := Ok(rows);
  }

  /** The order class of a cell for `sort_values`: numbers, then strings, with missing cells last. */
  function CellRank(v: Value): nat
  {
    if IsFinite(v) then 0 else if v.Str? then 1 else 2
  }

  /** `a` may come before `b` under `sort_values(ascending=...)`; missing cells go last either way. */
  predicate CellLe(ascending: bool, a: Value, b: Value)
  {
    if CellRank(a) != CellRank(b) then CellRank(a) < CellRank(b)
    else if CellRank(a) == 0 then (if ascending then AsReal(a) <= AsReal(b) else AsReal(b) <= AsReal(a))
    else if CellRank(a) == 1 then (if ascending then StrLe(a.s, b.s) else StrLe(b.s, a.s))
    else true
  }

  function ByColumn(col: string, ascending: bool): (Row, Row) -> bool
  {
    (a: Row, b: Row) => CellLe(ascending, Get(a, col, NaN), Get(b, col, NaN))
  }

  lemma CellLeIsPreorder(ascending: bool, a: Value, b: Value, c: Value)
    ensures CellLe(ascending, a, b) || CellLe(ascending, b, a)
    ensures CellLe(ascending, a, b) && CellLe(ascending, b, c) ==> CellLe(ascending, a, c)
  {
    if a.Str? && b.Str? {
      StrLeTotal(a.s, b.s);
      if c.Str? && CellLe(ascending, a, b) && CellLe(ascending, b, c) {
        if ascending { StrLeTransitive(a.s, b.s, c.s); } else { StrLeTransitive(c.s, b.s, a.s); }
      }
    }
  }

  lemma ByColumnIsPreorder(col: string, ascending: bool)
    ensures TotalPreorder(ByColumn(col, ascending))
  {
    var le := ByColumn(col, ascending);
    forall a, b, c ensures (le(a, b) || le(b, a)) && (le(a, b) && le(b, c) ==> le(a, c)) {
      CellLeIsPreorder(ascending, Get(a, col, NaN), Get(b, col, NaN), Get(c, col, NaN));
    }
  }

  /** pandas cannot order a column that mixes numbers and strings, or that holds lists. */
  predicate Orderable(rows: seq<Row>, col: string)
  {
    && (forall i :: 0 <= i < |rows| ==> !Get(rows[i], col, NaN).Strs?)
    && ((forall i :: 0 <= i < |rows| ==> !IsFinite(Get(rows[i], col, NaN))) || (forall i :: 0 <= i < |rows| ==> !Get(rows[i], col, NaN).Str?))
  }

  /** Whether the listing is sorted: only by a column the catalog has. */
  predicate SortsBy(c: Criteria, columns: seq<string>) { c.sortBy.Some? && c.sortBy.value in columns }

  /**
   * The sort step: ascending exactly when the order reads `asc` in any
   * case; a missing order has no `lower` and raises.
   */
  function SortStep(rows: seq<Row>, columns: seq<string>, c: Criteria): Result<seq<Row>>
  {
    if !SortsBy(c, columns) then Ok(rows)
    else if c.sortOrder.None? then Err(CbrEngine.NO_LOWER)
    else if !Orderable(rows, c.sortBy.value) then Err(NOT_ORDERABLE)
    else Ok(Sort(rows, ByColumn(c.sortBy.value, Lower(c.sortOrder.value) == "asc")))
  }

  /** `sort_values` on the column named by the criteria, when the catalog has it. */
  method SortRows(rows: seq<Row>, columns: seq<string>, c: Criteria) returns (r: Result<seq<Row>>)
    ensures r == SortStep(rows, columns, c)
  {
    r := Ok(rows);
    if c.sortBy.Some? && c.sortBy.value in columns {
      if c.sortOrder.None? {
        return Err(CbrEngine.NO_LOWER);
      }
      var ascending := Lower(c.sortOrder.value) == "asc";
      if !Orderable(rows, c.sortBy.value) {
        return Err(NOT_ORDERABLE);
      }
      r := Ok(Sort(rows, ByColumn(c.sortBy.value, ascending)));
    }
  }

  /** The filtered, sorted rows a listing pages through. */
  function Arranged(base: Frame, c: Criteria): Result<seq<Row>>
  {
    match Filtered(base, c)
    case Err(e) => Err(e)
    case Ok(rows) => SortStep(rows, base.columns, c)
  }

  /** Page `page` of `limit` rows: the rows from `(page - 1) * limit`, with the row and page counts. */
  function Paged(rows: seq<Row>, page: int, limit: int): Listing
    requires limit >= 1
  {
    var start := (page - 1) * limit;
    Listing(page, limit, |rows|, (|rows| + limit - 1) / limit, Slice(rows, start, start + limit))
  }

  /** What `list_all_phones` returns for the catalog `base`. */
  function Listed(base: Frame, q: ListingQuery): Result<Listing>
    requires q.limit >= 1
  {
    match Arranged(base, q.criteria)
    case Err(e) => Err(e)
    case Ok(sorted) => Ok(Paged(sorted, q.page, q.limit))
  }

  /**
   * `list_all_phones`: filters, sorts and pages a copy of the loaded
   * catalog; the page and limit bounds are the route's parameter checks.
   */
  method ListAllPhones(engine: CbrEngine.Engine, q: ListingQuery) returns (r: Result<Listing>)
    requires q.page >= 1 && 1 <= q.limit <= 100
    ensures !engine.isInitialized ==> r.Err?
    ensures engine.isInitialized ==> r == Listed(engine.caseBase, q)
  {
    if !engine.isInitialized {
      return Err("case base not loaded");
    }
    var df := engine.caseBase;
    var c := q.criteria;
    var filtered := FilterRows(df, c);
    if filtered.Err? {
      return Err(filtered.error);
    }
    var sorted := SortRows(filtered.value, df.columns, c);
    if sorted.Err? {
      return Err(sorted.error);
    }
    var rows := sorted.value;
    var total := |rows|;
    var start := (q.page - 1) * q.limit;
    var end := start + q.limit;
    r := Ok(Listing(q.page, q.limit, total, (total + q.limit - 1) / q.limit, Slice(rows, start, end)));
  }

  /** Signs of a product with a positive factor. */
  lemma ProductSign(a: int, b: int)
    requires b >= 1
    ensures a >= 1 ==> a * b >= b
    ensures a <= -1 ==> a * b <= -b
    ensures a >= 0 ==> a * b >= 0
  {
  }

  /** `(total + limit - 1) // limit` is the total divided by the limit, rounded up. */
  lemma CeilingDivision(total: nat, limit: int)
    requires limit >= 1
    ensures var pages := (total + limit - 1) / limit;
      && total <= pages * limit
      && (total == 0 <==> pages == 0)
      && (total > 0 ==> (pages - 1) * limit < total)
  {
    var pages := (total + limit - 1) / limit;
    var rem := (total + limit - 1) % limit;
    assert pages * limit + rem == total + limit - 1;
    assert (pages - 1) * limit == pages * limit - limit;
    ProductSign(pages, limit);
  }

  /** The page of a row below the total is at most the page count. */
  lemma PageBelowCount(j: nat, total: nat, limit: int)
    requires limit >= 1 && j < total
    ensures j / limit + 1 <= (total + limit - 1) / limit
  {
    var pages := (total + limit - 1) / limit;
    assert (j / limit) * limit + j % limit == j;
    assert (j / limit - pages) * limit == (j / limit) * limit - pages * limit;
    CeilingDivision(total, limit);
    ProductSign(j / limit - pages, limit);
  }

  /** Whatever a slice holds is in the sequence it is cut from. */
  lemma SliceWithin(s: seq<Row>, a: int, b: int)
    ensures forall x :: x in Slice(s, a, b) ==> x in s
  {
    forall x | x in Slice(s, a, b) ensures x in s {
      var lo := SliceBound(a, |s|);
      var i :| 0 <= i < |Slice(s, a, b)| && Slice(s, a, b)[i] == x;
      assert s[lo + i] == x;
    }
  }

  /**
   * A page holds at most `limit` of the rows, all of them rows it pages
   * through, counts all of them, and the page count is the row count
   * divided by the limit, rounded up.
   */
  lemma PagedSpec(rows: seq<Row>, page: int, limit: int)
    requires page >= 1 && limit >= 1
    ensures var l := Paged(rows, page, limit);
      && l.total == |rows| && |l.phones| <= limit
      && (forall row :: row in l.phones ==> row in rows)
      && l.total <= l.totalPages * limit
      && (l.total == 0 <==> l.totalPages == 0)
      && (l.total > 0 ==> (l.totalPages - 1) * limit < l.total)
  {
    SliceWithin(rows, (page - 1) * limit, (page - 1) * limit + limit);
    CeilingDivision(|rows|, limit);
  }

  /**
   * Pages partition the rows: row `j` is shown on page `j / limit + 1`, at
   * position `j % limit`, and that page exists.
   */
  lemma RowOnItsPage(rows: seq<Row>, limit: int, j: nat)
    requires limit >= 1 && j < |rows|
    ensures var p := j / limit + 1;
      && 1 <= p <= Paged(rows, 1, limit).totalPages
      && j % limit < |Paged(rows, p, limit).phones|
      && Paged(rows, p, limit).phones[j % limit] == rows[j]
  {
    var p := j / limit + 1;
    assert (p - 1) * limit + j % limit == j;
    PageBelowCount(j, |rows|, limit);
  }

  /**
   * A listing counts the rows that pass every filter that is on; each row
   * on its page is a catalog row passing those filters; a sorted listing
   * is ordered by the sort column (missing cells last) and a permutation
   * of the filtered rows; an unsorted one keeps catalog order.
   */
  lemma ListedSpec(base: Frame, q: ListingQuery)
    requires q.page >= 1 && q.limit >= 1 && Listed(base, q).Ok?
    ensures !MissingFilterColumn(q.criteria, base.columns)
    ensures var l := Listed(base, q).value;
      && l.total == |Filter(base.rows, UpTo(q.criteria, 4))|
      && |l.phones| <= q.limit
      && (forall row :: row in l.phones ==>
            row in base.rows && forall k :: 0 <= k < 4 && FilterOn(q.criteria, k) ==> Keeps(q.criteria, k, row))
    ensures var c, sorted := q.criteria, Arranged(base, q.criteria).value;
      && multiset(sorted) == multiset(Filter(base.rows, UpTo(c, 4)))
      && (SortsBy(c, base.columns) ==> Sorted(sorted, ByColumn(c.sortBy.value, Lower(c.sortOrder.value) == "asc")))
      && (!SortsBy(c, base.columns) ==> sorted == Filter(base.rows, UpTo(c, 4)))
  {
    var c := q.criteria;
    var filtered := Filter(base.rows, UpTo(c, 4));
    var sorted := Arranged(base, c).value;
    if SortsBy(c, base.columns) {
      ByColumnIsPreorder(c.sortBy.value, Lower(c.sortOrder.value) == "asc");
      SortSorted(filtered, ByColumn(c.sortBy.value, Lower(c.sortOrder.value) == "asc"));
    }
    PagedSpec(sorted, q.page, q.limit);
    forall row | row in Listed(base, q).value.phones
      ensures row in base.rows && forall k :: 0 <= k < 4 && FilterOn(c, k) ==> Keeps(c, k, row)
    {
      assert row in multiset(sorted);
    }
  }

  /** Every page of a listing cuts the same arranged rows: only the page number differs. */
  lemma PagesShareRows(base: Frame, q: ListingQuery, page: int)
    requires q.limit >= 1 && Listed(base, q).Ok?
    ensures Listed(base, q.(page := page)) == Ok(Paged(Arranged(base, q.criteria).value, page, q.limit))
  {
  }
  // ---------------------------------------------------------------- phone detail

  /** The outcome of `get_phone_detail`. */
  datatype Detail = Found(phone: Row, similar: seq<(Row, real)>) | NoSuchPhone | Failed(reason: string)

  /** The query `get_phone_detail` retrieves with: the phone's price, RAM and storage. */
  function DetailQuery(phone: Row): seq<(string, Value)>
  {
    [("harga", Get(phone, "Harga", Null)), ("ram", Get(phone, "Ram", Null)), ("memori_internal", Get(phone, "Memori_internal", Null))]
  }

  function NotSelf(id: int): CbrEngine.Hit -> bool { (h: CbrEngine.Hit) => !CbrEngine.HasId(h.phone, id) }

  /** The retrieved phones with their similarity as a percentage, in retrieval order. */
  function AsPercentages(hits: seq<CbrEngine.Hit>): (r: seq<(Row, real)>)
    ensures |r| == |hits|
    ensures forall k :: 0 <= k < |r| ==> r[k] == (hits[k].phone, RoundTo(hits[k].similarity * 100.0, 2))
  {
    seq(|hits|, i requires 0 <= i < |hits| => (hits[i].phone, RoundTo(hits[i].similarity * 100.0, 2)))
  }

  /** The similar-phones comprehension: other phones only, as percentages, at most four. */
  function SimilarPhones(hits: seq<CbrEngine.Hit>, id: int): seq<(Row, real)>
  {
    Take(AsPercentages(Filter(hits, NotSelf(id))), 4)
  }

  /** At most four similar phones are shown, never the phone itself, each one of the retrieved phones. */
  lemma SimilarPhonesSpec(hits: seq<CbrEngine.Hit>, id: int)
    ensures var s := SimilarPhones(hits, id);
      && |s| <= 4
      && forall k :: 0 <= k < |s| ==> !CbrEngine.HasId(s[k].0, id) && exists h :: h in hits && h.phone == s[k].0
  {
    var others := Filter(hits, NotSelf(id));
    var s := SimilarPhones(hits, id);
    forall k | 0 <= k < |s| ensures !CbrEngine.HasId(s[k].0, id) && exists h :: h in hits && h.phone == s[k].0 {
      assert s[k].0 == others[k].phone;
      assert others[k] in others;
    }
  }

  /** Similarities of at least 0.5 read as percentages between 50 and 100. */
  lemma SimilarPhonesPercent(hits: seq<CbrEngine.Hit>, id: int)
    requires forall h :: h in hits ==> 0.5 <= h.similarity <= 1.0
    ensures var s := SimilarPhones(hits, id); forall k :: 0 <= k < |s| ==> 50.0 <= s[k].1 <= 100.0
  {
    var others := Filter(hits, NotSelf(id));
    var s := SimilarPhones(hits, id);
    forall k | 0 <= k < |s| ensures 50.0 <= s[k].1 <= 100.0 {
      assert others[k] in others;
      assert s[k].1 == RoundTo(others[k].similarity * 100.0, 2);
      RoundToAtLeast(others[k].similarity * 100.0, 50.0, 2);
      RoundToAtMost(others[k].similarity * 100.0, 100.0, 2);
    }
  }

  /** Similar phones are listed from the most similar down, as retrieval returns them. */
  lemma SimilarPhonesOrdered(hits: seq<CbrEngine.Hit>, id: int)
    requires BySimilarity(hits)
    ensures var s := SimilarPhones(hits, id); forall i, j :: 0 <= i < j < |s| ==> s[i].1 >= s[j].1
  {
    var others := Filter(hits, NotSelf(id));
    var s := SimilarPhones(hits, id);
    FilterKeepsOrder(hits, NotSelf(id));
    forall i, j | 0 <= i < j < |s| ensures s[i].1 >= s[j].1 {
      assert others[j].similarity <= others[i].similarity;
      assert s[i].1 == RoundTo(others[i].similarity * 100.0, 2) && s[j].1 == RoundTo(others[j].similarity * 100.0, 2);
      RoundToMonotone(others[j].similarity * 100.0, others[i].similarity * 100.0, 2);
    }
  }

  /** Hits from most to least similar. */
  predicate BySimilarity(hits: seq<CbrEngine.Hit>)
  {
    forall i, j :: 0 <= i < j < |hits| ==> hits[i].similarity >= hits[j].similarity
  }

  /** The similar phones of a retrieval from `rows` at threshold 0.5: the three lemmas above together. */
  lemma SimilarPhonesOf(hits: seq<CbrEngine.Hit>, id: int, rows: seq<Row>)
    requires forall i, j :: 0 <= i < j < |hits| ==> hits[i].similarity >= hits[j].similarity
    requires forall k :: 0 <= k < |hits| ==>
      && 0.5 <= hits[k].similarity <= 1.0
      && hits[k].index < |rows| && hits[k].phone == rows[hits[k].index]
    ensures var s := SimilarPhones(hits, id);
      && |s| <= 4
      && (forall k :: 0 <= k < |s| ==> !CbrEngine.HasId(s[k].0, id) && s[k].0 in rows && 50.0 <= s[k].1 <= 100.0)
      && (forall i, j :: 0 <= i < j < |s| ==> s[i].1 >= s[j].1)
  {
    SimilarPhonesSpec(hits, id);
    SimilarPhonesPercent(hits, id);
    SimilarPhonesOrdered(hits, id);
    var s := SimilarPhones(hits, id);
    forall k | 0 <= k < |s| ensures s[k].0 in rows {
      var h :| h in hits && h.phone == s[k].0;
      var m :| 0 <= m < |hits| && hits[m] == h;
    }
  }

  /** Filtering a list ordered by similarity keeps it ordered. */
  lemma {:induction false} FilterKeepsOrder(hits: seq<CbrEngine.Hit>, p: CbrEngine.Hit -> bool)
    requires BySimilarity(hits)
    ensures BySimilarity(Filter(hits, p))
  {
    if hits != [] {
      FilterKeepsOrder(hits[1..], p);
      var rest := Filter(hits[1..], p);
      forall k | 0 <= k < |rest| ensures hits[0].similarity >= rest[k].similarity {
        assert rest[k] in rest;
        var m :| 0 <= m < |hits[1..]| && hits[1..][m] == rest[k];
        assert hits[m + 1] == rest[k];
      }
      if p(hits[0]) {
        var f := [hits[0]] + rest;
        forall i, j | 0 <= i < j < |f| ensures f[i].similarity >= f[j].similarity {
          assert f[j] == rest[j - 1];
          if i > 0 {
            assert f[i] == rest[i - 1];
          } else {
            assert f[i] == hits[0];
            assert hits[0].similarity >= rest[j - 1].similarity;
          }
        }
        assert Filter(hits, p) == f;
      }
    }
  }

  /**
   * `get_phone_detail`: the first catalog row with the id, and the phones
   * most similar to it by price, RAM and storage (five retrieved at a 0.5
   * threshold, the phone itself dropped, four kept).
   */
  method GetPhoneDetail(engine: CbrEngine.Engine, id: int) returns (r: Detail)
    requires engine.Valid()
    ensures !engine.isInitialized || "Id_hp" !in engine.caseBase.columns ==> r.Failed?
    ensures engine.isInitialized && "Id_hp" in engine.caseBase.columns ==>
      (r == NoSuchPhone <==> forall i :: 0 <= i < |engine.caseBase.rows| ==> !CbrEngine.HasId(engine.caseBase.rows[i], id))
    ensures var matches := Filter(engine.caseBase.rows, CbrEngine.WithId(id));
      (engine.isInitialized && "Id_hp" in engine.caseBase.columns && |matches| > 0
       && engine.RetrieveResult(DetailQuery(matches[0]), 5, 0.5).Ok?) ==> r.Found?
    ensures r.Found? ==>
      && |Filter(engine.caseBase.rows, CbrEngine.WithId(id))| > 0
      && r.phone == Filter(engine.caseBase.rows, CbrEngine.WithId(id))[0]
      && CbrEngine.HasId(r.phone, id) && r.phone in engine.caseBase.rows
      && engine.RetrieveResult(DetailQuery(r.phone), 5, 0.5).Ok?
      && r.similar == SimilarPhones(engine.RetrieveResult(DetailQuery(r.phone), 5, 0.5).value, id)
      && |r.similar| <= 4
      && (forall k :: 0 <= k < |r.similar| ==>
            && !CbrEngine.HasId(r.similar[k].0, id) && r.similar[k].0 in engine.caseBase.rows
            && 50.0 <= r.similar[k].1 <= 100.0)
      && (forall i, j :: 0 <= i < j < |r.similar| ==> r.similar[i].1 >= r.similar[j].1)
  {
    if !engine.isInitialized || "Id_hp" !in engine.caseBase.columns {
      return Failed("case base not loaded");
    }
    var matches := Filter(engine.caseBase.rows, CbrEngine.WithId(id));
    if matches == [] {
      forall i | 0 <= i < |engine.caseBase.rows| ensures !CbrEngine.HasId(engine.caseBase.rows[i], id) {
        assert engine.caseBase.rows[i] in engine.caseBase.rows;
      }
      return NoSuchPhone;
    }
    var phone := matches[0];
    assert phone in matches;
    var similar := engine.Retrieve(DetailQuery(phone), 5, 0.5);
    if similar.Err? {
      return Failed(similar.error);
    }
    engine.RetrieveSound(DetailQuery(phone), 5, 0.5);
    SimilarPhonesOf(similar.value, id, engine.caseBase.rows);
    r := Found(phone, SimilarPhones(similar.value, id));
  }
}
