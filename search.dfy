/** `GET /product/search` (api/routes/product.js:123-166): query validation and cursor paging.
    The case-insensitive regular-expression match on the product name is not modelled: it is the
    parameter `matches(q, name)`. `catalog` is the product collection in its natural order. */
module Search {
  import opened Common
  import opened Records
  import opened Sorting

  datatype SearchReply = Page(products: seq<Product>, lastTime: Option<int>) | Rejected(error: ApiError)

  const DefaultLimit: int := 10
  const MaxLimit: int := 100

  /** The page size: a missing limit is 10; one outside 1..100 is refused. */
  function PageSize(limit: Option<int>): (r: Option<int>)
    ensures limit.None? ==> r == Some(DefaultLimit)
    ensures limit.Some? ==> (r.Some? <==> 1 <= limit.value <= MaxLimit)
    ensures r.Some? ==> 1 <= r.value <= MaxLimit && (limit.Some? ==> r.value == limit.value)
  {
    var l := if limit.None? then DefaultLimit else limit.value;
    if l <= 0 || l > MaxLimit then None else Some(l)
  }

  function CreatedAt(p: Product): int { p.createdAt }

  /** The products the query selects before sorting and limiting. */
  function Candidates(q: string, lastTime: Option<int>, catalog: seq<Product>,
                      matches: (string, string) -> bool): (c: seq<Product>)
    ensures forall p :: p in c <==> p in catalog && matches(q, p.name)
                                    && (lastTime.Some? ==> p.createdAt < lastTime.value)
  {
    Filter(catalog, (p: Product) => matches(q, p.name) && (lastTime.None? || p.createdAt < lastTime.value))
  }

  /** `page` is what sorting `c` newest first and keeping `n` yields: as many products as `n` and
      `c` allow, newest first, drawn from `c`, and no product of `c` left out is newer than the
      last one kept. */
  predicate NewestFirst(page: seq<Product>, c: seq<Product>, n: int)
  {
    && |page| == (if |c| < n then |c| else n)
    && SortedDesc(page, CreatedAt)
    && multiset(page) <= multiset(c)
    && (forall p :: p in page ==> p in c)
    && (|page| > 0 ==> forall p :: p in c && p !in page ==> p.createdAt <= page[|page| - 1].createdAt)
  }

  /** One page of results: the newest `limit` candidates, newest first, and the cursor for the
      next page, which is the creation time of the last product returned. */
  function Search(q: string, limit: Option<int>, lastTime: Option<int>, catalog: seq<Product>,
                  matches: (string, string) -> bool): (r: SearchReply)
    ensures r.Rejected? <==> q == "" || PageSize(limit).None?
    ensures r.Rejected? ==> r.error == InternalError
    ensures r.Page? ==> NewestFirst(r.products, Candidates(q, lastTime, catalog, matches), PageSize(limit).value)
    ensures r.Page? ==> (r.lastTime.Some? <==> |r.products| > 0)
    ensures r.Page? && |r.products| > 0 ==> r.lastTime.value == r.products[|r.products| - 1].createdAt
  {
    if q == "" then Rejected(InternalError)
    else match PageSize(limit)
      case None => Rejected(InternalError)
      case Some(n) =>
        var page := FirstPage(Candidates(q, lastTime, catalog, matches), n);
        Page(page, Cursor(page))
  }

  /** The cursor for the next page: the creation time of the last product, when there is one. */
  function Cursor(page: seq<Product>): (r: Option<int>)
    ensures r.Some? <==> |page| > 0
    ensures |page| > 0 ==> r.value == page[|page| - 1].createdAt
  {
    if |page| > 0 then Some(page[|page| - 1].createdAt) else None
  }

  /** Every product on a page matches the query and, when a cursor was given, is older than it. */
  lemma SearchSelects(q: string, limit: Option<int>, lastTime: Option<int>, catalog: seq<Product>,
                      matches: (string, string) -> bool)
    requires Search(q, limit, lastTime, catalog, matches).Page?
    ensures forall p :: p in Search(q, limit, lastTime, catalog, matches).products ==>
              p in catalog && matches(q, p.name) && (lastTime.Some? ==> p.createdAt < lastTime.value)
  {
    var c := Candidates(q, lastTime, catalog, matches);
    var page := Search(q, limit, lastTime, catalog, matches).products;
    assert NewestFirst(page, c, PageSize(limit).value);
    forall p | p in page
      ensures p in catalog && matches(q, p.name) && (lastTime.Some? ==> p.createdAt < lastTime.value)
    {
      assert p in c;
    }
  }

  /** The newest `n` products of `c`, newest first. */
  function FirstPage(c: seq<Product>, n: int): (page: seq<Product>)
    requires n >= 1
    ensures NewestFirst(page, c, n)
  {
    var sorted := SortDesc(c, CreatedAt);
    var m := if |sorted| < n then |sorted| else n;
    PageFacts(c, sorted, n);
    sorted[..m]
  }

  /** A prefix of the sorted candidates is sorted, is drawn from the candidates, and every
      candidate it leaves out is no newer than its last element. */
  lemma PageFacts(c: seq<Product>, sorted: seq<Product>, n: int)
    requires SortedDesc(sorted, CreatedAt) && multiset(sorted) == multiset(c) && n >= 1
    ensures NewestFirst(sorted[..if |sorted| < n then |sorted| else n], c, n)
  {
    var m := if |sorted| < n then |sorted| else n;
    assert |sorted| == |c| by {
      assert |multiset(sorted)| == |multiset(c)|;
    }
    PrefixDrawn(c, sorted, m);
    if m > 0 {
      PrefixNewest(c, sorted, m);
    }
  }

  /** A prefix of a rearrangement of `c` is drawn from `c`. */
  lemma PrefixDrawn(c: seq<Product>, sorted: seq<Product>, m: nat)
    requires multiset(sorted) == multiset(c) && m <= |sorted|
    ensures multiset(sorted[..m]) <= multiset(c)
    ensures forall p :: p in sorted[..m] ==> p in c
  {
    assert sorted == sorted[..m] + sorted[m..];
    assert multiset(sorted) == multiset(sorted[..m]) + multiset(sorted[m..]);
    forall p | p in sorted[..m] ensures p in c {
      assert p in multiset(sorted);
    }
  }

  /** Nothing left out of a prefix of the sorted candidates is newer than the prefix's last element. */
  lemma PrefixNewest(c: seq<Product>, sorted: seq<Product>, m: nat)
    requires SortedDesc(sorted, CreatedAt) && multiset(sorted) == multiset(c) && 0 < m <= |sorted|
    ensures forall p :: p in c && p !in sorted[..m] ==> p.createdAt <= sorted[m - 1].createdAt
  {
    forall p | p in c && p !in sorted[..m]
      ensures p.createdAt <= sorted[m - 1].createdAt
    {
      assert p in multiset(c);
      var k :| 0 <= k < |sorted| && sorted[k] == p;
      assert forall j :: 0 <= j < m ==> sorted[..m][j] == sorted[j];
    }
  }
}
