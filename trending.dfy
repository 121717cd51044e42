/** `GET /product/trending` (api/routes/product.js:36-95): the sales ledger since a cut-off time is
    summed per product in a Map, the entries are sorted by units sold, largest first, and the first
    four product ids are returned. The cut-off is a parameter: the clock and the date arithmetic
    that builds it are not modelled. */
module Trending {
  import opened Common
  import opened Records
  import opened Sorting

  /** One entry of the per-product Map: a product id and its units sold. */
  datatype Entry = Entry(productId: ProductId, productSold: int)

  /** Units of `id` in the ledger lines `rs`. */
  function SoldTotal(rs: seq<SoldProduct>, id: ProductId): int
    decreases |rs|
  {
    if rs == [] then 0
    else SoldTotal(rs[..|rs| - 1], id) + (if rs[|rs| - 1].productId == id then rs[|rs| - 1].quantity else 0)
  }

  function EntrySold(e: Entry): int { e.productSold }

  predicate DistinctIds(es: seq<Entry>)
  {
    forall i, j :: 0 <= i < j < |es| ==> es[i].productId != es[j].productId
  }

  /** The ledger lines the query keeps: those ordered at or after the cut-off. */
  function SoldSince(sold: seq<SoldProduct>, since: int): (rs: seq<SoldProduct>)
    ensures forall r :: r in rs <==> r in sold && r.orderedAt >= since
  {
    Filter(sold, (r: SoldProduct) => r.orderedAt >= since)
  }

  /** The products that have a line in `rs`. */
  function SoldIds(rs: seq<SoldProduct>): set<ProductId>
  {
    set r | r in rs :: r.productId
  }

  function EntryIds(es: seq<Entry>): set<ProductId>
  {
    set e | e in es :: e.productId
  }

  /** The loop that fills `productsSoldMap`: one entry per product, in order of first sale, holding
      the sum of that product's quantities. */
  method CountSold(rs: seq<SoldProduct>) returns (entries: seq<Entry>)
    ensures DistinctIds(entries)
    ensures forall i :: 0 <= i < |entries| ==> entries[i].productSold == SoldTotal(rs, entries[i].productId)
    ensures EntryIds(entries) == SoldIds(rs)
  {
    var soldMap: map<ProductId, int> := map[];
    var order: seq<ProductId> := [];
    for i := 0 to |rs|
      invariant forall a, b :: 0 <= a < b < |order| ==> order[a] != order[b]
      invariant forall id :: id in soldMap <==> id in order
      invariant soldMap.Keys == SoldIds(rs[..i])
      invariant forall id :: id in soldMap ==> soldMap[id] == SoldTotal(rs[..i], id)
    {
      var line := rs[i];
      ghost var prev := soldMap;
      if line.productId in soldMap {
        soldMap := soldMap[line.productId := soldMap[line.productId] + line.quantity];
      } else {
        soldMap := soldMap[line.productId := line.quantity];
        order := order + [line.productId];
      }
      CountStep(rs, i, prev, soldMap);
    }
    assert rs[..|rs|] == rs;
    entries := seq(|order|, k requires 0 <= k < |order| => Entry(order[k], soldMap[order[k]]));
    assert forall id :: id in EntryIds(entries) <==> id in order by {
      forall id | id in order ensures id in EntryIds(entries) {
        var k :| 0 <= k < |order| && order[k] == id;
        assert entries[k] in entries;
      }
    }
  }

  /** One step of the counting loop: adding line `i` to a map that sums the lines before it gives
      a map that sums the lines up to and including it. */
  lemma CountStep(rs: seq<SoldProduct>, i: nat, prev: map<ProductId, int>, next: map<ProductId, int>)
    requires i < |rs|
    requires prev.Keys == SoldIds(rs[..i])
    requires forall id :: id in prev ==> prev[id] == SoldTotal(rs[..i], id)
    requires next == prev[rs[i].productId := (if rs[i].productId in prev then prev[rs[i].productId] else 0) + rs[i].quantity]
    ensures next.Keys == SoldIds(rs[..i + 1])
    ensures forall id :: id in next ==> next[id] == SoldTotal(rs[..i + 1], id)
  {
    var line := rs[i];
    assert rs[..i + 1] == rs[..i] + [line];
    assert SoldIds(rs[..i + 1]) == SoldIds(rs[..i]) + {line.productId};
    if line.productId !in prev {
      SoldTotalAbsent(rs[..i], line.productId);
    }
    forall id | id in next
      ensures next[id] == SoldTotal(rs[..i + 1], id)
    {
      assert rs[..i + 1][..i] == rs[..i];
      if id != line.productId {
        assert next[id] == prev[id];
      }
    }
  }

  /** A product with no line in `rs` has sold nothing there. */
  lemma {:induction false} SoldTotalAbsent(rs: seq<SoldProduct>, id: ProductId)
    requires id !in SoldIds(rs)
    ensures SoldTotal(rs, id) == 0
    decreases |rs|
  {
    if rs != [] {
      assert rs[|rs| - 1] in rs;
      assert forall r :: r in rs[..|rs| - 1] ==> r in rs;
      SoldTotalAbsent(rs[..|rs| - 1], id);
    }
  }

  /** The first `n` ids of `es`. */
  function TopIds(es: seq<Entry>, n: nat): (ids: seq<ProductId>)
    ensures |ids| == if |es| < n then |es| else n
    ensures forall k :: 0 <= k < |ids| ==> ids[k] == es[k].productId
  {
    var m := if |es| < n then |es| else n;
    seq(m, k requires 0 <= k < m => es[k].productId)
  }

  /** The trending ids: at most four, each a product sold since the cut-off and listed once, in
      order of non-increasing units sold, and no product left out sold more than one listed. */
  method TrendingProducts(sold: seq<SoldProduct>, since: int) returns (ids: seq<ProductId>)
    ensures |ids| == if |SoldIds(SoldSince(sold, since))| < 4 then |SoldIds(SoldSince(sold, since))| else 4
    ensures forall a, b :: 0 <= a < b < |ids| ==> ids[a] != ids[b]
    ensures forall k :: 0 <= k < |ids| ==> ids[k] in SoldIds(SoldSince(sold, since))
    ensures forall a, b :: 0 <= a < b < |ids| ==>
              SoldTotal(SoldSince(sold, since), ids[a]) >= SoldTotal(SoldSince(sold, since), ids[b])
    ensures forall id, k :: id in SoldIds(SoldSince(sold, since)) && id !in ids && 0 <= k < |ids| ==>
              SoldTotal(SoldSince(sold, since), id) <= SoldTotal(SoldSince(sold, since), ids[k])
  {
    var rs := SoldSince(sold, since);
    if |rs| > 0 {
      var entries := CountSold(rs);
      var sorted := SortDesc(entries, EntrySold);
      SortedEntries(rs, entries, sorted);
      ids := TopIds(sorted, 4);
      TopFacts(rs, sorted, ids);
      EntryCount(sorted);
    } else {
      ids := [];
    }
  }

  /** Entries with distinct ids have as many ids as entries. */
  lemma {:induction false} EntryCount(es: seq<Entry>)
    requires DistinctIds(es)
    ensures |EntryIds(es)| == |es|
  {
    if es != [] {
      assert DistinctIds(es[1..]);
      EntryCount(es[1..]);
      EntryIdsCons(es);
    }
  }

  /** The ids of a non-empty list are the first id and the ids of the rest, which do not include
      the first when ids are distinct. */
  lemma EntryIdsCons(es: seq<Entry>)
    requires es != [] && DistinctIds(es)
    ensures EntryIds(es) == EntryIds(es[1..]) + {es[0].productId}
    ensures es[0].productId !in EntryIds(es[1..])
  {
    var rest := es[1..];
    forall x | x in EntryIds(es) ensures x == es[0].productId || x in EntryIds(rest) {
      var e :| e in es && e.productId == x;
      var j :| 0 <= j < |es| && es[j] == e;
      if j > 0 {
        assert rest[j - 1] == e;
      }
    }
    forall x | x in EntryIds(rest) ensures x in EntryIds(es) && x != es[0].productId {
      var e :| e in rest && e.productId == x;
      var j :| 0 <= j < |rest| && rest[j] == e;
      assert es[j + 1] == e;
    }
    assert es[0] in es;
  }

  /** What the first four entries of the sorted, per-product totals say about the ledger. */
  lemma TopFacts(rs: seq<SoldProduct>, sorted: seq<Entry>, ids: seq<ProductId>)
    requires SortedDesc(sorted, EntrySold) && DistinctIds(sorted)
    requires forall i :: 0 <= i < |sorted| ==> sorted[i].productSold == SoldTotal(rs, sorted[i].productId)
    requires EntryIds(sorted) == SoldIds(rs)
    requires ids == TopIds(sorted, 4)
    ensures forall a, b :: 0 <= a < b < |ids| ==> ids[a] != ids[b]
    ensures forall k :: 0 <= k < |ids| ==> ids[k] in SoldIds(rs)
    ensures forall a, b :: 0 <= a < b < |ids| ==> SoldTotal(rs, ids[a]) >= SoldTotal(rs, ids[b])
    ensures forall id, k :: id in SoldIds(rs) && id !in ids && 0 <= k < |ids| ==>
              SoldTotal(rs, id) <= SoldTotal(rs, ids[k])
  {
    forall k | 0 <= k < |ids| ensures ids[k] in SoldIds(rs) {
      assert sorted[k] in sorted;
    }
    forall id, k | id in SoldIds(rs) && id !in ids && 0 <= k < |ids|
      ensures SoldTotal(rs, id) <= SoldTotal(rs, ids[k])
    {
      var e :| e in sorted && e.productId == id;
      TopIdsComplete(sorted, 4, e);
      var m :| 0 <= m < |sorted| && sorted[m] == e;
    }
  }

  /** An entry whose id is not among the first `n` sold no more than any of those. */
  lemma TopIdsComplete(sorted: seq<Entry>, n: nat, e: Entry)
    requires SortedDesc(sorted, EntrySold)
    requires e in sorted && e.productId !in TopIds(sorted, n)
    ensures forall k :: 0 <= k < |TopIds(sorted, n)| ==> sorted[k].productSold >= e.productSold
  {
    var ids := TopIds(sorted, n);
    var m :| 0 <= m < |sorted| && sorted[m] == e;
  }

  /** Sorting keeps the entries, so the sorted list still has one entry per sold product, each
      holding that product's total. */
  lemma SortedEntries(rs: seq<SoldProduct>, entries: seq<Entry>, sorted: seq<Entry>)
    requires DistinctIds(entries)
    requires forall i :: 0 <= i < |entries| ==> entries[i].productSold == SoldTotal(rs, entries[i].productId)
    requires multiset(sorted) == multiset(entries)
    ensures DistinctIds(sorted)
    ensures forall i :: 0 <= i < |sorted| ==> sorted[i].productSold == SoldTotal(rs, sorted[i].productId)
    ensures EntryIds(sorted) == EntryIds(entries)
  {
    forall i | 0 <= i < |sorted|
      ensures exists j :: 0 <= j < |entries| && entries[j] == sorted[i]
    {
      assert sorted[i] in multiset(entries);
    }
    forall e | e in entries ensures e in sorted {
      assert e in multiset(sorted);
    }
    forall a, b | 0 <= a < b < |sorted|
      ensures sorted[a].productId != sorted[b].productId
    {
      var ja :| 0 <= ja < |entries| && entries[ja] == sorted[a];
      var jb :| 0 <= jb < |entries| && entries[jb] == sorted[b];
      DistinctOnce(entries, ja);
      RepeatCounted(sorted, a, b);
      assert sorted[a] != sorted[b];
      assert ja != jb;
    }
  }

  /** An element found at two positions occurs at least twice. */
  lemma RepeatCounted<T>(s: seq<T>, a: nat, b: nat)
    requires a < b < |s|
    ensures s[a] == s[b] ==> multiset(s)[s[a]] >= 2
  {
    assert s == s[..b] + [s[b]] + s[b + 1..];
    assert multiset(s) == multiset(s[..b]) + multiset{s[b]} + multiset(s[b + 1..]);
    assert s[a] in s[..b];
  }

  /** In a list of entries with distinct ids, each entry occurs once. */
  lemma {:induction false} DistinctOnce(es: seq<Entry>, j: nat)
    requires DistinctIds(es) && j < |es|
    ensures multiset(es)[es[j]] == 1
    decreases |es|
  {
    assert es == [es[0]] + es[1..];
    if j == 0 {
      assert es[0] !in es[1..];
    } else {
      DistinctOnce(es[1..], j - 1);
    }
  }
}
