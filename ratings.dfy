/** The rating aggregates a product keeps: `total_stars` and `total_reviews` are meant to be the sum
    and the count of the stars of the stored feedbacks on that product (api/models/product.js). */
module Ratings {
  import opened Records

  datatype Totals = Totals(stars: int, reviews: int)

  function Plus(a: Totals, b: Totals): Totals
  {
    Totals(a.stars + b.stars, a.reviews + b.reviews)
  }

  /** What the feedback stored under `k` adds to the totals of product `id`. */
  function Share(k: FeedbackKey, f: Feedback, id: ProductId): (r: Totals)
    ensures k.productId == id ==> r == Totals(f.stars, 1)
    ensures k.productId != id ==> r == Totals(0, 0)
  {
    if k.productId == id then Totals(f.stars, 1) else Totals(0, 0)
  }

  /** The totals of product `id` over the feedbacks stored under `keys`. */
  ghost function Tally(fs: map<FeedbackKey, Feedback>, keys: set<FeedbackKey>, id: ProductId): (r: Totals)
    requires keys <= fs.Keys
    ensures 0 <= r.reviews <= |keys|
    decreases keys
  {
    if keys == {} then Totals(0, 0)
    else
      var k :| k in keys;
      Plus(Share(k, fs[k], id), Tally(fs, keys - {k}, id))
  }

  /** The totals of product `id` over every stored feedback. */
  ghost function Totalled(fs: map<FeedbackKey, Feedback>, id: ProductId): Totals
  {
    Tally(fs, fs.Keys, id)
  }

  /** Every product's stored totals agree with its stored feedbacks. */
  ghost predicate RatingsTallied(products: map<ProductId, Product>, fs: map<FeedbackKey, Feedback>)
  {
    forall id :: id in products ==>
      Totals(products[id].totalStars, products[id].totalReviews) == Totalled(fs, id)
  }

  /** Whether `average_review`, `(total_stars / (total_reviews * 5) * 5).toFixed(1)` over the new
      totals, can be saved. Only 0 / 0 gives the text "NaN", which the Number path of the product
      schema refuses, so the save throws; a non-zero star total over no review gives "Infinity" or
      "-Infinity", which the schema accepts. */
  predicate AverageStorable(stars: int, reviews: int)
  {
    reviews != 0 || stars != 0
  }

  /** In a tallied store a product has no negative review count, and at least one review when some
      feedback on it is stored; so a revision, or a first rating, always leaves an average that can
      be saved. */
  lemma TalliedReviews(products: map<ProductId, Product>, fs: map<FeedbackKey, Feedback>, k: FeedbackKey,
                       stars: int)
    requires RatingsTallied(products, fs) && k.productId in products
    ensures products[k.productId].totalReviews >= 0
    ensures AverageStorable(stars, products[k.productId].totalReviews + 1)
    ensures k in fs ==> AverageStorable(stars, products[k.productId].totalReviews)
  {
    var id := k.productId;
    assert products[id].totalReviews == Totalled(fs, id).reviews;
    if k in fs {
      TallyRemove(fs, fs.Keys, id, k);
    }
  }

  /** The tally does not depend on which key it takes first. */
  lemma {:induction false} TallyRemove(fs: map<FeedbackKey, Feedback>, keys: set<FeedbackKey>, id: ProductId,
                                       k: FeedbackKey)
    requires keys <= fs.Keys && k in keys
    ensures Tally(fs, keys, id) == Plus(Share(k, fs[k], id), Tally(fs, keys - {k}, id))
    decreases keys
  {
    var j :| j in keys && Tally(fs, keys, id) == Plus(Share(j, fs[j], id), Tally(fs, keys - {j}, id));
    if j != k {
      TallyRemove(fs, keys - {j}, id, k);
      TallyRemove(fs, keys - {k}, id, j);
      RemoveBoth(keys, j, k);
      TallySame(fs, keys - {j} - {k}, keys - {k} - {j}, id);
      PlusSwap(Share(j, fs[j], id), Share(k, fs[k], id), Tally(fs, keys - {j} - {k}, id));
    }
  }

  /** Adding two totals to a third in either order gives the same. */
  lemma PlusSwap(a: Totals, b: Totals, r: Totals)
    ensures Plus(a, Plus(b, r)) == Plus(b, Plus(a, r))
  {
  }

  /** Removing two keys in either order leaves the same set. */
  lemma RemoveBoth(keys: set<FeedbackKey>, j: FeedbackKey, k: FeedbackKey)
    ensures keys - {j} - {k} == keys - {k} - {j}
  {
  }

  /** Equal sets of keys have equal tallies. */
  lemma TallySame(fs: map<FeedbackKey, Feedback>, a: set<FeedbackKey>, b: set<FeedbackKey>, id: ProductId)
    requires a <= fs.Keys && a == b
    ensures Tally(fs, a, id) == Tally(fs, b, id)
  {
  }

  /** Only the feedbacks under `keys` matter. */
  lemma {:induction false} TallyAgree(fs: map<FeedbackKey, Feedback>, gs: map<FeedbackKey, Feedback>,
                                      keys: set<FeedbackKey>, id: ProductId)
    requires keys <= fs.Keys && keys <= gs.Keys
    requires forall k :: k in keys ==> fs[k] == gs[k]
    ensures Tally(fs, keys, id) == Tally(gs, keys, id)
    decreases keys
  {
    if keys != {} {
      var k :| k in keys;
      TallyRemove(fs, keys, id, k);
      TallyRemove(gs, keys, id, k);
      TallyAgree(fs, gs, keys - {k}, id);
    }
  }

  /** Replacing one stored feedback moves the totals by the difference of the two shares. */
  lemma TallyReplace(fs: map<FeedbackKey, Feedback>, k: FeedbackKey, f: Feedback, id: ProductId)
    requires k in fs
    ensures Plus(Totalled(fs[k := f], id), Share(k, fs[k], id)) == Plus(Totalled(fs, id), Share(k, f, id))
  {
    var gs := fs[k := f];
    assert gs.Keys == fs.Keys;
    TallyRemove(fs, fs.Keys, id, k);
    TallyRemove(gs, gs.Keys, id, k);
    TallyAgree(fs, gs, fs.Keys - {k}, id);
  }

  /** Storing a feedback under a new key adds its share. */
  lemma TallyInsert(fs: map<FeedbackKey, Feedback>, k: FeedbackKey, f: Feedback, id: ProductId)
    requires k !in fs
    ensures Totalled(fs[k := f], id) == Plus(Share(k, f, id), Totalled(fs, id))
  {
    var gs := fs[k := f];
    assert gs.Keys - {k} == fs.Keys;
    TallyRemove(gs, gs.Keys, id, k);
    TallyAgree(fs, gs, fs.Keys, id);
  }

  /** Deleting a stored feedback takes its share away. */
  lemma TallyDelete(fs: map<FeedbackKey, Feedback>, k: FeedbackKey, id: ProductId)
    requires k in fs
    ensures Plus(Totalled(fs - {k}, id), Share(k, fs[k], id)) == Totalled(fs, id)
  {
    var gs := fs - {k};
    assert gs.Keys == fs.Keys - {k};
    TallyRemove(fs, fs.Keys, id, k);
    TallyAgree(fs, gs, gs.Keys, id);
  }
}
