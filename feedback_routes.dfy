/** The second feedback router (api/routes/feedbackRoutes.js), which the application does not mount:
    its create route both rates a product for the first time and rerates it. As written, a first
    rating builds a feedback without the `created_at` the schema requires
    (api/models/feedback.js:17-20), so saving it fails; `CreateAsWritten` models that, `Create` the
    route with the creation time filled in. */
module FeedbackRoutes {
  import opened Common
  import opened Records
  import opened Database
  import opened Ratings
  import opened JsText
  import FeedbackRouter

  /** `CheckIfItemBought` of this router (feedbackRoutes.js:75-92): stars outside 1..5 are refused
      before the purchase is looked up. NaN compares false and passes. */
  function CheckIfItemBought(items: seq<CartItem>, userId: UserId, productId: ProductId, stars: Option<int>)
    : (stop: Option<Reply>)
    ensures stars.Some? && (stars.value > 5 || stars.value < 1) ==> stop == Some(Failure(BadRequest))
    ensures stop.None? <==> !(stars.Some? && (stars.value > 5 || stars.value < 1))
                            && exists i :: 0 <= i < |items| && items[i].userId == userId
                                           && items[i].productId == productId && items[i].checkout
    ensures stop.Some? ==> stop == Some(Failure(BadRequest))
  {
    if stars.Some? && (stars.value > 5 || stars.value < 1) then Some(Failure(BadRequest))
    else FeedbackRouter.CheckIfItemBought(items, userId, productId)
  }

  /** The feedback this route stores for `key`: the new stars, the supplied text or "", and the
      creation time of the old feedback, or `stamp` for a first one. */
  function Posted(fs: map<FeedbackKey, Feedback>, key: FeedbackKey, stars: int, text: Option<string>,
                  stamp: Option<int>): (f: Feedback)
    ensures f.stars == stars && f.text == (if FeedbackRouter.TextGiven(text) then text.value else "")
    ensures key in fs ==> f.createdAt == fs[key].createdAt
    ensures key !in fs ==> f.createdAt == stamp
  {
    var text := if FeedbackRouter.TextGiven(text) then text.value else "";
    if key in fs then fs[key].(stars := stars, text := text) else Feedback(stars, text, stamp)
  }

  /** The store after an accepted rating: the product's star total moves by the change of stars (by
      the stars, for a first rating), its review count grows by one for a first rating, and the
      feedback is stored. */
  ghost function Rated(t: Tables, key: FeedbackKey, stars: int, text: Option<string>, stamp: Option<int>): Tables
    requires key.productId in t.products
  {
    var p := t.products[key.productId];
    var old_stars := if key in t.feedbacks then t.feedbacks[key].stars else 0;
    var reviews := if key in t.feedbacks then 0 else 1;
    t.(products := t.products[key.productId := p.(totalStars := p.totalStars + stars - old_stars,
                                                  totalReviews := p.totalReviews + reviews)],
       feedbacks := t.feedbacks[key := Posted(t.feedbacks, key, stars, text, stamp)])
  }

  /** What `POST /create` (feedbackRoutes.js:8-69) does for the authenticated `userId`, with `stars`
      converted and `stamp` the `created_at` it gives a first feedback. A NaN star value reaches the
      save as a NaN total, which the store refuses; a feedback without `created_at` fails the schema.
      So does a product left with a star total and a review count of 0, whose `average_review` is
      NaN. Each failure aborts the transaction. */
  ghost function CreateOutcome(t: Tables, userId: UserId, productId: ProductId, stars: Option<int>,
                               text: Option<string>, stamp: Option<int>): (Reply, Tables)
  {
    var key := FeedbackKey(productId, userId);
    var stop := CheckIfItemBought(t.cartItems, userId, productId, stars);
    if stop.Some? then (stop.value, t)
    else if productId !in t.products then (Failure(BadRequest), t)
    else if key in t.feedbacks && t.feedbacks[key].stars <= 1 && stars.Some? && stars.value <= 1 then
      (Failure(BadRequest), t)
    else if stars.None? then (Failure(InternalError), t)
    else if !AverageStorable(t.products[productId].totalStars + stars.value
                             - (if key in t.feedbacks then t.feedbacks[key].stars else 0),
                             t.products[productId].totalReviews + (if key in t.feedbacks then 0 else 1)) then
      (Failure(InternalError), t)
    else if Posted(t.feedbacks, key, stars.value, text, stamp).createdAt.None? then (Failure(InternalError), t)
    else (Success, Rated(t, key, stars.value, text, stamp))
  }

  /** As written, no first rating is ever stored: every request that passes the checks for a user
      who has not rated the product ends in an internal error and leaves the store as it was. */
  lemma FirstRatingFails(t: Tables, userId: UserId, productId: ProductId, stars: Option<int>, text: Option<string>)
    requires FeedbackKey(productId, userId) !in t.feedbacks
    ensures CreateOutcome(t, userId, productId, stars, text, None).1 == t
    ensures CreateOutcome(t, userId, productId, stars, text, None).0 != Success
    ensures CheckIfItemBought(t.cartItems, userId, productId, stars).None? && productId in t.products ==>
              CreateOutcome(t, userId, productId, stars, text, None).0 == Failure(InternalError)
  {
  }

  /** A first rating by a buyer, with stars in range, is the concrete input: the schema-conforming
      route stores it, the route as written refuses it. */
  lemma FirstRatingWitness()
    ensures var p := Product("lamp", 1500, 3, "desk lamp", "usd", [], 0, 0, 0);
            var it := CartItem("i1", "c1", "p1", "u1", 1, 1500, "lamp", "desk lamp", true);
            var t := Tables(map["p1" := p], map["c1" := Cart("u1", true)], [it], map[], map[], [], map[], [], []);
            && CreateOutcome(t, "u1", "p1", Some(4), None, None) == (Failure(InternalError), t)
            && CreateOutcome(t, "u1", "p1", Some(4), None, Some(7)).0 == Success
            && CreateOutcome(t, "u1", "p1", Some(4), None, Some(7)).1.feedbacks
               == map[FeedbackKey("p1", "u1") := Feedback(4, "", Some(7))]
            && CreateOutcome(t, "u1", "p1", Some(4), None, Some(7)).1.products["p1"].totalStars == 4
            && CreateOutcome(t, "u1", "p1", Some(4), None, Some(7)).1.products["p1"].totalReviews == 1
  {
    var p := Product("lamp", 1500, 3, "desk lamp", "usd", [], 0, 0, 0);
    var it := CartItem("i1", "c1", "p1", "u1", 1, 1500, "lamp", "desk lamp", true);
    var t := Tables(map["p1" := p], map["c1" := Cart("u1", true)], [it], map[], map[], [], map[], [], []);
    assert FeedbackRouter.BoughtBy("u1", "p1")(t.cartItems[0]);
  }

  /** An accepted rating with stars in 1..5: the totals move by the change of stars, the review count
      grows by one exactly for a first rating, and the stored feedback carries the new stars and
      the supplied text or "" (there is no fallback to the old text). A refused request changes
      nothing. */
  lemma CreateAnswers(t: Tables, userId: UserId, productId: ProductId, stars: Option<int>,
                      text: Option<string>, stamp: Option<int>)
    ensures var (reply, u) := CreateOutcome(t, userId, productId, stars, text, stamp);
            var key := FeedbackKey(productId, userId);
            && (reply != Success ==> reply.Failure? && u == t)
            && (reply == Success ==>
                  && stars.Some? && 1 <= stars.value <= 5 && productId in t.products
                  && u.feedbacks.Keys == t.feedbacks.Keys + {key}
                  && u.feedbacks[key].stars == stars.value
                  && u.feedbacks[key].text == (if FeedbackRouter.TextGiven(text) then text.value else "")
                  && u.products[productId].totalStars - t.products[productId].totalStars
                     == stars.value - (if key in t.feedbacks then t.feedbacks[key].stars else 0)
                  && u.products[productId].totalReviews - t.products[productId].totalReviews
                     == (if key in t.feedbacks then 0 else 1))
            && (key in t.feedbacks && t.feedbacks[key].stars <= 1 && stars.Some? && stars.value <= 1
                ==> reply.Failure?)
  {
  }

  /** On a store whose feedbacks all carry their creation time, given a creation time for a first
      feedback, the route succeeds exactly when the buyer check passes with stars, the product exists,
      the request is not a low-to-low revision, and the new totals do not leave 0 stars over 0
      reviews. */
  lemma StampedSucceeds(t: Tables, userId: UserId, productId: ProductId, stars: Option<int>,
                        text: Option<string>, now: int)
    requires forall k :: k in t.feedbacks ==> t.feedbacks[k].createdAt.Some?
    ensures var key := FeedbackKey(productId, userId);
            CreateOutcome(t, userId, productId, stars, text, Some(now)).0 == Success <==>
              && CheckIfItemBought(t.cartItems, userId, productId, stars).None?
              && stars.Some? && productId in t.products
              && !(key in t.feedbacks && t.feedbacks[key].stars <= 1 && stars.value <= 1)
              && AverageStorable(t.products[productId].totalStars + stars.value
                                 - (if key in t.feedbacks then t.feedbacks[key].stars else 0),
                                 t.products[productId].totalReviews + (if key in t.feedbacks then 0 else 1))
  {
  }

  /** Storing a rating keeps the store consistent when the stored feedback has its creation time. */
  lemma RatedConsistent(t: Tables, key: FeedbackKey, stars: int, text: Option<string>, stamp: Option<int>)
    requires Consistent(t) && key.productId in t.products
    requires Posted(t.feedbacks, key, stars, text, stamp).createdAt.Some?
    ensures Consistent(Rated(t, key, stars, text, stamp))
  {
    var u := Rated(t, key, stars, text, stamp);
    assert u.products.Keys == t.products.Keys;
    forall id | id in t.products
      ensures u.products[id].price == t.products[id].price && u.products[id].name == t.products[id].name
              && u.products[id].description == t.products[id].description
    {
    }
  }

  /** Storing a rating keeps every product's totals equal to the sum and count of its stored
      feedbacks. */
  lemma RatedKeepsTally(t: Tables, key: FeedbackKey, stars: int, text: Option<string>, stamp: Option<int>)
    requires key.productId in t.products && RatingsTallied(t.products, t.feedbacks)
    ensures RatingsTallied(Rated(t, key, stars, text, stamp).products, Rated(t, key, stars, text, stamp).feedbacks)
  {
    var u := Rated(t, key, stars, text, stamp);
    forall id | id in u.products
      ensures Totals(u.products[id].totalStars, u.products[id].totalReviews) == Totalled(u.feedbacks, id)
    {
      if key in t.feedbacks {
        TallyReplace(t.feedbacks, key, u.feedbacks[key], id);
      } else {
        TallyInsert(t.feedbacks, key, u.feedbacks[key], id);
      }
    }
  }

  /** The route with `created_at` filled in keeps the store consistent, and every product's totals
      equal to the sum and count of its stored feedbacks. */
  lemma CreateKeepsInvariants(t: Tables, userId: UserId, productId: ProductId, stars: Option<int>,
                              text: Option<string>, now: int)
    requires Consistent(t)
    ensures Consistent(CreateOutcome(t, userId, productId, stars, text, Some(now)).1)
    ensures RatingsTallied(t.products, t.feedbacks) ==>
              RatingsTallied(CreateOutcome(t, userId, productId, stars, text, Some(now)).1.products,
                             CreateOutcome(t, userId, productId, stars, text, Some(now)).1.feedbacks)
  {
    if CreateOutcome(t, userId, productId, stars, text, Some(now)).0 == Success {
      var key := FeedbackKey(productId, userId);
      RatedConsistent(t, key, stars.value, text, Some(now));
      if RatingsTallied(t.products, t.feedbacks) {
        RatedKeepsTally(t, key, stars.value, text, Some(now));
      }
    }
  }

  /** `POST /create` with the creation time `now` stored on a first feedback. */
  method Create(db: Db, userId: UserId, productId: ProductId, stars: Option<string>, text: Option<string>,
                now: int) returns (reply: Reply)
    requires db.Valid()
    modifies db
    ensures db.Valid()
    ensures RatingsTallied(old(db.products), old(db.feedbacks)) ==> RatingsTallied(db.products, db.feedbacks)
    ensures (reply, db.State())
            == CreateOutcome(old(db.State()), userId, productId, ConvertToInt(stars), text, Some(now))
  {
    CreateKeepsInvariants(db.State(), userId, productId, ConvertToInt(stars), text, now);
    reply := Post(db, userId, productId, ConvertToInt(stars), text, Some(now));
  }

  /** `POST /create` as written: a first feedback gets no creation time. */
  method CreateAsWritten(db: Db, userId: UserId, productId: ProductId, stars: Option<string>,
                         text: Option<string>) returns (reply: Reply)
    modifies db
    ensures (reply, db.State()) == CreateOutcome(old(db.State()), userId, productId, ConvertToInt(stars), text, None)
  {
    reply := Post(db, userId, productId, ConvertToInt(stars), text, None);
  }

  /** The create handler after `convertToInt`; `stamp` is the `created_at` of a new feedback. */
  method Post(db: Db, userId: UserId, productId: ProductId, s: Option<int>, text: Option<string>,
              stamp: Option<int>) returns (reply: Reply)
    modifies db
    ensures (reply, db.State()) == CreateOutcome(old(db.State()), userId, productId, s, text, stamp)
  {
    var stop := CheckIfItemBought(db.cartItems, userId, productId, s);
    if stop.Some? {
      return stop.value;
    }
    if productId !in db.products {
      return Failure(BadRequest);
    }
    var key := FeedbackKey(productId, userId);
    var found := key in db.feedbacks;
    if found && db.feedbacks[key].stars <= 1 && s.Some? && s.value <= 1 {
      return Failure(BadRequest);
    }
    if s.None? {
      // A NaN total cannot be saved.
      return Failure(InternalError);
    }
    var p := db.products[productId];
    var oldStars := if found then db.feedbacks[key].stars else 0;
    if !AverageStorable(p.totalStars + s.value - oldStars, p.totalReviews + if found then 0 else 1) {
      // The average is 0 / 0, NaN, and the product's save throws.
      return Failure(InternalError);
    }
    var f := Posted(db.feedbacks, key, s.value, text, stamp);
    if f.createdAt.None? {
      // The new feedback fails the schema; the transaction is aborted.
      return Failure(InternalError);
    }
    db.products := db.products[productId := p.(totalStars := p.totalStars + s.value - oldStars,
                                               totalReviews := p.totalReviews + if found then 0 else 1)];
    db.feedbacks := db.feedbacks[key := f];
    reply := Success;
  }
}
