/** The feedback router mounted by the application (api/routes/feedback.js): rating a bought
    product and removing one's rating. */
module FeedbackRouter {
  import opened Common
  import opened Records
  import opened Database
  import opened Ratings
  import opened JsText

  /** A checked-out cart item of `userId` for `productId`. */
  function BoughtBy(userId: UserId, productId: ProductId): CartItem -> bool
  {
    (it: CartItem) => it.userId == userId && it.productId == productId && it.checkout
  }

  /** `CheckIfItemBought` (feedback.js:180-193): a request from a user who has no checked-out item of
      the product is refused; `None` lets it through. */
  function CheckIfItemBought(items: seq<CartItem>, userId: UserId, productId: ProductId): (stop: Option<Reply>)
    ensures stop.None? <==> exists i :: 0 <= i < |items| && items[i].userId == userId
                                        && items[i].productId == productId && items[i].checkout
    ensures stop.Some? ==> stop == Some(Failure(BadRequest))
  {
    var found := FindFirst(items, BoughtBy(userId, productId));
    if found.Some? then
      assert BoughtBy(userId, productId)(items[found.value]);
      None
    else
      assert forall i :: 0 <= i < |items| ==> !BoughtBy(userId, productId)(items[i]);
      Some(Failure(BadRequest))
  }

  /** A star value counts as given when it is a number other than 0 (NaN and 0 are falsy). */
  predicate StarsGiven(stars: Option<int>)
  {
    stars.Some? && stars.value != 0
  }

  /** A form text that is present and non-empty. */
  predicate TextGiven(text: Option<string>)
  {
    text.Some? && text.value != ""
  }

  /** The stored feedback after an accepted request: given stars replace the old ones, and the
      text is the supplied one, else the old one. */
  function Revised(f: Feedback, stars: Option<int>, text: Option<string>): Feedback
  {
    f.(stars := if StarsGiven(stars) then stars.value else f.stars,
       text := if TextGiven(text) then text.value else f.text)
  }

  /** The store after an accepted request on the existing feedback `key`: the product's star total
      moves by the change of stars and its review count stays. */
  ghost function Rerated(t: Tables, key: FeedbackKey, stars: Option<int>, text: Option<string>): Tables
    requires key in t.feedbacks && key.productId in t.products
  {
    var p := t.products[key.productId];
    var f := t.feedbacks[key];
    var g := Revised(f, stars, text);
    t.(products := t.products[key.productId := p.(totalStars := p.totalStars + g.stars - f.stars)],
       feedbacks := t.feedbacks[key := g])
  }

  /** The product's star total after a revision of the existing feedback `key`. */
  ghost function RevisedStars(t: Tables, key: FeedbackKey, stars: Option<int>): int
    requires key in t.feedbacks && key.productId in t.products
  {
    t.products[key.productId].totalStars + (if StarsGiven(stars) then stars.value else t.feedbacks[key].stars)
    - t.feedbacks[key].stars
  }

  /** A rerating keeps the store consistent. */
  lemma RerateConsistent(t: Tables, key: FeedbackKey, stars: Option<int>, text: Option<string>)
    requires Consistent(t) && key in t.feedbacks && key.productId in t.products
    ensures Consistent(Rerated(t, key, stars, text))
  {
    var u := Rerated(t, key, stars, text);
    assert u.products.Keys == t.products.Keys;
    forall id | id in t.products
      ensures u.products[id].price == t.products[id].price && u.products[id].name == t.products[id].name
              && u.products[id].description == t.products[id].description
    {
    }
  }

  /** A rerating keeps every product's totals equal to the sum and count of its stored feedbacks. */
  lemma RerateKeepsTally(t: Tables, key: FeedbackKey, stars: Option<int>, text: Option<string>)
    requires key in t.feedbacks && key.productId in t.products
    requires RatingsTallied(t.products, t.feedbacks)
    ensures RatingsTallied(Rerated(t, key, stars, text).products, Rerated(t, key, stars, text).feedbacks)
  {
    var u := Rerated(t, key, stars, text);
    forall id | id in u.products
      ensures Totals(u.products[id].totalStars, u.products[id].totalReviews) == Totalled(u.feedbacks, id)
    {
      TallyReplace(t.feedbacks, key, u.feedbacks[key], id);
    }
  }

  /** What `POST /feedback/create` (feedback.js:36-118) does for the authenticated `userId`, with
      `stars` already converted: the answer and the store afterwards. A revision that would leave
      both star total and review count at 0 makes `average_review` NaN, and the product's save
      throws. */
  ghost function CreateOutcome(t: Tables, userId: UserId, productId: ProductId, stars: Option<int>,
                               text: Option<string>): (Reply, Tables)
  {
    var key := FeedbackKey(productId, userId);
    var stop := CheckIfItemBought(t.cartItems, userId, productId);
    if stop.Some? then (stop.value, t)
    else if StarsGiven(stars) && (stars.value > 5 || stars.value < 1) then (Failure(BadRequest), t)
    else if productId !in t.products then (Failure(BadRequest), t)
    else if key !in t.feedbacks then
      // The text update dereferences the missing feedback and the transaction is aborted.
      (if StarsGiven(stars) then Failure(InternalError) else Failure(BadRequest), t)
    else if StarsGiven(stars) && t.feedbacks[key].stars <= 1 && stars.value <= 1 then (Failure(BadRequest), t)
    else if !AverageStorable(RevisedStars(t, key, stars), t.products[productId].totalReviews) then
      (Failure(InternalError), t)
    else (Success, Rerated(t, key, stars, text))
  }

  /** What the create route answers: it only ever revises an existing feedback, with stars in
      range; a first rating is refused or fails; a refused request changes nothing. */
  lemma CreateAnswers(t: Tables, userId: UserId, productId: ProductId, stars: Option<int>, text: Option<string>)
    ensures var (reply, u) := CreateOutcome(t, userId, productId, stars, text);
            && (reply != Success ==> reply.Failure? && u == t)
            && (reply == Success <==>
                  var key := FeedbackKey(productId, userId);
                  && (exists i :: 0 <= i < |t.cartItems| && t.cartItems[i].userId == userId
                                  && t.cartItems[i].productId == productId && t.cartItems[i].checkout)
                  && !(StarsGiven(stars) && (stars.value > 5 || stars.value < 1))
                  && productId in t.products && key in t.feedbacks
                  && !(StarsGiven(stars) && t.feedbacks[key].stars <= 1 && stars.value <= 1)
                  && AverageStorable(RevisedStars(t, key, stars), t.products[productId].totalReviews))
            && u.feedbacks.Keys == t.feedbacks.Keys
            && (FeedbackKey(productId, userId) !in t.feedbacks && StarsGiven(stars) ==> reply != Success)
  {
  }

  /** The create route keeps the store consistent, and every product's totals equal to the sum and
      count of its stored feedbacks. */
  lemma CreateKeepsInvariants(t: Tables, userId: UserId, productId: ProductId, stars: Option<int>,
                              text: Option<string>)
    requires Consistent(t)
    ensures Consistent(CreateOutcome(t, userId, productId, stars, text).1)
    ensures RatingsTallied(t.products, t.feedbacks) ==>
              RatingsTallied(CreateOutcome(t, userId, productId, stars, text).1.products,
                             CreateOutcome(t, userId, productId, stars, text).1.feedbacks)
  {
    var key := FeedbackKey(productId, userId);
    if CreateOutcome(t, userId, productId, stars, text).0 == Success {
      RerateConsistent(t, key, stars, text);
      if RatingsTallied(t.products, t.feedbacks) {
        RerateKeepsTally(t, key, stars, text);
      }
    }
  }

  /** `POST /feedback/create`. `stars` and `text` are the request's `stars` and `feedback` values. */
  method Create(db: Db, userId: UserId, productId: ProductId, stars: Option<string>, text: Option<string>)
    returns (reply: Reply)
    requires db.Valid()
    modifies db
    ensures db.Valid()
    ensures RatingsTallied(old(db.products), old(db.feedbacks)) ==> RatingsTallied(db.products, db.feedbacks)
    ensures (reply, db.State()) == CreateOutcome(old(db.State()), userId, productId, ConvertToInt(stars), text)
  {
    CreateKeepsInvariants(db.State(), userId, productId, ConvertToInt(stars), text);
    reply := Rate(db, userId, productId, ConvertToInt(stars), text);
  }

  /** The create handler after `convertToInt`. */
  method Rate(db: Db, userId: UserId, productId: ProductId, s: Option<int>, text: Option<string>)
    returns (reply: Reply)
    modifies db
    ensures (reply, db.State()) == CreateOutcome(old(db.State()), userId, productId, s, text)
  {
    var stop := CheckIfItemBought(db.cartItems, userId, productId);
    if stop.Some? {
      return stop.value;
    }
    if StarsGiven(s) && (s.value > 5 || s.value < 1) {
      return Failure(BadRequest);
    }
    if productId !in db.products {
      return Failure(BadRequest);
    }
    var key := FeedbackKey(productId, userId);
    if key !in db.feedbacks {
      if !StarsGiven(s) {
        return Failure(BadRequest);
      }
      return Failure(InternalError);
    }
    var f := db.feedbacks[key];
    if StarsGiven(s) && f.stars <= 1 && s.value <= 1 {
      return Failure(BadRequest);
    }
    var p := db.products[productId];
    var g := Revised(f, s, text);
    if !AverageStorable(p.totalStars + g.stars - f.stars, p.totalReviews) {
      // The average is 0 / 0, NaN, and the product's save throws; the transaction is aborted.
      return Failure(InternalError);
    }
    db.products := db.products[productId := p.(totalStars := p.totalStars + g.stars - f.stars)];
    db.feedbacks := db.feedbacks[key := g];
    reply := Success;
  }

  /** The store after a first rating as the route evidently intends it (feedback.js:63-70, 88 and
      94-101): the product gains the stars and one review, and a new feedback with the supplied
      text, or "", is stored with its creation time `now`. */
  ghost function FirstRated(t: Tables, key: FeedbackKey, stars: int, text: Option<string>, now: int): Tables
    requires key.productId in t.products
  {
    var p := t.products[key.productId];
    t.(products := t.products[key.productId := p.(totalStars := p.totalStars + stars,
                                                  totalReviews := p.totalReviews + 1)],
       feedbacks := t.feedbacks[key := Feedback(stars, if TextGiven(text) then text.value else "", Some(now))])
  }

  /** `POST /feedback/create` with the missing feedback created before its text is set and stamped
      with `now`: a first rating of a bought product with stars in 1..5 is stored; every other
      request goes as written. */
  ghost function CreateFixedOutcome(t: Tables, userId: UserId, productId: ProductId, stars: Option<int>,
                                    text: Option<string>, now: int): (Reply, Tables)
  {
    var key := FeedbackKey(productId, userId);
    if CheckIfItemBought(t.cartItems, userId, productId).None? && StarsGiven(stars) && 1 <= stars.value <= 5
       && productId in t.products && key !in t.feedbacks
    then (Success, FirstRated(t, key, stars.value, text, now))
    else CreateOutcome(t, userId, productId, stars, text)
  }

  /** A first rating keeps the store consistent. */
  lemma FirstRatedConsistent(t: Tables, key: FeedbackKey, stars: int, text: Option<string>, now: int)
    requires Consistent(t) && key.productId in t.products
    ensures Consistent(FirstRated(t, key, stars, text, now))
  {
    var u := FirstRated(t, key, stars, text, now);
    assert u.products.Keys == t.products.Keys;
    forall id | id in t.products
      ensures u.products[id].price == t.products[id].price && u.products[id].name == t.products[id].name
              && u.products[id].description == t.products[id].description
    {
    }
  }

  /** A first rating keeps every product's totals equal to the sum and count of its stored feedbacks. */
  lemma FirstRatedKeepsTally(t: Tables, key: FeedbackKey, stars: int, text: Option<string>, now: int)
    requires key.productId in t.products && key !in t.feedbacks
    requires RatingsTallied(t.products, t.feedbacks)
    ensures RatingsTallied(FirstRated(t, key, stars, text, now).products, FirstRated(t, key, stars, text, now).feedbacks)
  {
    var u := FirstRated(t, key, stars, text, now);
    var f := u.feedbacks[key];
    assert u.feedbacks == t.feedbacks[key := f];
    forall id | id in u.products
      ensures Totals(u.products[id].totalStars, u.products[id].totalReviews) == Totalled(u.feedbacks, id)
    {
      assert id in t.products;
      assert Totals(t.products[id].totalStars, t.products[id].totalReviews) == Totalled(t.feedbacks, id);
      TallyInsert(t.feedbacks, key, f, id);
      if id != key.productId {
        assert u.products[id] == t.products[id];
      } else {
        assert u.products[id].totalStars == t.products[id].totalStars + stars;
        assert u.products[id].totalReviews == t.products[id].totalReviews + 1;
      }
    }
  }

  /** With the fix, a buyer's first rating with stars in 1..5 succeeds and adds one feedback and
      one review. */
  lemma CreateFixedAnswers(t: Tables, userId: UserId, productId: ProductId, stars: Option<int>,
                           text: Option<string>, now: int)
    ensures var (reply, u) := CreateFixedOutcome(t, userId, productId, stars, text, now);
            var key := FeedbackKey(productId, userId);
            && (reply != Success ==> u == t)
            && (key !in t.feedbacks ==>
                  (reply == Success <==>
                     && CheckIfItemBought(t.cartItems, userId, productId).None?
                     && StarsGiven(stars) && 1 <= stars.value <= 5 && productId in t.products))
            && (key !in t.feedbacks && reply == Success ==>
                  && u.feedbacks.Keys == t.feedbacks.Keys + {key}
                  && u.feedbacks[key].stars == stars.value && u.feedbacks[key].createdAt == Some(now)
                  && u.products[productId].totalStars == t.products[productId].totalStars + stars.value
                  && u.products[productId].totalReviews == t.products[productId].totalReviews + 1)
  {
    CreateAnswers(t, userId, productId, stars, text);
  }

  /** The fixed route keeps the store consistent and the totals tallied. */
  lemma CreateFixedKeepsInvariants(t: Tables, userId: UserId, productId: ProductId, stars: Option<int>,
                                   text: Option<string>, now: int)
    requires Consistent(t)
    ensures Consistent(CreateFixedOutcome(t, userId, productId, stars, text, now).1)
    ensures RatingsTallied(t.products, t.feedbacks) ==>
              RatingsTallied(CreateFixedOutcome(t, userId, productId, stars, text, now).1.products,
                             CreateFixedOutcome(t, userId, productId, stars, text, now).1.feedbacks)
  {
    var key := FeedbackKey(productId, userId);
    if CheckIfItemBought(t.cartItems, userId, productId).None? && StarsGiven(stars) && 1 <= stars.value <= 5
       && productId in t.products && key !in t.feedbacks {
      FirstRatedConsistent(t, key, stars.value, text, now);
      if RatingsTallied(t.products, t.feedbacks) {
        FirstRatedKeepsTally(t, key, stars.value, text, now);
      }
    } else {
      CreateKeepsInvariants(t, userId, productId, stars, text);
    }
  }

  /** `POST /feedback/create` with a first rating created and stamped at `now`. */
  method CreateFixed(db: Db, userId: UserId, productId: ProductId, stars: Option<string>, text: Option<string>,
                     now: int) returns (reply: Reply)
    requires db.Valid()
    modifies db
    ensures db.Valid()
    ensures RatingsTallied(old(db.products), old(db.feedbacks)) ==> RatingsTallied(db.products, db.feedbacks)
    ensures (reply, db.State()) == CreateFixedOutcome(old(db.State()), userId, productId, ConvertToInt(stars), text, now)
  {
    CreateFixedKeepsInvariants(db.State(), userId, productId, ConvertToInt(stars), text, now);
    reply := RateFixed(db, userId, productId, ConvertToInt(stars), text, now);
  }

  /** The fixed create handler after `convertToInt`. */
  method RateFixed(db: Db, userId: UserId, productId: ProductId, s: Option<int>, text: Option<string>, now: int)
    returns (reply: Reply)
    modifies db
    ensures (reply, db.State()) == CreateFixedOutcome(old(db.State()), userId, productId, s, text, now)
  {
    var key := FeedbackKey(productId, userId);
    if CheckIfItemBought(db.cartItems, userId, productId).None? && StarsGiven(s) && 1 <= s.value <= 5
       && productId in db.products && key !in db.feedbacks {
      var p := db.products[productId];
      db.products := db.products[productId := p.(totalStars := p.totalStars + s.value,
                                                 totalReviews := p.totalReviews + 1)];
      db.feedbacks := db.feedbacks[key := Feedback(s.value, if TextGiven(text) then text.value else "", Some(now))];
      reply := Success;
    } else {
      reply := Rate(db, userId, productId, s, text);
    }
  }

  /** After a successful rerating the product's star total moved by the change of stars, its review
      count stayed, and the stored stars are the new ones when given. */
  lemma RerateMovesTotals(t: Tables, key: FeedbackKey, stars: Option<int>, text: Option<string>)
    requires key in t.feedbacks && key.productId in t.products
    ensures var u := Rerated(t, key, stars, text);
            && u.products[key.productId].totalStars - t.products[key.productId].totalStars
               == u.feedbacks[key].stars - t.feedbacks[key].stars
            && u.products[key.productId].totalReviews == t.products[key.productId].totalReviews
            && (StarsGiven(stars) ==> u.feedbacks[key].stars == stars.value)
            && (!StarsGiven(stars) ==> u.products[key.productId] == t.products[key.productId])
            && u.feedbacks[key].text == (if TextGiven(text) then text.value
                                          else t.feedbacks[key].text)
            && u.feedbacks.Keys == t.feedbacks.Keys
  {
  }

  /** `POST /feedback/remove` (feedback.js:152-174): deletes the user's feedback on the product and
      leaves the product's totals as they were. */
  method Remove(db: Db, userId: UserId, productId: ProductId) returns (reply: Reply)
    requires db.Valid()
    modifies db
    ensures db.Valid()
    ensures var key := FeedbackKey(productId, userId);
            if key in old(db.feedbacks)
            then reply == Success && db.State() == old(db.State()).(feedbacks := old(db.feedbacks) - {key})
            else reply == Failure(NotFound) && db.State() == old(db.State())
  {
    var key := FeedbackKey(productId, userId);
    if key !in db.feedbacks {
      return Failure(NotFound);
    }
    db.feedbacks := db.feedbacks - {key};
    reply := Success;
  }

  /** A removal leaves the product counting one review more than it has stored feedbacks, so the
      totals no longer agree with the feedbacks. */
  lemma RemoveLeavesStaleTotals(products: map<ProductId, Product>, fs: map<FeedbackKey, Feedback>,
                                key: FeedbackKey)
    requires RatingsTallied(products, fs) && key in fs && key.productId in products
    ensures products[key.productId].totalReviews == Totalled(fs - {key}, key.productId).reviews + 1
    ensures !RatingsTallied(products, fs - {key})
  {
    TallyDelete(fs, key, key.productId);
  }
}
