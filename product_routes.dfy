/** The admin routes of the product router (api/routes/product.js:177-406): creating a product and
    updating its fields and images, with the cart items that follow the product. The image upload
    and deletion services are not modelled: the uploaded images are an input, and a failed deletion
    is a flag. The trending and search routes are the modules Trending and Search. */
module ProductRoutes {
  import opened Common
  import opened Records
  import opened Database
  import opened FileType

  /** `checkIfAdmin` (product.js:398-406). `admin` is what `findOne({role: "admin"})` returns. A
      missing admin makes the middleware throw, which nothing answers; anyone else is forbidden.
      `None` lets the request through. */
  function CheckIfAdmin(admin: Option<UserId>, userId: UserId): (stop: Option<Reply>)
    ensures stop.None? <==> admin == Some(userId)
    ensures admin.None? ==> stop == Some(Unanswered)
    ensures admin.Some? && admin.value != userId ==> stop == Some(Failure(Forbidden))
  {
    if admin.None? then Some(Unanswered)
    else if admin.value != userId then Some(Failure(Forbidden))
    else None
  }

  /** `admin` is a faithful answer to the admin lookup on `users`. */
  predicate AdminLookup(users: map<UserId, User>, admin: Option<UserId>)
  {
    match admin
    case None => forall u :: u in users ==> users[u].role != "admin"
    case Some(a) => a in users && users[a].role == "admin"
  }

  /** The number of files the upload would store: one for a single file, the array's length. */
  function FileCount(u: Upload): nat
  {
    match u
    case NoFiles => 0
    case One(_) => 1
    case Several(fs) => |fs|
  }

  /** `areFilesValid` as a value (the method FileType.AreFilesValid computes it). */
  predicate FilesValid(u: Upload)
  {
    match u
    case NoFiles => false
    case One(f) => IsFileValid(Some(f))
    case Several(fs) => forall i :: 0 <= i < |fs| ==> FileFilter(fs[i])
  }

  /** A form string field that is present and non-empty (a truthy value). */
  predicate Given(s: Option<string>) { s.Some? && s.value != "" }

  /** `POST /product/new`. `uploaded` are the images the upload service returns, one per file,
      `newId` the fresh product id and `now` the clock reading. */
  method NewProduct(db: Db, userId: UserId, admin: Option<UserId>, name: Option<string>, price: Option<int>,
                    quantity: Option<int>, description: Option<string>, currency: Option<string>,
                    files: Upload, uploaded: seq<Image>, newId: ProductId, now: int) returns (reply: Reply)
    requires db.Valid() && AdminLookup(db.users, admin)
    requires |uploaded| == FileCount(files) && newId !in db.products
    modifies db
    ensures db.Valid()
    ensures CheckIfAdmin(admin, userId).Some? ==>
              reply == CheckIfAdmin(admin, userId).value && db.State() == old(db.State())
    ensures CheckIfAdmin(admin, userId).None? && (files.NoFiles? || (files.Several? && |files.files| > 10)) ==>
              reply == Failure(InternalError) && db.State() == old(db.State())
    ensures CheckIfAdmin(admin, userId).None? && !files.NoFiles? && !(files.Several? && |files.files| > 10)
            && !FilesValid(files) ==>
              reply == Failure(BadRequest) && db.State() == old(db.State())
    ensures CheckIfAdmin(admin, userId).None? && !files.NoFiles? && !(files.Several? && |files.files| > 10)
            && FilesValid(files) ==>
              if Given(name) && price.Some? && quantity.Some? && Given(description) && Given(currency) then
                && reply == Success
                && db.State() == old(db.State()).(products := old(db.products)[newId :=
                     Product(name.value, price.value, quantity.value, description.value, currency.value,
                             uploaded, 0, 0, now)])
              else reply == Unanswered && db.State() == old(db.State())
    ensures reply == Success ==>
              && newId in db.products && |db.products[newId].images| <= 10
              && (|db.products[newId].images| == 0 <==> files == Several([]))
  {
    var stop := CheckIfAdmin(admin, userId);
    if stop.Some? {
      return stop.value;
    }
    if files.NoFiles? || (files.Several? && |files.files| > 10) {
      return Failure(InternalError);
    }
    var valid := AreFilesValid(files);
    if !valid {
      return Failure(BadRequest);
    }
    if !(Given(name) && price.Some? && quantity.Some? && Given(description) && Given(currency)) {
      return Unanswered;
    }
    db.products := db.products[newId := Product(name.value, price.value, quantity.value, description.value,
                                                currency.value, uploaded, 0, 0, now)];
    reply := Success;
  }

  /** The `files` entry counts as present for an update only as a non-empty array (product.js:267). */
  predicate FilesPresent(u: Upload)
  {
    u.Several? && |u.files| > 0
  }

  /** The filter `!imgKeys.includes(img.key)`. */
  function KeyNotIn(keys: seq<string>): Image -> bool
  {
    (img: Image) => img.key !in keys
  }

  /** The images after an update: the old ones, then the uploaded ones, without those whose key is
      to be removed (product.js:316-323). */
  function MergeImages(current: seq<Image>, uploaded: seq<Image>, keys: seq<string>): (r: seq<Image>)
    ensures |r| <= |current| + |uploaded|
    ensures forall img :: img in r <==> (img in current || img in uploaded) && img.key !in keys
  {
    Filter(current + uploaded, KeyNotIn(keys))
  }

  /** The product after an update: a field given in the form replaces the stored one. */
  function UpdatedProduct(p: Product, name: Option<string>, description: Option<string>, price: Option<int>,
                          quantity: Option<int>, uploaded: seq<Image>, keys: seq<string>): Product
  {
    p.(name := if Given(name) then name.value else p.name,
       price := if price.Some? then price.value else p.price,
       description := if Given(description) then description.value else p.description,
       quantity := if quantity.Some? then quantity.value else p.quantity,
       images := MergeImages(p.images, uploaded, keys))
  }

  /** The cart items after `updateMany({product_id, checkout: false}, {$set: price, name,
      description})` (product.js:325-334): the open items of the product carry its new price, name
      and description; every other item is left alone. */
  function Resync(items: seq<CartItem>, id: ProductId, p: Product): (r: seq<CartItem>)
    ensures |r| == |items|
    ensures forall i :: 0 <= i < |items| && items[i].productId == id && !items[i].checkout ==>
              Synced(r[i], p) && r[i] == items[i].(price := r[i].price, name := r[i].name, description := r[i].description)
    ensures forall i :: 0 <= i < |items| && (items[i].productId != id || items[i].checkout) ==> r[i] == items[i]
  {
    seq(|items|, i requires 0 <= i < |items| =>
      if items[i].productId == id && !items[i].checkout
      then items[i].(price := p.price, name := p.name, description := p.description)
      else items[i])
  }

  /** The images a product would hold with the uploaded files added, before any is removed. */
  function ImageCount(p: Product, files: Upload): nat
  {
    |p.images| + (if FilesPresent(files) then FileCount(files) else 0)
  }

  /** The checks of `POST /product/update` on the product, the files and the image keys
      (product.js:260-313): the error it answers with, or `None` when the update goes ahead. */
  function UpdateRefusal(products: map<ProductId, Product>, productId: ProductId, files: Upload,
                         keys: seq<string>): (stop: Option<Reply>)
    ensures productId !in products ==> stop == Some(Failure(InternalError))
    ensures productId in products && FilesPresent(files) && !FilesValid(files) ==> stop == Some(Failure(BadRequest))
    ensures (productId in products && (FilesPresent(files) ==> FilesValid(files))
             && ImageCount(products[productId], files) > 10)
            ==> stop == Some(Failure(BadRequest))
    ensures (productId in products && (FilesPresent(files) ==> FilesValid(files))
             && ImageCount(products[productId], files) <= 10
             && |keys| > 0 && |keys| >= ImageCount(products[productId], files))
            ==> stop == Some(Failure(InternalError))
    ensures stop.None? <==> productId in products && (FilesPresent(files) ==> FilesValid(files))
                            && ImageCount(products[productId], files) <= 10
                            && (|keys| == 0 || |keys| < ImageCount(products[productId], files))
  {
    if productId !in products then Some(Failure(InternalError))
    else if FilesPresent(files) && !FilesValid(files) then Some(Failure(BadRequest))
    else
      var current := |products[productId].images|;
      var adding := if FilesPresent(files) then FileCount(files) else 0;
      if current + adding > 10 then Some(Failure(BadRequest))
      else if |keys| > 0 && |keys| >= current + adding then Some(Failure(InternalError))
      else None
  }

  /** What `POST /product/update` does once the admin check and the field checks have passed
      (product.js:260-361): the answer and the store afterwards. */
  ghost function UpdateOutcome(t: Tables, productId: ProductId, name: Option<string>, description: Option<string>,
                               price: Option<int>, quantity: Option<int>, files: Upload, keys: seq<string>,
                               uploaded: seq<Image>, deleteFails: bool): (Reply, Tables)
  {
    var stop := UpdateRefusal(t.products, productId, files, keys);
    if stop.Some? then (stop.value, t)
    else
      var p := UpdatedProduct(t.products[productId], name, description, price, quantity, uploaded, keys);
      (if |keys| > 0 && deleteFails then Failure(InternalError) else Success,
       t.(products := t.products[productId := p], cartItems := Resync(t.cartItems, productId, p)))
  }

  /** `POST /product/update`. `keys` is the parsed `img_keys` list, `uploaded` the images the upload
      service returns for the files, and `deleteFails` whether removing the keyed images from the
      storage service fails. */
  method UpdateProduct(db: Db, userId: UserId, admin: Option<UserId>, productId: ProductId,
                       name: Option<string>, description: Option<string>, price: Option<int>,
                       quantity: Option<int>, files: Upload, keys: seq<string>, uploaded: seq<Image>,
                       deleteFails: bool) returns (reply: Reply)
    requires db.Valid() && AdminLookup(db.users, admin)
    requires |uploaded| == (if FilesPresent(files) then FileCount(files) else 0)
    modifies db
    ensures db.Valid()
    ensures CheckIfAdmin(admin, userId).Some? ==>
              reply == CheckIfAdmin(admin, userId).value && db.State() == old(db.State())
    ensures CheckIfAdmin(admin, userId).None?
            && ((quantity.Some? && quantity.value <= 0) || (price.Some? && price.value <= 0)) ==>
              reply == Unanswered && db.State() == old(db.State())
    ensures CheckIfAdmin(admin, userId).None? && !(quantity.Some? && quantity.value <= 0)
            && !(price.Some? && price.value <= 0) ==>
              (reply, db.State()) == UpdateOutcome(old(db.State()), productId, name, description, price, quantity,
                                                   files, keys, uploaded, deleteFails)
  {
    var stop := CheckIfAdmin(admin, userId);
    if stop.Some? {
      return stop.value;
    }
    if (quantity.Some? && quantity.value <= 0) || (price.Some? && price.value <= 0) {
      return Unanswered;
    }
    UpdateConsistent(db.State(), productId, name, description, price, quantity, files, keys, uploaded, deleteFails);
    reply := ApplyUpdate(db, productId, name, description, price, quantity, files, keys, uploaded, deleteFails);
  }

  /** The body of the update handler after its checks on the caller and on the numeric fields. */
  method ApplyUpdate(db: Db, productId: ProductId, name: Option<string>, description: Option<string>,
                     price: Option<int>, quantity: Option<int>, files: Upload, keys: seq<string>,
                     uploaded: seq<Image>, deleteFails: bool) returns (reply: Reply)
    modifies db
    ensures (reply, db.State()) == UpdateOutcome(old(db.State()), productId, name, description, price, quantity,
                                                 files, keys, uploaded, deleteFails)
  {
    var stop := CheckUpdate(db.products, productId, files, keys);
    if stop.Some? {
      return stop.value;
    }
    var p := UpdatedProduct(db.products[productId], name, description, price, quantity, uploaded, keys);
    Store(db, productId, p);
    reply := if |keys| > 0 && deleteFails then Failure(InternalError) else Success;
  }

  /** The checks of the update handler, in the order it makes them. */
  method CheckUpdate(products: map<ProductId, Product>, productId: ProductId, files: Upload, keys: seq<string>)
    returns (stop: Option<Reply>)
    ensures stop == UpdateRefusal(products, productId, files, keys)
  {
    if productId !in products {
      return Some(Failure(InternalError));
    }
    var adding := 0;
    if FilesPresent(files) {
      adding := |files.files|;
      var valid := AreFilesValid(files);
      if !valid {
        return Some(Failure(BadRequest));
      }
    }
    var current := |products[productId].images|;
    if current + adding > 10 {
      return Some(Failure(BadRequest));
    }
    if |keys| > 0 && |keys| >= current + adding {
      return Some(Failure(InternalError));
    }
    return None;
  }

  /** `findByIdAndUpdate` on the product followed by the `updateMany` on its open cart items. */
  method Store(db: Db, productId: ProductId, p: Product)
    modifies db
    ensures db.State() == old(db.State()).(products := old(db.products)[productId := p],
                                           cartItems := Resync(old(db.cartItems), productId, p))
  {
    db.products := db.products[productId := p];
    db.cartItems := Resync(db.cartItems, productId, p);
  }

  /** An update keeps the store consistent. */
  lemma UpdateConsistent(t: Tables, productId: ProductId, name: Option<string>, description: Option<string>,
                         price: Option<int>, quantity: Option<int>, files: Upload, keys: seq<string>,
                         uploaded: seq<Image>, deleteFails: bool)
    requires Consistent(t)
    ensures Consistent(UpdateOutcome(t, productId, name, description, price, quantity, files, keys, uploaded, deleteFails).1)
  {
    if productId in t.products {
      var p := UpdatedProduct(t.products[productId], name, description, price, quantity, uploaded, keys);
      ResyncConsistent(t, productId, p);
    }
  }

  /** An update that changes the product leaves it at most ten images, keeps every other product,
      and leaves every open item of the product at its new price, name and description. */
  lemma UpdateImagesBounded(t: Tables, productId: ProductId, name: Option<string>, description: Option<string>,
                            price: Option<int>, quantity: Option<int>, files: Upload, keys: seq<string>,
                            uploaded: seq<Image>, deleteFails: bool)
    requires |uploaded| == (if FilesPresent(files) then FileCount(files) else 0)
    ensures var after := UpdateOutcome(t, productId, name, description, price, quantity, files, keys, uploaded, deleteFails).1;
            && after.products.Keys == t.products.Keys
            && (forall id :: id in t.products && id != productId ==> after.products[id] == t.products[id])
            && (after != t ==> |after.products[productId].images| <= 10)
            && (after != t ==>
                  forall i :: 0 <= i < |after.cartItems| && after.cartItems[i].productId == productId
                              && !after.cartItems[i].checkout ==>
                    Synced(after.cartItems[i], after.products[productId]))
  {
  }

  /** Replacing a product and re-syncing its open items keeps the store consistent. */
  lemma ResyncConsistent(t: Tables, id: ProductId, p: Product)
    requires Consistent(t) && id in t.products
    ensures Consistent(t.(products := t.products[id := p], cartItems := Resync(t.cartItems, id, p)))
  {
    var t' := t.(products := t.products[id := p], cartItems := Resync(t.cartItems, id, p));
    var r := t'.cartItems;
    assert ItemsLinked(t');
    assert QuantitiesInRange(r);
    forall i, j | 0 <= i < j < |r|
      ensures r[i].id != r[j].id
      ensures OpenPair(r[i], r[j]) ==> r[i].productId != r[j].productId
    {
    }
    assert OpenItemsSynced(t');
  }
}
