/** The product controller: creation with defaults, partial update with an
    image swap, image removal, soft-deactivation and the three listings.
    The public file disk is tracked as the ghost set of stored paths. */
module Products {
  import opened Common
  import opened ProductModel
  import Categories

  /** An uploaded image file, known by the name the client gave it. */
  datatype Upload = Upload(clientName: string)

  /** `image` is `Invalid` when the upload is not a jpeg/png/jpg/gif image of
      at most 2048 KB. */
  datatype ProductRequest = ProductRequest(
    categoryId: Param<int>,
    name: Param<string>,
    description: Param<string>,
    price: Param<int>,
    image: Param<Upload>,
    isActive: Param<bool>,
    isFeatured: Param<bool>)

  // ----- Stored file names -----

  predicate IsDigit(c: char)
  {
    '0' <= c <= '9'
  }

  function Digit(d: nat): (c: char)
    requires d < 10
    ensures IsDigit(c)
  {
    ('0' as int + d) as char
  }

  /** The number a string of decimal digits denotes. */
  function DigitsValue(s: string): nat
    requires forall i | 0 <= i < |s| :: IsDigit(s[i])
  {
    if s == [] then 0
    else
      assert IsDigit(s[|s| - 1]);
      DigitsValue(s[..|s| - 1]) * 10 + (s[|s| - 1] as int - '0' as int)
  }

  /** The decimal text of a clock reading, as `time() . ''` prints it: digits
      only, denoting the reading, with no leading zero. */
  function Decimal(n: nat): (s: string)
    ensures |s| > 0
    ensures forall i | 0 <= i < |s| :: IsDigit(s[i])
    ensures DigitsValue(s) == n
    ensures |s| > 1 ==> s[0] != '0'
  {
    if n < 10 then [Digit(n)]
    else
      var init := Decimal(n / 10);
      var s := init + [Digit(n % 10)];
      assert s[..|s| - 1] == init;
      s
  }

  /** The path `storeAs('products', time() . '_' . <client name>, 'public')`
      returns for an upload at clock reading `now`. It is never the default
      sentinel: its tenth character is a digit, the sentinel's is 'd'. */
  function StoredPath(now: nat, u: Upload): (path: string)
    ensures |path| > 9 && path[..9] == "products/" && IsDigit(path[9])
    ensures Truthy(path) && path != DefaultImage
  {
    var path := "products/" + Decimal(now) + "_" + u.clientName;
    assert path[9] == Decimal(now)[0];
    assert DefaultImage[9] == 'd';
    path
  }

  /** The stored files after the controller's release step for `path`:
      `Storage::delete` only when the path is set and is not the sentinel. */
  function Release(stored: set<string>, path: Option<string>): (r: set<string>)
    ensures r <= stored
    ensures DefaultImage in stored ==> DefaultImage in r
    ensures stored - r == (if HasPath(path) && path.value != DefaultImage then stored * {path.value} else {})
  {
    if HasPath(path) && path.value != DefaultImage then stored - {path.value} else stored
  }

  // ----- Store -----

  /** The rules of `store` other than the category's existence. */
  predicate ProductFields(r: ProductRequest)
  {
    && r.categoryId.Given?
    && RequiredString(r.name, 255)
    && NullableText(r.description)
    && RequiredAtLeast(r.price, 0)
    && !r.image.Invalid?
    && OptionalBool(r.isActive)
    && OptionalBool(r.isFeatured)
  }

  /** The validation rules of `store`: an existing category, a non-blank
      name of at most 255 characters, a price not negative, an image upload
      if any, and booleans when the flags are sent. */
  function ValidNewProduct(r: ProductRequest, categoryIds: set<int>): (ok: bool)
    ensures ok ==> r.categoryId.Given? && r.categoryId.value in categoryIds
    ensures ok ==> r.name.Given? && !Blank(r.name.value) && |r.name.value| <= 255
    ensures ok ==> r.price.Given? && r.price.value >= 0
    ensures ok ==> !r.image.Invalid?
    ensures ok ==> (r.isActive.Absent? || r.isActive.Given?) && (r.isFeatured.Absent? || r.isFeatured.Given?)
  {
    RequiredIn(r.categoryId, categoryIds) && ProductFields(r)
  }

  /** A product as the controller keeps it: a set image path, a price of at
      least zero. */
  predicate WellFormed(p: Product)
  {
    HasPath(p.imagePath) && p.price >= 0
  }

  /** The row `store` builds: active unless told otherwise, not featured
      unless told otherwise, and the sentinel image when nothing was
      uploaded. */
  function NewProduct(r: ProductRequest, now: nat): (p: Product)
    requires ProductFields(r)
    ensures p.categoryId == r.categoryId.value && p.name == r.name.value && p.price == r.price.value
    ensures p.description == TextOrNull(r.description)
    ensures p.isActive == (if r.isActive.Given? then r.isActive.value else true)
    ensures p.isFeatured == (if r.isFeatured.Given? then r.isFeatured.value else false)
    ensures r.image.Given? ==> p.imagePath == Some(StoredPath(now, r.image.value))
    ensures !r.image.Given? ==> p.imagePath == Some(DefaultImage)
    ensures WellFormed(p)
  {
    Product(
      r.categoryId.value,
      r.name.value,
      TextOrNull(r.description),
      r.price.value,
      Some(if r.image.Given? then StoredPath(now, r.image.value) else DefaultImage),
      Patch(r.isActive, true),
      Patch(r.isFeatured, false))
  }

  // ----- Update -----

  /** The rules of `update` other than the category's existence. */
  predicate ProductPatchFields(r: ProductRequest)
  {
    && OptionalString(r.name, 255)
    && NullableText(r.description)
    && OptionalAtLeast(r.price, 0)
    && !r.image.Invalid?
    && OptionalBool(r.isActive)
    && OptionalBool(r.isFeatured)
  }

  /** The validation rules of `update`: every field optional, each sent
      one held to the rule `store` applies. */
  function ValidProductPatch(r: ProductRequest, categoryIds: set<int>): (ok: bool)
    ensures r == ProductRequest(Absent, Absent, Absent, Absent, Absent, Absent, Absent) ==> ok
    ensures ok && r.categoryId.Given? ==> r.categoryId.value in categoryIds
    ensures ok && r.name.Given? ==> !Blank(r.name.value) && |r.name.value| <= 255
    ensures ok && r.price.Given? ==> r.price.value >= 0
    ensures ok ==> !r.categoryId.Null? && !r.name.Null? && !r.price.Null?
  {
    OptionalIn(r.categoryId, categoryIds) && ProductPatchFields(r)
  }

  /** The `has(...)` assignments of `update`: each sent field is written,
      every other keeps its value; the image is handled separately. */
  function PatchProduct(p: Product, r: ProductRequest): (q: Product)
    requires ProductPatchFields(r)
    ensures q.categoryId == Patch(r.categoryId, p.categoryId)
    ensures q.name == Patch(r.name, p.name)
    ensures q.description == PatchText(r.description, p.description)
    ensures q.price == Patch(r.price, p.price)
    ensures q.isActive == Patch(r.isActive, p.isActive)
    ensures q.isFeatured == Patch(r.isFeatured, p.isFeatured)
    ensures q.imagePath == p.imagePath
    ensures WellFormed(p) ==> WellFormed(q)
  {
    Product(
      Patch(r.categoryId, p.categoryId),
      Patch(r.name, p.name),
      PatchText(r.description, p.description),
      Patch(r.price, p.price),
      p.imagePath,
      Patch(r.isActive, p.isActive),
      Patch(r.isFeatured, p.isFeatured))
  }

  /** The image step of `update`: a new upload replaces the path, no upload
      keeps it. */
  function SwapImage(p: Product, image: Param<Upload>, now: nat): (q: Product)
    ensures image.Given? ==> q == p.(imagePath := Some(StoredPath(now, image.value)))
    ensures !image.Given? ==> q == p
    ensures WellFormed(p) ==> WellFormed(q)
  {
    if image.Given? then p.(imagePath := Some(StoredPath(now, image.value))) else p
  }

  /** The stored files after the image step of `update`. */
  function SwapStored(stored: set<string>, oldPath: Option<string>, image: Param<Upload>, now: nat): (r: set<string>)
    ensures !image.Given? ==> r == stored
    ensures image.Given? ==> r == Release(stored, oldPath) + {StoredPath(now, image.value)}
  {
    if image.Given? then Release(stored, oldPath) + {StoredPath(now, image.value)} else stored
  }

  /** Replacing a set, non-default image leaves exactly the new file of the
      two: the old one is released, the new one is stored, and the default
      picture survives. */
  lemma {:induction false} SwapReleasesOldImage(stored: set<string>, oldPath: string, u: Upload, now: nat)
    requires Truthy(oldPath) && oldPath != DefaultImage && oldPath != StoredPath(now, u)
    ensures var r := SwapStored(stored, Some(oldPath), Given(u), now);
      oldPath !in r && StoredPath(now, u) in r && (DefaultImage in stored ==> DefaultImage in r)
      && r - {StoredPath(now, u)} == stored - {oldPath, StoredPath(now, u)}
  {
    var r := SwapStored(stored, Some(oldPath), Given(u), now);
    assert r == (stored - {oldPath}) + {StoredPath(now, u)};
  }

  // ----- Remove image and deactivate -----

  /** What `removeImage` writes: the sentinel path, nothing else touched. */
  function WithoutImage(p: Product): (q: Product)
    ensures q.imagePath == Some(DefaultImage) && q == p.(imagePath := Some(DefaultImage))
  {
    p.(imagePath := Some(DefaultImage))
  }

  /** Removing the image twice changes nothing the second time: neither the
      row nor the stored files. */
  lemma {:induction false} RemoveImageIdempotent(p: Product, stored: set<string>)
    ensures WithoutImage(WithoutImage(p)) == WithoutImage(p)
    ensures Release(stored, WithoutImage(p).imagePath) == stored
  {
    assert WithoutImage(p).imagePath.value == DefaultImage;
  }

  /** What `destroy` writes: inactive, nothing else touched. */
  function Deactivated(p: Product): (q: Product)
    ensures !q.isActive && q == p.(isActive := false)
  {
    p.(isActive := false)
  }

  // ----- Listings -----

  /** The rows `index` and `getFeatured` return: active and featured. */
  function FeaturedOf(products: map<int, Product>): (r: map<int, Product>)
    ensures forall id :: id in r <==> id in products && products[id].isActive && products[id].isFeatured
    ensures forall id | id in r :: r[id] == products[id]
  {
    map id | id in products && products[id].isActive && products[id].isFeatured :: products[id]
  }

  /** The rows `getByCategory` returns: active and in the category. */
  function InCategory(products: map<int, Product>, categoryId: int): (r: map<int, Product>)
    ensures forall id :: id in r <==> id in products && products[id].isActive && products[id].categoryId == categoryId
    ensures forall id | id in r :: r[id] == products[id]
  {
    map id | id in products && products[id].isActive && products[id].categoryId == categoryId :: products[id]
  }

  /** Deactivating a product drops exactly that product from every listing. */
  lemma {:induction false} DeactivationHidesFromListings(products: map<int, Product>, id: int, categoryId: int)
    requires id in products
    ensures FeaturedOf(products[id := Deactivated(products[id])]) == FeaturedOf(products) - {id}
    ensures InCategory(products[id := Deactivated(products[id])], categoryId) == InCategory(products, categoryId) - {id}
  {
    var after := products[id := Deactivated(products[id])];
    assert FeaturedOf(after).Keys == (FeaturedOf(products) - {id}).Keys;
    assert InCategory(after, categoryId).Keys == (InCategory(products, categoryId) - {id}).Keys;
  }

  class ProductController {
    /** The products table by primary key. */
    var products: map<int, Product>
    /** The next auto-increment key. */
    var nextId: int
    /** The paths of the files on the public disk. */
    ghost var stored: set<string>
    /** The categories table, read for `exists:categories,id`. */
    const categories: Categories.CategoryController

    ghost predicate Valid()
      reads this
    {
      KeysBelow(products, nextId) && forall id | id in products :: WellFormed(products[id])
    }

    constructor (categories: Categories.CategoryController, stored: set<string>)
      ensures Valid() && products == map[] && this.categories == categories && this.stored == stored
    {
      this.categories := categories;
      this.stored := stored;
      products := map[];
      nextId := 1;
    }

    /** `show`. */
    function Show(id: int): (r: Result<Product>)
      reads this
      ensures r.Fail? <==> id !in products
      ensures r.Fail? ==> r.code == NotFound
      ensures r.Ok? ==> r.value == products[id]
    {
      if id in products then Ok(products[id]) else Fail(NotFound)
    }

    /** `index` and `getFeatured`: the active, featured products. */
    function Featured(): (r: map<int, Product>)
      reads this
      ensures r == FeaturedOf(products)
      ensures forall id | id in r :: r[id].isActive && r[id].isFeatured
    {
      FeaturedOf(products)
    }

    /** `getByCategory`: the active products of one category (an unknown
        category simply has none). */
    function ByCategory(categoryId: int): (r: map<int, Product>)
      reads this
      ensures r == InCategory(products, categoryId)
      ensures forall id | id in r :: r[id].isActive && r[id].categoryId == categoryId
    {
      InCategory(products, categoryId)
    }

    /** `store`: validate, store the upload if any, insert the row. */
    method Store(req: ProductRequest, now: nat) returns (code: Code, id: int)
      requires Valid()
      modifies this
      ensures Valid()
      ensures code == Created <==> ValidNewProduct(req, categories.categories.Keys)
      ensures code != Created ==>
        code == Unprocessable && products == old(products) && nextId == old(nextId) && stored == old(stored)
      ensures code == Created ==>
        && id == old(nextId) && id !in old(products) && nextId == id + 1
        && products == old(products)[id := NewProduct(req, now)]
        && stored == old(stored) + (if req.image.Given? then {StoredPath(now, req.image.value)} else {})
    {
      id := nextId;
      if !ValidNewProduct(req, categories.categories.Keys) {
        code := Unprocessable;
        return;
      }
      if req.image.Given? {
        stored := stored + {StoredPath(now, req.image.value)};
      }
      products := products[id := NewProduct(req, now)];
      nextId := nextId + 1;
      code := Created;
    }

    /** `update`: 404, then 422, then the sent fields, then the image swap. */
    method Update(id: int, req: ProductRequest, now: nat) returns (code: Code)
      requires Valid()
      modifies this
      ensures Valid() && nextId == old(nextId)
      ensures id !in old(products) ==> code == NotFound && products == old(products) && stored == old(stored)
      ensures id in old(products) && !ValidProductPatch(req, categories.categories.Keys) ==>
        code == Unprocessable && products == old(products) && stored == old(stored)
      ensures id in old(products) && ValidProductPatch(req, categories.categories.Keys) ==>
        && code == OK
        && products == old(products)[id := SwapImage(PatchProduct(old(products)[id], req), req.image, now)]
        && stored == SwapStored(old(stored), old(products)[id].imagePath, req.image, now)
    {
      if id !in products {
        code := NotFound;
        return;
      }
      if !ValidProductPatch(req, categories.categories.Keys) {
        code := Unprocessable;
        return;
      }
      var p := PatchProduct(products[id], req);
      if req.image.Given? {
        if HasPath(p.imagePath) && p.imagePath.value != DefaultImage {
          stored := stored - {p.imagePath.value};
        }
        var path := StoredPath(now, req.image.value);
        stored := stored + {path};
        p := p.(imagePath := Some(path));
      }
      products := products[id := p];
      code := OK;
    }

    /** `removeImage`: release a set, non-default image and point the row
        at the sentinel. */
    method RemoveImage(id: int) returns (code: Code)
      requires Valid()
      modifies this
      ensures Valid() && nextId == old(nextId)
      ensures code == NotFound <==> id !in old(products)
      ensures code != NotFound ==> code == OK
      ensures code == NotFound ==> products == old(products) && stored == old(stored)
      ensures code == OK ==>
        && products == old(products)[id := WithoutImage(old(products)[id])]
        && stored == Release(old(stored), old(products)[id].imagePath)
    {
      if id !in products {
        code := NotFound;
        return;
      }
      var p := products[id];
      if HasPath(p.imagePath) && p.imagePath.value != DefaultImage {
        stored := stored - {p.imagePath.value};
      }
      products := products[id := p.(imagePath := Some(DefaultImage))];
      code := OK;
    }

    /** `destroy`: soft-deactivation; the row stays retrievable by `show`. */
    method Destroy(id: int) returns (code: Code)
      requires Valid()
      modifies this
      ensures Valid() && nextId == old(nextId) && stored == old(stored)
      ensures code == NotFound <==> id !in old(products)
      ensures code != NotFound ==> code == OK
      ensures code == NotFound ==> products == old(products)
      ensures code == OK ==> products == old(products)[id := Deactivated(old(products)[id])]
      ensures products.Keys == old(products).Keys && |products| == |old(products)|
    {
      if id !in products {
        code := NotFound;
        return;
      }
      products := products[id := Deactivated(products[id])];
      code := OK;
    }
  }
}
