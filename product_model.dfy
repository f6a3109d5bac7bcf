/** The Product model: its row, its mass-assignment whitelist and the
    image URL accessor with its default fallback. */
module ProductModel {
  import opened Common

  /** The sentinel path of the shared "no image" picture. */
  const DefaultImage: string := "products/default.png"

  /** The public-disk prefix the URL accessor puts before a stored path. */
  const StoragePrefix: string := "storage/"

  /** A row of the products table; `price` is in cents (`decimal:2`). */
  datatype Product = Product(
    categoryId: int,
    name: string,
    description: Option<string>,
    price: int,
    imagePath: Option<string>,
    isActive: bool,
    isFeatured: bool)

  /** PHP truthiness of a string: "" and "0" are false. */
  predicate Truthy(s: string)
  {
    s != "" && s != "0"
  }

  /** A path the accessor (and the controller's release guard) treats as set. */
  predicate HasPath(imagePath: Option<string>)
  {
    imagePath.Some? && Truthy(imagePath.value)
  }

  /** `getImageUrlAttribute`, up to the host part `asset()` adds: the stored
      path under `storage/`, or the default picture when the path is unset. */
  function ImageUrl(imagePath: Option<string>): (url: string)
    ensures |url| > |StoragePrefix| && url[..|StoragePrefix|] == StoragePrefix
    ensures HasPath(imagePath) ==> url[|StoragePrefix|..] == imagePath.value
    ensures !HasPath(imagePath) ==> url[|StoragePrefix|..] == DefaultImage
  {
    if HasPath(imagePath) then StoragePrefix + imagePath.value else StoragePrefix + DefaultImage
  }

  /** A product whose path is the sentinel shows the same picture as one
      with no path at all, and no other set path does. */
  lemma {:induction false} SameUrlAsUnset(path: string)
    ensures ImageUrl(Some(path)) == ImageUrl(None) <==> path == DefaultImage || !Truthy(path)
  {
    var u, v := ImageUrl(Some(path)), ImageUrl(None);
    if u == v && Truthy(path) {
      assert path == u[|StoragePrefix|..] == v[|StoragePrefix|..] == DefaultImage;
    }
  }

  /** Distinct set paths give distinct URLs. */
  lemma {:induction false} UrlDeterminesPath(p: string, q: string)
    requires Truthy(p) && Truthy(q)
    ensures ImageUrl(Some(p)) == ImageUrl(Some(q)) <==> p == q
  {
    if ImageUrl(Some(p)) == ImageUrl(Some(q)) {
      assert p == ImageUrl(Some(p))[|StoragePrefix|..];
    }
  }

  // ----- Mass assignment -----

  /** An attribute name of a request array: one of the seven whitelisted
      columns, or any other name. */
  datatype Key =
    | CategoryId | Name | Description | Price | ImagePath | IsActive | IsFeatured
    | Unlisted(name: string)

  /** The `$fillable` whitelist. */
  const Fillable: set<Key> := {CategoryId, Name, Description, Price, ImagePath, IsActive, IsFeatured}

  /** The column name of a whitelisted key. */
  function KeyName(k: Key): (n: string)
    requires k in Fillable
  {
    match k
    case CategoryId => "category_id"
    case Name => "name"
    case Description => "description"
    case Price => "price"
    case ImagePath => "image_path"
    case IsActive => "is_active"
    case IsFeatured => "is_featured"
  }

  /** Reads an attribute name: a whitelisted column name gives its key, any
      other name is unlisted. */
  function ParseKey(n: string): (k: Key)
    ensures k in Fillable ==> KeyName(k) == n
    ensures k !in Fillable ==> k == Unlisted(n)
  {
    if n == "category_id" then CategoryId
    else if n == "name" then Name
    else if n == "description" then Description
    else if n == "price" then Price
    else if n == "image_path" then ImagePath
    else if n == "is_active" then IsActive
    else if n == "is_featured" then IsFeatured
    else Unlisted(n)
  }

  /** Every whitelisted column name is read back as its own key. */
  lemma KeyNameParses(k: Key)
    requires k in Fillable
    ensures ParseKey(KeyName(k)) == k
  {
  }

  /** A value in an attribute array handed to `fill`/`create`/`update`. */
  datatype Attribute = IntAttr(i: int) | StrAttr(s: string) | BoolAttr(b: bool) | NullAttr

  /** Each whitelisted key that is present holds a value of its column's type. */
  predicate Conforms(attrs: map<Key, Attribute>)
  {
    && (CategoryId in attrs ==> attrs[CategoryId].IntAttr?)
    && (Name in attrs ==> attrs[Name].StrAttr?)
    && (Description in attrs ==> attrs[Description].StrAttr? || attrs[Description].NullAttr?)
    && (Price in attrs ==> attrs[Price].IntAttr?)
    && (ImagePath in attrs ==> attrs[ImagePath].StrAttr? || attrs[ImagePath].NullAttr?)
    && (IsActive in attrs ==> attrs[IsActive].BoolAttr?)
    && (IsFeatured in attrs ==> attrs[IsFeatured].BoolAttr?)
  }

  function NullableAttr(v: Option<string>): Attribute
  {
    if v.Some? then StrAttr(v.value) else NullAttr
  }

  function NullableValue(a: Attribute): Option<string>
  {
    if a.StrAttr? then Some(a.s) else None
  }

  /** A product's column, by its key. */
  function Column(p: Product, k: Key): Attribute
  {
    match k
    case CategoryId => IntAttr(p.categoryId)
    case Name => StrAttr(p.name)
    case Description => NullableAttr(p.description)
    case Price => IntAttr(p.price)
    case ImagePath => NullableAttr(p.imagePath)
    case IsActive => BoolAttr(p.isActive)
    case IsFeatured => BoolAttr(p.isFeatured)
    case Unlisted(_) => NullAttr
  }

  /** Two products agreeing on every whitelisted column are the same row. */
  lemma {:induction false} ColumnsDetermineProduct(p: Product, q: Product)
    requires forall k | k in Fillable :: Column(p, k) == Column(q, k)
    ensures p == q
  {
    assert Column(p, CategoryId) == Column(q, CategoryId);
    assert Column(p, Name) == Column(q, Name);
    assert Column(p, Description) == Column(q, Description);
    assert Column(p, Price) == Column(q, Price);
    assert Column(p, ImagePath) == Column(q, ImagePath);
    assert Column(p, IsActive) == Column(q, IsActive);
    assert Column(p, IsFeatured) == Column(q, IsFeatured);
  }

  /** Mass assignment: the whitelisted keys present in `attrs` overwrite
      their columns; every other key is dropped. */
  function Fill(p: Product, attrs: map<Key, Attribute>): (r: Product)
    requires Conforms(attrs)
    ensures (forall k | k in attrs :: k !in Fillable) ==> r == p
    ensures Price in attrs ==> r.price == attrs[Price].i
    ensures Name in attrs ==> r.name == attrs[Name].s
  {
    Product(
      if CategoryId in attrs then attrs[CategoryId].i else p.categoryId,
      if Name in attrs then attrs[Name].s else p.name,
      if Description in attrs then NullableValue(attrs[Description]) else p.description,
      if Price in attrs then attrs[Price].i else p.price,
      if ImagePath in attrs then NullableValue(attrs[ImagePath]) else p.imagePath,
      if IsActive in attrs then attrs[IsActive].b else p.isActive,
      if IsFeatured in attrs then attrs[IsFeatured].b else p.isFeatured)
  }

  /** One whitelisted column of the filled product is the attribute sent
      for it, or its previous value when none was sent. */
  lemma FillColumn(p: Product, attrs: map<Key, Attribute>, k: Key)
    requires Conforms(attrs) && k in Fillable
    ensures Column(Fill(p, attrs), k) == if k in attrs then attrs[k] else Column(p, k)
  {
    match k
    case CategoryId =>
    case Name =>
    case Description =>
      if k in attrs { assert attrs[k].StrAttr? || attrs[k].NullAttr?; }
    case Price =>
    case ImagePath =>
      if k in attrs { assert attrs[k].StrAttr? || attrs[k].NullAttr?; }
    case IsActive =>
    case IsFeatured =>
  }

  /** A key outside the whitelist has no effect on mass assignment, whatever
      its value. */
  lemma {:induction false} FillIgnoresUnlisted(p: Product, attrs: map<Key, Attribute>, key: Key, v: Attribute)
    requires Conforms(attrs) && key !in Fillable
    ensures Conforms(attrs[key := v]) && Fill(p, attrs[key := v]) == Fill(p, attrs)
  {
    var a := attrs[key := v];
    assert Conforms(a);
    forall k | k in Fillable
      ensures Column(Fill(p, a), k) == Column(Fill(p, attrs), k)
    {
      FillColumn(p, a, k);
      FillColumn(p, attrs, k);
      assert k != key;
    }
    ColumnsDetermineProduct(Fill(p, a), Fill(p, attrs));
  }
}
