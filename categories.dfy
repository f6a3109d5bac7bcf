/** The categories table: creation with an active default, partial update,
    and soft-deactivation in place of deletion. */
module Categories {
  import opened Common

  /** A row of the categories table. `isActive` is nullable: `store` always
      writes a boolean, but `update` writes an explicit null as sent. */
  datatype Category = Category(name: string, description: Option<string>, isActive: Option<bool>)

  datatype CategoryRequest = CategoryRequest(name: Param<string>, description: Param<string>, isActive: Param<bool>)

  /** The validation rules of `store`: a non-blank name of at most 255
      characters; `is_active` a boolean or null. */
  function ValidNewCategory(r: CategoryRequest): (ok: bool)
    ensures ok ==> r.name.Given? && !Blank(r.name.value) && |r.name.value| <= 255
    ensures ok ==> !r.isActive.Invalid?
  {
    RequiredString(r.name, 255) && NullableText(r.description) && NullableBool(r.isActive)
  }

  /** The row `store` creates: `is_active` is the sent boolean, or true when
      it is absent or null. */
  function NewCategory(r: CategoryRequest): (c: Category)
    requires ValidNewCategory(r)
    ensures c.name == r.name.value && !Blank(c.name) && |c.name| <= 255
    ensures c.description == TextOrNull(r.description)
    ensures c.isActive.Some?
    ensures c.isActive.value <==> !r.isActive.Given? || r.isActive.value
  {
    Category(r.name.value, TextOrNull(r.description), Some(if r.isActive.Given? then r.isActive.value else true))
  }

  /** The validation rules of `update`: a sent name must be non-blank and at
      most 255 characters. */
  function ValidCategoryPatch(r: CategoryRequest): (ok: bool)
    ensures r == CategoryRequest(Absent, Absent, Absent) ==> ok
    ensures ok && !r.name.Absent? ==> r.name.Given? && !Blank(r.name.value) && |r.name.value| <= 255
    ensures r.name.Given? && (Blank(r.name.value) || |r.name.value| > 255) ==> !ok
    ensures r.isActive.Invalid? ==> !ok
  {
    SometimesRequiredString(r.name, 255) && NullableText(r.description) && NullableBool(r.isActive)
  }

  /** `$category->update($request->all())`: the sent fields are written,
      the others keep their values. */
  function PatchCategory(c: Category, r: CategoryRequest): (p: Category)
    requires ValidCategoryPatch(r)
    ensures p.name == Patch(r.name, c.name) && (p.name != c.name ==> !Blank(p.name))
    ensures p.description == PatchText(r.description, c.description)
    ensures r.isActive.Absent? ==> p.isActive == c.isActive
    ensures r.isActive.Null? ==> p.isActive == None
    ensures r.isActive.Given? ==> p.isActive == Some(r.isActive.value)
  {
    Category(
      Patch(r.name, c.name),
      PatchText(r.description, c.description),
      match r.isActive
      case Given(b) => Some(b)
      case Null => None
      case _ => c.isActive)
  }

  /** What `destroy` writes: inactive, nothing else touched. */
  function Deactivated(c: Category): (d: Category)
    ensures d.isActive == Some(false)
    ensures d.name == c.name && d.description == c.description
  {
    c.(isActive := Some(false))
  }

  lemma DeactivatedIdempotent(c: Category)
    ensures Deactivated(Deactivated(c)) == Deactivated(c)
  {
  }

  class CategoryController {
    /** The categories table by primary key. */
    var categories: map<int, Category>
    /** The next auto-increment key. */
    var nextId: int

    ghost predicate Valid()
      reads this
    {
      KeysBelow(categories, nextId)
    }

    constructor ()
      ensures Valid() && categories == map[]
    {
      categories := map[];
      nextId := 1;
    }

    /** `index`: every category, inactive ones included. */
    function Index(): (r: map<int, Category>)
      reads this
      ensures r.Keys == categories.Keys
      ensures forall id | id in categories :: r[id] == categories[id]
    {
      categories
    }

    /** `store`. */
    method Store(req: CategoryRequest) returns (code: Code, id: int)
      requires Valid()
      modifies this
      ensures Valid()
      ensures code == Created <==> ValidNewCategory(req)
      ensures code != Created ==> code == Unprocessable && categories == old(categories) && nextId == old(nextId)
      ensures code == Created ==>
        id == old(nextId) && id !in old(categories) && nextId == id + 1
        && categories == old(categories)[id := NewCategory(req)]
    {
      id := nextId;
      if !ValidNewCategory(req) {
        code := Unprocessable;
        return;
      }
      categories := categories[id := NewCategory(req)];
      nextId := nextId + 1;
      code := Created;
    }

    /** `show`. */
    function Show(id: int): (r: Result<Category>)
      reads this
      ensures r.Fail? <==> id !in categories
      ensures r.Fail? ==> r.code == NotFound
      ensures r.Ok? ==> r.value == categories[id]
    {
      if id in categories then Ok(categories[id]) else Fail(NotFound)
    }

    /** `update`: 404, then 422, then a partial write. */
    method Update(id: int, req: CategoryRequest) returns (code: Code)
      requires Valid()
      modifies this
      ensures Valid() && nextId == old(nextId)
      ensures id !in old(categories) ==> code == NotFound && categories == old(categories)
      ensures id in old(categories) && !ValidCategoryPatch(req) ==> code == Unprocessable && categories == old(categories)
      ensures id in old(categories) && ValidCategoryPatch(req) ==>
        code == OK && categories == old(categories)[id := PatchCategory(old(categories)[id], req)]
    {
      if id !in categories {
        code := NotFound;
        return;
      }
      if !ValidCategoryPatch(req) {
        code := Unprocessable;
        return;
      }
      categories := categories[id := PatchCategory(categories[id], req)];
      code := OK;
    }

    /** `destroy`: soft-deactivation; the row stays and the table keeps its size. */
    method Destroy(id: int) returns (code: Code)
      requires Valid()
      modifies this
      ensures Valid() && nextId == old(nextId)
      ensures code == NotFound <==> id !in old(categories)
      ensures code != NotFound ==> code == OK
      ensures code == NotFound ==> categories == old(categories)
      ensures code == OK ==> categories == old(categories)[id := Deactivated(old(categories)[id])]
      ensures categories.Keys == old(categories).Keys && |categories| == |old(categories)|
    {
      if id !in categories {
        code := NotFound;
        return;
      }
      categories := categories[id := Deactivated(categories[id])];
      code := OK;
    }
  }
}
