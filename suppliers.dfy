/** The suppliers table: creation, partial update and soft-deactivation. */
module Suppliers {
  import opened Common

  /** A row of the suppliers table. `isActive` is `None` when no request has
      written it: the column's own default then applies. */
  datatype Supplier = Supplier(
    name: string,
    email: Option<string>,
    phone: Option<string>,
    address: Option<string>,
    isActive: Option<bool>)

  /** `email` is `Invalid` when it is not an e-mail address. */
  datatype SupplierRequest = SupplierRequest(
    name: Param<string>,
    email: Param<string>,
    phone: Param<string>,
    address: Param<string>,
    isActive: Param<bool>)

  /** The validation rules of `store`: a non-blank name of at most 255
      characters, an e-mail address of at most 255 and a phone of at most 20
      when sent, and a boolean `is_active` when sent. */
  function ValidNewSupplier(r: SupplierRequest): (ok: bool)
    ensures ok ==> r.name.Given? && !Blank(r.name.value) && |r.name.value| <= 255
    ensures ok && r.email.Given? && !Blank(r.email.value) ==> |r.email.value| <= 255
    ensures ok && r.phone.Given? && !Blank(r.phone.value) ==> |r.phone.value| <= 20
    ensures ok ==> !r.email.Invalid? && (r.isActive.Absent? || r.isActive.Given?)
  {
    && RequiredString(r.name, 255)
    && NullableString(r.email, 255)
    && NullableString(r.phone, 20)
    && NullableText(r.address)
    && OptionalBool(r.isActive)
  }

  /** `Supplier::create($request->all())`. */
  function NewSupplier(r: SupplierRequest): (s: Supplier)
    requires ValidNewSupplier(r)
    ensures s.name == r.name.value && |s.name| <= 255 && !Blank(s.name)
    ensures s.email == TextOrNull(r.email) && (s.email.Some? ==> |s.email.value| <= 255)
    ensures s.phone == TextOrNull(r.phone) && (s.phone.Some? ==> |s.phone.value| <= 20)
    ensures s.address == TextOrNull(r.address)
    ensures s.isActive.Some? <==> r.isActive.Given?
    ensures s.isActive.Some? ==> s.isActive.value == r.isActive.value
  {
    Supplier(r.name.value, TextOrNull(r.email), TextOrNull(r.phone), TextOrNull(r.address),
             if r.isActive.Given? then Some(r.isActive.value) else None)
  }

  /** The validation rules of `update`: every field optional, the same
      limits as `store`. */
  function ValidSupplierPatch(r: SupplierRequest): (ok: bool)
    ensures r == SupplierRequest(Absent, Absent, Absent, Absent, Absent) ==> ok
    ensures ok && r.name.Given? ==> !Blank(r.name.value) && |r.name.value| <= 255
    ensures ok && r.email.Given? && !Blank(r.email.value) ==> |r.email.value| <= 255
    ensures ok && r.phone.Given? && !Blank(r.phone.value) ==> |r.phone.value| <= 20
    ensures ok ==> !r.name.Null? && !r.email.Invalid? && (r.isActive.Absent? || r.isActive.Given?)
  {
    && OptionalString(r.name, 255)
    && NullableString(r.email, 255)
    && NullableString(r.phone, 20)
    && NullableText(r.address)
    && OptionalBool(r.isActive)
  }

  /** `$supplier->update($request->all())`: the sent fields are written, the
      others keep their values. */
  function PatchSupplier(s: Supplier, r: SupplierRequest): (p: Supplier)
    requires ValidSupplierPatch(r)
    ensures p.name == Patch(r.name, s.name)
    ensures p.email == PatchText(r.email, s.email)
    ensures p.phone == PatchText(r.phone, s.phone)
    ensures p.address == PatchText(r.address, s.address)
    ensures p.isActive == (if r.isActive.Given? then Some(r.isActive.value) else s.isActive)
    ensures |s.name| <= 255 ==> |p.name| <= 255
    ensures (s.phone.Some? ==> |s.phone.value| <= 20) ==> (p.phone.Some? ==> |p.phone.value| <= 20)
  {
    Supplier(
      Patch(r.name, s.name),
      PatchText(r.email, s.email),
      PatchText(r.phone, s.phone),
      PatchText(r.address, s.address),
      if r.isActive.Given? then Some(r.isActive.value) else s.isActive)
  }

  /** What `destroy` writes: inactive, nothing else touched. */
  function Deactivated(s: Supplier): (d: Supplier)
    ensures d.isActive == Some(false)
    ensures d.name == s.name && d.email == s.email && d.phone == s.phone && d.address == s.address
  {
    s.(isActive := Some(false))
  }

  lemma DeactivatedIdempotent(s: Supplier)
    ensures Deactivated(Deactivated(s)) == Deactivated(s)
  {
  }

  /** The field limits every stored supplier respects. */
  predicate WithinLimits(s: Supplier)
  {
    |s.name| <= 255 && (s.email.Some? ==> |s.email.value| <= 255) && (s.phone.Some? ==> |s.phone.value| <= 20)
  }

  class SupplierController {
    /** The suppliers table by primary key. */
    var suppliers: map<int, Supplier>
    /** The next auto-increment key. */
    var nextId: int

    ghost predicate Valid()
      reads this
    {
      KeysBelow(suppliers, nextId) && forall id | id in suppliers :: WithinLimits(suppliers[id])
    }

    constructor ()
      ensures Valid() && suppliers == map[]
    {
      suppliers := map[];
      nextId := 1;
    }

    /** `index`: every supplier, inactive ones included. */
    function Index(): (r: map<int, Supplier>)
      reads this
      ensures r.Keys == suppliers.Keys
      ensures forall id | id in suppliers :: r[id] == suppliers[id]
    {
      suppliers
    }

    /** `store`. */
    method Store(req: SupplierRequest) returns (code: Code, id: int)
      requires Valid()
      modifies this
      ensures Valid()
      ensures code == Created <==> ValidNewSupplier(req)
      ensures code != Created ==> code == Unprocessable && suppliers == old(suppliers) && nextId == old(nextId)
      ensures code == Created ==>
        id == old(nextId) && id !in old(suppliers) && nextId == id + 1
        && suppliers == old(suppliers)[id := NewSupplier(req)]
    {
      id := nextId;
      if !ValidNewSupplier(req) {
        code := Unprocessable;
        return;
      }
      suppliers := suppliers[id := NewSupplier(req)];
      nextId := nextId + 1;
      code := Created;
    }

    /** `show`. */
    function Show(id: int): (r: Result<Supplier>)
      reads this
      ensures r.Fail? <==> id !in suppliers
      ensures r.Fail? ==> r.code == NotFound
      ensures r.Ok? ==> r.value == suppliers[id]
    {
      if id in suppliers then Ok(suppliers[id]) else Fail(NotFound)
    }

    /** `update`: 404, then 422, then a partial write. */
    method Update(id: int, req: SupplierRequest) returns (code: Code)
      requires Valid()
      modifies this
      ensures Valid() && nextId == old(nextId)
      ensures id !in old(suppliers) ==> code == NotFound && suppliers == old(suppliers)
      ensures id in old(suppliers) && !ValidSupplierPatch(req) ==> code == Unprocessable && suppliers == old(suppliers)
      ensures id in old(suppliers) && ValidSupplierPatch(req) ==>
        code == OK && suppliers == old(suppliers)[id := PatchSupplier(old(suppliers)[id], req)]
    {
      if id !in suppliers {
        code := NotFound;
        return;
      }
      if !ValidSupplierPatch(req) {
        code := Unprocessable;
        return;
      }
      suppliers := suppliers[id := PatchSupplier(suppliers[id], req)];
      code := OK;
    }

    /** `destroy`: soft-deactivation; the row stays and the table keeps its size. */
    method Destroy(id: int) returns (code: Code)
      requires Valid()
      modifies this
      ensures Valid() && nextId == old(nextId)
      ensures code == NotFound <==> id !in old(suppliers)
      ensures code != NotFound ==> code == OK
      ensures code == NotFound ==> suppliers == old(suppliers)
      ensures code == OK ==> suppliers == old(suppliers)[id := Deactivated(old(suppliers)[id])]
      ensures suppliers.Keys == old(suppliers).Keys && |suppliers| == |old(suppliers)|
    {
      if id !in suppliers {
        code := NotFound;
        return;
      }
      suppliers := suppliers[id := Deactivated(suppliers[id])];
      code := OK;
    }
  }
}
