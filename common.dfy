/** Vocabulary shared by every controller of the model: optional values,
    response codes, request fields and the validation rules the controllers
    ask of them. */
module Common {

  datatype Option<+T> = None | Some(value: T)

  /** The HTTP status codes the controllers answer with. */
  datatype Code = OK | Created | BadRequest | NotFound | Unprocessable
  {
    /** The numeric HTTP status. */
    function Http(): (n: int)
      ensures 200 <= n < 300 <==> this == OK || this == Created
      ensures this == OK <==> n == 200
      ensures this == Created <==> n == 201
      ensures this == BadRequest <==> n == 400
      ensures this == NotFound <==> n == 404
      ensures this == Unprocessable <==> n == 422
    {
      match this
      case OK => 200
      case Created => 201
      case BadRequest => 400
      case NotFound => 404
      case Unprocessable => 422
    }
  }

  /** A read-only operation either answers with a value (200) or fails with a code. */
  datatype Result<+T> = Ok(value: T) | Fail(code: Code)

  /** One field of a request as the controller receives it: missing from the
      request, explicitly null, present with a value that fails the field's
      type rule (not an integer, not a boolean, not an array, not an e-mail
      address, not an image, ...), or present with a well-typed value. */
  datatype Param<+T> = Absent | Null | Invalid | Given(value: T)

  /** The characters PHP's trim() strips. */
  predicate IsTrimmed(c: char)
  {
    c == ' ' || c == '\t' || c == '\n' || c == '\r' || c == '\0' || c == '\U{0B}'
  }

  /** A string that trims to the empty string. */
  predicate Blank(s: string)
  {
    forall i | 0 <= i < |s| :: IsTrimmed(s[i])
  }

  /** The framework's global input middleware turns a blank string into null
      before a controller or validator sees it. */
  function Text(p: Param<string>): (q: Param<string>)
    ensures q.Given? ==> !Blank(q.value) && p == q
    ensures q != p ==> p.Given? && Blank(p.value) && q.Null?
  {
    if p.Given? && Blank(p.value) then Null else p
  }

  // ----- Validation rules (one predicate per rule combination in use) -----

  /** `required|string|max:n` */
  predicate RequiredString(p: Param<string>, max: nat)
  {
    var q := Text(p); q.Given? && |q.value| <= max
  }

  /** `string|max:n`: optional, but null is not a string. */
  predicate OptionalString(p: Param<string>, max: nat)
  {
    var q := Text(p); q.Absent? || (q.Given? && |q.value| <= max)
  }

  /** `sometimes|required|string|max:n`: checked only when the key is sent. */
  predicate SometimesRequiredString(p: Param<string>, max: nat)
  {
    p.Absent? || RequiredString(p, max)
  }

  /** `nullable|string|max:n` (and `nullable|email|max:n`, whose address
      check is folded into `Invalid`). */
  predicate NullableString(p: Param<string>, max: nat)
  {
    var q := Text(p); q.Absent? || q.Null? || (q.Given? && |q.value| <= max)
  }

  /** `nullable|string` without a length limit. */
  predicate NullableText(p: Param<string>)
  {
    !p.Invalid?
  }

  /** `required|integer|min:m` and `required|numeric|min:m`. */
  predicate RequiredAtLeast(p: Param<int>, min: int)
  {
    p.Given? && p.value >= min
  }

  /** `integer|min:m` and `numeric|min:m` without `required`: null fails. */
  predicate OptionalAtLeast(p: Param<int>, min: int)
  {
    p.Absent? || RequiredAtLeast(p, min)
  }

  /** `boolean`: optional, null fails. */
  predicate OptionalBool(p: Param<bool>)
  {
    p.Absent? || p.Given?
  }

  /** `nullable|boolean`. */
  predicate NullableBool(p: Param<bool>)
  {
    !p.Invalid?
  }

  /** `required|exists:table,id`. */
  predicate RequiredIn(p: Param<int>, keys: set<int>)
  {
    p.Given? && p.value in keys
  }

  /** `exists:table,id` without `required`: a null id does not exist. */
  predicate OptionalIn(p: Param<int>, keys: set<int>)
  {
    p.Absent? || RequiredIn(p, keys)
  }

  // ----- Writing request fields into records -----

  /** The value a non-nullable column takes from a request field that passed
      validation: the sent value, or the old one when the key is absent. */
  function Patch<T>(p: Param<T>, prev: T): (r: T)
    ensures p.Given? ==> r == p.value
    ensures !p.Given? ==> r == prev
  {
    if p.Given? then p.value else prev
  }

  /** The value a nullable text column takes: absent keeps the old value,
      null (or blank) clears it. */
  function PatchText(p: Param<string>, prev: Option<string>): (r: Option<string>)
    ensures p.Absent? ==> r == prev
    ensures p.Given? && !Blank(p.value) ==> r == Some(p.value)
    ensures p.Given? && Blank(p.value) ==> r == None
    ensures p.Null? ==> r == None
  {
    match Text(p)
    case Given(s) => Some(s)
    case Absent => prev
    case _ => None
  }

  /** The value a nullable text column takes when a record is created:
      the sent text, or null. */
  function TextOrNull(p: Param<string>): (r: Option<string>)
    ensures r.Some? <==> p.Given? && !Blank(p.value)
    ensures r.Some? ==> r.value == p.value
  {
    PatchText(p, None)
  }

  /** Every key of a table lies below its next auto-increment value. */
  ghost predicate KeysBelow<T>(table: map<int, T>, next: int)
  {
    forall id | id in table :: id < next
  }
}
