/** Shared vocabulary of the home-maintenance backend: identifiers, the
    category enum, request-validation issues and the outcomes a controller
    can answer with. */
module Common {

  datatype Option<+T> = None | Some(value: T)

  /** Document identifiers (MongoDB ObjectIds) are opaque strings. */
  type Id = string

  /** Instants are opaque; only equality and the clock parameter matter. */
  type Date = int

  /** An ObjectId as the request schemas check it: exactly 24 characters. */
  predicate IsObjectIdShape(s: string) {
    |s| == 24
  }

  /** The CATEGORY enum.  The item and reminder models each declare it with
      the same two values, so the model defines it once. */
  datatype Category = Cleaning | Maintenance

  function CategoryName(c: Category): string {
    match c
    case Cleaning => "CLEANING"
    case Maintenance => "MAINTENANCE"
  }

  /** Membership test of a raw string in the CATEGORY enum. */
  function ParseCategory(s: string): (r: Option<Category>)
    ensures r.Some? <==> s in CategoryNames
    ensures r.Some? ==> CategoryName(r.value) == s
  {
    if s == "CLEANING" then Some(Cleaning)
    else if s == "MAINTENANCE" then Some(Maintenance)
    else None
  }

  const CategoryNames: seq<string> := ["CLEANING", "MAINTENANCE"]

  lemma CategoryNameRoundTrip(c: Category)
    ensures ParseCategory(CategoryName(c)) == Some(c)
    ensures CategoryName(c) in CategoryNames
  {
  }

  /** What a schema found wrong with one field of a request or document. */
  datatype IssueKind =
    | Required
    | TooShort(minLength: nat)
    | WrongLength(length: nat)
    | NotInEnum
    | TooSmall(min: int)
    | InvalidUrl
    | NotADate
    | Duplicate

  datatype Issue = Issue(field: string, kind: IssueKind)

  /** A document-level outcome: the built value, or every issue found. */
  datatype Result<+T> = Success(value: T) | Failure(issues: seq<Issue>)

  /** Why a request was answered with a client error. */
  datatype RequestError =
    | ValidationFailed(issues: seq<Issue>)
    | InvalidCategory
    | InvalidItemId

  /** What a controller answers: the status classes of the HTTP layer,
      without the codes themselves. */
  datatype Outcome<+T> =
    | Ok(value: T)
    | BadRequest(error: RequestError)
    | NotFound
    | ServerError

  /** The confirmation a delete handler answers with instead of a document. */
  datatype Ack = Ack

  function Check(ok: bool, field: string, kind: IssueKind): (r: seq<Issue>)
    ensures |r| == 0 <==> ok
  {
    if ok then [] else [Issue(field, kind)]
  }

  /** A required string of at least `min` characters (`z.string().min`). */
  function StringAtLeast(v: Option<string>, field: string, min: nat): (r: seq<Issue>)
    ensures |r| == 0 <==> v.Some? && |v.value| >= min
  {
    match v
    case None => [Issue(field, Required)]
    case Some(s) => Check(|s| >= min, field, TooShort(min))
  }

  /** A required string of exactly `len` characters (`z.string().length`). */
  function StringOfLength(v: Option<string>, field: string, len: nat): (r: seq<Issue>)
    ensures |r| == 0 <==> v.Some? && |v.value| == len
  {
    match v
    case None => [Issue(field, Required)]
    case Some(s) => Check(|s| == len, field, WrongLength(len))
  }

  /** A required member of a string enum (`z.enum`). */
  function EnumMember(v: Option<string>, field: string, allowed: seq<string>): (r: seq<Issue>)
    ensures |r| == 0 <==> v.Some? && v.value in allowed
  {
    match v
    case None => [Issue(field, Required)]
    case Some(s) => Check(s in allowed, field, NotInEnum)
  }

  /** An optional member of a string enum (`z.enum(...).optional()`). */
  function OptionalEnumMember(v: Option<string>, field: string, allowed: seq<string>): (r: seq<Issue>)
    ensures |r| == 0 <==> (v.Some? ==> v.value in allowed)
  {
    match v
    case None => []
    case Some(s) => Check(s in allowed, field, NotInEnum)
  }

  /** A required number no smaller than `min` (`z.number().min`). */
  function NumberAtLeast(v: Option<int>, field: string, min: int): (r: seq<Issue>)
    ensures |r| == 0 <==> v.Some? && v.value >= min
  {
    match v
    case None => [Issue(field, Required)]
    case Some(n) => Check(n >= min, field, TooSmall(min))
  }

  /** A required value of any content. */
  function Present<T>(v: Option<T>, field: string): (r: seq<Issue>)
    ensures |r| == 0 <==> v.Some?
  {
    if v.Some? then [] else [Issue(field, Required)]
  }

  /** A required string under mongoose's `required` validator, which also
      rejects the empty string. */
  function NonEmptyString(v: Option<string>, field: string): (r: seq<Issue>)
    ensures |r| == 0 <==> v.Some? && v.value != ""
  {
    match v
    case None => [Issue(field, Required)]
    case Some(s) => Check(s != "", field, Required)
  }

  /** The value carried by an optional field, or a default. */
  function GetOr<T>(v: Option<T>, default: T): (r: T)
    ensures v.None? ==> r == default
    ensures v.Some? ==> r == v.value
  {
    match v
    case None => default
    case Some(x) => x
  }
}
