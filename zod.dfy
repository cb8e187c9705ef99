/**
 * The primitive schemas of the zod library that the component schemas are built from.
 * Each one is applied to the result of a property lookup, `Option<Json>`, where `None`
 * is `undefined` (an absent key). For every primitive there is an acceptance predicate
 * and a decoder that returns the parsed value; the decoder succeeds exactly when the
 * predicate holds.
 */
module Zod {
  import opened Wrappers
  import opened Json

  /** `z.string()` */
  predicate IsString(f: Option<Json>) {
    f.Some? && f.value.Str?
  }

  function AsString(f: Option<Json>): (r: Option<string>)
    ensures r.Some? <==> IsString(f)
    ensures r.Some? ==> f == Some(Str(r.value))
  {
    match f
    case Some(Str(s)) => Some(s)
    case _ => None
  }

  /** `z.number()` */
  predicate IsNumber(f: Option<Json>) {
    f.Some? && f.value.Number?
  }

  function AsNumber(f: Option<Json>): (r: Option<real>)
    ensures r.Some? <==> IsNumber(f)
    ensures r.Some? ==> f == Some(Number(r.value))
  {
    match f
    case Some(Number(n)) => Some(n)
    case _ => None
  }

  /** `z.number().nullable()`: a number or `null`, but not `undefined`. */
  predicate IsNullableNumber(f: Option<Json>) {
    f == Some(Null) || IsNumber(f)
  }

  /** The decoded value is `None` for `null`. */
  function AsNullableNumber(f: Option<Json>): (r: Option<Option<real>>)
    ensures r.Some? <==> IsNullableNumber(f)
    ensures r == Some(None) <==> f == Some(Null)
    ensures r.Some? && r.value.Some? ==> f == Some(Number(r.value.value))
  {
    match f
    case Some(Null) => Some(None)
    case Some(Number(n)) => Some(Some(n))
    case _ => None
  }

  /** `z.string().optional()`: absent, or a string (`null` is rejected). */
  predicate IsOptionalString(f: Option<Json>) {
    f.None? || IsString(f)
  }

  function AsOptionalString(f: Option<Json>): (r: Option<Option<string>>)
    ensures r.Some? <==> IsOptionalString(f)
    ensures r == Some(None) <==> f.None?
    ensures r.Some? && r.value.Some? ==> f == Some(Str(r.value.value))
  {
    match f
    case None => Some(None)
    case Some(Str(s)) => Some(Some(s))
    case _ => None
  }

  /** `z.number().optional()`: absent, or a number (`null` is rejected). */
  predicate IsOptionalNumber(f: Option<Json>) {
    f.None? || IsNumber(f)
  }

  function AsOptionalNumber(f: Option<Json>): (r: Option<Option<real>>)
    ensures r.Some? <==> IsOptionalNumber(f)
    ensures r == Some(None) <==> f.None?
    ensures r.Some? && r.value.Some? ==> f == Some(Number(r.value.value))
  {
    match f
    case None => Some(None)
    case Some(Number(n)) => Some(Some(n))
    case _ => None
  }

  /**
   * `z.number().default(d)`: an absent value becomes `d`; a present value must be a
   * number and is kept. It accepts exactly what `z.number().optional()` accepts.
   */
  function NumberOr(f: Option<Json>, d: real): (r: Option<real>)
    ensures r.Some? <==> IsOptionalNumber(f)
    ensures f.None? ==> r == Some(d)
    ensures r.Some? && f.Some? ==> f == Some(Number(r.value))
  {
    match f
    case None => Some(d)
    case Some(Number(n)) => Some(n)
    case _ => None
  }

  /** `z.literal(lit)` for a string literal. */
  predicate IsLiteral(f: Option<Json>, lit: string) {
    f == Some(Str(lit))
  }

  /** `z.enum(names)`: a string that is one of `names`. */
  predicate IsEnum(f: Option<Json>, names: set<string>) {
    IsString(f) && f.value.s in names
  }

  /** `z.object({...})` before its keys are checked: an object, not `null` nor an array. */
  predicate IsObject(f: Option<Json>) {
    f.Some? && f.value.Object?
  }

  /** The JSON form of a value of `z.number().nullable()`. */
  function NullableNumberJson(x: Option<real>): Json {
    if x.Some? then Number(x.value) else Null
  }

  /** Adds `key` to an object's fields only when the optional value is present. */
  function WithOptional(m: map<string, Json>, key: string, x: Option<Json>): (r: map<string, Json>)
    ensures x.Some? ==> r == m[key := x.value]
    ensures x.None? ==> r == m
  {
    if x.Some? then m[key := x.value] else m
  }
}
