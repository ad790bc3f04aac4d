/**
 * The parts of zod's `z.object({...}).parse` that the request schemas use, one declared key
 * at a time: `z.string()`, `z.number()` with `.int()`, `.min(lo)` and `.max(hi)`,
 * `z.boolean()`, the configuration enums, and `.default(d)`.
 *
 * A `.default(d)` fires only when the key is absent, and its value then goes through the
 * same checks as a value the caller sent. `null` is not `undefined`, so it does not select
 * the default; none of the schemas is `.nullable()`, so `null` is rejected. Keys that the
 * schema does not declare are stripped, which the generated parsers get by reading only
 * the declared keys.
 */
module Zod {
  import opened Wrappers
  import opened JsonValue

  /**
   * The enums the schemas borrow from the service configuration (`config.samplers`,
   * `config.schedulers`, `config.unets`, `config.clips`, `config.vaes`). Only the names each
   * one accepts matter here.
   */
  datatype Config = Config(
    samplers: set<string>,
    schedulers: set<string>,
    unets: set<string>,
    clips: set<string>,
    vaes: set<string>)

  /** `x` satisfies the declared `.min(lo)` and `.max(hi)`, both inclusive. */
  predicate InRange(x: real, lo: Option<real>, hi: Option<real>) {
    (lo.Some? ==> lo.value <= x) && (hi.Some? ==> x <= hi.value)
  }

  /** The same for an `.int()` field, whose bounds are integers. */
  predicate InIntRange(x: int, lo: Option<int>, hi: Option<int>) {
    (lo.Some? ==> lo.value <= x) && (hi.Some? ==> x <= hi.value)
  }

  /** The value zod checks for `key`: the caller's, or the default when the key is absent. */
  function Supplied(raw: map<string, Json>, key: string, default: Option<Json>): Option<Json> {
    if key in raw then Some(raw[key]) else default
  }

  /** `z.string()`, with `.default(d)` when `default` is `Some(d)`. */
  function ReadString(raw: map<string, Json>, key: string, default: Option<string>): (r: Option<string>)
  {
    match Supplied(raw, key, if default.Some? then Some(JStr(default.value)) else None)
    case Some(JStr(s)) => Some(s)
    case _ => None
  }

  /** One of the configuration enums: a string that must be one of `allowed`, default included. */
  function ReadEnum(raw: map<string, Json>, key: string, allowed: set<string>, default: Option<string>): (r: Option<string>)
    ensures r.Some? ==> r.value in allowed
  {
    match ReadString(raw, key, default)
    case Some(s) => if s in allowed then Some(s) else None
    case None => None
  }

  /** `z.number()` with its optional `.min`, `.max` and `.default`. */
  function ReadNumber(raw: map<string, Json>, key: string, default: Option<real>, lo: Option<real>, hi: Option<real>): (r: Option<real>)
    ensures r.Some? ==> InRange(r.value, lo, hi)
  {
    match Supplied(raw, key, if default.Some? then Some(JNum(default.value)) else None)
    case Some(JNum(x)) => if InRange(x, lo, hi) then Some(x) else None
    case _ => None
  }

  /** `z.number().int()` with its optional `.min`, `.max` and `.default`. */
  function ReadInt(raw: map<string, Json>, key: string, default: Option<int>, lo: Option<int>, hi: Option<int>): (r: Option<int>)
    ensures r.Some? ==> InIntRange(r.value, lo, hi)
  {
    match Supplied(raw, key, if default.Some? then Some(JNum(default.value as real)) else None)
    case Some(JNum(x)) => if IsInteger(x) && InIntRange(x.Floor, lo, hi) then Some(x.Floor) else None
    case _ => None
  }

  /** `z.boolean()` with an optional `.default`. */
  function ReadBool(raw: map<string, Json>, key: string, default: Option<bool>): (r: Option<bool>)
  {
    match Supplied(raw, key, if default.Some? then Some(JBool(default.value)) else None)
    case Some(JBool(b)) => Some(b)
    case _ => None
  }

  // What zod makes of one declared key, stated on the raw JSON: `...Passes` says that the key
  // passes its check, `...From` that `v` is the value zod returns for it.

  /** A `z.string()` key passes when the caller sent a string, or left it out and a default is declared. */
  predicate StringPasses(raw: map<string, Json>, key: string, default: Option<string>) {
    if key in raw then raw[key].JStr? else default.Some?
  }

  /** An enum key passes when its string, sent or defaulted, is one of `allowed`. */
  predicate EnumPasses(raw: map<string, Json>, key: string, allowed: set<string>, default: Option<string>) {
    if key in raw then raw[key].JStr? && raw[key].s in allowed else default.Some? && default.value in allowed
  }

  /** A `z.number()` key passes when its number, sent or defaulted, lies within the bounds. */
  predicate NumberPasses(raw: map<string, Json>, key: string, default: Option<real>, lo: Option<real>, hi: Option<real>) {
    if key in raw then raw[key].JNum? && InRange(raw[key].n, lo, hi)
    else default.Some? && InRange(default.value, lo, hi)
  }

  /** A `z.number().int()` key passes when its number, sent or defaulted, is an integer within the bounds. */
  predicate IntPasses(raw: map<string, Json>, key: string, default: Option<int>, lo: Option<int>, hi: Option<int>) {
    if key in raw then raw[key].JNum? && IsInteger(raw[key].n) && InIntRange(raw[key].n.Floor, lo, hi)
    else default.Some? && InIntRange(default.value, lo, hi)
  }

  /** A `z.boolean()` key passes when the caller sent a boolean, or left it out and a default is declared. */
  predicate BoolPasses(raw: map<string, Json>, key: string, default: Option<bool>) {
    if key in raw then raw[key].JBool? else default.Some?
  }

  /** `v` is the string the caller sent under `key`, or the default when the key is absent. */
  predicate StringFrom(raw: map<string, Json>, key: string, default: Option<string>, v: string) {
    if key in raw then raw[key] == JStr(v) else default == Some(v)
  }

  /** `v` is the number the caller sent under `key`, or the default when the key is absent. */
  predicate NumberFrom(raw: map<string, Json>, key: string, default: Option<real>, v: real) {
    if key in raw then raw[key] == JNum(v) else default == Some(v)
  }

  /** `v` is the integer the caller sent under `key`, or the default when the key is absent. */
  predicate IntFrom(raw: map<string, Json>, key: string, default: Option<int>, v: int) {
    if key in raw then raw[key] == JNum(v as real) else default == Some(v)
  }

  /** `v` is the boolean the caller sent under `key`, or the default when the key is absent. */
  predicate BoolFrom(raw: map<string, Json>, key: string, default: Option<bool>, v: bool) {
    if key in raw then raw[key] == JBool(v) else default == Some(v)
  }

  /** A string the caller sends is taken as is, any other JSON value is rejected, and an absent key yields the default. */
  lemma ReadStringSpec(raw: map<string, Json>, key: string, default: Option<string>)
    ensures var r := ReadString(raw, key, default);
      && (key in raw ==> (r.Some? <==> raw[key].JStr?) && (r.Some? ==> raw[key] == JStr(r.value)))
      && (key !in raw ==> r == default)
      && (r.Some? <==> StringPasses(raw, key, default))
      && (r.Some? ==> StringFrom(raw, key, default, r.value))
  {
  }

  /** An enum accepts exactly the allowed names, whether the caller sent the name or the default supplied it. */
  lemma ReadEnumSpec(raw: map<string, Json>, key: string, allowed: set<string>, default: Option<string>)
    ensures var r := ReadEnum(raw, key, allowed, default);
      && (key in raw ==> (r.Some? <==> raw[key].JStr? && raw[key].s in allowed) && (r.Some? ==> raw[key] == JStr(r.value)))
      && (key !in raw ==> (r.Some? <==> default.Some? && default.value in allowed) && (r.Some? ==> r == default))
      && (r.Some? <==> EnumPasses(raw, key, allowed, default))
      && (r.Some? ==> StringFrom(raw, key, default, r.value))
  {
  }

  /** A number is accepted exactly when it lies within the bounds, whether the caller sent it or the default supplied it. */
  lemma ReadNumberSpec(raw: map<string, Json>, key: string, default: Option<real>, lo: Option<real>, hi: Option<real>)
    ensures var r := ReadNumber(raw, key, default, lo, hi);
      && (key in raw ==> (r.Some? <==> raw[key].JNum? && InRange(raw[key].n, lo, hi)) && (r.Some? ==> raw[key] == JNum(r.value)))
      && (key !in raw ==> (r.Some? <==> default.Some? && InRange(default.value, lo, hi)) && (r.Some? ==> r == default))
      && (r.Some? <==> NumberPasses(raw, key, default, lo, hi))
      && (r.Some? ==> NumberFrom(raw, key, default, r.value))
  {
  }

  /** `.int()` additionally rejects a number with a fractional part. */
  lemma ReadIntSpec(raw: map<string, Json>, key: string, default: Option<int>, lo: Option<int>, hi: Option<int>)
    ensures var r := ReadInt(raw, key, default, lo, hi);
      && (key in raw ==> (r.Some? <==> raw[key].JNum? && IsInteger(raw[key].n) && InIntRange(raw[key].n.Floor, lo, hi)))
      && (key in raw && r.Some? ==> raw[key] == JNum(r.value as real))
      && (key !in raw ==> (r.Some? <==> default.Some? && InIntRange(default.value, lo, hi)) && (r.Some? ==> r == default))
      && (r.Some? <==> IntPasses(raw, key, default, lo, hi))
      && (r.Some? ==> IntFrom(raw, key, default, r.value))
  {
  }

  /** A boolean the caller sends is taken as is, any other JSON value is rejected, and an absent key yields the default. */
  lemma ReadBoolSpec(raw: map<string, Json>, key: string, default: Option<bool>)
    ensures var r := ReadBool(raw, key, default);
      && (key in raw ==> (r.Some? <==> raw[key].JBool?) && (r.Some? ==> raw[key] == JBool(r.value)))
      && (key !in raw ==> r == default)
      && (r.Some? <==> BoolPasses(raw, key, default))
      && (r.Some? ==> BoolFrom(raw, key, default, r.value))
  {
  }
}
