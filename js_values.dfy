/**
 * JavaScript value semantics the client leans on: truthiness of optional
 * strings and ids, `String(id)`, `Number(id)`, and the clock and random
 * token that the id generators read.
 */
module JsValues {
  import opened Wrappers
  import opened Text

  /** A string that is neither missing nor empty. */
  predicate Truthy(a: Option<string>) {
    a.Some? && a.value != ""
  }

  /** `a || fallback` for a string that may be missing. */
  function OrElse(a: Option<string>, fallback: string): string {
    if Truthy(a) then a.value else fallback
  }

  /** `x || null` for an optional string. */
  function OrNull(a: Option<string>): (r: Option<string>)
    ensures r.Some? <==> Truthy(a)
    ensures r.Some? ==> r == a
  {
    if Truthy(a) then a else None
  }

  /** `${v}` for a string that may be missing: "undefined" when it is. */
  function Interpolate(v: Option<string>): string {
    match v
    case None => "undefined"
    case Some(s) => s
  }

  /** A ticket id as the app passes it around: a server number or a string. */
  datatype JsId = Num(n: int) | Str(s: string)

  /** `if (id)`: a present id other than 0 and "". */
  predicate IdTruthy(id: Option<JsId>) {
    id.Some? && match id.value
                case Num(n) => n != 0
                case Str(s) => s != ""
  }

  /** `String(id)` */
  function IdString(id: JsId): string {
    match id
    case Num(n) => IntToString(n)
    case Str(s) => s
  }

  /** `Number(id)`, with None for NaN. */
  function IdNumber(id: JsId): Option<int> {
    match id
    case Num(n) => Some(n)
    case Str(s) => ToNumber(s)
  }

  /** `${Number(id)}` as it lands in a request path: the digits, or "NaN". */
  function NumberText(id: JsId): (r: string)
    ensures IdNumber(id).None? <==> r == "NaN"
  {
    match IdNumber(id)
    case None => "NaN"
    case Some(n) => IntToString(n)
  }

  /** What the id generators read: `new Date().toISOString()`, `Date.now()` and a random token. */
  datatype Env = Env(nowIso: string, nowMs: nat, token: string)

  /** `local_${Date.now()}_${random}` */
  function LocalId(env: Env): string {
    "local_" + NatToString(env.nowMs) + "_" + env.token
  }

  /** `offline_${Date.now()}_${random}` */
  function OfflineId(env: Env): string {
    "offline_" + NatToString(env.nowMs) + "_" + env.token
  }

  /** `Number(id)` of an 'offline_' id is NaN, so every path built from it names "NaN". */
  lemma OfflineIdIsNaN(env: Env)
    ensures IdNumber(Str(OfflineId(env))) == None
    ensures NumberText(Str(OfflineId(env))) == "NaN"
  {
    NumberOfLetterLed(OfflineId(env));
  }

  /** The same holds for a 'local_' id. */
  lemma LocalIdIsNaN(env: Env)
    ensures IdNumber(Str(LocalId(env))) == None
  {
    NumberOfLetterLed(LocalId(env));
  }
}
