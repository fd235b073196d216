/** The JavaScript values that reach the ledger through a request body, the
    truthiness tests the handlers apply to them, and the numeric coercion of
    the `balance` and `amount` fields.

    The string fields of a request (user, currency, description, date,
    object) are plain `string`s in this model, with "" standing both for a
    missing field and for an empty one: every handler tests those fields for
    truthiness before anything else, so the two behave the same.  Only
    `balance` and `amount` may arrive as a number or as text, and the
    handlers treat the two differently, so they are a `Value`. */
module JsValues {

  datatype Option<T> = None | Some(value: T)

  /** A field of a decoded request body.  A JSON number is always finite
      (JSON has no NaN), so `Num` carries a real. */
  datatype Value = Undefined | Str(s: string) | Num(n: real)

  /** JavaScript truthiness: `undefined`, `""` and `0` are falsy. */
  predicate Truthy(v: Value)
    ensures !Truthy(v) <==> v == Undefined || v == Str("") || v == Num(0.0)
  {
    match v
    case Undefined => false
    case Str(s) => s != ""
    case Num(n) => n != 0.0
  }

  /** The text of a value under JavaScript string concatenation; `show`
      is `Number.prototype.toString`, which this model does not define. */
  function Text(v: Value, show: real -> string): (t: string) {
    match v
    case Undefined => "undefined"
    case Str(s) => s
    case Num(n) => show(n)
  }

  /** The account balance given at creation (index.js:101-107 and the
      `balance || 0` of line 114).  A truthy non-number goes through
      `parse` (parseFloat, None standing for NaN); None here is the
      "Balance must be a number" rejection.  A falsy value becomes 0. */
  function CoerceBalance(v: Value, parse: string -> Option<real>): (r: Option<real>)
    ensures r.None? <==> v.Str? && v.s != "" && parse(v.s).None?
    ensures !Truthy(v) ==> r == Some(0.0)
    ensures v.Num? ==> r == Some(v.n)
    ensures v.Str? && v.s != "" && parse(v.s).Some? ==> r == parse(v.s)
  {
    if Truthy(v) && !v.Num? then
      match parse(v.s)
      case None => None
      // `x || 0` is x itself, also when x is 0
      case Some(x) => Some(x)
    else if Truthy(v) then Some(v.n)
    else Some(0.0)
  }

  /** An IEEE number as the source sees it after parseFloat. */
  datatype JsNumber = Finite(r: real) | NaN

  datatype AmountCheck = Rejected | Accepted(amount: JsNumber)

  /** The amount coercion and validity check of index.js:170-178 AS
      WRITTEN.  Only a truthy amount gets this far (line 165).  The guard
      `amount && isNaN(amount)` can never hold, because NaN is itself
      falsy: the check never rejects, and text that does not parse goes on
      as NaN. */
  function AmountAsWritten(v: Value, parse: string -> Option<real>): (r: AmountCheck)
    requires Truthy(v)
    ensures r.Accepted?
    ensures r.amount == NaN <==> v.Str? && parse(v.s).None?
  {
    var amount :=
      if v.Num? then Finite(v.n)
      else match parse(v.s) case None => NaN case Some(x) => Finite(x);
    var truthy := amount.Finite? && amount.r != 0.0;
    if truthy && amount.NaN? then Rejected else Accepted(amount)
  }

  /** The rejection at line 177 is unreachable: an amount text that does
      not parse is accepted with the value NaN. */
  lemma UnparsableAmountAccepted(parse: string -> Option<real>)
    requires parse("abc") == None
    ensures AmountAsWritten(Str("abc"), parse) == Accepted(NaN)
  {
  }

  /** The amount check as evidently intended: a number passes, text passes
      with its parsed value, and text that does not parse is rejected
      (None, the "Amount must be a number" response).  It rejects exactly
      where the code as written lets NaN through, and agrees with it
      everywhere else. */
  function CoerceAmount(v: Value, parse: string -> Option<real>): (r: Option<real>)
    requires Truthy(v)
    ensures r.None? <==> AmountAsWritten(v, parse) == Accepted(NaN)
    ensures r.Some? ==> AmountAsWritten(v, parse) == Accepted(Finite(r.value))
  {
    match v
    case Num(n) => Some(n)
    case Str(s) => parse(s)
  }
}
