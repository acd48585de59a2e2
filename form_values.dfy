/**
 * What a form field holds and how `handleSubmit` converts it: numeric inputs go through
 * `Number(...)`, the status select through `status === "true" || status === true`.
 */
module FormValues {
  import opened Text

  /**
   * A numeric form field: the text of an `<input type="number">` once the user has typed,
   * or the number copied from a record by `handleOpenEdit` (or a literal such as `quantity: 1`).
   */
  datatype NumField = Typed(text: string) | Held(n: int)

  /** A JavaScript number as far as these forms produce one: an integer, or NaN. */
  datatype JsNum = NaN | Num(value: int)

  /** `Number(text)` for an integer literal: "" is 0, an optional '-' and digits are read, the rest is NaN. */
  function NumberOfText(s: string): (r: JsNum)
    ensures s == "" ==> r == Num(0)
    ensures AllDigits(s) ==> r == Num(ParseDigits(s))
    ensures (exists i :: 1 <= i < |s| && !IsDigit(s[i])) ==> r == NaN
    ensures s != "" && !IsDigit(s[0]) && (s[0] != '-' || |s| == 1) ==> r == NaN
  {
    if s == [] then Num(0)
    else if s[0] == '-' && |s| > 1 && AllDigits(s[1..]) then Num(-(ParseDigits(s[1..]) as int))
    else if AllDigits(s) then Num(ParseDigits(s))
    else NaN
  }

  /** `Number(field)`. */
  function ToNumber(f: NumField): (r: JsNum)
    ensures f.Held? ==> r == Num(f.n)
    ensures f.Typed? ==> r == NumberOfText(f.text)
  {
    match f
    case Typed(s) => NumberOfText(s)
    case Held(n) => Num(n)
  }

  /** `field > 0` in JavaScript: NaN compares false. */
  predicate IsPositive(f: NumField) {
    ToNumber(f).Num? && ToNumber(f).value > 0
  }

  /** The decimal text of an integer, as an `<input type="number">` shows it. */
  function ShowInt(n: int): string {
    if n < 0 then "-" + ShowNat(-n) else ShowNat(n)
  }

  /** Typing the digits of any integer into a numeric field submits that integer. */
  lemma TypedIntegerRoundTrip(n: int)
    ensures ToNumber(Typed(ShowInt(n))) == Num(n)
  {
    if n < 0 {
      var s := ShowInt(n);
      assert s[1..] == ShowNat(-n);
      ParseShowNat(-n);
    } else {
      ParseShowNat(n);
    }
  }

  /** The status form field: the select yields text, a raw record may carry a boolean. */
  datatype StatusField = TextValue(text: string) | BoolValue(flag: bool)

  /** `status === "true" || status === true`: any other text (such as "false") is inactive. */
  function StatusOf(f: StatusField): (active: bool)
    ensures active <==> (f.TextValue? && f.text == "true") || (f.BoolValue? && f.flag)
  {
    f == TextValue("true") || f == BoolValue(true)
  }

  /** `item.status ? "true" : "false"`, the mapping every `handleOpenEdit` applies. */
  function StatusText(b: bool): (f: StatusField)
    ensures f.TextValue? && (f.text == "true" || f.text == "false")
    ensures f.text == "true" <==> b
  {
    TextValue(if b then "true" else "false")
  }

  /** Opening a record for edit and submitting it unchanged restores its status. */
  lemma StatusRoundTrip(b: bool)
    ensures StatusOf(StatusText(b)) == b
  {
  }
}
