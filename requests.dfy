/** The fields the handlers destructure from a JSON request body: how they test them
    for truthiness and how they turn an id into a number with `parseInt`. */
module Requests {
  import opened Base
  import opened JsString

  /** A body field that is handed to `parseInt`: absent, a number or a string. */
  datatype IdField = Absent | NumberId(n: int) | TextId(text: string)

  /** The field is truthy: present, and neither 0 nor the empty string. */
  predicate IdGiven(f: IdField) {
    match f
    case Absent => false
    case NumberId(n) => n != 0
    case TextId(t) => t != ""
  }

  /** A string field is truthy when it is present and not empty. */
  predicate TextGiven(f: Option<string>) {
    f.Some? && f.value != ""
  }

  /** `String(field)`: the text `parseInt` reads. */
  function IdText(f: IdField): string {
    match f
    case Absent => "undefined"
    case NumberId(n) => IntToString(n)
    case TextId(t) => t
  }

  /** `parseInt(field)`, None standing for NaN; a number is read back as itself and an
      absent field as NaN (`IdValueParses`). */
  function IdValue(f: IdField): Option<int> {
    match f
    case Absent => None
    case NumberId(n) => Some(n)
    case TextId(t) => ParseInt(t)
  }

  /** The id is what `parseInt` reads from the field's text, `String(field)`. */
  lemma IdValueParses(f: IdField)
    ensures IdValue(f) == ParseInt(IdText(f))
  {
    match f
    case Absent => UndefinedIsNaN();
    case NumberId(n) => ParseIntRoundTrip(n);
    case TextId(t) =>
  }

  /** `parseInt(undefined)` reads the text "undefined", which has no digits: NaN. */
  lemma UndefinedIsNaN()
    ensures ParseInt("undefined") == None
  {
    ParseIntUntrimmed("undefined");
    assert DigitValue("undefined"[0]) >= 10;
    assert DigitPrefix("undefined", 10) == "";
  }

  /** An id sent as the decimal text of a number reads as that number. */
  lemma DecimalTextId(n: int)
    ensures IdValue(TextId(IntToString(n))) == Some(n)
  {
    ParseIntRoundTrip(n);
  }
}
