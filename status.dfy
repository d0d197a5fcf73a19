/** The text `Status.render` of `src/js/components/status.js` produces, as written: it
    tests the property `lenght`, which an array does not have, so the suffix is always
    `'s'`; and it assigns the text to the property `innerHTMl` (see `Components`). */
module StatusView {
  import opened Options
  import opened NumberText
  import opened JsValues

  /** The template `Status.render` assigns, for the store's `items` array. */
  function Text(items: Value): string
    requires items.List?
  {
    var suffix := if Get(items, "lenght") != Num(1) then "s" else "";
    ToText(Get(items, "length")) + " item" + suffix
  }

  /** What a reader of the text sees: the number and whether the noun is plural. */
  datatype Reading = Reading(count: nat, plural: bool)

  /** Reads a status text back; `None` for text of another shape. */
  function ReadStatus(t: string): Option<Reading> {
    var digits := DigitRun(t);
    var rest := t[|digits|..];
    if digits == [] || !(" item" <= rest) then None
    else
      var tail := rest[|" item"|..];
      if tail == "s" then Some(Reading(ParseDecimal(digits), true))
      else if tail == "" then Some(Reading(ParseDecimal(digits), false))
      else None
  }

  /** The text shows the number of items and, for every number including 1, the
      plural "items". */
  lemma ReadStatusOfText(xs: seq<Value>)
    ensures ReadStatus(Text(List(xs))) == Some(Reading(|xs|, true))
  {
    var n := |xs|;
    assert Get(List(xs), "length") == Num(n);
    assert Get(List(xs), "lenght") == Undefined;
    assert Text(List(xs)) == Decimal(n) + " items";
    DigitRunOfNumber(Decimal(n), " items");
    PrefixRest(Decimal(n), " items");
    PrefixRest(" item", "s");
    ParseDecimalOfDecimal(n);
  }

  /** A single item is shown as "1 items". */
  lemma OneItemReadsPlural(x: Value)
    ensures Text(List([x])) == "1 items"
  {
  }
}
