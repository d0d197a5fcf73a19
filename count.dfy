/** What `Count.render` of `src/js/components/count.js` writes: the number of items,
    "thing" or "things", and a cheering or a crying emoji. */
module CountView {
  import opened Options
  import opened NumberText
  import opened JsValues

  const Opening: string := "\n      <small>You've done </small>\n      "
  const Thing: string := "\n      <small>thing"
  const Today: string := " today "
  const Closing: string := "</small>\n    "
  /** The HTML entities of the two emoji, left uninterpreted. */
  const Cheering: string := "&#x1f64c;"
  const Crying: string := "&#x1f622;"

  /** The template `Count.render` assigns to `innerHTML`, for the store's `items` array. */
  function Markup(items: Value): string
    requires items.List?
  {
    var length := Get(items, "length");
    var sufix := if length != Num(1) then "s" else "";
    var emoji := if length.Num? && length.n > 0 then Cheering else Crying;
    Opening + (ToText(length) + (Thing + (sufix + (Today + (emoji + Closing)))))
  }

  /** What a reader of the markup sees: the number, whether the noun is plural and
      whether the emoji is the cheering one. */
  datatype Reading = Reading(count: nat, plural: bool, cheering: bool)

  /** Reads a count markup back; `None` for text of another shape. */
  function ReadCount(m: string): Option<Reading> {
    if Opening <= m then ReadNumber(m[|Opening|..]) else None
  }

  function ReadNumber(s: string): Option<Reading> {
    var digits := DigitRun(s);
    if digits == [] then None
    else
      match ReadWords(s[|digits|..])
      case None => None
      case Some(words) => Some(Reading(ParseDecimal(digits), words.0, words.1))
  }

  /** Reads "thing", the optional "s", " today " and the emoji. */
  function ReadWords(s: string): Option<(bool, bool)> {
    if !(Thing <= s) then None
    else
      var afterThing := s[|Thing|..];
      var plural := afterThing != [] && afterThing[0] == 's';
      var afterSuffix := if plural then afterThing[1..] else afterThing;
      if !(Today <= afterSuffix) then None
      else
        var rest := afterSuffix[|Today|..];
        if rest == Cheering + Closing then Some((plural, true))
        else if rest == Crying + Closing then Some((plural, false))
        else None
  }

  lemma ReadEmoji(emoji: string)
    requires emoji == Cheering || emoji == Crying
    ensures (emoji + Closing == Cheering + Closing) == (emoji == Cheering)
  {
    if emoji == Crying {
      assert (Crying + Closing)[6] != (Cheering + Closing)[6];
    }
  }

  lemma ReadWordsOf(sufix: string, emoji: string)
    requires sufix == "s" || sufix == ""
    requires emoji == Cheering || emoji == Crying
    ensures ReadWords(Thing + (sufix + (Today + (emoji + Closing)))) == Some((sufix == "s", emoji == Cheering))
  {
    var rest := emoji + Closing;
    var afterSuffix := Today + rest;
    var afterThing := sufix + afterSuffix;
    PrefixRest(Thing, afterThing);
    PrefixRest(Today, rest);
    if sufix == "s" {
      PrefixRest(sufix, afterSuffix);
    } else {
      assert afterThing == afterSuffix;
      assert afterThing[0] == ' ';
    }
    ReadEmoji(emoji);
  }

  /** The markup shows the number of items, says "things" exactly when that number is
      not 1, and cheers exactly when it is positive. */
  lemma ReadCountOfMarkup(xs: seq<Value>)
    ensures ReadCount(Markup(List(xs))) == Some(Reading(|xs|, |xs| != 1, |xs| > 0))
  {
    var n := |xs|;
    var sufix := if n != 1 then "s" else "";
    var emoji := if n > 0 then Cheering else Crying;
    var words := Thing + (sufix + (Today + (emoji + Closing)));
    assert Get(List(xs), "length") == Num(n);
    assert Markup(List(xs)) == Opening + (Decimal(n) + words);
    PrefixRest(Opening, Decimal(n) + words);
    assert words[0] == '\n';
    DigitRunOfNumber(Decimal(n), words);
    PrefixRest(Decimal(n), words);
    ReadWordsOf(sufix, emoji);
    ParseDecimalOfDecimal(n);
  }

  /** Different numbers of items give different markup. */
  lemma MarkupInjective(xs: seq<Value>, ys: seq<Value>)
    requires Markup(List(xs)) == Markup(List(ys))
    ensures |xs| == |ys|
  {
    ReadCountOfMarkup(xs);
    ReadCountOfMarkup(ys);
  }
}
