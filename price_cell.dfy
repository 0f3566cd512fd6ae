/**
 * `PriceCell`: the price field of the sub-card form. Every edit strips the
 * grouping commas, repairs a second decimal point, reformats the number and
 * reports the comma-free text to the delegate.
 */
module PriceCellComponent {
  import opened Wrappers
  import opened Foundation
  import opened Text

  /** The integer part formatted: `nil` when its comma-free text does not parse or format. */
  function FormatIntegerPart(part: string, num: Numerics): (r: Option<string>)
    ensures num.parse(Remove(part, ',')).None? ==> r.None?
    ensures num.parse(Remove(part, ',')).Some? ==> r == num.format(num.parse(Remove(part, ',')).value)
  {
    match num.parse(StripCommas(part))
    case None => None
    case Some(v) => num.format(v)
  }

  /**
   * `formatNumberString(_:)`: `nil` exactly when the text before the first
   * `.` does not parse or format; otherwise that part formatted, followed by
   * `.` and the text up to a second `.` when there is a `.`.
   */
  function FormatNumberString(text: string, num: Numerics): (r: Option<string>)
    ensures r.None? <==> FormatIntegerPart(SplitKeepingEmpty(text, '.', 2)[0], num).None?
    ensures '.' !in text ==> r == FormatIntegerPart(text, num)
  {
    var components := SplitKeepingEmpty(text, '.', 2);
    match FormatIntegerPart(components[0], num)
    case None => None
    case Some(first) =>
      if |components| > 1 then Some(first + "." + components[1]) else Some(first)
  }

  /** Without a `.`, `formatNumberString` is the formatted number, or `nil`. */
  lemma FormatNumberWithoutDot(a: string, num: Numerics)
    requires '.' !in a
    ensures FormatNumberString(a, num) == FormatIntegerPart(a, num)
  {
  }

  /** A split of `a + "." + b`, when `a` has no `.`, cuts after `a` first. */
  lemma SplitAfterDot(a: string, b: string, m: nat)
    requires '.' !in a
    ensures SplitKeepingEmpty(a + "." + b, '.', m + 1) == [a] + SplitKeepingEmpty(b, '.', m)
  {
    var s := a + "." + b;
    IndexOfAfter(a, '.', b);
    assert s[..|a|] == a;
    assert s[|a| + 1..] == b;
  }

  /** The components of `a + "." + b` when `b` has no `.`: just `a` and `b`. */
  lemma ComponentsAroundDot(a: string, b: string)
    requires '.' !in a && '.' !in b
    ensures SplitKeepingEmpty(a + "." + b, '.', 2) == [a, b]
  {
    SplitAfterDot(a, b, 1);
  }

  /**
   * With one `.`, `formatNumberString` is the formatted integer part, a `.`,
   * and the fraction digits as typed; `nil` when the integer part does not parse.
   */
  lemma FormatNumberWithOneDot(a: string, b: string, num: Numerics)
    requires '.' !in a && '.' !in b
    ensures FormatNumberString(a + "." + b, num) ==
      match FormatIntegerPart(a, num)
      case None => None
      case Some(first) => Some(first + "." + b)
  {
    ComponentsAroundDot(a, b);
  }

  /** The components of `a.b.rest`, when `a` and `b` have no `.`: `a`, `b` and all of `rest`. */
  lemma ComponentsAroundTwoDots(a: string, b: string, rest: string)
    requires '.' !in a && '.' !in b
    ensures SplitKeepingEmpty(a + "." + b + "." + rest, '.', 2) == [a, b, rest]
  {
    var s := a + "." + b + "." + rest;
    var tail := b + "." + rest;
    assert s == a + "." + tail;
    SplitAfterDot(a, tail, 1);
    SplitAfterDot(b, rest, 0);
    var tailPieces := SplitKeepingEmpty(tail, '.', 1);
    var restPieces := SplitKeepingEmpty(rest, '.', 0);
    assert restPieces == [rest];
    assert tailPieces == [b, rest];
  }

  /** With two or more `.`, `formatNumberString` drops the second `.` and all after it. */
  lemma FormatNumberDropsThirdPiece(a: string, b: string, rest: string, num: Numerics)
    requires '.' !in a && '.' !in b
    ensures FormatNumberString(a + "." + b + "." + rest, num) == FormatNumberString(a + "." + b, num)
  {
    ComponentsAroundTwoDots(a, b, rest);
    ComponentsAroundDot(a, b);
  }

  /** `components.count > 2` holds exactly when the text has two or more `.`. */
  lemma MoreThanTwoComponents(s: string)
    ensures |SplitKeepingEmpty(s, '.', 2)| > 2 <==> Count(s, '.') >= 2
  {
    SplitKeepingEmptySpec(s, '.', 2);
  }

  /**
   * `components.count == 2 && components[1].isEmpty` holds exactly when the
   * text has one `.` and it is the last character.
   */
  lemma TrailingDotComponents(s: string)
    ensures (|SplitKeepingEmpty(s, '.', 2)| == 2 && SplitKeepingEmpty(s, '.', 2)[1] == "") <==>
            (Count(s, '.') == 1 && s[|s| - 1] == '.')
  {
    var pieces := SplitKeepingEmpty(s, '.', 2);
    SplitKeepingEmptySpec(s, '.', 2);
    if Count(s, '.') == 1 {
      CountAbsent(s, '.');
      var i := IndexOf(s, '.');
      CountAround(s, '.');
      CountAbsent(s[i + 1..], '.');
      assert pieces == [s[..i], s[i + 1..]];
    }
  }

  /** The text the cell parses: the comma-free text, without its last character when it has two `.` or more. */
  function Candidate(stripped: string): (r: string)
    ensures r <= stripped && |stripped| - 1 <= |r|
    ensures r == stripped <==> Count(stripped, '.') < 2
  {
    if Count(stripped, '.') >= 2 && |stripped| > 0 then stripped[..|stripped| - 1] else stripped
  }

  /** The comma-free text has one `.`, and it is the last character. */
  predicate EndsInOnlyDot(stripped: string)
  {
    Count(stripped, '.') == 1 && stripped[|stripped| - 1] == '.'
  }

  /**
   * A second `.` typed behind `a.b` is undone before parsing: the candidate
   * is `a.b` again, and the text does not end in its only `.`.
   */
  lemma SecondDotIsDropped(a: string, b: string)
    requires '.' !in a && '.' !in b
    ensures !EndsInOnlyDot(a + "." + b + ".")
    ensures Candidate(a + "." + b + ".") == a + "." + b
  {
    var s := a + "." + b;
    CountAbsent(a, '.');
    CountAbsent(b, '.');
    CountConcat(a, ".", '.');
    CountConcat(a + ".", b, '.');
    CountConcat(s, ".", '.');
    assert (s + ".")[..|s + "."| - 1] == s;
  }

  class PriceCell {
    /** `priceTextField.text`. */
    var text: Option<string>
    /** The title of `swapCurrencyButton`. */
    var buttonTitle: Option<string>
    /** Every value passed to the delegate's `updateViewModelValue(price:)`, in order. */
    var delegateLog: seq<Option<string>>

    /**
     * A new cell: an empty text field, nothing reported, and as the button
     * title the currency code stored in user defaults (`storedCurrency`, a
     * parameter here), or "KRW" when none is stored.
     */
    constructor (storedCurrency: Option<string>)
      ensures text == Some("") && delegateLog == []
      ensures storedCurrency.Some? ==> buttonTitle == storedCurrency
      ensures storedCurrency.None? ==> buttonTitle == Some("KRW")
    {
      text := Some("");
      buttonTitle := Some(CurrentCurrency(storedCurrency));
      delegateLog := [];
    }

    /** `updatePrice(price:)`: a `nil` price leaves the field as it is; the delegate is not told. */
    method UpdatePrice(price: Option<real>, num: Numerics)
      modifies this`text
      ensures price.None? ==> text == old(text)
      ensures price.Some? ==> text == FieldText(num.format(price.value))
      ensures buttonTitle == old(buttonTitle) && delegateLog == old(delegateLog)
    {
      if price.None? {
        return;
      }
      var formattedNumber := num.format(price.value);
      text := FieldText(formattedNumber);
    }

    /** `updateButtonTitle(text:)`: only the button title changes. */
    method UpdateButtonTitle(title: Option<string>)
      modifies this`buttonTitle
      ensures buttonTitle == title && text == old(text) && delegateLog == old(delegateLog)
    {
      buttonTitle := title;
    }

    /**
     * `didTextFieldChange()`. With no text nothing happens. A text whose
     * comma-free form ends in its only `.` is shown through
     * `formatNumberString` and not reported. Otherwise the candidate (the
     * comma-free text, less its last character when it holds two or more `.`)
     * is parsed: on failure nothing changes; on success the field shows the
     * formatted number and the delegate receives that text without commas.
     */
    method DidTextFieldChange(num: Numerics)
      modifies this`text, this`delegateLog
      ensures buttonTitle == old(buttonTitle)
      ensures old(text).None? ==> text == old(text) && delegateLog == old(delegateLog)
      ensures old(text).Some? && EndsInOnlyDot(StripCommas(old(text).value)) ==>
        text == FieldText(FormatNumberString(StripCommas(old(text).value), num)) && delegateLog == old(delegateLog)
      ensures old(text).Some? && !EndsInOnlyDot(StripCommas(old(text).value)) ==>
        match num.parse(Candidate(StripCommas(old(text).value)))
        case None => text == old(text) && delegateLog == old(delegateLog)
        case Some(v) => text == FieldText(num.format(v)) && delegateLog == old(delegateLog) + [num.format(v).Map(StripCommas)]
    {
      if text.None? {
        return;
      }
      var priceText := text.value;

      var numWithoutComma := StripCommas(priceText);
      var components := SplitKeepingEmpty(numWithoutComma, '.', 2);
      ghost var candidate := Candidate(numWithoutComma);
      MoreThanTwoComponents(numWithoutComma);
      TrailingDotComponents(numWithoutComma);

      if |components| > 2 {
        numWithoutComma := numWithoutComma[..|numWithoutComma| - 1];
      } else if |components| == 2 && components[1] == "" {
        text := FieldText(FormatNumberString(numWithoutComma, num));
        return;
      }
      assert numWithoutComma == candidate;

      var parsed := num.parse(numWithoutComma);
      if parsed.None? {
        return;
      }
      var formattedNumber := num.format(parsed.value);

      text := FieldText(formattedNumber);
      var textWithoutComma := formattedNumber.Map(StripCommas);
      delegateLog := delegateLog + [textWithoutComma];
    }
  }
}
