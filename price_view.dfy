/**
 * `PriceView`: a price field with a currency button. It reads its price from
 * the text without grouping commas and reports that text to its delegate.
 */
module PriceViewComponent {
  import opened Wrappers
  import opened Foundation
  import opened Text

  /** The value of the `price` getter for a text field holding `text`. */
  function PriceOfText(text: Option<string>, num: Numerics): (r: real)
    ensures text.None? ==> r == 0.0
    ensures text.Some? && num.parse(StripCommas(text.value)).None? ==> r == 0.0
    ensures text.Some? && num.parse(StripCommas(text.value)).Some? ==> r == num.parse(StripCommas(text.value)).value
  {
    if text.None? then 0.0
    else
      var priceText := StripCommas(text.value);
      match num.parse(priceText)
      case None => 0.0
      case Some(price) => price
  }

  /** Grouping commas anywhere in the text do not change the price. */
  lemma PriceIgnoresGroupingCommas(a: string, b: string, num: Numerics)
    ensures PriceOfText(Some(a + "," + b), num) == PriceOfText(Some(a + b), num)
  {
    assert a + "," + b == a + [','] + b;
    StripCommasDropsComma(a, b);
  }

  /** The text reported to the delegate carries the same price as the field. */
  lemma ReportedTextHasFieldPrice(text: Option<string>, num: Numerics)
    ensures PriceOfText(text.Map(StripCommas), num) == PriceOfText(text, num)
  {
    if text.Some? {
      StripCommasSpec(text.value);
    }
  }

  class PriceView {
    /** `priceTextField.text`. */
    var text: Option<string>
    /** The title of `swapCurrencyButton`. */
    var buttonTitle: Option<string>
    /** Every value passed to the delegate's `updateViewModelValue(price:)`, in order. */
    var delegateLog: seq<Option<string>>

    /**
     * A new view: an empty text field, and as the button title the currency
     * code stored in user defaults (`storedCurrency`, a parameter here), or
     * "KRW" when none is stored.
     */
    constructor (storedCurrency: Option<string>)
      ensures text == Some("") && delegateLog == []
      ensures storedCurrency.Some? ==> buttonTitle == storedCurrency
      ensures storedCurrency.None? ==> buttonTitle == Some("KRW")
    {
      text := Some("");
      buttonTitle := Some(CurrentCurrency(storedCurrency));
      delegateLog := [];
    }

    /** The `price` getter. */
    function Price(num: Numerics): real
      reads this
    {
      PriceOfText(text, num)
    }

    /** `updatePrice(price:)`: a `nil` price leaves the field as it is. */
    method UpdatePrice(price: Option<real>, num: Numerics)
      modifies this`text
      ensures price.None? ==> text == old(text)
      ensures price.Some? ==> text == FieldText(num.format(price.value))
      ensures buttonTitle == old(buttonTitle) && delegateLog == old(delegateLog)
    {
      if price.None? {
        return;
      }
      var formattedNumber := num.format(price.value);
      text := FieldText(formattedNumber);
    }

    /**
     * `updatePriceView(rate:price:buttonTitle:)`: a `nil` price changes
     * neither the field nor the button; otherwise the field shows the price
     * divided by the rate and the button the new title.
     */
    method UpdatePriceView(rate: real, price: Option<real>, title: string, num: Numerics)
      modifies this`text, this`buttonTitle
      ensures price.None? ==> text == old(text) && buttonTitle == old(buttonTitle)
      ensures price.Some? ==> text == FieldText(num.format(num.divide(price.value, rate))) && buttonTitle == Some(title)
      ensures delegateLog == old(delegateLog)
    {
      if price.None? {
        return;
      }
      var converted := num.divide(price.value, rate);
      var formattedNumber := num.format(converted);
      text := FieldText(formattedNumber);
      buttonTitle := Some(title);
    }

    /** `didTextFieldChange()`: the delegate receives the field's text without commas (`nil` stays `nil`). */
    method DidTextFieldChange()
      modifies this`delegateLog
      ensures delegateLog == old(delegateLog) + [text.Map(StripCommas)]
      ensures text == old(text) && buttonTitle == old(buttonTitle)
    {
      var stripped := text.Map(StripCommas);
      delegateLog := delegateLog + [stripped];
    }
  }
}
