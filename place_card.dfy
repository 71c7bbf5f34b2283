/**
  The listing card: the per-night price read out of the listing's price text,
  the total for the assumed five-night stay, the fallbacks for a missing id or
  missing dates, and the card's two pieces of click state (the favourite heart
  and the selected image dot).
*/
module PlaceCard {
  import opened Wrappers
  import opened SearchQuery

  /** The assumed length of stay, used for the total and for the "for 5 nights" label. */
  const Nights: nat := 5

  /** The Indian rupee sign, the optional first character of the price pattern. */
  const RupeeSign: char := '\U{20B9}'

  predicate IsDigit(c: char) {
    '0' <= c <= '9'
  }

  /** The character class `[\d,]`. */
  predicate IsPriceChar(c: char) {
    IsDigit(c) || c == ','
  }

  predicate AllPriceChars(m: string) {
    forall k :: 0 <= k < |m| ==> IsPriceChar(m[k])
  }

  predicate AllDigits(d: string) {
    forall k :: 0 <= k < |d| ==> IsDigit(d[k])
  }

  // ---------------------------------------------------------------------------
  // The pattern /₹?([\d,]+)/ and its first capture group
  // ---------------------------------------------------------------------------

  /** End of the greedy `[\d,]+` run that starts at `i`. */
  function RunEnd(s: string, i: nat): (e: nat)
    requires i <= |s|
    ensures i <= e <= |s|
    ensures forall j :: i <= j < e ==> IsPriceChar(s[j])
    ensures e < |s| ==> !IsPriceChar(s[e])
    decreases |s| - i
  {
    if i == |s| || !IsPriceChar(s[i]) then i else RunEnd(s, i + 1)
  }

  /**
    The capture group when the pattern matches starting exactly at `i`: the
    engine first tries to consume a rupee sign and, if the run cannot follow
    it, backtracks and tries the run at `i` itself.
  */
  function MatchAt(s: string, i: nat): (m: Option<string>)
    requires i <= |s|
    ensures m.Some? ==> |m.value| > 0 && AllPriceChars(m.value)
  {
    if i + 1 < |s| && s[i] == RupeeSign && IsPriceChar(s[i + 1]) then
      Some(s[i + 1..RunEnd(s, i + 1)])
    else if i < |s| && IsPriceChar(s[i]) then
      Some(s[i..RunEnd(s, i)])
    else
      None
  }

  /** The leftmost match at or after `i`, as `String.prototype.match` searches. */
  function SearchFrom(s: string, i: nat): (m: Option<string>)
    requires i <= |s|
    ensures m.Some? ==> |m.value| > 0 && AllPriceChars(m.value)
    decreases |s| - i
  {
    if MatchAt(s, i).Some? then MatchAt(s, i)
    else if i == |s| then None
    else SearchFrom(s, i + 1)
  }

  /** `data.price.match(/₹?([\d,]+)/)`, reduced to its first group (`None` for `null`). */
  function PriceMatch(s: string): (m: Option<string>)
    ensures m.Some? ==> |m.value| > 0 && AllPriceChars(m.value)
  {
    SearchFrom(s, 0)
  }

  /** Index of the first digit or comma of `s` at or after `i` (`|s|` if there is none). */
  function FirstPriceCharFrom(s: string, i: nat): (f: nat)
    requires i <= |s|
    ensures i <= f <= |s|
    ensures forall j :: i <= j < f ==> !IsPriceChar(s[j])
    ensures f < |s| ==> IsPriceChar(s[f])
    decreases |s| - i
  {
    if i == |s| || IsPriceChar(s[i]) then i else FirstPriceCharFrom(s, i + 1)
  }

  /** A reference reading of the pattern: the first maximal run of digits and commas. */
  function FirstRun(s: string): Option<string> {
    var f := FirstPriceCharFrom(s, 0);
    if f == |s| then None else Some(s[f..RunEnd(s, f)])
  }

  /** The optional rupee sign never changes what the group captures: it is the first maximal `[\d,]` run. */
  lemma CaptureIsFirstRun(s: string)
    ensures PriceMatch(s) == FirstRun(s)
  {
    var f := FirstPriceCharFrom(s, 0);
    SearchBeforeFirstRun(s, 0, f);
  }

  lemma {:induction false} SearchBeforeFirstRun(s: string, i: nat, f: nat)
    requires f == FirstPriceCharFrom(s, 0)
    requires i <= f
    ensures SearchFrom(s, i) == FirstRun(s)
    decreases f - i
  {
    if i < f {
      assert !IsPriceChar(s[i]);
      if i + 1 < |s| && s[i] == RupeeSign && IsPriceChar(s[i + 1]) {
        assert i + 1 == f;
      } else {
        SearchBeforeFirstRun(s, i + 1, f);
      }
    } else if f < |s| {
      assert s[f] != RupeeSign;
    }
  }

  /** Where the price run sits between text with no digit or comma and a non-price character, the group is that run. */
  lemma PriceMatchInContext(prefix: string, run: string, suffix: string)
    requires forall k :: 0 <= k < |prefix| ==> !IsPriceChar(prefix[k])
    requires |run| > 0 && AllPriceChars(run)
    requires suffix == [] || !IsPriceChar(suffix[0])
    ensures PriceMatch(prefix + run + suffix) == Some(run)
  {
    var s := prefix + run + suffix;
    assert FirstPriceCharFrom(s, 0) == |prefix| by {
      FirstPriceCharIs(s, |prefix|);
    }
    RunEndIs(s, |prefix|, |prefix| + |run|);
    assert s[|prefix|..|prefix| + |run|] == run;
    CaptureIsFirstRun(s);
  }

  lemma FirstPriceCharIs(s: string, f: nat)
    requires f < |s| && IsPriceChar(s[f])
    requires forall j :: 0 <= j < f ==> !IsPriceChar(s[j])
    ensures FirstPriceCharFrom(s, 0) == f
  {
  }

  lemma RunEndIs(s: string, i: nat, e: nat)
    requires i <= e <= |s|
    requires forall j :: i <= j < e ==> IsPriceChar(s[j])
    requires e < |s| ==> !IsPriceChar(s[e])
    ensures RunEnd(s, i) == e
  {
  }

  // ---------------------------------------------------------------------------
  // Removing the commas and reading the digits
  // ---------------------------------------------------------------------------

  /** `m.replace(/,/g, '')`. */
  function StripCommas(m: string): (d: string)
    ensures |d| <= |m|
    ensures forall k :: 0 <= k < |d| ==> d[k] != ','
    ensures AllPriceChars(m) ==> AllDigits(d)
  {
    if m == [] then []
    else (if m[0] == ',' then [] else [m[0]]) + StripCommas(m[1..])
  }

  /** Removing the commas leaves nothing exactly when the text is made of commas only. */
  lemma {:induction false} StripCommasEmpty(m: string)
    ensures StripCommas(m) == [] <==> forall k :: 0 <= k < |m| ==> m[k] == ','
  {
    if m != [] {
      StripCommasEmpty(m[1..]);
      if m[0] == ',' {
        assert forall k :: 1 <= k < |m| ==> m[k] == m[1..][k - 1];
      }
    }
  }

  function DigitValue(c: char): (v: nat)
    requires IsDigit(c)
    ensures v < 10
  {
    (c as int - '0' as int)
  }

  function DigitChar(v: nat): (c: char)
    requires v < 10
    ensures IsDigit(c) && DigitValue(c) == v
  {
    ('0' as int + v) as char
  }

  /** The number written by a string of decimal digits, most significant first. */
  function DecimalValue(d: string): nat
    requires AllDigits(d)
  {
    if d == [] then 0 else DecimalValue(d[..|d| - 1]) * 10 + DigitValue(d[|d| - 1])
  }

  /** The decimal numeral of `n` without leading zeros. */
  function Decimal(n: nat): (d: string)
    ensures |d| > 0 && AllDigits(d)
  {
    if n < 10 then [DigitChar(n)] else Decimal(n / 10) + [DigitChar(n % 10)]
  }

  /** Reading the numeral of `n` gives `n` back. */
  lemma {:induction false} DecimalRoundTrip(n: nat)
    ensures DecimalValue(Decimal(n)) == n
  {
    if n >= 10 {
      DecimalRoundTrip(n / 10);
      var d := Decimal(n);
      assert d[..|d| - 1] == Decimal(n / 10);
    }
  }

  /** The outcome of `parseInt`: a number, or NaN when no digit is there to read. */
  datatype Parsed = NaN | Num(value: nat)

  /** `parseInt` on a string of digits only (the comma-free group). */
  function ParseDigits(d: string): (p: Parsed)
    requires AllDigits(d)
    ensures p.NaN? <==> d == []
  {
    if d == [] then NaN else Num(DecimalValue(d))
  }

  // ---------------------------------------------------------------------------
  // Per-night price and five-night total
  // ---------------------------------------------------------------------------

  /** `priceMatch ? parseInt(priceMatch[1].replace(/,/g, '')) : 0`. */
  function PerNightPrice(price: string): (p: Parsed)
    ensures PriceMatch(price) == FirstRun(price)
    ensures FirstRun(price).None? ==> p == Num(0)
    ensures FirstRun(price).Some? ==> AllPriceChars(FirstRun(price).value) && p == ParseDigits(StripCommas(FirstRun(price).value))
  {
    CaptureIsFirstRun(price);
    match PriceMatch(price)
    case None => Num(0)
    case Some(m) => ParseDigits(StripCommas(m))
  }

  /** `pricePerNight * nights`; NaN times five stays NaN. */
  function TotalPrice(price: string): (t: Parsed)
    ensures t.NaN? <==> PerNightPrice(price).NaN?
    ensures t.Num? ==> t.value % Nights == 0 && t.value / Nights == PerNightPrice(price).value
  {
    match PerNightPrice(price)
    case NaN => NaN
    case Num(n) => Num(n * Nights)
  }

  /** The label printed beside the total, built from the same constant. */
  function StayLabel(): (r: string)
    ensures r == "for 5 nights"
  {
    "for " + Decimal(Nights) + " nights"
  }

  /** A price text with no digit and no comma gives 0 per night, not an error. */
  lemma NoDigitsMeansZero(price: string)
    requires forall k :: 0 <= k < |price| ==> !IsPriceChar(price[k])
    ensures PerNightPrice(price) == Num(0)
    ensures TotalPrice(price) == Num(0)
  {
    CaptureIsFirstRun(price);
  }

  /** The price is NaN exactly when the first run of digits and commas holds commas only. */
  lemma NaNExactlyForCommaOnlyRun(price: string)
    ensures PerNightPrice(price).NaN? <==>
      PriceMatch(price).Some? && forall k :: 0 <= k < |PriceMatch(price).value| ==> PriceMatch(price).value[k] == ','
  {
    if PriceMatch(price).Some? {
      StripCommasEmpty(PriceMatch(price).value);
    }
  }

  /** A price written as a numeral between non-numeric text reads back as that number. */
  lemma NumeralPriceReadsBack(prefix: string, n: nat, suffix: string)
    requires forall k :: 0 <= k < |prefix| ==> !IsPriceChar(prefix[k])
    requires suffix == [] || !IsPriceChar(suffix[0])
    ensures PerNightPrice(prefix + Decimal(n) + suffix) == Num(n)
    ensures TotalPrice(prefix + Decimal(n) + suffix) == Num(n * Nights)
  {
    var d := Decimal(n);
    assert AllPriceChars(d);
    PriceMatchInContext(prefix, d, suffix);
    StripCommasOfDigits(d);
    DecimalRoundTrip(n);
  }

  lemma {:induction false} StripCommasOfDigits(d: string)
    requires AllDigits(d)
    ensures StripCommas(d) == d
  {
    if d != [] {
      StripCommasOfDigits(d[1..]);
    }
  }

  /** The first listing fixture's price text reads as 2511 per night and 12555 for the stay. */
  lemma FixturePrice2511()
    ensures PerNightPrice("\U{20B9}2,511/night") == Num(2511)
    ensures TotalPrice("\U{20B9}2,511/night") == Num(12555)
  {
    var s := "\U{20B9}2,511/night";
    assert s[..1] == "\U{20B9}" && s[1..6] == "2,511" && s[6..] == "/night";
    assert s == s[..1] + s[1..6] + s[6..];
    PriceMatchInContext(s[..1], s[1..6], s[6..]);
    assert StripCommas("2,511") == "2511";
    DecimalOfFourDigits("2511", 2, 5, 1, 1);
  }

  /** The last listing fixture's price text reads as 1898 per night. */
  lemma FixturePrice1898()
    ensures PerNightPrice("\U{20B9}1,898/night") == Num(1898)
  {
    var s := "\U{20B9}1,898/night";
    assert s[..1] == "\U{20B9}" && s[1..6] == "1,898" && s[6..] == "/night";
    assert s == s[..1] + s[1..6] + s[6..];
    PriceMatchInContext(s[..1], s[1..6], s[6..]);
    assert StripCommas("1,898") == "1898";
    DecimalOfFourDigits("1898", 1, 8, 9, 8);
  }

  lemma DecimalOfFourDigits(d: string, a: nat, b: nat, c: nat, e: nat)
    requires a < 10 && b < 10 && c < 10 && e < 10
    requires d == [DigitChar(a), DigitChar(b), DigitChar(c), DigitChar(e)]
    ensures DecimalValue(d) == a * 1000 + b * 100 + c * 10 + e
  {
    assert d[..3][..2][..1][..0] == [];
    assert DecimalValue(d[..3][..2][..1]) == a;
    assert d[..3][..2] == [DigitChar(a), DigitChar(b)];
    assert DecimalValue(d[..3]) == (a * 10 + b) * 10 + c;
  }

  /** A comma ahead of the first digit is captured alone, and the price is NaN rather than 0. */
  lemma CommaFirstIsNaN()
    ensures PerNightPrice("Price, \U{20B9}2,511") == NaN
    ensures TotalPrice("Price, \U{20B9}2,511") == NaN
  {
    var s := "Price, \U{20B9}2,511";
    assert s[..5] == "Price" && s[5..6] == "," && s[6..] == " \U{20B9}2,511";
    assert s == s[..5] + s[5..6] + s[6..];
    PriceMatchInContext(s[..5], s[5..6], s[6..]);
  }

  // ---------------------------------------------------------------------------
  // Fallbacks for missing fields
  // ---------------------------------------------------------------------------

  /** `v || fallback` on an optional string. */
  function OrElse(v: Option<string>, fallback: string): (r: string)
    requires fallback != ""
    ensures r != ""
    ensures Truthy(v) ==> r == v.value
    ensures !Truthy(v) ==> r == fallback
  {
    if Truthy(v) then v.value else fallback
  }

  const UrlPrefix: string := "/listing/"

  /** The card's link: `/listing/${data.id || '1'}`. */
  function ListingUrl(id: Option<string>): (url: string)
    ensures |url| > |UrlPrefix| && url[..|UrlPrefix|] == UrlPrefix
  {
    UrlPrefix + OrElse(id, "1")
  }

  /** The `id` route parameter the detail page reads back from a `/listing/...` path. */
  function RouteId(url: string): (id: Option<string>)
    ensures id.Some? <==> |url| >= |UrlPrefix| && url[..|UrlPrefix|] == UrlPrefix
  {
    if |url| >= |UrlPrefix| && url[..|UrlPrefix|] == UrlPrefix then Some(url[|UrlPrefix|..]) else None
  }

  /** The detail page receives the card's id, or "1" when the listing has none. */
  lemma ListingUrlRoundTrip(id: Option<string>)
    ensures Truthy(id) ==> RouteId(ListingUrl(id)) == Some(id.value)
    ensures !Truthy(id) ==> RouteId(ListingUrl(id)) == Some("1")
  {
    var url := ListingUrl(id);
    assert url[|UrlPrefix|..] == OrElse(id, "1");
  }

  /** The date range shown on the card, defaulting to 20 Dec - 25 Dec. */
  function StayDates(checkIn: Option<string>, checkOut: Option<string>): (r: (string, string))
    ensures r.0 == (if Truthy(checkIn) then checkIn.value else "20 Dec")
    ensures r.1 == (if Truthy(checkOut) then checkOut.value else "25 Dec")
  {
    (OrElse(checkIn, "20 Dec"), OrElse(checkOut, "25 Dec"))
  }

  // ---------------------------------------------------------------------------
  // Click state
  // ---------------------------------------------------------------------------

  /** Dots are drawn only for a listing with more than one image. */
  predicate ShowsDots(imageCount: nat) {
    imageCount > 1
  }

  class Card {
    /** `data.images.length` (0 when the listing has no image list). */
    const imageCount: nat
    var isFavorite: bool
    var currentImageIndex: nat

    /** The selected image is one of the listing's images, or the initial 0. */
    ghost predicate Valid()
      reads this
    {
      currentImageIndex == 0 || currentImageIndex < imageCount
    }

    constructor (imageCount: nat)
      ensures Valid()
      ensures this.imageCount == imageCount
      ensures !isFavorite && currentImageIndex == 0
    {
      this.imageCount := imageCount;
      isFavorite := false;
      currentImageIndex := 0;
    }

    /** A click on the heart flips the favourite flag and nothing else. */
    method ToggleFavorite()
      requires Valid()
      modifies this
      ensures Valid()
      ensures isFavorite == !old(isFavorite)
      ensures currentImageIndex == old(currentImageIndex)
    {
      isFavorite := !isFavorite;
    }

    /** A click on dot `k` selects image `k`; the dots exist only when there are several images. */
    method SelectImage(k: nat)
      requires Valid()
      requires ShowsDots(imageCount) && k < imageCount
      modifies this
      ensures Valid()
      ensures currentImageIndex == k
      ensures isFavorite == old(isFavorite)
    {
      currentImageIndex := k;
    }

    /** Dot `j` is drawn wide exactly when it is the selected image. */
    predicate DotIsActive(j: nat)
      reads this
    {
      j == currentImageIndex
    }
  }

  /** With the dots drawn, the selected image's dot exists and is the only wide one. */
  lemma ExactlyOneActiveImageDot(c: Card)
    requires c.Valid() && ShowsDots(c.imageCount)
    ensures c.currentImageIndex < c.imageCount && c.DotIsActive(c.currentImageIndex)
    ensures forall j :: 0 <= j < c.imageCount && c.DotIsActive(j) ==> j == c.currentImageIndex
  {
  }
}
