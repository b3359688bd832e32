/** `get_fdc_id`: the FDC id of a Tandoor food, taken from its FoodData Central URL
    when that URL matches `food-details/(\d+)/nutrients`, else from its `fdc_id` field.
    The regular expression is replaced by a hand-written matcher over ASCII digits. */
module FdcId {
  import opened Wrappers
  import opened TandoorModels

  const DetailsMarker := "food-details/"
  const NutrientsMarker := "/nutrients"

  predicate IsDigit(c: char) {
    '0' <= c <= '9'
  }

  predicate AllDigits(s: string) {
    forall i :: 0 <= i < |s| ==> IsDigit(s[i])
  }

  /** `w` occurs in `s` starting at position `i`. */
  predicate HasAt(s: string, i: nat, w: string) {
    i + |w| <= |s| && s[i..i + |w|] == w
  }

  /** Length of the longest run of digits in `s` starting at `i`. */
  function DigitRunLength(s: string, i: nat): (n: nat)
    requires i <= |s|
    ensures i + n <= |s|
    ensures forall k :: i <= k < i + n ==> IsDigit(s[k])
    ensures i + n == |s| || !IsDigit(s[i + n])
    decreases |s| - i
  {
    if i < |s| && IsDigit(s[i]) then 1 + DigitRunLength(s, i + 1) else 0
  }

  /** The pattern matches starting at `i`: the marker, a maximal digit run, then `/nutrients`. */
  predicate MatchesAt(s: string, i: nat) {
    && HasAt(s, i, DetailsMarker)
    && var start := i + |DetailsMarker|;
       var n := DigitRunLength(s, start);
       n > 0 && HasAt(s, start + n, NutrientsMarker)
  }

  /** What the regular expression means at `i`: the marker, SOME non-empty run of digits, then `/nutrients`. */
  ghost predicate PatternAt(s: string, i: nat, k: nat) {
    && HasAt(s, i, DetailsMarker)
    && 1 <= k
    && i + |DetailsMarker| + k <= |s|
    && AllDigits(s[i + |DetailsMarker|..i + |DetailsMarker| + k])
    && HasAt(s, i + |DetailsMarker| + k, NutrientsMarker)
  }

  /** Taking the maximal digit run loses no match: the digit run the regex can use is unique and maximal. */
  lemma MatchesAtIsPattern(s: string, i: nat, k: nat)
    requires HasAt(s, i, DetailsMarker)
    ensures PatternAt(s, i, k) <==> MatchesAt(s, i) && k == DigitRunLength(s, i + |DetailsMarker|)
  {
    var start := i + |DetailsMarker|;
    var n := DigitRunLength(s, start);
    if PatternAt(s, i, k) {
      assert s[start + k] == '/' by {
        assert s[start + k..start + k + |NutrientsMarker|] == NutrientsMarker;
      }
      var run := s[start..start + k];
      forall p | start <= p < start + k
        ensures IsDigit(s[p])
      {
        assert run[p - start] == s[p];
      }
    }
    if MatchesAt(s, i) && k == n {
      var run := s[start..start + k];
      forall j | 0 <= j < k
        ensures IsDigit(run[j])
      {
        assert run[j] == s[j + start];
      }
    }
  }

  /** The leftmost position at or after `from` where the pattern matches. */
  function FirstMatch(s: string, from: nat): (r: Option<nat>)
    requires from <= |s|
    ensures r.Some? ==> from <= r.value <= |s| && MatchesAt(s, r.value)
    ensures r.Some? ==> forall j :: from <= j < r.value ==> !MatchesAt(s, j)
    ensures r.None? ==> forall j :: from <= j ==> !MatchesAt(s, j)
    decreases |s| - from
  {
    if MatchesAt(s, from) then Some(from)
    else if from == |s| then None
    else FirstMatch(s, from + 1)
  }

  /** The first capture group of a match at `i`. */
  function CapturedDigits(s: string, i: nat): (ds: string)
    requires MatchesAt(s, i)
    ensures |ds| > 0 && AllDigits(ds)
  {
    var start := i + |DetailsMarker|;
    s[start..start + DigitRunLength(s, start)]
  }

  function DigitValue(c: char): nat
    requires IsDigit(c)
  {
    (c as int) - ('0' as int)
  }

  function DigitChar(d: nat): (c: char)
    requires d < 10
    ensures IsDigit(c) && DigitValue(c) == d
  {
    ('0' as int + d) as char
  }

  function Pow10(k: nat): (p: nat)
    ensures p >= 1
  {
    if k == 0 then 1 else 10 * Pow10(k - 1)
  }

  /** Decimal value of a digit string (`str::parse`, without the `i32` range limit): a string of
      k digits denotes a number below 10^k, and its last digit is the units digit. */
  function ParseDecimal(ds: string): (n: nat)
    requires AllDigits(ds)
    ensures n < Pow10(|ds|)
    ensures |ds| > 0 ==> n % 10 == DigitValue(ds[|ds| - 1])
  {
    if |ds| == 0 then 0 else 10 * ParseDecimal(ds[..|ds| - 1]) + DigitValue(ds[|ds| - 1])
  }

  /** Decimal digits of `n`, without leading zeros. */
  function ShowDecimal(n: nat): (ds: string)
    ensures |ds| > 0 && AllDigits(ds)
  {
    if n < 10 then [DigitChar(n)] else ShowDecimal(n / 10) + [DigitChar(n % 10)]
  }

  /** Parsing the digits of a number gives the number back. */
  lemma {:induction false} ParseShowRoundTrip(n: nat)
    ensures ParseDecimal(ShowDecimal(n)) == n
  {
    if n >= 10 {
      var ds := ShowDecimal(n);
      assert ds[..|ds| - 1] == ShowDecimal(n / 10);
      ParseShowRoundTrip(n / 10);
    }
  }

  /** Leading zeros do not change the parsed value. */
  lemma {:induction false} LeadingZeroIgnored(ds: string)
    requires AllDigits(ds)
    ensures ParseDecimal("0" + ds) == ParseDecimal(ds)
  {
    if |ds| > 0 {
      var zs := "0" + ds;
      assert zs[..|zs| - 1] == "0" + ds[..|ds| - 1];
      LeadingZeroIgnored(ds[..|ds| - 1]);
    }
  }

  /** The id the URL carries, if the pattern matches anywhere in it. */
  function UrlFdcId(url: string): (r: Option<int>)
    ensures r.Some? <==> exists i :: MatchesAt(url, i)
    ensures r.Some? ==> r.value >= 0
  {
    match FirstMatch(url, 0)
    case None => None
    case Some(i) => Some(ParseDecimal(CapturedDigits(url, i)))
  }

  /** `get_fdc_id`: the URL wins, the `fdc_id` field is the fallback. */
  function GetFdcId(food: InternalFood): (r: Option<int>)
    ensures food.url.Some? && UrlFdcId(food.url.value).Some? ==> r == UrlFdcId(food.url.value)
    ensures food.url.None? || UrlFdcId(food.url.value).None? ==> r == food.fdcId
    ensures r.None? <==> (food.url.None? || UrlFdcId(food.url.value).None?) && food.fdcId.None?
  {
    match food.url
    case Some(url) => (if UrlFdcId(url).Some? then UrlFdcId(url) else food.fdcId)
    case None => food.fdcId
  }

  /** A maximal run of digits followed by a non-digit is exactly that run. */
  lemma {:induction false} DigitRunOf(s: string, i: nat, ds: string)
    requires i + |ds| <= |s| && s[i..i + |ds|] == ds && AllDigits(ds)
    requires i + |ds| == |s| || !IsDigit(s[i + |ds|])
    ensures DigitRunLength(s, i) == |ds|
    decreases |ds|
  {
    if |ds| > 0 {
      assert s[i] == ds[0];
      assert s[i + 1..i + 1 + |ds[1..]|] == ds[1..];
      DigitRunOf(s, i + 1, ds[1..]);
    }
  }

  /** `b` sits at position `|a|` of `a + b + c`. */
  lemma InfixAt(a: string, b: string, c: string)
    ensures HasAt(a + b + c, |a|, b)
  {
    assert (a + b + c)[|a|..|a| + |b|] == b;
  }

  /** The marker, a non-empty run of digits and `/nutrients`, laid out from `i`, match there and capture the digits. */
  lemma MatchOfLayout(s: string, i: nat, ds: string)
    requires |ds| > 0 && AllDigits(ds)
    requires HasAt(s, i, DetailsMarker)
    requires HasAt(s, i + |DetailsMarker|, ds)
    requires HasAt(s, i + |DetailsMarker| + |ds|, NutrientsMarker)
    ensures MatchesAt(s, i) && CapturedDigits(s, i) == ds
  {
    var start := i + |DetailsMarker|;
    assert s[start + |ds|] == s[start + |ds|..start + |ds| + |NutrientsMarker|][0];
    DigitRunOf(s, start, ds);
  }

  /** A match with no match before it is the one `FirstMatch` finds. */
  lemma FirstMatchIsLeftmost(s: string, i: nat)
    requires i <= |s| && MatchesAt(s, i)
    requires forall j :: 0 <= j < i ==> !MatchesAt(s, j)
    ensures FirstMatch(s, 0) == Some(i)
  {
  }

  /** Where the three parts of `pre + "food-details/" + ds + "/nutrients" + post` sit. */
  lemma LayoutOf(pre: string, ds: string, post: string)
    ensures var url := pre + DetailsMarker + ds + NutrientsMarker + post;
      && HasAt(url, |pre|, DetailsMarker)
      && HasAt(url, |pre| + |DetailsMarker|, ds)
      && HasAt(url, |pre| + |DetailsMarker| + |ds|, NutrientsMarker)
  {
    var url := pre + DetailsMarker + ds + NutrientsMarker + post;
    assert url == pre + DetailsMarker + (ds + NutrientsMarker + post);
    InfixAt(pre, DetailsMarker, ds + NutrientsMarker + post);
    assert url == (pre + DetailsMarker) + ds + (NutrientsMarker + post);
    InfixAt(pre + DetailsMarker, ds, NutrientsMarker + post);
    assert url == (pre + DetailsMarker + ds) + NutrientsMarker + post;
    InfixAt(pre + DetailsMarker + ds, NutrientsMarker, post);
  }

  /** A URL `pre + "food-details/" + ds + "/nutrients" + post` with no earlier match
      yields the id `ds`, whatever the `fdc_id` field says. */
  lemma UrlIdWinsOverField(food: InternalFood, pre: string, ds: string, post: string)
    requires |ds| > 0 && AllDigits(ds)
    requires food.url == Some(pre + DetailsMarker + ds + NutrientsMarker + post)
    requires forall j :: 0 <= j < |pre| ==> !MatchesAt(food.url.value, j)
    ensures GetFdcId(food) == Some(ParseDecimal(ds))
  {
    var url := food.url.value;
    LayoutOf(pre, ds, post);
    MatchOfLayout(url, |pre|, ds);
    FirstMatchIsLeftmost(url, |pre|);
  }

  /** In particular a URL holding the digits of `n` yields `n`, even against a different `fdc_id` field. */
  lemma UrlOfIdYieldsId(food: InternalFood, n: nat, post: string)
    requires food.url == Some(DetailsMarker + ShowDecimal(n) + NutrientsMarker + post)
    ensures GetFdcId(food) == Some(n)
  {
    assert "" + DetailsMarker + ShowDecimal(n) + NutrientsMarker + post == food.url.value;
    UrlIdWinsOverField(food, "", ShowDecimal(n), post);
    ParseShowRoundTrip(n);
  }
}
