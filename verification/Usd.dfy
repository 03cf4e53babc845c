/** The currency printer, and a reader that inverts it. */
module Usd {
  import opened Common
  import opened Money

  const TWO_TO_63: int := 0x8000_0000_0000_0000

  function Digit(d: nat): char
    requires d < 10
  {
    "0123456789"[d]
  }

  /** strconv.FormatInt in base ten, for the non-negative whole part. */
  function Digits(n: nat): (s: string)
    ensures |s| >= 1 && AllDigits(s)
  {
    if n < 10 then [Digit(n)] else Digits(n / 10) + [Digit(n % 10)]
  }

  predicate AllDigits(s: string) {
    forall i :: 0 <= i < |s| ==> '0' <= s[i] <= '9'
  }

  /** Thousands groups, taken from the right. */
  function Grouped(digits: string): string
    decreases |digits|
  {
    if |digits| <= 3 then digits
    else Joined(Grouped(digits[..|digits| - 3]), digits[|digits| - 3..])
  }

  function Joined(groups: string, group: string): string { groups + "," + group }

  /** The loop writes a separator before the digit at `i`. */
  predicate CommaAt(length: nat, i: nat) { i > 0 && (length - i) % 3 == 0 }

  function Written(before: string, comma: bool, digit: char): string {
    if comma then before + "," + [digit] else before + [digit]
  }

  /** What the printing loop has written after `i` digits. */
  function GroupedSoFar(digits: string, i: nat): string
    requires i <= |digits|
  {
    if i == 0 then "" else Written(GroupedSoFar(digits, i - 1), CommaAt(|digits|, i - 1), digits[i - 1])
  }

  lemma CommaDropsGroup(length: nat, i: nat)
    requires i + 3 <= length
    ensures CommaAt(length, i) == CommaAt(length - 3, i)
  {
    assert length - i == (length - 3 - i) + 3;
  }

  lemma {:induction false} SoFarDropsGroup(digits: string, i: nat)
    requires i + 3 <= |digits|
    ensures GroupedSoFar(digits, i) == GroupedSoFar(digits[..|digits| - 3], i)
  {
    if i > 0 {
      SoFarDropsGroup(digits, i - 1);
      CommaDropsGroup(|digits|, i - 1);
    }
  }

  lemma {:induction false} SoFarShort(digits: string, i: nat)
    requires i <= |digits| <= 3
    ensures GroupedSoFar(digits, i) == digits[..i]
  {
    if i > 0 {
      SoFarShort(digits, i - 1);
    }
  }

  /** Writing a comma before every digit a multiple of three from the end groups from the right. */
  lemma {:induction false} LoopGroups(digits: string)
    ensures GroupedSoFar(digits, |digits|) == Grouped(digits)
    decreases |digits|
  {
    if |digits| <= 3 {
      SoFarShort(digits, |digits|);
      assert digits[..|digits|] == digits;
    } else {
      var front := digits[..|digits| - 3];
      LoopGroups(front);
      LastGroup(digits, front, Grouped(front));
    }
  }

  lemma LastGroup(digits: string, front: string, head: string)
    requires |digits| > 3 && front == digits[..|digits| - 3] && GroupedSoFar(front, |front|) == head
    ensures GroupedSoFar(digits, |digits|) == Joined(head, digits[|digits| - 3..])
  {
    var n := |digits|;
    SoFarDropsGroup(digits, n - 3);
    LastThree(digits);
    ThreeTurns(digits);
    Regroup(head, [digits[n - 3]], [digits[n - 2]], [digits[n - 1]]);
  }

  lemma ThreeTurns(digits: string)
    requires |digits| > 3
    ensures GroupedSoFar(digits, |digits|)
         == GroupedSoFar(digits, |digits| - 3) + ","
            + [digits[|digits| - 3]] + [digits[|digits| - 2]] + [digits[|digits| - 1]]
  {
    var n := |digits|;
    assert CommaAt(n, n - 3) && !CommaAt(n, n - 2) && !CommaAt(n, n - 1);
    var s2 := GroupedSoFar(digits, n - 2);
    assert s2 == Written(GroupedSoFar(digits, n - 3), true, digits[n - 3]);
    var s1 := GroupedSoFar(digits, n - 1);
    assert s1 == Written(s2, false, digits[n - 2]);
    assert GroupedSoFar(digits, n) == Written(s1, false, digits[n - 1]);
  }

  lemma Regroup(head: string, a: string, b: string, c: string)
    ensures head + "," + a + b + c == Joined(head, a + (b + c))
  {
    Associative(head + "," + a, b, c);
    Associative(head + ",", a, b + c);
  }

  lemma LastThree(s: string)
    requires |s| >= 3
    ensures s[|s| - 3..] == [s[|s| - 3]] + ([s[|s| - 2]] + [s[|s| - 1]])
  {
  }

  function TwoDigits(n: nat): string
    requires n < 100
  {
    [Digit(n / 10), Digit(n % 10)]
  }

  /** The printed form of a number of cents. */
  function Printed(negative: bool, cents: nat): string {
    Layout(if negative then "-" else "", Grouped(Digits(cents / 100)), TwoDigits(cents % 100))
  }

  function Layout(sign: string, whole: string, cents: string): string {
    sign + Body(whole, cents)
  }

  function Body(whole: string, cents: string): string { "$" + whole + "." + cents }

  /** The loop that writes the whole part with its separators. */
  method Group(digits: string) returns (grouped: string)
    ensures grouped == Grouped(digits)
  {
    grouped := "";
    for i := 0 to |digits|
      invariant grouped == GroupedSoFar(digits, i)
    {
      if i > 0 && (|digits| - i) % 3 == 0 {
        grouped := grouped + ",";
      }
      grouped := grouped + [digits[i]];
    }
    LoopGroups(digits);
  }

  /** Formats an amount with a sign, thousands separators and two decimals. The whole part
      must fit the 64-bit integer it is converted to, carry included; no 64-bit float lies
      between that bound and 2^63. */
  method Format(v: real) returns (s: string)
    requires Abs(v) < TWO_TO_63 as real - 0.005
    ensures s == Printed(v < 0.0, Round(Abs(v) * 100.0))
    ensures IsText(s, v < 0.0, Round(Abs(v) * 100.0))
  {
    TextOfPrinted(v < 0.0, Round(Abs(v) * 100.0));
    var whole := Abs(v).Floor;
    var frac := Round((Abs(v) - whole as real) * 100.0);
    SplitCents(Abs(v));
    if frac == 100 {
      whole := whole + 1;
      frac := 0;
    }
    assert whole < TWO_TO_63;
    CentsParts(whole, frac, Round(Abs(v) * 100.0));
    var grouped := Group(Digits(whole));
    var sign := if v < 0.0 then "-" else "";
    s := Layout(sign, grouped, TwoDigits(frac));
  }

  lemma CentsParts(whole: nat, frac: nat, cents: int)
    requires frac < 100 && cents == whole * 100 + frac
    ensures cents / 100 == whole && cents % 100 == frac
  {
  }

  /** Rounding the fraction separately, with its carry, rounds the whole amount to the cent. */
  lemma SplitCents(a: real)
    requires 0.0 <= a
    ensures a.Floor >= 0 && 0 <= Round((a - a.Floor as real) * 100.0) <= 100
    ensures Round(a * 100.0) == a.Floor * 100 + Round((a - a.Floor as real) * 100.0)
    ensures Round((a - a.Floor as real) * 100.0) == 100 ==> a >= a.Floor as real + 0.995
  {
    var f := (a - a.Floor as real) * 100.0;
    assert 0.0 <= f < 100.0;
    RoundShift(f, a.Floor * 100);
    assert a * 100.0 == f + (a.Floor * 100) as real;
  }

  // ----- Reading it back -----

  function Strip(s: string): string {
    if s == "" then "" else if s[0] == ',' then Strip(s[1..]) else [s[0]] + Strip(s[1..])
  }

  function NumberOf(digits: string): nat
    requires AllDigits(digits)
  {
    if digits == "" then 0
    else NumberOf(digits[..|digits| - 1]) * 10 + (digits[|digits| - 1] as int - '0' as int)
  }

  function Signed(negative: bool, n: nat): int {
    if negative then 0 - n else n
  }

  /** Reads a dollar sign, digits and commas, a point and two digits, as a number of cents. */
  function ReadBody(t: string, negative: bool): Option<int> {
    if |t| < 4 || t[0] != '$' || t[|t| - 3] != '.' then None
    else
      Value(Strip(t[1..|t| - 3]), t[|t| - 2..], negative)
  }

  function Value(whole: string, cents: string, negative: bool): Option<int> {
    if AllDigits(whole) && AllDigits(cents)
    then Some(Signed(negative, NumberOf(whole) * 100 + NumberOf(cents)))
    else None
  }

  /** Reads a printed amount with its optional sign. */
  function Read(s: string): Option<int> {
    if s != "" && s[0] == '-' then ReadBody(s[1..], true) else ReadBody(s, false)
  }

  lemma {:induction false} StripAppend(a: string, b: string)
    ensures Strip(a + b) == Strip(a) + Strip(b)
  {
    if a == "" {
      assert a + b == b;
    } else {
      assert (a + b)[0] == a[0] && (a + b)[1..] == a[1..] + b;
      StripAppend(a[1..], b);
    }
  }

  lemma {:induction false} StripDigits(s: string)
    requires AllDigits(s)
    ensures Strip(s) == s
  {
    if s != "" {
      StripDigits(s[1..]);
    }
  }

  lemma StripJoined(groups: string, group: string)
    requires AllDigits(group)
    ensures Strip(Joined(groups, group)) == Strip(groups) + group
  {
    StripAppend(groups + ",", group);
    StripAppend(groups, ",");
    StripDigits(group);
    assert Strip(",") == "" by { assert ","[1..] == ""; }
    assert Strip(groups) + "" == Strip(groups);
  }

  lemma FrontAndLast(digits: string)
    requires |digits| > 3 && AllDigits(digits)
    ensures AllDigits(digits[..|digits| - 3]) && AllDigits(digits[|digits| - 3..])
    ensures digits[..|digits| - 3] + digits[|digits| - 3..] == digits
  {
  }

  lemma {:induction false} StripGrouped(digits: string)
    requires AllDigits(digits)
    ensures Strip(Grouped(digits)) == digits
    decreases |digits|
  {
    if |digits| <= 3 {
      StripDigits(digits);
    } else {
      FrontAndLast(digits);
      StripGrouped(digits[..|digits| - 3]);
      StripJoined(Grouped(digits[..|digits| - 3]), digits[|digits| - 3..]);
    }
  }

  lemma {:induction false} NumberOfDigits(n: nat)
    ensures NumberOf(Digits(n)) == n
  {
    if n >= 10 {
      NumberOfDigits(n / 10);
      assert Digits(n)[..|Digits(n)| - 1] == Digits(n / 10);
    } else {
      assert Digits(n)[..0] == "";
    }
  }

  lemma DigitValue(d: nat)
    requires d < 10
    ensures '0' <= Digit(d) <= '9' && Digit(d) as int - '0' as int == d
  {
  }

  lemma NumberOfTwoDigits(n: nat)
    requires n < 100
    ensures AllDigits(TwoDigits(n)) && NumberOf(TwoDigits(n)) == n
  {
    DigitValue(n / 10);
    DigitValue(n % 10);
    var s := TwoDigits(n);
    assert s[..1] == [s[0]] && [s[0]][..0] == "";
    assert NumberOf([s[0]]) == n / 10;
  }

  lemma BodyParts(whole: string, cents: string)
    requires |cents| == 2
    ensures var t := Body(whole, cents);
            && |t| == |whole| + 4 && t[0] == '$' && t[|t| - 3] == '.'
            && t[1..|t| - 3] == whole && t[|t| - 2..] == cents
  {
  }

  lemma ReadSigned(t: string, negative: bool)
    requires t != "" && t[0] == '$'
    ensures Read((if negative then "-" else "") + t) == ReadBody(t, negative)
  {
    assert ("-" + t)[0] == '-' && ("-" + t)[1..] == t;
    assert "" + t == t;
  }

  /** The reader finds the parts a layout was made of. */
  lemma ReadLayout(negative: bool, whole: string, cents: string)
    requires |cents| == 2
    ensures Read(Layout(if negative then "-" else "", whole, cents)) == Value(Strip(whole), cents, negative)
  {
    BodyParts(whole, cents);
    ReadSigned(Body(whole, cents), negative);
  }

  lemma ValuePrinted(cents: nat, negative: bool)
    ensures Value(Strip(Grouped(Digits(cents / 100))), TwoDigits(cents % 100), negative)
         == Some(Signed(negative, cents))
  {
    var whole, rest := cents / 100, cents % 100;
    StripGrouped(Digits(whole));
    NumberOfDigits(whole);
    NumberOfTwoDigits(rest);
  }

  /** Reading a printed amount back gives it rounded half away from zero to the cent. */
  lemma ReadInvertsFormat(v: real)
    ensures Read(Printed(v < 0.0, Round(Abs(v) * 100.0))) == Some(Round(v * 100.0))
  {
    RoundOdd(v);
    var cents := Round(Abs(v) * 100.0);
    ValuePrinted(cents, v < 0.0);
    ReadLayout(v < 0.0, Grouped(Digits(cents / 100)), TwoDigits(cents % 100));
  }

  lemma RoundOdd(v: real)
    ensures Round(Abs(v) * 100.0) >= 0
    ensures Round(v * 100.0) == Signed(v < 0.0, Round(Abs(v) * 100.0))
  {
    assert v < 0.0 ==> -(v * 100.0) == (-v) * 100.0;
  }

  /** A comma stands exactly at every fourth place from the right. */
  lemma CommasEveryThreeDigits(digits: string, k: nat)
    requires AllDigits(digits) && k < |Grouped(digits)|
    ensures Grouped(digits)[|Grouped(digits)| - 1 - k] == ',' <==> k % 4 == 3
  {
    GroupedHasPlaces(digits, k);
  }

  // ----- The one text of an amount -----

  /** Digits with a comma at every fourth place from the right and at no other, beginning with
      a zero only when that is all there is. */
  predicate IsGroupedText(w: string) {
    && w != "" && w[0] != ',' && (w[0] == '0' ==> |w| == 1)
    && GroupedPlaces(w)
  }

  predicate GroupedPlaces(w: string) {
    forall k :: 0 <= k < |w| ==> PlaceOk(w, k)
  }

  /** The place `k` from the right. */
  predicate PlaceOk(w: string, k: nat)
    requires k < |w|
  {
    if k % 4 == 3 then w[|w| - 1 - k] == ',' else '0' <= w[|w| - 1 - k] <= '9'
  }

  /** A minus sign for a negative amount, a dollar sign, the grouped whole part, a point and
      two digits, which read as the number of cents. */
  predicate IsText(s: string, negative: bool, cents: nat) {
    && s != "" && (negative <==> s[0] == '-')
    && IsBodyText(if negative then s[1..] else s)
    && Read(s) == Some(Signed(negative, cents))
  }

  predicate IsBodyText(t: string) {
    && |t| >= 5 && t[0] == '$' && t[|t| - 3] == '.'
    && IsGroupedText(t[1..|t| - 3]) && AllDigits(t[|t| - 2..])
  }

  /** Zero is one digit, and no other number begins with a zero. */
  lemma {:induction false} LeadingZeroIff(n: nat)
    ensures Digits(n)[0] == '0' <==> n == 0
    ensures n < 10 ==> |Digits(n)| == 1
  {
    if n < 10 {
      DigitValue(n);
    } else {
      LeadingZeroIff(n / 10);
    }
  }

  /** Digits without a leading zero are the digits of the number they read as. */
  lemma {:induction false} DigitsOfNumber(d: string)
    requires AllDigits(d) && d != "" && (d[0] == '0' ==> |d| == 1)
    ensures Digits(NumberOf(d)) == d
    decreases |d|
  {
    var n := |d| - 1;
    var last := d[n] as int - '0' as int;
    DigitValue(last);
    if n == 0 {
      assert d[..0] == "";
      assert d == [Digit(last)];
    } else {
      DigitsOfNumber(d[..n]);
      LeadingZeroIff(NumberOf(d[..n]));
      assert NumberOf(d) == NumberOf(d[..n]) * 10 + last;
      assert NumberOf(d) / 10 == NumberOf(d[..n]) && NumberOf(d) % 10 == last;
      assert d == d[..n] + [Digit(last)];
    }
  }

  lemma {:induction false} GroupedStarts(digits: string)
    requires AllDigits(digits) && digits != ""
    ensures Grouped(digits) != "" && Grouped(digits)[0] == digits[0]
    ensures |digits| == 1 ==> Grouped(digits) == digits
    decreases |digits|
  {
    if |digits| > 3 {
      GroupedStarts(digits[..|digits| - 3]);
    }
  }

  lemma {:induction false} GroupedHasPlaces(digits: string, k: nat)
    requires AllDigits(digits) && k < |Grouped(digits)|
    ensures PlaceOk(Grouped(digits), k)
    decreases |digits|
  {
    var n := |digits|;
    if n > 3 {
      var head := Grouped(digits[..n - 3]);
      if k >= 4 {
        assert Grouped(digits)[|Grouped(digits)| - 1 - k] == head[|head| - 1 - (k - 4)];
        GroupedHasPlaces(digits[..n - 3], k - 4);
      }
    }
  }

  lemma GroupedIsGroupedText(n: nat)
    ensures IsGroupedText(Grouped(Digits(n)))
  {
    var digits := Digits(n);
    forall k | 0 <= k < |Grouped(digits)| ensures PlaceOk(Grouped(digits), k) {
      GroupedHasPlaces(digits, k);
    }
    LeadingZeroIff(n);
    GroupedStarts(digits);
  }

  lemma BodyIsBodyText(w: string, c: string)
    requires IsGroupedText(w) && AllDigits(c) && |c| == 2
    ensures IsBodyText(Body(w, c))
  {
    BodyParts(w, c);
  }

  lemma TextOfPrinted(negative: bool, cents: nat)
    ensures IsText(Printed(negative, cents), negative, cents)
  {
    var w, two := Grouped(Digits(cents / 100)), TwoDigits(cents % 100);
    GroupedIsGroupedText(cents / 100);
    NumberOfTwoDigits(cents % 100);
    BodyIsBodyText(w, two);
    SignedBody(negative, Body(w, two));
    ValuePrinted(cents, negative);
    ReadLayout(negative, w, two);
  }

  lemma SignedBody(negative: bool, t: string)
    requires t != "" && t[0] == '$'
    ensures var s := (if negative then "-" else "") + t;
            s != "" && (negative <==> s[0] == '-') && (if negative then s[1..] else s) == t
  {
  }

  lemma HeadPlaces(w: string)
    requires GroupedPlaces(w) && |w| > 3
    ensures GroupedPlaces(w[..|w| - 4])
  {
    var head := w[..|w| - 4];
    forall k | 0 <= k < |head| ensures PlaceOk(head, k) {
      assert PlaceOk(w, k + 4);
    }
  }

  lemma LastPlaces(w: string)
    requires GroupedPlaces(w) && |w| > 3
    ensures w[|w| - 4] == ',' && AllDigits(w[|w| - 3..])
  {
    assert PlaceOk(w, 3) && PlaceOk(w, 0) && PlaceOk(w, 1) && PlaceOk(w, 2);
  }

  lemma SplitPlaces(w: string)
    requires GroupedPlaces(w) && |w| > 3
    ensures w == Joined(w[..|w| - 4], w[|w| - 3..])
  {
    LastPlaces(w);
    assert w == w[..|w| - 4] + [w[|w| - 4]] + w[|w| - 3..];
  }

  lemma ShortPlaces(w: string)
    requires GroupedPlaces(w) && |w| <= 3
    ensures AllDigits(w)
  {
    forall i | 0 <= i < |w| ensures '0' <= w[i] <= '9' {
      assert PlaceOk(w, |w| - 1 - i);
    }
  }

  lemma GroupedJoined(digits: string, last: string)
    requires digits != "" && |last| == 3
    ensures Grouped(digits + last) == Joined(Grouped(digits), last)
  {
    var all := digits + last;
    assert all[..|all| - 3] == digits && all[|all| - 3..] == last;
  }

  /** Taking the commas out of a grouped text and grouping again gives it back. */
  lemma {:induction false} GroupedOfStripped(w: string)
    requires GroupedPlaces(w) && w != "" && w[0] != ','
    ensures AllDigits(Strip(w)) && Grouped(Strip(w)) == w
    ensures Strip(w) != "" && Strip(w)[0] == w[0] && (|w| == 1 ==> |Strip(w)| == 1)
    decreases |w|
  {
    if |w| <= 3 {
      ShortPlaces(w);
      StripDigits(w);
    } else {
      var head, last := w[..|w| - 4], w[|w| - 3..];
      HeadPlaces(w);
      LastPlaces(w);
      SplitPlaces(w);
      GroupedOfStripped(head);
      StripJoined(head, last);
      GroupedJoined(Strip(head), last);
    }
  }

  lemma DigitOfChar(c: char) returns (d: nat)
    requires '0' <= c <= '9'
    ensures d < 10 && Digit(d) == c
  {
    d := c as int - '0' as int;
    DigitValue(d);
  }

  lemma TwoDigitsAre(a: nat, b: nat)
    requires a < 10 && b < 10
    ensures a * 10 + b < 100 && TwoDigits(a * 10 + b) == [Digit(a), Digit(b)]
  {
    assert (a * 10 + b) / 10 == a && (a * 10 + b) % 10 == b;
  }

  lemma TwoDigitsOfNumber(c: string)
    requires AllDigits(c) && |c| == 2
    ensures NumberOf(c) < 100 && TwoDigits(NumberOf(c)) == c
  {
    var a := DigitOfChar(c[0]);
    var b := DigitOfChar(c[1]);
    TwoDigitsAre(a, b);
    NumberOfTwoDigits(a * 10 + b);
    assert c == [Digit(a), Digit(b)];
  }

  lemma BodyOfParts(t: string)
    requires IsBodyText(t)
    ensures t == Body(t[1..|t| - 3], t[|t| - 2..])
  {
    assert t == ((([t[0]] + t[1..|t| - 3]) + [t[|t| - 3]]) + t[|t| - 2..]);
  }

  lemma SignedParts(s: string, negative: bool)
    requires s != "" && (negative <==> s[0] == '-')
    ensures s == (if negative then "-" else "") + (if negative then s[1..] else s)
  {
  }

  /** The printed form is the only text there is: sign, dollar, grouped whole part without
      leading zeros, point, two digits, reading as the amount. */
  lemma PrintedIsTheText(s: string, negative: bool, cents: nat)
    ensures IsText(s, negative, cents) <==> s == Printed(negative, cents)
  {
    TextOfPrinted(negative, cents);
    if IsText(s, negative, cents) {
      TextIsPrinted(s, negative, cents);
    }
  }

  lemma WholeIsGrouped(w: string)
    requires IsGroupedText(w)
    ensures AllDigits(Strip(w)) && Grouped(Digits(NumberOf(Strip(w)))) == w
  {
    GroupedOfStripped(w);
    DigitsOfNumber(Strip(w));
  }

  lemma BodyIsPrinted(t: string, negative: bool, cents: nat)
    requires IsBodyText(t)
    requires Value(Strip(t[1..|t| - 3]), t[|t| - 2..], negative) == Some(Signed(negative, cents))
    ensures t == Body(Grouped(Digits(cents / 100)), TwoDigits(cents % 100))
  {
    var w, c := t[1..|t| - 3], t[|t| - 2..];
    BodyOfParts(t);
    WholeIsGrouped(w);
    TwoDigitsOfNumber(c);
    TextValue(Strip(w), c, negative, cents);
  }

  lemma TextIsPrinted(s: string, negative: bool, cents: nat)
    requires IsText(s, negative, cents)
    ensures s == Printed(negative, cents)
  {
    var t := if negative then s[1..] else s;
    SignedParts(s, negative);
    BodyOfParts(t);
    ReadLayout(negative, t[1..|t| - 3], t[|t| - 2..]);
    BodyIsPrinted(t, negative, cents);
  }

  lemma TextValue(whole: string, cents: string, negative: bool, n: nat)
    requires AllDigits(whole) && AllDigits(cents) && NumberOf(cents) < 100
    requires Value(whole, cents, negative) == Some(Signed(negative, n))
    ensures NumberOf(whole) == n / 100 && NumberOf(cents) == n % 100
  {
    CentsParts(NumberOf(whole), NumberOf(cents), n);
  }

  /** An amount below one unit, and no other, has a zero after the dollar sign, and then the
      point. */
  lemma ZeroUnitsIff(v: real)
    ensures var cents := Round(Abs(v) * 100.0);
            var s, d := Printed(v < 0.0, cents), if v < 0.0 then 2 else 1;
            && |s| > d + 1 && (s[d] == '0' <==> cents < 100) && (s[d] == '0' ==> s[d + 1] == '.')
  {
    RoundOdd(v);
    var cents := Round(Abs(v) * 100.0);
    var digits, two := Digits(cents / 100), TwoDigits(cents % 100);
    LeadingZeroIff(cents / 100);
    GroupedStarts(digits);
    BodyParts(Grouped(digits), two);
    SignedBody(v < 0.0, Body(Grouped(digits), two));
  }
}
