/** Calendar dates as the order form picks them, and the "yyyy-MM-dd" text
    that date-fns `format` produces for the backend. */
module Calendar {
  import opened JsText

  /** A day with no time part; `month` counts from 1. */
  datatype Date = Date(year: nat, month: nat, day: nat)

  predicate IsValidDate(d: Date) {
    1 <= d.month <= 12 && 1 <= d.day <= 31
  }

  function Pow10(k: nat): (p: nat)
    ensures p >= 1
  {
    if k == 0 then 1 else 10 * Pow10(k - 1)
  }

  function Zeros(k: nat): (z: string)
    ensures |z| == k && AllDigits(z, false)
  {
    if k == 0 then [] else Zeros(k - 1) + ['0']
  }

  /** The decimal digits of `n`, left-padded with zeros to `width`. */
  function PadDigits(n: nat, width: nat): (r: string)
    ensures AllDigits(r, false) && |r| >= width
  {
    var t := NatToText(n);
    if |t| >= width then t else Zeros(width - |t|) + t
  }

  /** `format(date, "yyyy-MM-dd")`: at least ten characters, each a digit or
      a dash, with a dash right after the (at least four) year digits. */
  function FormatYmd(d: Date): (r: string)
    ensures |r| >= 10
    ensures forall i :: 0 <= i < |r| ==> IsDecimalDigit(r[i]) || r[i] == '-'
    ensures var y := |PadDigits(d.year, 4)|; |r| > y && r[y] == '-' && AllDigits(r[..y], false)
  {
    PadDigits(d.year, 4) + "-" + PadDigits(d.month, 2) + "-" + PadDigits(d.day, 2)
  }

  lemma {:induction false} NatToTextLength(n: nat, k: nat)
    requires 1 <= k && n < Pow10(k)
    ensures |NatToText(n)| <= k
  {
    if n >= 10 {
      assert k >= 2;
      NatToTextLength(n / 10, k - 1);
    }
  }

  lemma {:induction false} ZerosValue(k: nat)
    ensures RunValue(Zeros(k), false) == 0
  {
    if k > 0 {
      ZerosValue(k - 1);
      assert Zeros(k)[..k - 1] == Zeros(k - 1);
    }
  }

  lemma {:induction false} LeadingZerosValue(k: nat, t: string)
    requires AllDigits(t, false)
    ensures AllDigits(Zeros(k) + t, false)
    ensures RunValue(Zeros(k) + t, false) == RunValue(t, false)
  {
    var u := Zeros(k) + t;
    if t == [] {
      assert u == Zeros(k);
      ZerosValue(k);
    } else {
      LeadingZerosValue(k, t[..|t| - 1]);
      assert u[..|u| - 1] == Zeros(k) + t[..|t| - 1];
    }
  }

  /** Padding keeps the value and reaches exactly `width` digits for a number
      that fits. */
  lemma PadDigitsValue(n: nat, width: nat)
    requires 1 <= width && n < Pow10(width)
    ensures |PadDigits(n, width)| == width
    ensures RunValue(PadDigits(n, width), false) == n
  {
    NatToTextLength(n, width);
    NatToTextValue(n);
    var t := NatToText(n);
    if |t| < width {
      LeadingZerosValue(width - |t|, t);
    }
  }

  /** For years below 10000 the text is ten characters, dashes at 4 and 7,
      and its three digit groups read back as year, month and day. */
  lemma FormatYmdShape(d: Date)
    requires IsValidDate(d) && d.year < 10000
    ensures var r := FormatYmd(d);
      && |r| == 10 && r[4] == '-' && r[7] == '-'
      && AllDigits(r[..4], false) && AllDigits(r[5..7], false) && AllDigits(r[8..], false)
      && RunValue(r[..4], false) == d.year
      && RunValue(r[5..7], false) == d.month
      && RunValue(r[8..], false) == d.day
  {
    assert Pow10(2) == 100 && Pow10(4) == 10000;
    PadDigitsValue(d.year, 4);
    PadDigitsValue(d.month, 2);
    PadDigitsValue(d.day, 2);
    var y, m, dd := PadDigits(d.year, 4), PadDigits(d.month, 2), PadDigits(d.day, 2);
    var r := FormatYmd(d);
    assert r == y + "-" + m + "-" + dd;
    assert r[..4] == y && r[5..7] == m && r[8..] == dd;
  }
}
