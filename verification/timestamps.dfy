/** Moments and the text the server sends for them: RFC 3339, section 5.6, in UTC, with nanoseconds whose trailing
    zeros are dropped. */
module Timestamps {
  import opened TextOrder

  datatype Moment = Moment(year: nat, month: nat, day: nat, hour: nat, minute: nat, second: nat, nanos: nat)

  ghost predicate Printable(m: Moment) {
    && m.year < 10_000 && m.month < 100 && m.day < 100 && m.hour < 100 && m.minute < 100 && m.second < 100
    && m.nanos < 1_000_000_000
  }

  // ------------------------------------------------------------------- time

  function Fields(m: Moment): seq<nat> { [m.year, m.month, m.day, m.hour, m.minute, m.second] }

  /** The sign of a comparison, field by field. */
  function CompareFields(a: seq<nat>, b: seq<nat>): int
    requires |a| == |b|
  {
    if a == [] then 0 else if a[0] != b[0] then a[0] - b[0] else CompareFields(a[1..], b[1..])
  }

  predicate SameSecond(a: Moment, b: Moment) { Fields(a) == Fields(b) }

  /** a is later than b. */
  predicate After(a: Moment, b: Moment) {
    if SameSecond(a, b) then a.nanos > b.nanos else CompareFields(Fields(a), Fields(b)) > 0
  }

  // ------------------------------------------------------------------- text

  function Digit(n: nat): (c: char)
    requires n < 10
    ensures '0' <= c <= '9' && c as int == 48 + n
  {
    (48 + n) as char
  }

  function Power(w: nat): (p: nat)
    ensures p >= 1
  {
    if w == 0 then 1 else 10 * Power(w - 1)
  }

  /** n as w decimal digits. */
  function Digits(n: nat, w: nat): (s: string)
    ensures |s| == w && forall i :: 0 <= i < w ==> '0' <= s[i] <= '9'
  {
    if w == 0 then "" else Digits(n / 10, w - 1) + [Digit(n % 10)]
  }

  function Print(fields: seq<nat>, widths: seq<nat>, marks: seq<string>): string
    requires |fields| == |widths| == |marks|
  {
    if fields == [] then "" else Digits(fields[0], widths[0]) + marks[0] + Print(fields[1..], widths[1..], marks[1..])
  }

  const WIDTHS: seq<nat> := [4, 2, 2, 2, 2, 2]
  const MARKS := ["-", "-", "T", ":", ":", ""]

  function DropZeros(s: string): (r: string)
    ensures r <= s && (r != "" ==> r[|r| - 1] != '0') && forall i :: |r| <= i < |s| ==> s[i] == '0'
  {
    if s != "" && s[|s| - 1] == '0' then DropZeros(s[..|s| - 1]) else s
  }

  /** The digits after the second, without trailing zeros. */
  function Fraction(m: Moment): string { DropZeros(Digits(m.nanos, 9)) }

  function Tail(fraction: string): string { (if fraction == "" then "" else "." + fraction) + "Z" }

  function Text(m: Moment): string { Print(Fields(m), WIDTHS, MARKS) + Tail(Fraction(m)) }

  // ------------------------------------------------------- digits are in order

  lemma {:induction false} DigitsInOrder(a: nat, b: nat, w: nat)
    requires a < Power(w) && b < Power(w)
    ensures CompareText(Digits(a, w), Digits(b, w)) < 0 <==> a < b
    ensures CompareText(Digits(a, w), Digits(b, w)) == 0 <==> a == b
  {
    if w > 0 {
      DigitsInOrder(a / 10, b / 10, w - 1);
      FrontDecides(Digits(a / 10, w - 1), Digits(b / 10, w - 1), [Digit(a % 10)], [Digit(b % 10)]);
      TextFlips(Digits(a / 10, w - 1), Digits(b / 10, w - 1));
    } else {
      assert Power(0) == 1;
    }
  }

  /** The width of each field fits its value. */
  ghost predicate Fit(fields: seq<nat>, widths: seq<nat>) {
    |fields| == |widths| && forall i :: 0 <= i < |fields| ==> fields[i] < Power(widths[i])
  }

  lemma {:induction false} PrintLength(a: seq<nat>, b: seq<nat>, widths: seq<nat>, marks: seq<string>)
    requires |a| == |b| == |widths| == |marks|
    ensures |Print(a, widths, marks)| == |Print(b, widths, marks)|
  {
    if a != [] { PrintLength(a[1..], b[1..], widths[1..], marks[1..]); }
  }

  /** Up to the second, text order is time order. */
  lemma {:induction false} PrintInOrder(a: seq<nat>, b: seq<nat>, widths: seq<nat>, marks: seq<string>)
    requires |widths| == |marks| && Fit(a, widths) && Fit(b, widths)
    ensures CompareText(Print(a, widths, marks), Print(b, widths, marks)) < 0 <==> CompareFields(a, b) < 0
    ensures CompareText(Print(a, widths, marks), Print(b, widths, marks)) == 0 <==> a == b
    ensures CompareFields(a, b) == 0 <==> a == b
  {
    if a != [] {
      var (da, db) := (Digits(a[0], widths[0]), Digits(b[0], widths[0]));
      var (ra, rb) := (Print(a[1..], widths[1..], marks[1..]), Print(b[1..], widths[1..], marks[1..]));
      PrintInOrder(a[1..], b[1..], widths[1..], marks[1..]);
      DigitsInOrder(a[0], b[0], widths[0]);
      TextFlips(da, db);
      FrontDecides(da, db, marks[0] + ra, marks[0] + rb);
      SharedPrefix(marks[0], ra, rb);
      assert da + marks[0] + ra == da + (marks[0] + ra) && db + marks[0] + rb == db + (marks[0] + rb);
      assert a == [a[0]] + a[1..] && b == [b[0]] + b[1..];
    }
  }

  // --------------------------------------------------------------- fractions

  /** One fraction is the beginning of the other, and they are not the same. */
  predicate Begins(p: string, q: string) { p <= q && p != q }

  lemma {:induction false} ZerosAreLess(z: string, r: string)
    requires |z| == |r| && (forall i :: 0 <= i < |z| ==> z[i] == '0') && forall i :: 0 <= i < |r| ==> '0' <= r[i] <= '9'
    requires exists i :: 0 <= i < |r| && r[i] != '0'
    ensures CompareText(z, r) < 0
  {
    if r[0] == '0' {
      var i :| 0 <= i < |r| && r[i] != '0';
      assert r[1..][i - 1] != '0';
      ZerosAreLess(z[1..], r[1..]);
    }
  }

  /** The nine digits are the fraction and the zeros that were dropped. */
  lemma Padded(m: Moment) returns (z: string)
    ensures Digits(m.nanos, 9) == Fraction(m) + z && forall i :: 0 <= i < |z| ==> z[i] == '0'
  {
    var d := Digits(m.nanos, 9);
    z := d[|Fraction(m)|..];
  }

  lemma SameFraction(a: Moment, b: Moment)
    requires a.nanos < Power(9) && b.nanos < Power(9) && Fraction(a) == Fraction(b)
    ensures a.nanos == b.nanos
  {
    var za := Padded(a);
    var zb := Padded(b);
    assert |za| == |zb| && za == zb;
    DigitsInOrder(a.nanos, b.nanos, 9);
    TextFlips(Digits(a.nanos, 9), Digits(b.nanos, 9));
  }

  lemma LongerIsLater(a: Moment, b: Moment)
    requires a.nanos < Power(9) && b.nanos < Power(9) && Begins(Fraction(a), Fraction(b))
    ensures a.nanos < b.nanos
  {
    var fa, fb := Fraction(a), Fraction(b);
    var za := Padded(a);
    var zb := Padded(b);
    var rest := fb[|fa|..] + zb;
    assert Digits(b.nanos, 9) == fa + rest;
    assert rest[|fb| - |fa| - 1] == fb[|fb| - 1];
    RestIsDigits(b, |fa|, rest);
    ZerosAreLess(za, rest);
    SharedPrefix(fa, za, rest);
    DigitsInOrder(a.nanos, b.nanos, 9);
  }

  lemma RestIsDigits(m: Moment, n: nat, rest: string)
    requires n <= 9 && Digits(m.nanos, 9)[n..] == rest
    ensures forall i :: 0 <= i < |rest| ==> '0' <= rest[i] <= '9'
  {
  }

  lemma ApartInOrder(a: Moment, b: Moment)
    requires a.nanos < Power(9) && b.nanos < Power(9) && !(Fraction(a) <= Fraction(b)) && !(Fraction(b) <= Fraction(a))
    ensures a.nanos > b.nanos <==> CompareText(Fraction(a), Fraction(b)) > 0
  {
    var za := Padded(a);
    var zb := Padded(b);
    DecidedEarly(Fraction(a), Fraction(b), za, zb);
    DigitsInOrder(a.nanos, b.nanos, 9);
  }

  /** The longer fraction makes the smaller text: a digit, or the point, stands where the shorter one has its Z. */
  lemma ShorterIsGreater(p: string, q: string)
    requires Begins(p, q) && forall i :: 0 <= i < |q| ==> '0' <= q[i] <= '9'
    ensures CompareText(Tail(p), Tail(q)) > 0
  {
    if p != "" {
      var rest := q[|p|..];
      assert q == p + rest;
      SharedPrefix("." + p, "Z", rest + "Z");
      assert "." + p + "Z" == Tail(p) && "." + p + (rest + "Z") == Tail(q);
      assert (rest + "Z")[0] == rest[0] == q[|p|];
    } else {
      assert Tail(q)[0] == '.';
    }
  }

  lemma TailsTell(p: string, q: string)
    requires !(p <= q) && !(q <= p)
    ensures CompareText(Tail(p), Tail(q)) == CompareText(p, q)
  {
    SharedPrefix(".", p + "Z", q + "Z");
    DecidedEarly(p, q, "Z", "Z");
    assert Tail(p) == "." + (p + "Z") && Tail(q) == "." + (q + "Z");
  }

  /** The two moments fall in one second, and the digits of one fraction begin the other's. No digits count too. */
  predicate Confusable(a: Moment, b: Moment) {
    SameSecond(a, b) && (Begins(Fraction(a), Fraction(b)) || Begins(Fraction(b), Fraction(a)))
  }

  lemma PrintedFits(m: Moment)
    requires Printable(m)
    ensures Fit(Fields(m), WIDTHS) && m.nanos < Power(9)
  {
    assert Power(2) == 100 by { assert Power(1) == 10; }
    assert Power(4) == 10_000 by { assert Power(3) == 1_000; }
    assert Power(6) == 1_000_000 by { assert Power(5) == 100_000; }
    assert Power(9) == 1_000_000_000 by { assert Power(7) == 10_000_000 && Power(8) == 100_000_000; }
  }

  /** Main result: comparing the texts answers which moment is later exactly unless the two are confusable, and then it
      answers wrongly. */
  lemma TextOrderExactly(a: Moment, b: Moment)
    requires Printable(a) && Printable(b)
    ensures (CompareText(Text(a), Text(b)) > 0 <==> After(a, b)) <==> !Confusable(a, b)
    ensures Confusable(a, b) ==> (CompareText(Text(a), Text(b)) > 0 <==> After(b, a))
  {
    PrintedFits(a);
    PrintedFits(b);
    var (ha, hb) := (Print(Fields(a), WIDTHS, MARKS), Print(Fields(b), WIDTHS, MARKS));
    PrintLength(Fields(a), Fields(b), WIDTHS, MARKS);
    PrintInOrder(Fields(a), Fields(b), WIDTHS, MARKS);
    FrontDecides(ha, hb, Tail(Fraction(a)), Tail(Fraction(b)));
    TextFlips(ha, hb);
    if SameSecond(a, b) {
      WithinASecond(a, b);
    } else {
      assert CompareText(Text(a), Text(b)) == CompareText(ha, hb);
    }
  }

  lemma FractionIsDigits(m: Moment)
    ensures forall i :: 0 <= i < |Fraction(m)| ==> '0' <= Fraction(m)[i] <= '9'
  {
  }

  lemma WithinASecond(a: Moment, b: Moment)
    requires SameSecond(a, b) && a.nanos < Power(9) && b.nanos < Power(9)
    ensures var text := CompareText(Tail(Fraction(a)), Tail(Fraction(b)));
      && (Confusable(a, b) ==> a.nanos != b.nanos && (text > 0 <==> b.nanos > a.nanos))
      && (!Confusable(a, b) ==> (text > 0 <==> a.nanos > b.nanos))
  {
    var (fa, fb) := (Fraction(a), Fraction(b));
    TextFlips(Tail(fa), Tail(fb));
    if fa == fb {
      SameFraction(a, b);
    } else if fa <= fb {
      LongerIsLater(a, b);
      FractionIsDigits(b);
      ShorterIsGreater(fa, fb);
    } else if fb <= fa {
      LongerIsLater(b, a);
      FractionIsDigits(a);
      ShorterIsGreater(fb, fa);
    } else {
      ApartInOrder(a, b);
      TailsTell(fa, fb);
    }
  }
}
