/** The order of strings by character, a prefix being smaller: Go's sort.Strings and JavaScript's < on plain text. */
module TextOrder {
  import opened StableSort

  function CompareText(a: string, b: string): int {
    if a == "" && b == "" then 0
    else if a == "" then -1
    else if b == "" then 1
    else if a[0] != b[0] then (a[0] as int) - (b[0] as int)
    else CompareText(a[1..], b[1..])
  }

  lemma {:induction false} TextFlips(a: string, b: string)
    ensures CompareText(a, b) < 0 <==> CompareText(b, a) > 0
    ensures CompareText(a, b) == 0 <==> a == b
  {
    if a != "" && b != "" && a[0] == b[0] {
      TextFlips(a[1..], b[1..]);
      assert a == [a[0]] + a[1..] && b == [b[0]] + b[1..];
    }
  }

  lemma {:induction false} TextChains(a: string, b: string, c: string)
    requires CompareText(a, b) <= 0 && CompareText(b, c) <= 0
    ensures CompareText(a, c) <= 0
  {
    if a != "" && b != "" && c != "" && a[0] == b[0] == c[0] { TextChains(a[1..], b[1..], c[1..]); }
  }

  lemma TextIsConsistent()
    ensures Consistent(CompareText)
  {
    forall a, b ensures CompareText(a, b) < 0 <==> CompareText(b, a) > 0 { TextFlips(a, b); }
    forall a, b, c | CompareText(a, b) <= 0 && CompareText(b, c) <= 0 ensures CompareText(a, c) <= 0 {
      TextChains(a, b, c);
    }
  }

  /** Two texts that differ somewhere before either ends: what follows does not matter. */
  lemma {:induction false} DecidedEarly(p: string, q: string, x: string, y: string)
    requires !(p <= q) && !(q <= p)
    ensures CompareText(p + x, q + y) == CompareText(p, q) != 0
  {
    assert (p + x)[0] == p[0] && (q + y)[0] == q[0];
    if p[0] == q[0] {
      DecidedEarly(p[1..], q[1..], x, y);
      assert (p + x)[1..] == p[1..] + x && (q + y)[1..] == q[1..] + y;
    }
  }

  lemma {:induction false} SharedPrefix(p: string, a: string, b: string)
    ensures CompareText(p + a, p + b) == CompareText(a, b)
  {
    if p == "" {
      assert p + a == a && p + b == b;
    } else {
      SharedPrefix(p[1..], a, b);
      assert (p + a)[1..] == p[1..] + a && (p + b)[1..] == p[1..] + b;
    }
  }

  /** Texts of equal length in front decide, and only if they are equal what follows does. */
  lemma FrontDecides(p: string, q: string, x: string, y: string)
    requires |p| == |q|
    ensures CompareText(p + x, q + y) == if p == q then CompareText(x, y) else CompareText(p, q)
  {
    if p == q {
      SharedPrefix(p, x, y);
    } else {
      assert !(p <= q) && !(q <= p);
      DecidedEarly(p, q, x, y);
    }
  }
}
