/** Text that is put together to be hashed or shown: decimal numbers, fields between separators, and lines. What was
    put together can be told from the text. */
module Texts {
  // ---------------------------------------------------------------- decimal numbers

  function Digit(n: nat): char
    requires n < 10
  {
    "0123456789"[n]
  }

  function Decimal(n: nat): string {
    if n < 10 then [Digit(n)] else Decimal(n / 10) + [Digit(n % 10)]
  }

  predicate IsDigit(c: char) {
    '0' <= c <= '9'
  }

  lemma {:induction false} DecimalDigits(n: nat)
    ensures Decimal(n) != [] && forall i :: 0 <= i < |Decimal(n)| ==> IsDigit(Decimal(n)[i])
  {
    if n >= 10 {
      DecimalDigits(n / 10);
    }
  }

  lemma DigitTells(m: nat, n: nat)
    requires m < 10 && n < 10 && Digit(m) == Digit(n)
    ensures m == n
  {
  }

  lemma {:induction false} DecimalTells(m: nat, n: nat)
    requires Decimal(m) == Decimal(n)
    ensures m == n
    decreases m
  {
    DecimalDigits(m / 10);
    DecimalDigits(n / 10);
    var s := Decimal(m);
    if m < 10 {
      DigitTells(m, n);
    } else {
      assert Decimal(m / 10) == s[..|s| - 1] == Decimal(n / 10);
      DigitTells(m % 10, n % 10);
      DecimalTells(m / 10, n / 10);
    }
  }

  // ---------------------------------------------------------------- fields and lines

  predicate Without(s: string, c: char) {
    c !in s
  }

  predicate AllWithout(fields: seq<string>, c: char) {
    forall i :: 0 <= i < |fields| ==> Without(fields[i], c)
  }

  /** The text up to a separator, and after it. */
  lemma SplitTells(x: string, y: string, s: string, t: string, c: char)
    requires Without(x, c) && Without(y, c) && x + [c] + s == y + [c] + t
    ensures x == y && s == t
  {
    var text := x + [c] + s;
    assert text[|x|] == c && text[|y|] == c;
    assert (forall i :: 0 <= i < |x| ==> text[i] == x[i] && x[i] != c) && (forall i :: 0 <= i < |y| ==> text[i] == y[i] && y[i] != c);
    assert |x| == |y|;
    assert x == text[..|x|] == y && s == text[|x| + 1..] == t;
  }

  /** Each field, then the separator. */
  function Ended(fields: seq<string>, c: char): string {
    if fields == [] then "" else fields[0] + [c] + Ended(fields[1..], c)
  }

  lemma {:induction false} EndedAppend(fields: seq<string>, last: string, c: char)
    ensures Ended(fields + [last], c) == Ended(fields, c) + last + [c]
  {
    if fields != [] {
      assert (fields + [last])[1..] == fields[1..] + [last];
      EndedAppend(fields[1..], last, c);
      assert fields[0] + [c] + (Ended(fields[1..], c) + last + [c]) == fields[0] + [c] + Ended(fields[1..], c) + last + [c];
    } else {
      assert fields + [last] == [last] && [last][1..] == [];
    }
  }

  /** The fields can be told from the text, and so can how many there are. */
  lemma {:induction false} EndedTells(a: seq<string>, b: seq<string>, c: char)
    requires AllWithout(a, c) && AllWithout(b, c) && Ended(a, c) == Ended(b, c)
    ensures a == b
  {
    if a != [] && b != [] {
      SplitTells(a[0], b[0], Ended(a[1..], c), Ended(b[1..], c), c);
      EndedTells(a[1..], b[1..], c);
      assert a == [a[0]] + a[1..] && b == [b[0]] + b[1..];
    }
  }

  /** The fields with the separator between them. */
  function Joined(fields: seq<string>, c: char): string {
    if fields == [] then "" else if |fields| == 1 then fields[0] else fields[0] + [c] + Joined(fields[1..], c)
  }

  lemma {:induction false} JoinedEnded(fields: seq<string>, c: char)
    requires fields != []
    ensures Joined(fields, c) + [c] == Ended(fields, c)
  {
    if |fields| > 1 {
      JoinedEnded(fields[1..], c);
      assert fields[0] + [c] + Joined(fields[1..], c) + [c] == fields[0] + [c] + (Joined(fields[1..], c) + [c]);
    } else {
      assert fields[1..] == [];
    }
  }

  lemma JoinedTells(a: seq<string>, b: seq<string>, c: char)
    requires a != [] && b != [] && AllWithout(a, c) && AllWithout(b, c) && Joined(a, c) == Joined(b, c)
    ensures a == b
  {
    JoinedEnded(a, c);
    JoinedEnded(b, c);
    EndedTells(a, b, c);
  }

  lemma {:induction false} JoinedWithout(fields: seq<string>, c: char, other: char)
    requires AllWithout(fields, other) && other != c
    ensures Without(Joined(fields, c), other)
  {
    if |fields| > 1 {
      JoinedWithout(fields[1..], c, other);
    }
  }
}
