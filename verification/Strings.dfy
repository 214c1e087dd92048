/**
 The strings the services build: decimal numerals, zero padding, and fields
 joined by a separator.
 */
module Strings {
  function Digit(d: nat): (c: char)
    requires d < 10
    ensures '0' <= c <= '9'
  {
    '0' + d as char
  }

  function Decimal(n: nat): (s: string)
    ensures |s| > 0 && forall c <- s :: '0' <= c <= '9'
  {
    if n < 10 then [Digit(n)] else Decimal(n / 10) + [Digit(n % 10)]
  }

  function Value(s: string): int {
    if s == [] then 0 else 10 * Value(s[..|s| - 1]) + (s[|s| - 1] as int - '0' as int)
  }

  lemma {:induction false} ValueOfDecimal(n: nat)
    ensures Value(Decimal(n)) == n
  {
    if n < 10 {
      assert [Digit(n)][..0] == [];
    } else {
      ValueOfDecimal(n / 10);
      assert (Decimal(n / 10) + [Digit(n % 10)])[..|Decimal(n / 10)|] == Decimal(n / 10);
    }
  }

  // String(n).padStart(width, '0'): shorter numerals get zeros, longer ones stay as they are.
  function PadStart(s: string, width: nat): (r: string)
    ensures |r| == if |s| < width then width else |s|
    decreases width - |s|
  {
    if |s| < width then PadStart(['0'] + s, width) else s
  }

  lemma {:induction false} ValueOfZero(s: string)
    ensures Value(['0'] + s) == Value(s)
  {
    if s == [] {
      assert ['0'][..0] == [];
    } else {
      ValueOfZero(s[..|s| - 1]);
      assert (['0'] + s)[..|s|] == ['0'] + s[..|s| - 1];
    }
  }

  lemma {:induction false} ValueOfPadded(s: string, width: nat)
    ensures Value(PadStart(s, width)) == Value(s)
    decreases width - |s|
  {
    if |s| < width {
      ValueOfZero(s);
      ValueOfPadded(['0'] + s, width);
    }
  }

  lemma ValueOfNumeral(n: nat, width: nat)
    ensures Value(PadStart(Decimal(n), width)) == n
    ensures forall c <- PadStart(Decimal(n), width) :: '0' <= c <= '9'
  {
    ValueOfPadded(Decimal(n), width);
    ValueOfDecimal(n);
    PaddedDigits(Decimal(n), width);
  }

  lemma {:induction false} PaddedDigits(s: string, width: nat)
    requires forall c <- s :: '0' <= c <= '9'
    ensures forall c <- PadStart(s, width) :: '0' <= c <= '9'
    decreases width - |s|
  {
    if |s| < width {
      assert forall c <- ['0'] + s :: '0' <= c <= '9';
      PaddedDigits(['0'] + s, width);
    }
  }

  // Padding loses nothing, whatever the width: not even past 99999 at width 5.
  lemma PaddedInjective(m: nat, n: nat, width: nat)
    requires PadStart(Decimal(m), width) == PadStart(Decimal(n), width)
    ensures m == n
  {
    ValueOfPadded(Decimal(m), width);
    ValueOfPadded(Decimal(n), width);
    ValueOfDecimal(m);
    ValueOfDecimal(n);
  }

  // A field without the separator can be read back from what it was joined to.
  lemma SplitFirst(a: string, b: string, c: string, d: string, sep: char)
    requires sep !in a && sep !in c && a + [sep] + b == c + [sep] + d
    ensures a == c && b == d
  {
    var left, right := a + [sep] + b, c + [sep] + d;
    assert left[|a|] == sep && right[|c|] == sep;
    assert |a| == |c|;
    assert a == left[..|a|] == right[..|c|] == c;
    assert b == left[|a| + 1..] == right[|c| + 1..] == d;
  }

  // Two neighbouring fields of a join.
  function Joined(a: string, b: string): string {
    a + ":" + b
  }

  lemma JoinedAssociates(a: string, b: string, c: string)
    ensures Joined(Joined(a, b), c) == Joined(a, Joined(b, c))
  {
  }

  lemma JoinedApart(a: string, b: string, c: string, d: string)
    requires ':' !in a && ':' !in c && Joined(a, b) == Joined(c, d)
    ensures a == c && b == d
  {
    SplitFirst(a, b, c, d, ':');
  }

  lemma JoinedApartLast(a: string, b: string, c: string, d: string)
    requires ':' !in b && ':' !in d && Joined(a, b) == Joined(c, d)
    ensures a == c && b == d
  {
    var left, right := Joined(a, b), Joined(c, d);
    assert left[|a|] == ':' && right[|c|] == ':';
    assert forall i | |a| < i < |left| :: left[i] == b[i - |a| - 1];
    assert forall i | |c| < i < |right| :: right[i] == d[i - |c| - 1];
    assert |a| == |c|;
    assert a == left[..|a|] == right[..|c|] == c;
    assert b == left[|a| + 1..] == right[|c| + 1..] == d;
  }

  // A number with up to two decimals, as JavaScript prints it: no trailing zeros.
  function Number(hundredths: nat): (s: string)
    ensures ':' !in s && s != "*"
  {
    var whole, f := Decimal(hundredths / 100), hundredths % 100;
    if f == 0 then whole
    else if f % 10 == 0 then whole + ['.'] + [Digit(f / 10)]
    else whole + ['.'] + [Digit(f / 10), Digit(f % 10)]
  }

  lemma DecimalInjective(m: nat, n: nat)
    requires Decimal(m) == Decimal(n)
    ensures m == n
  {
    ValueOfDecimal(m);
    ValueOfDecimal(n);
  }

  lemma NumberInjective(m: nat, n: nat)
    requires Number(m) == Number(n)
    ensures m == n
  {
    var a, b := Decimal(m / 100), Decimal(n / 100);
    assert '.' !in a && '.' !in b;
    if m % 100 == 0 || n % 100 == 0 {
      assert '.' in Number(m) <==> m % 100 != 0;
      assert '.' in Number(n) <==> n % 100 != 0;
    } else {
      SplitFirst(a, Number(m)[|a| + 1..], b, Number(n)[|b| + 1..], '.');
    }
    DecimalInjective(m / 100, n / 100);
  }
}
