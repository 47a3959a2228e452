/** The Luhn test that decides whether a card-shaped run of text is a card number
    (Annex B of ISO/IEC 7812-1). */
module Luhn {

  predicate IsDigit(c: char) {
    '0' <= c <= '9'
  }

  type digit = n: int | 0 <= n < 10

  /** The digits of a text, separators dropped. */
  function Digits(s: string): seq<digit> {
    if s == "" then []
    else if IsDigit(s[0]) then [(s[0] - '0') as int] + Digits(s[1..])
    else Digits(s[1..])
  }

  /** Contribution of a digit standing k places left of the last one: every second digit from the
      right is doubled and the digits of the product are added. */
  function Weight(k: nat, d: digit): nat {
    if k % 2 == 0 then d else 2 * d / 10 + 2 * d % 10
  }

  function Checksum(ds: seq<digit>): nat {
    if ds == [] then 0 else Weight(|ds| - 1, ds[0]) + Checksum(ds[1..])
  }

  /** The standard's condition on a digit string, with the minimum length of a card number. */
  predicate Accepted(ds: seq<digit>) {
    |ds| >= 13 && Checksum(ds) % 10 == 0
  }

  lemma DigitsStep(s: string, i: nat)
    requires i < |s|
    ensures Digits(s[i..]) == (if IsDigit(s[i]) then [(s[i] - '0') as int] else []) + Digits(s[i+1..])
  {
    assert s[i..][1..] == s[i+1..];
  }

  lemma NoDigits(s: string)
    ensures s[|s|..] == "" && Digits("") == [] && Checksum([]) == 0 && s[0..] == s
  {
  }

  lemma ChecksumCons(d: digit, ds: seq<digit>)
    ensures Checksum([d] + ds) == Weight(|ds|, d) + Checksum(ds)
  {
    assert ([d] + ds)[1..] == ds;
  }

  lemma WeightCases(k: nat, d: digit)
    ensures Weight(k, d) == if k % 2 == 0 then d else if 2 * d > 9 then 2 * d - 9 else 2 * d
  {
  }

  /** `luhnValid`: one pass from the right with a flip-flop. */
  method LuhnValid(s: string) returns (valid: bool)
    ensures valid <==> Accepted(Digits(s))
  {
    var sum, n := 0, 0;
    var alt := false;
    var i := |s|;
    hide Checksum, Weight, Digits;
    NoDigits(s);
    while i > 0
      invariant 0 <= i <= |s|
      invariant n == |Digits(s[i..])| && sum == Checksum(Digits(s[i..]))
      invariant alt <==> n % 2 == 1
    {
      i := i - 1;
      DigitsStep(s, i);
      if s[i] < '0' || s[i] > '9' {
        assert Digits(s[i..]) == Digits(s[i+1..]);
        continue;
      }
      var d := (s[i] - '0') as int;
      ChecksumCons(d, Digits(s[i+1..]));
      WeightCases(n, d);
      if alt {
        d := d * 2;
        if d > 9 {
          d := d - 9;
        }
      }
      sum := sum + d;
      n := n + 1;
      alt := !alt;
    }
    return n >= 13 && sum % 10 == 0;
  }

  lemma {:induction false} ChecksumUpdate(ds: seq<digit>, i: nat, d: digit)
    requires i < |ds|
    ensures Checksum(ds[i := d]) - Weight(|ds| - 1 - i, d) == Checksum(ds) - Weight(|ds| - 1 - i, ds[i])
  {
    if i == 0 {
      assert ds[0 := d][1..] == ds[1..];
    } else {
      assert ds[i := d][1..] == ds[1..][i - 1 := d];
      ChecksumUpdate(ds[1..], i - 1, d);
    }
  }

  /** Any single wrong digit is detected. */
  lemma SingleDigitDetected(ds: seq<digit>, i: nat, d: digit)
    requires Accepted(ds) && i < |ds| && d != ds[i]
    ensures !Accepted(ds[i := d])
  {
    hide Checksum, Weight;
    ChecksumUpdate(ds, i, d);
    WeightDistinct(|ds| - 1 - i, d, ds[i]);
    SameRemainder(Checksum(ds), Checksum(ds[i := d]));
  }

  lemma SameRemainder(x: int, y: int)
    requires x % 10 == 0
    ensures y % 10 == 0 <==> (y - x) % 10 == 0
  {
  }

  lemma WeightDistinct(k: nat, c: digit, d: digit)
    requires c != d
    ensures (Weight(k, c) - Weight(k, d)) % 10 != 0
  {
  }

  function Swap(ds: seq<digit>, i: nat): seq<digit>
    requires i + 1 < |ds|
  {
    ds[i := ds[i+1]][i+1 := ds[i]]
  }

  /** Swapping two neighbours goes undetected exactly when they are equal or are a 0 and a 9. */
  lemma TranspositionDetected(ds: seq<digit>, i: nat)
    requires Accepted(ds) && i + 1 < |ds|
    ensures Accepted(Swap(ds, i)) <==> ds[i] == ds[i+1] || {ds[i], ds[i+1]} == {0, 9}
  {
    hide Checksum, Weight;
    var a, b := ds[i], ds[i+1];
    var k := |ds| - 2 - i;
    ChecksumUpdate(ds, i, b);
    ChecksumUpdate(ds[i := b], i + 1, a);
    assert Checksum(Swap(ds, i)) - Checksum(ds) == Weight(k + 1, b) + Weight(k, a) - Weight(k + 1, a) - Weight(k, b);
    SwapDelta(k, a, b);
    SameRemainder(Checksum(ds), Checksum(Swap(ds, i)));
    ZeroNine(a, b);
  }

  lemma ZeroNine(a: digit, b: digit)
    ensures {a, b} == {0, 9} <==> (a == 0 && b == 9) || (a == 9 && b == 0)
  {
    if {a, b} == {0, 9} {
      assert 0 in {a, b} && 9 in {a, b};
    }
  }

  lemma SwapDelta(k: nat, a: digit, b: digit)
    ensures (Weight(k + 1, b) + Weight(k, a) - Weight(k + 1, a) - Weight(k, b)) % 10 == 0
       <==> a == b || (a == 0 && b == 9) || (a == 9 && b == 0)
  {
    if k % 2 == 0 {
      assert Weight(k, a) == a && Weight(k, b) == b;
      assert Weight(k + 1, a) == Doubled(a) && Weight(k + 1, b) == Doubled(b);
    } else {
      assert Weight(k + 1, a) == a && Weight(k + 1, b) == b;
      assert Weight(k, a) == Doubled(a) && Weight(k, b) == Doubled(b);
    }
  }

  function Doubled(d: digit): (r: int)
    ensures r == 2 * d / 10 + 2 * d % 10
  {
    if d < 5 then 2 * d else 2 * d - 9
  }

  // ------------------------------------------------------ the same on text

  lemma {:induction false} DigitsConcat(a: string, b: string)
    ensures Digits(a + b) == Digits(a) + Digits(b)
  {
    if a == "" {
      assert a + b == b;
    } else {
      assert (a + b)[1..] == a[1..] + b;
      DigitsConcat(a[1..], b);
    }
  }

  lemma DigitsSplit(a: string, mid: string, b: string)
    ensures Digits(a + mid + b) == Digits(a) + Digits(mid) + Digits(b)
  {
    DigitsConcat(a + mid, b);
    DigitsConcat(a, mid);
  }

  /** In an accepted text, separators and all, replacing any one digit by another makes it rejected. */
  lemma TypoRejected(a: string, c: char, d: char, b: string)
    requires IsDigit(c) && IsDigit(d) && c != d
    requires Accepted(Digits(a + [c] + b))
    ensures !Accepted(Digits(a + [d] + b))
  {
    DigitsSplit(a, [c], b);
    DigitsSplit(a, [d], b);
    OneDigit(c);
    OneDigit(d);
    var ds := Digits(a) + Digits([c]) + Digits(b);
    var x := Digits([d])[0];
    assert ds[|Digits(a)| := x] == Digits(a) + Digits([d]) + Digits(b);
    SingleDigitDetected(ds, |Digits(a)|, x);
  }

  lemma OneDigit(c: char)
    requires IsDigit(c)
    ensures Digits([c]) == [(c - '0') as int]
  {
    assert [c][1..] == "";
  }

  /** Separators make no difference. */
  lemma SeparatorIrrelevant(a: string, c: char, b: string)
    requires !IsDigit(c)
    ensures Accepted(Digits(a + [c] + b)) <==> Accepted(Digits(a + b))
  {
    DigitsSplit(a, [c], b);
    DigitsConcat(a, b);
    assert [c][1..] == "" && Digits([c]) == [];
    assert Digits(a) + [] + Digits(b) == Digits(a) + Digits(b);
  }

  /** Swapping two neighbouring digits of an accepted text, whatever separates them, is rejected
      unless they are equal or a 0 and a 9. */
  lemma SwapInText(a: string, c: char, sep: string, d: char, b: string)
    requires IsDigit(c) && IsDigit(d) && Digits(sep) == []
    requires Accepted(Digits(a + [c] + sep + [d] + b))
    ensures Accepted(Digits(a + [d] + sep + [c] + b)) <==> c == d || (c == '0' && d == '9') || (c == '9' && d == '0')
  {
    hide Accepted, Digits;
    TwoDigits(a, c, sep, d, b);
    TwoDigits(a, d, sep, c, b);
    var x, y: digit := (c - '0') as int, (d - '0') as int;
    var ds := Digits(a) + [x, y] + Digits(b);
    assert Swap(ds, |Digits(a)|) == Digits(a) + [y, x] + Digits(b);
    TranspositionDetected(ds, |Digits(a)|);
    ZeroNine(x, y);
  }

  lemma TwoDigits(a: string, c: char, sep: string, d: char, b: string)
    requires IsDigit(c) && IsDigit(d) && Digits(sep) == []
    ensures Digits(a + [c] + sep + [d] + b) == Digits(a) + [(c - '0') as int, (d - '0') as int] + Digits(b)
  {
    hide Digits;
    DigitsSplit(a, [c], sep);
    DigitsSplit(a + [c] + sep, [d], b);
    OneDigit(c);
    OneDigit(d);
  }

  // --------------------------------------------------- the checksum spelled out

  /** From the right, pair by pair: the right digit counts as it is, the left one doubled, less nine
      above nine; a digit left over counts as it is. */
  lemma ChecksumByPairs(a: digit, b: digit, ds: seq<digit>)
    requires |ds| % 2 == 0
    ensures Checksum([]) == 0 && Checksum([b] + ds) == b + Checksum(ds)
    ensures Checksum([a, b] + ds) == (if a > 4 then 2 * a - 9 else 2 * a) + b + Checksum(ds)
  {
    hide Checksum, Weight;
    ChecksumCons(b, ds);
    ChecksumCons(a, [b] + ds);
    WeightCases(|ds|, b);
    WeightCases(|ds| + 1, a);
    assert [a] + ([b] + ds) == [a, b] + ds;
    NoDigits("");
  }

  lemma {:induction false} ChecksumOfOnes(n: nat)
    ensures Checksum(seq(2 * n, _ => 1)) == 3 * n
  {
    hide Checksum, Weight;
    if n == 0 {
      assert seq(0, _ => 1) == [];
      NoDigits("");
    } else {
      ChecksumOfOnes(n - 1);
      var rest: seq<digit> := seq(2 * (n - 1), _ => 1);
      assert seq(2 * n, _ => 1) == [1, 1] + rest;
      ChecksumByPairs(1, 1, rest);
    }
  }

  /** A known card number is accepted, with and without blanks. */
  lemma KnownNumber()
    ensures Accepted(Digits("4111111111111111")) && Accepted(Digits("4111 1111 1111 1111"))
  {
    hide Checksum, Weight, Digits;
    var ones := "1111";
    FourOnes();
    DigitsConcat(ones, ones);
    DigitsConcat(ones + ones, ones);
    DigitsConcat("4111", ones + ones + ones);
    ThreeOnes();
    assert "4111111111111111" == "4111" + (ones + ones + ones);
    var ds := Digits("4111111111111111");
    var rest: seq<digit> := seq(14, _ => 1);
    assert ds == [4, 1] + rest;
    ChecksumByPairs(4, 1, rest);
    ChecksumOfOnes(7);
    SeparatorIrrelevant("4111", ' ', "111111111111");
    SeparatorIrrelevant("4111 1111", ' ', "11111111");
    SeparatorIrrelevant("4111 1111 1111", ' ', "1111");
    assert "4111" + "111111111111" == "4111111111111111";
    assert "4111" + [' '] + "111111111111" == "4111 1111" + "11111111";
    assert "4111 1111" + [' '] + "11111111" == "4111 1111 1111" + "1111";
    assert "4111 1111 1111" + [' '] + "1111" == "4111 1111 1111 1111";
  }

  lemma FourOnes()
    ensures Digits("1111") == [1, 1, 1, 1]
  {
    assert "1111"[1..] == "111" && "111"[1..] == "11" && "11"[1..] == "1" && "1"[1..] == "";
    assert Digits("1") == [1] && Digits("11") == [1, 1] && Digits("111") == [1, 1, 1];
  }

  lemma ThreeOnes()
    ensures Digits("4111") == [4, 1, 1, 1]
  {
    assert "4111"[1..] == "111" && "111"[1..] == "11" && "11"[1..] == "1" && "1"[1..] == "";
    assert Digits("1") == [1] && Digits("11") == [1, 1] && Digits("111") == [1, 1, 1];
  }

  /** Thirteen digits are the fewest a card number has. */
  lemma {:induction false} ZerosAccepted(n: nat)
    ensures Checksum(seq(n, _ => 0)) == 0 && (Accepted(seq(n, _ => 0)) <==> n >= 13)
  {
    if n > 0 {
      ZerosAccepted(n - 1);
      var rest: seq<digit> := seq(n - 1, _ => 0);
      assert seq(n, _ => 0) == [0] + rest;
      ChecksumCons(0, rest);
    }
  }
}
