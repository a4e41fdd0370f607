/** Digit filtering of the CPF input field. */
module Text {
  /** A character matched by the character class `[0-9]`. */
  predicate IsDigit(c: char) {
    '0' <= c <= '9'
  }

  predicate AllDigits(s: string) {
    forall i :: 0 <= i < |s| ==> IsDigit(s[i])
  }

  /** A digits-only string holds no other character. */
  lemma DigitsExclude(s: string, c: char)
    requires AllDigits(s) && !IsDigit(c)
    ensures c !in s
  {
    forall i | 0 <= i < |s|
      ensures s[i] != c
    {
      assert IsDigit(s[i]);
    }
  }

  /** `str.replace(/[^0-9]/g, "")`: the digits of `s`, in their order. */
  function OnlyNumbers(s: string): (r: string)
    ensures AllDigits(r)
  {
    if s == [] then []
    else if IsDigit(s[0]) then [s[0]] + OnlyNumbers(s[1..])
    else OnlyNumbers(s[1..])
  }

  /** The filter never lengthens its input, and keeps its length exactly when the
      input is all digits. */
  lemma {:induction false} OnlyNumbersLength(s: string)
    ensures |OnlyNumbers(s)| <= |s|
    ensures |OnlyNumbers(s)| == |s| <==> AllDigits(s)
  {
    if s != [] {
      OnlyNumbersLength(s[1..]);
      assert AllDigits(s) <==> IsDigit(s[0]) && AllDigits(s[1..]) by {
        if IsDigit(s[0]) && AllDigits(s[1..]) {
          forall i | 0 <= i < |s| ensures IsDigit(s[i]) {
            if i > 0 { assert s[i] == s[1..][i - 1]; }
          }
        }
      }
    }
  }

  /** A string of digits passes through the filter unchanged. */
  lemma {:induction false} OnlyNumbersOfDigits(s: string)
    requires AllDigits(s)
    ensures OnlyNumbers(s) == s
  {
    if s != [] {
      assert AllDigits(s[1..]) by {
        forall i | 0 <= i < |s[1..]| ensures IsDigit(s[1..][i]) {
          assert s[1..][i] == s[i + 1];
        }
      }
      OnlyNumbersOfDigits(s[1..]);
    }
  }

  /** Filtering twice is filtering once. */
  lemma {:induction false} OnlyNumbersIdempotent(s: string)
    ensures OnlyNumbers(OnlyNumbers(s)) == OnlyNumbers(s)
  {
    OnlyNumbersOfDigits(OnlyNumbers(s));
  }

  /** The filter works character by character: it distributes over concatenation,
      so the relative order of the kept digits is the input's. */
  lemma {:induction false} OnlyNumbersAppend(a: string, b: string)
    ensures OnlyNumbers(a + b) == OnlyNumbers(a) + OnlyNumbers(b)
  {
    if a == [] {
      assert a + b == b;
    } else {
      assert (a + b)[0] == a[0];
      assert (a + b)[1..] == a[1..] + b;
      OnlyNumbersAppend(a[1..], b);
    }
  }

  /** The filter keeps every occurrence of every digit and nothing else. */
  lemma {:induction false} OnlyNumbersKeepsEveryDigit(s: string)
    ensures forall c :: multiset(OnlyNumbers(s))[c] == if IsDigit(c) then multiset(s)[c] else 0
  {
    if s != [] {
      OnlyNumbersKeepsEveryDigit(s[1..]);
      assert s == [s[0]] + s[1..];
      assert multiset(s) == multiset{s[0]} + multiset(s[1..]);
      if IsDigit(s[0]) {
        assert multiset(OnlyNumbers(s)) == multiset{s[0]} + multiset(OnlyNumbers(s[1..]));
      }
    }
  }

  /** A complete entry of the CPF input's display mask `###.###.###-##`: the only
      shape of length 14 the masked input produces. */
  predicate IsMaskedCpf(m: string) {
    |m| == 14 && m[3] == '.' && m[7] == '.' && m[11] == '-' &&
    forall i :: 0 <= i < 14 && i != 3 && i != 7 && i != 11 ==> IsDigit(m[i])
  }

  /** A complete masked entry filters to its eleven digits, separators removed. */
  lemma MaskedCpfDigits(m: string)
    requires IsMaskedCpf(m)
    ensures OnlyNumbers(m) == m[..3] + m[4..7] + m[8..11] + m[12..]
    ensures |OnlyNumbers(m)| == 11
  {
    DigitGroup(m, 0, 3);
    DigitGroup(m, 4, 7);
    DigitGroup(m, 8, 11);
    DigitGroup(m, 12, 14);
    SeparatorThenGroup(m, 3, 7);
    SeparatorThenGroup(m, 7, 11);
    SeparatorThenGroup(m, 11, 14);
    assert m[11..] == m[11..14] && m[12..] == m[12..14];
    assert m == m[..3] + m[3..7] + m[7..11] + m[11..];
    OnlyNumbersAppend(m[..3] + m[3..7] + m[7..11], m[11..]);
    OnlyNumbersAppend(m[..3] + m[3..7], m[7..11]);
    OnlyNumbersAppend(m[..3], m[3..7]);
    assert OnlyNumbers(m[..3] + m[3..7]) == m[..3] + m[4..7];
    assert OnlyNumbers(m[..3] + m[3..7] + m[7..11]) == m[..3] + m[4..7] + m[8..11];
  }

  /** A run of digits inside a masked entry filters to itself. */
  lemma DigitGroup(m: string, i: nat, j: nat)
    requires IsMaskedCpf(m)
    requires i <= j <= 14
    requires (i, j) == (0, 3) || (i, j) == (4, 7) || (i, j) == (8, 11) || (i, j) == (12, 14)
    ensures OnlyNumbers(m[i..j]) == m[i..j]
  {
    assert AllDigits(m[i..j]) by {
      forall k | 0 <= k < j - i ensures IsDigit(m[i..j][k]) {
        assert i + k != 3 && i + k != 7 && i + k != 11;
        assert m[i..j][k] == m[i + k];
      }
    }
    OnlyNumbersOfDigits(m[i..j]);
  }

  /** A separator of the mask followed by digits filters to those digits. */
  lemma SeparatorThenGroup(m: string, i: nat, j: nat)
    requires i < j <= |m|
    requires !IsDigit(m[i])
    ensures OnlyNumbers(m[i..j]) == OnlyNumbers(m[i + 1..j])
  {
    assert m[i..j][0] == m[i];
    assert m[i..j][1..] == m[i + 1..j];
  }
}
