/** The string operations the pages use: ASCII `toLowerCase`, `includes`, template-literal rendering. */
module Text {
  import opened Rows

  /** `toLowerCase` on one character, restricted to ASCII letters. */
  function LowerChar(c: char): char
  {
    if 'A' <= c <= 'Z' then (c as int + 32) as char else c
  }

  function Lower(s: string): (r: string)
    ensures |r| == |s|
    ensures forall i :: 0 <= i < |s| ==> r[i] == LowerChar(s[i])
  {
    seq(|s|, i requires 0 <= i < |s| => LowerChar(s[i]))
  }

  /** Lower-casing text that is already lower case changes nothing. */
  lemma LowerIdempotent(s: string)
    ensures Lower(Lower(s)) == Lower(s)
  {
    assert forall i :: 0 <= i < |s| ==> LowerChar(LowerChar(s[i])) == LowerChar(s[i]);
  }

  /** Lower-casing distributes over concatenation. */
  lemma LowerAppend(a: string, b: string)
    ensures Lower(a + b) == Lower(a) + Lower(b)
  {
  }

  predicate IsPrefix(part: string, s: string)
  {
    |part| <= |s| && part == s[..|part|]
  }

  /** `s.includes(part)`. */
  predicate Contains(s: string, part: string)
    ensures Contains(s, part) ==> |part| <= |s|
    ensures IsPrefix(part, s) ==> Contains(s, part)
    decreases |s|
  {
    IsPrefix(part, s) || (s != [] && Contains(s[1..], part))
  }

  /** `part` occurs in `s` starting at offset `i`. */
  predicate OccursAt(s: string, part: string, i: int)
  {
    0 <= i <= |s| - |part| && s[i..i + |part|] == part
  }

  /** `includes` holds exactly when `part` occurs at some offset of `s`. */
  lemma {:induction false} ContainsAt(s: string, part: string)
    ensures Contains(s, part) <==> exists i :: OccursAt(s, part, i)
  {
    if Contains(s, part) {
      if IsPrefix(part, s) {
        assert OccursAt(s, part, 0);
      } else {
        ContainsAt(s[1..], part);
        var j :| OccursAt(s[1..], part, j);
        assert s[1..][j..j + |part|] == s[j + 1..j + 1 + |part|];
        assert OccursAt(s, part, j + 1);
      }
    } else {
      forall i
        ensures !OccursAt(s, part, i)
      {
        ContainsNowhere(s, part, i);
      }
    }
  }

  lemma {:induction false} ContainsNowhere(s: string, part: string, i: int)
    requires !Contains(s, part)
    ensures !OccursAt(s, part, i)
    decreases if i < 0 then 0 else i
  {
    if 0 < i <= |s| - |part| {
      assert s[1..][i - 1..i - 1 + |part|] == s[i..i + |part|];
      ContainsNowhere(s[1..], part, i - 1);
    }
  }

  /** Every string includes the empty string. */
  lemma ContainsEmpty(s: string)
    ensures Contains(s, "")
  {
  }

  /** A string that includes `a + b` includes `a`: typing more can only narrow a search. */
  lemma {:induction false} ContainsPrefixOfPart(s: string, a: string, b: string)
    requires Contains(s, a + b)
    ensures Contains(s, a)
    decreases |s|
  {
    if IsPrefix(a + b, s) {
      assert (a + b)[..|a|] == a;
      assert s[..|a|] == (a + b)[..|a|];
    } else {
      ContainsPrefixOfPart(s[1..], a, b);
    }
  }

  /** The character of one decimal digit. */
  function DigitChar(d: int): (c: char)
    requires 0 <= d < 10
    ensures '0' <= c <= '9'
    ensures (c as int) - ('0' as int) == d
  {
    (('0' as int) + d) as char
  }

  function Digits(n: nat): (s: string)
    ensures |s| > 0
    ensures forall i :: 0 <= i < |s| ==> '0' <= s[i] <= '9'
    ensures s[0] == '0' <==> n == 0
    ensures n == 0 ==> s == "0"
    decreases n
  {
    if n < 10 then [DigitChar(n)] else Digits(n / 10) + [DigitChar(n % 10)]
  }

  /** The number a string of decimal digits denotes, most significant digit first. */
  function ParseDigits(s: string): (n: nat)
    requires forall i :: 0 <= i < |s| ==> '0' <= s[i] <= '9'
    ensures s == [] ==> n == 0
    decreases |s|
  {
    if s == [] then 0 else ParseDigits(s[..|s| - 1]) * 10 + ((s[|s| - 1] as int) - ('0' as int))
  }

  /** Reading back the digits of `n` gives `n`: `Digits` is its decimal representation. */
  lemma {:induction false} DigitsRoundTrip(n: nat)
    ensures ParseDigits(Digits(n)) == n
    decreases n
  {
    var s := Digits(n);
    if n < 10 {
      assert s[..|s| - 1] == [];
    } else {
      DigitsRoundTrip(n / 10);
      assert s[..|s| - 1] == Digits(n / 10);
      assert s[|s| - 1] == DigitChar(n % 10);
    }
  }

  /** `${n}` for an integer: its digits, after a minus sign exactly when it is negative. */
  function Decimal(n: int): (r: string)
    ensures |r| > 0
    ensures r[0] == '-' <==> n < 0
    ensures n >= 0 ==> '0' <= r[0] <= '9'
    ensures n >= 0 && |r| > 1 ==> r[0] != '0'
    ensures n < 0 ==> |r| > 1 && r[1] != '0'
    ensures forall i :: 0 < i < |r| ==> '0' <= r[i] <= '9'
  {
    if n < 0 then "-" + Digits(-n) else Digits(n)
  }

  /** The integer a decimal text denotes: a leading `-` negates the digits after it. */
  function ParseDecimal(r: string): (n: int)
    requires forall i :: 0 < i < |r| ==> '0' <= r[i] <= '9'
    requires |r| > 0 && r[0] != '-' ==> '0' <= r[0] <= '9'
    ensures |r| > 0 && r[0] != '-' ==> n >= 0
  {
    if |r| > 0 && r[0] == '-' then -(ParseDigits(r[1..]) as int) else ParseDigits(r)
  }

  /** `${n}` is the decimal text of `n`: reading it back gives `n` for every integer. */
  lemma DecimalRoundTrip(n: int)
    ensures ParseDecimal(Decimal(n)) == n
  {
    if n < 0 {
      DigitsRoundTrip(-n);
      assert Decimal(n)[1..] == Digits(-n);
    } else {
      DigitsRoundTrip(n);
    }
  }

  /** `${v}` in a template literal, where a missing key reads as `undefined`. */
  function Render(v: Option<Value>): (r: string)
    ensures v == None ==> r == "undefined"
    ensures v == Some(Null) ==> r == "null"
    ensures v.Some? && v.value.Str? ==> r == v.value.s
    ensures r == "" ==> v == Some(Str(""))
  {
    match v
    case None => "undefined"
    case Some(Null) => "null"
    case Some(Str(s)) => s
    case Some(Num(n)) => Decimal(n)
  }

  /** `s.split(c)[0]`: the text before the first `c`, or all of `s` when it has none. */
  function BeforeFirst(s: string, c: char): (r: string)
    ensures IsPrefix(r, s)
    ensures c !in r
    ensures |r| < |s| ==> s[|r|] == c
  {
    if s == [] || s[0] == c then [] else [s[0]] + BeforeFirst(s[1..], c)
  }

  /** A text that includes `part` also includes it after anything is put in front. */
  lemma {:induction false} ContainsInSuffix(a: string, b: string, part: string)
    requires Contains(b, part)
    ensures Contains(a + b, part)
    decreases |a|
  {
    if a != [] {
      ContainsInSuffix(a[1..], b, part);
      assert (a + b)[1..] == a[1..] + b;
    } else {
      assert a + b == b;
    }
  }

  /** Putting text in front keeps every part a text includes. */
  lemma ContainsAfterPrefix(a: string, b: string)
    ensures forall part :: Contains(b, part) ==> Contains(a + b, part)
  {
    forall part | Contains(b, part)
      ensures Contains(a + b, part)
    {
      ContainsInSuffix(a, b, part);
    }
  }

  /** `includes` is transitive: a part of a part of `s` is a part of `s`. */
  lemma ContainsTransitive(s: string, m: string, p: string)
    requires Contains(s, m) && Contains(m, p)
    ensures Contains(s, p)
  {
    ContainsAt(s, m);
    ContainsAt(m, p);
    var i :| OccursAt(s, m, i);
    var j :| OccursAt(m, p, j);
    assert s[i + j..i + j + |p|] == p by {
      forall k | 0 <= k < |p| ensures s[i + j..i + j + |p|][k] == p[k] {
        assert p[k] == m[j + k] == s[i + j + k];
      }
    }
    assert OccursAt(s, p, i + j);
    ContainsAt(s, p);
  }

  /** Lower-casing commutes with slicing. */
  lemma LowerSlice(s: string, i: int, j: int)
    requires 0 <= i <= j <= |s|
    ensures Lower(s)[i..j] == Lower(s[i..j])
  {
    var a, b := Lower(s)[i..j], Lower(s[i..j]);
    assert |a| == |b|;
    forall k | 0 <= k < |a| ensures a[k] == b[k] {
      assert a[k] == LowerChar(s[i + k]);
      assert b[k] == LowerChar(s[i..j][k]);
    }
  }

  /** Lower-casing both sides keeps an occurrence. */
  lemma LowerKeepsContains(s: string, m: string)
    requires Contains(s, m)
    ensures Contains(Lower(s), Lower(m))
  {
    ContainsAt(s, m);
    var i :| OccursAt(s, m, i);
    LowerSlice(s, i, i + |m|);
    assert OccursAt(Lower(s), Lower(m), i);
    ContainsAt(Lower(s), Lower(m));
  }

  /** A text includes each of its prefixes. */
  lemma ContainsPrefix(a: string, b: string)
    ensures Contains(a + b, a)
  {
    assert IsPrefix(a, a + b);
  }

  /** Splitting `d + c + rest` at its first `c` gives back `d` when `d` has no `c`. */
  lemma {:induction false} BeforeFirstOfJoin(d: string, c: char, rest: string)
    requires c !in d
    ensures BeforeFirst(d + [c] + rest, c) == d
  {
    if d != [] {
      BeforeFirstOfJoin(d[1..], c, rest);
      assert (d + [c] + rest)[1..] == d[1..] + [c] + rest;
    }
  }
}
