/** String helpers with JavaScript semantics: `String(n)` for integers, the
    code-unit order that `<` and the default `Array.prototype.sort` use on
    strings, `Array.prototype.join`, `filter(Boolean)` on strings and the
    "strip every trailing character c" replacement `/c+$/`. */
module Text {

  /** The decimal digit character for 0 <= d < 10. */
  function DigitChar(d: nat): (c: char)
    requires d < 10
    ensures '0' <= c <= '9'
    ensures c as int == '0' as int + d
  {
    (48 + d) as char
  }

  /** Decimal representation of a natural number, no leading zeros (`String(n)`
      for the integers the source handles, all below 10^21). */
  function NatToString(n: nat): (s: string)
    ensures |s| >= 1
    ensures (|s| == 1) <==> n < 10
    ensures forall i :: 0 <= i < |s| ==> '0' <= s[i] <= '9'
    decreases n
  {
    if n < 10 then [DigitChar(n)] else NatToString(n / 10) + [DigitChar(n % 10)]
  }

  /** `String(n)` for an integer: a leading '-' for negative values. */
  function IntToString(n: int): (s: string)
    ensures |s| >= 1
    ensures (s[0] == '-') <==> n < 0
  {
    if n < 0 then "-" + NatToString(-n) else NatToString(n)
  }

  lemma {:induction false} NatToStringInjective(a: nat, b: nat)
    requires NatToString(a) == NatToString(b)
    ensures a == b
    decreases a
  {
    var sa, sb := NatToString(a), NatToString(b);
    if a >= 10 && b >= 10 {
      assert NatToString(a / 10) == sa[..|sa| - 1] == sb[..|sb| - 1] == NatToString(b / 10);
      NatToStringInjective(a / 10, b / 10);
      assert DigitChar(a % 10) == sa[|sa| - 1] == sb[|sb| - 1] == DigitChar(b % 10);
    } else if a < 10 && b < 10 {
      assert DigitChar(a) == sa[0] == sb[0] == DigitChar(b);
    }
  }

  /** Distinct integers have distinct decimal representations. */
  lemma IntToStringInjective(a: int, b: int)
    requires IntToString(a) == IntToString(b)
    ensures a == b
  {
    var sa, sb := IntToString(a), IntToString(b);
    if a < 0 && b < 0 {
      assert NatToString(-a) == sa[1..] == sb[1..] == NatToString(-b);
      NatToStringInjective(-a, -b);
    } else if a >= 0 && b >= 0 {
      NatToStringInjective(a, b);
    }
  }

  /** `a <= b` on strings: lexicographic comparison character by character, a
      proper prefix ordering first. */
  predicate StrLe(a: string, b: string)
  {
    |a| == 0 || (|b| != 0 && (a[0] < b[0] || (a[0] == b[0] && StrLe(a[1..], b[1..]))))
  }

  lemma {:induction false} StrLeTotal(a: string, b: string)
    ensures StrLe(a, b) || StrLe(b, a)
  {
    if |a| != 0 && |b| != 0 && a[0] == b[0] {
      StrLeTotal(a[1..], b[1..]);
    }
  }

  lemma {:induction false} StrLeTransitive(a: string, b: string, c: string)
    requires StrLe(a, b) && StrLe(b, c)
    ensures StrLe(a, c)
  {
    if |a| != 0 && a[0] == b[0] && b[0] == c[0] {
      StrLeTransitive(a[1..], b[1..], c[1..]);
    }
  }

  lemma {:induction false} StrLeAntisymmetric(a: string, b: string)
    requires StrLe(a, b) && StrLe(b, a)
    ensures a == b
  {
    if |a| != 0 {
      StrLeAntisymmetric(a[1..], b[1..]);
      assert a == [a[0]] + a[1..];
      assert b == [b[0]] + b[1..];
    }
  }

  /** Comparing two equally long strings, each extended by one character: the
      prefixes decide unless they are equal. */
  lemma {:induction false} StrLeAppendChar(x: string, y: string, c: char, d: char)
    requires |x| == |y|
    ensures StrLe(x + [c], y + [d]) <==> (StrLe(x, y) && x != y) || (x == y && c <= d)
  {
    if |x| == 0 {
      assert x + [c] == [c] && y + [d] == [d];
    } else {
      assert (x + [c])[1..] == x[1..] + [c];
      assert (y + [d])[1..] == y[1..] + [d];
      StrLeAppendChar(x[1..], y[1..], c, d);
      assert x == [x[0]] + x[1..];
      assert y == [y[0]] + y[1..];
    }
  }

  /** For naturals with the same number of digits, string order is numeric order. */
  lemma {:induction false} StringOrderIsNumericForEqualLength(a: nat, b: nat)
    requires |NatToString(a)| == |NatToString(b)|
    ensures StrLe(NatToString(a), NatToString(b)) <==> a <= b
    decreases a
  {
    if a < 10 {
      assert [DigitChar(a)][1..] == [];
    } else {
      var qa, qb := a / 10, b / 10;
      StringOrderIsNumericForEqualLength(qa, qb);
      StrLeAppendChar(NatToString(qa), NatToString(qb), DigitChar(a % 10), DigitChar(b % 10));
      if NatToString(qa) == NatToString(qb) {
        NatToStringInjective(qa, qb);
      }
      assert a == 10 * qa + a % 10 && b == 10 * qb + b % 10;
    }
  }

  /** Across digit counts string order is not numeric order: "10" sorts before "9". */
  lemma StringOrderIsNotNumeric()
    ensures StrLe(IntToString(10), IntToString(9)) && !StrLe(IntToString(9), IntToString(10))
  {
    assert NatToString(10) == NatToString(1) + [DigitChar(0)] == "10";
    assert NatToString(9) == "9";
  }

  /** `parts.join(sep)`. */
  function Join(parts: seq<string>, sep: string): string
  {
    if |parts| == 0 then "" else if |parts| == 1 then parts[0] else parts[0] + sep + Join(parts[1..], sep)
  }

  /** Joining two non-empty lists puts the first list's text, one separator and
      then the second list's text. */
  lemma {:induction false} JoinAppend(a: seq<string>, b: seq<string>, sep: string)
    requires |a| > 0 && |b| > 0
    ensures Join(a + b, sep) == Join(a, sep) + sep + Join(b, sep)
  {
    if |a| == 1 {
      assert (a + b)[1..] == b;
    } else {
      assert (a + b)[1..] == a[1..] + b;
      JoinAppend(a[1..], b, sep);
    }
  }

  /** `parts.filter(Boolean)`: the empty strings are dropped, the rest keep their order. */
  function DropEmpty(parts: seq<string>): (r: seq<string>)
    ensures forall i :: 0 <= i < |r| ==> r[i] != ""
    ensures forall x :: x in r <==> x in parts && x != ""
    ensures |r| <= |parts|
  {
    if |parts| == 0 then [] else (if parts[0] == "" then [] else [parts[0]]) + DropEmpty(parts[1..])
  }

  lemma {:induction false} DropEmptyAppend(a: seq<string>, b: seq<string>)
    ensures DropEmpty(a + b) == DropEmpty(a) + DropEmpty(b)
  {
    if |a| != 0 {
      assert (a + b)[1..] == a[1..] + b;
      DropEmptyAppend(a[1..], b);
    } else {
      assert a + b == b;
    }
  }

  /** A list without empty strings is left as it is. */
  lemma {:induction false} DropEmptyKeepsNonEmpty(parts: seq<string>)
    requires forall i :: 0 <= i < |parts| ==> parts[i] != ""
    ensures DropEmpty(parts) == parts
  {
    if |parts| != 0 {
      DropEmptyKeepsNonEmpty(parts[1..]);
      assert parts == [parts[0]] + parts[1..];
    }
  }

  /** `s.replace(/c+$/, '')`: removes the longest run of c at the end of s. */
  function StripTrailing(s: string, c: char): (r: string)
    ensures |r| <= |s|
  {
    if |s| > 0 && s[|s| - 1] == c then StripTrailing(s[..|s| - 1], c) else s
  }

  /** What `StripTrailing` leaves is a prefix of s that does not end in c, and
      everything it removed is c. */
  lemma {:induction false} StripTrailingShape(s: string, c: char)
    ensures var r := StripTrailing(s, c);
      && r == s[..|r|]
      && (|r| == 0 || r[|r| - 1] != c)
      && forall i :: |r| <= i < |s| ==> s[i] == c
    decreases |s|
  {
    if |s| > 0 && s[|s| - 1] == c {
      StripTrailingShape(s[..|s| - 1], c);
    }
  }

  /** `s.replace(/^c+/, '')`: removes the longest run of c at the start of s. */
  function DropLeading(s: string, c: char): (r: string)
    ensures |r| <= |s|
  {
    if |s| > 0 && s[0] == c then DropLeading(s[1..], c) else s
  }

  /** What `DropLeading` leaves is a suffix of s that does not start with c,
      and everything it removed is c. */
  lemma {:induction false} DropLeadingShape(s: string, c: char)
    ensures var r := DropLeading(s, c);
      && r == s[|s| - |r|..]
      && (|r| == 0 || r[0] != c)
      && forall i :: 0 <= i < |s| - |r| ==> s[i] == c
    decreases |s|
  {
    if |s| > 0 && s[0] == c {
      DropLeadingShape(s[1..], c);
    }
  }

  /** Stripping is idempotent. */
  lemma StripTrailingIdempotent(s: string, c: char)
    ensures StripTrailing(StripTrailing(s, c), c) == StripTrailing(s, c)
  {
  }

  predicate StartsWith(s: string, prefix: string)
  {
    |prefix| <= |s| && s[..|prefix|] == prefix
  }

  predicate EndsWith(s: string, suffix: string)
  {
    |suffix| <= |s| && s[|s| - |suffix|..] == suffix
  }
}
