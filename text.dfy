/**
 * The string operations of Rust's standard library that the logger relies on to build
 * and to take apart its store keys: `i64::to_string`, `str::parse::<i64>`, `str::split`,
 * `[String]::join`, `str::trim_end_matches('0')`, `starts_with`, truncating `/` on `i64`,
 * and the byte-wise order in which the store iterates its keys.
 */
module Text {
  import opened Wrappers

  // ---------------------------------------------------------------- integers

  const I64Min: int := -0x8000_0000_0000_0000
  const I64Max: int := 0x7fff_ffff_ffff_ffff

  /** The values of Rust's `i64` */
  predicate IsI64(n: int) {
    I64Min <= n <= I64Max
  }

  /** The quotient of a natural number by a positive one, as repeated subtraction */
  function NatDiv(a: nat, b: int): (q: nat)
    requires b > 0
    ensures q <= a
    ensures q * b <= a < q * b + b
    decreases a
  {
    if a < b then 0
    else
      var q := NatDiv(a - b, b);
      assert (1 + q) * b == q * b + b;
      1 + q
  }

  /** Rust's `/` on integers rounds toward zero (Dafny's rounds toward negative infinity) */
  function TruncDiv(a: int, b: int): (q: int)
    requires b > 0
    ensures a >= 0 ==> 0 <= q <= a && q * b <= a < q * b + b
    ensures a < 0 ==> a <= q <= 0 && q * b - b < a <= q * b
  {
    if a >= 0 then NatDiv(a, b)
    else
      var q: int := NatDiv(-a, b);
      assert (-q) * b == -(q * b);
      -q
  }

  // ---------------------------------------------------------------- decimal text

  predicate IsDigit(c: char) {
    '0' <= c <= '9'
  }

  predicate AllDigits(s: string) {
    forall i :: 0 <= i < |s| ==> IsDigit(s[i])
  }

  function DigitChar(d: nat): (c: char)
    requires d < 10
    ensures IsDigit(c)
  {
    (d + '0' as int) as char
  }

  function DigitValue(c: char): (d: nat)
    requires IsDigit(c)
    ensures d < 10
  {
    c as int - 48
  }

  /** The decimal digits of `n`, most significant first, with no leading zero */
  function NatToString(n: nat): (s: string)
    ensures |s| > 0 && AllDigits(s)
    decreases n
  {
    if n < 10 then [DigitChar(n)] else NatToString(n / 10) + [DigitChar(n % 10)]
  }

  /** `i64::to_string`: the decimal digits, after a '-' when negative */
  function IntToString(n: int): (s: string)
    ensures |s| > 0
    ensures forall i :: 0 <= i < |s| ==> IsDigit(s[i]) || s[i] == '-'
  {
    if n < 0 then "-" + NatToString(-n) else NatToString(n)
  }

  /** The number a string of decimal digits stands for */
  function DigitsValue(s: string): nat
    requires AllDigits(s)
  {
    if s == [] then 0 else DigitsValue(s[..|s| - 1]) * 10 + DigitValue(s[|s| - 1])
  }

  /**
   * `str::parse::<i64>()`: an optional '+' or '-', then one or more ASCII digits, with a
   * value inside the range of `i64`; anything else is an error (`None`).
   */
  function ParseI64(s: string): (r: Option<int>)
    ensures r.Some? ==> IsI64(r.value)
  {
    if |s| == 0 then None
    else
      var body := if s[0] == '-' || s[0] == '+' then s[1..] else s;
      if |body| == 0 || !AllDigits(body) then None
      else
        var v: int := if s[0] == '-' then 0 - DigitsValue(body) as int else DigitsValue(body);
        if IsI64(v) then Some(v) else None
  }

  lemma {:induction false} NatToStringValue(n: nat)
    ensures DigitsValue(NatToString(n)) == n
    decreases n
  {
    var s := NatToString(n);
    if n >= 10 {
      NatToStringValue(n / 10);
      assert s[..|s| - 1] == NatToString(n / 10);
    }
  }

  /** Every `i64` printed by `to_string` parses back to itself */
  lemma ParseIntToString(n: int)
    requires IsI64(n)
    ensures ParseI64(IntToString(n)) == Some(n)
  {
    var s := IntToString(n);
    if n < 0 {
      assert s[1..] == NatToString(-n);
      NatToStringValue(-n);
    } else {
      NatToStringValue(n);
    }
  }

  /** `to_string` is injective on `i64`: different numbers give different keys */
  lemma IntToStringInjective(a: int, b: int)
    requires IsI64(a) && IsI64(b) && IntToString(a) == IntToString(b)
    ensures a == b
  {
    ParseIntToString(a);
    ParseIntToString(b);
  }

  // ---------------------------------------------------------------- split and join

  /** The number of occurrences of `c` in `s` */
  function Count(s: string, c: char): nat {
    if s == [] then 0 else (if s[0] == c then 1 else 0) + Count(s[1..], c)
  }

  /** `str::split(sep)`: the pieces between the separators; k separators give k + 1 pieces */
  function Split(s: string, sep: char): (parts: seq<string>)
    ensures |parts| == Count(s, sep) + 1
    ensures forall i :: 0 <= i < |parts| ==> sep !in parts[i]
  {
    if |s| == 0 then [""]
    else
      var rest := Split(s[1..], sep);
      if s[0] == sep then [""] + rest
      else [[s[0]] + rest[0]] + rest[1..]
  }

  /** `[String]::join(sep)` */
  function Join(parts: seq<string>, sep: string): string {
    if |parts| == 0 then ""
    else if |parts| == 1 then parts[0]
    else parts[0] + sep + Join(parts[1..], sep)
  }

  /** Joining the pieces of a split with the separator gives back the string */
  lemma {:induction false} JoinSplit(s: string, sep: char)
    ensures Join(Split(s, sep), [sep]) == s
  {
    if |s| > 0 {
      var rest := Split(s[1..], sep);
      JoinSplit(s[1..], sep);
      if s[0] == sep {
        assert Split(s, sep) == [""] + rest;
        assert ([""] + rest)[1..] == rest;
      } else {
        var parts := [[s[0]] + rest[0]] + rest[1..];
        assert Split(s, sep) == parts;
        if |rest| == 1 {
          assert Join(rest, [sep]) == rest[0];
        } else {
          assert parts[1..] == rest[1..];
          assert Join(rest, [sep]) == rest[0] + [sep] + Join(rest[1..], [sep]);
        }
      }
    }
  }

  /** A string without the separator splits into itself alone */
  lemma {:induction false} SplitNoSep(a: string, sep: char)
    requires sep !in a
    ensures Split(a, sep) == [a]
  {
    if |a| > 0 {
      assert sep !in a[1..] by {
        forall i | 0 <= i < |a[1..]| ensures a[1..][i] != sep { assert a[1..][i] == a[i + 1]; }
      }
      SplitNoSep(a[1..], sep);
      assert [a[0]] + a[1..] == a;
    }
  }

  /** Splitting `a + sep + b`, where `a` has no separator, yields `a` and then the pieces of `b` */
  lemma {:induction false} SplitFirst(a: string, b: string, sep: char)
    requires sep !in a
    ensures Split(a + [sep] + b, sep) == [a] + Split(b, sep)
  {
    var s := a + [sep] + b;
    if |a| == 0 {
      assert s[1..] == b;
    } else {
      assert s[1..] == a[1..] + [sep] + b;
      assert sep !in a[1..] by {
        forall i | 0 <= i < |a[1..]| ensures a[1..][i] != sep { assert a[1..][i] == a[i + 1]; }
      }
      SplitFirst(a[1..], b, sep);
      assert [a[0]] + a[1..] == a;
    }
  }

  /** Splitting the join of separator-free pieces gives back the pieces */
  lemma {:induction false} SplitJoin(parts: seq<string>, sep: char)
    requires |parts| >= 1
    requires forall i :: 0 <= i < |parts| ==> sep !in parts[i]
    ensures Split(Join(parts, [sep]), sep) == parts
  {
    if |parts| == 1 {
      SplitNoSep(parts[0], sep);
    } else {
      SplitJoin(parts[1..], sep);
      SplitFirst(parts[0], Join(parts[1..], [sep]), sep);
      assert [parts[0]] + parts[1..] == parts;
    }
  }

  /** The key shape `a:b:c` splits into exactly its three colon-free pieces */
  lemma SplitThree(a: string, b: string, c: string)
    requires ':' !in a && ':' !in b && ':' !in c
    ensures Split(a + ":" + b + ":" + c, ':') == [a, b, c]
  {
    var bc := b + [':'] + c;
    assert Split(bc, ':') == [b, c] by {
      SplitNoSep(c, ':');
      SplitFirst(b, c, ':');
    }
    assert a + ":" + b + ":" + c == a + [':'] + bc;
    SplitFirst(a, bc, ':');
    assert [a] + [b, c] == [a, b, c];
  }

  /** The key shape `a:b` splits into exactly its two colon-free pieces */
  lemma SplitTwo(a: string, b: string)
    requires ':' !in a && ':' !in b
    ensures Split(a + ":" + b, ':') == [a, b]
  {
    SplitNoSep(b, ':');
    SplitFirst(a, b, ':');
  }

  /** Decimal text of a number never holds a ':' */
  lemma IntToStringNoColon(n: int)
    ensures ':' !in IntToString(n)
  {
    var s := IntToString(n);
    forall i | 0 <= i < |s| ensures s[i] != ':' {
      assert IsDigit(s[i]) || s[i] == '-';
    }
  }

  /** Joining with `sep` after appending one more piece */
  lemma {:induction false} JoinAppend(parts: seq<string>, x: string, sep: string)
    requires |parts| >= 1
    ensures Join(parts + [x], sep) == Join(parts, sep) + sep + x
  {
    if |parts| == 1 {
      assert (parts + [x])[1..] == [x];
    } else {
      assert (parts + [x])[1..] == parts[1..] + [x];
      JoinAppend(parts[1..], x, sep);
    }
  }

  // ---------------------------------------------------------------- trimming

  /** `str::trim_end_matches('0')`: the string with every trailing '0' removed */
  function TrimEndZeros(s: string): (t: string)
    ensures t <= s
    ensures |t| == 0 || t[|t| - 1] != '0'
    ensures forall i :: |t| <= i < |s| ==> s[i] == '0'
  {
    if |s| == 0 || s[|s| - 1] != '0' then s else TrimEndZeros(s[..|s| - 1])
  }

  /** The three properties of `TrimEndZeros` determine it: it is the only such prefix */
  lemma TrimEndZerosUnique(s: string, t: string)
    requires t <= s
    requires |t| == 0 || t[|t| - 1] != '0'
    requires forall i :: |t| <= i < |s| ==> s[i] == '0'
    ensures t == TrimEndZeros(s)
  {
    var u := TrimEndZeros(s);
    assert forall k :: 0 <= k < |u| ==> u[k] == s[k];
    assert forall k :: 0 <= k < |t| ==> t[k] == s[k];
    assert |u| <= |t| && |t| <= |u|;
  }

  // ---------------------------------------------------------------- order and prefixes

  predicate StartsWith(s: string, p: string) {
    |p| <= |s| && s[..|p|] == p
  }

  /** The store's key order: lexicographic by character code (a proper prefix comes first) */
  predicate Less(a: string, b: string) {
    if |b| == 0 then false
    else if |a| == 0 then true
    else if a[0] != b[0] then a[0] < b[0]
    else Less(a[1..], b[1..])
  }

  /** A string is never before a prefix of itself */
  lemma {:induction false} NotLessPrefix(s: string, p: string)
    requires StartsWith(s, p)
    ensures !Less(s, p)
  {
    if |p| > 0 {
      assert s[1..][..|p| - 1] == s[..|p|][1..];
      NotLessPrefix(s[1..], p[1..]);
    }
  }

  /** An extension of `p` whose next character is below `c` comes before `p + [c]` */
  lemma {:induction false} LessExtension(s: string, p: string, c: char)
    requires StartsWith(s, p) && |s| > |p| && s[|p|] < c
    ensures Less(s, p + [c])
  {
    if |p| > 0 {
      assert s[1..][..|p| - 1] == s[..|p|][1..];
      assert (p + [c])[1..] == p[1..] + [c];
      LessExtension(s[1..], p[1..], c);
    }
  }

  /** A string in the range from `p` up to `p + [c]` starts with `p` */
  lemma {:induction false} RangeHasPrefix(s: string, p: string, c: char)
    requires !Less(s, p) && Less(s, p + [c])
    ensures StartsWith(s, p)
  {
    if |p| > 0 {
      assert |s| > 0;
      assert (p + [c])[0] == p[0] && (p + [c])[1..] == p[1..] + [c];
      RangeHasPrefix(s[1..], p[1..], c);
    }
  }

  /** A string between two extensions of `p` starts with `p` */
  lemma {:induction false} BetweenExtensions(s: string, p: string, a: string, b: string)
    requires !Less(s, p + a) && Less(s, p + b)
    ensures StartsWith(s, p)
  {
    if |p| > 0 {
      assert (p + a)[0] == p[0] && (p + a)[1..] == p[1..] + a;
      assert (p + b)[0] == p[0] && (p + b)[1..] == p[1..] + b;
      BetweenExtensions(s[1..], p[1..], a, b);
    }
  }

  /** Two strings sharing a prefix and then differing at `i` are ordered by the character at `i` */
  lemma {:induction false} LessAtFirstDifference(a: string, b: string, i: nat)
    requires i < |a| && i < |b| && a[..i] == b[..i] && a[i] > b[i]
    ensures !Less(a, b)
  {
    if i > 0 {
      assert a[1..][..i - 1] == a[..i][1..];
      assert b[1..][..i - 1] == b[..i][1..];
      assert a[0] == a[..i][0];
      LessAtFirstDifference(a[1..], b[1..], i - 1);
    }
  }

  /** `Less` is asymmetric */
  lemma {:induction false} LessAsymmetric(a: string, b: string)
    requires Less(a, b)
    ensures !Less(b, a)
  {
    if |a| > 0 && a[0] == b[0] {
      LessAsymmetric(a[1..], b[1..]);
    }
  }

  /** The character 0x7F, which closes the ranges of several walks */
  const Del: char := 0x7F as char

  /** A proper prefix comes before the string */
  lemma {:induction false} LessProperPrefix(p: string, c: char)
    ensures Less(p, p + [c])
  {
    if |p| > 0 {
      assert (p + [c])[1..] == p[1..] + [c];
      LessProperPrefix(p[1..], c);
    }
  }

  /**
   * The range from `p` up to `p` followed by 0x7F holds exactly the strings that start with
   * `p` and continue, if at all, with a character below 0x7F.
   */
  lemma BelowDelExact(k: string, p: string)
    ensures !Less(k, p) && Less(k, p + [Del]) <==> StartsWith(k, p) && (|k| == |p| || k[|p|] < Del)
  {
    if !Less(k, p) && Less(k, p + [Del]) {
      RangeHasPrefix(k, p, Del);
      if |k| > |p| && k[|p|] >= Del {
        assert k[..|p|] == (p + [Del])[..|p|];
        if k[|p|] == Del {
          assert StartsWith(k, p + [Del]);
          NotLessPrefix(k, p + [Del]);
        } else {
          LessAtFirstDifference(k, p + [Del], |p|);
        }
      }
    } else if StartsWith(k, p) {
      NotLessPrefix(k, p);
      if |k| == |p| {
        assert k == p;
        LessProperPrefix(p, Del);
      } else if k[|p|] < Del {
        LessExtension(k, p, Del);
      }
    }
  }

  /** `Less` is irreflexive */
  lemma {:induction false} LessIrreflexive(a: string)
    ensures !Less(a, a)
  {
    if |a| > 0 {
      LessIrreflexive(a[1..]);
    }
  }
}
