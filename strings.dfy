/** The part of Python's string handling the scripts rely on: `str.split`
    with a one-character separator, `str.strip()`, the `in` substring test,
    and the text-to-number conversions `int(str)` and `float(str)` of plain
    decimal texts. */
module Strings {
  import opened Results

  // ---------------------------------------------------------------- split

  /** `s.split(sep)`: the pieces between occurrences of `sep`; never empty. */
  function Split(s: string, sep: char): (parts: seq<string>)
    ensures |parts| >= 1
    ensures forall i :: 0 <= i < |parts| ==> sep !in parts[i]
    decreases |s|
  {
    if |s| == 0 then [""]
    else
      var rest := Split(s[1..], sep);
      if s[0] == sep then [""] + rest
      else [[s[0]] + rest[0]] + rest[1..]
  }

  /** `sep.join(parts)`. */
  function Join(parts: seq<string>, sep: char): string
    requires |parts| >= 1
  {
    if |parts| == 1 then parts[0] else parts[0] + [sep] + Join(parts[1..], sep)
  }

  /** Joining the pieces of a split gives back the original text. */
  lemma {:induction false} SplitJoin(s: string, sep: char)
    ensures Join(Split(s, sep), sep) == s
    decreases |s|
  {
    if |s| > 0 {
      var rest := Split(s[1..], sep);
      SplitJoin(s[1..], sep);
      assert s == [s[0]] + s[1..];
      if s[0] == sep {
        assert Split(s, sep) == [""] + rest;
        JoinCons("", rest, sep);
      } else if |rest| > 1 {
        assert Split(s, sep) == [[s[0]] + rest[0]] + rest[1..];
        JoinCons([s[0]] + rest[0], rest[1..], sep);
        assert rest == [rest[0]] + rest[1..];
        JoinCons(rest[0], rest[1..], sep);
        assert ([s[0]] + rest[0]) + [sep] + Join(rest[1..], sep) == [s[0]] + (rest[0] + [sep] + Join(rest[1..], sep));
      } else {
        assert Split(s, sep) == [[s[0]] + rest[0]];
      }
    }
  }

  /** Joining a first piece in front of at least one more puts the separator between them. */
  lemma {:induction false} JoinCons(p: string, ps: seq<string>, sep: char)
    requires |ps| >= 1
    ensures Join([p] + ps, sep) == p + [sep] + Join(ps, sep)
  {
    assert ([p] + ps)[1..] == ps;
  }

  /** A text without the separator splits into itself alone. */
  lemma {:induction false} SplitNone(a: string, sep: char)
    requires sep !in a
    ensures Split(a, sep) == [a]
    decreases |a|
  {
    if |a| > 0 {
      SplitNone(a[1..], sep);
      assert [a[0]] + a[1..] == a;
    }
  }

  /** Splitting `a + sep + b`, where `a` holds no separator, gives `a` followed by the pieces of `b`. */
  lemma {:induction false} SplitAfter(a: string, b: string, sep: char)
    requires sep !in a
    ensures Split(a + [sep] + b, sep) == [a] + Split(b, sep)
    decreases |a|
  {
    var s := a + [sep] + b;
    if |a| == 0 {
      assert s[1..] == b;
    } else {
      assert s[1..] == a[1..] + [sep] + b;
      SplitAfter(a[1..], b, sep);
      assert [a[0]] + a[1..] == a;
    }
  }

  /** The first piece of a split of `a + b`, where `a` holds no separator, is `a` followed by the first piece of `b`. */
  lemma {:induction false} SplitFirstAfter(a: string, b: string, sep: char)
    requires sep !in a
    ensures Split(a + b, sep)[0] == a + Split(b, sep)[0]
    decreases |a|
  {
    if |a| == 0 {
      assert a + b == b;
    } else {
      assert (a + b)[1..] == a[1..] + b;
      SplitFirstAfter(a[1..], b, sep);
      assert [a[0]] + (a[1..] + Split(b, sep)[0]) == a + Split(b, sep)[0];
    }
  }

  /** Splitting a join gives back the pieces, when no piece holds the separator. */
  lemma {:induction false} JoinSplit(parts: seq<string>, sep: char)
    requires |parts| >= 1
    requires forall i :: 0 <= i < |parts| ==> sep !in parts[i]
    ensures Split(Join(parts, sep), sep) == parts
    decreases |parts|
  {
    if |parts| == 1 {
      SplitNone(parts[0], sep);
    } else {
      JoinSplit(parts[1..], sep);
      SplitAfter(parts[0], Join(parts[1..], sep), sep);
      assert [parts[0]] + parts[1..] == parts;
    }
  }

  /** The last piece of a split is the text after the last separator. */
  lemma {:induction false} SplitLast(s: string, sep: char)
    ensures var parts := Split(s, sep); var last := parts[|parts| - 1];
      |last| <= |s| && s[|s| - |last|..] == last &&
      (|parts| == 1 ==> last == s) &&
      (|parts| > 1 ==> |last| < |s| && s[|s| - |last| - 1] == sep)
    decreases |s|
  {
    if |s| > 0 {
      var tail := s[1..];
      var rest := Split(tail, sep);
      SplitLast(tail, sep);
      SplitLastStep(s, sep);
      var last := rest[|rest| - 1];
      assert s[|s| - |last|..] == tail[|tail| - |last|..];
      if |rest| > 1 {
        assert s[|s| - |last| - 1] == tail[|tail| - |last| - 1];
      }
    }
  }

  /** How the last piece of a split of a non-empty text comes from the split of its tail. */
  lemma {:induction false} SplitLastStep(s: string, sep: char)
    requires |s| > 0
    ensures var rest := Split(s[1..], sep); var parts := Split(s, sep);
      (s[0] == sep ==> |parts| == |rest| + 1 && parts[|parts| - 1] == rest[|rest| - 1]) &&
      (s[0] != sep ==> |parts| == |rest| &&
                       parts[|parts| - 1] == if |rest| == 1 then [s[0]] + rest[0] else rest[|rest| - 1])
  {
    var rest := Split(s[1..], sep);
    if s[0] != sep {
      var parts := [[s[0]] + rest[0]] + rest[1..];
      assert Split(s, sep) == parts;
      if |rest| > 1 {
        assert parts[|parts| - 1] == rest[|rest| - 1];
      }
    }
  }

  /** The first piece of a split is the text before the first separator. */
  lemma {:induction false} SplitFirst(s: string, sep: char)
    ensures var parts := Split(s, sep);
      |parts[0]| <= |s| && s[..|parts[0]|] == parts[0] &&
      (|parts| > 1 <==> sep in s) &&
      (|parts| > 1 ==> |parts[0]| < |s| && s[|parts[0]|] == sep)
    decreases |s|
  {
    if |s| > 0 {
      SplitFirst(s[1..], sep);
      var rest := Split(s[1..], sep);
      if s[0] != sep {
        assert sep in s <==> sep in s[1..] by {
          assert s == [s[0]] + s[1..];
        }
      }
    }
  }

  // ---------------------------------------------------------------- strip

  /** The characters `str.strip()` removes (the ASCII ones Python counts as whitespace). */
  predicate IsSpace(c: char)
  {
    (9 <= c as int <= 13) || (28 <= c as int <= 32)
  }

  /** Text with no whitespace at either end. */
  predicate Tight(s: string)
  {
    s == [] || (!IsSpace(s[0]) && !IsSpace(s[|s| - 1]))
  }

  /** `s.lstrip()`. */
  function TrimLeft(s: string): (r: string)
    ensures |r| <= |s|
    ensures forall i :: 0 <= i < |s| - |r| ==> IsSpace(s[i])
    ensures r != [] ==> !IsSpace(r[0])
  {
    if s != [] && IsSpace(s[0]) then TrimLeft(s[1..]) else s
  }

  /** What lstrip keeps is the tail of `s` after the whitespace it drops. */
  lemma {:induction false} TrimLeftSuffix(s: string)
    ensures TrimLeft(s) == s[|s| - |TrimLeft(s)|..]
    decreases |s|
  {
    if s != [] && IsSpace(s[0]) {
      TrimLeftSuffix(s[1..]);
      var l := TrimLeft(s);
      assert s[1..][|s| - 1 - |l|..] == s[|s| - |l|..];
    }
  }

  /** `s.rstrip()`. */
  function TrimRight(s: string): (r: string)
    ensures |r| <= |s| && forall i :: 0 <= i < |r| ==> r[i] == s[i]
    ensures forall i :: |r| <= i < |s| ==> IsSpace(s[i])
    ensures r != [] ==> !IsSpace(r[|r| - 1])
  {
    if s != [] && IsSpace(s[|s| - 1]) then TrimRight(s[..|s| - 1]) else s
  }

  /** `s.strip()`: `s` without its leading and trailing whitespace. */
  function Strip(s: string): (r: string)
    ensures Tight(r)
  {
    TrimRight(TrimLeft(s))
  }

  /** What strip keeps is a slice of `s`. */
  lemma {:induction false} StripSlice(s: string)
    ensures var r := Strip(s); var i := |s| - |TrimLeft(s)|;
      i + |r| <= |s| && r == s[i..i + |r|]
  {
    var l := TrimLeft(s);
    var r := TrimRight(l);
    assert Strip(s) == r;
    var i := |s| - |l|;
    TrimLeftSuffix(s);
    assert r == l[..|r|];
  }

  /** Strip adds no character: one missing from `s` is missing from what strip keeps. */
  lemma {:induction false} StripLacks(s: string, c: char)
    requires c !in s
    ensures c !in Strip(s)
  {
    StripSlice(s);
    var r := Strip(s);
    var start := |s| - |TrimLeft(s)|;
    forall k | 0 <= k < |r| ensures r[k] != c {
      assert r[k] == s[start + k];
    }
  }

  /** Stripping text that is already tight changes nothing. */
  lemma {:induction false} StripTight(s: string)
    requires Tight(s)
    ensures Strip(s) == s
  {
    assert TrimLeft(s) == s;
    assert TrimRight(s) == s;
  }

  /** Strip is idempotent. */
  lemma {:induction false} StripIdempotent(s: string)
    ensures Strip(Strip(s)) == Strip(s)
  {
    StripTight(Strip(s));
  }

  /** Leading whitespace in front of text that starts with a non-space is what lstrip removes. */
  lemma {:induction false} TrimLeftPadded(pre: string, u: string)
    requires forall i :: 0 <= i < |pre| ==> IsSpace(pre[i])
    requires u != [] && !IsSpace(u[0])
    ensures TrimLeft(pre + u) == u
    decreases |pre|
  {
    if pre != [] {
      assert (pre + u)[0] == pre[0];
      assert (pre + u)[1..] == pre[1..] + u;
      TrimLeftPadded(pre[1..], u);
    } else {
      assert pre + u == u;
    }
  }

  /** Trailing whitespace after text that ends with a non-space is what rstrip removes. */
  lemma {:induction false} TrimRightPadded(u: string, post: string)
    requires forall i :: 0 <= i < |post| ==> IsSpace(post[i])
    requires u != [] && !IsSpace(u[|u| - 1])
    ensures TrimRight(u + post) == u
    decreases |post|
  {
    if post != [] {
      var t := u + post;
      assert t[|t| - 1] == post[|post| - 1];
      assert t[..|t| - 1] == u + post[..|post| - 1];
      TrimRightPadded(u, post[..|post| - 1]);
    } else {
      assert u + post == u;
    }
  }

  /** Whitespace padding on either side of tight text is what strip removes. */
  lemma {:induction false} StripPadded(pre: string, s: string, post: string)
    requires forall i :: 0 <= i < |pre| ==> IsSpace(pre[i])
    requires forall i :: 0 <= i < |post| ==> IsSpace(post[i])
    requires s != [] && Tight(s)
    ensures Strip(pre + s + post) == s
  {
    assert pre + s + post == pre + (s + post);
    assert (s + post)[0] == s[0];
    TrimLeftPadded(pre, s + post);
    TrimRightPadded(s, post);
  }

  // ------------------------------------------------------------ substring

  /** `sub` occurs in `s` starting at index `i`. */
  predicate OccursAt(s: string, sub: string, i: int)
  {
    0 <= i && i + |sub| <= |s| && s[i..i + |sub|] == sub
  }

  /** Python's `sub in s`. */
  predicate HasSubstring(s: string, sub: string)
  {
    exists i :: 0 <= i <= |s| - |sub| && OccursAt(s, sub, i)
  }

  /** An occurrence starts with the first character of what occurs. */
  lemma {:induction false} OccursAtStart(s: string, sub: string, i: int)
    requires OccursAt(s, sub, i) && sub != []
    ensures s[i] == sub[0]
  {
    assert s[i..i + |sub|][0] == s[i];
  }

  // ------------------------------------------------------------- numbers

  predicate IsDigit(c: char)
  {
    '0' <= c <= '9'
  }

  predicate AllDigits(s: string)
  {
    forall i :: 0 <= i < |s| ==> IsDigit(s[i])
  }

  function DigitValue(c: char): (d: nat)
    requires IsDigit(c)
    ensures d < 10
  {
    (c as int) - ('0' as int)
  }

  function DigitChar(d: nat): (c: char)
    requires d < 10
    ensures IsDigit(c) && DigitValue(c) == d
  {
    ('0' as int + d) as char
  }

  /** The value of a string of decimal digits (0 for the empty string). */
  function DigitsValue(s: string): nat
    requires AllDigits(s)
  {
    if s == [] then 0 else DigitsValue(s[..|s| - 1]) * 10 + DigitValue(s[|s| - 1])
  }

  /** The value of the digits after a decimal point: "52" is 0.52. */
  function FractionValue(s: string): (v: real)
    requires AllDigits(s)
    ensures 0.0 <= v <= 1.0
  {
    if s == [] then 0.0 else (DigitValue(s[0]) as real + FractionValue(s[1..])) / 10.0
  }

  /** The decimal notation of `n`, as Python's str() writes it. */
  function DecimalString(n: nat): (s: string)
    ensures |s| > 0 && AllDigits(s)
  {
    if n < 10 then [DigitChar(n)] else DecimalString(n / 10) + [DigitChar(n % 10)]
  }

  /** Reading back the decimal notation of `n` gives `n`. */
  lemma {:induction false} DigitsValueDecimal(n: nat)
    ensures DigitsValue(DecimalString(n)) == n
  {
    if n >= 10 {
      DigitsValueDecimal(n / 10);
      var s := DecimalString(n);
      assert s[..|s| - 1] == DecimalString(n / 10);
    }
  }

  /** A sign character or none, then the digits: the plain decimal text int() reads after stripping. */
  function SignedDigits(t: string): (r: Option<int>)
  {
    if |t| > 0 && (t[0] == '-' || t[0] == '+') then
      if |t| > 1 && AllDigits(t[1..]) then
        Some(if t[0] == '-' then -(DigitsValue(t[1..]) as int) else DigitsValue(t[1..]))
      else None
    else if |t| > 0 && AllDigits(t) then Some(DigitsValue(t))
    else None
  }

  /** `int(s)`: surrounding whitespace, an optional sign, then at least one digit. */
  function ParseInt(s: string): (r: Option<int>)
    ensures r.Some? ==> |Strip(s)| > 0
    ensures r.Some? ==> forall i :: 0 < i < |Strip(s)| ==> IsDigit(Strip(s)[i])
    ensures r.Some? ==> IsDigit(Strip(s)[0]) || Strip(s)[0] == '-' || Strip(s)[0] == '+'
    ensures r.Some? && r.value < 0 ==> Strip(s)[0] == '-'
  {
    SignedDigits(Strip(s))
  }

  /** `float(s)` for plain decimal notation: surrounding whitespace, an
      optional sign, then digits with at most one decimal point, at least one
      digit in all. */
  function ParseDecimal(s: string): (r: Option<real>)
    ensures r.Some? ==> |Strip(s)| > 0
    ensures r.Some? && r.value < 0.0 ==> Strip(s)[0] == '-'
  {
    DecimalText(Strip(s))
  }

  /** A stripped decimal: an optional sign before an unsigned decimal. */
  function DecimalText(t: string): (r: Option<real>)
  {
    if |t| > 0 && (t[0] == '-' || t[0] == '+') then
      match UnsignedDecimal(t[1..])
      case Some(v) => Some(if t[0] == '-' then -v else v)
      case None => None
    else UnsignedDecimal(t)
  }

  /** Digits, optionally split by one decimal point, at least one digit in all. */
  function UnsignedDecimal(body: string): (r: Option<real>)
    ensures r.Some? ==> |body| > 0 && r.value >= 0.0
  {
    var parts := Split(body, '.');
    if |parts| > 2 then None
    else
      var whole := parts[0];
      var frac := if |parts| == 2 then parts[1] else "";
      if AllDigits(whole) && AllDigits(frac) && |whole| + |frac| > 0 then
        Some(DigitsValue(whole) as real + FractionValue(frac))
      else None
  }

  /** int() reads back what str() writes, with or without a minus sign. */
  lemma {:induction false} ParseIntDecimal(n: nat)
    ensures ParseInt(DecimalString(n)) == Some(n)
    ensures ParseInt("-" + DecimalString(n)) == Some(-(n as int))
  {
    var s := DecimalString(n);
    DigitsValueDecimal(n);
    SignedDigitsOf(s);
    SignedDigitsOf("-" + s);
    SignedDigitsMinus(s);
  }

  /** A minus sign before digits negates their value. */
  lemma {:induction false} SignedDigitsMinus(d: string)
    requires |d| > 0 && AllDigits(d)
    ensures SignedDigits("-" + d) == Some(-(DigitsValue(d) as int))
  {
    var m := "-" + d;
    assert m[1..] == d;
  }

  /** Tight text is given to SignedDigits unchanged. */
  lemma {:induction false} SignedDigitsOf(t: string)
    requires Tight(t)
    ensures ParseInt(t) == SignedDigits(t)
  {
    StripTight(t);
  }

  /** float() reads a plain run of digits as the number it spells. */
  lemma {:induction false} DigitsDecimal(d: string)
    requires |d| > 0 && AllDigits(d)
    ensures ParseDecimal(d) == Some(DigitsValue(d) as real)
  {
    assert Tight(d) by {
      assert IsDigit(d[0]) && IsDigit(d[|d| - 1]);
    }
    StripTight(d);
    assert DecimalText(d) == UnsignedDecimal(d) by {
      assert IsDigit(d[0]);
    }
    UnsignedDigits(d);
  }

  /** An unsigned run of digits has no decimal point to split at. */
  lemma {:induction false} UnsignedDigits(d: string)
    requires |d| > 0 && AllDigits(d)
    ensures UnsignedDecimal(d) == Some(DigitsValue(d) as real)
  {
    assert '.' !in d by {
      forall i | 0 <= i < |d| ensures d[i] != '.' {
        assert IsDigit(d[i]);
      }
    }
    SplitNone(d, '.');
  }

  /** float() of empty text or a lone sign gives nothing. */
  lemma {:induction false} ParseDecimalRejectsEmpty()
    ensures ParseDecimal("") == None
    ensures ParseDecimal("-") == None
  {
    StripTight("");
    StripTight("-");
    assert "-"[1..] == "";
  }

  /** float() of a lone decimal point gives nothing: there is no digit. */
  lemma {:induction false} ParseDecimalRejectsPoint()
    ensures ParseDecimal(".") == None
  {
    StripTight(".");
    assert "." == "" + ['.'] + "";
    SplitAfter("", "", '.');
  }

  /** float() of text with two decimal points gives nothing. */
  lemma {:induction false} ParseDecimalRejectsTwoPoints()
    ensures ParseDecimal("1.2.3") == None
  {
    StripTight("1.2.3");
    assert "1.2.3" == "1" + ['.'] + "2.3";
    assert "2.3" == "2" + ['.'] + "3";
    SplitAfter("1", "2.3", '.');
    SplitAfter("2", "3", '.');
  }

  /** float("1.52") is 1.52: the whole part and the decimals are both read. */
  lemma {:induction false} ParseDecimalExample()
    ensures ParseDecimal("1.52") == Some(1.52)
  {
    assert UnsignedDecimal("1.52") == Some(1.52) by {
      assert "1.52" == "1" + ['.'] + "52";
      SplitAfter("1", "52", '.');
      SplitNone("52", '.');
      assert DigitsValue("1") == 1 by {
        assert "1"[..0] == "";
      }
      assert FractionValue("52") == 0.52 by {
        assert "52"[1..] == "2" && "2"[1..] == "";
      }
    }
    StripTight("1.52");
    assert DecimalText("1.52") == UnsignedDecimal("1.52");
  }
}
