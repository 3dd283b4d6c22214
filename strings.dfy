/**
  The parts of Rust's string library that the dispatch pipeline relies on:
  `str::trim`, `str::to_ascii_uppercase`, `str::split` with a `char` pattern,
  `[String]::join("")` and `str::parse::<u64>`.
 */
module Strings {
  import opened Base

  /** The characters with the Unicode White_Space property, which `str::trim` strips. */
  predicate IsWhitespace(c: char) {
    || ('\t' <= c <= '\r')
    || c == ' '
    || c == '\U{0085}'
    || c == '\U{00A0}'
    || c == '\U{1680}'
    || ('\U{2000}' <= c <= '\U{200A}')
    || c == '\U{2028}'
    || c == '\U{2029}'
    || c == '\U{202F}'
    || c == '\U{205F}'
    || c == '\U{3000}'
  }

  predicate AllWhitespace(s: string) {
    forall i :: 0 <= i < |s| ==> IsWhitespace(s[i])
  }

  /** `str::trim_start`: the longest suffix of `s` that does not start with whitespace. */
  function TrimStart(s: string): (r: string)
    ensures |r| <= |s| && r == s[|s| - |r|..]
    ensures forall i :: 0 <= i < |s| - |r| ==> IsWhitespace(s[i])
    ensures r == [] || !IsWhitespace(r[0])
  {
    if s != [] && IsWhitespace(s[0]) then
      var r := TrimStart(s[1..]);
      assert forall i :: 1 <= i < |s| - |r| ==> s[i] == s[1..][i - 1];
      r
    else s
  }

  /** `str::trim_end`: the longest prefix of `s` that does not end with whitespace. */
  function TrimEnd(s: string): (r: string)
    ensures |r| <= |s| && r == s[..|r|]
    ensures forall i :: |r| <= i < |s| ==> IsWhitespace(s[i])
    ensures r == [] || !IsWhitespace(r[|r| - 1])
  {
    if s != [] && IsWhitespace(s[|s| - 1]) then
      var r := TrimEnd(s[..|s| - 1]);
      assert forall i :: |r| <= i < |s| - 1 ==> s[i] == s[..|s| - 1][i];
      r
    else s
  }

  /** `str::trim`: whitespace removed from both ends. */
  function Trim(s: string): (r: string)
    ensures |r| <= |s|
    ensures r == [] || (!IsWhitespace(r[0]) && !IsWhitespace(r[|r| - 1]))
  {
    TrimStart(TrimEnd(s))
  }

  lemma TrimStartFixed(s: string)
    requires s == [] || !IsWhitespace(s[0])
    ensures TrimStart(s) == s
  {
  }

  lemma TrimEndFixed(s: string)
    requires s == [] || !IsWhitespace(s[|s| - 1])
    ensures TrimEnd(s) == s
  {
  }

  /** A string with no whitespace at either end is its own trim. */
  lemma TrimFixed(s: string)
    requires s == [] || (!IsWhitespace(s[0]) && !IsWhitespace(s[|s| - 1]))
    ensures Trim(s) == s
  {
    TrimEndFixed(s);
    TrimStartFixed(s);
  }

  /** Trimming twice is trimming once. */
  lemma TrimIdempotent(s: string)
    ensures Trim(Trim(s)) == Trim(s)
  {
    TrimFixed(Trim(s));
  }

  /** Only whitespace trims to nothing, and nothing else does. */
  lemma TrimEmptyIff(s: string)
    ensures Trim(s) == [] <==> AllWhitespace(s)
  {
  }

  /** A character that is absent from `s` is absent from its trim. */
  lemma TrimKeepsAbsent(s: string, c: char)
    requires c !in s
    ensures c !in Trim(s)
  {
  }

  /** Whitespace after `a` is trimmed away with the end of `a`. */
  lemma {:induction false} TrimEndBlankSuffix(a: string, w: string)
    requires AllWhitespace(w)
    ensures TrimEnd(a + w) == TrimEnd(a)
    decreases |w|
  {
    if w == [] {
      assert a + w == a;
    } else {
      assert (a + w)[..|a + w| - 1] == a + w[..|w| - 1];
      TrimEndBlankSuffix(a, w[..|w| - 1]);
    }
  }

  /** Whitespace before `b` is trimmed away with the start of `b`. */
  lemma {:induction false} TrimStartBlankPrefix(w: string, b: string)
    requires AllWhitespace(w)
    ensures TrimStart(w + b) == TrimStart(b)
    decreases |w|
  {
    if w == [] {
      assert w + b == b;
    } else {
      assert (w + b)[1..] == w[1..] + b;
      TrimStartBlankPrefix(w[1..], b);
    }
  }

  /** Trimming the end of `a + b` stops inside `b` when `b` holds a non-whitespace character. */
  lemma {:induction false} TrimEndKeepsPrefix(a: string, b: string)
    requires TrimEnd(b) != []
    ensures TrimEnd(a + b) == a + TrimEnd(b)
    decreases |b|
  {
    var ab := a + b;
    assert ab[|ab| - 1] == b[|b| - 1];
    if IsWhitespace(b[|b| - 1]) {
      assert ab[..|ab| - 1] == a + b[..|b| - 1];
      TrimEndStep(ab);
      TrimEndStep(b);
      TrimEndKeepsPrefix(a, b[..|b| - 1]);
    } else {
      TrimEndFixed(ab);
      TrimEndFixed(b);
    }
  }

  /** Trimming the start of `a + b` stops inside `a` when `a` holds a non-whitespace character. */
  lemma {:induction false} TrimStartKeepsSuffix(a: string, b: string)
    requires TrimStart(a) != []
    ensures TrimStart(a + b) == TrimStart(a) + b
    decreases |a|
  {
    var ab := a + b;
    assert ab[0] == a[0];
    if IsWhitespace(a[0]) {
      assert ab[1..] == a[1..] + b;
      TrimStartStep(ab);
      TrimStartStep(a);
      TrimStartKeepsSuffix(a[1..], b);
    } else {
      TrimStartFixed(ab);
      TrimStartFixed(a);
    }
  }

  /** One step of `TrimStart`: a leading whitespace character is dropped. */
  lemma TrimStartStep(s: string)
    requires s != [] && IsWhitespace(s[0])
    ensures TrimStart(s) == TrimStart(s[1..])
  {
  }

  /** One step of `TrimEnd`: a trailing whitespace character is dropped. */
  lemma TrimEndStep(s: string)
    requires s != [] && IsWhitespace(s[|s| - 1])
    ensures TrimEnd(s) == TrimEnd(s[..|s| - 1])
  {
  }

  /** Whitespace padding on either side does not change the trim. */
  lemma TrimPadded(w1: string, s: string, w2: string)
    requires AllWhitespace(w1) && AllWhitespace(w2)
    ensures Trim(w1 + s + w2) == Trim(s)
  {
    TrimEndBlankSuffix(w1 + s, w2);
    if TrimEnd(s) != [] {
      TrimEndKeepsPrefix(w1, s);
      TrimStartBlankPrefix(w1, TrimEnd(s));
    } else {
      TrimEndBlankSuffix(w1, s);
      assert w1 + [] == w1;
      TrimEndBlankSuffix([], w1);
      assert [] + w1 == w1;
    }
  }

  /** Trimming a string with a non-whitespace character `c` inside trims the two sides independently. */
  lemma TrimAroundSeparator(a: string, c: char, b: string)
    requires !IsWhitespace(c)
    ensures Trim(a + [c] + b) == TrimStart(a) + [c] + TrimEnd(b)
  {
    TrimEndThroughMark(a, c, b);
    TrimStartThroughMark(a, c, TrimEnd(b));
  }

  lemma TrimEndThroughMark(a: string, c: char, b: string)
    requires !IsWhitespace(c)
    ensures TrimEnd(a + [c] + b) == (a + [c]) + TrimEnd(b)
  {
    TrimEndAfterMark(c, b);
    TrimEndKeepsPrefix(a, [c] + b);
    Associative(a, [c], b);
    Associative(a, [c], TrimEnd(b));
  }

  lemma Associative(x: string, y: string, z: string)
    ensures x + y + z == x + (y + z)
  {
  }

  lemma TrimStartThroughMark(a: string, c: char, e: string)
    requires !IsWhitespace(c)
    ensures TrimStart((a + [c]) + e) == TrimStart(a) + [c] + e
  {
    TrimStartBeforeMark(a, c);
    TrimStartKeepsSuffix(a + [c], e);
  }

  /** Trimming the end of `[c] + b` stops at the non-whitespace `c` at the latest. */
  lemma TrimEndAfterMark(c: char, b: string)
    requires !IsWhitespace(c)
    ensures TrimEnd([c] + b) == [c] + TrimEnd(b)
  {
    if TrimEnd(b) != [] {
      TrimEndKeepsPrefix([c], b);
    } else {
      TrimEndBlankSuffix([c], b);
    }
  }

  /** Trimming the start of `a + [c]` stops at the non-whitespace `c` at the latest. */
  lemma TrimStartBeforeMark(a: string, c: char)
    requires !IsWhitespace(c)
    ensures TrimStart(a + [c]) == TrimStart(a) + [c]
  {
    if TrimStart(a) != [] {
      TrimStartKeepsSuffix(a, [c]);
    } else {
      TrimStartBlankPrefix(a, [c]);
    }
  }

  /** `char::to_ascii_uppercase` */
  function ToAsciiUpper(c: char): (u: char)
    ensures IsWhitespace(u) == IsWhitespace(c)
    ensures !('a' <= u <= 'z')
  {
    if 'a' <= c <= 'z' then (c as int - 32) as char else c
  }

  /** `a`-`z` become `A`-`Z`, letter for letter; every other character is left as it is. */
  lemma ToAsciiUpperMaps(c: char)
    ensures 'a' <= c <= 'z' ==> 'A' <= ToAsciiUpper(c) <= 'Z' && ToAsciiUpper(c) as int - 'A' as int == c as int - 'a' as int
    ensures !('a' <= c <= 'z') ==> ToAsciiUpper(c) == c
  {
  }

  /** `str::to_ascii_uppercase`: every character mapped through `ToAsciiUpper`. */
  function ToAsciiUppercase(s: string): (r: string)
    ensures |r| == |s|
  {
    seq(|s|, i requires 0 <= i < |s| => ToAsciiUpper(s[i]))
  }

  /** Each character is uppercased on its own, in place. */
  lemma UppercaseMaps(s: string)
    ensures forall i :: 0 <= i < |s| ==> ToAsciiUppercase(s)[i] == ToAsciiUpper(s[i])
  {
  }

  /** Uppercasing an uppercased string changes nothing. */
  lemma UppercaseIdempotent(s: string)
    ensures ToAsciiUppercase(ToAsciiUppercase(s)) == ToAsciiUppercase(s)
  {
  }

  lemma {:induction false} TrimStartUppercase(s: string)
    ensures TrimStart(ToAsciiUppercase(s)) == ToAsciiUppercase(TrimStart(s))
    decreases |s|
  {
    var u := ToAsciiUppercase(s);
    if s != [] && IsWhitespace(s[0]) {
      assert IsWhitespace(u[0]);
      assert u[1..] == ToAsciiUppercase(s[1..]);
      TrimStartStep(u);
      TrimStartStep(s);
      TrimStartUppercase(s[1..]);
    } else {
      TrimStartFixed(s);
      TrimStartFixed(u);
    }
  }

  lemma {:induction false} TrimEndUppercase(s: string)
    ensures TrimEnd(ToAsciiUppercase(s)) == ToAsciiUppercase(TrimEnd(s))
    decreases |s|
  {
    var u := ToAsciiUppercase(s);
    if s != [] && IsWhitespace(s[|s| - 1]) {
      assert IsWhitespace(u[|u| - 1]);
      assert u[..|u| - 1] == ToAsciiUppercase(s[..|s| - 1]);
      TrimEndStep(u);
      TrimEndStep(s);
      TrimEndUppercase(s[..|s| - 1]);
    } else {
      TrimEndFixed(s);
      TrimEndFixed(u);
    }
  }

  /** Trimming and ASCII uppercasing commute. */
  lemma TrimUppercaseCommute(s: string)
    ensures Trim(ToAsciiUppercase(s)) == ToAsciiUppercase(Trim(s))
  {
    TrimEndUppercase(s);
    TrimStartUppercase(TrimEnd(s));
  }

  /** The number of occurrences of `c` in `s`. */
  function Count(s: string, c: char): (n: nat)
    ensures n <= |s|
    ensures n == 0 <==> c !in s
  {
    if s == [] then 0
    else
      assert s == [s[0]] + s[1..];
      (if s[0] == c then 1 else 0) + Count(s[1..], c)
  }

  lemma {:induction false} CountAppend(a: string, b: string, c: char)
    ensures Count(a + b, c) == Count(a, c) + Count(b, c)
    decreases |a|
  {
    if a != [] {
      assert (a + b)[0] == a[0];
      assert (a + b)[1..] == a[1..] + b;
      CountAppend(a[1..], b, c);
    } else {
      assert a + b == b;
    }
  }

  /** Trimming removes only whitespace, so it keeps every other character's count. */
  lemma TrimKeepsCount(s: string, c: char)
    requires !IsWhitespace(c)
    ensures Count(Trim(s), c) == Count(s, c)
  {
    TrimEndKeepsCount(s, c);
    TrimStartKeepsCount(TrimEnd(s), c);
  }

  lemma TrimEndKeepsCount(s: string, c: char)
    requires !IsWhitespace(c)
    ensures Count(TrimEnd(s), c) == Count(s, c)
  {
    var e := TrimEnd(s);
    var tail := s[|e|..];
    assert s == e + tail;
    assert c !in tail by {
      assert forall i :: 0 <= i < |tail| ==> tail[i] == s[|e| + i];
    }
    CountAppend(e, tail, c);
  }

  lemma TrimStartKeepsCount(s: string, c: char)
    requires !IsWhitespace(c)
    ensures Count(TrimStart(s), c) == Count(s, c)
  {
    var r := TrimStart(s);
    var head := s[..|s| - |r|];
    assert s == head + r;
    assert c !in head by {
      assert forall i :: 0 <= i < |head| ==> head[i] == s[i];
    }
    CountAppend(head, r, c);
  }

  /**
    `str::split(sep)` collected into a vector: the maximal pieces between
    separators, always at least one (an empty string gives one empty piece).
   */
  function Split(s: string, sep: char): (parts: seq<string>)
    ensures |parts| == Count(s, sep) + 1
    ensures forall i :: 0 <= i < |parts| ==> sep !in parts[i]
  {
    if s == [] then [[]]
    else
      var rest := Split(s[1..], sep);
      if s[0] == sep then [[]] + rest
      else [[s[0]] + rest[0]] + rest[1..]
  }

  /** A string made only of separators and whitespace splits into blank pieces. */
  lemma {:induction false} SplitBlank(s: string, sep: char)
    requires forall i :: 0 <= i < |s| ==> s[i] == sep || IsWhitespace(s[i])
    ensures forall k :: 0 <= k < |Split(s, sep)| ==> AllWhitespace(Split(s, sep)[k])
    decreases |s|
  {
    if s != [] {
      SplitBlank(s[1..], sep);
    }
  }

  /** `[String]::join(sep)`: the inverse of `Split`. */
  function JoinWith(parts: seq<string>, sep: char): (s: string)
    requires |parts| >= 1
  {
    if |parts| == 1 then parts[0] else parts[0] + [sep] + JoinWith(parts[1..], sep)
  }

  /** Joining the pieces of a split with the separator gives back the string. */
  lemma {:induction false} JoinSplit(s: string, sep: char)
    ensures JoinWith(Split(s, sep), sep) == s
    decreases |s|
  {
    if s != [] {
      var rest := Split(s[1..], sep);
      JoinSplit(s[1..], sep);
      if s[0] == sep {
        SplitStepSeparator(s, sep);
        assert JoinWith([[]] + rest, sep) == [] + [sep] + JoinWith(rest, sep);
      } else {
        SplitStep(s, sep);
        JoinExtendFirst([s[0]], rest, sep);
      }
      assert [s[0]] + s[1..] == s;
    }
  }

  /** Lengthening the first piece at the front lengthens the join the same way. */
  lemma JoinExtendFirst(p: string, parts: seq<string>, sep: char)
    requires |parts| >= 1
    ensures JoinWith([p + parts[0]] + parts[1..], sep) == p + JoinWith(parts, sep)
  {
    var q := [p + parts[0]] + parts[1..];
    if |parts| > 1 {
      assert q[1..] == parts[1..];
    }
  }

  /** A string without the separator is a single piece. */
  lemma {:induction false} SplitNoSeparator(s: string, sep: char)
    requires sep !in s
    ensures Split(s, sep) == [s]
    decreases |s|
  {
    if s != [] {
      assert s[0] != sep;
      SplitNoSeparator(s[1..], sep);
      assert [s[0]] + s[1..] == s;
    }
  }

  /** Splitting distributes over a separator placed between two strings. */
  lemma {:induction false} SplitAroundSeparator(a: string, b: string, sep: char)
    ensures Split(a + [sep] + b, sep) == Split(a, sep) + Split(b, sep)
    decreases |a|
  {
    var s := a + [sep] + b;
    if a == [] {
      assert s == [sep] + b;
      SplitStepSeparator(s, sep);
      assert s[1..] == b;
    } else {
      assert s[0] == a[0];
      assert s[1..] == a[1..] + [sep] + b;
      SplitAroundSeparator(a[1..], b, sep);
      if a[0] == sep {
        SplitStepSeparator(s, sep);
        SplitStepSeparator(a, sep);
        PrependPiece([], Split(a[1..], sep), Split(b, sep));
      } else {
        SplitStep(s, sep);
        SplitStep(a, sep);
        ExtendFirstPiece([a[0]], Split(a[1..], sep), Split(b, sep));
      }
    }
  }

  lemma PrependPiece(p: string, tail: seq<string>, bs: seq<string>)
    ensures [p] + (tail + bs) == ([p] + tail) + bs
  {
  }

  lemma ExtendFirstPiece(p: string, tail: seq<string>, bs: seq<string>)
    requires |tail| >= 1
    ensures [p + (tail + bs)[0]] + (tail + bs)[1..] == ([p + tail[0]] + tail[1..]) + bs
  {
    assert (tail + bs)[1..] == tail[1..] + bs;
  }

  /** One unfolding of `Split` at a separator: an empty piece, then the rest. */
  lemma SplitStepSeparator(s: string, sep: char)
    requires s != [] && s[0] == sep
    ensures Split(s, sep) == [[]] + Split(s[1..], sep)
  {
  }

  /** One unfolding of `Split` at a non-separator, with the pieces named. */
  lemma SplitStep(s: string, sep: char)
    requires s != [] && s[0] != sep
    ensures Split(s, sep) == [[s[0]] + Split(s[1..], sep)[0]] + Split(s[1..], sep)[1..]
  {
  }

  /** Splitting a join of separator-free pieces gives back the pieces. */
  lemma {:induction false} SplitJoin(parts: seq<string>, sep: char)
    requires |parts| >= 1
    requires forall i :: 0 <= i < |parts| ==> sep !in parts[i]
    ensures Split(JoinWith(parts, sep), sep) == parts
    decreases |parts|
  {
    SplitNoSeparator(parts[0], sep);
    if |parts| > 1 {
      SplitJoin(parts[1..], sep);
      SplitAroundSeparator(parts[0], JoinWith(parts[1..], sep), sep);
    }
  }

  /** The summed lengths of `parts`. */
  function TotalLength(parts: seq<string>): nat {
    if parts == [] then 0 else |parts[0]| + TotalLength(parts[1..])
  }

  /** `[String]::join("")`: the pieces concatenated in order. */
  function Concat(parts: seq<string>): (r: string)
    ensures |r| == TotalLength(parts)
  {
    if parts == [] then [] else parts[0] + Concat(parts[1..])
  }

  /** A single piece joins to itself. */
  lemma ConcatOne(t: string)
    ensures Concat([t]) == t
  {
    assert [t][1..] == [];
  }

  lemma {:induction false} ConcatAppend(a: seq<string>, b: seq<string>)
    ensures Concat(a + b) == Concat(a) + Concat(b)
    decreases |a|
  {
    if a != [] {
      assert (a + b)[0] == a[0];
      assert (a + b)[1..] == a[1..] + b;
      ConcatAppend(a[1..], b);
    } else {
      assert a + b == b;
    }
  }

  predicate IsAsciiDigit(c: char) {
    '0' <= c <= '9'
  }

  predicate AllDigits(s: string) {
    forall i :: 0 <= i < |s| ==> IsAsciiDigit(s[i])
  }

  function DigitChar(d: nat): (c: char)
    requires d < 10
    ensures IsAsciiDigit(c)
  {
    ('0' as int + d) as char
  }

  /** The value of a string of decimal digits, most significant first. */
  function DecimalValue(ds: string): (n: nat)
    requires AllDigits(ds)
  {
    if ds == [] then 0
    else 10 * DecimalValue(ds[..|ds| - 1]) + (ds[|ds| - 1] as int - '0' as int)
  }

  /** The shortest decimal spelling of `n`. */
  function DecimalString(n: nat): (r: string)
    ensures r != [] && AllDigits(r)
    ensures n > 0 ==> r[0] != '0'
  {
    if n < 10 then [DigitChar(n)] else DecimalString(n / 10) + [DigitChar(n % 10)]
  }

  /** The digits of `DecimalString(n)` denote `n`. */
  lemma {:induction false} DecimalRoundTrip(n: nat)
    ensures DecimalValue(DecimalString(n)) == n
    decreases n
  {
    if n >= 10 {
      var p := DecimalString(n / 10);
      var r := p + [DigitChar(n % 10)];
      assert r[..|r| - 1] == p;
      DecimalRoundTrip(n / 10);
    }
  }

  /** Leading zeros do not change the value. */
  lemma {:induction false} LeadingZero(ds: string)
    requires AllDigits(ds)
    ensures DecimalValue("0" + ds) == DecimalValue(ds)
    decreases |ds|
  {
    if ds != [] {
      var z := "0" + ds;
      assert z[..|z| - 1] == "0" + ds[..|ds| - 1];
      LeadingZero(ds[..|ds| - 1]);
    }
  }

  /** The digits after an optional leading `+`, as `u64::from_str` reads them. */
  function UnsignedDigits(s: string): string {
    if s != [] && s[0] == '+' then s[1..] else s
  }

  /**
    `str::parse::<u64>`: an optional `+`, then one or more ASCII digits whose
    value fits in 64 bits; anything else (empty, a sign alone, `-`, whitespace,
    overflow) is an error.
   */
  function ParseU64(s: string): (r: Option<u64>)
    ensures r.Some? <==> (var ds := UnsignedDigits(s); ds != [] && AllDigits(ds) && DecimalValue(ds) < U64_MODULUS)
    ensures r.Some? ==> r.value == DecimalValue(UnsignedDigits(s))
  {
    var ds := UnsignedDigits(s);
    if ds != [] && AllDigits(ds) && DecimalValue(ds) < U64_MODULUS then Some(DecimalValue(ds)) else None
  }

  /** Every u64 written in decimal, with or without a `+`, parses back to itself. */
  lemma ParseU64RoundTrip(n: u64)
    ensures ParseU64(DecimalString(n)) == Some(n)
    ensures ParseU64("+" + DecimalString(n)) == Some(n)
  {
    DecimalRoundTrip(n);
    assert ("+" + DecimalString(n))[1..] == DecimalString(n);
  }

  /** A value of 2^64 or more is rejected. */
  lemma ParseU64Overflow(n: nat)
    requires n >= U64_MODULUS
    ensures ParseU64(DecimalString(n)) == None
  {
    DecimalRoundTrip(n);
  }

  /** A string with whitespace anywhere is rejected: the parse does not trim. */
  lemma ParseU64RejectsWhitespace(s: string, i: nat)
    requires i < |s| && IsWhitespace(s[i])
    ensures ParseU64(s) == None
  {
  }
}
