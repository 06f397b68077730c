/**
  String primitives the ledger relies on, written the way JavaScript evaluates them:
  ASCII case mapping, `String.prototype.trim`, case-insensitive substring search
  (a `$regex` query with the `i` option), `split(' ')`, decimal digits, `padStart`,
  and the code-unit ordering used to sort strings.
 */
module Text {
  import opened Wrappers

  // ---------------------------------------------------------------- characters

  predicate IsDigit(c: char)
  {
    '0' <= c <= '9'
  }

  predicate IsUpperLetter(c: char)
  {
    'A' <= c <= 'Z'
  }

  predicate IsLowerLetter(c: char)
  {
    'a' <= c <= 'z'
  }

  predicate AllDigits(s: string)
  {
    forall i :: 0 <= i < |s| ==> IsDigit(s[i])
  }

  /** The characters `String.prototype.trim` removes: WhiteSpace and LineTerminator. */
  predicate IsJsSpace(c: char)
  {
    || c == ' ' || c == '\t' || c == '\n' || c == '\r'
    || c == '\U{000B}' || c == '\U{000C}' || c == '\U{00A0}' || c == '\U{1680}'
    || ('\U{2000}' <= c <= '\U{200A}')
    || c == '\U{2028}' || c == '\U{2029}' || c == '\U{202F}' || c == '\U{205F}'
    || c == '\U{3000}' || c == '\U{FEFF}'
  }

  // ---------------------------------------------------------------- case mapping

  /** Upper-cases an ASCII letter; every other character is returned unchanged. */
  function UpperChar(c: char): (u: char)
    ensures IsLowerLetter(c) ==> IsUpperLetter(u) && u as int == c as int - 32
    ensures !IsLowerLetter(c) ==> u == c
  {
    if IsLowerLetter(c) then (c as int - 32) as char else c
  }

  /** Lower-cases an ASCII letter; every other character is returned unchanged. */
  function LowerChar(c: char): (l: char)
    ensures IsUpperLetter(c) ==> IsLowerLetter(l) && l as int == c as int + 32
    ensures !IsUpperLetter(c) ==> l == c
  {
    if IsUpperLetter(c) then (c as int + 32) as char else c
  }

  function Upper(s: string): (u: string)
    ensures |u| == |s|
    ensures forall i :: 0 <= i < |s| ==> u[i] == UpperChar(s[i])
  {
    seq(|s|, i requires 0 <= i < |s| => UpperChar(s[i]))
  }

  function Lower(s: string): (l: string)
    ensures |l| == |s|
    ensures forall i :: 0 <= i < |s| ==> l[i] == LowerChar(s[i])
  {
    seq(|s|, i requires 0 <= i < |s| => LowerChar(s[i]))
  }

  /** `s.charAt(0).toUpperCase() + s.slice(1)`: the first character upper-cased, the rest kept. */
  function Capitalize(s: string): (r: string)
    ensures |r| == |s|
    ensures s != "" ==> r[0] == UpperChar(s[0]) && r[1..] == s[1..]
  {
    if s == "" then "" else Upper(s[..1]) + s[1..]
  }

  lemma {:induction false} UpperIdempotent(s: string)
    ensures Upper(Upper(s)) == Upper(s)
  {
  }

  /** Lower-casing first does not change what upper-casing gives: letters differ only in case. */
  lemma {:induction false} UpperOfLower(s: string)
    ensures Upper(Lower(s)) == Upper(s)
  {
  }

  lemma {:induction false} LowerIdempotent(s: string)
    ensures Lower(Lower(s)) == Lower(s)
  {
  }

  // ---------------------------------------------------------------- trim

  /** Number of leading characters `trim` removes. */
  function LeadingSpaces(s: string): (k: nat)
    ensures k <= |s|
    ensures forall i :: 0 <= i < k ==> IsJsSpace(s[i])
    ensures k < |s| ==> !IsJsSpace(s[k])
  {
    if |s| == 0 || !IsJsSpace(s[0]) then 0 else 1 + LeadingSpaces(s[1..])
  }

  /** Number of trailing characters `trim` removes. */
  function TrailingSpaces(s: string): (k: nat)
    ensures k <= |s|
    ensures forall i :: |s| - k <= i < |s| ==> IsJsSpace(s[i])
    ensures k < |s| ==> !IsJsSpace(s[|s| - k - 1])
  {
    if |s| == 0 || !IsJsSpace(s[|s| - 1]) then 0 else 1 + TrailingSpaces(s[..|s| - 1])
  }

  /** Any count with the three properties of `LeadingSpaces` is `LeadingSpaces`. */
  lemma {:induction false} LeadingSpacesUnique(s: string, k: nat)
    requires k <= |s|
    requires forall i :: 0 <= i < k ==> IsJsSpace(s[i])
    requires k < |s| ==> !IsJsSpace(s[k])
    ensures LeadingSpaces(s) == k
  {
  }

  lemma {:induction false} TrailingSpacesUnique(s: string, k: nat)
    requires k <= |s|
    requires forall i :: |s| - k <= i < |s| ==> IsJsSpace(s[i])
    requires k < |s| ==> !IsJsSpace(s[|s| - k - 1])
    ensures TrailingSpaces(s) == k
  {
  }

  /** `String.prototype.trim`: the longest middle part without surrounding white space. */
  function Trim(s: string): (r: string)
    ensures |r| <= |s|
  {
    var a := LeadingSpaces(s);
    if a == |s| then ""
    else
      var e := |s| - TrailingSpaces(s);
      assert a < e by {
        assert !IsJsSpace(s[a]);
      }
      s[a..e]
  }

  /** The trimmed text neither starts nor ends with white space. */
  lemma {:induction false} TrimmedEdges(s: string)
    ensures var r := Trim(s); |r| > 0 ==> !IsJsSpace(r[0]) && !IsJsSpace(r[|r| - 1])
  {
  }

  /** Trimming keeps every visible character: only all-blank text trims to nothing. */
  lemma {:induction false} TrimEmptyIff(s: string)
    ensures Trim(s) == "" <==> forall i :: 0 <= i < |s| ==> IsJsSpace(s[i])
  {
    if LeadingSpaces(s) < |s| {
      assert !IsJsSpace(s[LeadingSpaces(s)]);
    }
  }

  /** A string without surrounding white space is its own trim. */
  lemma {:induction false} TrimOfTrimmed(s: string)
    requires |s| > 0 ==> !IsJsSpace(s[0]) && !IsJsSpace(s[|s| - 1])
    ensures Trim(s) == s
  {
    LeadingSpacesUnique(s, 0);
    TrailingSpacesUnique(s, 0);
  }

  lemma {:induction false} TrimIdempotent(s: string)
    ensures Trim(Trim(s)) == Trim(s)
  {
    TrimmedEdges(s);
    TrimOfTrimmed(Trim(s));
  }

  lemma {:induction false} UpperSlice(s: string, a: nat, e: nat)
    requires a <= e <= |s|
    ensures Upper(s[a..e]) == Upper(s)[a..e]
  {
  }

  lemma {:induction false} LowerSlice(s: string, a: nat, e: nat)
    requires a <= e <= |s|
    ensures Lower(s[a..e]) == Lower(s)[a..e]
  {
  }

  lemma {:induction false} CharCaseKeepsSpace(c: char)
    ensures IsJsSpace(UpperChar(c)) <==> IsJsSpace(c)
    ensures IsJsSpace(LowerChar(c)) <==> IsJsSpace(c)
  {
  }

  lemma {:induction false} UpperKeepsTrimBounds(s: string)
    ensures LeadingSpaces(Upper(s)) == LeadingSpaces(s)
    ensures TrailingSpaces(Upper(s)) == TrailingSpaces(s)
    decreases |s|
  {
    if |s| > 0 {
      var u := Upper(s);
      CharCaseKeepsSpace(s[0]);
      CharCaseKeepsSpace(s[|s| - 1]);
      assert u[1..] == Upper(s[1..]);
      assert u[..|u| - 1] == Upper(s[..|s| - 1]);
      UpperKeepsTrimBounds(s[1..]);
      UpperKeepsTrimBounds(s[..|s| - 1]);
    }
  }

  lemma {:induction false} LowerKeepsTrimBounds(s: string)
    ensures LeadingSpaces(Lower(s)) == LeadingSpaces(s)
    ensures TrailingSpaces(Lower(s)) == TrailingSpaces(s)
    decreases |s|
  {
    if |s| > 0 {
      var l := Lower(s);
      CharCaseKeepsSpace(s[0]);
      CharCaseKeepsSpace(s[|s| - 1]);
      assert l[1..] == Lower(s[1..]);
      assert l[..|l| - 1] == Lower(s[..|s| - 1]);
      LowerKeepsTrimBounds(s[1..]);
      LowerKeepsTrimBounds(s[..|s| - 1]);
    }
  }

  /** Mongoose applies `trim` and `uppercase` setters in either order with the same outcome. */
  lemma {:induction false} UpperTrimCommute(s: string)
    ensures Upper(Trim(s)) == Trim(Upper(s))
  {
    var t := Upper(s);
    UpperKeepsTrimBounds(s);
    var a, b := LeadingSpaces(s), TrailingSpaces(s);
    if a < |s| {
      var e := |s| - b;
      UpperSlice(s, a, e);
      assert Trim(s) == s[a..e];
      assert Trim(t) == t[a..e];
    } else {
      assert Trim(s) == [] && Trim(t) == [];
    }
  }

  /** The same for the `trim` and `lowercase` setters. */
  lemma {:induction false} LowerTrimCommute(s: string)
    ensures Lower(Trim(s)) == Trim(Lower(s))
  {
    var t := Lower(s);
    LowerKeepsTrimBounds(s);
    var a, b := LeadingSpaces(s), TrailingSpaces(s);
    if a < |s| {
      var e := |s| - b;
      LowerSlice(s, a, e);
      calc {
        Lower(Trim(s));
        { assert Trim(s) == s[a..e]; }
        Lower(s[a..e]);
        t[a..e];
        { assert LeadingSpaces(t) == a && |t| - TrailingSpaces(t) == e; }
        Trim(t);
      }
    } else {
      assert Trim(s) == [] && Trim(t) == [];
      assert |Lower(Trim(s))| == 0;
    }
  }

  // ---------------------------------------------------------------- substring search

  /** True when `needle` occurs somewhere in `hay` (the empty needle occurs everywhere). */
  function Contains(hay: string, needle: string): bool
    decreases |hay|
  {
    needle <= hay || (|hay| > 0 && Contains(hay[1..], needle))
  }

  /** `Contains` agrees with the positional definition of a substring. */
  lemma {:induction false} ContainsIff(hay: string, needle: string)
    ensures Contains(hay, needle) <==> exists i :: 0 <= i <= |hay| && needle <= hay[i..]
    decreases |hay|
  {
    assert hay[0..] == hay;
    if |hay| > 0 {
      ContainsIff(hay[1..], needle);
      forall i | 1 <= i <= |hay|
        ensures hay[1..][i - 1..] == hay[i..]
      {
      }
      if Contains(hay[1..], needle) {
        var j :| 0 <= j <= |hay[1..]| && needle <= hay[1..][j..];
        assert needle <= hay[j + 1..];
      }
    }
  }

  /**
    A case-insensitive `$regex` query with an unescaped pattern, restricted to patterns
    without metacharacters: the field contains the argument, ignoring ASCII case.
   */
  predicate ContainsIgnoringCase(field: string, pattern: string)
  {
    Contains(Upper(field), Upper(pattern))
  }

  /** A text holds whatever a piece of it starts with. */
  lemma {:induction false} ContainsInPiece(a: string, b: string, c: string, d: string, needle: string)
    requires needle <= b
    ensures Contains(a + b + c + d, needle)
  {
    var hay := a + b + c + d;
    assert hay[|a|..] == b + c + d;
    ContainsIff(hay, needle);
  }

  lemma {:induction false} ContainsSelf(s: string)
    ensures Contains(s, s)
  {
  }

  lemma {:induction false} ContainsIgnoringCaseSelf(field: string, pattern: string)
    requires Upper(field) == Upper(pattern)
    ensures ContainsIgnoringCase(field, pattern)
  {
  }

  /** A prefix of a string, in any letter case, is found by a case-insensitive search. */
  lemma {:induction false} PrefixFoundIgnoringCase(field: string, pattern: string)
    requires |pattern| <= |field|
    requires Upper(pattern) == Upper(field[..|pattern|])
    ensures ContainsIgnoringCase(field, pattern)
  {
    assert Upper(pattern) <= Upper(field);
  }

  // ---------------------------------------------------------------- split and join

  /** Position of the first `c` in `s`, or `|s|` when there is none. */
  function IndexOf(s: string, c: char): (i: nat)
    ensures i <= |s|
    ensures i < |s| ==> s[i] == c
    ensures forall j :: 0 <= j < i ==> s[j] != c
  {
    if |s| == 0 || s[0] == c then 0 else 1 + IndexOf(s[1..], c)
  }

  lemma {:induction false} IndexOfUnique(s: string, c: char, i: nat)
    requires i <= |s|
    requires i < |s| ==> s[i] == c
    requires forall j :: 0 <= j < i ==> s[j] != c
    ensures IndexOf(s, c) == i
  {
  }

  /** `s.split(sep)`: the maximal separator-free pieces, empty pieces included. */
  function Split(s: string, sep: char): (parts: seq<string>)
    ensures |parts| >= 1
    decreases |s|
  {
    var i := IndexOf(s, sep);
    if i == |s| then [s] else [s[..i]] + Split(s[i + 1..], sep)
  }

  /** `parts.join(sep)`. */
  function Join(parts: seq<string>, sep: char): string
    requires |parts| >= 1
    decreases |parts|
  {
    if |parts| == 1 then parts[0] else parts[0] + [sep] + Join(parts[1..], sep)
  }

  /** Splitting and joining again gives back the original string. */
  lemma {:induction false} JoinSplit(s: string, sep: char)
    ensures Join(Split(s, sep), sep) == s
    decreases |s|
  {
    var i := IndexOf(s, sep);
    if i < |s| {
      var head, tail := s[..i], s[i + 1..];
      var rest := Split(tail, sep);
      var parts := Split(s, sep);
      assert parts == [head] + rest;
      assert |parts| > 1 && parts[0] == head && parts[1..] == rest;
      JoinSplit(tail, sep);
      assert Join(parts, sep) == head + [sep] + Join(rest, sep);
      assert s == head + [sep] + tail;
    }
  }

  /** Splitting `a + sep + b` splits `a` and `b` independently. */
  lemma {:induction false} SplitAround(a: string, b: string, sep: char)
    ensures Split(a + [sep] + b, sep) == Split(a, sep) + Split(b, sep)
    decreases |a|
  {
    var s := a + [sep] + b;
    var i := IndexOf(a, sep);
    IndexOfUnique(s, sep, i);
    if i == |a| {
      assert s[..i] == a && s[i + 1..] == b;
    } else {
      assert s[..i] == a[..i];
      assert s[i + 1..] == a[i + 1..] + [sep] + b;
      SplitAround(a[i + 1..], b, sep);
    }
  }

  /** A string without the separator is a single piece. */
  lemma {:induction false} SplitNoSeparator(s: string, sep: char)
    requires sep !in s
    ensures Split(s, sep) == [s]
  {
    IndexOfUnique(s, sep, |s|);
  }

  // ---------------------------------------------------------------- decimal digits

  /** The value of a decimal digit; other characters count as zero. */
  function DigitValue(c: char): nat
  {
    if IsDigit(c) then c as int - '0' as int else 0
  }

  function DigitChar(d: nat): (c: char)
    requires d < 10
    ensures IsDigit(c) && DigitValue(c) == d
  {
    ('0' as int + d) as char
  }

  /** The number an all-digit string denotes in base 10; leading zeros contribute nothing. */
  function DigitsValue(s: string): nat
  {
    if |s| == 0 then 0 else 10 * DigitsValue(s[..|s| - 1]) + DigitValue(s[|s| - 1])
  }

  function Pow10(n: nat): (p: nat)
    ensures p >= 1
  {
    if n == 0 then 1 else 10 * Pow10(n - 1)
  }

  /** An `n`-digit string denotes a number below `10^n`. */
  lemma {:induction false} DigitsValueBound(s: string)
    requires AllDigits(s)
    ensures DigitsValue(s) < Pow10(|s|)
  {
    if |s| > 0 {
      DigitsValueBound(s[..|s| - 1]);
    }
  }

  /** Reading a digit string from the left: the first digit weighs `10^(n-1)`. */
  lemma {:induction false} DigitsValueFromLeft(s: string)
    requires |s| > 0 && AllDigits(s)
    ensures DigitsValue(s) == DigitValue(s[0]) * Pow10(|s| - 1) + DigitsValue(s[1..])
  {
    if |s| > 1 {
      var n := |s|;
      var init, tail := s[..n - 1], s[1..];
      var last := DigitValue(s[n - 1]);
      var d, p := DigitValue(s[0]), Pow10(n - 2);
      DigitsValueFromLeft(init);
      assert init[0] == s[0];
      assert init[1..] == tail[..|tail| - 1];
      var mid := DigitsValue(init[1..]);
      assert DigitsValue(init) == d * p + mid;
      assert DigitsValue(tail) == 10 * mid + last;
      assert DigitsValue(s) == 10 * (d * p + mid) + last;
      ScaleByTen(d, p);
    }
  }

  lemma {:induction false} ScaleByTen(d: nat, p: nat)
    ensures 10 * (d * p) == d * (10 * p)
  {
  }

  lemma {:induction false} ZerosThenDigits(z: nat, s: string)
    requires AllDigits(s)
    ensures AllDigits(Repeat('0', z) + s)
  {
  }

  /** Zeros on the left do not change the value of a digit string. */
  lemma {:induction false} LeadingZerosValue(z: nat, s: string)
    requires AllDigits(s)
    ensures AllDigits(Repeat('0', z) + s)
    ensures DigitsValue(Repeat('0', z) + s) == DigitsValue(s)
  {
    ZerosThenDigits(z, s);
    if z == 0 {
      assert Repeat('0', z) + s == s;
    } else {
      var t := Repeat('0', z) + s;
      var t' := Repeat('0', z - 1) + s;
      LeadingZerosValue(z - 1, s);
      assert t[0] == '0' && t[1..] == t';
      DigitsValueFromLeft(t);
    }
  }

  /** The decimal rendering of a natural number, as `Number.prototype.toString()` writes it. */
  function NatToString(n: nat): (s: string)
    ensures |s| >= 1 && AllDigits(s)
    ensures DigitsValue(s) == n
    ensures |s| > 1 ==> s[0] != '0'
  {
    if n < 10 then [DigitChar(n)]
    else
      var init := NatToString(n / 10);
      var s := init + [DigitChar(n % 10)];
      assert s[..|s| - 1] == init;
      s
  }

  // ---------------------------------------------------------------- trailing digits

  /** Length of the maximal run of digits at the end of `s` (what `/\d+$/` matches). */
  function TrailingDigitCount(s: string): (k: nat)
    ensures k <= |s|
    ensures forall i :: |s| - k <= i < |s| ==> IsDigit(s[i])
    ensures k < |s| ==> !IsDigit(s[|s| - k - 1])
  {
    if |s| == 0 || !IsDigit(s[|s| - 1]) then 0 else 1 + TrailingDigitCount(s[..|s| - 1])
  }

  /** Any count with the three properties of `TrailingDigitCount` is `TrailingDigitCount`. */
  lemma {:induction false} TrailingDigitCountUnique(s: string, k: nat)
    requires k <= |s|
    requires forall i :: |s| - k <= i < |s| ==> IsDigit(s[i])
    requires k < |s| ==> !IsDigit(s[|s| - k - 1])
    ensures TrailingDigitCount(s) == k
  {
  }

  /** `parseInt(s.match(/\d+$/)[0])`, or `None` when `s` does not end in a digit. */
  function TrailingNumber(s: string): (r: Option<nat>)
    ensures r.None? <==> (|s| == 0 || !IsDigit(s[|s| - 1]))
  {
    var k := TrailingDigitCount(s);
    if k == 0 then None
    else
      assert AllDigits(s[|s| - k..]);
      Some(DigitsValue(s[|s| - k..]))
  }

  /** An all-digit tail after a non-digit (or after nothing) is exactly the trailing run. */
  lemma {:induction false} TrailingNumberOfSuffix(prefix: string, digits: string)
    requires |digits| > 0 && AllDigits(digits)
    requires |prefix| > 0 ==> !IsDigit(prefix[|prefix| - 1])
    ensures TrailingNumber(prefix + digits) == Some(DigitsValue(digits))
  {
    var s := prefix + digits;
    var k := |digits|;
    assert s[|s| - k..] == digits;
    TrailingDigitCountUnique(s, k);
  }

  // ---------------------------------------------------------------- padding

  function Repeat(c: char, n: nat): (r: string)
    ensures |r| == n
    ensures forall i :: 0 <= i < n ==> r[i] == c
  {
    if n == 0 then [] else [c] + Repeat(c, n - 1)
  }

  /** `s.padStart(width, c)`: never truncates, fills on the left up to `width`. */
  function PadStart(s: string, width: nat, c: char): (r: string)
    ensures |r| == if |s| >= width then |s| else width
    ensures r[|r| - |s|..] == s
    ensures forall i :: 0 <= i < |r| - |s| ==> r[i] == c
  {
    if |s| >= width then s else Repeat(c, width - |s|) + s
  }

  /** A zero-padded rendering still denotes the same number. */
  lemma {:induction false} PaddedValue(n: nat, width: nat)
    ensures AllDigits(PadStart(NatToString(n), width, '0'))
    ensures DigitsValue(PadStart(NatToString(n), width, '0')) == n
  {
    var s := NatToString(n);
    if |s| < width {
      assert PadStart(s, width, '0') == Repeat('0', width - |s|) + s;
      LeadingZerosValue(width - |s|, s);
    } else {
      assert PadStart(s, width, '0') == s;
    }
  }

  /** Padding to a fixed width is one-to-one on numbers. */
  lemma {:induction false} PaddedInjective(m: nat, n: nat, width: nat)
    requires PadStart(NatToString(m), width, '0') == PadStart(NatToString(n), width, '0')
    ensures m == n
  {
    PaddedValue(m, width);
    PaddedValue(n, width);
  }

  /** A number below `10^width` pads to exactly `width` characters. */
  lemma {:induction false} NatToStringLength(n: nat, width: nat)
    requires width >= 1 && n < Pow10(width)
    ensures |NatToString(n)| <= width
  {
    var s := NatToString(n);
    if |s| > width {
      DigitsValueFromLeft(s);
      PowMonotone(width, |s| - 1);
      AtLeastOnce(DigitValue(s[0]), Pow10(|s| - 1));
    }
  }

  lemma {:induction false} AtLeastOnce(a: nat, b: nat)
    requires a >= 1
    ensures a * b >= b
  {
    MulDistributes(1, a - 1, b);
    MulNonNegative(a - 1, b);
  }

  lemma {:induction false} PowMonotone(a: nat, b: nat)
    requires a <= b
    ensures Pow10(a) <= Pow10(b)
  {
    if a < b {
      PowMonotone(a, b - 1);
    }
  }

  // ---------------------------------------------------------------- ordering

  /**
    `a <= b` in code-unit order, the order JavaScript's `<` and a MongoDB sort on a string
    field use for these strings: the first differing character decides, a prefix comes first.
   */
  predicate LexLe(a: string, b: string)
    decreases |a|
  {
    |a| == 0 || (|b| > 0 && (a[0] < b[0] || (a[0] == b[0] && LexLe(a[1..], b[1..]))))
  }

  lemma {:induction false} LexLeTotal(a: string, b: string)
    ensures LexLe(a, b) || LexLe(b, a)
    decreases |a|
  {
    if |a| > 0 && |b| > 0 && a[0] == b[0] {
      LexLeTotal(a[1..], b[1..]);
    }
  }

  lemma {:induction false} LexLeAntisymmetric(a: string, b: string)
    requires LexLe(a, b) && LexLe(b, a)
    ensures a == b
    decreases |a|
  {
    if |a| > 0 {
      LexLeAntisymmetric(a[1..], b[1..]);
      assert a == [a[0]] + a[1..];
      assert b == [b[0]] + b[1..];
    }
  }

  lemma {:induction false} LexLeTransitive(a: string, b: string, c: string)
    requires LexLe(a, b) && LexLe(b, c)
    ensures LexLe(a, c)
    decreases |a|
  {
    if |a| > 0 && a[0] == b[0] && b[0] == c[0] {
      LexLeTransitive(a[1..], b[1..], c[1..]);
    }
  }

  /** Prefixing the same text to both sides does not change the order. */
  lemma {:induction false} LexLeCommonPrefix(p: string, a: string, b: string)
    ensures LexLe(p + a, p + b) <==> LexLe(a, b)
    decreases |p|
  {
    if |p| > 0 {
      assert (p + a)[1..] == p[1..] + a;
      assert (p + b)[1..] == p[1..] + b;
      LexLeCommonPrefix(p[1..], a, b);
    } else {
      assert p + a == a;
      assert p + b == b;
    }
  }

  /** A larger leading digit outweighs any difference in the remaining digits. */
  lemma {:induction false} LeadingDigitDominates(da: nat, db: nat, p: nat, ra: nat, rb: nat)
    requires da < db && ra < p && rb < p
    ensures da * p + ra < db * p + rb
  {
    var d := db - da - 1;
    MulDistributes(da, d, p);
    assert db * p == da * p + p + d * p by {
      MulDistributes(da + 1, d, p);
      MulDistributes(da, 1, p);
    }
    MulNonNegative(d, p);
  }

  lemma {:induction false} MulDistributes(a: nat, b: nat, p: nat)
    ensures (a + b) * p == a * p + b * p
  {
  }

  lemma {:induction false} MulNonNegative(a: nat, b: nat)
    ensures a * b >= 0
  {
  }

  /** Among digit strings of one length, code-unit order is numeric order. */
  lemma {:induction false} LexLeDigits(a: string, b: string)
    requires |a| == |b| && AllDigits(a) && AllDigits(b)
    ensures LexLe(a, b) <==> DigitsValue(a) <= DigitsValue(b)
    decreases |a|
  {
    if |a| > 0 {
      DigitsValueFromLeft(a);
      DigitsValueFromLeft(b);
      var ta, tb := a[1..], b[1..];
      DigitsValueBound(ta);
      DigitsValueBound(tb);
      var p := Pow10(|a| - 1);
      var da, db := DigitValue(a[0]), DigitValue(b[0]);
      if da < db {
        LeadingDigitDominates(da, db, p, DigitsValue(ta), DigitsValue(tb));
      } else if db < da {
        LeadingDigitDominates(db, da, p, DigitsValue(tb), DigitsValue(ta));
      } else {
        assert a[0] == b[0];
        LexLeDigits(ta, tb);
      }
    }
  }
}
