/**
  The fixed-shape regular expressions of the master-data schemas (PIN code, GST number,
  PAN number, contact number) and the e-mail pattern, each as a matcher over the text the
  schema's setters produce, together with a direct statement of the language it accepts.
 */
module Patterns {
  import opened Text

  // ---------------------------------------------------------------- character classes

  /** A bracket expression such as `[1-9A-Z]`: a list of inclusive ranges. */
  type CharClass = seq<(char, char)>

  predicate InClass(c: char, cls: CharClass)
  {
    exists r :: r in cls && r.0 <= c <= r.1
  }

  const Digit: CharClass := [('0', '9')]
  const NonZeroDigit: CharClass := [('1', '9')]
  const SixToNine: CharClass := [('6', '9')]
  const Letter: CharClass := [('A', 'Z')]
  const NonZeroOrLetter: CharClass := [('1', '9'), ('A', 'Z')]
  const DigitOrLetter: CharClass := [('0', '9'), ('A', 'Z')]
  const LetterZ: CharClass := [('Z', 'Z')]

  /** An anchored pattern `^c1c2...cn$` in which every position is one class. */
  type Shape = seq<CharClass>

  /** `cls{n}` */
  function Times(cls: CharClass, n: nat): (sh: Shape)
    ensures |sh| == n
    ensures forall i :: 0 <= i < n ==> sh[i] == cls
  {
    if n == 0 then [] else [cls] + Times(cls, n - 1)
  }

  /** `regex.test(s)` for an anchored fixed-width pattern. */
  predicate Matches(sh: Shape, s: string)
  {
    |s| == |sh| && forall i :: 0 <= i < |s| ==> InClass(s[i], sh[i])
  }

  lemma {:induction false} DigitClass(c: char)
    ensures InClass(c, Digit) <==> IsDigit(c)
  {
    if IsDigit(c) {
      assert ('0', '9') in Digit;
    }
  }

  lemma {:induction false} LetterClass(c: char)
    ensures InClass(c, Letter) <==> IsUpperLetter(c)
  {
    if IsUpperLetter(c) {
      assert ('A', 'Z') in Letter;
    }
  }

  lemma {:induction false} DigitAndLetterClass(c: char)
    ensures InClass(c, Digit) <==> IsDigit(c)
    ensures InClass(c, Letter) <==> IsUpperLetter(c)
  {
    DigitClass(c);
    LetterClass(c);
  }

  // ---------------------------------------------------------------- PIN code

  /** `/^[1-9][0-9]{5}$/` */
  const PinShape: Shape := [NonZeroDigit] + Times(Digit, 5)

  /** Six digits, the first of them not zero. */
  predicate IsPinCode(s: string)
  {
    |s| == 6 && '1' <= s[0] <= '9' && forall i :: 1 <= i < 6 ==> IsDigit(s[i])
  }

  lemma {:induction false} PinShapeMeans(s: string)
    ensures Matches(PinShape, s) <==> IsPinCode(s)
  {
    var sh := PinShape;
    assert sh[0] == NonZeroDigit;
    assert forall i :: 1 <= i < 6 ==> sh[i] == Digit;
    assert |s| > 0 ==> (InClass(s[0], NonZeroDigit) <==> '1' <= s[0] <= '9') by {
      if |s| > 0 && '1' <= s[0] <= '9' {
        assert ('1', '9') in NonZeroDigit;
      }
    }
    forall i | 1 <= i < |s| {
      DigitClass(s[i]);
    }
  }

  // ---------------------------------------------------------------- contact number

  /** `/^[6-9]\d{9}$/` (`\d` is an ASCII digit) */
  const ContactShape: Shape := [SixToNine] + Times(Digit, 9)

  /** Ten digits, the first of them 6, 7, 8 or 9. */
  predicate IsContactNo(s: string)
  {
    |s| == 10 && '6' <= s[0] <= '9' && forall i :: 1 <= i < 10 ==> IsDigit(s[i])
  }

  lemma {:induction false} ContactShapeMeans(s: string)
    ensures Matches(ContactShape, s) <==> IsContactNo(s)
  {
    var sh := ContactShape;
    assert sh[0] == SixToNine;
    assert forall i :: 1 <= i < 10 ==> sh[i] == Digit;
    assert |s| > 0 ==> (InClass(s[0], SixToNine) <==> '6' <= s[0] <= '9') by {
      if |s| > 0 && '6' <= s[0] <= '9' {
        assert ('6', '9') in SixToNine;
      }
    }
    forall i | 1 <= i < |s| {
      DigitClass(s[i]);
    }
  }

  // ---------------------------------------------------------------- PAN

  /** `/^[A-Z]{5}[0-9]{4}[A-Z]{1}$/` */
  const PanShape: Shape := Times(Letter, 5) + Times(Digit, 4) + [Letter]

  /** Five capital letters, four digits, one capital letter. */
  predicate IsPanNo(s: string)
  {
    && |s| == 10
    && (forall i :: 0 <= i < 5 ==> IsUpperLetter(s[i]))
    && (forall i :: 5 <= i < 9 ==> IsDigit(s[i]))
    && IsUpperLetter(s[9])
  }

  lemma {:induction false} PanShapeMeans(s: string)
    ensures Matches(PanShape, s) <==> IsPanNo(s)
  {
    var sh := PanShape;
    assert forall i :: 0 <= i < 5 ==> sh[i] == Letter;
    assert forall i :: 5 <= i < 9 ==> sh[i] == Digit;
    assert sh[9] == Letter;
    forall i | 0 <= i < |s| {
      DigitAndLetterClass(s[i]);
    }
  }

  // ---------------------------------------------------------------- GST

  /** `/^[0-9]{2}[A-Z]{5}[0-9]{4}[A-Z]{1}[1-9A-Z]{1}Z[0-9A-Z]{1}$/` */
  const GstShape: Shape :=
    Times(Digit, 2) + Times(Letter, 5) + Times(Digit, 4) + [Letter, NonZeroOrLetter, LetterZ, DigitOrLetter]

  /**
    Fifteen characters: two digits (the state code), a PAN (five letters, four digits, a letter),
    an entity code that is a non-zero digit or a letter, the letter Z, and a check character
    that is a digit or a letter.
   */
  predicate IsGstNo(s: string)
  {
    && |s| == 15
    && (forall i :: 0 <= i < 2 ==> IsDigit(s[i]))
    && (forall i :: 2 <= i < 7 ==> IsUpperLetter(s[i]))
    && (forall i :: 7 <= i < 11 ==> IsDigit(s[i]))
    && IsUpperLetter(s[11])
    && ('1' <= s[12] <= '9' || IsUpperLetter(s[12]))
    && s[13] == 'Z'
    && (IsDigit(s[14]) || IsUpperLetter(s[14]))
  }

  lemma {:induction false} TwoRangeClass(c: char, lo: char, hi: char)
    ensures InClass(c, [(lo, hi), ('A', 'Z')]) <==> lo <= c <= hi || IsUpperLetter(c)
  {
    var cls := [(lo, hi), ('A', 'Z')];
    if lo <= c <= hi {
      assert cls[0] in cls;
    }
    if IsUpperLetter(c) {
      assert cls[1] in cls;
    }
  }

  lemma {:induction false} GstShapeMeans(s: string)
    ensures Matches(GstShape, s) <==> IsGstNo(s)
  {
    var sh := GstShape;
    assert forall i :: 0 <= i < 2 ==> sh[i] == Digit;
    assert forall i :: 2 <= i < 7 ==> sh[i] == Letter;
    assert forall i :: 7 <= i < 11 ==> sh[i] == Digit;
    assert sh[11] == Letter && sh[12] == NonZeroOrLetter && sh[13] == LetterZ && sh[14] == DigitOrLetter;
    if |s| == 15 {
      DigitClass(s[14]);
      TwoRangeClass(s[12], '1', '9');
      TwoRangeClass(s[14], '0', '9');
      assert InClass(s[13], LetterZ) <==> s[13] == 'Z' by {
        if s[13] == 'Z' {
          assert ('Z', 'Z') in LetterZ;
        }
      }
    }
    forall i | 0 <= i < |s| {
      DigitAndLetterClass(s[i]);
    }
  }

  /** Characters 3 to 12 of a GST number form a PAN. */
  lemma {:induction false} GstEmbedsPan(s: string)
    requires IsGstNo(s)
    ensures IsPanNo(s[2..12])
  {
  }

  // ---------------------------------------------------------------- object ids

  predicate IsHexDigit(c: char)
  {
    IsDigit(c) || 'a' <= c <= 'f' || 'A' <= c <= 'F'
  }

  /** The text an ObjectId casts from: 24 hexadecimal digits. */
  predicate IsObjectIdText(s: string)
  {
    |s| == 24 && forall i :: 0 <= i < 24 ==> IsHexDigit(s[i])
  }

  // ---------------------------------------------------------------- e-mail

  /** `\w`: an ASCII letter, digit or underscore. */
  predicate IsWordChar(c: char)
  {
    IsDigit(c) || IsUpperLetter(c) || IsLowerLetter(c) || c == '_'
  }

  /**
    What `\w+([\.-]?\w+)*` matches: word characters, dots and dashes, starting and ending
    with a word character, with no two dots or dashes side by side.
   */
  predicate IsDottedWords(t: string)
  {
    && |t| > 0
    && IsWordChar(t[0])
    && IsWordChar(t[|t| - 1])
    && (forall i :: 0 <= i < |t| ==> IsWordChar(t[i]) || t[i] == '.' || t[i] == '-')
    && (forall i :: 0 <= i < |t| - 1 ==> IsWordChar(t[i]) || IsWordChar(t[i + 1]))
  }

  predicate AllWordChars(t: string)
  {
    forall i :: 0 <= i < |t| ==> IsWordChar(t[i])
  }

  /**
    One way to read `s` against `/^\w+([\.-]?\w+)*@\w+([\.-]?\w+)*(\.\w{2,3})+$/`: the `@` at
    `at`, and the dot before the final two- or three-character label at `at + 1 + dot`.
    Earlier `.label` repetitions of the last group are absorbed by the dotted words before it.
   */
  predicate EmailSplit(s: string, at: nat, dot: nat)
  {
    && at < |s| && s[at] == '@'
    && IsDottedWords(s[..at])
    && var d := s[at + 1..];
       && dot < |d| && d[dot] == '.'
       && IsDottedWords(d[..dot])
       && 2 <= |d| - dot - 1 <= 3
       && AllWordChars(d[dot + 1..])
  }

  /** Position of the last occurrence of `c`, or `|s|` when there is none. */
  function LastIndexOf(s: string, c: char): (i: nat)
    ensures i <= |s|
    ensures i < |s| ==> s[i] == c && forall j :: i < j < |s| ==> s[j] != c
    ensures i == |s| ==> forall j :: 0 <= j < |s| ==> s[j] != c
  {
    if |s| == 0 then 0
    else if s[|s| - 1] == c then |s| - 1
    else
      var i := LastIndexOf(s[..|s| - 1], c);
      if i == |s| - 1 then |s| else i
  }

  /** The e-mail test the schema runs, reading the string once from each end. */
  predicate IsEmail(s: string)
  {
    var at := IndexOf(s, '@');
    && at < |s|
    && IsDottedWords(s[..at])
    && var d := s[at + 1..];
       var dot := LastIndexOf(d, '.');
       && dot < |d|
       && IsDottedWords(d[..dot])
       && 2 <= |d| - dot - 1 <= 3
       && AllWordChars(d[dot + 1..])
  }

  /** The matcher accepts exactly the strings the pattern describes. */
  lemma {:induction false} EmailMeans(s: string)
    ensures IsEmail(s) <==> exists at: nat, dot: nat :: EmailSplit(s, at, dot)
  {
    if IsEmail(s) {
      EmailCanonicalSplit(s);
    }
    if exists at: nat, dot: nat :: EmailSplit(s, at, dot) {
      var at: nat, dot: nat :| EmailSplit(s, at, dot);
      EmailSplitIsCanonical(s, at, dot);
      EmailFromCanonicalSplit(s);
    }
  }

  lemma {:induction false} EmailCanonicalSplit(s: string)
    requires IsEmail(s)
    ensures EmailSplit(s, IndexOf(s, '@'), LastIndexOf(s[IndexOf(s, '@') + 1..], '.'))
  {
  }

  lemma {:induction false} EmailFromCanonicalSplit(s: string)
    requires IndexOf(s, '@') < |s|
    requires EmailSplit(s, IndexOf(s, '@'), LastIndexOf(s[IndexOf(s, '@') + 1..], '.'))
    ensures IsEmail(s)
  {
  }

  /** A split can only be at the first `@` and at the last dot after it. */
  lemma {:induction false} EmailSplitIsCanonical(s: string, at: nat, dot: nat)
    requires EmailSplit(s, at, dot)
    ensures at == IndexOf(s, '@') && dot == LastIndexOf(s[at + 1..], '.')
  {
    var local := s[..at];
    assert forall j :: 0 <= j < at ==> s[j] == local[j];
    IndexOfUnique(s, '@', at);
    var d := s[at + 1..];
    var tail := d[dot + 1..];
    assert forall j :: dot < j < |d| ==> d[j] == tail[j - dot - 1];
    LastIndexOfUnique(d, '.', dot);
  }

  lemma {:induction false} LastIndexOfUnique(s: string, c: char, i: nat)
    requires i < |s| && s[i] == c
    requires forall j :: i < j < |s| ==> s[j] != c
    ensures LastIndexOf(s, c) == i
  {
  }
}
