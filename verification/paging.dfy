/**
  Query-string arithmetic shared by every list route: `parseInt` as JavaScript
  evaluates it, the `parseInt(x) || default` idiom, `skip = (page - 1) * limit`,
  `Math.ceil(total / limit)`, the window a MongoDB `skip`/`limit` cursor returns,
  `Array.prototype.slice`, and the `isActive` filter.
 */
module Paging {
  import opened Wrappers
  import opened Text

  // ---------------------------------------------------------------- parseInt

  /** A digit of base 10, or of base 16 when `radix` is 16. */
  predicate IsRadixDigit(c: char, radix: nat)
  {
    IsDigit(c) || (radix == 16 && ('a' <= c <= 'f' || 'A' <= c <= 'F'))
  }

  function RadixDigitValue(c: char): nat
  {
    if IsDigit(c) then c as int - '0' as int
    else if 'a' <= c <= 'f' then c as int - 'a' as int + 10
    else if 'A' <= c <= 'F' then c as int - 'A' as int + 10
    else 0
  }

  /** The number a string of radix digits denotes. */
  function RadixValue(s: string, radix: nat): nat
  {
    if |s| == 0 then 0 else radix * RadixValue(s[..|s| - 1], radix) + RadixDigitValue(s[|s| - 1])
  }

  /** Length of the longest prefix made of radix digits: where `parseInt` stops reading. */
  function DigitRun(s: string, radix: nat): (k: nat)
    ensures k <= |s|
    ensures forall i :: 0 <= i < k ==> IsRadixDigit(s[i], radix)
    ensures k < |s| ==> !IsRadixDigit(s[k], radix)
  {
    if |s| == 0 || !IsRadixDigit(s[0], radix) then 0 else 1 + DigitRun(s[1..], radix)
  }

  /**
    The unsigned part of `parseInt`: a `0x`/`0X` prefix switches to base 16, and reading
    stops at the first character that is not a digit of the base.
   */
  function ParseUnsigned(u: string): Option<nat>
  {
    var hex := |u| >= 2 && u[0] == '0' && (u[1] == 'x' || u[1] == 'X');
    var radix := if hex then 16 else 10;
    var body := if hex then u[2..] else u;
    var k := DigitRun(body, radix);
    if k == 0 then None else Some(RadixValue(body[..k], radix))
  }

  /**
    `parseInt(text)` without a radix argument; `None` stands for `NaN`. A missing query
    parameter is `undefined`, which `parseInt` reads as the text "undefined".
    Leading white space is skipped and one sign is read before the digits.
   */
  function ParseInt(text: Option<string>): Option<int>
  {
    match text
    case None => None
    case Some(s) =>
      var t := s[LeadingSpaces(s)..];
      var negative := |t| > 0 && t[0] == '-';
      var u := if |t| > 0 && (t[0] == '-' || t[0] == '+') then t[1..] else t;
      match ParseUnsigned(u)
      case None => None
      case Some(m) => Some(if negative then 0 - m else m)
  }

  /** In base 10 the radix reading of a digit string is its decimal value. */
  lemma {:induction false} DecimalRadixValue(s: string)
    requires AllDigits(s)
    ensures RadixValue(s, 10) == DigitsValue(s)
  {
    if |s| > 0 {
      DecimalRadixValue(s[..|s| - 1]);
    }
  }

  lemma {:induction false} DigitRunOfDigits(s: string, rest: string)
    requires AllDigits(s)
    requires |rest| > 0 ==> !IsDigit(rest[0])
    ensures DigitRun(s + rest, 10) == |s|
    decreases |s|
  {
    if |s| > 0 {
      assert (s + rest)[1..] == s[1..] + rest;
      DigitRunOfDigits(s[1..], rest);
    } else {
      assert s + rest == rest;
    }
  }

  /**
    White space, then decimal digits, then anything that is neither a digit nor the `x` of a
    hexadecimal prefix: `parseInt` returns the value of the digits and ignores the rest.
   */
  lemma {:induction false} ParseIntReadsLeadingDigits(ws: string, digits: string, rest: string)
    requires forall i :: 0 <= i < |ws| ==> IsJsSpace(ws[i])
    requires |digits| > 0 && AllDigits(digits)
    requires |rest| > 0 ==> !IsDigit(rest[0]) && rest[0] != 'x' && rest[0] != 'X'
    ensures ParseInt(Some(ws + digits + rest)) == Some(DigitsValue(digits))
  {
    var s := ws + digits + rest;
    SpacesBeforeDigit(ws, digits + rest);
    assert s == ws + (digits + rest);
    assert s[|ws|..] == digits + rest;
    UnsignedReadsLeadingDigits(digits, rest);
    ParseIntAfterSpaces(s, digits + rest);
  }

  /** White space followed by a digit: `trim`'s start falls exactly on the digit. */
  lemma {:induction false} SpacesBeforeDigit(ws: string, t: string)
    requires forall i :: 0 <= i < |ws| ==> IsJsSpace(ws[i])
    requires |t| > 0 && IsDigit(t[0])
    ensures LeadingSpaces(ws + t) == |ws|
  {
    var s := ws + t;
    assert s[|ws|] == t[0];
    assert forall i :: 0 <= i < |ws| ==> s[i] == ws[i];
    LeadingSpacesUnique(s, |ws|);
  }

  /** Unsigned text after the white space is read as it is. */
  lemma {:induction false} ParseIntAfterSpaces(s: string, t: string)
    requires |t| > 0 && IsDigit(t[0]) && s[LeadingSpaces(s)..] == t
    ensures ParseInt(Some(s)) == ParseUnsigned(t)
  {
  }

  lemma {:induction false} UnsignedReadsLeadingDigits(digits: string, rest: string)
    requires |digits| > 0 && AllDigits(digits)
    requires |rest| > 0 ==> !IsDigit(rest[0]) && rest[0] != 'x' && rest[0] != 'X'
    ensures ParseUnsigned(digits + rest) == Some(DigitsValue(digits))
  {
    var t := digits + rest;
    assert !(|t| >= 2 && t[0] == '0' && (t[1] == 'x' || t[1] == 'X')) by {
      if |digits| == 1 {
        assert |rest| > 0 ==> t[1] == rest[0];
      } else {
        assert t[1] == digits[1];
      }
    }
    DigitRunOfDigits(digits, rest);
    assert t[..|digits|] == digits;
    DecimalRadixValue(digits);
  }

  /** The decimal rendering of a number parses back to that number. */
  lemma {:induction false} ParseIntOfNatToString(n: nat)
    ensures ParseInt(Some(NatToString(n))) == Some(n)
  {
    var s := NatToString(n);
    assert [] + s + [] == s;
    ParseIntReadsLeadingDigits([], s, []);
  }

  /** Text whose first visible character is neither a sign nor a digit is `NaN`. */
  lemma {:induction false} ParseIntNotANumber(ws: string, rest: string)
    requires forall i :: 0 <= i < |ws| ==> IsJsSpace(ws[i])
    requires |rest| > 0 ==> !IsJsSpace(rest[0]) && !IsDigit(rest[0]) && rest[0] != '-' && rest[0] != '+'
    ensures ParseInt(Some(ws + rest)) == None
  {
    var s := ws + rest;
    if |rest| > 0 {
      assert s[|ws|] == rest[0];
    }
    LeadingSpacesUnique(s, |ws|);
    assert s[|ws|..] == rest;
  }

  // ---------------------------------------------------------------- page and limit

  /** `parseInt(text) || fallback`: `NaN` and zero (also `-0`) are falsy and give `fallback`. */
  function NumberOr(text: Option<string>, fallback: int): (v: int)
    requires fallback != 0
    ensures v != 0
  {
    match ParseInt(text)
    case Some(n) => if n != 0 then n else fallback
    case None => fallback
  }

  /** The page number of a request: the parsed value, or 1 when missing, not a number or zero. */
  function PageOf(text: Option<string>): (page: int)
    ensures page != 0
  {
    NumberOr(text, 1)
  }

  /** The page size of a request: the parsed value, or 10 when missing, not a number or zero. */
  function LimitOf(text: Option<string>): (limit: int)
    ensures limit != 0
  {
    NumberOr(text, 10)
  }

  /** How the documented defaults come out of the `|| default` idiom. */
  lemma {:induction false} PageAndLimitDefaults(n: nat)
    ensures PageOf(None) == 1 && LimitOf(None) == 10
    ensures PageOf(Some("0")) == 1 && LimitOf(Some("0")) == 10
    ensures PageOf(Some("abc")) == 1 && LimitOf(Some("abc")) == 10
    ensures n > 0 ==> PageOf(Some(NatToString(n))) == n && LimitOf(Some(NatToString(n))) == n
  {
    ParseIntOfNatToString(0);
    ParseIntOfNatToString(n);
    assert "abc" == [] + "abc";
    ParseIntNotANumber([], "abc");
  }

  /** The number of documents a page skips. */
  function Skip(page: int, limit: int): int
  {
    (page - 1) * limit
  }

  /**
    `Math.ceil(total / limit)` for a non-zero integer limit (a negative limit parses from
    text such as "-5"): the least integer not below the real quotient.
   */
  function TotalPages(total: nat, limit: int): (pages: int)
    requires limit != 0
    ensures limit > 0 ==> (pages - 1) * limit < total <= pages * limit
    ensures limit < 0 ==> pages * limit <= total < (pages - 1) * limit
  {
    if limit > 0 then (total + limit - 1) / limit else -(total / -limit)
  }

  /** With a positive limit there are no pages exactly when there are no documents. */
  lemma {:induction false} TotalPagesZeroIff(total: nat, limit: int)
    requires limit > 0
    ensures TotalPages(total, limit) == 0 <==> total == 0
    ensures TotalPages(total, limit) >= 0
  {
  }

  // ---------------------------------------------------------------- cursor windows

  /**
    What `find().skip(skip).limit(limit)` returns from documents already in sort order:
    `None` when the server rejects a negative skip; a negative limit returns at most
    `-limit` documents.
   */
  function Window<T>(xs: seq<T>, skip: int, limit: int): (r: Option<seq<T>>)
    requires limit != 0
    ensures r.None? <==> skip < 0
    ensures r.Some? ==> |r.value| <= if limit > 0 then limit else -limit
    ensures r.Some? ==> forall i :: 0 <= i < |r.value| ==> skip + i < |xs| && r.value[i] == xs[skip + i]
  {
    if skip < 0 then None
    else
      var start := if skip <= |xs| then skip else |xs|;
      var size := if limit > 0 then limit else -limit;
      var stop := if start + size <= |xs| then start + size else |xs|;
      Some(xs[start..stop])
  }

  /** A window is as long as it can be: it stops early only at the end of the documents. */
  lemma {:induction false} WindowIsFull<T>(xs: seq<T>, skip: nat, limit: int)
    requires limit > 0
    ensures |Window(xs, skip, limit).value| == if skip + limit <= |xs| then limit
      else if skip <= |xs| then |xs| - skip else 0
  {
  }

  /** With a positive limit, document `i` is shown on page `i / limit + 1` at position `i % limit`. */
  lemma {:induction false} EveryDocumentOnItsPage<T>(xs: seq<T>, limit: int, i: nat)
    requires limit > 0 && i < |xs|
    ensures var page := i / limit + 1;
      && 1 <= page <= TotalPages(|xs|, limit)
      && var w := Window(xs, Skip(page, limit), limit).value;
         i % limit < |w| && w[i % limit] == xs[i]
  {
    var q, r := i / limit, i % limit;
    var page := q + 1;
    var skip := Skip(page, limit);
    assert skip == q * limit;
    assert i == skip + r;
    PageWithinTotal(|xs|, limit, q, r);
    WindowIsFull(xs, skip, limit);
  }

  /** A document at `q * limit + r` with `r < limit` lies on a page no later than the last. */
  lemma {:induction false} PageWithinTotal(total: nat, limit: int, q: nat, r: nat)
    requires limit > 0 && r < limit && q * limit + r < total
    ensures q + 1 <= TotalPages(total, limit)
  {
    var pages := TotalPages(total, limit);
    if pages < q + 1 {
      MulMonotone(pages, q, limit);
      assert false;
    }
  }

  lemma {:induction false} MulMonotone(a: int, b: int, c: int)
    requires a <= b && c > 0
    ensures a * c <= b * c
  {
  }

  /** `Array.prototype.slice(start, end)`: negative positions count from the end. */
  function JsSlice<T>(xs: seq<T>, start: int, end: int): (r: seq<T>)
    ensures var n := |xs|;
      var from := if start < 0 then (if n + start > 0 then n + start else 0)
                  else (if start < n then start else n);
      var to := if end < 0 then (if n + end > 0 then n + end else 0)
                else (if end < n then end else n);
      r == if from < to then xs[from..to] else []
  {
    var n := |xs|;
    var from := if start < 0 then (if n + start > 0 then n + start else 0) else (if start < n then start else n);
    var to := if end < 0 then (if n + end > 0 then n + end else 0) else (if end < n then end else n);
    if from < to then xs[from..to] else []
  }

  /** For a non-negative skip and a positive limit, slicing an array shows the same page a cursor shows. */
  lemma {:induction false} SliceAgreesWithWindow<T>(xs: seq<T>, skip: nat, limit: int)
    requires limit > 0
    ensures JsSlice(xs, skip, skip + limit) == Window(xs, skip, limit).value
  {
  }

  /** With a negative skip, `slice` does not fail: it counts back from the end of the array. */
  lemma {:induction false} SliceFromTheEnd<T>(xs: seq<T>, back: int, limit: int)
    requires 0 < back <= |xs| && 0 <= limit < back
    ensures JsSlice(xs, -back, -back + limit) == xs[|xs| - back..|xs| - back + limit]
  {
  }

  // ---------------------------------------------------------------- filters

  /** The `isActive` query parameter: a filter only when present, and `true` only for "true". */
  function ActiveFilter(text: Option<string>): (f: Option<bool>)
    ensures f.None? <==> text.None?
    ensures f == Some(true) <==> text == Some("true")
  {
    match text
    case None => None
    case Some(t) => Some(t == "true")
  }

  /** The pagination block of a list response. */
  datatype PageInfo = PageInfo(currentPage: int, totalPages: int, totalItems: nat, itemsPerPage: int)
}
