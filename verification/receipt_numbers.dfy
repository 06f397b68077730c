/**
  Receipt numbers: "RCP" followed by a sequence zero-padded to six digits, one sequence for
  every receipt. The allocator reads the latest number, takes its trailing digits and adds one.
 */
module ReceiptNumbers {
  import opened Wrappers
  import opened Text
  import opened Schema
  import opened Store
  import opened Queries
  import opened Errors

  /** The stored receipt number of a document, when it holds text there. */
  function NumberOf(d: Doc): Option<string>
  {
    TextAt(d, "receiptNumber")
  }

  /** `RCP${n.toString().padStart(6, '0')}`. */
  function ReceiptNumberFor(n: nat): (r: string)
    ensures |r| == 3 + (if |NatToString(n)| >= 6 then |NatToString(n)| else 6)
    ensures r[..3] == "RCP"
  {
    "RCP" + PadStart(NatToString(n), 6, '0')
  }

  /** "RCP", at least six more characters, and a trailing run of digits: the shape of every allocated number. */
  predicate IsReceiptNumber(t: string)
  {
    |t| >= 9 && t[..3] == "RCP" && TrailingNumber(t).Some?
  }

  /** The sequence a number carries is the one it was made from: the padding is read back off. */
  lemma {:induction false} SequenceOfReceiptNumber(n: nat)
    ensures TrailingNumber(ReceiptNumberFor(n)) == Some(n)
  {
    PaddedValue(n, 6);
    var p := PadStart(NatToString(n), 6, '0');
    TrailingNumberOfSuffix("RCP", p);
  }

  /** Distinct sequences give distinct receipt numbers. */
  lemma {:induction false} ReceiptNumberInjective(m: nat, n: nat)
    requires ReceiptNumberFor(m) == ReceiptNumberFor(n)
    ensures m == n
  {
    SequenceOfReceiptNumber(m);
    SequenceOfReceiptNumber(n);
  }

  /** The sequence after the one a number carries: its trailing digits plus one, else 1. */
  function SequenceAfter(latest: Option<string>): (n: nat)
    ensures n >= 1
    ensures latest.Some? && TrailingNumber(latest.value).Some? ==> n == TrailingNumber(latest.value).value + 1
    ensures latest.None? || TrailingNumber(latest.value).None? ==> n == 1
  {
    match latest
    case None => 1
    case Some(s) => match TrailingNumber(s) case Some(k) => k + 1 case None => 1
  }

  // ---------------------------------------------------------------- as written

  /**
    The receipt `findOne().sort({ receiptNumber: -1 })` returns: the greatest number in
    code-unit order. A document without a number would sort below every number.
   */
  function Greatest(c: Collection<Doc>): (r: Option<string>)
    ensures r.None? <==> forall i :: 0 <= i < |c| ==> NumberOf(c[i].doc).None?
    ensures r.Some? ==> exists i :: 0 <= i < |c| && NumberOf(c[i].doc) == r
    ensures r.Some? ==> forall i :: 0 <= i < |c| && NumberOf(c[i].doc).Some? ==>
      LexLe(NumberOf(c[i].doc).value, r.value)
  {
    if c == [] then None
    else
      var rest := Greatest(c[1..]);
      assert forall i :: 1 <= i < |c| ==> c[i] == c[1..][i - 1];
      match NumberOf(c[0].doc)
      case None => rest
      case Some(t) =>
        if rest.None? then
          LexLeTotal(t, t);
          Some(t)
        else if LexLe(rest.value, t) then
          assert forall i :: 1 <= i < |c| && NumberOf(c[i].doc).Some? ==> LexLe(NumberOf(c[i].doc).value, t) by {
            forall i | 1 <= i < |c| && NumberOf(c[i].doc).Some?
              ensures LexLe(NumberOf(c[i].doc).value, t)
            {
              LexLeTransitive(NumberOf(c[i].doc).value, rest.value, t);
            }
          }
          LexLeTotal(t, t);
          Some(t)
        else
          LexLeTotal(rest.value, t);
          rest
  }

  /**
    `generateReceiptNumber()` as written. When the latest document holds no number the
    `match` call throws and the create fails with an internal error.
   */
  function NextReceiptNumberAsWritten(c: Collection<Doc>): (r: Result<string, Error>)
    ensures r.Failure? <==> c != [] && Greatest(c).None?
    ensures r.Failure? ==> r.error == InternalError
    ensures r.Success? ==> r.value == ReceiptNumberFor(SequenceAfter(Greatest(c)))
  {
    if c != [] && Greatest(c).None? then Failure(InternalError)
    else Success(ReceiptNumberFor(SequenceAfter(Greatest(c))))
  }

  /** Whatever the allocator as written hands out has the shape of a receipt number. */
  lemma {:induction false} AllocatedShape(c: Collection<Doc>)
    requires NextReceiptNumberAsWritten(c).Success?
    ensures IsReceiptNumber(NextReceiptNumberAsWritten(c).value)
  {
    SequenceOfReceiptNumber(SequenceAfter(Greatest(c)));
  }

  /** "RCP" and six digits short of 999999: the numbers the allocator produces before it runs out of width. */
  predicate SixDigitsBelowLast(t: string)
  {
    |t| == 9 && t[..3] == "RCP" && AllDigits(t[3..]) && DigitsValue(t[3..]) < 999999
  }

  /** The number after a six-digit one below 999999 is again "RCP" and six digits, one further on. */
  lemma {:induction false} NextAfterSixDigits(g: string)
    requires SixDigitsBelowLast(g)
    ensures var r := ReceiptNumberFor(SequenceAfter(Some(g)));
      |r| == 9 && r[..3] == "RCP" && AllDigits(r[3..]) && DigitsValue(r[3..]) == DigitsValue(g[3..]) + 1
  {
    var v := DigitsValue(g[3..]);
    assert g == "RCP" + g[3..];
    TrailingNumberOfSuffix("RCP", g[3..]);
    var p := PadStart(NatToString(v + 1), 6, '0');
    NatToStringLength(v + 1, 6);
    PaddedValue(v + 1, 6);
    assert ReceiptNumberFor(v + 1)[3..] == p;
  }

  /** A six-digit number not after `g` comes strictly before any six-digit number past `g`. */
  lemma {:induction false} BeforeTheNext(t: string, g: string, r: string)
    requires SixDigitsBelowLast(t) && SixDigitsBelowLast(g) && LexLe(t, g)
    requires |r| == 9 && r[..3] == "RCP" && AllDigits(r[3..]) && DigitsValue(r[3..]) == DigitsValue(g[3..]) + 1
    ensures LexLe(t, r) && t != r
  {
    assert t == "RCP" + t[3..];
    assert g == "RCP" + g[3..];
    assert r == "RCP" + r[3..];
    LexLeCommonPrefix("RCP", t[3..], g[3..]);
    LexLeDigits(t[3..], g[3..]);
    LexLeDigits(t[3..], r[3..]);
    LexLeCommonPrefix("RCP", t[3..], r[3..]);
  }

  /**
    While every stored number is "RCP" and six digits below 999999, the number the allocator
    produces comes after every stored one, so it is fresh.
   */
  lemma {:induction false} AsWrittenFreshWhileSixDigits(c: Collection<Doc>)
    requires forall i :: 0 <= i < |c| ==> NumberOf(c[i].doc).Some? && SixDigitsBelowLast(NumberOf(c[i].doc).value)
    ensures NextReceiptNumberAsWritten(c).Success?
    ensures var r := NextReceiptNumberAsWritten(c).value;
      forall i :: 0 <= i < |c| ==> LexLe(NumberOf(c[i].doc).value, r) && NumberOf(c[i].doc).value != r
    ensures !Holds(c, "receiptNumber", NextReceiptNumberAsWritten(c).value)
  {
    if c == [] {
      return;
    }
    var g := Greatest(c).value;
    var r := NextReceiptNumberAsWritten(c).value;
    NextAfterSixDigits(g);
    forall i | 0 <= i < |c|
      ensures LexLe(NumberOf(c[i].doc).value, r) && NumberOf(c[i].doc).value != r
    {
      BeforeTheNext(NumberOf(c[i].doc).value, g, r);
    }
    NoneHolds(c, r);
  }

  /** A number every stored receipt holds a different one from is held by none. */
  lemma {:induction false} NoneHolds(c: Collection<Doc>, r: string)
    requires forall i :: 0 <= i < |c| ==> NumberOf(c[i].doc).Some? && NumberOf(c[i].doc).value != r
    ensures !Holds(c, "receiptNumber", r)
  {
    forall i | 0 <= i < |c|
      ensures Get(c[i].doc, "receiptNumber") != Some(Str(r))
    {
      assert NumberOf(c[i].doc).value != r;
    }
  }

  /** In code-unit order "RCP1000000" comes before "RCP999999". */
  lemma {:induction false} SevenDigitsSortFirst()
    ensures LexLe("RCP1000000", "RCP999999")
    ensures !LexLe("RCP999999", "RCP1000000")
  {
    assert LexLe("1000000", "999999");
    assert !LexLe("999999", "1000000");
    LexLeCommonPrefix("RCP", "1000000", "999999");
    LexLeCommonPrefix("RCP", "999999", "1000000");
    assert "RCP" + "999999" == "RCP999999" && "RCP" + "1000000" == "RCP1000000";
  }

  lemma {:induction false} SixNines()
    ensures AllDigits("999999") && DigitsValue("999999") == 999999
  {
    assert "9"[..0] == "" && DigitsValue("9") == 9;
    assert "99"[..1] == "9" && DigitsValue("99") == 99;
    assert "999"[..2] == "99" && DigitsValue("999") == 999;
    assert "9999"[..3] == "999" && DigitsValue("9999") == 9999;
    assert "99999"[..4] == "9999" && DigitsValue("99999") == 99999;
    assert "999999"[..5] == "99999";
  }

  lemma {:induction false} MillionText()
    ensures NatToString(1000000) == "1000000"
  {
    assert NatToString(1) == "1";
    assert NatToString(10) == "10";
    assert NatToString(100) == "100";
    assert NatToString(1000) == "1000";
    assert NatToString(10000) == "10000";
    assert NatToString(100000) == "100000";
  }

  /** The number after "RCP999999" outgrows the padding. */
  lemma {:induction false} AfterTheLastSixDigits()
    ensures ReceiptNumberFor(SequenceAfter(Some("RCP999999"))) == "RCP1000000"
  {
    LastSixDigitsSequence();
    MillionNumber();
  }

  lemma {:induction false} LastSixDigitsSequence()
    ensures SequenceAfter(Some("RCP999999")) == 1000000
  {
    SixNines();
    TrailingNumberOfSuffix("RCP", "999999");
    assert "RCP" + "999999" == "RCP999999";
  }

  lemma {:induction false} MillionNumber()
    ensures ReceiptNumberFor(1000000) == "RCP1000000"
  {
    var s := NatToString(1000000);
    MillionText();
    assert |s| == 7;
    assert PadStart(s, 6, '0') == s;
    assert ReceiptNumberFor(1000000) == "RCP" + s;
  }

  /**
    Past the sixth digit the code-unit order stops following the sequence: "RCP999999" sorts
    after "RCP1000000", so once both exist the allocator hands out "RCP1000000" again.
   */
  lemma {:induction false} AsWrittenRepeatsAfterSixDigits(a: string, b: string)
    ensures var c := [Entry(a, map["receiptNumber" := Str("RCP999999")]), Entry(b, map["receiptNumber" := Str("RCP1000000")])];
      && NextReceiptNumberAsWritten(c) == Success("RCP1000000")
      && Holds(c, "receiptNumber", "RCP1000000")
  {
    var c := [Entry(a, map["receiptNumber" := Str("RCP999999")]), Entry(b, map["receiptNumber" := Str("RCP1000000")])];
    SevenDigitsSortFirst();
    GreatestOfTwo(a, b, "RCP999999", "RCP1000000");
    AfterTheLastSixDigits();
    assert Get(c[1].doc, "receiptNumber") == Some(Str("RCP1000000"));
  }

  /** Of two numbered receipts, the greatest is the one the other does not sort after. */
  lemma {:induction false} GreatestOfTwo(a: string, b: string, x: string, y: string)
    requires !LexLe(x, y)
    ensures Greatest([Entry(a, map["receiptNumber" := Str(x)]), Entry(b, map["receiptNumber" := Str(y)])]) == Some(x)
  {
    var c := [Entry(a, map["receiptNumber" := Str(x)]), Entry(b, map["receiptNumber" := Str(y)])];
    assert NumberOf(c[0].doc) == Some(x) && NumberOf(c[1].doc) == Some(y);
  }

  // ---------------------------------------------------------------- corrected

  /** The largest sequence any stored number carries, 0 when none carries one. */
  function MaxSequence(c: Collection<Doc>): (n: nat)
    ensures forall i :: 0 <= i < |c| && NumberOf(c[i].doc).Some? && TrailingNumber(NumberOf(c[i].doc).value).Some? ==>
      TrailingNumber(NumberOf(c[i].doc).value).value <= n
    ensures n > 0 ==>
      exists i :: 0 <= i < |c| && NumberOf(c[i].doc).Some? && TrailingNumber(NumberOf(c[i].doc).value) == Some(n)
  {
    if c == [] then 0
    else
      var rest := MaxSequence(c[1..]);
      assert forall i :: 1 <= i < |c| ==> c[i] == c[1..][i - 1];
      var here := if NumberOf(c[0].doc).Some? then TrailingNumber(NumberOf(c[0].doc).value).GetOr(0) else 0;
      if here > rest then here else rest
  }

  /**
    The allocator with the order the sequence evidently intends: one past the largest
    sequence stored, whatever its width.
   */
  function NextReceiptNumber(c: Collection<Doc>): (r: string)
    ensures IsReceiptNumber(r)
    ensures |r| >= 9 && r[..3] == "RCP"
    ensures TrailingNumber(r) == Some(MaxSequence(c) + 1)
  {
    SequenceOfReceiptNumber(MaxSequence(c) + 1);
    ReceiptNumberFor(MaxSequence(c) + 1)
  }

  /** The corrected allocator never hands out a number already stored, at any width. */
  lemma {:induction false} NextReceiptNumberFresh(c: Collection<Doc>)
    ensures !Holds(c, "receiptNumber", NextReceiptNumber(c))
  {
    var r := NextReceiptNumber(c);
    forall i | 0 <= i < |c|
      ensures Get(c[i].doc, "receiptNumber") != Some(Str(r))
    {
    }
  }

  /** While numbers have six digits the correction changes nothing: both allocators agree. */
  lemma {:induction false} CorrectedAgreesWhileSixDigits(c: Collection<Doc>)
    requires forall i :: 0 <= i < |c| ==> NumberOf(c[i].doc).Some? && SixDigitsBelowLast(NumberOf(c[i].doc).value)
    ensures NextReceiptNumberAsWritten(c) == Success(NextReceiptNumber(c))
  {
    if c != [] {
      var g := Greatest(c).value;
      var k :| 0 <= k < |c| && NumberOf(c[k].doc) == Some(g);
      AllBelowGreatest(c, g);
      SixDigitSequence(g);
      MaxSequenceAttained(c, k, DigitsValue(g[3..]));
    }
    AllocatorsAgree(c);
  }

  /** Both allocators number after the same sequence, so they hand out the same number. */
  lemma {:induction false} AllocatorsAgree(c: Collection<Doc>)
    requires c == [] || (Greatest(c).Some? && TrailingNumber(Greatest(c).value) == Some(MaxSequence(c)))
    ensures NextReceiptNumberAsWritten(c) == Success(NextReceiptNumber(c))
  {
    var n := MaxSequence(c) + 1;
    assert SequenceAfter(Greatest(c)) == n by {
      if c == [] {
        assert MaxSequence(c) == 0;
      }
    }
    assert NextReceiptNumberAsWritten(c) == Success(ReceiptNumberFor(n));
  }

  /** While all numbers have six digits, the greatest one carries the greatest sequence. */
  lemma {:induction false} AllBelowGreatest(c: Collection<Doc>, g: string)
    requires forall i :: 0 <= i < |c| ==> NumberOf(c[i].doc).Some? && SixDigitsBelowLast(NumberOf(c[i].doc).value)
    requires Greatest(c) == Some(g) && SixDigitsBelowLast(g)
    ensures forall i :: 0 <= i < |c| ==> TrailingOf(c[i].doc).Some? && TrailingOf(c[i].doc).value <= DigitsValue(g[3..])
  {
    forall i | 0 <= i < |c|
      ensures TrailingOf(c[i].doc).Some? && TrailingOf(c[i].doc).value <= DigitsValue(g[3..])
    {
      SixDigitOrder(NumberOf(c[i].doc).value, g);
    }
  }

  /** The sequence a stored receipt's number carries, if it has a number and that ends in digits. */
  function TrailingOf(d: Doc): Option<nat>
  {
    if NumberOf(d).Some? then TrailingNumber(NumberOf(d).value) else None
  }

  /** A six-digit receipt number carries its digits as its sequence. */
  lemma {:induction false} SixDigitSequence(t: string)
    requires SixDigitsBelowLast(t)
    ensures TrailingNumber(t) == Some(DigitsValue(t[3..]))
  {
    assert t == "RCP" + t[3..];
    TrailingNumberOfSuffix("RCP", t[3..]);
  }

  /** Among six-digit numbers, code-unit order is sequence order. */
  lemma {:induction false} SixDigitOrder(t: string, g: string)
    requires SixDigitsBelowLast(t) && SixDigitsBelowLast(g) && LexLe(t, g)
    ensures TrailingNumber(t) == Some(DigitsValue(t[3..]))
    ensures DigitsValue(t[3..]) <= DigitsValue(g[3..])
  {
    SixDigitSequence(t);
    assert t == "RCP" + t[3..] && g == "RCP" + g[3..];
    LexLeCommonPrefix("RCP", t[3..], g[3..]);
    LexLeDigits(t[3..], g[3..]);
  }

  /** When one stored sequence bounds all the others, it is the largest. */
  lemma {:induction false} MaxSequenceAttained(c: Collection<Doc>, k: nat, n: nat)
    requires k < |c| && TrailingOf(c[k].doc) == Some(n)
    requires forall i :: 0 <= i < |c| ==> TrailingOf(c[i].doc).Some? && TrailingOf(c[i].doc).value <= n
    ensures MaxSequence(c) == n
  {
    assert forall i :: 0 <= i < |c| && NumberOf(c[i].doc).Some? && TrailingNumber(NumberOf(c[i].doc).value).Some? ==>
      TrailingNumber(NumberOf(c[i].doc).value).value <= n;
  }
}
