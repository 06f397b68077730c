/**
  Sales bill numbers: the initials of the company name followed by a sequence zero-padded to
  four digits. The sequence continues from the most recently created sale recorded under the
  exact same company name.
 */
module SalesNumbers {
  import opened Wrappers
  import opened Text
  import opened Schema
  import opened Store
  import opened SalesModel
  import opened ReceiptNumbers

  // ---------------------------------------------------------------- initials

  /** `word.charAt(0).toUpperCase()`: empty for an empty word. */
  function FirstUpper(w: string): string
  {
    if w == [] then [] else [UpperChar(w[0])]
  }

  function InitialsOf(words: seq<string>): string
  {
    if words == [] then [] else FirstUpper(words[0]) + InitialsOf(words[1..])
  }

  /** `name.split(' ').map(first letter, upper-cased).join('')`. */
  function Initials(name: string): string
  {
    InitialsOf(Split(name, ' '))
  }

  lemma {:induction false} InitialsOfConcat(a: seq<string>, b: seq<string>)
    ensures InitialsOf(a + b) == InitialsOf(a) + InitialsOf(b)
  {
    if a == [] {
      assert a + b == b;
    } else {
      var x := FirstUpper(a[0]);
      assert (a + b)[0] == a[0] && (a + b)[1..] == a[1..] + b;
      assert InitialsOf(a + b) == x + InitialsOf(a[1..] + b);
      InitialsOfConcat(a[1..], b);
      assert InitialsOf(a) == x + InitialsOf(a[1..]);
    }
  }

  /** The initials of two words joined by a space are the initials of each in turn. */
  lemma {:induction false} InitialsAround(a: string, b: string)
    ensures Initials(a + " " + b) == Initials(a) + Initials(b)
  {
    SplitAround(a, b, ' ');
    InitialsOfConcat(Split(a, ' '), Split(b, ' '));
  }

  /** A single word contributes its upper-cased first character, an empty one nothing. */
  lemma {:induction false} InitialsOfWord(w: string)
    requires ' ' !in w
    ensures Initials(w) == FirstUpper(w)
  {
    SplitNoSeparator(w, ' ');
    assert [w][0] == w && [w][1..] == [];
    assert InitialsOf([w]) == FirstUpper(w) + InitialsOf([]);
  }

  /** A leading space makes an empty first word, which contributes nothing. */
  lemma {:induction false} LeadingSpaceAddsNothing(b: string)
    ensures Initials([' '] + b) == Initials(b)
  {
    assert [' '] + b == [] + [' '] + b;
    InitialsAround([], b);
    InitialsOfWord([]);
  }

  /** A repeated space makes an empty word, which contributes nothing. */
  lemma {:induction false} RepeatedSpaceAddsNothing(a: string, b: string)
    ensures Initials(a + [' ', ' '] + b) == Initials(a + [' '] + b)
  {
    var rest := [' '] + b;
    assert a + [' ', ' '] + b == a + [' '] + rest;
    InitialsAround(a, rest);
    LeadingSpaceAddsNothing(b);
    InitialsAround(a, b);
  }

  lemma {:induction false} InitialsOfTwoWords(a: string, b: string)
    requires ' ' !in a && ' ' !in b
    ensures Initials(a + " " + b) == FirstUpper(a) + FirstUpper(b)
  {
    InitialsAround(a, b);
    InitialsOfWord(a);
    InitialsOfWord(b);
  }

  // ---------------------------------------------------------------- numbers

  /** `${initials}${n.toString().padStart(4, '0')}`. */
  function BillNumberFor(initials: string, n: nat): (r: string)
    ensures |r| == |initials| + (if |NatToString(n)| >= 4 then |NatToString(n)| else 4)
    ensures r[..|initials|] == initials
  {
    initials + PadStart(NatToString(n), 4, '0')
  }

  /** The sequence is written after the initials in full, and reads back as itself. */
  lemma {:induction false} BillNumberDigits(initials: string, n: nat)
    ensures var r := BillNumberFor(initials, n);
      var digits := r[|initials|..];
      |digits| >= 4 && AllDigits(digits) && DigitsValue(digits) == n
  {
    PaddedValue(n, 4);
    var r := BillNumberFor(initials, n);
    assert r[|initials|..] == PadStart(NatToString(n), 4, '0');
  }

  /** Distinct sequences give distinct bill numbers under the same initials. */
  lemma {:induction false} BillNumberInjective(initials: string, m: nat, n: nat)
    requires BillNumberFor(initials, m) == BillNumberFor(initials, n)
    ensures m == n
  {
    BillNumberDigits(initials, m);
    BillNumberDigits(initials, n);
  }

  /** The sale `findOne({ 'company.companyName': name }).sort({ createdAt: -1 })` returns: the last one stored. */
  function Latest(sales: Collection<Sale>, name: string): (r: Option<Sale>)
    ensures r.None? <==> forall i :: 0 <= i < |sales| ==> CompanyNameOf(sales[i].doc) != Some(name)
    ensures r.Some? ==> exists i :: (0 <= i < |sales| && sales[i].doc == r.value && CompanyNameOf(r.value) == Some(name)
      && forall j :: i < j < |sales| ==> CompanyNameOf(sales[j].doc) != Some(name))
  {
    if sales == [] then None
    else
      var last := sales[|sales| - 1];
      if CompanyNameOf(last.doc) == Some(name) then Some(last.doc)
      else
        var r := Latest(sales[..|sales| - 1], name);
        assert forall i :: 0 <= i < |sales| - 1 ==> sales[i] == sales[..|sales| - 1][i];
        r
  }

  function LatestNumber(sales: Collection<Sale>, name: string): Option<string>
  {
    match Latest(sales, name)
    case None => None
    case Some(s) => Some(s.transactionNumber)
  }

  /** `generateBillNumber(name)` as written: the trailing digit run of the latest number, plus one. */
  function NextBillNumberAsWritten(sales: Collection<Sale>, name: string): string
  {
    BillNumberFor(Initials(name), SequenceAfter(LatestNumber(sales, name)))
  }

  /**
    The sequence a number carries after the given initials: the digits that follow them, or the
    trailing digit run when the number does not have that shape.
   */
  function SequenceAfterInitials(latest: Option<string>, initials: string): (n: nat)
    ensures n >= 1
  {
    if latest.Some? && |initials| < |latest.value| && latest.value[..|initials|] == initials
      && AllDigits(latest.value[|initials|..])
    then DigitsValue(latest.value[|initials|..]) + 1
    else SequenceAfter(latest)
  }

  /** The allocator reading the sequence after the initials, so that initials ending in a digit are not swallowed. */
  function NextBillNumber(sales: Collection<Sale>, name: string): string
  {
    BillNumberFor(Initials(name), SequenceAfterInitials(LatestNumber(sales, name), Initials(name)))
  }

  /** The first sale of a company is numbered 1. */
  lemma {:induction false} FirstBillNumber(sales: Collection<Sale>, name: string)
    requires forall i :: 0 <= i < |sales| ==> CompanyNameOf(sales[i].doc) != Some(name)
    ensures NextBillNumber(sales, name) == BillNumberFor(Initials(name), 1)
    ensures NextBillNumberAsWritten(sales, name) == BillNumberFor(Initials(name), 1)
  {
    assert LatestNumber(sales, name) == None;
  }

  lemma {:induction false} FirstSequenceText(initials: string)
    ensures BillNumberFor(initials, 1) == initials + "0001"
  {
    assert NatToString(1) == "1";
    assert PadStart("1", 4, '0') == "0001";
  }

  /** The first bill of a company reads its initials followed by "0001". */
  lemma {:induction false} FirstBillText(sales: Collection<Sale>, name: string)
    requires forall i :: 0 <= i < |sales| ==> CompanyNameOf(sales[i].doc) != Some(name)
    ensures NextBillNumber(sales, name) == Initials(name) + "0001"
    ensures NextBillNumberAsWritten(sales, name) == Initials(name) + "0001"
  {
    FirstBillNumber(sales, name);
    FirstSequenceText(Initials(name));
  }

  /** After a number the allocator wrote, the next number carries the following sequence. */
  lemma {:induction false} NextFollowsLatest(sales: Collection<Sale>, name: string, n: nat)
    requires LatestNumber(sales, name) == Some(BillNumberFor(Initials(name), n))
    ensures NextBillNumber(sales, name) == BillNumberFor(Initials(name), n + 1)
  {
    BillNumberDigits(Initials(name), n);
  }

  /**
    When the latest sale carries the largest sequence of its company, the next number is
    different from every number the company holds.
   */
  lemma {:induction false} NextBillNumberFresh(sales: Collection<Sale>, name: string, n: nat)
    requires LatestNumber(sales, name) == Some(BillNumberFor(Initials(name), n))
    requires forall i :: 0 <= i < |sales| && CompanyNameOf(sales[i].doc) == Some(name) ==>
      exists k: nat :: k <= n && sales[i].doc.transactionNumber == BillNumberFor(Initials(name), k)
    ensures forall i :: 0 <= i < |sales| && CompanyNameOf(sales[i].doc) == Some(name) ==>
      sales[i].doc.transactionNumber != NextBillNumber(sales, name)
  {
    NextFollowsLatest(sales, name, n);
    forall i | 0 <= i < |sales| && CompanyNameOf(sales[i].doc) == Some(name)
      ensures sales[i].doc.transactionNumber != NextBillNumber(sales, name)
    {
      var k: nat :| k <= n && sales[i].doc.transactionNumber == BillNumberFor(Initials(name), k);
      if sales[i].doc.transactionNumber == NextBillNumber(sales, name) {
        BillNumberInjective(Initials(name), k, n + 1);
      }
    }
  }

  /** Sales of other companies are not consulted, whatever their numbers or initials. */
  lemma {:induction false} OtherCompaniesNotConsulted(sales: Collection<Sale>, e: Entry<Sale>, name: string)
    requires CompanyNameOf(e.doc) != Some(name)
    ensures NextBillNumber(sales + [e], name) == NextBillNumber(sales, name)
    ensures NextBillNumberAsWritten(sales + [e], name) == NextBillNumberAsWritten(sales, name)
  {
    assert (sales + [e])[..|sales|] == sales;
  }

  /**
    Two company names with the same initials (for example "Acme Traders" and "Alpha Tech") do
    not see each other's sales, so the second company's first bill repeats the first's.
   */
  lemma {:induction false} SharedInitialsRepeatNumber(sales: Collection<Sale>, a: string, b: string, e: Entry<Sale>)
    requires a != b && Initials(a) == Initials(b)
    requires forall i :: 0 <= i < |sales| ==> CompanyNameOf(sales[i].doc) != Some(a) && CompanyNameOf(sales[i].doc) != Some(b)
    requires CompanyNameOf(e.doc) == Some(a) && e.doc.transactionNumber == NextBillNumberAsWritten(sales, a)
    ensures NextBillNumberAsWritten(sales + [e], b) == e.doc.transactionNumber
  {
    FirstBillNumber(sales, a);
    OtherCompaniesNotConsulted(sales, e, b);
    FirstBillNumber(sales, b);
  }

  /** When the initials do not end in a digit both readings of the latest number agree. */
  lemma {:induction false} AsWrittenAgreesWithoutTrailingDigit(sales: Collection<Sale>, name: string, n: nat)
    requires LatestNumber(sales, name) == Some(BillNumberFor(Initials(name), n))
    requires var i := Initials(name); |i| > 0 ==> !IsDigit(i[|i| - 1])
    ensures NextBillNumberAsWritten(sales, name) == NextBillNumber(sales, name)
  {
    var i := Initials(name);
    BillNumberDigits(i, n);
    var r := BillNumberFor(i, n);
    assert r == i + r[|i|..];
    TrailingNumberOfSuffix(i, r[|i|..]);
    NextFollowsLatest(sales, name, n);
  }

  /**
    The allocator as written continues the sequence too, whenever the initials do not end
    in a digit.
   */
  lemma {:induction false} NextFollowsLatestAsWritten(sales: Collection<Sale>, name: string, n: nat)
    requires LatestNumber(sales, name) == Some(BillNumberFor(Initials(name), n))
    requires var i := Initials(name); |i| > 0 ==> !IsDigit(i[|i| - 1])
    ensures NextBillNumberAsWritten(sales, name) == BillNumberFor(Initials(name), n + 1)
  {
    AsWrittenAgreesWithoutTrailingDigit(sales, name, n);
    NextFollowsLatest(sales, name, n);
  }

  /** The allocator as written hands out a fresh number under the same conditions. */
  lemma {:induction false} NextBillNumberFreshAsWritten(sales: Collection<Sale>, name: string, n: nat)
    requires LatestNumber(sales, name) == Some(BillNumberFor(Initials(name), n))
    requires var i := Initials(name); |i| > 0 ==> !IsDigit(i[|i| - 1])
    requires forall i :: 0 <= i < |sales| && CompanyNameOf(sales[i].doc) == Some(name) ==>
      exists k: nat :: k <= n && sales[i].doc.transactionNumber == BillNumberFor(Initials(name), k)
    ensures forall i :: 0 <= i < |sales| && CompanyNameOf(sales[i].doc) == Some(name) ==>
      sales[i].doc.transactionNumber != NextBillNumberAsWritten(sales, name)
  {
    AsWrittenAgreesWithoutTrailingDigit(sales, name, n);
    NextBillNumberFresh(sales, name, n);
  }

  lemma {:induction false} AcmeThreeDInitials()
    ensures Initials("Acme 3D") == "A3"
  {
    assert "Acme 3D" == "Acme" + " " + "3D";
    InitialsOfTwoWords("Acme", "3D");
    assert FirstUpper("Acme") == "A" && FirstUpper("3D") == "3";
  }

  /** "A30001" ends in the digit run "30001". */
  lemma {:induction false} TrailingOfA30001()
    ensures TrailingNumber("A30001") == Some(30001)
  {
    var d := "30001";
    assert d[..4] == "3000" && "3000"[..3] == "300" && "300"[..2] == "30" && "30"[..1] == "3";
    assert DigitsValue("3") == 3;
    assert DigitsValue("30") == 30;
    assert DigitsValue("300") == 300;
    assert DigitsValue("3000") == 3000;
    assert DigitsValue(d) == 30001;
    assert AllDigits(d) by {
      assert forall i :: 0 <= i < |d| ==> IsDigit(d[i]);
    }
    assert "A30001" == "A" + d;
    TrailingNumberOfSuffix("A", d);
  }

  /** Sequence 30002 needs no padding: "A3" then "30002". */
  lemma {:induction false} A3WithSequence30002()
    ensures BillNumberFor("A3", 30002) == "A330002"
  {
    assert NatToString(3) == "3";
    assert NatToString(30) == "30";
    assert NatToString(300) == "300";
    assert NatToString(3000) == "3000";
    assert NatToString(30002) == "30002";
    assert PadStart("30002", 4, '0') == "30002";
  }

  lemma {:induction false} A3WithSequence2()
    ensures BillNumberFor("A3", 2) == "A30002"
  {
    assert NatToString(2) == "2";
    assert PadStart("2", 4, '0') == "0002";
  }

  /**
    For a company whose initials end in a digit, such as "Acme 3D" (initials "A3"), the
    allocator as written reads "A30001" as sequence 30001 and hands out "A330002".
   */
  lemma {:induction false} AsWrittenSwallowsDigitInitials(sales: Collection<Sale>, name: string)
    requires Initials(name) == "A3"
    requires LatestNumber(sales, name) == Some("A30001")
    ensures NextBillNumberAsWritten(sales, name) == "A330002"
  {
    TrailingOfA30001();
    A3WithSequence30002();
  }

  /** In the same situation the corrected allocator reads sequence 1 and hands out "A30002". */
  lemma {:induction false} CorrectedReadsAfterDigitInitials(sales: Collection<Sale>, name: string)
    requires Initials(name) == "A3"
    requires LatestNumber(sales, name) == Some("A30001")
    ensures NextBillNumber(sales, name) == "A30002"
  {
    FirstSequenceText("A3");
    assert BillNumberFor(Initials(name), 1) == "A30001" by {
      assert "A3" + "0001" == "A30001";
    }
    NextFollowsLatest(sales, name, 1);
    A3WithSequence2();
  }
}
