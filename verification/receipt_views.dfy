/**
  The two read-only views of `/receipt-transactions` that summarise receipts by bill: the
  bill-adjustment summary of one bill number, oldest receipt first, and the paginated
  pending-bills list, one entry per bill number, built from the receipts newest first.
 */
module ReceiptViews {
  import opened Wrappers
  import opened Text
  import opened Patterns
  import opened Schema
  import opened Store
  import opened Paging
  import opened Queries
  import opened Errors
  import opened ReceiptModel
  import opened ObjectKeys

  // ---------------------------------------------------------------- ordering by receipt date

  /** The date a value sorts by; a missing or non-date value sorts as null. */
  function DateValue(v: Option<Value>): Option<int>
  {
    if v.Some? && v.value.Time? then Some(v.value.t) else None
  }

  function DateOf(d: Doc): Option<int>
  {
    DateValue(Get(d, "receiptDate"))
  }

  /** Ascending date order, null before every date, as MongoDB sorts a missing field. */
  predicate DateLe(a: Option<int>, b: Option<int>)
  {
    a.None? || (b.Some? && a.value <= b.value)
  }

  /** `a` may come before `b`: the older first, or the newer first when `newestFirst`. */
  predicate InOrder(a: Doc, b: Doc, newestFirst: bool)
  {
    if newestFirst then DateLe(DateOf(b), DateOf(a)) else DateLe(DateOf(a), DateOf(b))
  }

  predicate SortedByDate(rs: Collection<Doc>, newestFirst: bool)
  {
    forall i, j :: 0 <= i < j < |rs| ==> InOrder(rs[i].doc, rs[j].doc, newestFirst)
  }

  /** Every receipt of `rs` may follow `x`. */
  predicate AllAfter(x: Doc, rs: Collection<Doc>, newestFirst: bool)
  {
    forall i :: 0 <= i < |rs| ==> InOrder(x, rs[i].doc, newestFirst)
  }

  /** `x` placed before the first receipt it may precede. */
  function InsertByDate(x: Entry<Doc>, rs: Collection<Doc>, newestFirst: bool): (r: Collection<Doc>)
    ensures multiset(r) == multiset(rs) + multiset{x}
  {
    if rs == [] || InOrder(x.doc, rs[0].doc, newestFirst) then [x] + rs
    else
      assert rs == [rs[0]] + rs[1..];
      [rs[0]] + InsertByDate(x, rs[1..], newestFirst)
  }

  /**
    `sort({ receiptDate: 1 })`, or `sort({ receiptDate: -1 })` when `newestFirst`. Receipts
    with equal dates keep their stored order.
   */
  function SortByDate(rs: Collection<Doc>, newestFirst: bool): (r: Collection<Doc>)
    ensures multiset(r) == multiset(rs)
  {
    if rs == [] then []
    else
      assert rs == [rs[0]] + rs[1..];
      InsertByDate(rs[0], SortByDate(rs[1..], newestFirst), newestFirst)
  }

  lemma {:induction false} SortedTail(rs: Collection<Doc>, newestFirst: bool)
    requires rs != [] && SortedByDate(rs, newestFirst)
    ensures SortedByDate(rs[1..], newestFirst) && AllAfter(rs[0].doc, rs[1..], newestFirst)
  {
    var tail := rs[1..];
    forall i | 0 <= i < |tail|
      ensures InOrder(rs[0].doc, tail[i].doc, newestFirst)
    {
      assert tail[i] == rs[i + 1];
    }
    forall i, j | 0 <= i < j < |tail|
      ensures InOrder(tail[i].doc, tail[j].doc, newestFirst)
    {
      assert tail[i] == rs[i + 1] && tail[j] == rs[j + 1];
    }
  }

  lemma {:induction false} ConsSorted(x: Entry<Doc>, rs: Collection<Doc>, newestFirst: bool)
    requires SortedByDate(rs, newestFirst) && AllAfter(x.doc, rs, newestFirst)
    ensures SortedByDate([x] + rs, newestFirst)
  {
    var r := [x] + rs;
    forall i, j | 0 <= i < j < |r|
      ensures InOrder(r[i].doc, r[j].doc, newestFirst)
    {
      assert r[j] == rs[j - 1];
      if i > 0 {
        assert r[i] == rs[i - 1];
      }
    }
  }

  lemma {:induction false} InsertAllAfter(y: Doc, x: Entry<Doc>, rs: Collection<Doc>, newestFirst: bool)
    requires AllAfter(y, rs, newestFirst) && InOrder(y, x.doc, newestFirst)
    ensures AllAfter(y, InsertByDate(x, rs, newestFirst), newestFirst)
  {
    var r := InsertByDate(x, rs, newestFirst);
    forall i | 0 <= i < |r|
      ensures InOrder(y, r[i].doc, newestFirst)
    {
      assert r[i] in multiset(r);
      if r[i] != x {
        assert r[i] in multiset(rs);
        var m :| 0 <= m < |rs| && rs[m] == r[i];
      }
    }
  }

  lemma {:induction false} InsertSorted(x: Entry<Doc>, rs: Collection<Doc>, newestFirst: bool)
    requires SortedByDate(rs, newestFirst)
    ensures SortedByDate(InsertByDate(x, rs, newestFirst), newestFirst)
  {
    if rs == [] || InOrder(x.doc, rs[0].doc, newestFirst) {
      if rs != [] {
        SortedTail(rs, newestFirst);
        forall i | 0 <= i < |rs|
          ensures InOrder(x.doc, rs[i].doc, newestFirst)
        {
          if i > 0 {
            assert rs[i] == rs[1..][i - 1];
          }
        }
      }
      ConsSorted(x, rs, newestFirst);
    } else {
      SortedTail(rs, newestFirst);
      InsertSorted(x, rs[1..], newestFirst);
      InsertAllAfter(rs[0].doc, x, rs[1..], newestFirst);
      ConsSorted(rs[0], InsertByDate(x, rs[1..], newestFirst), newestFirst);
    }
  }

  /** The sort puts the receipts in date order. */
  lemma {:induction false} SortByDateSorted(rs: Collection<Doc>, newestFirst: bool)
    ensures SortedByDate(SortByDate(rs, newestFirst), newestFirst)
  {
    if rs != [] {
      SortByDateSorted(rs[1..], newestFirst);
      InsertSorted(rs[0], SortByDate(rs[1..], newestFirst), newestFirst);
    }
  }

  lemma {:induction false} SumOfInsert(x: Entry<Doc>, rs: Collection<Doc>, newestFirst: bool, m: Measure)
    ensures SumOf(InsertByDate(x, rs, newestFirst), m) == Measured(m, x.doc) + SumOf(rs, m)
  {
    var r := InsertByDate(x, rs, newestFirst);
    if rs == [] || InOrder(x.doc, rs[0].doc, newestFirst) {
      assert r[1..] == rs;
    } else {
      SumOfInsert(x, rs[1..], newestFirst, m);
      assert r[1..] == InsertByDate(x, rs[1..], newestFirst);
    }
  }

  /** Sorting changes no total. */
  lemma {:induction false} SumOfSort(rs: Collection<Doc>, newestFirst: bool, m: Measure)
    ensures SumOf(SortByDate(rs, newestFirst), m) == SumOf(rs, m)
  {
    if rs != [] {
      SumOfSort(rs[1..], newestFirst, m);
      SumOfInsert(rs[0], SortByDate(rs[1..], newestFirst), newestFirst, m);
    }
  }

  /** Sorting keeps exactly the receipts it was given. */
  lemma {:induction false} SortedMembers(rs: Collection<Doc>, newestFirst: bool)
    ensures forall x :: x in SortByDate(rs, newestFirst) <==> x in rs
  {
    var r := SortByDate(rs, newestFirst);
    forall x
      ensures x in r <==> x in rs
    {
      assert x in r <==> x in multiset(r);
      assert x in rs <==> x in multiset(rs);
    }
  }

  /** A position at which a member of a sequence sits. */
  lemma {:induction false} IndexOf<T>(x: T, s: seq<T>) returns (k: nat)
    requires x in s
    ensures k < |s| && s[k] == x
  {
    k :| 0 <= k < |s| && s[k] == x;
  }

  // ---------------------------------------------------------------- bill adjustment

  /** The bill details block: the plain placeholder, or the one saying bill validation is off. */
  datatype BillDetails = NotSpecified | ValidationDisabled

  /**
    The payment summary; `None` stands for the text "Not specified (bill validation
    disabled)" the route sends in place of a value.
   */
  datatype PaymentSummary = PaymentSummary(
    totalBillAmount: Option<real>,
    totalReceivedAmount: real,
    pendingAmount: Option<real>,
    isFullyPaid: Option<bool>,
    paymentStatus: string)

  /** One receipt as the bill adjustment lists it; `None` where the receipt lacks the field. */
  datatype ReceiptLine = ReceiptLine(
    receiptNumber: Option<Value>,
    receiptDate: Option<Value>,
    amount: Option<Value>,
    currency: Option<Value>,
    inrAmount: Option<Value>,
    utrNumber: Option<Value>,
    remarks: Option<Value>)

  datatype Adjustment = Adjustment(
    billNumber: string,
    billDetails: BillDetails,
    paymentSummary: PaymentSummary,
    currencyBreakdown: map<string, real>,
    receiptTransactions: seq<ReceiptLine>)

  const NoReceipts: string := "No Receipts"
  const ReceiptsOnly: string := "Receipts Only (No Bill Validation)"

  function LineOf(d: Doc): ReceiptLine
  {
    ReceiptLine(Get(d, "receiptNumber"), Get(d, "receiptDate"), Get(d, "receiptAmount"), Get(d, "currency"),
      Get(d, "inrAmount"), Get(d, "utrNumber"), Get(d, "remarks"))
  }

  function Lines(rs: Collection<Doc>): (ls: seq<ReceiptLine>)
    ensures |ls| == |rs| && forall i :: 0 <= i < |rs| ==> ls[i] == LineOf(rs[i].doc)
  {
    seq(|rs|, i requires 0 <= i < |rs| => LineOf(rs[i].doc))
  }

  /** The currency keys the receipts are grouped under. */
  function CurrenciesOf(rs: Collection<Doc>): set<string>
  {
    set i | 0 <= i < |rs| :: CurrencyKey(rs[i].doc)
  }

  /** `currencyTotals`: for each currency that occurs, the sum of the amounts received in it. */
  function Breakdown(rs: Collection<Doc>): map<string, real>
  {
    map k | k in CurrenciesOf(rs) :: SumOf(rs, AmountInCurrency(k))
  }

  /** The receipts of a bill as the route reads them: `find({ billNumber }).sort({ receiptDate: 1 })`. */
  function ReceiptsOfBill(c: Collection<Doc>, bill: string): Collection<Doc>
  {
    SortByDate(FindByBillNumber(c, bill), false)
  }

  /** No stored receipt carries the bill number (after its setter trims it). */
  predicate NoReceiptFor(c: Collection<Doc>, bill: string)
  {
    forall i :: 0 <= i < |c| ==> Get(c[i].doc, "billNumber") != Some(Str(Trim(bill)))
  }

  /** `GET /receipt-transactions/bill-adjustment/:billNumber`. */
  function BillAdjustment(c: Collection<Doc>, bill: string): (r: Adjustment)
    ensures r.billNumber == bill
    ensures r.paymentSummary.paymentStatus == NoReceipts <==> NoReceiptFor(c, bill)
    ensures NoReceiptFor(c, bill) ==>
      && r.billDetails == NotSpecified && r.currencyBreakdown == map[] && r.receiptTransactions == []
      && r.paymentSummary == PaymentSummary(Some(0.0), 0.0, Some(0.0), Some(true), NoReceipts)
    ensures !NoReceiptFor(c, bill) ==>
      && r.billDetails == ValidationDisabled && r.paymentSummary.paymentStatus == ReceiptsOnly
      && r.paymentSummary.totalBillAmount.None? && r.paymentSummary.pendingAmount.None? && r.paymentSummary.isFullyPaid.None?
  {
    var found := ReceiptsOfBill(c, bill);
    EmptyBillIff(c, bill);
    if found == [] then
      Adjustment(bill, NotSpecified, PaymentSummary(Some(0.0), 0.0, Some(0.0), Some(true), NoReceipts), map[], [])
    else
      Adjustment(bill, ValidationDisabled, PaymentSummary(None, SumOf(found, ReceivedAll), None, None, ReceiptsOnly),
        Breakdown(found), Lines(found))
  }

  lemma {:induction false} EmptyBillIff(c: Collection<Doc>, bill: string)
    ensures ReceiptsOfBill(c, bill) == [] <==> NoReceiptFor(c, bill)
  {
    var found := FindByBillNumber(c, bill);
    var sorted := ReceiptsOfBill(c, bill);
    assert |sorted| == |multiset(sorted)| == |multiset(found)| == |found|;
    if !NoReceiptFor(c, bill) {
      var i :| 0 <= i < |c| && Get(c[i].doc, "billNumber") == Some(Str(Trim(bill)));
      assert c[i] in found;
    }
    if found != [] {
      assert found[0] in c;
    }
  }

  /** The non-placeholder parts of the view are computed from the bill's receipts in date order. */
  lemma {:induction false} AdjustmentParts(c: Collection<Doc>, bill: string)
    ensures var r, found := BillAdjustment(c, bill), ReceiptsOfBill(c, bill);
      && r.paymentSummary.totalReceivedAmount == SumOf(found, ReceivedAll)
      && r.currencyBreakdown == Breakdown(found)
      && r.receiptTransactions == Lines(found)
  {
    var found := ReceiptsOfBill(c, bill);
    if found == [] {
      assert CurrenciesOf(found) == {};
    }
  }

  /** The bill's receipts, in date order, are exactly the stored receipts of that bill number. */
  lemma {:induction false} BillMembers(c: Collection<Doc>, bill: string)
    ensures forall x :: x in ReceiptsOfBill(c, bill) <==> x in c && Get(x.doc, "billNumber") == Some(Str(Trim(bill)))
  {
    var found := FindByBillNumber(c, bill);
    SortedMembers(found, false);
    forall x | x in found
      ensures x in c && Get(x.doc, "billNumber") == Some(Str(Trim(bill)))
    {
      var m := IndexOf(x, found);
    }
    forall x | x in c && Get(x.doc, "billNumber") == Some(Str(Trim(bill)))
      ensures x in found
    {
      var m := IndexOf(x, c);
    }
  }

  /** The received total is the sum over the bill's receipts, whatever order they are listed in. */
  lemma {:induction false} AdjustmentTotal(c: Collection<Doc>, bill: string)
    ensures BillAdjustment(c, bill).paymentSummary.totalReceivedAmount == SumOf(FindByBillNumber(c, bill), ReceivedAll)
  {
    AdjustmentParts(c, bill);
    SumOfSort(FindByBillNumber(c, bill), false, ReceivedAll);
  }

  /** Every receipt holds its bill number as text, as the schema requires. */
  predicate BillNumbered(c: Collection<Doc>)
  {
    forall i :: 0 <= i < |c| ==> TextAt(c[i].doc, "billNumber").Some?
  }

  lemma {:induction false} SumOfAllAt(c: Collection<Doc>, bill: string)
    requires BillNumbered(c)
    ensures SumOf(AllAt(c, "billNumber", Str(bill)), ReceivedAll) == SumOf(c, ReceivedOnBill(bill))
  {
    if c != [] {
      assert BillNumbered(c[1..]) by {
        forall i | 0 <= i < |c[1..]|
          ensures TextAt(c[1..][i].doc, "billNumber").Some?
        {
          assert c[1..][i] == c[i + 1];
        }
      }
      SumOfAllAt(c[1..], bill);
      var rest := AllAt(c[1..], "billNumber", Str(bill));
      var r := AllAt(c, "billNumber", Str(bill));
      if Get(c[0].doc, "billNumber") == Some(Str(bill)) {
        assert r == [c[0]] + rest && r[1..] == rest;
      } else {
        assert r == rest;
      }
    }
  }

  /**
    On receipts that carry their bill numbers as text, the received total of a bill is the
    sum of what every receipt of that bill number contributes, across the whole collection.
   */
  lemma {:induction false} AdjustmentTotalOverCollection(c: Collection<Doc>, bill: string)
    requires BillNumbered(c)
    ensures BillAdjustment(c, bill).paymentSummary.totalReceivedAmount == SumOf(c, ReceivedOnBill(Trim(bill)))
  {
    AdjustmentTotal(c, bill);
    BillNumberQuery(ReceiptSchema(), bill);
    SumOfAllAt(c, Trim(bill));
  }

  /**
    The listed receipts are exactly the receipts of the bill, each shown once with its number,
    date, amount, currency, rupee amount, UTR number and remarks, oldest first.
   */
  lemma {:induction false} AdjustmentLines(c: Collection<Doc>, bill: string)
    ensures var lines := BillAdjustment(c, bill).receiptTransactions;
      var found := ReceiptsOfBill(c, bill);
      && |lines| == |found|
      && multiset(found) == multiset(FindByBillNumber(c, bill))
      && (forall i :: 0 <= i < |lines| ==> lines[i] == LineOf(found[i].doc))
      && (forall i, j :: 0 <= i < j < |lines| ==> DateLe(DateValue(lines[i].receiptDate), DateValue(lines[j].receiptDate)))
  {
    AdjustmentParts(c, bill);
    SortByDateSorted(FindByBillNumber(c, bill), false);
  }

  /** The breakdown has an entry for exactly the currencies the bill was paid in. */
  lemma {:induction false} AdjustmentBreakdownKeys(c: Collection<Doc>, bill: string, k: string)
    ensures k in BillAdjustment(c, bill).currencyBreakdown <==>
      exists i :: 0 <= i < |c| && Get(c[i].doc, "billNumber") == Some(Str(Trim(bill))) && CurrencyKey(c[i].doc) == k
  {
    var sorted := ReceiptsOfBill(c, bill);
    AdjustmentParts(c, bill);
    BillMembers(c, bill);
    BreakdownKeys(sorted, k);
    if x :| x in sorted && CurrencyKey(x.doc) == k {
      var n := IndexOf(x, c);
    }
    forall i | 0 <= i < |c| && Get(c[i].doc, "billNumber") == Some(Str(Trim(bill))) && CurrencyKey(c[i].doc) == k
      ensures exists x :: x in sorted && CurrencyKey(x.doc) == k
    {
      assert c[i] in sorted;
    }
  }

  lemma {:induction false} BreakdownKeys(rs: Collection<Doc>, k: string)
    ensures k in Breakdown(rs) <==> exists x :: x in rs && CurrencyKey(x.doc) == k
  {
    if x :| x in rs && CurrencyKey(x.doc) == k {
      var i := IndexOf(x, rs);
      assert k in CurrenciesOf(rs);
    }
  }

  /** Every receipt is in `currency`. */
  predicate AllIn(rs: Collection<Doc>, currency: string)
  {
    forall i :: 0 <= i < |rs| ==> Get(rs[i].doc, "currency") == Some(Str(currency))
  }

  lemma {:induction false} RupeeSums(rs: Collection<Doc>)
    requires AllIn(rs, "INR")
    ensures SumOf(rs, AmountInCurrency("INR")) == SumOf(rs, ReceivedAll)
  {
    if rs != [] {
      assert AllIn(rs[1..], "INR") by {
        forall i | 0 <= i < |rs[1..]|
          ensures Get(rs[1..][i].doc, "currency") == Some(Str("INR"))
        {
          assert rs[1..][i] == rs[i + 1];
        }
      }
      RupeeSums(rs[1..]);
    }
  }

  /**
    A bill paid only in rupees has a single breakdown entry, "INR", equal to its received
    total.
   */
  lemma {:induction false} RupeeBillBreakdown(c: Collection<Doc>, bill: string)
    requires !NoReceiptFor(c, bill)
    requires forall i :: 0 <= i < |c| && Get(c[i].doc, "billNumber") == Some(Str(Trim(bill))) ==>
      Get(c[i].doc, "currency") == Some(Str("INR"))
    ensures var r := BillAdjustment(c, bill);
      r.currencyBreakdown == map["INR" := r.paymentSummary.totalReceivedAmount]
  {
    var sorted := ReceiptsOfBill(c, bill);
    EmptyBillIff(c, bill);
    AdjustmentParts(c, bill);
    BillMembers(c, bill);
    assert AllIn(sorted, "INR") by {
      forall i | 0 <= i < |sorted|
        ensures Get(sorted[i].doc, "currency") == Some(Str("INR"))
      {
        assert sorted[i] in c;
        var n := IndexOf(sorted[i], c);
      }
    }
    RupeeBreakdown(sorted);
  }

  lemma {:induction false} RupeeBreakdown(rs: Collection<Doc>)
    requires rs != [] && AllIn(rs, "INR")
    ensures Breakdown(rs) == map["INR" := SumOf(rs, ReceivedAll)]
  {
    RupeeSums(rs);
    assert CurrencyKey(rs[0].doc) == "INR";
    assert CurrenciesOf(rs) == {"INR"};
  }

  // ---------------------------------------------------------------- pending bills

  /**
    One entry of the pending-bills list. `None` stands for "Not specified" in `billDate` and
    `creditParty`, and for a date that is not a number (`NaN`) in `lastReceiptDate`; the
    fields the route fills with fixed placeholder text are left out.
   */
  datatype PendingBill = PendingBill(
    billNumber: string,
    billDate: Option<Value>,
    creditParty: Option<Value>,
    totalReceived: real,
    lastReceiptDate: Option<int>)

  /** The query string of a pending-bills request. */
  datatype PendingQuery = PendingQuery(page: Option<string>, limit: Option<string>, creditPartyId: Option<string>)

  datatype PendingPage = PendingPage(data: seq<PendingBill>, pagination: PageInfo)

  /**
    The credit-party snapshot of `d` holds the id: the path is an ObjectId, so the query text is
    cast and compared as one, whatever the case of its hex letters.
   */
  predicate OfThatParty(d: Doc, id: string)
  {
    TextAt(d, "creditParty._id").Some? && SameId(TextAt(d, "creditParty._id").value, id)
  }

  /** The receipts whose credit-party snapshot has the id, in stored order. */
  function OfParty(c: Collection<Doc>, id: string): (r: Collection<Doc>)
    ensures forall i :: 0 <= i < |r| ==> r[i] in c && OfThatParty(r[i].doc, id)
    ensures forall i :: 0 <= i < |c| && OfThatParty(c[i].doc, id) ==> c[i] in r
  {
    if c == [] then []
    else
      var rest := OfParty(c[1..], id);
      assert forall i :: 1 <= i < |c| ==> c[i] == c[1..][i - 1];
      (if OfThatParty(c[0].doc, id) then [c[0]] else []) + rest
  }

  /** A party id sent with its hex letters in the other case still selects that party's receipts. */
  lemma {:induction false} PartyFilterIgnoresHexCase(c: Collection<Doc>, a: string, b: string)
    requires IsObjectIdText(a) && IsObjectIdText(b) && SameId(a, b)
    ensures PartyReceipts(c, Some(a)) == PartyReceipts(c, Some(b))
  {
    SameOfParty(c, a, b);
  }

  lemma {:induction false} SameOfParty(c: Collection<Doc>, a: string, b: string)
    requires SameId(a, b)
    ensures OfParty(c, a) == OfParty(c, b)
    decreases |c|
  {
    if c != [] {
      SameOfParty(c[1..], a, b);
    }
  }

  /**
    `find(filter)`, the filter naming the credit party when `creditPartyId` is sent and
    non-empty; an id that is not an ObjectId fails the cast and reaches the catch-all.
   */
  function PartyReceipts(c: Collection<Doc>, partyId: Option<string>): (r: Result<Collection<Doc>, Error>)
    ensures partyId.None? || partyId == Some("") ==> r == Success(c)
    ensures r.Failure? <==> partyId.Some? && partyId.value != "" && !IsObjectIdText(partyId.value)
    ensures r.Failure? ==> r.error == InternalError
    ensures r.Success? && partyId.Some? && partyId.value != "" ==>
      && (forall i :: 0 <= i < |r.value| ==> r.value[i] in c && OfThatParty(r.value[i].doc, partyId.value))
      && (forall i :: 0 <= i < |c| && OfThatParty(c[i].doc, partyId.value) ==> c[i] in r.value)
  {
    if partyId.None? || partyId.value == "" then Success(c)
    else if !IsObjectIdText(partyId.value) then Failure(InternalError)
    else Success(OfParty(c, partyId.value))
  }

  /** The bill-number key of each receipt, in order. */
  function BillKeys(rs: Collection<Doc>): (ks: seq<string>)
    ensures |ks| == |rs| && forall i :: 0 <= i < |rs| ==> ks[i] == BillKey(rs[i].doc)
  {
    seq(|rs|, i requires 0 <= i < |rs| => BillKey(rs[i].doc))
  }

  /**
    The names a fresh `{}` already answers through `Object.prototype`: grouping under one of
    them finds the inherited value instead of an empty slot, and pushing onto it throws.
   */
  const PrototypeNames: set<string> := {"constructor", "__proto__", "toString", "toLocaleString", "valueOf",
    "hasOwnProperty", "isPrototypeOf", "propertyIsEnumerable", "__defineGetter__", "__defineSetter__",
    "__lookupGetter__", "__lookupSetter__"}

  /** Some receipt is filed under a name `{}` inherits, so grouping throws. */
  predicate GroupingThrows(rs: Collection<Doc>)
  {
    exists i :: 0 <= i < |rs| && BillKey(rs[i].doc) in PrototypeNames
  }

  /** `billsByNumber[key]`: the receipts grouped under a key, in list order. */
  function GroupOf(rs: Collection<Doc>, key: string): Collection<Doc>
  {
    if rs == [] then []
    else (if BillKey(rs[0].doc) == key then [rs[0]] else []) + GroupOf(rs[1..], key)
  }

  /** A group holds exactly the receipts filed under its key. */
  lemma {:induction false} GroupMembers(rs: Collection<Doc>, key: string)
    ensures var g := GroupOf(rs, key);
      && (forall x :: x in g <==> x in rs && BillKey(x.doc) == key)
  {
    if rs != [] {
      GroupMembers(rs[1..], key);
      assert rs == [rs[0]] + rs[1..];
    }
  }

  /**
    `Math.max(...dates)`: the latest date, `None` (NaN) when some receipt has no date and for
    an empty group (null).
   */
  function LatestDate(g: Collection<Doc>): (r: Option<int>)
    ensures r.Some? ==> g != [] && (forall i :: 0 <= i < |g| ==> DateOf(g[i].doc).Some? && DateOf(g[i].doc).value <= r.value)
    ensures r.Some? ==> exists i :: 0 <= i < |g| && DateOf(g[i].doc) == r
    ensures g != [] && (forall i :: 0 <= i < |g| ==> DateOf(g[i].doc).Some?) ==> r.Some?
  {
    if g == [] || DateOf(g[0].doc).None? then None
    else if |g| == 1 then DateOf(g[0].doc)
    else
      var rest := LatestDate(g[1..]);
      assert forall i :: 1 <= i < |g| ==> g[i] == g[1..][i - 1];
      if rest.None? then None
      else
        var d := DateOf(g[0].doc).value;
        Some(if d >= rest.value then d else rest.value)
  }

  /** `value || 'Not specified'`. */
  function OrNotSpecified(v: Option<Value>): (r: Option<Value>)
    ensures r.Some? <==> Truthy(v)
    ensures r.Some? ==> r == v
  {
    if Truthy(v) then v else None
  }

  /** The list entry for one key, from the receipts newest first. */
  function Summary(rs: Collection<Doc>, key: string): PendingBill
  {
    var g := GroupOf(rs, key);
    var first := if g == [] then map[] else g[0].doc;
    PendingBill(key, OrNotSpecified(Get(first, "receiptDate")), OrNotSpecified(Get(first, "creditParty.partyName")),
      SumOf(g, ReceivedAll), LatestDate(g))
  }

  /**
    Every bill, in the order `Object.keys` gives the grouping object: numeric bill numbers
    ascending, then the others in the order their newest receipt appears.
   */
  function AllPendingBills(rs: Collection<Doc>): (bills: seq<PendingBill>)
  {
    var sorted := SortByDate(rs, true);
    var keys := KeysOf(BillKeys(sorted));
    seq(|keys|, i requires 0 <= i < |keys| => Summary(sorted, keys[i]))
  }

  /** `bills.slice(skip, skip + limit)` with the pagination block. */
  function Paginate(bills: seq<PendingBill>, page: int, limit: int): (r: PendingPage)
    requires limit != 0
    ensures r.pagination.totalItems == |bills| && r.pagination.currentPage == page && r.pagination.itemsPerPage == limit
    ensures limit > 0 ==> (r.pagination.totalPages - 1) * limit < |bills| <= r.pagination.totalPages * limit
  {
    var skip := Skip(page, limit);
    PendingPage(JsSlice(bills, skip, skip + limit), PageInfo(page, TotalPages(|bills|, limit), |bills|, limit))
  }

  /** A page shows the bills from the page's first position on, as many as the limit allows. */
  lemma {:induction false} PaginateWindow(bills: seq<PendingBill>, page: int, limit: int)
    requires page >= 1 && limit > 0
    ensures var data := Paginate(bills, page, limit).data;
      && |data| <= limit
      && forall i :: 0 <= i < |data| ==> Skip(page, limit) + i < |bills| && data[i] == bills[Skip(page, limit) + i]
  {
    MulMonotone(0, page - 1, limit);
    var skip: nat := Skip(page, limit);
    SliceAgreesWithWindow(bills, skip, limit);
  }

  /**
    `GET /receipt-transactions/pending-bills`. A malformed party id and a bill number that
    names an inherited property of `{}` both reach the catch-all.
   */
  function PendingBills(c: Collection<Doc>, q: PendingQuery): (r: Result<PendingPage, Error>)
    ensures r.Failure? <==>
      PartyReceipts(c, q.creditPartyId).Failure? || GroupingThrows(PartyReceipts(c, q.creditPartyId).value)
    ensures r.Failure? ==> r.error == InternalError
    ensures r.Success? ==>
      var page, limit := PageOf(q.page), LimitOf(q.limit);
      var bills := AllPendingBills(PartyReceipts(c, q.creditPartyId).value);
      r.value == Paginate(bills, page, limit)
  {
    match PartyReceipts(c, q.creditPartyId)
    case Failure(e) => Failure(e)
    case Success(rs) =>
      if GroupingThrows(rs) then Failure(InternalError)
      else Success(Paginate(AllPendingBills(rs), PageOf(q.page), LimitOf(q.limit)))
  }

  /** A single receipt filed under bill number "constructor" makes the list answer 500. */
  lemma {:induction false} ConstructorBillFails(e: Entry<Doc>)
    requires TextAt(e.doc, "billNumber") == Some("constructor")
    ensures PendingBills([e], PendingQuery(None, None, None)) == Failure(InternalError)
  {
    assert BillKey([e][0].doc) == "constructor";
  }

  /** The list holds one summary per key of the grouping object, in key order. */
  lemma {:induction false} PendingKeys(rs: Collection<Doc>)
    ensures var bills, keys := AllPendingBills(rs), KeysOf(BillKeys(SortByDate(rs, true)));
      && |bills| == |keys|
      && forall i :: 0 <= i < |bills| ==> bills[i].billNumber == keys[i]
  {
  }

  /** Each entry summarises the receipts filed under its bill number. */
  lemma {:induction false} PendingSummary(rs: Collection<Doc>, i: nat)
    requires i < |AllPendingBills(rs)|
    ensures var b := AllPendingBills(rs)[i]; b == Summary(SortByDate(rs, true), b.billNumber)
  {
  }

  /** A key occurs among the sorted receipts exactly when it occurs among the receipts. */
  lemma {:induction false} SortedKeys(rs: Collection<Doc>, k: string)
    ensures k in BillKeys(SortByDate(rs, true)) <==> exists j :: 0 <= j < |rs| && BillKey(rs[j].doc) == k
  {
    var sorted := SortByDate(rs, true);
    var ks := BillKeys(sorted);
    SortedMembers(rs, true);
    if k in ks {
      var m :| 0 <= m < |ks| && ks[m] == k;
      assert sorted[m] in rs;
    }
    if j :| 0 <= j < |rs| && BillKey(rs[j].doc) == k {
      assert rs[j] in sorted;
      var m := IndexOf(rs[j], sorted);
      assert ks[m] == k;
    }
  }

  /** No bill number is listed twice. */
  lemma {:induction false} PendingBillsDistinct(rs: Collection<Doc>)
    ensures var bills := AllPendingBills(rs);
      forall i, j :: 0 <= i < j < |bills| ==> bills[i].billNumber != bills[j].billNumber
  {
    PendingKeys(rs);
  }

  /** A bill number is listed exactly when some receipt is filed under it. */
  lemma {:induction false} PendingBillNumbers(rs: Collection<Doc>, k: string)
    ensures var bills := AllPendingBills(rs);
      (exists i :: 0 <= i < |bills| && bills[i].billNumber == k) <==> (exists j :: 0 <= j < |rs| && BillKey(rs[j].doc) == k)
  {
    var keys := KeysOf(BillKeys(SortByDate(rs, true)));
    var bills := AllPendingBills(rs);
    PendingKeys(rs);
    assert (exists i :: 0 <= i < |bills| && bills[i].billNumber == k) <==> k in keys;
    SortedKeys(rs, k);
  }

  lemma {:induction false} GroupTotal(rs: Collection<Doc>, key: string)
    ensures SumOf(GroupOf(rs, key), ReceivedAll) == SumOf(rs, ReceivedOnBill(key))
  {
    if rs != [] {
      GroupTotal(rs[1..], key);
      var g, rest := GroupOf(rs, key), GroupOf(rs[1..], key);
      if BillKey(rs[0].doc) == key {
        assert g == [rs[0]] + rest && g[1..] == rest;
        assert SumOf(g, ReceivedAll) == Received(rs[0].doc) + SumOf(rest, ReceivedAll);
      } else {
        assert g == rest;
      }
    }
  }

  /** Each bill's total is the sum of what every receipt of that bill number contributes. */
  lemma {:induction false} PendingBillTotal(rs: Collection<Doc>, i: nat)
    requires i < |AllPendingBills(rs)|
    ensures var b := AllPendingBills(rs)[i]; b.totalReceived == SumOf(rs, ReceivedOnBill(b.billNumber))
  {
    var sorted := SortByDate(rs, true);
    var key := AllPendingBills(rs)[i].billNumber;
    PendingSummary(rs, i);
    GroupTotal(sorted, key);
    SumOfSort(rs, true, ReceivedOnBill(key));
  }

  lemma {:induction false} GroupSorted(rs: Collection<Doc>, key: string, newestFirst: bool)
    requires SortedByDate(rs, newestFirst)
    ensures SortedByDate(GroupOf(rs, key), newestFirst)
  {
    if rs != [] {
      SortedTail(rs, newestFirst);
      GroupSorted(rs[1..], key, newestFirst);
      var rest := GroupOf(rs[1..], key);
      if BillKey(rs[0].doc) == key {
        GroupMembers(rs[1..], key);
        forall i | 0 <= i < |rest|
          ensures InOrder(rs[0].doc, rest[i].doc, newestFirst)
        {
          assert rest[i] in rs[1..];
          var m :| 0 <= m < |rs[1..]| && rs[1..][m] == rest[i];
        }
        ConsSorted(rs[0], rest, newestFirst);
      }
    }
  }

  /**
    When every receipt is dated, a bill's date is its latest receipt's date, and no receipt
    of that bill is later.
   */
  lemma {:induction false} PendingBillDate(rs: Collection<Doc>, i: nat)
    requires forall j :: 0 <= j < |rs| ==> DateOf(rs[j].doc).Some?
    requires i < |AllPendingBills(rs)|
    ensures var b := AllPendingBills(rs)[i];
      && b.lastReceiptDate.Some? && b.billDate == Some(Time(b.lastReceiptDate.value))
      && forall j :: 0 <= j < |rs| && BillKey(rs[j].doc) == b.billNumber ==> DateOf(rs[j].doc).value <= b.lastReceiptDate.value
  {
    var b := AllPendingBills(rs)[i];
    PendingSummary(rs, i);
    PendingBillNumbers(rs, b.billNumber);
    forall x | x in rs
      ensures DateOf(x.doc).Some?
    {
      var j :| 0 <= j < |rs| && rs[j] == x;
    }
    GroupLatest(rs, b.billNumber);
    SummaryDate(SortByDate(rs, true), b.billNumber);
  }

  /** A summary's bill date is the date of the first receipt of its group, when that is a date. */
  lemma {:induction false} SummaryDate(sorted: Collection<Doc>, key: string)
    requires GroupOf(sorted, key) != [] && DateOf(GroupOf(sorted, key)[0].doc).Some?
    ensures Summary(sorted, key).billDate == Some(Time(DateOf(GroupOf(sorted, key)[0].doc).value))
  {
    var d := GroupOf(sorted, key)[0].doc;
    assert Get(d, "receiptDate") == Some(Time(DateOf(d).value));
  }

  /** Over dated receipts, the group of a key that occurs starts with its latest receipt. */
  lemma {:induction false} GroupLatest(rs: Collection<Doc>, key: string)
    requires forall x :: x in rs ==> DateOf(x.doc).Some?
    requires exists j :: 0 <= j < |rs| && BillKey(rs[j].doc) == key
    ensures var g := GroupOf(SortByDate(rs, true), key);
      && g != [] && LatestDate(g).Some? && LatestDate(g) == DateOf(g[0].doc)
      && forall j :: 0 <= j < |rs| && BillKey(rs[j].doc) == key ==> DateOf(rs[j].doc).value <= LatestDate(g).value
  {
    var sorted := SortByDate(rs, true);
    var g := GroupOf(sorted, key);
    GroupMembers(sorted, key);
    SortedMembers(rs, true);
    var j0 :| 0 <= j0 < |rs| && BillKey(rs[j0].doc) == key;
    assert rs[j0] in g;
    forall k | 0 <= k < |g|
      ensures DateOf(g[k].doc).Some?
    {
      assert g[k] in rs;
    }
    SortByDateSorted(rs, true);
    GroupSorted(sorted, key, true);
    LatestOfSorted(g);
    forall j | 0 <= j < |rs| && BillKey(rs[j].doc) == key
      ensures DateOf(rs[j].doc).value <= LatestDate(g).value
    {
      assert rs[j] in g;
      var k := IndexOf(rs[j], g);
    }
  }

  /**
    A bill's credit party, when shown, is the party name snapshotted on one of its receipts
    (the newest).
   */
  lemma {:induction false} PendingBillParty(rs: Collection<Doc>, i: nat)
    requires i < |AllPendingBills(rs)|
    ensures var b := AllPendingBills(rs)[i];
      b.creditParty.Some? ==> exists x :: x in rs && BillKey(x.doc) == b.billNumber && Get(x.doc, "creditParty.partyName") == b.creditParty
  {
    var sorted := SortByDate(rs, true);
    var b := AllPendingBills(rs)[i];
    var g := GroupOf(sorted, b.billNumber);
    PendingSummary(rs, i);
    if b.creditParty.Some? {
      GroupMembers(sorted, b.billNumber);
      SortedMembers(rs, true);
      assert g[0] in sorted;
    }
  }

  /** In a non-empty group sorted newest first with every receipt dated, the latest date is the first. */
  lemma {:induction false} LatestOfSorted(g: Collection<Doc>)
    requires g != [] && SortedByDate(g, true)
    requires forall k :: 0 <= k < |g| ==> DateOf(g[k].doc).Some?
    ensures LatestDate(g) == DateOf(g[0].doc)
  {
    var last := LatestDate(g);
    var top :| 0 <= top < |g| && DateOf(g[top].doc) == last;
    if top > 0 {
      assert InOrder(g[0].doc, g[top].doc, true);
    }
  }

  /**
    The list order is the order of `Object.keys`: bill numbers that are array indices come
    first, ascending by value; every other bill number follows in the order its newest receipt
    takes in the list sorted newest first.
   */
  lemma {:induction false} PendingBillsOrder(rs: Collection<Doc>)
    ensures var bills := AllPendingBills(rs);
      var ks := BillKeys(SortByDate(rs, true));
      && (forall i, j :: 0 <= i < j < |bills| && IsArrayIndex(bills[j].billNumber) ==>
            IsArrayIndex(bills[i].billNumber) && DigitsValue(bills[i].billNumber) <= DigitsValue(bills[j].billNumber))
      && (forall i, j :: 0 <= i < j < |bills| && !IsArrayIndex(bills[i].billNumber) ==>
            !IsArrayIndex(bills[j].billNumber) && bills[i].billNumber in ks && bills[j].billNumber in ks
            && FirstIndex(ks, bills[i].billNumber) < FirstIndex(ks, bills[j].billNumber))
  {
    var ks := BillKeys(SortByDate(rs, true));
    var keys := KeysOf(ks);
    var bills := AllPendingBills(rs);
    PendingKeys(rs);
    KeysOfIndicesFirst(ks);
    KeysOfNamedInOrder(ks);
    assert forall i :: 0 <= i < |keys| ==> keys[i] in ks;
  }

  /**
    On receipts that carry their bill numbers as text, with no credit-party filter, each
    listed bill's total equals the received total its bill-adjustment view reports.
   */
  lemma {:induction false} PendingAgreesWithAdjustment(c: Collection<Doc>, i: nat)
    requires BillNumbered(c)
    requires i < |AllPendingBills(c)|
    requires var k := AllPendingBills(c)[i].billNumber; Trim(k) == k
    ensures var b := AllPendingBills(c)[i];
      b.totalReceived == BillAdjustment(c, b.billNumber).paymentSummary.totalReceivedAmount
  {
    var k := AllPendingBills(c)[i].billNumber;
    PendingBillTotal(c, i);
    AdjustmentTotalOverCollection(c, k);
  }
}
