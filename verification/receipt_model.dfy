/**
  The receipt schema: a payment received against a bill, with a snapshot of the paying
  credit party, the amount in its currency and in rupees, and the bank reference.
 */
module ReceiptModel {
  import opened Wrappers
  import opened Text
  import opened Patterns
  import opened Schema
  import opened Store
  import opened Queries

  /** `creditParty.partyName`, `.country` and `.port`: required text, neither trimmed nor bounded. */
  const SnapshotText: Rule := TextRule(true, false, KeepCase, 0, None, None, [], None)

  /** `billAmount`, `receiptAmount` and `inrAmount`: required numbers with `min: 0`. */
  const AmountRule: Rule := NumberRule(true, Some(0.0), None)

  const Currencies: seq<string> := ["INR", "USD", "EUR", "GBP"]

  /** `currency`: one of the four codes, "INR" by default, not trimmed. */
  const CurrencyRule: Rule := TextRule(false, false, KeepCase, 0, None, None, Currencies, Some("INR"))

  /** `exchangeRate`: a number with `min: 0`, 1 by default. */
  const RateRule: Rule := NumberRule(false, Some(0.0), Some(1.0))

  /**
    Field `i` of the receipt schema, in declaration order. The `Date.now` default of
    `receiptDate` is not declared: the create route refuses a request without a date before it
    builds the document, and an update applies no defaults.
   */
  function ReceiptField(i: int): Field
  {
    match i
    case 0 => Field("receiptNumber", PlainText(true, 50))
    case 1 => Field("receiptDate", DateRule(true))
    case 2 => Field("creditParty._id", IdRule(true))
    case 3 => Field("creditParty.partyName", SnapshotText)
    case 4 => Field("creditParty.country", SnapshotText)
    case 5 => Field("creditParty.port", SnapshotText)
    case 6 => Field("billNumber", PlainText(true, 50))
    case 7 => Field("billAmount", AmountRule)
    case 8 => Field("receiptAmount", AmountRule)
    case 9 => Field("inrAmount", AmountRule)
    case 10 => Field("currency", CurrencyRule)
    case 11 => Field("exchangeRate", RateRule)
    case 12 => Field("utrNumber", PlainText(true, 100))
    case 13 => Field("remarks", PlainText(false, 500))
    case _ => Field("isActive", FlagRule(Some(true)))
  }

  function ReceiptSchema(): Schema
  {
    seq(15, ReceiptField)
  }

  /** The receipt schema, field by field, for any `s` equal to it. */
  lemma {:induction false} ReceiptFields(s: Schema)
    requires s == ReceiptSchema()
    ensures |s| == 15 && forall j :: 0 <= j < 15 ==> s[j] == ReceiptField(j)
  {
  }

  /** The conjunction of the receipt path checks. */
  predicate ReceiptPathsOk(d: Doc)
  {
    && PathOk(PlainText(true, 50), Get(d, "receiptNumber"))
    && PathOk(DateRule(true), Get(d, "receiptDate"))
    && PathOk(IdRule(true), Get(d, "creditParty._id"))
    && PathOk(SnapshotText, Get(d, "creditParty.partyName"))
    && PathOk(SnapshotText, Get(d, "creditParty.country"))
    && PathOk(SnapshotText, Get(d, "creditParty.port"))
    && PathOk(PlainText(true, 50), Get(d, "billNumber"))
    && PathOk(AmountRule, Get(d, "billAmount"))
    && PathOk(AmountRule, Get(d, "receiptAmount"))
    && PathOk(AmountRule, Get(d, "inrAmount"))
    && PathOk(CurrencyRule, Get(d, "currency"))
    && PathOk(RateRule, Get(d, "exchangeRate"))
    && PathOk(PlainText(true, 100), Get(d, "utrNumber"))
    && PathOk(PlainText(false, 500), Get(d, "remarks"))
    && PathOk(FlagRule(Some(true)), Get(d, "isActive"))
  }

  lemma {:induction false} ReceiptPaths(d: Doc)
    ensures Valid(ReceiptSchema(), d) <==> ReceiptPathsOk(d)
  {
    ValidReceiptPaths(ReceiptSchema(), d);
  }

  lemma {:induction false} ValidReceiptPaths(s: Schema, d: Doc)
    requires s == ReceiptSchema()
    ensures Valid(s, d) <==> ReceiptPathsOk(d)
  {
    ReceiptFields(s);
    if Valid(s, d) {
      assert PathOk(s[0].rule, Get(d, s[0].path));
      assert PathOk(s[1].rule, Get(d, s[1].path));
      assert PathOk(s[2].rule, Get(d, s[2].path));
      assert PathOk(s[3].rule, Get(d, s[3].path));
      assert PathOk(s[4].rule, Get(d, s[4].path));
      assert PathOk(s[5].rule, Get(d, s[5].path));
      assert PathOk(s[6].rule, Get(d, s[6].path));
      assert PathOk(s[7].rule, Get(d, s[7].path));
      assert PathOk(s[8].rule, Get(d, s[8].path));
      assert PathOk(s[9].rule, Get(d, s[9].path));
      assert PathOk(s[10].rule, Get(d, s[10].path));
      assert PathOk(s[11].rule, Get(d, s[11].path));
      assert PathOk(s[12].rule, Get(d, s[12].path));
      assert PathOk(s[13].rule, Get(d, s[13].path));
      assert PathOk(s[14].rule, Get(d, s[14].path));
    }
  }


  /** The path is absent or holds one of the four currency codes. */
  predicate OptionalCurrency(d: Doc)
  {
    "currency" !in d || (d["currency"].Str? && d["currency"].s in Currencies)
  }

  /** What a storable receipt looks like, field by field. */
  predicate IsValidReceipt(d: Doc)
  {
    && HasText(d, "receiptNumber") && |d["receiptNumber"].s| <= 50
    && "receiptDate" in d && d["receiptDate"].Time?
    && "creditParty._id" in d && d["creditParty._id"].Str? && IsObjectIdText(d["creditParty._id"].s)
    && HasText(d, "creditParty.partyName")
    && HasText(d, "creditParty.country")
    && HasText(d, "creditParty.port")
    && HasText(d, "billNumber") && |d["billNumber"].s| <= 50
    && NonNegative(d, "billAmount")
    && NonNegative(d, "receiptAmount")
    && NonNegative(d, "inrAmount")
    && OptionalCurrency(d)
    && OptionalNonNegative(d, "exchangeRate")
    && HasText(d, "utrNumber") && |d["utrNumber"].s| <= 100
    && OptionalTextUpTo(d, "remarks", 500)
    && OptionalFlag(d, "isActive")
  }

  /** The schema's validators accept exactly the receipts described above. */
  lemma {:induction false} ReceiptValidation(d: Doc)
    ensures Valid(ReceiptSchema(), d) <==> IsValidReceipt(d)
  {
    ReceiptPaths(d);
    PlainTextPath(d, "receiptNumber", true, 50);
    DatePath(d, "receiptDate", true);
    PlainTextPath(d, "billNumber", true, 50);
    NonNegativePath(d, "billAmount", true, None);
    NonNegativePath(d, "receiptAmount", true, None);
    NonNegativePath(d, "inrAmount", true, None);
    NonNegativePath(d, "exchangeRate", false, Some(1.0));
    PlainTextPath(d, "utrNumber", true, 100);
    PlainTextPath(d, "remarks", false, 500);
    FlagPath(d, "isActive", Some(true));
  }

  lemma {:induction false} PreparedReceiptCurrencyByDefault(s: Schema, body: Doc)
    requires s == ReceiptSchema() && "currency" !in body
    ensures var d := Prepare(s, body); "currency" in d && d["currency"] == Str("INR")
  {
    ReceiptFields(s);
    assert s[10] == Field("currency", CurrencyRule);
    PreparedPath(s, body, 10);
  }

  /** A receipt saved without a currency is in rupees. */
  lemma {:induction false} ReceiptCurrencyByDefault(body: Doc)
    requires "currency" !in body
    ensures var d := Prepare(ReceiptSchema(), body); "currency" in d && d["currency"] == Str("INR")
  {
    PreparedReceiptCurrencyByDefault(ReceiptSchema(), body);
  }

  lemma {:induction false} PreparedReceiptRateByDefault(s: Schema, body: Doc)
    requires s == ReceiptSchema() && "exchangeRate" !in body
    ensures var d := Prepare(s, body); "exchangeRate" in d && d["exchangeRate"] == Num(1.0)
  {
    ReceiptFields(s);
    assert s[11] == Field("exchangeRate", RateRule);
    PreparedPath(s, body, 11);
  }

  /** A receipt saved without an exchange rate has rate 1. */
  lemma {:induction false} ReceiptRateByDefault(body: Doc)
    requires "exchangeRate" !in body
    ensures var d := Prepare(ReceiptSchema(), body); "exchangeRate" in d && d["exchangeRate"] == Num(1.0)
  {
    PreparedReceiptRateByDefault(ReceiptSchema(), body);
  }

  lemma {:induction false} PreparedReceiptActiveByDefault(s: Schema, body: Doc)
    requires s == ReceiptSchema() && "isActive" !in body
    ensures var d := Prepare(s, body); "isActive" in d && d["isActive"] == Bool(true)
  {
    ReceiptFields(s);
    assert s[14] == Field("isActive", FlagRule(Some(true)));
    PreparedPath(s, body, 14);
  }

  /** A new receipt is active unless the request says otherwise. */
  lemma {:induction false} ReceiptActiveByDefault(body: Doc)
    requires "isActive" !in body
    ensures var d := Prepare(ReceiptSchema(), body); "isActive" in d && d["isActive"] == Bool(true)
  {
    PreparedReceiptActiveByDefault(ReceiptSchema(), body);
  }


  // ---------------------------------------------------------------- casts the routes rely on

  /** Equality filters on `billNumber` compare with the trimmed argument. */
  lemma {:induction false} BillNumberQuery(s: Schema, a: string)
    requires s == ReceiptSchema()
    ensures QueryValue(s, "billNumber", Str(a)) == Str(Trim(a))
  {
    ReceiptFields(s);
    assert s[6] == Field("billNumber", PlainText(true, 50));
    RuleOfFirst(s, 6);
  }

  /** The amounts, the rate and the currency are stored exactly as sent: none of them has a setter. */
  lemma {:induction false} AmountCastsKeep(s: Schema, v: Value)
    requires s == ReceiptSchema()
    ensures CastValue(RuleOf(s, "receiptAmount"), v) == v
    ensures CastValue(RuleOf(s, "inrAmount"), v) == v
    ensures CastValue(RuleOf(s, "currency"), v) == v
    ensures CastValue(RuleOf(s, "exchangeRate"), v) == v
  {
    ReceiptCastAt(s, 8, "receiptAmount", v);
    ReceiptCastAt(s, 9, "inrAmount", v);
    ReceiptCastAt(s, 10, "currency", v);
    ReceiptCastAt(s, 11, "exchangeRate", v);
  }

  /** The amount, currency and rate paths are each found at their own declaration, with a non-text rule. */
  lemma {:induction false} ReceiptCastAt(s: Schema, i: nat, p: string, v: Value)
    requires s == ReceiptSchema() && (i == 1 || 8 <= i <= 11) && p == ReceiptField(i).path
    ensures CastValue(RuleOf(s, p), v) == v
  {
    ReceiptFields(s);
    forall j | 0 <= j < i
      ensures s[j].path != s[i].path
    {
      assert s[j] == ReceiptField(j) && s[i] == ReceiptField(i);
    }
    RuleOfFirst(s, i);
    if i == 1 {
      assert ReceiptField(i).rule == DateRule(true);
    } else if i == 8 || i == 9 {
      assert ReceiptField(i).rule == AmountRule;
    } else if i == 10 {
      assert ReceiptField(i).rule == CurrencyRule;
    } else {
      assert ReceiptField(i).rule == RateRule;
    }
  }

  lemma {:induction false} ReceiptCastsKeep(v: Value)
    ensures CastValue(RuleOf(ReceiptSchema(), "receiptAmount"), v) == v
    ensures CastValue(RuleOf(ReceiptSchema(), "inrAmount"), v) == v
    ensures CastValue(RuleOf(ReceiptSchema(), "currency"), v) == v
    ensures CastValue(RuleOf(ReceiptSchema(), "exchangeRate"), v) == v
  {
    AmountCastsKeep(ReceiptSchema(), v);
  }

  // ---------------------------------------------------------------- amounts

  /** `a * b` on two numbers. Any other operand is outside the modelled value domain. */
  function ConvertToInr(a: Value, b: Value): (r: Value)
    ensures a.Num? && b.Num? ==> r == Num(a.n * b.n)
  {
    if a.Num? && b.Num? then Num(a.n * b.n) else a
  }

  /**
    The rupee amount of a receipt: the amount times the exchange rate when the currency is
    exactly "USD" and the rate is truthy, the amount itself otherwise (also for EUR and GBP).
   */
  function InrFor(amount: Value, currency: Option<Value>, rate: Option<Value>): (r: Value)
    ensures currency != Some(Str("USD")) ==> r == amount
    ensures !Truthy(rate) ==> r == amount
    ensures currency == Some(Str("USD")) && Truthy(rate) && amount.Num? && rate.value.Num? ==>
      r == Num(amount.n * rate.value.n)
  {
    if currency == Some(Str("USD")) && Truthy(rate) then ConvertToInr(amount, rate.value) else amount
  }

  /** A stored receipt whose rupee amount agrees with its amount, currency and rate. */
  predicate InrConsistent(d: Doc)
  {
    "receiptAmount" in d && "inrAmount" in d
    && d["inrAmount"] == InrFor(d["receiptAmount"], Get(d, "currency"), Get(d, "exchangeRate"))
  }

  /** The number at `path`; a receipt the schema accepts holds one at every amount path. */
  function NumberAt(d: Doc, path: string): real
  {
    if path in d && d[path].Num? then d[path].n else 0.0
  }

  /**
    What a receipt contributes to a bill's received total: the rupee amount for a USD receipt,
    the amount as received for any other currency.
   */
  function Received(d: Doc): real
  {
    if Get(d, "currency") == Some(Str("USD")) then NumberAt(d, "inrAmount") else NumberAt(d, "receiptAmount")
  }

  /** Where the rupee amount is consistent, it is exactly what the receipt contributes to its bill. */
  lemma {:induction false} ConsistentInrIsReceived(d: Doc)
    requires InrConsistent(d)
    ensures NumberAt(d, "inrAmount") == Received(d)
  {
  }

  /** The key a receipt is grouped under in a JavaScript object: its bill number as text. */
  function BillKey(d: Doc): string
  {
    TextAt(d, "billNumber").GetOr("undefined")
  }

  /** The key a receipt is grouped under by currency. */
  function CurrencyKey(d: Doc): string
  {
    TextAt(d, "currency").GetOr("undefined")
  }

  /** The per-receipt quantities the views add up. */
  datatype Measure =
    | ReceivedAll
    | ReceivedOnBill(bill: string)
    | AmountInCurrency(currency: string)
    | InrOnBill(group: Option<Value>)

  function Measured(m: Measure, d: Doc): real
  {
    match m
    case ReceivedAll => Received(d)
    case ReceivedOnBill(b) => if BillKey(d) == b then Received(d) else 0.0
    case AmountInCurrency(k) => if CurrencyKey(d) == k then NumberAt(d, "receiptAmount") else 0.0
    case InrOnBill(g) => if Get(d, "billNumber") == g then NumberAt(d, "inrAmount") else 0.0
  }

  /** The sum of a measure over receipts, first to last, as `reduce` adds them. */
  function SumOf(rs: Collection<Doc>, m: Measure): real
  {
    if rs == [] then 0.0 else Measured(m, rs[0].doc) + SumOf(rs[1..], m)
  }

  /** Adding from the other end gives the same sum. */
  lemma {:induction false} SumOfSnoc(rs: Collection<Doc>, m: Measure)
    requires rs != []
    ensures SumOf(rs, m) == SumOf(rs[..|rs| - 1], m) + Measured(m, rs[|rs| - 1].doc)
  {
    if |rs| > 1 {
      assert rs[1..][..|rs| - 2] == rs[..|rs| - 1][1..];
      SumOfSnoc(rs[1..], m);
    }
  }

  // ---------------------------------------------------------------- finders

  /** `ReceiptTransaction.findByBillNumber(bill)`: every receipt of that bill, the argument trimmed. */
  function FindByBillNumber(c: Collection<Doc>, bill: string): (r: Collection<Doc>)
    ensures forall i :: 0 <= i < |r| ==> r[i] in c && Get(r[i].doc, "billNumber") == Some(Str(Trim(bill)))
    ensures forall i :: 0 <= i < |c| && Get(c[i].doc, "billNumber") == Some(Str(Trim(bill))) ==> c[i] in r
  {
    BillNumberQuery(ReceiptSchema(), bill);
    FindAllExact(c, ReceiptSchema(), "billNumber", Str(bill))
  }

  /** Some receipt is grouped under `g` by the aggregation (an absent bill number groups under null). */
  predicate GroupsUnder(c: Collection<Doc>, g: Option<Value>)
  {
    exists i :: 0 <= i < |c| && Get(c[i].doc, "billNumber") == g
  }

  /**
    `ReceiptTransaction.findPendingBills()`: a `$group` on `billNumber` summing `inrAmount`;
    `$sum` counts a missing or non-numeric amount as nothing.
   */
  function FindPendingBills(c: Collection<Doc>): (m: map<Option<Value>, real>)
    ensures forall g :: g in m <==> GroupsUnder(c, g)
  {
    if c == [] then map[]
    else
      var g := Get(c[|c| - 1].doc, "billNumber");
      var before := FindPendingBills(c[..|c| - 1]);
      GroupsUnderSnoc(c);
      before[g := SoFar(before, g) + NumberAt(c[|c| - 1].doc, "inrAmount")]
  }

  /** The running total of group `g`, nothing when the group has not appeared yet. */
  function SoFar(m: map<Option<Value>, real>, g: Option<Value>): real
  {
    if g in m then m[g] else 0.0
  }

  lemma {:induction false} GroupsUnderSnoc(c: Collection<Doc>)
    requires c != []
    ensures forall h :: GroupsUnder(c, h) <==> h == Get(c[|c| - 1].doc, "billNumber") || GroupsUnder(c[..|c| - 1], h)
  {
    var init := c[..|c| - 1];
    forall h | GroupsUnder(init, h) ensures GroupsUnder(c, h) {
      var i :| 0 <= i < |init| && Get(init[i].doc, "billNumber") == h;
      assert c[i] == init[i];
    }
    forall h | GroupsUnder(c, h) && h != Get(c[|c| - 1].doc, "billNumber") ensures GroupsUnder(init, h) {
      var i :| 0 <= i < |c| && Get(c[i].doc, "billNumber") == h;
      assert i < |init| && init[i] == c[i];
    }
  }

  /** Each group's total is the sum of `inrAmount` over the receipts of that bill number. */
  lemma {:induction false} PendingBillTotals(c: Collection<Doc>, g: Option<Value>)
    ensures SoFar(FindPendingBills(c), g) == SumOf(c, InrOnBill(g))
  {
    if c != [] {
      PendingBillTotals(c[..|c| - 1], g);
      SumOfSnoc(c, InrOnBill(g));
    }
  }

  /**
    On receipts the schema accepts and whose rupee amounts are consistent, the aggregation's
    total for a bill is the total the bill-adjustment and pending-bills views compute.
   */
  lemma {:induction false} PendingTotalsAgree(c: Collection<Doc>, bill: string)
    requires forall i :: 0 <= i < |c| ==> IsValidReceipt(c[i].doc) && InrConsistent(c[i].doc)
    ensures SumOf(c, InrOnBill(Some(Str(bill)))) == SumOf(c, ReceivedOnBill(bill))
  {
    if c != [] {
      ConsistentInrIsReceived(c[0].doc);
      assert forall i :: 0 <= i < |c[1..]| ==> c[1..][i] == c[i + 1];
      PendingTotalsAgree(c[1..], bill);
    }
  }
}
