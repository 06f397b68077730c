/**
  The purchase schema: a purchase bill between a debit and a credit party, referenced by id
  rather than copied, with item lines, a total, a currency and a workflow status. The
  schema checks each number on its own; nothing relates the total to the lines.
 */
module PurchaseModel {
  import opened Wrappers
  import opened Text
  import opened Patterns
  import opened Schema
  import opened Store
  import opened Queries
  import opened ReceiptModel

  const Statuses: seq<string> := ["draft", "pending", "approved", "completed", "cancelled"]

  /** `status`: one of the five workflow states, "draft" by default, not trimmed. */
  const StatusRule: Rule := TextRule(false, false, KeepCase, 0, None, None, Statuses, Some("draft"))

  /** Field `i` of the purchase schema, in declaration order; the `items` array is kept apart. */
  function PurchaseField(i: int): Field
  {
    match i
    case 0 => Field("transactionNumber", PlainText(true, 50))
    case 1 => Field("transactionDate", DateRule(true))
    case 2 => Field("debitParty", IdRule(true))
    case 3 => Field("creditParty", IdRule(true))
    case 4 => Field("totalAmount", AmountRule)
    case 5 => Field("currency", CurrencyRule)
    case 6 => Field("broker", IdRule(false))
    case 7 => Field("cha", IdRule(false))
    case 8 => Field("status", StatusRule)
    case 9 => Field("remarks", PlainText(false, 500))
    case 10 => Field("isActive", FlagRule(Some(true)))
    case 11 => Field("createdBy", IdRule(true))
    case _ => Field("updatedBy", IdRule(false))
  }

  function PurchaseSchema(): Schema
  {
    seq(13, PurchaseField)
  }

  /** One entry of `items`: the item's id and three numbers, each required and not below zero. */
  function LineField(i: int): Field
  {
    match i
    case 0 => Field("item", IdRule(true))
    case 1 => Field("quantity", AmountRule)
    case 2 => Field("rate", AmountRule)
    case _ => Field("amount", AmountRule)
  }

  function LineSchema(): Schema
  {
    seq(4, LineField)
  }

  /** A purchase document: its top-level paths and its item lines. */
  datatype Purchase = Purchase(header: Doc, items: seq<Doc>)

  /** Mongoose validates the top-level paths and every sub-document of the array. */
  predicate ValidPurchase(p: Purchase)
  {
    Valid(PurchaseSchema(), p.header) && forall i :: 0 <= i < |p.items| ==> Valid(LineSchema(), p.items[i])
  }

  lemma {:induction false} PurchaseFields(s: Schema)
    requires s == PurchaseSchema()
    ensures |s| == 13 && forall j :: 0 <= j < 13 ==> s[j] == PurchaseField(j)
  {
  }

  lemma {:induction false} LineFields(s: Schema)
    requires s == LineSchema()
    ensures |s| == 4 && forall j :: 0 <= j < 4 ==> s[j] == LineField(j)
  {
  }

  // ---------------------------------------------------------------- what validation accepts

  /** The path holds the text of an ObjectId. */
  predicate HoldsId(d: Doc, path: string)
  {
    path in d && d[path].Str? && IsObjectIdText(d[path].s)
  }

  /** The path is absent or holds the text of an ObjectId. */
  predicate OptionalId(d: Doc, path: string)
  {
    path !in d || (d[path].Str? && IsObjectIdText(d[path].s))
  }

  /** The path is absent or holds one of `choices`. */
  predicate OptionalChoice(d: Doc, path: string, choices: seq<string>)
  {
    path !in d || (d[path].Str? && d[path].s in choices)
  }

  /** What a storable purchase header looks like, field by field. */
  predicate IsValidHeader(d: Doc)
  {
    && HasText(d, "transactionNumber") && |d["transactionNumber"].s| <= 50
    && "transactionDate" in d && d["transactionDate"].Time?
    && HoldsId(d, "debitParty")
    && HoldsId(d, "creditParty")
    && NonNegative(d, "totalAmount")
    && OptionalChoice(d, "currency", Currencies)
    && OptionalId(d, "broker")
    && OptionalId(d, "cha")
    && OptionalChoice(d, "status", Statuses)
    && OptionalTextUpTo(d, "remarks", 500)
    && OptionalFlag(d, "isActive")
    && HoldsId(d, "createdBy")
    && OptionalId(d, "updatedBy")
  }

  /** What a storable line looks like: an item id and three numbers not below zero. */
  predicate IsValidLine(l: Doc)
  {
    HoldsId(l, "item") && NonNegative(l, "quantity") && NonNegative(l, "rate") && NonNegative(l, "amount")
  }

  predicate HeaderPathsOk(d: Doc)
  {
    && PathOk(PlainText(true, 50), Get(d, "transactionNumber"))
    && PathOk(DateRule(true), Get(d, "transactionDate"))
    && PathOk(IdRule(true), Get(d, "debitParty"))
    && PathOk(IdRule(true), Get(d, "creditParty"))
    && PathOk(AmountRule, Get(d, "totalAmount"))
    && PathOk(CurrencyRule, Get(d, "currency"))
    && PathOk(IdRule(false), Get(d, "broker"))
    && PathOk(IdRule(false), Get(d, "cha"))
    && PathOk(StatusRule, Get(d, "status"))
    && PathOk(PlainText(false, 500), Get(d, "remarks"))
    && PathOk(FlagRule(Some(true)), Get(d, "isActive"))
    && PathOk(IdRule(true), Get(d, "createdBy"))
    && PathOk(IdRule(false), Get(d, "updatedBy"))
  }

  lemma {:induction false} ValidHeaderPaths(s: Schema, d: Doc)
    requires s == PurchaseSchema()
    ensures Valid(s, d) <==> HeaderPathsOk(d)
  {
    PurchaseFields(s);
    if Valid(s, d) {
      assert PathOk(s[0].rule, Get(d, s[0].path));
      assert PathOk(s[1].rule, Get(d, s[1].path));
      assert PathOk(s[2].rule, Get(d, s[2].path));
      assert PathOk(s[3].rule, Get(d, s[3].path));
      assert PathOk(s[4].rule, Get(d, s[4].path));
      assert PathOk(s[5].rule, Get(d, s[5].path));
      assert PathOk(s[6].rule, Get(d, s[6].path));
      assert PathOk(s[7].rule, Get(d, s[7].path));
      assert PathOk(s[8].rule, Get(d, s[8].path));
      assert PathOk(s[9].rule, Get(d, s[9].path));
      assert PathOk(s[10].rule, Get(d, s[10].path));
      assert PathOk(s[11].rule, Get(d, s[11].path));
      assert PathOk(s[12].rule, Get(d, s[12].path));
    }
  }

  /** A required id path holds an ObjectId; an optional one is absent or holds one. */
  lemma {:induction false} IdPath(d: Doc, path: string)
    ensures PathOk(IdRule(true), Get(d, path)) <==> HoldsId(d, path)
    ensures PathOk(IdRule(false), Get(d, path)) <==> OptionalId(d, path)
  {
  }

  /** An enumerated path without other bounds is absent or holds one of its choices. */
  lemma {:induction false} ChoicePath(d: Doc, path: string, choices: seq<string>, default: Option<string>)
    requires "" !in choices && choices != []
    ensures PathOk(TextRule(false, false, KeepCase, 0, None, None, choices, default), Get(d, path))
      <==> OptionalChoice(d, path, choices)
  {
  }

  lemma {:induction false} NoEmptyChoice()
    ensures "" !in Currencies && "" !in Statuses
  {
  }

  /** The schema's validators accept exactly the headers described above. */
  lemma {:induction false} HeaderValidation(d: Doc)
    ensures Valid(PurchaseSchema(), d) <==> IsValidHeader(d)
  {
    ValidHeaderPaths(PurchaseSchema(), d);
    PlainTextPath(d, "transactionNumber", true, 50);
    DatePath(d, "transactionDate", true);
    IdPath(d, "debitParty");
    IdPath(d, "creditParty");
    NonNegativePath(d, "totalAmount", true, None);
    NoEmptyChoice();
    ChoicePath(d, "currency", Currencies, Some("INR"));
    IdPath(d, "broker");
    IdPath(d, "cha");
    ChoicePath(d, "status", Statuses, Some("draft"));
    PlainTextPath(d, "remarks", false, 500);
    FlagPath(d, "isActive", Some(true));
    IdPath(d, "createdBy");
    IdPath(d, "updatedBy");
  }

  lemma {:induction false} ValidLinePaths(s: Schema, l: Doc)
    requires s == LineSchema()
    ensures Valid(s, l) <==> IsValidLine(l)
  {
    LineFields(s);
    IdPath(l, "item");
    NonNegativePath(l, "quantity", true, None);
    NonNegativePath(l, "rate", true, None);
    NonNegativePath(l, "amount", true, None);
    if Valid(s, l) {
      assert PathOk(s[0].rule, Get(l, s[0].path));
      assert PathOk(s[1].rule, Get(l, s[1].path));
      assert PathOk(s[2].rule, Get(l, s[2].path));
      assert PathOk(s[3].rule, Get(l, s[3].path));
    }
  }

  /** Every line needs an item id, and its quantity, rate and amount must each be present and not below zero. */
  lemma {:induction false} LineValidation(l: Doc)
    ensures Valid(LineSchema(), l) <==> IsValidLine(l)
  {
    ValidLinePaths(LineSchema(), l);
  }

  /**
    The total is checked only against zero: any valid purchase stays valid with any total
    that is not negative, whatever its lines add up to, and becomes invalid with a negative one.
   */
  lemma {:induction false} TotalNotTiedToLines(p: Purchase, t: real)
    requires ValidPurchase(p)
    ensures ValidPurchase(p.(header := p.header["totalAmount" := Num(t)])) <==> t >= 0.0
  {
    var h := p.header["totalAmount" := Num(t)];
    HeaderValidation(p.header);
    HeaderValidation(h);
    assert h["transactionNumber"] == p.header["transactionNumber"];
  }

  // ---------------------------------------------------------------- defaults

  /** The body with `transactionDate` defaulting to the time of saving (`Date.now`). */
  function Dated(body: Doc, now: int): (b: Doc)
    ensures b.Keys == body.Keys + {"transactionDate"}
    ensures forall p :: p in body ==> b[p] == body[p]
    ensures "transactionDate" !in body ==> b["transactionDate"] == Time(now)
  {
    if "transactionDate" in body then body else body["transactionDate" := Time(now)]
  }

  /** What `new PurchaseTransaction(body)` holds before validation: defaults filled in, setters applied. */
  function PreparePurchase(body: Doc, now: int): Doc
  {
    Prepare(PurchaseSchema(), Dated(body, now))
  }

  /** The path is one the schema declares at position `i`, first. */
  lemma {:induction false} PurchaseDeclaredFirst(s: Schema, i: nat)
    requires s == PurchaseSchema() && i < 13
    ensures FirstDeclared(s, i)
  {
    PurchaseFields(s);
    forall j | 0 <= j < i
      ensures s[j].path != s[i].path
    {
      assert s[j] == PurchaseField(j) && s[i] == PurchaseField(i);
    }
  }

  lemma {:induction false} PreparedPurchaseDefault(s: Schema, body: Doc, i: nat, v: Value)
    requires s == PurchaseSchema() && i < 13 && s[i].path !in body && DefaultOf(s[i].rule) == Some(v)
    ensures var d := Prepare(s, body); s[i].path in d && d[s[i].path] == v
  {
    PurchaseDeclaredFirst(s, i);
    PreparedPath(s, body, i);
  }

  /** A purchase saved without a currency is in rupees. */
  lemma {:induction false} PurchaseCurrencyByDefault(body: Doc, now: int)
    requires "currency" !in body
    ensures var d := PreparePurchase(body, now); "currency" in d && d["currency"] == Str("INR")
  {
    var s := PurchaseSchema();
    PurchaseFields(s);
    assert s[5] == Field("currency", CurrencyRule);
    PreparedPurchaseDefault(s, Dated(body, now), 5, Str("INR"));
  }

  /** A purchase saved without a status is a draft. */
  lemma {:induction false} PurchaseStatusByDefault(body: Doc, now: int)
    requires "status" !in body
    ensures var d := PreparePurchase(body, now); "status" in d && d["status"] == Str("draft")
  {
    var s := PurchaseSchema();
    PurchaseFields(s);
    assert s[8] == Field("status", StatusRule);
    PreparedPurchaseDefault(s, Dated(body, now), 8, Str("draft"));
  }

  /** A new purchase is active unless the request says otherwise. */
  lemma {:induction false} PurchaseActiveByDefault(body: Doc, now: int)
    requires "isActive" !in body
    ensures var d := PreparePurchase(body, now); "isActive" in d && d["isActive"] == Bool(true)
  {
    var s := PurchaseSchema();
    PurchaseFields(s);
    assert s[10] == Field("isActive", FlagRule(Some(true)));
    PreparedPurchaseDefault(s, Dated(body, now), 10, Bool(true));
  }

  /** Every purchase gets a date: the one the body sends, else the time of saving. */
  lemma {:induction false} PurchaseDated(body: Doc, now: int)
    ensures var d := PreparePurchase(body, now); "transactionDate" in d
    ensures "transactionDate" in body && body["transactionDate"].Time? ==>
      PreparePurchase(body, now)["transactionDate"] == body["transactionDate"]
    ensures "transactionDate" !in body ==> PreparePurchase(body, now)["transactionDate"] == Time(now)
  {
    var s := PurchaseSchema();
    var b := Dated(body, now);
    PurchaseFields(s);
    assert s[1] == Field("transactionDate", DateRule(true));
    PurchaseDeclaredFirst(s, 1);
    PreparedPath(s, b, 1);
  }

  // ---------------------------------------------------------------- finders

  /** Equality filters on `transactionNumber` compare with the trimmed argument. */
  lemma {:induction false} TransactionNumberQuery(n: string)
    ensures QueryValue(PurchaseSchema(), "transactionNumber", Str(n)) == Str(Trim(n))
  {
    var s := PurchaseSchema();
    PurchaseFields(s);
    assert s[0] == Field("transactionNumber", PlainText(true, 50));
    PurchaseDeclaredFirst(s, 0);
    RuleOfFirst(s, 0);
  }

  /** `findByTransactionNumber`: the first purchase whose number equals the trimmed argument. */
  function FindByTransactionNumber(c: Collection<Doc>, n: string): (r: Option<Entry<Doc>>)
    ensures r.None? <==> forall i :: 0 <= i < |c| ==> Get(c[i].doc, "transactionNumber") != Some(Str(Trim(n)))
    ensures r.Some? ==> r.value in c && Get(r.value.doc, "transactionNumber") == Some(Str(Trim(n)))
  {
    TransactionNumberQuery(n);
    FindExact(c, PurchaseSchema(), "transactionNumber", Str(n))
  }

  /** The purchase is dated within `[start, end]`, both ends included. */
  predicate DatedWithin(d: Doc, start: int, end: int)
  {
    "transactionDate" in d && d["transactionDate"].Time? && start <= d["transactionDate"].t <= end
  }

  /** `findByDateRange`: every purchase dated within the range, in collection order. */
  function FindByDateRange(c: Collection<Doc>, start: int, end: int): (r: Collection<Doc>)
    ensures forall i :: 0 <= i < |r| ==> r[i] in c && DatedWithin(r[i].doc, start, end)
    ensures forall i :: 0 <= i < |c| && DatedWithin(c[i].doc, start, end) ==> c[i] in r
  {
    AllWhere(c, (d: Doc) => DatedWithin(d, start, end))
  }

  /** A reversed range finds nothing; a one-day range finds exactly the purchases of that day. */
  lemma {:induction false} DateRangeBounds(c: Collection<Doc>, start: int, end: int)
    ensures start > end ==> FindByDateRange(c, start, end) == []
    ensures forall i :: 0 <= i < |c| && Get(c[i].doc, "transactionDate") == Some(Time(start)) ==>
      c[i] in FindByDateRange(c, start, start)
  {
    if start > end {
      AllWhereNone(c, (d: Doc) => DatedWithin(d, start, end));
    }
  }
}
