/**
  The receipt routes that change or show one receipt: create (numbering, credit-party
  snapshot, rupee conversion), update (with the rupee amount as the route recomputes it and
  as it evidently should), read, delete and the bill-number search.
 */
module ReceiptRoutes {
  import opened Wrappers
  import opened Text
  import opened Patterns
  import opened Schema
  import opened Store
  import opened Queries
  import opened Errors
  import opened ReceiptModel
  import opened ReceiptNumbers

  const RequiredMessage := "Receipt date, credit party, bill number, receipt amount, and currency are required"
  const PartyNotFound := "Credit party not found"
  const InvalidReceiptId := "Invalid receipt transaction ID"
  const ReceiptNotFound := "Receipt transaction not found"

  /** `!receiptDate || !creditPartyId || !billNumber || !receiptAmount || !currency` is false. */
  predicate HasRequired(body: Doc)
  {
    && Truthy(Get(body, "receiptDate"))
    && Truthy(Get(body, "creditPartyId"))
    && Truthy(Get(body, "billNumber"))
    && Truthy(Get(body, "receiptAmount"))
    && Truthy(Get(body, "currency"))
  }

  /** `CreditParty.findById(value)`: anything but text fails the ObjectId cast. */
  function PartyLookup(parties: Collection<Doc>, v: Value): (r: Lookup<Doc>)
    ensures !v.Str? ==> r.BadId?
    ensures v.Str? ==> r == FindById(parties, v.s)
  {
    if v.Str? then FindById(parties, v.s) else BadId
  }

  /** `base` with `party[field]` written at `path`, unchanged when the party lacks the field. */
  function CopyInto(base: Doc, party: Doc, field: string, path: string): (d: Doc)
    ensures d.Keys == base.Keys + (if field in party then {path} else {})
    ensures field in party ==> d[path] == party[field]
    ensures forall p :: p in base && p != path ==> d[p] == base[p]
  {
    if field in party then base[path := party[field]] else base
  }

  /** `base` with `creditParty: { _id, partyName, country, port }` written over it. */
  function Snapshot(base: Doc, partyId: string, party: Doc): (d: Doc)
    ensures "creditParty._id" in d && d["creditParty._id"] == Str(partyId)
    ensures "partyName" in party ==> "creditParty.partyName" in d && d["creditParty.partyName"] == party["partyName"]
    ensures "country" in party ==> "creditParty.country" in d && d["creditParty.country"] == party["country"]
    ensures "port" in party ==> "creditParty.port" in d && d["creditParty.port"] == party["port"]
    ensures d.Keys <= base.Keys + {"creditParty._id", "creditParty.partyName", "creditParty.country", "creditParty.port"}
    ensures forall p :: p in base && !IsSnapshotPath(p) ==> p in d && d[p] == base[p]
  {
    var d0 := base["creditParty._id" := Str(partyId)];
    var d1 := CopyInto(d0, party, "partyName", "creditParty.partyName");
    var d2 := CopyInto(d1, party, "country", "creditParty.country");
    CopyInto(d2, party, "port", "creditParty.port")
  }

  predicate IsSnapshotPath(p: string)
  {
    p == "creditParty._id" || p == "creditParty.partyName" || p == "creditParty.country" || p == "creditParty.port"
  }

  // ---------------------------------------------------------------- create

  /** The request fields a new receipt takes as sent. */
  const SentFields: set<string> := {"receiptDate", "billNumber", "billAmount", "receiptAmount", "currency", "utrNumber", "remarks"}

  /** `exchangeRate || 1`. */
  function StoredRate(body: Doc): (v: Value)
    ensures Truthy(Get(body, "exchangeRate")) ==> v == body["exchangeRate"]
    ensures !Truthy(Get(body, "exchangeRate")) ==> v == Num(1.0)
  {
    if Truthy(Get(body, "exchangeRate")) then body["exchangeRate"] else Num(1.0)
  }

  /** The document `new ReceiptTransaction({...})` is given, before setters and defaults. */
  function NewReceipt(body: Doc, partyId: string, party: Doc, number: string): (d: Doc)
    requires HasRequired(body)
  {
    var inr := InrFor(body["receiptAmount"], Get(body, "currency"), Get(body, "exchangeRate"));
    Stamped(Snapshot(Only(body, SentFields), partyId, party), Str(number), inr, StoredRate(body))
  }

  /** The receipt stored for a request whose credit party is found, under the number allocated. */
  function Stored(body: Doc, partyId: string, party: Doc, number: string): Doc
    requires HasRequired(body)
  {
    Prepare(ReceiptSchema(), NewReceipt(body, partyId, party, number))
  }

  /** The unique index on `receiptNumber` holds the number of `d` already. */
  predicate IndexClash(receipts: Collection<Doc>, d: Doc)
  {
    TextAt(d, "receiptNumber").Some? && Holds(receipts, "receiptNumber", TextAt(d, "receiptNumber").value)
  }

  /**
    `POST /receipt-transactions`. Every failure after the required-field check, including a
    malformed credit-party id, a failing number allocation and a document the schema rejects,
    reaches the catch-all and is an internal error. The unique index on `receiptNumber` is
    consulted on save.
   */
  function CreateReceipt(receipts: Collection<Doc>, parties: Collection<Doc>, body: Doc, newId: string)
    : (r: Result<Collection<Doc>, Error>)
    ensures r == Failure(BadRequest(RequiredMessage)) <==> !HasRequired(body)
    ensures HasRequired(body) ==>
      (r == Failure(BadRequest(PartyNotFound)) <==> PartyLookup(parties, body["creditPartyId"]).Missing?)
    ensures HasRequired(body) && PartyLookup(parties, body["creditPartyId"]).BadId? ==> r == Failure(InternalError)
    ensures (HasRequired(body) && PartyLookup(parties, body["creditPartyId"]).Found?
      && NextReceiptNumberAsWritten(receipts).Failure?) ==> r == Failure(InternalError)
    ensures (HasRequired(body) && PartyLookup(parties, body["creditPartyId"]).Found? && r.Failure?) ==> r == Failure(InternalError)
    ensures r.Success? <==>
      && HasRequired(body)
      && PartyLookup(parties, body["creditPartyId"]).Found?
      && NextReceiptNumberAsWritten(receipts).Success?
      && (var d := Stored(body, body["creditPartyId"].s, PartyLookup(parties, body["creditPartyId"]).doc,
            NextReceiptNumberAsWritten(receipts).value);
          Valid(ReceiptSchema(), d) && !IndexClash(receipts, d))
    ensures r.Success? ==>
      r.value == Insert(receipts, newId, Stored(body, body["creditPartyId"].s, PartyLookup(parties, body["creditPartyId"]).doc,
        NextReceiptNumberAsWritten(receipts).value))
  {
    if !HasRequired(body) then Failure(BadRequest(RequiredMessage))
    else
      match PartyLookup(parties, body["creditPartyId"])
      case BadId => Failure(InternalError)
      case Missing => Failure(BadRequest(PartyNotFound))
      case Found(party) =>
        match NextReceiptNumberAsWritten(receipts)
        case Failure(_) => Failure(InternalError)
        case Success(number) =>
          var d := Stored(body, body["creditPartyId"].s, party, number);
          if !Valid(ReceiptSchema(), d) then Failure(InternalError)
          else if IndexClash(receipts, d) then Failure(InternalError)
          else Success(Insert(receipts, newId, d))
  }

  /** The values `new ReceiptTransaction({...})` is given at the amount paths and the number path. */
  lemma {:induction false} NewReceiptValues(body: Doc, partyId: string, party: Doc, number: string)
    requires HasRequired(body)
    ensures var raw := NewReceipt(body, partyId, party, number);
      && "receiptAmount" in raw && raw["receiptAmount"] == body["receiptAmount"]
      && "currency" in raw && raw["currency"] == body["currency"]
      && "exchangeRate" in raw && raw["exchangeRate"] == StoredRate(body)
      && "inrAmount" in raw && raw["inrAmount"] == InrFor(body["receiptAmount"], Get(body, "currency"), Get(body, "exchangeRate"))
      && "receiptNumber" in raw && raw["receiptNumber"] == Str(number)
  {
    var base := Only(body, SentFields);
    assert "receiptAmount" in base && "currency" in base;
    assert !IsSnapshotPath("receiptAmount") && !IsSnapshotPath("currency");
  }

  /** What the prepared receipt holds at the paths the rupee amount depends on, and its number. */
  lemma {:induction false} StoredValues(s: Schema, body: Doc, partyId: string, party: Doc, number: string)
    requires s == ReceiptSchema() && HasRequired(body) && IsReceiptNumber(number)
    ensures var d := Prepare(s, NewReceipt(body, partyId, party, number));
      && "receiptAmount" in d && d["receiptAmount"] == body["receiptAmount"]
      && "currency" in d && d["currency"] == body["currency"]
      && "exchangeRate" in d && d["exchangeRate"] == StoredRate(body)
      && "inrAmount" in d && d["inrAmount"] == InrFor(body["receiptAmount"], Get(body, "currency"), Get(body, "exchangeRate"))
      && "receiptNumber" in d && d["receiptNumber"] == Str(number)
  {
    var raw := NewReceipt(body, partyId, party, number);
    NewReceiptValues(body, partyId, party, number);
    PreparedSent(s, raw, "receiptAmount");
    PreparedSent(s, raw, "currency");
    PreparedSent(s, raw, "exchangeRate");
    PreparedSent(s, raw, "inrAmount");
    PreparedSent(s, raw, "receiptNumber");
    AmountCastsKeep(s, raw["receiptAmount"]);
    AmountCastsKeep(s, raw["currency"]);
    AmountCastsKeep(s, raw["exchangeRate"]);
    AmountCastsKeep(s, raw["inrAmount"]);
    NumberQuery(s, number);
  }

  /**
    While every stored number is "RCP" and six digits short of 999999, the number a create
    allocates is one no stored receipt holds.
   */
  lemma {:induction false} StoredNumberFree(receipts: Collection<Doc>, body: Doc, partyId: string, party: Doc)
    requires HasRequired(body)
    requires forall i :: 0 <= i < |receipts| ==>
      NumberOf(receipts[i].doc).Some? && SixDigitsBelowLast(NumberOf(receipts[i].doc).value)
    ensures NextReceiptNumberAsWritten(receipts).Success?
    ensures !IndexClash(receipts, Stored(body, partyId, party, NextReceiptNumberAsWritten(receipts).value))
  {
    AsWrittenFreshWhileSixDigits(receipts);
    AllocatedShape(receipts);
    StoredValues(ReceiptSchema(), body, partyId, party, NextReceiptNumberAsWritten(receipts).value);
  }

  /**
    Past six digits the allocator as written hands out a number already stored, and the
    unique index turns the create into the route's 500 answer.
   */
  lemma {:induction false} CreateClashesPastSixDigits(parties: Collection<Doc>, body: Doc, newId: string, a: string, b: string)
    requires HasRequired(body) && PartyLookup(parties, body["creditPartyId"]).Found?
    ensures var c := [Entry(a, map["receiptNumber" := Str("RCP999999")]), Entry(b, map["receiptNumber" := Str("RCP1000000")])];
      CreateReceipt(c, parties, body, newId) == Failure(InternalError)
  {
    var c := [Entry(a, map["receiptNumber" := Str("RCP999999")]), Entry(b, map["receiptNumber" := Str("RCP1000000")])];
    AsWrittenRepeatsAfterSixDigits(a, b);
    var party := PartyLookup(parties, body["creditPartyId"]).doc;
    StoredNumber(body, body["creditPartyId"].s, party, "RCP1000000");
    CreateRefusesClash(c, parties, body, newId, "RCP1000000");
  }

  /** The stored receipt holds the allocated number as sent. */
  lemma {:induction false} StoredNumber(body: Doc, partyId: string, party: Doc, number: string)
    requires HasRequired(body) && IsReceiptNumber(number)
    ensures TextAt(Stored(body, partyId, party, number), "receiptNumber") == Some(number)
  {
    var s := ReceiptSchema();
    var raw := NewReceipt(body, partyId, party, number);
    NewReceiptValues(body, partyId, party, number);
    PreparedSent(s, raw, "receiptNumber");
    NumberQuery(s, number);
  }

  /** A create whose allocated number the unique index already holds is the route's 500 answer. */
  lemma {:induction false} CreateRefusesClash(receipts: Collection<Doc>, parties: Collection<Doc>, body: Doc, newId: string, number: string)
    requires HasRequired(body) && PartyLookup(parties, body["creditPartyId"]).Found?
    requires NextReceiptNumberAsWritten(receipts) == Success(number)
    requires Holds(receipts, "receiptNumber", number)
    requires TextAt(Stored(body, body["creditPartyId"].s, PartyLookup(parties, body["creditPartyId"]).doc, number), "receiptNumber") == Some(number)
    ensures CreateReceipt(receipts, parties, body, newId) == Failure(InternalError)
  {
    var d := Stored(body, body["creditPartyId"].s, PartyLookup(parties, body["creditPartyId"]).doc, number);
    assert IndexClash(receipts, d);
  }

  /** The receipt number has no setter that changes it: it is already trimmed. */
  lemma {:induction false} NumberQuery(s: Schema, number: string)
    requires s == ReceiptSchema() && IsReceiptNumber(number)
    ensures CastValue(RuleOf(s, "receiptNumber"), Str(number)) == Str(number)
  {
    ReceiptFields(s);
    assert s[0] == Field("receiptNumber", PlainText(true, 50));
    RuleOfFirst(s, 0);
    TrimOfVisibleEnds(number);
  }

  /** Text that starts with "R" and ends in a digit has nothing for `trim` to remove. */
  lemma {:induction false} TrimOfVisibleEnds(number: string)
    requires |number| >= 9 && number[..3] == "RCP" && TrailingNumber(number).Some?
    ensures Trim(number) == number
  {
    assert number[0] == 'R';
    assert IsDigit(number[|number| - 1]);
    TrimOfTrimmed(number);
  }

  /**
    A created receipt's rupee amount agrees with its amount, currency and stored rate; a rate
    that is absent or falsy is stored as 1.
   */
  lemma {:induction false} CreateStoresConsistentInr(receipts: Collection<Doc>, parties: Collection<Doc>, body: Doc, newId: string)
    requires CreateReceipt(receipts, parties, body, newId).Success?
    ensures var d := CreateReceipt(receipts, parties, body, newId).value[|receipts|].doc;
      && InrConsistent(d)
      && d["exchangeRate"] == (if Truthy(Get(body, "exchangeRate")) then body["exchangeRate"] else Num(1.0))
      && (body["currency"] == Str("USD") && Truthy(Get(body, "exchangeRate")) ==>
            d["inrAmount"] == ConvertToInr(body["receiptAmount"], body["exchangeRate"]))
      && (body["currency"] != Str("USD") ==> d["inrAmount"] == body["receiptAmount"])
  {
    var partyId := body["creditPartyId"].s;
    var party := PartyLookup(parties, body["creditPartyId"]).doc;
    AllocatedShape(receipts);
    StoredValues(ReceiptSchema(), body, partyId, party, NextReceiptNumberAsWritten(receipts).value);
  }

  /**
    A created receipt carries the number the allocator handed out, and no stored receipt has
    it: the unique index refuses the save otherwise.
   */
  lemma {:induction false} CreateNumbersFreshly(receipts: Collection<Doc>, parties: Collection<Doc>, body: Doc, newId: string)
    requires CreateReceipt(receipts, parties, body, newId).Success?
    ensures NextReceiptNumberAsWritten(receipts).Success?
    ensures var d := CreateReceipt(receipts, parties, body, newId).value[|receipts|].doc;
      d["receiptNumber"] == Str(NextReceiptNumberAsWritten(receipts).value) && !Holds(receipts, "receiptNumber", d["receiptNumber"].s)
  {
    var partyId := body["creditPartyId"].s;
    var party := PartyLookup(parties, body["creditPartyId"]).doc;
    AllocatedShape(receipts);
    StoredValues(ReceiptSchema(), body, partyId, party, NextReceiptNumberAsWritten(receipts).value);
  }

  /**
    A created receipt is dated with the date the request sends: a request without one is
    refused before the document is built, so the schema's `Date.now` default never applies.
   */
  lemma {:induction false} CreatedReceiptDated(receipts: Collection<Doc>, parties: Collection<Doc>, body: Doc, newId: string)
    requires CreateReceipt(receipts, parties, body, newId).Success?
    ensures Truthy(Get(body, "receiptDate"))
    ensures var d := CreateReceipt(receipts, parties, body, newId).value[|receipts|].doc;
      "receiptDate" in d && d["receiptDate"] == body["receiptDate"]
  {
    StoredDate(body, body["creditPartyId"].s, PartyLookup(parties, body["creditPartyId"]).doc,
      NextReceiptNumberAsWritten(receipts).value);
  }

  lemma {:induction false} StoredDate(body: Doc, partyId: string, party: Doc, number: string)
    requires HasRequired(body)
    ensures var d := Stored(body, partyId, party, number);
      "receiptDate" in d && d["receiptDate"] == body["receiptDate"]
  {
    var raw := NewReceipt(body, partyId, party, number);
    RawDate(body, partyId, party, number);
    PreparedSent(ReceiptSchema(), raw, "receiptDate");
    ReceiptCastAt(ReceiptSchema(), 1, "receiptDate", raw["receiptDate"]);
  }

  lemma {:induction false} RawDate(body: Doc, partyId: string, party: Doc, number: string)
    requires HasRequired(body)
    ensures var raw := NewReceipt(body, partyId, party, number);
      "receiptDate" in raw && raw["receiptDate"] == body["receiptDate"]
  {
    assert "receiptDate" in Only(body, SentFields) && !IsSnapshotPath("receiptDate");
  }

  /** A created receipt snapshots the stored credit party it names: its id, name, country and port. */
  lemma {:induction false} CreateSnapshotsParty(receipts: Collection<Doc>, parties: Collection<Doc>, body: Doc, newId: string)
    requires CreateReceipt(receipts, parties, body, newId).Success?
    ensures var d := CreateReceipt(receipts, parties, body, newId).value[|receipts|].doc;
      var party := PartyLookup(parties, body["creditPartyId"]).doc;
      && (exists i :: 0 <= i < |parties| && SameId(parties[i].id, body["creditPartyId"].s) && parties[i].doc == party)
      && "creditParty._id" in d && d["creditParty._id"] == body["creditPartyId"]
      && ("partyName" in party ==> d["creditParty.partyName"] == party["partyName"])
      && ("country" in party ==> d["creditParty.country"] == party["country"])
      && ("port" in party ==> d["creditParty.port"] == party["port"])
  {
    var partyId := body["creditPartyId"].s;
    var party := PartyLookup(parties, body["creditPartyId"]).doc;
    SnapshotStored(ReceiptSchema(), body, partyId, party, NextReceiptNumberAsWritten(receipts).value);
  }

  lemma {:induction false} SnapshotStored(s: Schema, body: Doc, partyId: string, party: Doc, number: string)
    requires s == ReceiptSchema() && HasRequired(body)
    ensures var d := Prepare(s, NewReceipt(body, partyId, party, number));
      && "creditParty._id" in d && d["creditParty._id"] == Str(partyId)
      && ("partyName" in party ==> d["creditParty.partyName"] == party["partyName"])
      && ("country" in party ==> d["creditParty.country"] == party["country"])
      && ("port" in party ==> d["creditParty.port"] == party["port"])
  {
    var raw := NewReceipt(body, partyId, party, number);
    SnapshotInRaw(body, partyId, party, number);
    PreparedSent(s, raw, "creditParty._id");
    SnapshotCastsKeep(s, raw["creditParty._id"]);
    if "partyName" in party {
      PreparedSent(s, raw, "creditParty.partyName");
      SnapshotCastsKeep(s, raw["creditParty.partyName"]);
    }
    if "country" in party {
      PreparedSent(s, raw, "creditParty.country");
      SnapshotCastsKeep(s, raw["creditParty.country"]);
    }
    if "port" in party {
      PreparedSent(s, raw, "creditParty.port");
      SnapshotCastsKeep(s, raw["creditParty.port"]);
    }
  }

  lemma {:induction false} SnapshotInRaw(body: Doc, partyId: string, party: Doc, number: string)
    requires HasRequired(body)
    ensures var raw := NewReceipt(body, partyId, party, number);
      && "creditParty._id" in raw && raw["creditParty._id"] == Str(partyId)
      && ("partyName" in party ==> "creditParty.partyName" in raw && raw["creditParty.partyName"] == party["partyName"])
      && ("country" in party ==> "creditParty.country" in raw && raw["creditParty.country"] == party["country"])
      && ("port" in party ==> "creditParty.port" in raw && raw["creditParty.port"] == party["port"])
  {
  }

  /** The number, rupee amount and rate a new receipt gets over its snapshot. */
  function Stamped(sn: Doc, number: Value, inr: Value, rate: Value): (d: Doc)
    ensures "receiptNumber" in d && d["receiptNumber"] == number
    ensures "inrAmount" in d && d["inrAmount"] == inr
    ensures "exchangeRate" in d && d["exchangeRate"] == rate
    ensures forall p :: IsSnapshotPath(p) ==> (p in d <==> p in sn)
    ensures forall p :: IsSnapshotPath(p) && p in sn ==> d[p] == sn[p]
  {
    sn["receiptNumber" := number]["inrAmount" := inr]["exchangeRate" := rate]
  }

  /** The snapshot paths have no setter that changes a value. */
  lemma {:induction false} SnapshotCastsKeep(s: Schema, v: Value)
    requires s == ReceiptSchema()
    ensures CastValue(RuleOf(s, "creditParty._id"), v) == v
    ensures CastValue(RuleOf(s, "creditParty.partyName"), v) == v
    ensures CastValue(RuleOf(s, "creditParty.country"), v) == v
    ensures CastValue(RuleOf(s, "creditParty.port"), v) == v
  {
    ReceiptFields(s);
    assert s[2] == Field("creditParty._id", IdRule(true));
    assert s[3] == Field("creditParty.partyName", SnapshotText);
    assert s[4] == Field("creditParty.country", SnapshotText);
    assert s[5] == Field("creditParty.port", SnapshotText);
    RuleOfFirst(s, 2);
    RuleOfFirst(s, 3);
    RuleOfFirst(s, 4);
    RuleOfFirst(s, 5);
  }

  // ---------------------------------------------------------------- update

  /** The credit-party part of an update: nothing unless `creditPartyId` is truthy. */
  function PartyPatch(parties: Collection<Doc>, body: Doc): (r: Result<Doc, Error>)
    ensures !Truthy(Get(body, "creditPartyId")) ==> r == Success(map[])
    ensures Truthy(Get(body, "creditPartyId")) ==>
      match PartyLookup(parties, body["creditPartyId"])
      case BadId => r == Failure(BadRequest(InvalidReceiptId))
      case Missing => r == Failure(BadRequest(PartyNotFound))
      case Found(p) => r == Success(Snapshot(map[], body["creditPartyId"].s, p))
    ensures r.Success? ==> forall p :: p in r.value ==> IsSnapshotPath(p)
  {
    if !Truthy(Get(body, "creditPartyId")) then Success(map[])
    else
      match PartyLookup(parties, body["creditPartyId"])
      case BadId => Failure(BadRequest(InvalidReceiptId))
      case Missing => Failure(BadRequest(PartyNotFound))
      case Found(p) => Success(Snapshot(map[], body["creditPartyId"].s, p))
  }

  /**
    Whether an update takes `path` from the body: `billNumber`, `receiptDate` and `currency`
    when truthy; the amounts, the rate, `utrNumber` and `remarks` whenever sent; `isActive`
    when it is a flag. Nothing else is read.
   */
  predicate Takes(body: Doc, path: string)
    requires path in body
  {
    if path == "billNumber" || path == "receiptDate" || path == "currency" then Truthy(Some(body[path]))
    else if path == "receiptAmount" || path == "billAmount" || path == "exchangeRate" || path == "utrNumber" || path == "remarks" then true
    else path == "isActive" && body[path].Bool?
  }

  /** The plain fields of an update, as sent. */
  function FieldPatch(body: Doc): (d: Doc)
    ensures forall p :: p in d <==> p in body && Takes(body, p)
    ensures forall p :: p in d ==> d[p] == body[p]
  {
    map p | p in body && Takes(body, p) :: body[p]
  }

  /**
    The rupee amount an update writes as the route computes it: only when the amount is sent
    and the same request carries currency "USD" and a truthy rate.
   */
  function InrPatchAsWritten(body: Doc): (d: Doc)
    ensures "inrAmount" in d <==>
      "receiptAmount" in body && Get(body, "currency") == Some(Str("USD")) && Truthy(Get(body, "exchangeRate"))
    ensures "inrAmount" in d ==> d["inrAmount"] == ConvertToInr(body["receiptAmount"], body["exchangeRate"])
    ensures d.Keys <= {"inrAmount"}
  {
    if "receiptAmount" in body && Get(body, "currency") == Some(Str("USD")) && Truthy(Get(body, "exchangeRate")) then
      map["inrAmount" := ConvertToInr(body["receiptAmount"], body["exchangeRate"])]
    else map[]
  }

  /** The value a path will hold after the update: the patch's, else the stored one. */
  function After(stored: Doc, patch: Doc, path: string): Option<Value>
  {
    if path in patch then Some(patch[path]) else Get(stored, path)
  }

  /**
    The rupee amount an update evidently should write: recomputed from the amount, currency
    and rate the receipt will hold whenever the request changes any of the three.
   */
  function InrPatch(stored: Doc, fields: Doc): (d: Doc)
    ensures "inrAmount" in d <==>
      ("receiptAmount" in fields || "currency" in fields || "exchangeRate" in fields)
      && After(stored, fields, "receiptAmount").Some?
    ensures "inrAmount" in d ==>
      d["inrAmount"] == InrFor(After(stored, fields, "receiptAmount").value, After(stored, fields, "currency"), After(stored, fields, "exchangeRate"))
    ensures d.Keys <= {"inrAmount"}
  {
    var amount := After(stored, fields, "receiptAmount");
    if ("receiptAmount" in fields || "currency" in fields || "exchangeRate" in fields) && amount.Some? then
      map["inrAmount" := InrFor(amount.value, After(stored, fields, "currency"), After(stored, fields, "exchangeRate"))]
    else map[]
  }

  /** The outcome of `findByIdAndUpdate` with validators: any rejection reaches the catch-all. */
  function Save(receipts: Collection<Doc>, id: string, stored: Doc, patch: Doc): (r: Result<Collection<Doc>, Error>)
    ensures r.Failure? ==> r.error == InternalError
    ensures r.Success? <==> ApplyUpdate(ReceiptSchema(), stored, patch).Success?
    ensures r.Success? ==> r.value == Replace(receipts, id, ApplyUpdate(ReceiptSchema(), stored, patch).value)
  {
    match ApplyUpdate(ReceiptSchema(), stored, patch)
    case Failure(_) => Failure(InternalError)
    case Success(d) => Success(Replace(receipts, id, d))
  }

  /** `PUT /receipt-transactions/:id` as written. */
  function UpdateReceiptAsWritten(receipts: Collection<Doc>, parties: Collection<Doc>, id: string, body: Doc)
    : (r: Result<Collection<Doc>, Error>)
    ensures !IsObjectIdText(id) ==> r == Failure(BadRequest(InvalidReceiptId))
    ensures IsObjectIdText(id) && !HasId(receipts, id) ==> r == Failure(NotFound(ReceiptNotFound))
    ensures FindById(receipts, id).Found? && PartyPatch(parties, body).Failure? ==> r == Failure(PartyPatch(parties, body).error)
    ensures r.Success? ==>
      && FindById(receipts, id).Found? && PartyPatch(parties, body).Success?
      && r == Save(receipts, id, FindById(receipts, id).doc, PartyPatch(parties, body).value + FieldPatch(body) + InrPatchAsWritten(body))
  {
    match FindById(receipts, id)
    case BadId => Failure(BadRequest(InvalidReceiptId))
    case Missing => Failure(NotFound(ReceiptNotFound))
    case Found(stored) =>
      match PartyPatch(parties, body)
      case Failure(e) => Failure(e)
      case Success(snap) => Save(receipts, id, stored, snap + FieldPatch(body) + InrPatchAsWritten(body))
  }

  /** The patch of the corrected update: the snapshot, the sent fields and the recomputed rupee amount. */
  function CorrectedPatch(stored: Doc, snap: Doc, body: Doc): Doc
  {
    snap + FieldPatch(body) + InrPatch(stored, FieldPatch(body))
  }

  /** `PUT /receipt-transactions/:id` with the rupee amount kept in step with the amount, currency and rate. */
  function UpdateReceipt(receipts: Collection<Doc>, parties: Collection<Doc>, id: string, body: Doc)
    : (r: Result<Collection<Doc>, Error>)
    ensures !IsObjectIdText(id) ==> r == Failure(BadRequest(InvalidReceiptId))
    ensures IsObjectIdText(id) && !HasId(receipts, id) ==> r == Failure(NotFound(ReceiptNotFound))
    ensures FindById(receipts, id).Found? && PartyPatch(parties, body).Failure? ==> r == Failure(PartyPatch(parties, body).error)
    ensures r.Success? ==>
      && FindById(receipts, id).Found? && PartyPatch(parties, body).Success?
      && r == Save(receipts, id, FindById(receipts, id).doc, CorrectedPatch(FindById(receipts, id).doc, PartyPatch(parties, body).value, body))
  {
    match FindById(receipts, id)
    case BadId => Failure(BadRequest(InvalidReceiptId))
    case Missing => Failure(NotFound(ReceiptNotFound))
    case Found(stored) =>
      match PartyPatch(parties, body)
      case Failure(e) => Failure(e)
      case Success(snap) => Save(receipts, id, stored, CorrectedPatch(stored, snap, body))
  }

  /** A merged update holds, at each amount path, the patch's value or else the stored one. */
  lemma {:induction false} MergedAmounts(s: Schema, stored: Doc, patch: Doc)
    requires s == ReceiptSchema() && ApplyUpdate(s, stored, patch).Success?
    ensures var d := ApplyUpdate(s, stored, patch).value;
      && Get(d, "receiptAmount") == After(stored, patch, "receiptAmount")
      && Get(d, "inrAmount") == After(stored, patch, "inrAmount")
      && Get(d, "currency") == After(stored, patch, "currency")
      && Get(d, "exchangeRate") == After(stored, patch, "exchangeRate")
  {
    MergedAt(s, stored, patch, 8, "receiptAmount");
    MergedAt(s, stored, patch, 9, "inrAmount");
    MergedAt(s, stored, patch, 10, "currency");
    MergedAt(s, stored, patch, 11, "exchangeRate");
  }

  lemma {:induction false} MergedAt(s: Schema, stored: Doc, patch: Doc, i: nat, p: string)
    requires s == ReceiptSchema() && 8 <= i <= 11 && p == ReceiptField(i).path
    requires ApplyUpdate(s, stored, patch).Success?
    ensures Get(ApplyUpdate(s, stored, patch).value, p) == After(stored, patch, p)
  {
    if p in patch {
      ReceiptCastAt(s, i, p, patch[p]);
    } else {
      assert '.' !in p by {
        if i == 8 { assert p == "receiptAmount"; } else if i == 9 { assert p == "inrAmount"; }
        else if i == 10 { assert p == "currency"; } else { assert p == "exchangeRate"; }
      }
      assert !Overwritten(patch, p);
    }
  }

  /** The snapshot and the rupee amount do not touch the amount, currency and rate the fields set. */
  lemma {:induction false} PatchAfter(stored: Doc, snap: Doc, fields: Doc, inr: Doc)
    requires forall p :: p in snap ==> IsSnapshotPath(p)
    requires inr.Keys <= {"inrAmount"} && "inrAmount" !in fields
    ensures var patch := snap + fields + inr;
      && After(stored, patch, "receiptAmount") == After(stored, fields, "receiptAmount")
      && After(stored, patch, "currency") == After(stored, fields, "currency")
      && After(stored, patch, "exchangeRate") == After(stored, fields, "exchangeRate")
      && After(stored, patch, "inrAmount") == After(stored, inr, "inrAmount")
  {
    assert !IsSnapshotPath("receiptAmount") && !IsSnapshotPath("currency") && !IsSnapshotPath("exchangeRate") && !IsSnapshotPath("inrAmount");
  }

  /** Saving the corrected patch over a consistent receipt leaves it consistent. */
  lemma {:induction false} CorrectedPatchConsistent(s: Schema, stored: Doc, snap: Doc, body: Doc)
    requires s == ReceiptSchema() && InrConsistent(stored)
    requires forall p :: p in snap ==> IsSnapshotPath(p)
    requires ApplyUpdate(s, stored, CorrectedPatch(stored, snap, body)).Success?
    ensures InrConsistent(ApplyUpdate(s, stored, CorrectedPatch(stored, snap, body)).value)
  {
    CorrectedAmounts(s, stored, snap, body);
    ConsistentAfterPatch(ApplyUpdate(s, stored, CorrectedPatch(stored, snap, body)).value, stored, FieldPatch(body));
  }

  /** The corrected patch saves the requested amount, currency and rate and the recomputed rupee amount. */
  lemma {:induction false} CorrectedAmounts(s: Schema, stored: Doc, snap: Doc, body: Doc)
    requires s == ReceiptSchema()
    requires forall p :: p in snap ==> IsSnapshotPath(p)
    requires ApplyUpdate(s, stored, CorrectedPatch(stored, snap, body)).Success?
    ensures var d := ApplyUpdate(s, stored, CorrectedPatch(stored, snap, body)).value;
      var fields := FieldPatch(body);
      && Get(d, "receiptAmount") == After(stored, fields, "receiptAmount")
      && Get(d, "currency") == After(stored, fields, "currency")
      && Get(d, "exchangeRate") == After(stored, fields, "exchangeRate")
      && Get(d, "inrAmount") == After(stored, InrPatch(stored, fields), "inrAmount")
  {
    var fields := FieldPatch(body);
    PatchAfter(stored, snap, fields, InrPatch(stored, fields));
    MergedAmounts(s, stored, CorrectedPatch(stored, snap, body));
  }

  /** A receipt holding the patched amount, currency and rate, and the recomputed rupee amount, is consistent. */
  lemma {:induction false} ConsistentAfterPatch(d: Doc, stored: Doc, fields: Doc)
    requires InrConsistent(stored)
    requires Get(d, "receiptAmount") == After(stored, fields, "receiptAmount")
    requires Get(d, "currency") == After(stored, fields, "currency")
    requires Get(d, "exchangeRate") == After(stored, fields, "exchangeRate")
    requires Get(d, "inrAmount") == After(stored, InrPatch(stored, fields), "inrAmount")
    ensures InrConsistent(d)
  {
    if !("receiptAmount" in fields || "currency" in fields || "exchangeRate" in fields) {
      assert "inrAmount" !in InrPatch(stored, fields);
    }
  }

  /** The corrected update keeps a consistent rupee amount consistent. */
  lemma {:induction false} UpdateKeepsInrConsistent(receipts: Collection<Doc>, parties: Collection<Doc>, id: string, body: Doc, i: nat)
    requires UniqueIds(receipts) && i < |receipts| && receipts[i].id == id
    requires InrConsistent(receipts[i].doc)
    requires UpdateReceipt(receipts, parties, id, body).Success?
    ensures InrConsistent(UpdateReceipt(receipts, parties, id, body).value[i].doc)
  {
    var r := UpdateReceipt(receipts, parties, id, body);
    assert IsObjectIdText(id);
    FoundIsStored(receipts, i);
    var stored := receipts[i].doc;
    var snap := PartyPatch(parties, body).value;
    var patch := CorrectedPatch(stored, snap, body);
    assert r == Save(receipts, id, stored, patch);
    assert ApplyUpdate(ReceiptSchema(), stored, patch).Success?;
    CorrectedPatchConsistent(ReceiptSchema(), stored, snap, body);
    assert r.value[i].doc == ApplyUpdate(ReceiptSchema(), stored, patch).value;
  }

  /** A receipt in rupees whose amount alone is changed. */
  predicate AmountOnlyChange(stored: Doc, body: Doc)
  {
    && Get(stored, "currency") == Some(Str("INR"))
    && "receiptAmount" in stored && stored["receiptAmount"].Num?
    && Get(stored, "inrAmount") == Some(stored["receiptAmount"])
    && body.Keys == {"receiptAmount"} && body["receiptAmount"].Num?
    && body["receiptAmount"].n >= 0.0 && body["receiptAmount"] != stored["receiptAmount"]
  }

  /** Sending only a non-negative amount passes the update validators. */
  lemma {:induction false} AmountPatchPasses(s: Schema, body: Doc)
    requires s == ReceiptSchema() && body.Keys == {"receiptAmount"} && body["receiptAmount"].Num? && body["receiptAmount"].n >= 0.0
    ensures ApplyUpdate(s, map[], body).Success?
  {
    ReceiptFields(s);
    AmountCastsKeep(s, body["receiptAmount"]);
    var n := Normalize(s, body);
    assert n == body;
    forall j | 0 <= j < |s| && s[j].path in body
      ensures KindFits(s[j].rule, body[s[j].path]) && PathOk(s[j].rule, Some(n[s[j].path]))
    {
      assert s[j].path == "receiptAmount";
      assert j == 8;
    }
    assert CastFailures(s, body) == {};
    assert UpdateFailures(s, n) == {};
  }

  /**
    As written, changing the amount of a rupee receipt saves the new amount beside the old
    rupee amount: the stored receipt no longer agrees with itself.
   */
  lemma {:induction false} AsWrittenLeavesInrStale(receipts: Collection<Doc>, parties: Collection<Doc>, id: string, body: Doc, i: nat)
    requires UniqueIds(receipts) && i < |receipts| && receipts[i].id == id && IsObjectIdText(id)
    requires InrConsistent(receipts[i].doc) && AmountOnlyChange(receipts[i].doc, body)
    ensures UpdateReceiptAsWritten(receipts, parties, id, body).Success?
    ensures !InrConsistent(UpdateReceiptAsWritten(receipts, parties, id, body).value[i].doc)
  {
    AsWrittenSavesBody(receipts, parties, id, body, i);
    MergedAmounts(ReceiptSchema(), receipts[i].doc, body);
    StaleInr(ApplyUpdate(ReceiptSchema(), receipts[i].doc, body).value, receipts[i].doc, body);
  }

  /** A rupee receipt holding a new amount beside the old rupee amount does not agree with itself. */
  lemma {:induction false} StaleInr(d: Doc, stored: Doc, body: Doc)
    requires AmountOnlyChange(stored, body)
    requires Get(d, "receiptAmount") == After(stored, body, "receiptAmount")
    requires Get(d, "inrAmount") == After(stored, body, "inrAmount")
    requires Get(d, "currency") == After(stored, body, "currency")
    ensures !InrConsistent(d)
  {
    assert Get(d, "currency") == Some(Str("INR"));
  }

  /** As written, an amount-only request is saved exactly as sent. */
  lemma {:induction false} AsWrittenSavesBody(receipts: Collection<Doc>, parties: Collection<Doc>, id: string, body: Doc, i: nat)
    requires UniqueIds(receipts) && i < |receipts| && receipts[i].id == id && IsObjectIdText(id)
    requires AmountOnlyChange(receipts[i].doc, body)
    ensures ApplyUpdate(ReceiptSchema(), receipts[i].doc, body).Success?
    ensures var r := UpdateReceiptAsWritten(receipts, parties, id, body);
      r.Success? && r.value[i].doc == ApplyUpdate(ReceiptSchema(), receipts[i].doc, body).value
  {
    FoundIsStored(receipts, i);
    var stored := receipts[i].doc;
    var patch := FieldPatch(body);
    assert PartyPatch(parties, body) == Success(map[]);
    assert patch == body;
    assert InrPatchAsWritten(body) == map[];
    assert map[] + patch + InrPatchAsWritten(body) == body;
    AmountPatchPasses(ReceiptSchema(), body);
    assert ApplyUpdate(ReceiptSchema(), stored, body).Success?;
    var r := UpdateReceiptAsWritten(receipts, parties, id, body);
    assert r == Save(receipts, id, stored, body);
  }

  /** Under the corrected patch a new amount on a rupee receipt is also its rupee amount. */
  lemma {:induction false} CorrectedPatchRewritesInr(s: Schema, stored: Doc, snap: Doc, body: Doc)
    requires s == ReceiptSchema() && AmountOnlyChange(stored, body)
    requires forall p :: p in snap ==> IsSnapshotPath(p)
    requires ApplyUpdate(s, stored, CorrectedPatch(stored, snap, body)).Success?
    ensures Get(ApplyUpdate(s, stored, CorrectedPatch(stored, snap, body)).value, "inrAmount") == Some(body["receiptAmount"])
  {
    var fields := FieldPatch(body);
    assert "receiptAmount" in fields && "currency" !in fields && "exchangeRate" !in fields;
    var inr := InrPatch(stored, fields);
    PatchAfter(stored, snap, fields, inr);
    MergedAmounts(s, stored, CorrectedPatch(stored, snap, body));
  }

  /** The same request under the corrected update writes the new amount as the rupee amount too. */
  lemma {:induction false} CorrectedUpdatesInrWithAmount(receipts: Collection<Doc>, parties: Collection<Doc>, id: string, body: Doc, i: nat)
    requires UniqueIds(receipts) && i < |receipts| && receipts[i].id == id
    requires AmountOnlyChange(receipts[i].doc, body)
    requires UpdateReceipt(receipts, parties, id, body).Success?
    ensures Get(UpdateReceipt(receipts, parties, id, body).value[i].doc, "inrAmount") == Some(body["receiptAmount"])
  {
    var r := UpdateReceipt(receipts, parties, id, body);
    assert IsObjectIdText(id);
    FoundIsStored(receipts, i);
    var stored := receipts[i].doc;
    var snap := PartyPatch(parties, body).value;
    var patch := CorrectedPatch(stored, snap, body);
    assert r == Save(receipts, id, stored, patch);
    assert ApplyUpdate(ReceiptSchema(), stored, patch).Success?;
    CorrectedPatchRewritesInr(ReceiptSchema(), stored, snap, body);
    assert r.value[i].doc == ApplyUpdate(ReceiptSchema(), stored, patch).value;
  }

  // ---------------------------------------------------------------- read, delete, search

  /** `GET /receipt-transactions/:id`. */
  function ReadReceipt(receipts: Collection<Doc>, id: string): (r: Result<Doc, Error>)
    ensures r.Success? <==> IsObjectIdText(id) && HasId(receipts, id)
    ensures r.Success? ==> exists i :: 0 <= i < |receipts| && SameId(receipts[i].id, id) && receipts[i].doc == r.value
    ensures !IsObjectIdText(id) ==> r == Failure(BadRequest(InvalidReceiptId))
    ensures IsObjectIdText(id) && !HasId(receipts, id) ==> r == Failure(NotFound(ReceiptNotFound))
  {
    match FindById(receipts, id)
    case BadId => Failure(BadRequest(InvalidReceiptId))
    case Missing => Failure(NotFound(ReceiptNotFound))
    case Found(d) => Success(d)
  }

  /** `DELETE /receipt-transactions/:id`. */
  function DeleteReceipt(receipts: Collection<Doc>, id: string): (r: Result<Collection<Doc>, Error>)
    ensures r.Success? <==> IsObjectIdText(id) && HasId(receipts, id)
    ensures r.Success? ==> r.value == Remove(receipts, id)
    ensures !IsObjectIdText(id) ==> r == Failure(BadRequest(InvalidReceiptId))
    ensures IsObjectIdText(id) && !HasId(receipts, id) ==> r == Failure(NotFound(ReceiptNotFound))
  {
    match FindById(receipts, id)
    case BadId => Failure(BadRequest(InvalidReceiptId))
    case Missing => Failure(NotFound(ReceiptNotFound))
    case Found(_) => Success(Remove(receipts, id))
  }

  /** `GET /receipt-transactions/search/bill-number/:billNumber`: every bill number containing the text, ignoring case. */
  function SearchByBillNumber(receipts: Collection<Doc>, text: string): (r: Collection<Doc>)
    ensures forall i :: 0 <= i < |r| ==> r[i] in receipts && FieldContains(r[i].doc, "billNumber", text)
    ensures forall i :: 0 <= i < |receipts| && FieldContains(receipts[i].doc, "billNumber", text) ==> receipts[i] in r
  {
    AllContaining(receipts, "billNumber", text)
  }
}
