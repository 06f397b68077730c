/**
  The sales-transaction routes: create (required fields, lookups in a fixed order, priced
  lines, snapshots, bill number, covering notes), update (only what the request supplies,
  with totals and notes recomputed when their inputs change), read, delete and the
  bill-number search.
 */
module SalesRoutes {
  import opened Wrappers
  import opened Text
  import opened Patterns
  import opened Schema
  import opened Store
  import opened Errors
  import opened SalesModel
  import opened SalesNumbers
  import opened SalesNotes

  const RequiredMessage := "Company, debit party, credit party, transaction date, and items are required"
  const AtLeastOneItem := "At least one item is required"
  const LineFieldsRequired := "Item ID, quantity, and rate are required for all items"
  const CompanyNotFound := "Company not found"
  const DebitPartyNotFound := "Debit party not found"
  const CreditPartyNotFound := "Credit party not found"
  const ItemsNotArray := "Items must be an array"
  const SaleNotFound := "Sales transaction not found"
  const InvalidSaleId := "Invalid sales transaction ID"

  function ItemNotFound(id: string): string
  {
    "Item with ID " + id + " not found"
  }

  // ---------------------------------------------------------------- requests and stores

  /** One requested line; an empty id and a zero quantity or rate stand for the falsy values. */
  datatype LineRequest = LineRequest(itemId: string, quantity: real, rate: real, description: string)

  /** The `items` field when it is truthy: an array of lines, or something else. */
  datatype ItemsField = NotAnArray | Lines(lines: seq<LineRequest>)

  /**
    The fields a sales request is read for. Text fields are "" when absent or empty; `items`
    is `None` when absent or falsy; `brokerId`, `chaId` and `remarks` are `None` when
    `undefined`; `isActive` is `None` unless it is a boolean.
   */
  datatype SaleRequest = SaleRequest(
    companyId: string,
    debitPartyId: string,
    creditPartyId: string,
    transactionDate: Option<Value>,
    items: Option<ItemsField>,
    currency: string,
    brokerId: Option<Value>,
    chaId: Option<Value>,
    remarks: Option<Value>,
    status: string,
    isActive: Option<bool>)

  /** The collections the sales routes read and write. */
  datatype Ledger = Ledger(
    companies: Collection<Doc>,
    debitParties: Collection<Doc>,
    creditParties: Collection<Doc>,
    items: Collection<Doc>,
    sales: Collection<Sale>)

  // ---------------------------------------------------------------- lookups

  /**
    `Model.findById(id)` followed by the route's not-found answer. An id that is no ObjectId
    makes the query throw, and the route's `catch` decides the answer (`castError`).
   */
  function Resolve(c: Collection<Doc>, id: string, missing: string, castError: Error): (r: Result<Doc, Error>)
    ensures r.Success? <==> FindById(c, id).Found?
    ensures r.Success? ==> FindById(c, id) == Found(r.value)
    ensures FindById(c, id).BadId? ==> r == Failure(castError)
    ensures FindById(c, id).Missing? ==> r == Failure(BadRequest(missing))
  {
    match FindById(c, id)
    case BadId => Failure(castError)
    case Missing => Failure(BadRequest(missing))
    case Found(d) => Success(d)
  }

  /** The company and party records a request names; `None` where it names none. */
  datatype Resolved = Resolved(company: Option<Doc>, debitParty: Option<Doc>, creditParty: Option<Doc>)

  /** Resolves `id` when it is given; an empty id resolves to `None` without a lookup. */
  function ResolveIfGiven(c: Collection<Doc>, id: string, missing: string, castError: Error): (r: Result<Option<Doc>, Error>)
  {
    if id == "" then Success(None)
    else match Resolve(c, id, missing, castError)
      case Failure(e) => Failure(e)
      case Success(d) => Success(Some(d))
  }

  /** The company, then the debit party, then the credit party; the first failure is the answer. */
  function Lookups(db: Ledger, q: SaleRequest, castError: Error): (r: Result<Resolved, Error>)
  {
    match ResolveIfGiven(db.companies, q.companyId, CompanyNotFound, castError)
    case Failure(e) => Failure(e)
    case Success(c) =>
      match ResolveIfGiven(db.debitParties, q.debitPartyId, DebitPartyNotFound, castError)
      case Failure(e) => Failure(e)
      case Success(d) =>
        match ResolveIfGiven(db.creditParties, q.creditPartyId, CreditPartyNotFound, castError)
        case Failure(e) => Failure(e)
        case Success(p) => Success(Resolved(c, d, p))
  }

  /** The lookups succeed exactly when every given id names a stored record, and then they return those records. */
  lemma {:induction false} LookupsFind(db: Ledger, q: SaleRequest, castError: Error)
    ensures var r := Lookups(db, q, castError);
      r.Success? <==>
        (q.companyId == "" || FindById(db.companies, q.companyId).Found?)
        && (q.debitPartyId == "" || FindById(db.debitParties, q.debitPartyId).Found?)
        && (q.creditPartyId == "" || FindById(db.creditParties, q.creditPartyId).Found?)
    ensures var r := Lookups(db, q, castError);
      r.Success? ==>
        (r.value.company.None? <==> q.companyId == "")
        && (r.value.company.Some? ==> FindById(db.companies, q.companyId) == Found(r.value.company.value))
        && (r.value.debitParty.None? <==> q.debitPartyId == "")
        && (r.value.debitParty.Some? ==> FindById(db.debitParties, q.debitPartyId) == Found(r.value.debitParty.value))
        && (r.value.creditParty.None? <==> q.creditPartyId == "")
        && (r.value.creditParty.Some? ==> FindById(db.creditParties, q.creditPartyId) == Found(r.value.creditParty.value))
  {
  }

  /** Lookups stop at the first record that cannot be found: the company, then the debit party, then the credit party. */
  lemma {:induction false} LookupsOrder(db: Ledger, q: SaleRequest, castError: Error)
    ensures q.companyId != "" && FindById(db.companies, q.companyId).Missing? ==>
      Lookups(db, q, castError) == Failure(BadRequest(CompanyNotFound))
    ensures q.companyId != "" && FindById(db.companies, q.companyId).BadId? ==>
      Lookups(db, q, castError) == Failure(castError)
    ensures ((q.companyId == "" || FindById(db.companies, q.companyId).Found?)
      && q.debitPartyId != "" && FindById(db.debitParties, q.debitPartyId).Missing?) ==>
      Lookups(db, q, castError) == Failure(BadRequest(DebitPartyNotFound))
    ensures ((q.companyId == "" || FindById(db.companies, q.companyId).Found?)
      && (q.debitPartyId == "" || FindById(db.debitParties, q.debitPartyId).Found?)
      && q.creditPartyId != "" && FindById(db.creditParties, q.creditPartyId).Missing?) ==>
      Lookups(db, q, castError) == Failure(BadRequest(CreditPartyNotFound))
  {
  }

  // ---------------------------------------------------------------- lines

  /** Why a requested line is refused, if it is: a missing field first, then the item lookup. */
  function LineError(items: Collection<Doc>, q: LineRequest, castError: Error): Option<Error>
  {
    if q.itemId == "" || q.quantity == 0.0 || q.rate == 0.0 then Some(BadRequest(LineFieldsRequired))
    else
      match FindById(items, q.itemId)
      case BadId => Some(castError)
      case Missing => Some(BadRequest(ItemNotFound(q.itemId)))
      case Found(_) => None
  }

  /** What a line costs: `quantity * rate`. */
  function Price(q: LineRequest): real
  {
    q.quantity * q.rate
  }

  /** The stored lines and, beside each, the item record it refers to. */
  datatype Processed = Processed(lines: seq<Line>, records: seq<Doc>)

  /** The loop over the requested lines: each is checked, looked up and priced in order. */
  function ProcessLines(items: Collection<Doc>, qs: seq<LineRequest>, castError: Error): Result<Processed, Error>
  {
    if qs == [] then Success(Processed([], []))
    else
      var q := qs[0];
      match LineError(items, q, castError)
      case Some(e) => Failure(e)
      case None =>
        match ProcessLines(items, qs[1..], castError)
        case Failure(e) => Failure(e)
        case Success(rest) =>
          var line := Line(q.itemId, q.quantity, q.rate, Price(q), q.description);
          Success(Processed([line] + rest.lines, [FindById(items, q.itemId).doc] + rest.records))
  }

  /** The stored lines price the requests one for one, each beside the item record it names. */
  predicate Priced(items: Collection<Doc>, qs: seq<LineRequest>, p: Processed)
  {
    |p.lines| == |qs| && |p.records| == |qs|
    && forall i :: 0 <= i < |qs| ==>
      (p.lines[i] == Line(qs[i].itemId, qs[i].quantity, qs[i].rate, Price(qs[i]), qs[i].description)
       && FindById(items, qs[i].itemId) == Found(p.records[i]))
  }

  /** The lines are accepted exactly when each one is. */
  lemma {:induction false} LinesAcceptedIff(items: Collection<Doc>, qs: seq<LineRequest>, castError: Error)
    ensures ProcessLines(items, qs, castError).Success? <==> forall i :: 0 <= i < |qs| ==> LineError(items, qs[i], castError).None?
  {
    if qs != [] {
      LinesAcceptedIff(items, qs[1..], castError);
      assert forall i :: 1 <= i < |qs| ==> qs[i] == qs[1..][i - 1];
    }
  }

  /** An accepted list of lines keeps one stored line and one item record per request. */
  lemma {:induction false} ProcessedLength(items: Collection<Doc>, qs: seq<LineRequest>, castError: Error)
    requires ProcessLines(items, qs, castError).Success?
    ensures |ProcessLines(items, qs, castError).value.lines| == |qs|
    ensures |ProcessLines(items, qs, castError).value.records| == |qs|
  {
    if qs != [] {
      ProcessedLength(items, qs[1..], castError);
    }
  }

  /** The `i`-th stored line prices the `i`-th request, beside the item record it names. */
  lemma {:induction false} ProcessedLineAt(items: Collection<Doc>, qs: seq<LineRequest>, castError: Error, i: nat)
    requires ProcessLines(items, qs, castError).Success? && i < |qs|
    ensures var p := ProcessLines(items, qs, castError).value;
      && i < |p.lines| && i < |p.records|
      && p.lines[i] == Line(qs[i].itemId, qs[i].quantity, qs[i].rate, Price(qs[i]), qs[i].description)
      && FindById(items, qs[i].itemId) == Found(p.records[i])
  {
    ProcessedLength(items, qs, castError);
    if i > 0 {
      ProcessedLineAt(items, qs[1..], castError, i - 1);
      assert qs[1..][i - 1] == qs[i];
    }
  }

  /** Accepted lines price their requests (`amount = quantity * rate`, description kept). */
  lemma {:induction false} ProcessedLines(items: Collection<Doc>, qs: seq<LineRequest>, castError: Error)
    requires ProcessLines(items, qs, castError).Success?
    ensures Priced(items, qs, ProcessLines(items, qs, castError).value)
  {
    ProcessedLength(items, qs, castError);
    forall i | 0 <= i < |qs|
      ensures var p := ProcessLines(items, qs, castError).value;
        p.lines[i] == Line(qs[i].itemId, qs[i].quantity, qs[i].rate, Price(qs[i]), qs[i].description)
        && FindById(items, qs[i].itemId) == Found(p.records[i])
    {
      ProcessedLineAt(items, qs, castError, i);
    }
  }

  /** A refusal is the refusal of the first line that is refused. */
  lemma {:induction false} FirstRefusedLine(items: Collection<Doc>, qs: seq<LineRequest>, castError: Error)
    requires ProcessLines(items, qs, castError).Failure?
    ensures exists i :: (0 <= i < |qs| && LineError(items, qs[i], castError) == Some(ProcessLines(items, qs, castError).error)
      && forall j :: 0 <= j < i ==> LineError(items, qs[j], castError).None?)
  {
    var e := ProcessLines(items, qs, castError).error;
    if LineError(items, qs[0], castError).None? {
      FirstRefusedLine(items, qs[1..], castError);
      var i :| 0 <= i < |qs[1..]| && LineError(items, qs[1..][i], castError) == Some(e)
        && forall j :: 0 <= j < i ==> LineError(items, qs[1..][j], castError).None?;
      assert forall j :: 1 <= j < i + 1 ==> qs[j] == qs[1..][j - 1];
      assert LineError(items, qs[i + 1], castError) == Some(e);
    }
  }

  /** `Σ quantity × rate` over the requested lines. */
  function RequestedTotal(qs: seq<LineRequest>): real
  {
    if qs == [] then 0.0 else RequestedTotal(qs[..|qs| - 1]) + Price(qs[|qs| - 1])
  }

  /** The total of the stored lines is the sum of quantity times rate over the request. */
  lemma {:induction false} TotalOfProcessed(lines: seq<Line>, qs: seq<LineRequest>)
    requires |lines| == |qs|
    requires forall i :: 0 <= i < |qs| ==> lines[i].amount == Price(qs[i])
    ensures LinesTotal(lines) == RequestedTotal(qs)
  {
    if qs != [] {
      TotalOfProcessed(lines[..|lines| - 1], qs[..|qs| - 1]);
    }
  }

  // ---------------------------------------------------------------- notes

  /**
    The covering notes for a sale's parties, lines, total and currency, each line as the
    template reads it: the stored line holds only the item's id, so no item name or units.
   */
  function NotesFor(f: Formats, company: Doc, debit: Doc, credit: Doc, lines: seq<Line>,
    total: real, currency: string): string
  {
    CoveringNotes(f, SourceWording, NoteHead(company, debit, credit, total, currency), NoteItemsAsWritten(lines))
  }

  // ---------------------------------------------------------------- create

  /** `!companyId || !debitPartyId || !creditPartyId || !transactionDate || !items || !Array.isArray(items)` is false. */
  predicate HasRequired(q: SaleRequest)
  {
    q.companyId != "" && q.debitPartyId != "" && q.creditPartyId != ""
    && Truthy(q.transactionDate) && q.items.Some? && q.items.value.Lines?
  }

  /** `currency || 'INR'`. */
  function CurrencyOrDefault(c: string): (r: string)
    ensures r != ""
    ensures c != "" ==> r == c
    ensures c == "" ==> r == "INR"
  {
    if c == "" then "INR" else c
  }

  /** The sale `POST /` stores once every check has passed. */
  function NewSale(f: Formats, db: Ledger, q: SaleRequest, company: Doc, debit: Doc, credit: Doc, lines: seq<Line>,
    name: string): Sale
    requires q.transactionDate.Some?
  {
    var total := LinesTotal(lines);
    var currency := CurrencyOrDefault(q.currency);
    Sale(
      NextBillNumberAsWritten(db.sales, name),
      q.transactionDate.value,
      Project(q.companyId, company, CompanyFields()),
      Project(q.debitPartyId, debit, DebitPartyFields()),
      Project(q.creditPartyId, credit, CreditPartyFields()),
      lines,
      total,
      currency,
      q.brokerId,
      q.chaId,
      q.remarks,
      None,
      None,
      NotesFor(f, company, debit, credit, lines, total, currency))
  }

  /**
    `POST /sales-transactions`: the sales collection with the new sale appended under
    `newId`, or the answer of the first check that fails.
   */
  function CreateSale(f: Formats, db: Ledger, q: SaleRequest, newId: string): (r: Result<Collection<Sale>, Error>)
  {
    if !HasRequired(q) then Failure(BadRequest(RequiredMessage))
    else if q.items.value.lines == [] then Failure(BadRequest(AtLeastOneItem))
    else
      match Lookups(db, q, InternalError)
      case Failure(e) => Failure(e)
      case Success(found) =>
        match ProcessLines(db.items, q.items.value.lines, InternalError)
        case Failure(e) => Failure(e)
        case Success(p) =>
          if found.company.None? || found.debitParty.None? || found.creditParty.None? then Failure(InternalError)
          else
            match TextAt(found.company.value, "companyName")
            case None => Failure(InternalError)
            case Some(name) =>
              var sale := NewSale(f, db, q, found.company.value, found.debitParty.value, found.creditParty.value,
                p.lines, name);
              Success(Insert(db.sales, newId, sale))
  }

  /** A request without all required fields, or with an empty item list, is refused before any lookup. */
  lemma {:induction false} CreateChecksRequestFirst(f: Formats, db: Ledger, q: SaleRequest, newId: string)
    ensures !HasRequired(q) ==> CreateSale(f, db, q, newId) == Failure(BadRequest(RequiredMessage))
    ensures HasRequired(q) && q.items.value.lines == [] ==>
      CreateSale(f, db, q, newId) == Failure(BadRequest(AtLeastOneItem))
  {
  }

  /**
    With the request complete, lookups decide in order (company, debit party, credit party,
    then each line), and an id that is no ObjectId ends in the route's 500 answer.
   */
  lemma {:induction false} CreateLookupOrder(f: Formats, db: Ledger, q: SaleRequest, newId: string)
    requires HasRequired(q) && q.items.value.lines != []
    ensures Lookups(db, q, InternalError).Failure? ==>
      CreateSale(f, db, q, newId) == Failure(Lookups(db, q, InternalError).error)
    ensures Lookups(db, q, InternalError).Success? && ProcessLines(db.items, q.items.value.lines, InternalError).Failure? ==>
      CreateSale(f, db, q, newId) == Failure(ProcessLines(db.items, q.items.value.lines, InternalError).error)
    ensures !IsObjectIdText(q.companyId) ==> CreateSale(f, db, q, newId) == Failure(InternalError)
  {
    LookupsOrder(db, q, InternalError);
  }

  /** Create succeeds exactly when every record is found, every line is complete and the company has a name. */
  lemma {:induction false} CreateSucceedsIff(f: Formats, db: Ledger, q: SaleRequest, newId: string)
    ensures CreateSale(f, db, q, newId).Success? <==>
      HasRequired(q) && q.items.value.lines != []
      && FindById(db.companies, q.companyId).Found?
      && FindById(db.debitParties, q.debitPartyId).Found?
      && FindById(db.creditParties, q.creditPartyId).Found?
      && (forall i :: 0 <= i < |q.items.value.lines| ==> LineError(db.items, q.items.value.lines[i], InternalError).None?)
      && TextAt(FindById(db.companies, q.companyId).doc, "companyName").Some?
  {
    if HasRequired(q) && q.items.value.lines != [] {
      LookupsFind(db, q, InternalError);
      LinesAcceptedIff(db.items, q.items.value.lines, InternalError);
    }
  }

  /** A successful create found every record it names and stores the sale built from them. */
  lemma {:induction false} CreateStoresNewSale(f: Formats, db: Ledger, q: SaleRequest, newId: string)
    requires CreateSale(f, db, q, newId).Success?
    ensures HasRequired(q) && q.items.value.lines != []
    ensures FindById(db.companies, q.companyId).Found? && FindById(db.debitParties, q.debitPartyId).Found?
      && FindById(db.creditParties, q.creditPartyId).Found?
    ensures ProcessLines(db.items, q.items.value.lines, InternalError).Success?
    ensures TextAt(FindById(db.companies, q.companyId).doc, "companyName").Some?
    ensures CreateSale(f, db, q, newId).value == Insert(db.sales, newId,
      NewSale(f, db, q, FindById(db.companies, q.companyId).doc, FindById(db.debitParties, q.debitPartyId).doc,
        FindById(db.creditParties, q.creditPartyId).doc, ProcessLines(db.items, q.items.value.lines, InternalError).value.lines,
        TextAt(FindById(db.companies, q.companyId).doc, "companyName").value))
  {
    LookupsFind(db, q, InternalError);
  }

  /** A successful create appends exactly one sale, under the new id, and keeps every stored sale. */
  lemma {:induction false} CreateAppendsOne(f: Formats, db: Ledger, q: SaleRequest, newId: string)
    requires CreateSale(f, db, q, newId).Success?
    ensures var r := CreateSale(f, db, q, newId).value;
      |r| == |db.sales| + 1 && r[..|db.sales|] == db.sales && r[|db.sales|].id == newId
  {
    CreateStoresNewSale(f, db, q, newId);
  }

  /**
    The created sale's lines price each requested line, its total is their sum and its
    currency defaults to INR.
   */
  lemma {:induction false} CreatedSaleLines(f: Formats, db: Ledger, q: SaleRequest, newId: string)
    requires CreateSale(f, db, q, newId).Success?
    ensures HasRequired(q) && |CreateSale(f, db, q, newId).value| == |db.sales| + 1
    ensures var s := CreateSale(f, db, q, newId).value[|db.sales|].doc;
      var qs := q.items.value.lines;
      && |s.items| == |qs|
      && (forall i :: 0 <= i < |qs| ==>
           (s.items[i].item == qs[i].itemId && s.items[i].amount == Price(qs[i])
            && s.items[i].description == qs[i].description))
      && s.totalAmount == RequestedTotal(qs)
      && s.currency == (if q.currency == "" then "INR" else q.currency)
  {
    CreateStoresNewSale(f, db, q, newId);
    ProcessedLines(db.items, q.items.value.lines, InternalError);
    var p := ProcessLines(db.items, q.items.value.lines, InternalError).value;
    TotalOfProcessed(p.lines, q.items.value.lines);
  }

  /**
    The created sale snapshots the fixed fields of the records found, and its number
    continues the sequence of the company's name.
   */
  lemma {:induction false} CreatedSaleSnapshots(f: Formats, db: Ledger, q: SaleRequest, newId: string)
    requires CreateSale(f, db, q, newId).Success?
    ensures |CreateSale(f, db, q, newId).value| == |db.sales| + 1
    ensures FindById(db.companies, q.companyId).Found? && FindById(db.debitParties, q.debitPartyId).Found?
      && FindById(db.creditParties, q.creditPartyId).Found?
      && TextAt(FindById(db.companies, q.companyId).doc, "companyName").Some?
    ensures var s := CreateSale(f, db, q, newId).value[|db.sales|].doc;
      && s.company == Project(q.companyId, FindById(db.companies, q.companyId).doc, CompanyFields())
      && s.debitParty == Project(q.debitPartyId, FindById(db.debitParties, q.debitPartyId).doc, DebitPartyFields())
      && s.creditParty == Project(q.creditPartyId, FindById(db.creditParties, q.creditPartyId).doc, CreditPartyFields())
      && s.transactionNumber == NextBillNumberAsWritten(db.sales, TextAt(FindById(db.companies, q.companyId).doc, "companyName").value)
  {
    CreateStoresNewSale(f, db, q, newId);
  }

  /**
    Each snapshot of a created sale holds, on every field it lists, what the record found
    holds there (a field the record lacks is absent from the snapshot too), and the
    request's id.
   */
  lemma {:induction false} CreatedSnapshotsHoldRecords(f: Formats, db: Ledger, q: SaleRequest, newId: string)
    requires CreateSale(f, db, q, newId).Success?
    ensures |CreateSale(f, db, q, newId).value| == |db.sales| + 1
    ensures var s := CreateSale(f, db, q, newId).value[|db.sales|].doc;
      var company := FindById(db.companies, q.companyId).doc;
      var debit := FindById(db.debitParties, q.debitPartyId).doc;
      var credit := FindById(db.creditParties, q.creditPartyId).doc;
      && Get(s.company, "_id") == Some(Str(q.companyId))
      && Get(s.debitParty, "_id") == Some(Str(q.debitPartyId))
      && Get(s.creditParty, "_id") == Some(Str(q.creditPartyId))
      && (forall p :: p in CompanyFields() ==> Get(s.company, p) == Get(company, p))
      && (forall p :: p in DebitPartyFields() ==> Get(s.debitParty, p) == Get(debit, p))
      && (forall p :: p in CreditPartyFields() ==> Get(s.creditParty, p) == Get(credit, p))
  {
    CreatedSaleSnapshots(f, db, q, newId);
    FieldsLeaveIdOut();
    ProjectHolds(q.companyId, FindById(db.companies, q.companyId).doc, CompanyFields());
    ProjectHolds(q.debitPartyId, FindById(db.debitParties, q.debitPartyId).doc, DebitPartyFields());
    ProjectHolds(q.creditPartyId, FindById(db.creditParties, q.creditPartyId).doc, CreditPartyFields());
  }

  /**
    The created sale's covering notes name the item of each line `undefined`: the template
    reads the name from the stored line, which holds only the item's id.
   */
  lemma {:induction false} CreatedNotesNameUndefined(f: Formats, db: Ledger, q: SaleRequest, newId: string, i: nat)
    requires CreateSale(f, db, q, newId).Success?
    requires HasRequired(q) && i < |q.items.value.lines|
    ensures |CreateSale(f, db, q, newId).value| == |db.sales| + 1
    ensures Contains(CreateSale(f, db, q, newId).value[|db.sales|].doc.coveringNotes,
      NatToString(i + 1) + ". " + "undefined" + " - Qty: ")
  {
    CreateStoresNewSale(f, db, q, newId);
    ProcessedLength(db.items, q.items.value.lines, InternalError);
    var lines := ProcessLines(db.items, q.items.value.lines, InternalError).value.lines;
    var company := FindById(db.companies, q.companyId).doc;
    var debit := FindById(db.debitParties, q.debitPartyId).doc;
    var credit := FindById(db.creditParties, q.creditPartyId).doc;
    var total := LinesTotal(lines);
    var currency := CurrencyOrDefault(q.currency);
    AsWrittenNotesNameUndefined(f, SourceWording, NoteHead(company, debit, credit, total, currency), lines, i);
  }

  // ---------------------------------------------------------------- update

  /** `PUT /sales-transactions/:id` once the stored sale, the records and the lines are known. */
  function UpdatedSale(f: Formats, db: Ledger, stored: Sale, q: SaleRequest, found: Resolved, lines: Option<seq<Line>>): Sale
  {
    var company := if found.company.Some? then Project(q.companyId, found.company.value, CompanyFields()) else stored.company;
    var debit := if found.debitParty.Some? then Project(q.debitPartyId, found.debitParty.value, DebitPartyFields()) else stored.debitParty;
    var credit := if found.creditParty.Some? then Project(q.creditPartyId, found.creditParty.value, CreditPartyFields()) else stored.creditParty;
    var items := if lines.Some? then lines.value else stored.items;
    var total := if lines.Some? then LinesTotal(lines.value) else stored.totalAmount;
    var currency := if q.currency != "" then q.currency else stored.currency;
    var renotes := lines.Some? || q.companyId != "" || q.debitPartyId != "" || q.creditPartyId != "";
    Sale(
      stored.transactionNumber,
      if Truthy(q.transactionDate) then q.transactionDate.value else stored.transactionDate,
      company,
      debit,
      credit,
      items,
      total,
      currency,
      if q.brokerId.Some? then q.brokerId else stored.broker,
      if q.chaId.Some? then q.chaId else stored.cha,
      if q.remarks.Some? then q.remarks else stored.remarks,
      if q.status != "" then Some(q.status) else stored.status,
      if q.isActive.Some? then q.isActive else stored.isActive,
      if renotes then NotesFor(f, company, debit, credit, items, total, currency) else stored.coveringNotes)
  }

  /** The new lines when the request supplies items: refused when empty, else processed. */
  function LinesUpdate(db: Ledger, q: SaleRequest): (r: Result<Option<seq<Line>>, Error>)
    requires q.items.None? || q.items.value.Lines?
  {
    if q.items.None? then Success(None)
    else if q.items.value.lines == [] then Failure(BadRequest(AtLeastOneItem))
    else
      match ProcessLines(db.items, q.items.value.lines, BadRequest(InvalidSaleId))
      case Failure(e) => Failure(e)
      case Success(p) => Success(Some(p.lines))
  }

  /** `PUT /sales-transactions/:id`: the sales collection with that sale replaced, or the route's refusal. */
  function UpdateSale(f: Formats, db: Ledger, id: string, q: SaleRequest): (r: Result<Collection<Sale>, Error>)
  {
    match FindById(db.sales, id)
    case BadId => Failure(BadRequest(InvalidSaleId))
    case Missing => Failure(NotFound(SaleNotFound))
    case Found(stored) =>
      if q.items == Some(NotAnArray) then Failure(BadRequest(ItemsNotArray))
      else
        match Lookups(db, q, BadRequest(InvalidSaleId))
        case Failure(e) => Failure(e)
        case Success(found) =>
          match LinesUpdate(db, q)
          case Failure(e) => Failure(e)
          case Success(lines) => Success(Replace(db.sales, id, UpdatedSale(f, db, stored, q, found, lines)))
  }

  /** An id that is no ObjectId, or names no sale, is refused before the request is looked at. */
  lemma {:induction false} UpdateNeedsStoredSale(f: Formats, db: Ledger, id: string, q: SaleRequest)
    ensures !IsObjectIdText(id) ==> UpdateSale(f, db, id, q) == Failure(BadRequest(InvalidSaleId))
    ensures IsObjectIdText(id) && !HasId(db.sales, id) ==> UpdateSale(f, db, id, q) == Failure(NotFound(SaleNotFound))
  {
  }

  /**
    On update every lookup that cannot cast its id answers "Invalid sales transaction ID",
    and an empty item list is refused only after the lookups.
   */
  lemma {:induction false} UpdateRefusals(f: Formats, db: Ledger, id: string, q: SaleRequest)
    requires FindById(db.sales, id).Found?
    ensures q.items == Some(NotAnArray) ==> UpdateSale(f, db, id, q) == Failure(BadRequest(ItemsNotArray))
    ensures q.items != Some(NotAnArray) && q.companyId != "" && !IsObjectIdText(q.companyId) ==>
      UpdateSale(f, db, id, q) == Failure(BadRequest(InvalidSaleId))
    ensures q.items == Some(Lines([])) && Lookups(db, q, BadRequest(InvalidSaleId)).Success? ==>
      UpdateSale(f, db, id, q) == Failure(BadRequest(AtLeastOneItem))
  {
    LookupsOrder(db, q, BadRequest(InvalidSaleId));
  }

  /** The stored sale the update rewrites, and the one it writes. */
  lemma {:induction false} UpdatedSaleFields(f: Formats, db: Ledger, stored: Sale, q: SaleRequest, found: Resolved,
    lines: Option<seq<Line>>)
    requires found.company.None? <==> q.companyId == ""
    requires found.debitParty.None? <==> q.debitPartyId == ""
    requires found.creditParty.None? <==> q.creditPartyId == ""
    ensures var s := UpdatedSale(f, db, stored, q, found, lines);
      && s.transactionNumber == stored.transactionNumber
      && (lines.None? ==> s.items == stored.items && s.totalAmount == stored.totalAmount)
      && (lines.Some? ==> s.items == lines.value && s.totalAmount == LinesTotal(lines.value))
      && (q.companyId == "" ==> s.company == stored.company)
      && (q.companyId != "" ==> s.company == Project(q.companyId, found.company.value, CompanyFields()))
      && (q.debitPartyId == "" ==> s.debitParty == stored.debitParty)
      && (q.creditPartyId == "" ==> s.creditParty == stored.creditParty)
      && (q.currency == "" ==> s.currency == stored.currency)
      && (q.brokerId.None? ==> s.broker == stored.broker)
      && (q.remarks.None? ==> s.remarks == stored.remarks)
    ensures var s := UpdatedSale(f, db, stored, q, found, lines);
      if lines.Some? || q.companyId != "" || q.debitPartyId != "" || q.creditPartyId != "" then
        s.coveringNotes == NotesFor(f, s.company, s.debitParty, s.creditParty, s.items, s.totalAmount, s.currency)
      else s.coveringNotes == stored.coveringNotes
  {
  }

  /** A successful update found the stored sale, every named record and every line, and writes the sale built from them. */
  lemma {:induction false} UpdateStoresUpdatedSale(f: Formats, db: Ledger, id: string, q: SaleRequest)
    requires UpdateSale(f, db, id, q).Success?
    ensures FindById(db.sales, id).Found? && q.items != Some(NotAnArray)
    ensures Lookups(db, q, BadRequest(InvalidSaleId)).Success? && LinesUpdate(db, q).Success?
    ensures UpdateSale(f, db, id, q).value == Replace(db.sales, id,
      UpdatedSale(f, db, FindById(db.sales, id).doc, q, Lookups(db, q, BadRequest(InvalidSaleId)).value, LinesUpdate(db, q).value))
  {
  }

  /** A successful update replaces the one sale under `id` and keeps every other sale and the order. */
  lemma {:induction false} UpdateReplacesOne(f: Formats, db: Ledger, id: string, q: SaleRequest)
    requires UpdateSale(f, db, id, q).Success?
    ensures var r := UpdateSale(f, db, id, q).value;
      |r| == |db.sales| && forall i :: 0 <= i < |r| ==>
        (r[i].id == db.sales[i].id && (!SameId(db.sales[i].id, id) ==> r[i] == db.sales[i]))
  {
    UpdateStoresUpdatedSale(f, db, id, q);
  }

  /** Supplied lines are processed as on create; absent ones leave the stored lines alone. */
  lemma {:induction false} LinesUpdateMeans(db: Ledger, q: SaleRequest)
    requires q.items.None? || q.items.value.Lines?
    requires LinesUpdate(db, q).Success?
    ensures q.items.None? <==> LinesUpdate(db, q).value.None?
    ensures q.items.Some? ==> var ls := LinesUpdate(db, q).value.value;
      |ls| == |q.items.value.lines| && LinesTotal(ls) == RequestedTotal(q.items.value.lines)
  {
    if q.items.Some? {
      var qs := q.items.value.lines;
      ProcessedLines(db.items, qs, BadRequest(InvalidSaleId));
      var p := ProcessLines(db.items, qs, BadRequest(InvalidSaleId)).value;
      TotalOfProcessed(p.lines, qs);
    }
  }

  /**
    After a successful update the sale under `id` keeps its bill number; its lines and total
    are recomputed from the request's items when it supplies them and kept otherwise.
   */
  lemma {:induction false} UpdateKeepsNumber(f: Formats, db: Ledger, id: string, q: SaleRequest, i: nat)
    requires UpdateSale(f, db, id, q).Success?
    requires i < |db.sales| && db.sales[i].id == id
    ensures FindById(db.sales, id).Found? && i < |UpdateSale(f, db, id, q).value|
    ensures var s := UpdateSale(f, db, id, q).value[i].doc;
      var stored := FindById(db.sales, id).doc;
      && s.transactionNumber == stored.transactionNumber
      && (q.items.None? ==> s.items == stored.items && s.totalAmount == stored.totalAmount)
      && (q.items.Some? ==>
           (q.items.value.Lines? && |s.items| == |q.items.value.lines| && s.totalAmount == RequestedTotal(q.items.value.lines)))
      && (q.companyId == "" ==> s.company == stored.company)
  {
    UpdateStoresUpdatedSale(f, db, id, q);
    var stored := FindById(db.sales, id).doc;
    var found := Lookups(db, q, BadRequest(InvalidSaleId)).value;
    var lines := LinesUpdate(db, q).value;
    LookupsFind(db, q, BadRequest(InvalidSaleId));
    LinesUpdateMeans(db, q);
    UpdatedSaleFields(f, db, stored, q, found, lines);
    assert UpdateSale(f, db, id, q).value[i].doc == UpdatedSale(f, db, stored, q, found, lines);
  }

  // ---------------------------------------------------------------- read, delete, search

  /** `GET /sales-transactions/:id`. */
  function ReadSale(sales: Collection<Sale>, id: string): (r: Result<Sale, Error>)
    ensures r.Success? <==> IsObjectIdText(id) && HasId(sales, id)
    ensures r.Success? ==> exists i :: 0 <= i < |sales| && SameId(sales[i].id, id) && sales[i].doc == r.value
    ensures !IsObjectIdText(id) ==> r == Failure(BadRequest(InvalidSaleId))
    ensures IsObjectIdText(id) && !HasId(sales, id) ==> r == Failure(NotFound(SaleNotFound))
  {
    match FindById(sales, id)
    case BadId => Failure(BadRequest(InvalidSaleId))
    case Missing => Failure(NotFound(SaleNotFound))
    case Found(s) => Success(s)
  }

  /** `DELETE /sales-transactions/:id`. */
  function DeleteSale(sales: Collection<Sale>, id: string): (r: Result<Collection<Sale>, Error>)
    ensures r.Success? <==> IsObjectIdText(id) && HasId(sales, id)
    ensures r.Success? ==> r.value == Remove(sales, id)
    ensures !IsObjectIdText(id) ==> r == Failure(BadRequest(InvalidSaleId))
    ensures IsObjectIdText(id) && !HasId(sales, id) ==> r == Failure(NotFound(SaleNotFound))
  {
    match FindById(sales, id)
    case BadId => Failure(BadRequest(InvalidSaleId))
    case Missing => Failure(NotFound(SaleNotFound))
    case Found(_) => Success(Remove(sales, id))
  }

  /** Deleting a sale just created restores the collection (ids kept unique). */
  lemma {:induction false} DeleteUndoesCreate(f: Formats, db: Ledger, q: SaleRequest, newId: string)
    requires CreateSale(f, db, q, newId).Success?
    requires IsObjectIdText(newId) && !HasId(db.sales, newId)
    ensures DeleteSale(CreateSale(f, db, q, newId).value, newId) == Success(db.sales)
  {
    CreateStoresNewSale(f, db, q, newId);
    var r := CreateSale(f, db, q, newId).value;
    assert r[|db.sales|].id == newId;
    RemoveUndoesInsert(db.sales, newId, r[|db.sales|].doc);
  }

  /** Whether a sale's bill number contains the searched text, ignoring case. */
  predicate NumberMatches(s: Sale, text: string)
  {
    ContainsIgnoringCase(s.transactionNumber, text)
  }

  /**
    `GET /sales-transactions/search/bill-number/:billNumber`: the first sale whose bill number
    contains the text, ignoring case, or 404.
   */
  function SearchSale(sales: Collection<Sale>, text: string): (r: Result<Entry<Sale>, Error>)
    ensures r.Failure? <==> forall i :: 0 <= i < |sales| ==> !NumberMatches(sales[i].doc, text)
    ensures r.Failure? ==> r.error == NotFound(SaleNotFound)
    ensures r.Success? ==> r.value in sales && NumberMatches(r.value.doc, text)
  {
    match FirstWhere(sales, s => NumberMatches(s, text))
    case None => Failure(NotFound(SaleNotFound))
    case Some(e) => Success(e)
  }

  /** The search answers the first sale in collection order whose number matches. */
  lemma {:induction false} SearchFindsFirst(sales: Collection<Sale>, text: string)
    requires SearchSale(sales, text).Success?
    ensures exists i :: (0 <= i < |sales| && sales[i] == SearchSale(sales, text).value
      && forall j :: 0 <= j < i ==> !NumberMatches(sales[j].doc, text))
  {
    FirstWhereIsFirst(sales, s => NumberMatches(s, text));
  }

  /** A stored bill number, in any letter case, finds a sale. */
  lemma {:induction false} SearchFindsStoredNumber(sales: Collection<Sale>, i: nat, text: string)
    requires i < |sales| && Upper(text) == Upper(sales[i].doc.transactionNumber)
    ensures SearchSale(sales, text).Success?
  {
    ContainsIgnoringCaseSelf(sales[i].doc.transactionNumber, text);
  }
}
