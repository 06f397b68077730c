/**
  A stored sales transaction. The repository has no sales schema file, so the record is the
  shape the sales routes write: a bill number, the transaction date, fixed-field snapshots of
  the company and the two parties, the priced lines, their total, the currency, optional
  references and remarks, and the covering-note text.
 */
module SalesModel {
  import opened Wrappers
  import opened Schema

  /** One priced line: the item's id, quantity, rate, `quantity * rate`, and a description. */
  datatype Line = Line(item: string, quantity: real, rate: real, amount: real, description: string)

  datatype Sale = Sale(
    transactionNumber: string,
    transactionDate: Value,
    company: Doc,
    debitParty: Doc,
    creditParty: Doc,
    items: seq<Line>,
    totalAmount: real,
    currency: string,
    broker: Option<Value>,
    cha: Option<Value>,
    remarks: Option<Value>,
    status: Option<string>,
    isActive: Option<bool>,
    coveringNotes: string)

  /** The fields each snapshot copies from the master record, besides its `_id`. */
  function CompanyFields(): set<string> { {"companyName", "firmId", "gstNo"} }
  function DebitPartyFields(): set<string>
  {
    {"partyName", "gstNo", "panNo", "iecNo", "epcgLicNo.lic1", "epcgLicNo.lic2", "epcgLicNo.lic3"}
  }
  function CreditPartyFields(): set<string> { {"partyName", "country", "port"} }

  /**
    `{ _id, f1: record.f1, ... }` as Mongoose stores it: a field the record lacks is
    `undefined` and is left out.
   */
  function Project(id: string, record: Doc, fields: set<string>): (d: Doc)
    ensures d.Keys == {"_id"} + (fields * record.Keys)
    ensures d["_id"] == Str(id)
    ensures forall f :: f in fields && f in record && f != "_id" ==> d[f] == record[f]
  {
    map p | p in {"_id"} + (fields * record.Keys) :: if p == "_id" then Str(id) else record[p]
  }

  /** No snapshot field list names `_id`, so a snapshot's id is never overwritten by a record field. */
  lemma {:induction false} FieldsLeaveIdOut()
    ensures "_id" !in CompanyFields() && "_id" !in DebitPartyFields() && "_id" !in CreditPartyFields()
  {
  }

  /** A snapshot holds the id it was given and, on each listed field, what the record holds there. */
  lemma {:induction false} ProjectHolds(id: string, record: Doc, fields: set<string>)
    requires "_id" !in fields
    ensures Get(Project(id, record, fields), "_id") == Some(Str(id))
    ensures forall p :: p in fields ==> Get(Project(id, record, fields), p) == Get(record, p)
  {
    var d := Project(id, record, fields);
    forall p | p in fields
      ensures Get(d, p) == Get(record, p)
    {
      assert p in d <==> p in record;
    }
  }

  /** The company name a sale was recorded under, when its snapshot holds one as text. */
  function CompanyNameOf(s: Sale): Option<string>
  {
    TextAt(s.company, "companyName")
  }

  /** The sum of the line amounts, accumulated first to last as the routes do. */
  function LinesTotal(lines: seq<Line>): real
  {
    if lines == [] then 0.0 else LinesTotal(lines[..|lines| - 1]) + lines[|lines| - 1].amount
  }
}
