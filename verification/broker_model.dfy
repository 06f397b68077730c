/** The broker schema: a name and an active flag. */
module BrokerModel {
  import opened Wrappers
  import opened Text
  import opened Patterns
  import opened Schema
  import opened Store
  import opened Queries
  import opened Codes

  /** Field `i` of the broker schema, in declaration order. */
  function BrokerField(i: int): Field
  {
    match i
    case 0 => Field("brokerName", PlainText(true, 100))
    case _ => Field("isActive", FlagRule(Some(true)))
  }

  function BrokerSchema(): Schema
  {
    seq(2, BrokerField)
  }

  /** The broker schema, field by field, for any `s` equal to it. */
  lemma {:induction false} BrokerFields(s: Schema)
    requires s == BrokerSchema()
    ensures |s| == 2 && forall j :: 0 <= j < 2 ==> s[j] == BrokerField(j)
  {
  }

  /** The conjunction of the broker path checks. */
  predicate BrokerPathsOk(d: Doc)
  {
    && PathOk(PlainText(true, 100), Get(d, "brokerName"))
    && PathOk(FlagRule(Some(true)), Get(d, "isActive"))
  }

  lemma {:induction false} BrokerPaths(d: Doc)
    ensures Valid(BrokerSchema(), d) <==> BrokerPathsOk(d)
  {
    ValidBrokerPaths(BrokerSchema(), d);
  }

  lemma {:induction false} ValidBrokerPaths(s: Schema, d: Doc)
    requires s == BrokerSchema()
    ensures Valid(s, d) <==> BrokerPathsOk(d)
  {
    BrokerFields(s);
    if Valid(s, d) {
      assert PathOk(s[0].rule, Get(d, s[0].path));
      assert PathOk(s[1].rule, Get(d, s[1].path));
    }
  }

  /** What a storable broker looks like. */
  predicate IsValidBroker(d: Doc)
  {
    && HasText(d, "brokerName") && |d["brokerName"].s| <= 100
    && OptionalFlag(d, "isActive")
  }

  /** The schema's validators accept exactly the brokers described above. */
  lemma {:induction false} BrokerValidation(d: Doc)
    ensures Valid(BrokerSchema(), d) <==> IsValidBroker(d)
  {
    BrokerPaths(d);
    PlainTextPath(d, "brokerName", true, 100);
    FlagPath(d, "isActive", Some(true));
  }

  lemma {:induction false} PreparedBrokerActiveByDefault(s: Schema, body: Doc)
    requires s == BrokerSchema() && "isActive" !in body
    ensures var d := Prepare(s, body); "isActive" in d && d["isActive"] == Bool(true)
  {
    BrokerFields(s);
    assert s[1] == Field("isActive", FlagRule(Some(true)));
    PreparedPath(s, body, 1);
  }

  /** A new broker is active unless the request says otherwise. */
  lemma {:induction false} BrokerActiveByDefault(body: Doc)
    requires "isActive" !in body
    ensures var d := Prepare(BrokerSchema(), body); "isActive" in d && d["isActive"] == Bool(true)
  {
    PreparedBrokerActiveByDefault(BrokerSchema(), body);
  }

  // ---------------------------------------------------------------- finders

  /** `Broker.findByBrokerName(arg)`: the first broker whose brokerName contains `arg`, ignoring case. */
  function FindByBrokerName(c: Collection<Doc>, arg: string): (r: Option<Entry<Doc>>)
    ensures r.None? <==> forall i :: 0 <= i < |c| ==> !FieldContains(c[i].doc, "brokerName", arg)
    ensures r.Some? ==>
      && r.value in c
      && TextAt(r.value.doc, "brokerName").Some?
      && ContainsIgnoringCase(TextAt(r.value.doc, "brokerName").value, arg)
  {
    FindContaining(c, "brokerName", arg)
  }
}
