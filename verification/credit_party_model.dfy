/** The credit-party schema: the foreign buyers, with their country and port. */
module CreditPartyModel {
  import opened Wrappers
  import opened Text
  import opened Patterns
  import opened Schema
  import opened Store
  import opened Queries
  import opened Codes

  /** Field `i` of the credit-party schema, in declaration order. */
  function CreditPartyField(i: int): Field
  {
    match i
    case 0 => Field("partyName", PlainText(true, 100))
    case 1 => Field("partyAddress1", PlainText(true, 100))
    case 2 => Field("partyAddress2", PlainText(false, 100))
    case 3 => Field("partyAddress3", PlainText(false, 100))
    case 4 => Field("pinCode", PinRule)
    case 5 => Field("country", PlainText(true, 50))
    case 6 => Field("port", PlainText(true, 50))
    case _ => Field("isActive", FlagRule(Some(true)))
  }

  function CreditPartySchema(): Schema
  {
    seq(8, CreditPartyField)
  }

  /** The credit-party schema, field by field, for any `s` equal to it. */
  lemma {:induction false} CreditPartyFields(s: Schema)
    requires s == CreditPartySchema()
    ensures |s| == 8 && forall j :: 0 <= j < 8 ==> s[j] == CreditPartyField(j)
  {
  }

  /** The conjunction of the credit-party path checks. */
  predicate CreditPartyPathsOk(d: Doc)
  {
    && PathOk(PlainText(true, 100), Get(d, "partyName"))
    && PathOk(PlainText(true, 100), Get(d, "partyAddress1"))
    && PathOk(PlainText(false, 100), Get(d, "partyAddress2"))
    && PathOk(PlainText(false, 100), Get(d, "partyAddress3"))
    && PathOk(PinRule, Get(d, "pinCode"))
    && PathOk(PlainText(true, 50), Get(d, "country"))
    && PathOk(PlainText(true, 50), Get(d, "port"))
    && PathOk(FlagRule(Some(true)), Get(d, "isActive"))
  }

  lemma {:induction false} CreditPartyPaths(d: Doc)
    ensures Valid(CreditPartySchema(), d) <==> CreditPartyPathsOk(d)
  {
    ValidCreditPartyPaths(CreditPartySchema(), d);
  }

  lemma {:induction false} ValidCreditPartyPaths(s: Schema, d: Doc)
    requires s == CreditPartySchema()
    ensures Valid(s, d) <==> CreditPartyPathsOk(d)
  {
    CreditPartyFields(s);
    if Valid(s, d) {
      assert PathOk(s[0].rule, Get(d, s[0].path));
      assert PathOk(s[1].rule, Get(d, s[1].path));
      assert PathOk(s[2].rule, Get(d, s[2].path));
      assert PathOk(s[3].rule, Get(d, s[3].path));
      assert PathOk(s[4].rule, Get(d, s[4].path));
      assert PathOk(s[5].rule, Get(d, s[5].path));
      assert PathOk(s[6].rule, Get(d, s[6].path));
      assert PathOk(s[7].rule, Get(d, s[7].path));
    }
  }

  /** What a storable credit party looks like, field by field. */
  predicate IsValidCreditParty(d: Doc)
  {
    && HasText(d, "partyName") && |d["partyName"].s| <= 100
    && HasText(d, "partyAddress1") && |d["partyAddress1"].s| <= 100
    && OptionalTextUpTo(d, "partyAddress2", 100)
    && OptionalTextUpTo(d, "partyAddress3", 100)
    && HasText(d, "pinCode") && IsPinCode(d["pinCode"].s)
    && HasText(d, "country") && |d["country"].s| <= 50
    && HasText(d, "port") && |d["port"].s| <= 50
    && OptionalFlag(d, "isActive")
  }

  /** The schema's validators accept exactly the credit parties described above. */
  lemma {:induction false} CreditPartyValidation(d: Doc)
    ensures Valid(CreditPartySchema(), d) <==> IsValidCreditParty(d)
  {
    CreditPartyPaths(d);
    PlainTextPath(d, "partyName", true, 100);
    PlainTextPath(d, "partyAddress1", true, 100);
    PlainTextPath(d, "partyAddress2", false, 100);
    PlainTextPath(d, "partyAddress3", false, 100);
    PinPath(d, "pinCode");
    PlainTextPath(d, "country", true, 50);
    PlainTextPath(d, "port", true, 50);
    FlagPath(d, "isActive", Some(true));
  }

  lemma {:induction false} PreparedCreditPartyActiveByDefault(s: Schema, body: Doc)
    requires s == CreditPartySchema() && "isActive" !in body
    ensures var d := Prepare(s, body); "isActive" in d && d["isActive"] == Bool(true)
  {
    CreditPartyFields(s);
    assert s[7] == Field("isActive", FlagRule(Some(true)));
    PreparedPath(s, body, 7);
  }

  /** A new credit party is active unless the request says otherwise. */
  lemma {:induction false} CreditPartyActiveByDefault(body: Doc)
    requires "isActive" !in body
    ensures var d := Prepare(CreditPartySchema(), body); "isActive" in d && d["isActive"] == Bool(true)
  {
    PreparedCreditPartyActiveByDefault(CreditPartySchema(), body);
  }

  // ---------------------------------------------------------------- finders

  /** `CreditParty.findByPartyName(arg)`: the first party whose partyName contains `arg`, ignoring case. */
  function FindByPartyName(c: Collection<Doc>, arg: string): (r: Option<Entry<Doc>>)
    ensures r.None? <==> forall i :: 0 <= i < |c| ==> !FieldContains(c[i].doc, "partyName", arg)
    ensures r.Some? ==>
      && r.value in c
      && TextAt(r.value.doc, "partyName").Some?
      && ContainsIgnoringCase(TextAt(r.value.doc, "partyName").value, arg)
  {
    FindContaining(c, "partyName", arg)
  }

  /** `CreditParty.findByCountry(arg)`: every party whose country contains `arg`, ignoring case, in order. */
  function FindByCountry(c: Collection<Doc>, arg: string): (r: Collection<Doc>)
    ensures forall i :: 0 <= i < |r| ==> r[i] in c && FieldContains(r[i].doc, "country", arg)
    ensures forall i :: 0 <= i < |c| && FieldContains(c[i].doc, "country", arg) ==> c[i] in r
  {
    AllContaining(c, "country", arg)
  }

  /** `CreditParty.findByPort(arg)`: every party whose port contains `arg`, ignoring case, in order. */
  function FindByPort(c: Collection<Doc>, arg: string): (r: Collection<Doc>)
    ensures forall i :: 0 <= i < |r| ==> r[i] in c && FieldContains(r[i].doc, "port", arg)
    ensures forall i :: 0 <= i < |c| && FieldContains(c[i].doc, "port", arg) ==> c[i] in r
  {
    AllContaining(c, "port", arg)
  }
}
