/**
  The debit-party schema: the exporter's own parties, with optional GST and PAN numbers, an
  IEC number and up to three EPCG licence numbers (`epcgLicNo.lic1` to `epcgLicNo.lic3`).
 */
module DebitPartyModel {
  import opened Wrappers
  import opened Text
  import opened Patterns
  import opened Schema
  import opened Store
  import opened Queries
  import opened Codes

  /** `iecNo`: trimmed, upper-cased, at most 20 characters. */
  const IecRule: Rule := TextRule(false, true, ToUpper, 0, Some(20), None, [], None)

  /** Field `i` of the debit-party schema, in declaration order. */
  function DebitPartyField(i: int): Field
  {
    match i
    case 0 => Field("partyName", PlainText(true, 100))
    case 1 => Field("partyAddress1", PlainText(true, 100))
    case 2 => Field("partyAddress2", PlainText(false, 100))
    case 3 => Field("partyAddress3", PlainText(false, 100))
    case 4 => Field("pinCode", PinRule)
    case 5 => Field("gstNo", GstRule(false))
    case 6 => Field("panNo", PanRule(false))
    case 7 => Field("iecNo", IecRule)
    case 8 => Field("epcgLicNo.lic1", PlainText(false, 50))
    case 9 => Field("epcgLicNo.lic2", PlainText(false, 50))
    case 10 => Field("epcgLicNo.lic3", PlainText(false, 50))
    case 11 => Field("epcgLicDate", DateRule(false))
    case 12 => Field("epcgLicExpiryReminder", DateRule(false))
    case _ => Field("isActive", FlagRule(Some(true)))
  }

  function DebitPartySchema(): Schema
  {
    seq(14, DebitPartyField)
  }

  /** The debit-party schema, field by field, for any `s` equal to it. */
  lemma {:induction false} DebitPartyFields(s: Schema)
    requires s == DebitPartySchema()
    ensures |s| == 14 && forall j :: 0 <= j < 14 ==> s[j] == DebitPartyField(j)
  {
  }

  /** The conjunction of the debit-party path checks. */
  predicate DebitPartyPathsOk(d: Doc)
  {
    && PathOk(PlainText(true, 100), Get(d, "partyName"))
    && PathOk(PlainText(true, 100), Get(d, "partyAddress1"))
    && PathOk(PlainText(false, 100), Get(d, "partyAddress2"))
    && PathOk(PlainText(false, 100), Get(d, "partyAddress3"))
    && PathOk(PinRule, Get(d, "pinCode"))
    && PathOk(GstRule(false), Get(d, "gstNo"))
    && PathOk(PanRule(false), Get(d, "panNo"))
    && PathOk(IecRule, Get(d, "iecNo"))
    && PathOk(PlainText(false, 50), Get(d, "epcgLicNo.lic1"))
    && PathOk(PlainText(false, 50), Get(d, "epcgLicNo.lic2"))
    && PathOk(PlainText(false, 50), Get(d, "epcgLicNo.lic3"))
    && PathOk(DateRule(false), Get(d, "epcgLicDate"))
    && PathOk(DateRule(false), Get(d, "epcgLicExpiryReminder"))
    && PathOk(FlagRule(Some(true)), Get(d, "isActive"))
  }

  lemma {:induction false} DebitPartyPaths(d: Doc)
    ensures Valid(DebitPartySchema(), d) <==> DebitPartyPathsOk(d)
  {
    ValidDebitPartyPaths(DebitPartySchema(), d);
  }

  lemma {:induction false} ValidDebitPartyPaths(s: Schema, d: Doc)
    requires s == DebitPartySchema()
    ensures Valid(s, d) <==> DebitPartyPathsOk(d)
  {
    DebitPartyFields(s);
    if Valid(s, d) {
      assert PathOk(s[0].rule, Get(d, s[0].path));
      assert PathOk(s[1].rule, Get(d, s[1].path));
      assert PathOk(s[2].rule, Get(d, s[2].path));
      assert PathOk(s[3].rule, Get(d, s[3].path));
      assert PathOk(s[4].rule, Get(d, s[4].path));
      assert PathOk(s[5].rule, Get(d, s[5].path));
      assert PathOk(s[6].rule, Get(d, s[6].path));
      assert PathOk(s[7].rule, Get(d, s[7].path));
      assert PathOk(s[8].rule, Get(d, s[8].path));
      assert PathOk(s[9].rule, Get(d, s[9].path));
      assert PathOk(s[10].rule, Get(d, s[10].path));
      assert PathOk(s[11].rule, Get(d, s[11].path));
      assert PathOk(s[12].rule, Get(d, s[12].path));
      assert PathOk(s[13].rule, Get(d, s[13].path));
    }
  }

  /** What a storable debit party looks like, field by field. */
  predicate IsValidDebitParty(d: Doc)
  {
    && HasText(d, "partyName") && |d["partyName"].s| <= 100
    && HasText(d, "partyAddress1") && |d["partyAddress1"].s| <= 100
    && OptionalTextUpTo(d, "partyAddress2", 100)
    && OptionalTextUpTo(d, "partyAddress3", 100)
    && HasText(d, "pinCode") && IsPinCode(d["pinCode"].s)
    && OptionalGst(d, "gstNo")
    && OptionalPan(d, "panNo")
    && OptionalTextUpTo(d, "iecNo", 20)
    && OptionalTextUpTo(d, "epcgLicNo.lic1", 50)
    && OptionalTextUpTo(d, "epcgLicNo.lic2", 50)
    && OptionalTextUpTo(d, "epcgLicNo.lic3", 50)
    && OptionalDate(d, "epcgLicDate")
    && OptionalDate(d, "epcgLicExpiryReminder")
    && OptionalFlag(d, "isActive")
  }

  /** The schema's validators accept exactly the debit parties described above. */
  lemma {:induction false} DebitPartyValidation(d: Doc)
    ensures Valid(DebitPartySchema(), d) <==> IsValidDebitParty(d)
  {
    DebitPartyPaths(d);
    PlainTextPath(d, "partyName", true, 100);
    PlainTextPath(d, "partyAddress1", true, 100);
    PlainTextPath(d, "partyAddress2", false, 100);
    PlainTextPath(d, "partyAddress3", false, 100);
    PinPath(d, "pinCode");
    GstPath(d, "gstNo", false);
    PanPath(d, "panNo", false);
    assert PathOk(IecRule, Get(d, "iecNo")) <==> OptionalTextUpTo(d, "iecNo", 20);
    PlainTextPath(d, "epcgLicNo.lic1", false, 50);
    PlainTextPath(d, "epcgLicNo.lic2", false, 50);
    PlainTextPath(d, "epcgLicNo.lic3", false, 50);
    DatePath(d, "epcgLicDate", false);
    DatePath(d, "epcgLicExpiryReminder", false);
    FlagPath(d, "isActive", Some(true));
  }

  lemma {:induction false} PreparedDebitPartyStoresGstNo(s: Schema, body: Doc)
    requires s == DebitPartySchema() && "gstNo" in body && body["gstNo"].Str?
    ensures var d := Prepare(s, body); "gstNo" in d && d["gstNo"] == Str(Upper(Trim(body["gstNo"].s)))
  {
    DebitPartyFields(s);
    assert s[5] == Field("gstNo", GstRule(false));
    PreparedPath(s, body, 5);
  }

  /** A new debit party's GST number is stored trimmed and upper-cased. */
  lemma {:induction false} DebitPartyStoresGstNo(body: Doc)
    requires "gstNo" in body && body["gstNo"].Str?
    ensures var d := Prepare(DebitPartySchema(), body); "gstNo" in d && d["gstNo"] == Str(Upper(Trim(body["gstNo"].s)))
  {
    PreparedDebitPartyStoresGstNo(DebitPartySchema(), body);
  }

  lemma {:induction false} PreparedDebitPartyStoresPanNo(s: Schema, body: Doc)
    requires s == DebitPartySchema() && "panNo" in body && body["panNo"].Str?
    ensures var d := Prepare(s, body); "panNo" in d && d["panNo"] == Str(Upper(Trim(body["panNo"].s)))
  {
    DebitPartyFields(s);
    assert s[6] == Field("panNo", PanRule(false));
    PreparedPath(s, body, 6);
  }

  /** A new debit party's PAN number is stored trimmed and upper-cased. */
  lemma {:induction false} DebitPartyStoresPanNo(body: Doc)
    requires "panNo" in body && body["panNo"].Str?
    ensures var d := Prepare(DebitPartySchema(), body); "panNo" in d && d["panNo"] == Str(Upper(Trim(body["panNo"].s)))
  {
    PreparedDebitPartyStoresPanNo(DebitPartySchema(), body);
  }

  lemma {:induction false} PreparedDebitPartyStoresIecNo(s: Schema, body: Doc)
    requires s == DebitPartySchema() && "iecNo" in body && body["iecNo"].Str?
    ensures var d := Prepare(s, body); "iecNo" in d && d["iecNo"] == Str(Upper(Trim(body["iecNo"].s)))
  {
    DebitPartyFields(s);
    assert s[7] == Field("iecNo", IecRule);
    PreparedPath(s, body, 7);
  }

  /** A new debit party's IEC number is stored trimmed and upper-cased. */
  lemma {:induction false} DebitPartyStoresIecNo(body: Doc)
    requires "iecNo" in body && body["iecNo"].Str?
    ensures var d := Prepare(DebitPartySchema(), body); "iecNo" in d && d["iecNo"] == Str(Upper(Trim(body["iecNo"].s)))
  {
    PreparedDebitPartyStoresIecNo(DebitPartySchema(), body);
  }

  lemma {:induction false} PreparedDebitPartyActiveByDefault(s: Schema, body: Doc)
    requires s == DebitPartySchema() && "isActive" !in body
    ensures var d := Prepare(s, body); "isActive" in d && d["isActive"] == Bool(true)
  {
    DebitPartyFields(s);
    assert s[13] == Field("isActive", FlagRule(Some(true)));
    PreparedPath(s, body, 13);
  }

  /** A new debit party is active unless the request says otherwise. */
  lemma {:induction false} DebitPartyActiveByDefault(body: Doc)
    requires "isActive" !in body
    ensures var d := Prepare(DebitPartySchema(), body); "isActive" in d && d["isActive"] == Bool(true)
  {
    PreparedDebitPartyActiveByDefault(DebitPartySchema(), body);
  }

  // ---------------------------------------------------------------- finders

  /** `DebitParty.findByPartyName(arg)`: the first party whose name contains `arg`, ignoring case. */
  function FindByPartyName(c: Collection<Doc>, arg: string): (r: Option<Entry<Doc>>)
    ensures r.None? <==> forall i :: 0 <= i < |c| ==> !FieldContains(c[i].doc, "partyName", arg)
    ensures r.Some? ==>
      && r.value in c
      && TextAt(r.value.doc, "partyName").Some?
      && ContainsIgnoringCase(TextAt(r.value.doc, "partyName").value, arg)
  {
    FindContaining(c, "partyName", arg)
  }

  /** `DebitParty.findByGstNo(arg)`: `findOne({ gstNo: arg.toUpperCase() })`. */
  function FindByGstNo(c: Collection<Doc>, arg: string): Option<Entry<Doc>>
  {
    FindExact(c, DebitPartySchema(), "gstNo", Str(Upper(arg)))
  }

  /** `DebitParty.findByPanNo(arg)`. */
  function FindByPanNo(c: Collection<Doc>, arg: string): Option<Entry<Doc>>
  {
    FindExact(c, DebitPartySchema(), "panNo", Str(Upper(arg)))
  }

  /**
    The value the GST and PAN finders compare stored parties with: the argument trimmed and
    upper-cased, as the path would store it.
   */
  lemma {:induction false} DebitPartyQueryValues(a: string)
    ensures QueryValue(DebitPartySchema(), "gstNo", Str(Upper(a))) == Str(Upper(Trim(a)))
    ensures QueryValue(DebitPartySchema(), "panNo", Str(Upper(a))) == Str(Upper(Trim(a)))
  {
    PartyGstNoQuery(DebitPartySchema(), a);
    PartyPanNoQuery(DebitPartySchema(), a);
  }

  lemma {:induction false} PartyGstNoQuery(s: Schema, a: string)
    requires s == DebitPartySchema()
    ensures QueryValue(s, "gstNo", Str(Upper(a))) == Str(Upper(Trim(a)))
  {
    DebitPartyFields(s);
    assert s[5] == Field("gstNo", GstRule(false));
    RuleOfFirst(s, 5);
    CasedQuery(GstRule(false), a);
  }

  lemma {:induction false} PartyPanNoQuery(s: Schema, a: string)
    requires s == DebitPartySchema()
    ensures QueryValue(s, "panNo", Str(Upper(a))) == Str(Upper(Trim(a)))
  {
    DebitPartyFields(s);
    assert s[6] == Field("panNo", PanRule(false));
    RuleOfFirst(s, 6);
    CasedQuery(PanRule(false), a);
  }

  /** The GST and PAN finders ignore the argument's case. */
  lemma {:induction false} TaxFindersIgnoreCase(c: Collection<Doc>, arg: string)
    ensures FindByGstNo(c, arg) == FindByGstNo(c, Lower(arg))
    ensures FindByPanNo(c, arg) == FindByPanNo(c, Lower(arg))
  {
    UpperOfLower(arg);
  }
}
