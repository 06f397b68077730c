/** The company schema: identity, address, tax and contact fields of a firm. */
module CompanyModel {
  import opened Wrappers
  import opened Text
  import opened Patterns
  import opened Schema
  import opened Store
  import opened Queries
  import opened Codes

  const FirmIdRule: Rule := TextRule(true, true, ToUpper, 3, Some(20), None, [], None)

  /** Field `i` of the company schema, in declaration order. */
  function CompanyField(i: int): Field
  {
    match i
    case 0 => Field("firmId", FirmIdRule)
    case 1 => Field("firmAddress1", PlainText(true, 100))
    case 2 => Field("firmAddress2", PlainText(false, 100))
    case 3 => Field("firmAddress3", PlainText(false, 100))
    case 4 => Field("pinCode", PinRule)
    case 5 => Field("gstNo", GstRule(true))
    case 6 => Field("panNo", PanRule(true))
    case 7 => Field("contactNo", ContactRule)
    case 8 => Field("emailId", EmailRule)
    case 9 => Field("companyName", PlainText(true, 100))
    case _ => Field("isActive", FlagRule(Some(true)))
  }

  function CompanySchema(): Schema
  {
    seq(11, CompanyField)
  }

  /** What a storable company looks like, field by field. */
  predicate IsValidCompany(d: Doc)
  {
    && HasText(d, "firmId") && 3 <= |d["firmId"].s| <= 20
    && HasText(d, "firmAddress1") && |d["firmAddress1"].s| <= 100
    && OptionalTextUpTo(d, "firmAddress2", 100)
    && OptionalTextUpTo(d, "firmAddress3", 100)
    && HasText(d, "pinCode") && IsPinCode(d["pinCode"].s)
    && HasText(d, "gstNo") && IsGstNo(d["gstNo"].s)
    && HasText(d, "panNo") && IsPanNo(d["panNo"].s)
    && HasText(d, "contactNo") && IsContactNo(d["contactNo"].s)
    && HasText(d, "emailId") && IsEmail(d["emailId"].s)
    && HasText(d, "companyName") && |d["companyName"].s| <= 100
    && OptionalFlag(d, "isActive")
  }

  /** The schema's validators accept exactly the companies described above. */
  lemma {:induction false} CompanyValidation(d: Doc)
    ensures Valid(CompanySchema(), d) <==> IsValidCompany(d)
  {
    CompanyPaths(d);
    assert PathOk(FirmIdRule, Get(d, "firmId")) <==> HasText(d, "firmId") && 3 <= |d["firmId"].s| <= 20;
    PlainTextPath(d, "firmAddress1", true, 100);
    PlainTextPath(d, "firmAddress2", false, 100);
    PlainTextPath(d, "firmAddress3", false, 100);
    PlainTextPath(d, "companyName", true, 100);
    FlagPath(d, "isActive", Some(true));
    PinPath(d, "pinCode");
    GstPath(d, "gstNo", true);
    PanPath(d, "panNo", true);
    ContactPath(d, "contactNo");
    EmailPath(d, "emailId");
  }

  /** The conjunction of the company's path checks. */
  predicate CompanyPathsOk(d: Doc)
  {
    && PathOk(FirmIdRule, Get(d, "firmId"))
    && PathOk(PlainText(true, 100), Get(d, "firmAddress1"))
    && PathOk(PlainText(false, 100), Get(d, "firmAddress2"))
    && PathOk(PlainText(false, 100), Get(d, "firmAddress3"))
    && PathOk(PinRule, Get(d, "pinCode"))
    && PathOk(GstRule(true), Get(d, "gstNo"))
    && PathOk(PanRule(true), Get(d, "panNo"))
    && PathOk(ContactRule, Get(d, "contactNo"))
    && PathOk(EmailRule, Get(d, "emailId"))
    && PathOk(PlainText(true, 100), Get(d, "companyName"))
    && PathOk(FlagRule(Some(true)), Get(d, "isActive"))
  }

  /** The company schema, field by field; stated for any `s` equal to it, so proofs can name its fields. */
  lemma {:induction false} CompanyFields(s: Schema)
    requires s == CompanySchema()
    ensures |s| == 11 && forall j :: 0 <= j < 11 ==> s[j] == CompanyField(j)
  {
  }

  lemma {:induction false} CompanyPaths(d: Doc)
    ensures Valid(CompanySchema(), d) <==> CompanyPathsOk(d)
  {
    ValidCompanyPaths(CompanySchema(), d);
  }

  lemma {:induction false} ValidCompanyPaths(s: Schema, d: Doc)
    requires s == CompanySchema()
    ensures Valid(s, d) <==> CompanyPathsOk(d)
  {
    CompanyFields(s);
    if Valid(s, d) {
      assert PathOk(s[0].rule, Get(d, s[0].path));
      assert PathOk(s[1].rule, Get(d, s[1].path));
      assert PathOk(s[2].rule, Get(d, s[2].path));
      assert PathOk(s[3].rule, Get(d, s[3].path));
      assert PathOk(s[4].rule, Get(d, s[4].path));
      assert PathOk(s[5].rule, Get(d, s[5].path));
      assert PathOk(s[6].rule, Get(d, s[6].path));
      assert PathOk(s[7].rule, Get(d, s[7].path));
      assert PathOk(s[8].rule, Get(d, s[8].path));
      assert PathOk(s[9].rule, Get(d, s[9].path));
      assert PathOk(s[10].rule, Get(d, s[10].path));
    }
  }


  lemma {:induction false} PreparedCompanyFirmId(s: Schema, body: Doc)
    requires s == CompanySchema() && "firmId" in body && body["firmId"].Str?
    ensures var d := Prepare(s, body); "firmId" in d && d["firmId"] == Str(Upper(Trim(body["firmId"].s)))
  {
    CompanyFields(s);
    assert s[0] == Field("firmId", FirmIdRule);
    PreparedPath(s, body, 0);
  }

  /** A new company's firmId is stored trimmed and upper-cased. */
  lemma {:induction false} CompanyStoresFirmId(body: Doc)
    requires "firmId" in body && body["firmId"].Str?
    ensures var d := Prepare(CompanySchema(), body); "firmId" in d && d["firmId"] == Str(Upper(Trim(body["firmId"].s)))
  {
    PreparedCompanyFirmId(CompanySchema(), body);
  }

  lemma {:induction false} PreparedCompanyGstNo(s: Schema, body: Doc)
    requires s == CompanySchema() && "gstNo" in body && body["gstNo"].Str?
    ensures var d := Prepare(s, body); "gstNo" in d && d["gstNo"] == Str(Upper(Trim(body["gstNo"].s)))
  {
    CompanyFields(s);
    assert s[5] == Field("gstNo", GstRule(true));
    PreparedPath(s, body, 5);
  }

  /** A new company's GST number is stored trimmed and upper-cased. */
  lemma {:induction false} CompanyStoresGstNo(body: Doc)
    requires "gstNo" in body && body["gstNo"].Str?
    ensures var d := Prepare(CompanySchema(), body); "gstNo" in d && d["gstNo"] == Str(Upper(Trim(body["gstNo"].s)))
  {
    PreparedCompanyGstNo(CompanySchema(), body);
  }

  lemma {:induction false} PreparedCompanyPanNo(s: Schema, body: Doc)
    requires s == CompanySchema() && "panNo" in body && body["panNo"].Str?
    ensures var d := Prepare(s, body); "panNo" in d && d["panNo"] == Str(Upper(Trim(body["panNo"].s)))
  {
    CompanyFields(s);
    assert s[6] == Field("panNo", PanRule(true));
    PreparedPath(s, body, 6);
  }

  /** A new company's PAN number is stored trimmed and upper-cased. */
  lemma {:induction false} CompanyStoresPanNo(body: Doc)
    requires "panNo" in body && body["panNo"].Str?
    ensures var d := Prepare(CompanySchema(), body); "panNo" in d && d["panNo"] == Str(Upper(Trim(body["panNo"].s)))
  {
    PreparedCompanyPanNo(CompanySchema(), body);
  }

  lemma {:induction false} PreparedCompanyEmail(s: Schema, body: Doc)
    requires s == CompanySchema() && "emailId" in body && body["emailId"].Str?
    ensures var d := Prepare(s, body); "emailId" in d && d["emailId"] == Str(Lower(Trim(body["emailId"].s)))
  {
    CompanyFields(s);
    assert s[8] == Field("emailId", EmailRule);
    PreparedPath(s, body, 8);
  }

  /** A new company's e-mail address is stored trimmed and lower-cased. */
  lemma {:induction false} CompanyStoresEmail(body: Doc)
    requires "emailId" in body && body["emailId"].Str?
    ensures var d := Prepare(CompanySchema(), body); "emailId" in d && d["emailId"] == Str(Lower(Trim(body["emailId"].s)))
  {
    PreparedCompanyEmail(CompanySchema(), body);
  }

  lemma {:induction false} PreparedCompanyActive(s: Schema, body: Doc)
    requires s == CompanySchema() && "isActive" !in body
    ensures var d := Prepare(s, body); "isActive" in d && d["isActive"] == Bool(true)
  {
    CompanyFields(s);
    assert s[10] == Field("isActive", FlagRule(Some(true)));
    PreparedPath(s, body, 10);
  }

  /** A new company is active unless the request says otherwise. */
  lemma {:induction false} CompanyActiveByDefault(body: Doc)
    requires "isActive" !in body
    ensures var d := Prepare(CompanySchema(), body); "isActive" in d && d["isActive"] == Bool(true)
  {
    PreparedCompanyActive(CompanySchema(), body);
  }

  // ---------------------------------------------------------------- finders

  /** `Company.findByFirmId(arg)`: `findOne({ firmId: arg.toUpperCase() })`. */
  function FindByFirmId(c: Collection<Doc>, arg: string): Option<Entry<Doc>>
  {
    FindExact(c, CompanySchema(), "firmId", Str(Upper(arg)))
  }

  /** `Company.findByGstNo(arg)`. */
  function FindByGstNo(c: Collection<Doc>, arg: string): Option<Entry<Doc>>
  {
    FindExact(c, CompanySchema(), "gstNo", Str(Upper(arg)))
  }

  /** `Company.findByPanNo(arg)`. */
  function FindByPanNo(c: Collection<Doc>, arg: string): Option<Entry<Doc>>
  {
    FindExact(c, CompanySchema(), "panNo", Str(Upper(arg)))
  }

  /** The firmId a company is stored under when it is sent as `arg`. */
  function StoredFirmId(arg: string): string
  {
    SetText(FirmIdRule, arg)
  }

  /**
    The firmId finder compares the stored firmId with the argument trimmed and upper-cased:
    it finds a company exactly when one is stored under the firmId the argument would be
    stored as, so the argument's case does not matter.
   */
  lemma {:induction false} FindByFirmIdMeans(c: Collection<Doc>, arg: string)
    ensures FindByFirmId(c, arg).Some? <==>
      exists i :: 0 <= i < |c| && Get(c[i].doc, "firmId") == Some(Str(StoredFirmId(arg)))
    ensures FindByFirmId(c, arg) == FindByFirmId(c, Lower(arg)) == FindByFirmId(c, Upper(arg))
  {
    UpperOfLower(arg);
    UpperIdempotent(arg);
    FirmIdQuery(CompanySchema(), arg);
    assert StoredFirmId(arg) == Upper(Trim(arg));
  }

  /**
    The value each company lookup compares stored documents with: the argument as the path
    would store it, because the query goes through the path's setters.
   */
  lemma {:induction false} CompanyQueryValues(a: string)
    ensures QueryValue(CompanySchema(), "firmId", Str(Upper(a))) == Str(Upper(Trim(a)))
    ensures QueryValue(CompanySchema(), "gstNo", Str(Upper(a))) == Str(Upper(Trim(a)))
    ensures QueryValue(CompanySchema(), "panNo", Str(Upper(a))) == Str(Upper(Trim(a)))
    ensures QueryValue(CompanySchema(), "emailId", Str(Lower(a))) == Str(Lower(Trim(a)))
  {
    FirmIdQuery(CompanySchema(), a);
    GstNoQuery(CompanySchema(), a);
    PanNoQuery(CompanySchema(), a);
    EmailQuery(CompanySchema(), a);
  }

  lemma {:induction false} FirmIdQuery(s: Schema, a: string)
    requires s == CompanySchema()
    ensures QueryValue(s, "firmId", Str(Upper(a))) == Str(Upper(Trim(a)))
  {
    CompanyFields(s);
    assert s[0] == Field("firmId", FirmIdRule);
    RuleOfFirst(s, 0);
    CasedQuery(FirmIdRule, a);
  }

  lemma {:induction false} GstNoQuery(s: Schema, a: string)
    requires s == CompanySchema()
    ensures QueryValue(s, "gstNo", Str(Upper(a))) == Str(Upper(Trim(a)))
  {
    CompanyFields(s);
    assert s[5] == Field("gstNo", GstRule(true));
    RuleOfFirst(s, 5);
    CasedQuery(GstRule(true), a);
  }

  lemma {:induction false} PanNoQuery(s: Schema, a: string)
    requires s == CompanySchema()
    ensures QueryValue(s, "panNo", Str(Upper(a))) == Str(Upper(Trim(a)))
  {
    CompanyFields(s);
    assert s[6] == Field("panNo", PanRule(true));
    RuleOfFirst(s, 6);
    CasedQuery(PanRule(true), a);
  }

  lemma {:induction false} EmailQuery(s: Schema, a: string)
    requires s == CompanySchema()
    ensures QueryValue(s, "emailId", Str(Lower(a))) == Str(Lower(Trim(a)))
  {
    CompanyFields(s);
    assert s[8] == Field("emailId", EmailRule);
    RuleOfFirst(s, 8);
    CasedQuery(EmailRule, a);
  }

  /** The gstNo and panNo finders ignore the argument's case in the same way. */
  lemma {:induction false} TaxFindersIgnoreCase(c: Collection<Doc>, arg: string)
    ensures FindByGstNo(c, arg) == FindByGstNo(c, Lower(arg))
    ensures FindByPanNo(c, arg) == FindByPanNo(c, Lower(arg))
  {
    UpperOfLower(arg);
  }
}
