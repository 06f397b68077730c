/** The CHA schema: a name and an active flag. */
module ChaModel {
  import opened Wrappers
  import opened Text
  import opened Patterns
  import opened Schema
  import opened Store
  import opened Queries
  import opened Codes

  /** Field `i` of the CHA schema, in declaration order. */
  function ChaField(i: int): Field
  {
    match i
    case 0 => Field("chaName", PlainText(true, 100))
    case _ => Field("isActive", FlagRule(Some(true)))
  }

  function ChaSchema(): Schema
  {
    seq(2, ChaField)
  }

  /** The CHA schema, field by field, for any `s` equal to it. */
  lemma {:induction false} ChaFields(s: Schema)
    requires s == ChaSchema()
    ensures |s| == 2 && forall j :: 0 <= j < 2 ==> s[j] == ChaField(j)
  {
  }

  /** The conjunction of the CHA path checks. */
  predicate ChaPathsOk(d: Doc)
  {
    && PathOk(PlainText(true, 100), Get(d, "chaName"))
    && PathOk(FlagRule(Some(true)), Get(d, "isActive"))
  }

  lemma {:induction false} ChaPaths(d: Doc)
    ensures Valid(ChaSchema(), d) <==> ChaPathsOk(d)
  {
    ValidChaPaths(ChaSchema(), d);
  }

  lemma {:induction false} ValidChaPaths(s: Schema, d: Doc)
    requires s == ChaSchema()
    ensures Valid(s, d) <==> ChaPathsOk(d)
  {
    ChaFields(s);
    if Valid(s, d) {
      assert PathOk(s[0].rule, Get(d, s[0].path));
      assert PathOk(s[1].rule, Get(d, s[1].path));
    }
  }

  /** What a storable CHA looks like. */
  predicate IsValidCha(d: Doc)
  {
    && HasText(d, "chaName") && |d["chaName"].s| <= 100
    && OptionalFlag(d, "isActive")
  }

  /** The schema's validators accept exactly the CHAs described above. */
  lemma {:induction false} ChaValidation(d: Doc)
    ensures Valid(ChaSchema(), d) <==> IsValidCha(d)
  {
    ChaPaths(d);
    PlainTextPath(d, "chaName", true, 100);
    FlagPath(d, "isActive", Some(true));
  }

  lemma {:induction false} PreparedChaActiveByDefault(s: Schema, body: Doc)
    requires s == ChaSchema() && "isActive" !in body
    ensures var d := Prepare(s, body); "isActive" in d && d["isActive"] == Bool(true)
  {
    ChaFields(s);
    assert s[1] == Field("isActive", FlagRule(Some(true)));
    PreparedPath(s, body, 1);
  }

  /** A new CHA is active unless the request says otherwise. */
  lemma {:induction false} ChaActiveByDefault(body: Doc)
    requires "isActive" !in body
    ensures var d := Prepare(ChaSchema(), body); "isActive" in d && d["isActive"] == Bool(true)
  {
    PreparedChaActiveByDefault(ChaSchema(), body);
  }

  // ---------------------------------------------------------------- finders

  /** `Cha.findByChaName(arg)`: the first CHA whose chaName contains `arg`, ignoring case. */
  function FindByChaName(c: Collection<Doc>, arg: string): (r: Option<Entry<Doc>>)
    ensures r.None? <==> forall i :: 0 <= i < |c| ==> !FieldContains(c[i].doc, "chaName", arg)
    ensures r.Some? ==>
      && r.value in c
      && TextAt(r.value.doc, "chaName").Some?
      && ContainsIgnoringCase(TextAt(r.value.doc, "chaName").value, arg)
  {
    FindContaining(c, "chaName", arg)
  }
}
