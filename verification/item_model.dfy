/**
  The item schema: the goods traded, with HSN code, quantity, unit and a rate in rupees
  (`itemRate.inr`) and optionally in dollars (`itemRate.usd`).
 */
module ItemModel {
  import opened Wrappers
  import opened Text
  import opened Patterns
  import opened Schema
  import opened Store
  import opened Queries
  import opened Codes

  /** The units an item may be counted in. */
  const Units: seq<string> := ["mtr", "sqm", "kg", "pcs", "ltr", "box", "carton", "dozen", "pair", "set", "unit"]

  /** `itemUnits`: required, trimmed, one of `Units`, "pcs" by default. */
  const UnitsRule: Rule := TextRule(true, true, KeepCase, 0, None, None, Units, Some("pcs"))

  /** Field `i` of the item schema, in declaration order. */
  function ItemField(i: int): Field
  {
    match i
    case 0 => Field("itemName", PlainText(true, 100))
    case 1 => Field("itemHsn", PlainText(true, 20))
    case 2 => Field("itemQty", NumberRule(true, Some(0.0), None))
    case 3 => Field("itemUnits", UnitsRule)
    case 4 => Field("itemRate.inr", NumberRule(true, Some(0.0), None))
    case 5 => Field("itemRate.usd", NumberRule(false, Some(0.0), None))
    case 6 => Field("remarks", PlainText(false, 500))
    case _ => Field("isActive", FlagRule(Some(true)))
  }

  function ItemSchema(): Schema
  {
    seq(8, ItemField)
  }

  /** The item schema, field by field, for any `s` equal to it. */
  lemma {:induction false} ItemFields(s: Schema)
    requires s == ItemSchema()
    ensures |s| == 8 && forall j :: 0 <= j < 8 ==> s[j] == ItemField(j)
  {
  }

  /** The conjunction of the item path checks. */
  predicate ItemPathsOk(d: Doc)
  {
    && PathOk(PlainText(true, 100), Get(d, "itemName"))
    && PathOk(PlainText(true, 20), Get(d, "itemHsn"))
    && PathOk(NumberRule(true, Some(0.0), None), Get(d, "itemQty"))
    && PathOk(UnitsRule, Get(d, "itemUnits"))
    && PathOk(NumberRule(true, Some(0.0), None), Get(d, "itemRate.inr"))
    && PathOk(NumberRule(false, Some(0.0), None), Get(d, "itemRate.usd"))
    && PathOk(PlainText(false, 500), Get(d, "remarks"))
    && PathOk(FlagRule(Some(true)), Get(d, "isActive"))
  }

  lemma {:induction false} ItemPaths(d: Doc)
    ensures Valid(ItemSchema(), d) <==> ItemPathsOk(d)
  {
    ValidItemPaths(ItemSchema(), d);
  }

  lemma {:induction false} ValidItemPaths(s: Schema, d: Doc)
    requires s == ItemSchema()
    ensures Valid(s, d) <==> ItemPathsOk(d)
  {
    ItemFields(s);
    if Valid(s, d) {
      assert PathOk(s[0].rule, Get(d, s[0].path));
      assert PathOk(s[1].rule, Get(d, s[1].path));
      assert PathOk(s[2].rule, Get(d, s[2].path));
      assert PathOk(s[3].rule, Get(d, s[3].path));
      assert PathOk(s[4].rule, Get(d, s[4].path));
      assert PathOk(s[5].rule, Get(d, s[5].path));
      assert PathOk(s[6].rule, Get(d, s[6].path));
      assert PathOk(s[7].rule, Get(d, s[7].path));
    }
  }

  /** What a storable item looks like, field by field. */
  predicate IsValidItem(d: Doc)
  {
    && HasText(d, "itemName") && |d["itemName"].s| <= 100
    && HasText(d, "itemHsn") && |d["itemHsn"].s| <= 20
    && NonNegative(d, "itemQty")
    && "itemUnits" in d && d["itemUnits"].Str? && d["itemUnits"].s in Units
    && NonNegative(d, "itemRate.inr")
    && OptionalNonNegative(d, "itemRate.usd")
    && OptionalTextUpTo(d, "remarks", 500)
    && OptionalFlag(d, "isActive")
  }

  /** The schema's validators accept exactly the items described above. */
  lemma {:induction false} ItemValidation(d: Doc)
    ensures Valid(ItemSchema(), d) <==> IsValidItem(d)
  {
    ItemPaths(d);
    PlainTextPath(d, "itemName", true, 100);
    PlainTextPath(d, "itemHsn", true, 20);
    NonNegativePath(d, "itemQty", true, None);
    assert "" !in Units;
    NonNegativePath(d, "itemRate.inr", true, None);
    NonNegativePath(d, "itemRate.usd", false, None);
    PlainTextPath(d, "remarks", false, 500);
    FlagPath(d, "isActive", Some(true));
  }

  lemma {:induction false} PreparedItemUnitsByDefault(s: Schema, body: Doc)
    requires s == ItemSchema() && "itemUnits" !in body
    ensures var d := Prepare(s, body); "itemUnits" in d && d["itemUnits"] == Str("pcs")
  {
    ItemFields(s);
    assert s[3] == Field("itemUnits", UnitsRule);
    PreparedPath(s, body, 3);
  }

  /** A new item is counted in pieces unless the request names a unit. */
  lemma {:induction false} ItemUnitsByDefault(body: Doc)
    requires "itemUnits" !in body
    ensures var d := Prepare(ItemSchema(), body); "itemUnits" in d && d["itemUnits"] == Str("pcs")
  {
    PreparedItemUnitsByDefault(ItemSchema(), body);
  }

  lemma {:induction false} PreparedItemActiveByDefault(s: Schema, body: Doc)
    requires s == ItemSchema() && "isActive" !in body
    ensures var d := Prepare(s, body); "isActive" in d && d["isActive"] == Bool(true)
  {
    ItemFields(s);
    assert s[7] == Field("isActive", FlagRule(Some(true)));
    PreparedPath(s, body, 7);
  }

  /** A new item is active unless the request says otherwise. */
  lemma {:induction false} ItemActiveByDefault(body: Doc)
    requires "isActive" !in body
    ensures var d := Prepare(ItemSchema(), body); "isActive" in d && d["isActive"] == Bool(true)
  {
    PreparedItemActiveByDefault(ItemSchema(), body);
  }

  // ---------------------------------------------------------------- finders

  /** `Item.findByItemName(arg)`: the first item whose itemName contains `arg`, ignoring case. */
  function FindByItemName(c: Collection<Doc>, arg: string): (r: Option<Entry<Doc>>)
    ensures r.None? <==> forall i :: 0 <= i < |c| ==> !FieldContains(c[i].doc, "itemName", arg)
    ensures r.Some? ==>
      && r.value in c
      && TextAt(r.value.doc, "itemName").Some?
      && ContainsIgnoringCase(TextAt(r.value.doc, "itemName").value, arg)
  {
    FindContaining(c, "itemName", arg)
  }

  /** `Item.findByHsn(hsn)`: `findOne({ itemHsn: hsn })`, the query value trimmed like the path. */
  function FindByHsn(c: Collection<Doc>, hsn: string): Option<Entry<Doc>>
  {
    FindExact(c, ItemSchema(), "itemHsn", Str(hsn))
  }

  /** The HSN finder matches exactly, after trimming the argument as the path would be. */
  lemma {:induction false} FindByHsnMeans(c: Collection<Doc>, hsn: string)
    ensures FindByHsn(c, hsn).Some? <==> exists i :: 0 <= i < |c| && Get(c[i].doc, "itemHsn") == Some(Str(Trim(hsn)))
    ensures FindByHsn(c, hsn).Some? ==> Get(FindByHsn(c, hsn).value.doc, "itemHsn") == Some(Str(Trim(hsn)))
  {
    HsnQuery(ItemSchema(), hsn);
  }

  lemma {:induction false} HsnQuery(s: Schema, hsn: string)
    requires s == ItemSchema()
    ensures QueryValue(s, "itemHsn", Str(hsn)) == Str(Trim(hsn))
  {
    ItemFields(s);
    assert s[1] == Field("itemHsn", PlainText(true, 20));
    RuleOfFirst(s, 1);
  }
}
