/**
  The debit-party routes. Create looks up the name (a case-insensitive substring match),
  then the GST number and the PAN number, each only when sent; update runs each lookup only
  for a field that is sent and changed. The schema declares no unique index, so no save
  raises a duplicate-key error. Read, delete and the list are the registry routes with the
  party's messages; the name search returns every match.
 */
module DebitPartyRoutes {
  import opened Wrappers
  import opened Text
  import opened Patterns
  import opened Schema
  import opened Store
  import opened Queries
  import opened Errors
  import opened DebitPartyModel
  import MasterData

  const NameTaken := "Party with this name already exists"
  const GstNoTaken := "Party with this GST Number already exists"
  const PanNoTaken := "Party with this PAN Number already exists"

  /** Read, delete and list: the registry routes with the party's messages and search paths. */
  function DebitParties(): MasterData.Registry
  {
    MasterData.Registry(DebitPartySchema(), "partyName", ["partyName", "gstNo", "panNo", "iecNo"],
      NameTaken, "Debit party not found", "Invalid debit party ID")
  }

  /** Some stored party's name contains `name`, ignoring case. */
  predicate NameHeld(c: Collection<Doc>, name: string)
  {
    exists i :: 0 <= i < |c| && FieldContains(c[i].doc, "partyName", name)
  }

  /** The paths looked up by an exact, upper-cased match. */
  predicate TaxPath(path: string)
  {
    path == "gstNo" || path == "panNo"
  }

  /** The body's tax number at `path` is text no stored party holds, trimmed and upper-cased. */
  predicate Free(c: Collection<Doc>, body: Doc, path: string)
  {
    TextAt(body, path).Some? && !Holds(c, path, Upper(Trim(body[path].s)))
  }

  /** The body's tax number at `path` is text a stored party holds, trimmed and upper-cased. */
  predicate Taken(c: Collection<Doc>, body: Doc, path: string)
  {
    TextAt(body, path).Some? && Holds(c, path, Upper(Trim(body[path].s)))
  }

  /** `findByGstNo` or `findByPanNo` on the body's value: its `toUpperCase` throws when the value is not text. */
  function CheckTax(c: Collection<Doc>, body: Doc, path: string, message: string): (e: Option<Error>)
    requires TaxPath(path)
    ensures e.None? <==> Free(c, body, path)
    ensures e == Some(BadRequest(message)) <==> Taken(c, body, path)
    ensures e.Some? ==> e.value == InternalError || e.value == BadRequest(message)
  {
    if TextAt(body, path).None? then Some(InternalError)
    else
      var s := body[path].s;
      TaxLookupMeans(c, path, s);
      if FindExact(c, DebitPartySchema(), path, Str(Upper(s))).Some? then Some(BadRequest(message))
      else None
  }

  /** `findByGstNo(s)` or `findByPanNo(s)` finds a party exactly when one holds `s` trimmed and upper-cased. */
  lemma {:induction false} TaxLookupMeans(c: Collection<Doc>, path: string, s: string)
    requires TaxPath(path)
    ensures FindExact(c, DebitPartySchema(), path, Str(Upper(s))).Some? <==> Holds(c, path, Upper(Trim(s)))
  {
    DebitPartyQueryValues(s);
  }

  /** The name lookup: `$regex` on a value that is not text fails the query. */
  function CheckName(c: Collection<Doc>, body: Doc): (e: Option<Error>)
    ensures e.None? <==> TextAt(body, "partyName").Some? && !NameHeld(c, body["partyName"].s)
    ensures e == Some(BadRequest(NameTaken)) <==> TextAt(body, "partyName").Some? && NameHeld(c, body["partyName"].s)
    ensures e.Some? ==> e.value == InternalError || e.value == BadRequest(NameTaken)
  {
    if TextAt(body, "partyName").None? then Some(InternalError)
    else if FindByPartyName(c, body["partyName"].s).Some? then Some(BadRequest(NameTaken))
    else None
  }

  // ---------------------------------------------------------------- create

  /** A tax number that is sent passes: absent or falsy numbers are not looked up. */
  predicate SentFree(c: Collection<Doc>, body: Doc, path: string)
  {
    Truthy(Get(body, path)) ==> Free(c, body, path)
  }

  /** The lookups of a create: the name always, then GST and PAN only when sent. */
  function CreateChecks(c: Collection<Doc>, body: Doc): (e: Option<Error>)
    ensures e.None? <==>
      && TextAt(body, "partyName").Some? && !NameHeld(c, body["partyName"].s)
      && SentFree(c, body, "gstNo") && SentFree(c, body, "panNo")
    ensures TextAt(body, "partyName").Some? && NameHeld(c, body["partyName"].s) ==> e == Some(BadRequest(NameTaken))
    ensures e == Some(BadRequest(GstNoTaken)) <==>
      && TextAt(body, "partyName").Some? && !NameHeld(c, body["partyName"].s)
      && Truthy(Get(body, "gstNo")) && Taken(c, body, "gstNo")
    ensures e == Some(BadRequest(PanNoTaken)) <==>
      && TextAt(body, "partyName").Some? && !NameHeld(c, body["partyName"].s)
      && SentFree(c, body, "gstNo")
      && Truthy(Get(body, "panNo")) && Taken(c, body, "panNo")
    ensures e.Some? ==> !e.value.ValidationFailed?
  {
    var name := CheckName(c, body);
    if name.Some? then name
    else
      var gstNo := if Truthy(Get(body, "gstNo")) then CheckTax(c, body, "gstNo", GstNoTaken) else None;
      if gstNo.Some? then gstNo
      else if Truthy(Get(body, "panNo")) then CheckTax(c, body, "panNo", PanNoTaken)
      else None
  }

  /**
    `POST /debit-parties`: the lookups, then the declared fields of the body (the named ones
    and those passed through) prepared, validated and saved.
   */
  function CreateDebitParty(c: Collection<Doc>, body: Doc, newId: string): (r: Result<Collection<Doc>, Error>)
    ensures var d := Prepare(DebitPartySchema(), Pick(DebitPartySchema(), body));
      r.Success? <==> CreateChecks(c, body).None? && Valid(DebitPartySchema(), d)
    ensures r.Success? ==> r.value == Insert(c, newId, Prepare(DebitPartySchema(), Pick(DebitPartySchema(), body)))
    ensures CreateChecks(c, body).Some? ==> r == Failure(CreateChecks(c, body).value)
    ensures r.Failure? && r.error.ValidationFailed? ==>
      r.error.paths == Failures(DebitPartySchema(), Prepare(DebitPartySchema(), Pick(DebitPartySchema(), body)))
  {
    var checked := CreateChecks(c, body);
    if checked.Some? then Failure(checked.value)
    else
      var d := Prepare(DebitPartySchema(), Pick(DebitPartySchema(), body));
      var failed := Failures(DebitPartySchema(), d);
      if failed != {} then Failure(ValidationFailed(failed))
      else Success(Insert(c, newId, d))
  }

  /**
    Parties without a GST or PAN number never conflict on them: any number of parties may
    leave both out or empty, however many such parties are stored.
   */
  lemma {:induction false} MissingTaxNumbersNeverConflict(c: Collection<Doc>, body: Doc, newId: string)
    requires !Truthy(Get(body, "gstNo")) && !Truthy(Get(body, "panNo"))
    ensures CreateDebitParty(c, body, newId) != Failure(BadRequest(GstNoTaken))
    ensures CreateDebitParty(c, body, newId) != Failure(BadRequest(PanNoTaken))
  {
  }

  /** The name check looks at every party: "Agro" is refused while "Agro Exports" is stored. */
  lemma {:induction false} CreateRejectsContainedName(c: Collection<Doc>, i: nat, body: Doc, newId: string)
    requires i < |c| && TextAt(body, "partyName").Some? && TextAt(c[i].doc, "partyName").Some?
    requires Contains(Upper(TextAt(c[i].doc, "partyName").value), Upper(body["partyName"].s))
    ensures CreateDebitParty(c, body, newId) == Failure(BadRequest(NameTaken))
  {
    assert FieldContains(c[i].doc, "partyName", body["partyName"].s);
  }

  // ---------------------------------------------------------------- update

  /** A field passes its update lookup: unchanged, or changed to a value nobody holds. */
  predicate TaxPasses(c: Collection<Doc>, stored: Doc, body: Doc, path: string)
  {
    !Changed(stored, body, path) || Free(c, body, path)
  }

  /** The name passes its update lookup: unchanged, or changed to text no stored name contains. */
  predicate NamePasses(c: Collection<Doc>, stored: Doc, body: Doc)
  {
    !Changed(stored, body, "partyName") || (TextAt(body, "partyName").Some? && !NameHeld(c, body["partyName"].s))
  }

  /** The lookups of an update, each only for a changed field, in the route's order. */
  function UpdateChecks(c: Collection<Doc>, stored: Doc, body: Doc): (e: Option<Error>)
    ensures e.None? <==>
      NamePasses(c, stored, body) && TaxPasses(c, stored, body, "gstNo") && TaxPasses(c, stored, body, "panNo")
    ensures Changed(stored, body, "partyName") && TextAt(body, "partyName").Some? && NameHeld(c, body["partyName"].s) ==>
      e == Some(BadRequest(NameTaken))
    ensures e == Some(BadRequest(GstNoTaken)) <==>
      NamePasses(c, stored, body) && Changed(stored, body, "gstNo") && Taken(c, body, "gstNo")
    ensures e == Some(BadRequest(PanNoTaken)) <==>
      && NamePasses(c, stored, body) && TaxPasses(c, stored, body, "gstNo")
      && Changed(stored, body, "panNo") && Taken(c, body, "panNo")
    ensures e.Some? ==> !e.value.ValidationFailed? && !e.value.NotFound?
  {
    var name := if Changed(stored, body, "partyName") then CheckName(c, body) else None;
    if name.Some? then name
    else
      var gstNo := if Changed(stored, body, "gstNo") then CheckTax(c, body, "gstNo", GstNoTaken) else None;
      if gstNo.Some? then gstNo
      else if Changed(stored, body, "panNo") then CheckTax(c, body, "panNo", PanNoTaken)
      else None
  }

  /**
    `PUT /debit-parties/:id`: the id, then the lookups, then the declared fields through the
    update's casts and validators.
   */
  function UpdateDebitParty(c: Collection<Doc>, id: string, body: Doc): (r: Result<Collection<Doc>, Error>)
    ensures !IsObjectIdText(id) ==> r == Failure(BadRequest("Invalid debit party ID"))
    ensures IsObjectIdText(id) && !HasId(c, id) ==> r == Failure(NotFound("Debit party not found"))
    ensures FindById(c, id).Found? && UpdateChecks(c, FindById(c, id).doc, body).Some? ==>
      r == Failure(UpdateChecks(c, FindById(c, id).doc, body).value)
    ensures r.Success? ==>
      var stored := FindById(c, id).doc;
      var u := ApplyUpdate(DebitPartySchema(), stored, Pick(DebitPartySchema(), body));
      && FindById(c, id).Found?
      && UpdateChecks(c, stored, body).None?
      && u.Success?
      && r.value == Replace(c, id, u.value)
  {
    match FindById(c, id)
    case BadId => Failure(BadRequest("Invalid debit party ID"))
    case Missing => Failure(NotFound("Debit party not found"))
    case Found(stored) =>
      var checked := UpdateChecks(c, stored, body);
      if checked.Some? then Failure(checked.value)
      else
        match ApplyUpdate(DebitPartySchema(), stored, Pick(DebitPartySchema(), body))
        case Failure(CastFailed) => Failure(InternalError)
        case Failure(Rejected(paths)) => Failure(ValidationFailed(paths))
        case Success(d) => Success(Replace(c, id, d))
  }

  /** Re-sending a party's own GST number in another case is refused: the lookup finds the party itself. */
  lemma {:induction false} OwnGstInOtherCaseRejected(c: Collection<Doc>, i: nat, body: Doc)
    requires UniqueIds(c) && i < |c| && IsObjectIdText(c[i].id)
    requires !Changed(c[i].doc, body, "partyName")
    requires TextAt(body, "gstNo").Some? && body["gstNo"].s != ""
    requires Get(c[i].doc, "gstNo") == Some(Str(Upper(Trim(body["gstNo"].s))))
    requires body["gstNo"].s != Upper(Trim(body["gstNo"].s))
    ensures UpdateDebitParty(c, c[i].id, body) == Failure(BadRequest(GstNoTaken))
  {
    FoundIsStored(c, i);
    assert Changed(c[i].doc, body, "gstNo");
    assert Holds(c, "gstNo", Upper(Trim(body["gstNo"].s)));
  }

  /** A successful update changes only the party it names. */
  lemma {:induction false} UpdateKeepsOtherParties(c: Collection<Doc>, id: string, body: Doc)
    requires UpdateDebitParty(c, id, body).Success?
    ensures var r := UpdateDebitParty(c, id, body).value;
      && |r| == |c|
      && forall k :: 0 <= k < |c| && !SameId(c[k].id, id) ==> r[k] == c[k]
  {
  }

  // ---------------------------------------------------------------- read, delete, search

  /** `DELETE /debit-parties/:id`. */
  function DeleteDebitParty(c: Collection<Doc>, id: string): (r: Result<Collection<Doc>, Error>)
    ensures r.Success? <==> IsObjectIdText(id) && HasId(c, id)
    ensures r.Success? ==> r.value == Remove(c, id)
    ensures !IsObjectIdText(id) ==> r == Failure(BadRequest("Invalid debit party ID"))
    ensures IsObjectIdText(id) && !HasId(c, id) ==> r == Failure(NotFound("Debit party not found"))
  {
    MasterData.Delete(DebitParties(), c, id)
  }

  /** `GET /debit-parties/:id`. */
  function ReadDebitParty(c: Collection<Doc>, id: string): (r: Result<Doc, Error>)
    ensures r.Success? <==> IsObjectIdText(id) && HasId(c, id)
    ensures r.Success? ==> exists i :: 0 <= i < |c| && SameId(c[i].id, id) && c[i].doc == r.value
    ensures !IsObjectIdText(id) ==> r == Failure(BadRequest("Invalid debit party ID"))
    ensures IsObjectIdText(id) && !HasId(c, id) ==> r == Failure(NotFound("Debit party not found"))
  {
    MasterData.Read(DebitParties(), c, id)
  }

  /** `GET /debit-parties/search/name/:partyName`: every party whose name contains the text, unpaginated. */
  function SearchByName(c: Collection<Doc>, name: string): (r: Collection<Doc>)
    ensures forall i :: 0 <= i < |r| ==> r[i] in c && FieldContains(r[i].doc, "partyName", name)
    ensures forall i :: 0 <= i < |c| && FieldContains(c[i].doc, "partyName", name) ==> c[i] in r
  {
    AllContaining(c, "partyName", name)
  }

  /** `GET /debit-parties/search/gst/:gstNo`: the first party holding the number, trimmed and upper-cased. */
  function SearchByGst(c: Collection<Doc>, gstNo: string): (r: Result<Entry<Doc>, Error>)
    ensures r.Success? <==> Holds(c, "gstNo", Upper(Trim(gstNo)))
    ensures r.Success? ==> r.value in c && Get(r.value.doc, "gstNo") == Some(Str(Upper(Trim(gstNo))))
    ensures r.Failure? ==> r.error == NotFound("Debit party not found")
  {
    var found := FindByGstNo(c, gstNo);
    FoundByGst(c, gstNo);
    if found.None? then Failure(NotFound("Debit party not found")) else Success(found.value)
  }

  lemma {:induction false} FoundByGst(c: Collection<Doc>, gstNo: string)
    ensures var found := FindByGstNo(c, gstNo);
      && (found.Some? <==> Holds(c, "gstNo", Upper(Trim(gstNo))))
      && (found.Some? ==> found.value in c && Get(found.value.doc, "gstNo") == Some(Str(Upper(Trim(gstNo)))))
  {
    TaxLookupMeans(c, "gstNo", gstNo);
    DebitPartyQueryValues(gstNo);
  }
}
