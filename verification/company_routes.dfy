/**
  The company routes. Create runs four duplicate lookups in a fixed order (firmId, GST
  number, PAN number, e-mail address) before the document is validated and saved under the
  unique firmId index. Update runs each lookup only when the field is sent and differs from
  the stored value. Read, delete and the list are the registry routes with the company's
  messages.
 */
module CompanyRoutes {
  import opened Wrappers
  import opened Text
  import opened Patterns
  import opened Schema
  import opened Store
  import opened Queries
  import opened Errors
  import opened CompanyModel
  import MasterData

  const FirmIdTaken := "Company with this FIRM ID already exists"
  const GstNoTaken := "Company with this GST Number already exists"
  const PanNoTaken := "Company with this PAN Number already exists"
  const EmailTaken := "Company with this Email ID already exists"

  /** The fields `POST /companies` takes from the body. */
  const CreateFields: set<string> :=
    {"firmId", "companyName", "firmAddress1", "firmAddress2", "firmAddress3",
     "pinCode", "gstNo", "panNo", "contactNo", "emailId"}

  /** The fields `PUT /companies/:id` takes from the body: those of create and the active flag. */
  const UpdateFields: set<string> := CreateFields + {"isActive"}

  /** Read, delete and list: the registry routes with the company's messages and search paths. */
  function Companies(): MasterData.Registry
  {
    MasterData.Registry(CompanySchema(), "firmId", ["firmId", "companyName", "gstNo", "panNo", "emailId"],
      FirmIdTaken, "Company not found", "Invalid company ID")
  }

  /** A company other than `id` already holds the firmId `d` would be stored with. */
  predicate FirmIdIndexClash(c: Collection<Doc>, id: string, d: Doc)
  {
    exists i :: 0 <= i < |c| && !SameId(c[i].id, id) && "firmId" in d && Get(c[i].doc, "firmId") == Some(d["firmId"])
  }

  // ---------------------------------------------------------------- lookups

  /** The paths the routes look up before saving; only firmId is also a unique index. */
  predicate LookedUp(path: string)
  {
    path == "firmId" || path == "gstNo" || path == "panNo" || path == "emailId"
  }

  /** What the route passes to the lookup: the e-mail address lower-cased, the others upper-cased. */
  function Looked(path: string, s: string): string
  {
    if path == "emailId" then Lower(s) else Upper(s)
  }

  /** The text a stored company must hold at `path` for the lookup of `s` to find it. */
  function Held(path: string, s: string): string
  {
    Looked(path, Trim(s))
  }

  /**
    The lookup of `s` on `path` (`findByFirmId`, `findByGstNo`, `findByPanNo`, or the e-mail
    `findOne`) finds a company exactly when one holds `s` as the path's setters would store it.
   */
  lemma {:induction false} LookupMeans(c: Collection<Doc>, path: string, s: string)
    requires LookedUp(path)
    ensures FindExact(c, CompanySchema(), path, Str(Looked(path, s))).Some? <==> Holds(c, path, Held(path, s))
  {
    if path == "firmId" {
      FirmIdQuery(CompanySchema(), s);
    } else if path == "gstNo" {
      GstNoQuery(CompanySchema(), s);
    } else if path == "panNo" {
      PanNoQuery(CompanySchema(), s);
    } else {
      EmailQuery(CompanySchema(), s);
    }
  }

  /** The body's text at `path` is held by no stored company. */
  predicate Free(c: Collection<Doc>, body: Doc, path: string)
  {
    TextAt(body, path).Some? && !Holds(c, path, Held(path, body[path].s))
  }

  /** The body's text at `path` is held by a stored company. */
  predicate Taken(c: Collection<Doc>, body: Doc, path: string)
  {
    TextAt(body, path).Some? && Holds(c, path, Held(path, body[path].s))
  }

  /**
    One lookup of a create: the field's string method throws when it is absent or not text;
    otherwise a hit is a duplicate with the field's message.
   */
  function CheckSent(c: Collection<Doc>, body: Doc, path: string, message: string): (e: Option<Error>)
    requires LookedUp(path)
    ensures e.None? <==> Free(c, body, path)
    ensures e == Some(BadRequest(message)) <==> Taken(c, body, path)
    ensures e.Some? ==> e.value == InternalError || e.value == BadRequest(message)
  {
    if TextAt(body, path).None? then Some(InternalError)
    else
      LookupMeans(c, path, body[path].s);
      if FindExact(c, CompanySchema(), path, Str(Looked(path, body[path].s))).Some? then Some(BadRequest(message))
      else None
  }

  // ---------------------------------------------------------------- create

  /**
    The four lookups of a create, in the route's order; the first that does not pass
    decides the outcome.
   */
  function CreateChecks(c: Collection<Doc>, body: Doc): (e: Option<Error>)
    ensures e.None? <==>
      Free(c, body, "firmId") && Free(c, body, "gstNo") && Free(c, body, "panNo") && Free(c, body, "emailId")
    ensures TextAt(body, "firmId").None? ==> e == Some(InternalError)
    ensures Taken(c, body, "firmId") ==> e == Some(BadRequest(FirmIdTaken))
    ensures e == Some(BadRequest(GstNoTaken)) <==> Free(c, body, "firmId") && Taken(c, body, "gstNo")
    ensures e == Some(BadRequest(PanNoTaken)) <==>
      Free(c, body, "firmId") && Free(c, body, "gstNo") && Taken(c, body, "panNo")
    ensures e == Some(BadRequest(EmailTaken)) <==>
      Free(c, body, "firmId") && Free(c, body, "gstNo") && Free(c, body, "panNo") && Taken(c, body, "emailId")
    ensures e.Some? ==> !e.value.ValidationFailed?
  {
    MessagesDistinct();
    var firmId := CheckSent(c, body, "firmId", FirmIdTaken);
    if firmId.Some? then firmId
    else
      var gstNo := CheckSent(c, body, "gstNo", GstNoTaken);
      if gstNo.Some? then gstNo
      else
        var panNo := CheckSent(c, body, "panNo", PanNoTaken);
        if panNo.Some? then panNo
        else CheckSent(c, body, "emailId", EmailTaken)
  }

  /**
    `POST /companies`: the lookups, then the document prepared from the ten fields,
    validated, and checked against the firmId index.
   */
  function CreateCompany(c: Collection<Doc>, body: Doc, newId: string): (r: Result<Collection<Doc>, Error>)
    ensures var d := Prepare(CompanySchema(), Only(body, CreateFields));
      r.Success? <==> CreateChecks(c, body).None? && Valid(CompanySchema(), d) && !FirmIdIndexClash(c, newId, d)
    ensures r.Success? ==> r.value == Insert(c, newId, Prepare(CompanySchema(), Only(body, CreateFields)))
    ensures CreateChecks(c, body).Some? ==> r == Failure(CreateChecks(c, body).value)
    ensures r.Failure? && r.error.ValidationFailed? ==>
      r.error.paths == Failures(CompanySchema(), Prepare(CompanySchema(), Only(body, CreateFields)))
  {
    var checked := CreateChecks(c, body);
    if checked.Some? then Failure(checked.value)
    else
      var d := Prepare(CompanySchema(), Only(body, CreateFields));
      var failed := Failures(CompanySchema(), d);
      if failed != {} then Failure(ValidationFailed(failed))
      else if FirmIdIndexClash(c, newId, d) then Failure(BadRequest(DuplicateKeyMessage("Company", "firmId")))
      else Success(Insert(c, newId, d))
  }

  /** The index message names the field differently from the lookup's message. */
  lemma {:induction false} IndexMessageDiffers()
    ensures DuplicateKeyMessage("Company", "firmId") == "Company" + " with this " + "FirmId" + " already exists"
    ensures DuplicateKeyMessage("Company", "firmId") != FirmIdTaken
  {
    CapitalizedFirmId();
    MessageLengths();
  }

  lemma {:induction false} MessageLengths()
    ensures |FirmIdTaken| == 40 && |GstNoTaken| == 43 && |PanNoTaken| == 43 && |EmailTaken| == 41
  {
  }

  /** The four lookup messages are pairwise different. */
  lemma {:induction false} MessagesDistinct()
    ensures FirmIdTaken != GstNoTaken && FirmIdTaken != PanNoTaken && FirmIdTaken != EmailTaken
    ensures GstNoTaken != PanNoTaken && GstNoTaken != EmailTaken && PanNoTaken != EmailTaken
  {
    MessageLengths();
    assert GstNoTaken[18] == 'G' && PanNoTaken[18] == 'P';
  }

  lemma {:induction false} CapitalizedFirmId()
    ensures Capitalize("firmId") == "FirmId"
  {
    var cap := Capitalize("firmId");
    assert cap[0] == 'F';
    assert cap[1..] == "irmId";
    assert cap == [cap[0]] + cap[1..];
  }

  /**
    The firmId lookup compares with exactly the firmId the new document is stored under, so
    a create never reaches the unique index with a clash: a duplicate firmId is always
    reported by the lookup's own message.
   */
  lemma {:induction false} CreateNeverClashesOnIndex(c: Collection<Doc>, body: Doc, newId: string)
    ensures CreateCompany(c, body, newId) != Failure(BadRequest(DuplicateKeyMessage("Company", "firmId")))
  {
    assert |DuplicateKeyMessage("Company", "firmId")| == 39;
    if CreateChecks(c, body).Some? {
      LookupMessagesAreLonger(c, body);
    } else {
      NoClashWhenFree(c, body, newId);
    }
  }

  /** Every lookup message is longer than the index message, so the two never coincide. */
  lemma {:induction false} LookupMessagesAreLonger(c: Collection<Doc>, body: Doc)
    requires CreateChecks(c, body).Some?
    ensures var e := CreateChecks(c, body).value; e == InternalError || (e.BadRequest? && |e.message| >= 40)
  {
    MessageLengths();
  }

  /** With the firmId free, the prepared company clashes with nothing on the index. */
  lemma {:induction false} NoClashWhenFree(c: Collection<Doc>, body: Doc, newId: string)
    requires Free(c, body, "firmId")
    ensures !FirmIdIndexClash(c, newId, Prepare(CompanySchema(), Only(body, CreateFields)))
  {
    var sent := Only(body, CreateFields);
    assert "firmId" in sent && sent["firmId"] == body["firmId"];
    CompanyStoresFirmId(sent);
  }

  /**
    Names and addresses are not unique: a valid company whose four identifying fields are
    free is created, whatever else is stored.
   */
  lemma {:induction false} FreeIdentifiersAccepted(c: Collection<Doc>, body: Doc, newId: string)
    requires Free(c, body, "firmId") && Free(c, body, "gstNo") && Free(c, body, "panNo") && Free(c, body, "emailId")
    requires Valid(CompanySchema(), Prepare(CompanySchema(), Only(body, CreateFields)))
    ensures CreateCompany(c, body, newId).Success?
  {
    NoClashWhenFree(c, body, newId);
  }

  // ---------------------------------------------------------------- update

  /** One lookup of an update: it runs only for a changed field. */
  function CheckChanged(c: Collection<Doc>, stored: Doc, body: Doc, path: string, message: string): (e: Option<Error>)
    requires LookedUp(path)
    ensures e.None? <==> !Changed(stored, body, path) || Free(c, body, path)
    ensures e == Some(BadRequest(message)) <==> Changed(stored, body, path) && Taken(c, body, path)
    ensures e.Some? ==> e.value == InternalError || e.value == BadRequest(message)
  {
    if Changed(stored, body, path) then CheckSent(c, body, path, message) else None
  }

  /** A field passes its update lookup: unchanged, or changed to text nobody holds. */
  predicate Passes(c: Collection<Doc>, stored: Doc, body: Doc, path: string)
  {
    !Changed(stored, body, path) || Free(c, body, path)
  }

  /** The four lookups of an update, in the route's order. */
  function UpdateChecks(c: Collection<Doc>, stored: Doc, body: Doc): (e: Option<Error>)
    ensures e.None? <==>
      && Passes(c, stored, body, "firmId") && Passes(c, stored, body, "gstNo")
      && Passes(c, stored, body, "panNo") && Passes(c, stored, body, "emailId")
    ensures Changed(stored, body, "firmId") && Taken(c, body, "firmId") ==> e == Some(BadRequest(FirmIdTaken))
    ensures e == Some(BadRequest(GstNoTaken)) <==>
      Passes(c, stored, body, "firmId") && Changed(stored, body, "gstNo") && Taken(c, body, "gstNo")
    ensures e == Some(BadRequest(PanNoTaken)) <==>
      && Passes(c, stored, body, "firmId") && Passes(c, stored, body, "gstNo")
      && Changed(stored, body, "panNo") && Taken(c, body, "panNo")
    ensures e == Some(BadRequest(EmailTaken)) <==>
      && Passes(c, stored, body, "firmId") && Passes(c, stored, body, "gstNo") && Passes(c, stored, body, "panNo")
      && Changed(stored, body, "emailId") && Taken(c, body, "emailId")
    ensures e.Some? ==> !e.value.ValidationFailed? && !e.value.NotFound?
  {
    MessagesDistinct();
    var firmId := CheckChanged(c, stored, body, "firmId", FirmIdTaken);
    if firmId.Some? then firmId
    else
      var gstNo := CheckChanged(c, stored, body, "gstNo", GstNoTaken);
      if gstNo.Some? then gstNo
      else
        var panNo := CheckChanged(c, stored, body, "panNo", PanNoTaken);
        if panNo.Some? then panNo
        else CheckChanged(c, stored, body, "emailId", EmailTaken)
  }

  /**
    `PUT /companies/:id`. An id that is not an ObjectId and a missing company end the
    request first. The lookups look at every company, this one included. The ten fields and
    the flag then go through the update's casts and validators, and the result through the
    firmId index.
   */
  function UpdateCompany(c: Collection<Doc>, id: string, body: Doc): (r: Result<Collection<Doc>, Error>)
    ensures !IsObjectIdText(id) ==> r == Failure(BadRequest("Invalid company ID"))
    ensures IsObjectIdText(id) && !HasId(c, id) ==> r == Failure(NotFound("Company not found"))
    ensures FindById(c, id).Found? && UpdateChecks(c, FindById(c, id).doc, body).Some? ==>
      r == Failure(UpdateChecks(c, FindById(c, id).doc, body).value)
    ensures r.Success? ==>
      var stored := FindById(c, id).doc;
      var u := ApplyUpdate(CompanySchema(), stored, Only(body, UpdateFields));
      && FindById(c, id).Found?
      && UpdateChecks(c, stored, body).None?
      && u.Success?
      && !FirmIdIndexClash(c, id, u.value)
      && r.value == Replace(c, id, u.value)
  {
    match FindById(c, id)
    case BadId => Failure(BadRequest("Invalid company ID"))
    case Missing => Failure(NotFound("Company not found"))
    case Found(stored) =>
      var checked := UpdateChecks(c, stored, body);
      if checked.Some? then Failure(checked.value)
      else
        match ApplyUpdate(CompanySchema(), stored, Only(body, UpdateFields))
        case Failure(CastFailed) => Failure(InternalError)
        case Failure(Rejected(paths)) => Failure(ValidationFailed(paths))
        case Success(d) =>
          if FirmIdIndexClash(c, id, d) then Failure(BadRequest(DuplicateKeyMessage("Company", "firmId")))
          else Success(Replace(c, id, d))
  }

  /**
    Sending a company's own firmId in another case (or with spaces) is refused as a
    duplicate: the raw text differs from the stored firmId, so the lookup runs, and it finds
    the company itself.
   */
  lemma {:induction false} OwnFirmIdInOtherCaseRejected(c: Collection<Doc>, i: nat, body: Doc)
    requires UniqueIds(c) && i < |c| && IsObjectIdText(c[i].id)
    requires TextAt(body, "firmId").Some? && body["firmId"].s != ""
    requires Get(c[i].doc, "firmId") == Some(Str(Upper(Trim(body["firmId"].s))))
    requires body["firmId"].s != Upper(Trim(body["firmId"].s))
    ensures UpdateCompany(c, c[i].id, body) == Failure(BadRequest(FirmIdTaken))
  {
    FoundIsStored(c, i);
    assert Changed(c[i].doc, body, "firmId");
    assert Holds(c, "firmId", Held("firmId", body["firmId"].s));
  }

  /** An update whose identifying fields are absent or unchanged never runs a lookup, so it is never refused as a duplicate by one. */
  lemma {:induction false} UnchangedFieldsSkipLookups(c: Collection<Doc>, id: string, body: Doc)
    requires FindById(c, id).Found?
    requires var stored := FindById(c, id).doc;
      && !Changed(stored, body, "firmId") && !Changed(stored, body, "gstNo")
      && !Changed(stored, body, "panNo") && !Changed(stored, body, "emailId")
    ensures var r := UpdateCompany(c, id, body);
      r != Failure(BadRequest(FirmIdTaken)) && r != Failure(BadRequest(GstNoTaken))
      && r != Failure(BadRequest(PanNoTaken)) && r != Failure(BadRequest(EmailTaken))
  {
  }

  /** A successful update changes only the company it names. */
  lemma {:induction false} UpdateKeepsOtherCompanies(c: Collection<Doc>, id: string, body: Doc)
    requires UpdateCompany(c, id, body).Success?
    ensures var r := UpdateCompany(c, id, body).value;
      && |r| == |c|
      && forall k :: 0 <= k < |c| && !SameId(c[k].id, id) ==> r[k] == c[k]
  {
  }

  // ---------------------------------------------------------------- read, delete, list

  /** `GET /companies/:id`. */
  function ReadCompany(c: Collection<Doc>, id: string): (r: Result<Doc, Error>)
    ensures r.Success? <==> IsObjectIdText(id) && HasId(c, id)
    ensures r.Success? ==> exists i :: 0 <= i < |c| && SameId(c[i].id, id) && c[i].doc == r.value
    ensures !IsObjectIdText(id) ==> r == Failure(BadRequest("Invalid company ID"))
    ensures IsObjectIdText(id) && !HasId(c, id) ==> r == Failure(NotFound("Company not found"))
  {
    MasterData.Read(Companies(), c, id)
  }

  /** `DELETE /companies/:id`. */
  function DeleteCompany(c: Collection<Doc>, id: string): (r: Result<Collection<Doc>, Error>)
    ensures r.Success? <==> IsObjectIdText(id) && HasId(c, id)
    ensures r.Success? ==> r.value == Remove(c, id)
    ensures !IsObjectIdText(id) ==> r == Failure(BadRequest("Invalid company ID"))
    ensures IsObjectIdText(id) && !HasId(c, id) ==> r == Failure(NotFound("Company not found"))
  {
    MasterData.Delete(Companies(), c, id)
  }

  /** `GET /companies`: the search matches firmId, name, GST, PAN or e-mail. */
  function ListCompanies(c: Collection<Doc>, q: ListQuery): (r: Result<Listing, Error>)
    ensures r.Success? ==> forall i :: 0 <= i < |r.value.data| ==>
      r.value.data[i] in c && Listed(r.value.data[i].doc, ["firmId", "companyName", "gstNo", "panNo", "emailId"], q)
  {
    var r := List(c, Companies().searchPaths, q);
    if r.Success? then ListShowsOnlyMatches(c, Companies().searchPaths, q); r else r
  }
}
