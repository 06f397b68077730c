/**
  The registry routes for items, credit parties, brokers and CHAs: create with a
  duplicate-name check, read, update with the check only when the name changes, delete,
  and the paginated list. The four registries differ only in their schema, name path,
  search paths and messages, which `Registry` collects.
 */
module MasterData {
  import opened Wrappers
  import opened Text
  import opened Patterns
  import opened Schema
  import opened Store
  import opened Queries
  import opened Errors
  import ItemModel
  import CreditPartyModel
  import BrokerModel
  import ChaModel

  /** What distinguishes one registry's routes from another's. */
  datatype Registry = Registry(
    schema: Schema,
    /** The path the duplicate check and the name finder look at. */
    namePath: string,
    /** The paths a list `search` is matched against. */
    searchPaths: seq<string>,
    duplicate: string,
    notFound: string,
    invalidId: string)

  function Items(): Registry
  {
    Registry(ItemModel.ItemSchema(), "itemName", ["itemName", "itemHsn"],
      "Item with this name already exists", "Item not found", "Invalid item ID")
  }

  function CreditParties(): Registry
  {
    Registry(CreditPartyModel.CreditPartySchema(), "partyName", ["partyName", "country", "port"],
      "Party with this name already exists", "Credit party not found", "Invalid credit party ID")
  }

  function Brokers(): Registry
  {
    Registry(BrokerModel.BrokerSchema(), "brokerName", ["brokerName"],
      "Broker with this name already exists", "Broker not found", "Invalid broker ID")
  }

  function Chas(): Registry
  {
    Registry(ChaModel.ChaSchema(), "chaName", ["chaName"],
      "CHA with this name already exists", "CHA not found", "Invalid CHA ID")
  }

  /** Some stored document's name contains `name`, ignoring case: the `findBy...Name` lookup succeeds. */
  predicate NameTaken(reg: Registry, c: Collection<Doc>, name: string)
  {
    exists i :: 0 <= i < |c| && FieldContains(c[i].doc, reg.namePath, name)
  }

  // ---------------------------------------------------------------- create

  /**
    `POST /<registry>`: the name finder runs on the name as sent; a hit is a duplicate. The
    document is then prepared from the declared fields of the body, validated, and stored
    under the id the driver generates. A name that is not text makes the finder's query
    fail, which the route reports as an internal error.
   */
  function Create(reg: Registry, c: Collection<Doc>, body: Doc, newId: string): (r: Result<Collection<Doc>, Error>)
    ensures r.Success? <==>
      && TextAt(body, reg.namePath).Some?
      && !NameTaken(reg, c, TextAt(body, reg.namePath).value)
      && Valid(reg.schema, Prepare(reg.schema, Pick(reg.schema, body)))
    ensures r.Success? ==> r.value == Insert(c, newId, Prepare(reg.schema, Pick(reg.schema, body)))
    ensures TextAt(body, reg.namePath).Some? && NameTaken(reg, c, TextAt(body, reg.namePath).value) ==>
      r == Failure(BadRequest(reg.duplicate))
    ensures r.Failure? && r.error.ValidationFailed? ==>
      r.error.paths == Failures(reg.schema, Prepare(reg.schema, Pick(reg.schema, body))) && r.error.paths != {}
  {
    match TextAt(body, reg.namePath)
    case None => Failure(InternalError)
    case Some(name) =>
      if FindContaining(c, reg.namePath, name).Some? then Failure(BadRequest(reg.duplicate))
      else
        var d := Prepare(reg.schema, Pick(reg.schema, body));
        var failed := Failures(reg.schema, d);
        if failed != {} then Failure(ValidationFailed(failed))
        else Success(Insert(c, newId, d))
  }

  /** "Cot" cannot be added while "Cotton" is stored, whatever the case of either. */
  lemma {:induction false} CreateRejectsContainedName(reg: Registry, c: Collection<Doc>, i: nat, body: Doc, newId: string)
    requires i < |c| && TextAt(body, reg.namePath).Some? && TextAt(c[i].doc, reg.namePath).Some?
    requires Contains(Upper(TextAt(c[i].doc, reg.namePath).value), Upper(TextAt(body, reg.namePath).value))
    ensures Create(reg, c, body, newId) == Failure(BadRequest(reg.duplicate))
  {
    assert FieldContains(c[i].doc, reg.namePath, TextAt(body, reg.namePath).value);
  }

  /** A successful create adds exactly one document and keeps every other one. */
  lemma {:induction false} CreateAddsOne(reg: Registry, c: Collection<Doc>, body: Doc, newId: string)
    requires UniqueIds(c) && !HasId(c, newId)
    requires Create(reg, c, body, newId).Success?
    ensures var r := Create(reg, c, body, newId).value;
      && |r| == |c| + 1
      && r[..|c|] == c
      && r[|c|].id == newId
      && Valid(reg.schema, r[|c|].doc)
      && UniqueIds(r)
  {
    InsertKeepsIdsUnique(c, newId, Prepare(reg.schema, Pick(reg.schema, body)));
  }

  // ---------------------------------------------------------------- read and delete

  /** `GET /<registry>/:id`. */
  function Read(reg: Registry, c: Collection<Doc>, id: string): (r: Result<Doc, Error>)
    ensures r.Success? <==> IsObjectIdText(id) && HasId(c, id)
    ensures r.Success? ==> exists i :: 0 <= i < |c| && SameId(c[i].id, id) && c[i].doc == r.value
    ensures !IsObjectIdText(id) ==> r == Failure(BadRequest(reg.invalidId))
    ensures IsObjectIdText(id) && !HasId(c, id) ==> r == Failure(NotFound(reg.notFound))
  {
    match FindById(c, id)
    case BadId => Failure(BadRequest(reg.invalidId))
    case Missing => Failure(NotFound(reg.notFound))
    case Found(d) => Success(d)
  }

  /** `DELETE /<registry>/:id`: only the registry's own collection changes. */
  function Delete(reg: Registry, c: Collection<Doc>, id: string): (r: Result<Collection<Doc>, Error>)
    ensures r.Success? <==> IsObjectIdText(id) && HasId(c, id)
    ensures r.Success? ==> r.value == Remove(c, id)
    ensures !IsObjectIdText(id) ==> r == Failure(BadRequest(reg.invalidId))
    ensures IsObjectIdText(id) && !HasId(c, id) ==> r == Failure(NotFound(reg.notFound))
  {
    match FindById(c, id)
    case BadId => Failure(BadRequest(reg.invalidId))
    case Missing => Failure(NotFound(reg.notFound))
    case Found(_) => Success(Remove(c, id))
  }

  /** Deleting removes exactly the document with that id. */
  lemma {:induction false} DeleteRemovesExactlyOne(reg: Registry, c: Collection<Doc>, i: nat)
    requires UniqueIds(c) && i < |c| && IsObjectIdText(c[i].id)
    ensures var r := Delete(reg, c, c[i].id);
      && r.Success?
      && |r.value| == |c| - 1
      && !HasId(r.value, c[i].id)
      && forall k :: 0 <= k < |c| && k != i ==> c[k] in r.value
  {
    RemoveOne(c, i);
  }

  // ---------------------------------------------------------------- update

  /**
    `PUT /<registry>/:id`. An id that is not an ObjectId fails the existence lookup with a
    CastError the route does not classify. The duplicate check runs only when the body's
    name is truthy and differs from the stored one, and it looks at every document,
    including the one being updated. The update then goes through the schema's casts and
    update validators.
   */
  function Update(reg: Registry, c: Collection<Doc>, id: string, body: Doc): (r: Result<Collection<Doc>, Error>)
    ensures !IsObjectIdText(id) ==> r == Failure(InternalError)
    ensures IsObjectIdText(id) && !HasId(c, id) ==> r == Failure(NotFound(reg.notFound))
    ensures r.Success? ==> IsObjectIdText(id) && HasId(c, id)
    ensures r == Failure(BadRequest(reg.duplicate)) <==>
      && IsObjectIdText(id) && HasId(c, id)
      && Changed(FindById(c, id).doc, body, reg.namePath)
      && Get(body, reg.namePath).value.Str?
      && NameTaken(reg, c, Get(body, reg.namePath).value.s)
    ensures r.Success? ==>
      var stored := FindById(c, id).doc;
      var u := ApplyUpdate(reg.schema, stored, Pick(reg.schema, body));
      && u.Success?
      && r.value == Replace(c, id, u.value)
  {
    match FindById(c, id)
    case BadId => Failure(InternalError)
    case Missing => Failure(NotFound(reg.notFound))
    case Found(stored) =>
      var name := Get(body, reg.namePath);
      if Changed(stored, body, reg.namePath) && !name.value.Str? then Failure(InternalError)
      else if Changed(stored, body, reg.namePath) && FindContaining(c, reg.namePath, name.value.s).Some? then
        Failure(BadRequest(reg.duplicate))
      else
        match ApplyUpdate(reg.schema, stored, Pick(reg.schema, body))
        case Failure(CastFailed) => Failure(InternalError)
        case Failure(Rejected(paths)) => Failure(ValidationFailed(paths))
        case Success(d) => Success(Replace(c, id, d))
  }

  /** An update changes only the document it names. */
  lemma {:induction false} UpdateKeepsOthers(reg: Registry, c: Collection<Doc>, id: string, body: Doc)
    requires Update(reg, c, id, body).Success?
    ensures var r := Update(reg, c, id, body).value;
      && |r| == |c|
      && forall k :: 0 <= k < |c| && !SameId(c[k].id, id) ==> r[k] == c[k]
  {
  }

  /**
    Renaming a document to a part of its own name is refused as a duplicate: the name
    finder, which looks at every document, finds the document itself.
   */
  lemma {:induction false} RenameToOwnPartRejected(reg: Registry, c: Collection<Doc>, i: nat, body: Doc)
    requires UniqueIds(c) && i < |c| && IsObjectIdText(c[i].id)
    requires TextAt(c[i].doc, reg.namePath).Some? && TextAt(body, reg.namePath).Some?
    requires var old_, new_ := TextAt(c[i].doc, reg.namePath).value, TextAt(body, reg.namePath).value;
      new_ != "" && new_ != old_ && Contains(Upper(old_), Upper(new_))
    ensures Update(reg, c, c[i].id, body) == Failure(BadRequest(reg.duplicate))
  {
    FoundIsStored(c, i);
    assert FieldContains(c[i].doc, reg.namePath, TextAt(body, reg.namePath).value);
  }

  /** With the name absent, empty or unchanged, no duplicate check runs: other documents' names do not matter. */
  lemma {:induction false} UnchangedNameSkipsCheck(reg: Registry, c: Collection<Doc>, id: string, body: Doc)
    requires !FindById(c, id).Found? || !Changed(FindById(c, id).doc, body, reg.namePath)
    ensures Update(reg, c, id, body) != Failure(BadRequest(reg.duplicate))
  {
  }
}
