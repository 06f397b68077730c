/**
  A MongoDB collection as the routes see it: documents with their `_id`, kept in insertion
  order, which is the order `findOne` and `find` visit them in when no sort is given.
 */
module Store {
  import opened Wrappers
  import opened Text
  import opened Patterns

  datatype Entry<T> = Entry(id: string, doc: T)

  /** A collection, oldest document first. */
  type Collection<T> = seq<Entry<T>>

  /**
    Two id texts name the same ObjectId: casting reads the hex digits without regard to
    letter case, so `"64A1…"` and `"64a1…"` are one id.
   */
  predicate SameId(a: string, b: string)
  {
    Lower(a) == Lower(b)
  }

  predicate HasId<T>(c: Collection<T>, id: string)
  {
    exists i :: 0 <= i < |c| && SameId(c[i].id, id)
  }

  /** The `_id` index: no two documents share an id. */
  predicate UniqueIds<T>(c: Collection<T>)
  {
    forall i, j :: 0 <= i < j < |c| ==> !SameId(c[i].id, c[j].id)
  }

  /** The position of the document with `id`, or `|c|` when there is none. */
  function Position<T>(c: Collection<T>, id: string): (k: nat)
    ensures k <= |c|
    ensures k < |c| ==> SameId(c[k].id, id)
    ensures forall i :: 0 <= i < k ==> !SameId(c[i].id, id)
  {
    if c == [] then 0
    else if SameId(c[0].id, id) then 0
    else 1 + Position(c[1..], id)
  }

  lemma {:induction false} PositionFinds<T>(c: Collection<T>, id: string)
    ensures Position(c, id) < |c| <==> HasId(c, id)
  {
  }

  /** The outcome of `Model.findById(text)`. */
  datatype Lookup<T> =
      /** The text does not cast to an ObjectId: the query throws a CastError of kind "ObjectId". */
    | BadId
    | Missing
    | Found(doc: T)

  function FindById<T>(c: Collection<T>, id: string): (r: Lookup<T>)
    ensures r.BadId? <==> !IsObjectIdText(id)
    ensures r.Found? <==> IsObjectIdText(id) && HasId(c, id)
    ensures r.Found? ==> exists i :: 0 <= i < |c| && SameId(c[i].id, id) && c[i].doc == r.doc
  {
    var k := Position(c, id);
    if !IsObjectIdText(id) then BadId
    else if k < |c| then Found(c[k].doc)
    else Missing
  }

  /** Two texts of one ObjectId, differing only in the case of their hex letters, find the same document. */
  lemma {:induction false} FindIgnoresHexCase<T>(c: Collection<T>, a: string, b: string)
    requires SameId(a, b) && IsObjectIdText(a) && IsObjectIdText(b)
    ensures FindById(c, a) == FindById(c, b)
  {
    SamePosition(c, a, b);
  }

  lemma {:induction false} SamePosition<T>(c: Collection<T>, a: string, b: string)
    requires SameId(a, b)
    ensures Position(c, a) == Position(c, b)
  {
    if c != [] && !SameId(c[0].id, a) {
      SamePosition(c[1..], a, b);
    }
  }

  /** Under the `_id` index, the document found is the one stored under that id. */
  lemma {:induction false} FoundIsStored<T>(c: Collection<T>, i: nat)
    requires UniqueIds(c) && i < |c| && IsObjectIdText(c[i].id)
    ensures FindById(c, c[i].id) == Found(c[i].doc)
  {
    assert Position(c, c[i].id) == i;
  }

  /** `Model.findOne(filter)`: the first document the filter accepts. */
  function FirstWhere<T>(c: Collection<T>, accepts: T -> bool): (r: Option<Entry<T>>)
    ensures r.None? <==> forall i :: 0 <= i < |c| ==> !accepts(c[i].doc)
    ensures r.Some? ==> accepts(r.value.doc) && r.value in c
  {
    if c == [] then None
    else if accepts(c[0].doc) then Some(c[0])
    else FirstWhere(c[1..], accepts)
  }

  /** `findOne` answers the first accepted document: none before it is accepted. */
  lemma {:induction false} FirstWhereIsFirst<T>(c: Collection<T>, accepts: T -> bool)
    requires FirstWhere(c, accepts).Some?
    ensures exists i :: (0 <= i < |c| && c[i] == FirstWhere(c, accepts).value
      && forall j :: 0 <= j < i ==> !accepts(c[j].doc))
  {
    if !accepts(c[0].doc) {
      FirstWhereIsFirst(c[1..], accepts);
      var i :| 0 <= i < |c[1..]| && c[1..][i] == FirstWhere(c, accepts).value
        && forall j :: 0 <= j < i ==> !accepts(c[1..][j].doc);
      assert forall j :: 1 <= j < i + 1 ==> c[j] == c[1..][j - 1];
      assert c[i + 1] == FirstWhere(c, accepts).value;
    } else {
      assert c[0] == FirstWhere(c, accepts).value;
    }
  }

  /**
    `Model.find(filter)`: every document the filter accepts, in collection order (each
    accepted document comes after those accepted before it).
   */
  function AllWhere<T>(c: Collection<T>, accepts: T -> bool): (r: Collection<T>)
    ensures |r| <= |c|
    ensures forall i :: 0 <= i < |r| ==> r[i] in c && accepts(r[i].doc)
    ensures forall i :: 0 <= i < |c| && accepts(c[i].doc) ==> c[i] in r
  {
    if c == [] then []
    else
      var last := c[|c| - 1];
      AllWhere(c[..|c| - 1], accepts) + (if accepts(last.doc) then [last] else [])
  }

  /** A filter that accepts nothing finds nothing. */
  lemma {:induction false} AllWhereNone<T>(c: Collection<T>, accepts: T -> bool)
    requires forall i :: 0 <= i < |c| ==> !accepts(c[i].doc)
    ensures AllWhere(c, accepts) == []
  {
    if c != [] {
      AllWhereNone(c[..|c| - 1], accepts);
    }
  }

  /** A filter that accepts everything keeps the whole collection. */
  lemma {:induction false} AllWhereAll<T>(c: Collection<T>, accepts: T -> bool)
    requires forall i :: 0 <= i < |c| ==> accepts(c[i].doc)
    ensures AllWhere(c, accepts) == c
  {
    if c != [] {
      AllWhereAll(c[..|c| - 1], accepts);
      assert c[..|c| - 1] + [c[|c| - 1]] == c;
    }
  }
  /** `new Model(doc).save()` with the id the driver generates. */
  function Insert<T>(c: Collection<T>, id: string, doc: T): (r: Collection<T>)
    ensures |r| == |c| + 1 && r[..|c|] == c && r[|c|] == Entry(id, doc)
  {
    c + [Entry(id, doc)]
  }

  /** The document under `id` replaced; every other document and the order are kept. */
  function Replace<T>(c: Collection<T>, id: string, doc: T): (r: Collection<T>)
    ensures |r| == |c|
    ensures forall i :: 0 <= i < |r| ==> r[i].id == c[i].id
    ensures forall i :: 0 <= i < |r| ==> r[i].doc == if SameId(c[i].id, id) then doc else c[i].doc
  {
    if c == [] then []
    else [if SameId(c[0].id, id) then Entry(c[0].id, doc) else c[0]] + Replace(c[1..], id, doc)
  }

  /** `Model.findByIdAndDelete(id)`: the documents with another id, in order. */
  function Remove<T>(c: Collection<T>, id: string): (r: Collection<T>)
    ensures |r| <= |c|
    ensures forall i :: 0 <= i < |r| ==> r[i] in c && !SameId(r[i].id, id)
    ensures forall i :: 0 <= i < |c| && !SameId(c[i].id, id) ==> c[i] in r
  {
    if c == [] then []
    else (if SameId(c[0].id, id) then [] else [c[0]]) + Remove(c[1..], id)
  }

  lemma {:induction false} InsertKeepsIdsUnique<T>(c: Collection<T>, id: string, doc: T)
    requires UniqueIds(c) && !HasId(c, id)
    ensures UniqueIds(Insert(c, id, doc))
  {
  }

  lemma {:induction false} ReplaceKeepsIdsUnique<T>(c: Collection<T>, id: string, doc: T)
    requires UniqueIds(c)
    ensures UniqueIds(Replace(c, id, doc))
  {
  }

  lemma {:induction false} RemoveKeepsIdsUnique<T>(c: Collection<T>, id: string)
    requires UniqueIds(c)
    ensures UniqueIds(Remove(c, id))
  {
    if c != [] {
      RemoveKeepsIdsUnique(c[1..], id);
    }
  }

  /** Removing an id no document has changes nothing. */
  lemma {:induction false} RemoveAbsent<T>(c: Collection<T>, id: string)
    requires !HasId(c, id)
    ensures Remove(c, id) == c
  {
    if c != [] {
      RemoveAbsent(c[1..], id);
    }
  }

  /** Under the `_id` index, removing a stored id removes exactly one document. */
  lemma {:induction false} RemoveOne<T>(c: Collection<T>, i: nat)
    requires UniqueIds(c) && i < |c|
    ensures |Remove(c, c[i].id)| == |c| - 1
    ensures !HasId(Remove(c, c[i].id), c[i].id)
  {
    var id := c[i].id;
    if i == 0 {
      RemoveAbsent(c[1..], id);
      assert Remove(c, id) == c[1..];
    } else {
      var rest := c[1..];
      assert rest[i - 1] == c[i];
      assert UniqueIds(rest);
      assert !SameId(c[0].id, id);
      RemoveOne(rest, i - 1);
      assert Remove(c, id) == [c[0]] + Remove(rest, id);
    }
  }

  /** Removing a document just inserted under a fresh id gives the collection back. */
  lemma {:induction false} RemoveUndoesInsert<T>(c: Collection<T>, id: string, doc: T)
    requires !HasId(c, id)
    ensures Remove(Insert(c, id, doc), id) == c
  {
    if c == [] {
      assert Insert(c, id, doc) == [Entry(id, doc)];
    } else {
      assert Insert(c, id, doc)[1..] == Insert(c[1..], id, doc);
      RemoveUndoesInsert(c[1..], id, doc);
    }
  }

  /** Replacing a document by the one stored under its id changes nothing. */
  lemma {:induction false} ReplaceWithStored<T>(c: Collection<T>, i: nat)
    requires UniqueIds(c) && i < |c|
    ensures Replace(c, c[i].id, c[i].doc) == c
  {
    var r := Replace(c, c[i].id, c[i].doc);
    forall k | 0 <= k < |c|
      ensures r[k] == c[k]
    {
      assert SameId(c[k].id, c[i].id) ==> k == i;
    }
  }
}
