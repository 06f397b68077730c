/**
  The queries the routes and the schemas' static finders issue: exact lookups (with the
  path's setters applied to the query value), case-insensitive substring lookups, and the
  paginated, newest-first list every registry exposes.
 */
module Queries {
  import opened Wrappers
  import opened Text
  import opened Schema
  import opened Store
  import opened Paging
  import opened Errors

  // ---------------------------------------------------------------- finders

  /** `{ path: { $regex: pattern, $options: 'i' } }`, the pattern read as plain text. */
  predicate FieldContains(d: Doc, path: string, pattern: string)
  {
    TextAt(d, path).Some? && ContainsIgnoringCase(TextAt(d, path).value, pattern)
  }

  /** `findOne` with a case-insensitive substring filter on one path. */
  function FindContaining(c: Collection<Doc>, path: string, pattern: string): (r: Option<Entry<Doc>>)
    ensures r.None? <==> forall i :: 0 <= i < |c| ==> !FieldContains(c[i].doc, path, pattern)
    ensures r.Some? ==> r.value in c && FieldContains(r.value.doc, path, pattern)
  {
    FirstWhere(c, (d: Doc) => FieldContains(d, path, pattern))
  }

  /** `find` with a case-insensitive substring filter on one path. */
  function AllContaining(c: Collection<Doc>, path: string, pattern: string): (r: Collection<Doc>)
    ensures forall i :: 0 <= i < |r| ==> r[i] in c && FieldContains(r[i].doc, path, pattern)
    ensures forall i :: 0 <= i < |c| && FieldContains(c[i].doc, path, pattern) ==> c[i] in r
  {
    AllWhere(c, (d: Doc) => FieldContains(d, path, pattern))
  }

  /** The value an equality filter on `path` compares with, after the path's setters. */
  function QueryValue(schema: Schema, path: string, v: Value): Value
  {
    CastValue(RuleOf(schema, path), v)
  }

  /** Some stored document holds the text `v` at `path`. */
  predicate Holds(c: Collection<Doc>, path: string, v: string)
  {
    exists i :: 0 <= i < |c| && Get(c[i].doc, path) == Some(Str(v))
  }

  /** `findOne({ path: v })`. */
  function FindExact(c: Collection<Doc>, schema: Schema, path: string, v: Value): (r: Option<Entry<Doc>>)
    ensures r.None? <==> forall i :: 0 <= i < |c| ==> Get(c[i].doc, path) != Some(QueryValue(schema, path, v))
    ensures r.Some? ==> r.value in c && Get(r.value.doc, path) == Some(QueryValue(schema, path, v))
  {
    var target := QueryValue(schema, path, v);
    FirstWhere(c, (d: Doc) => Get(d, path) == Some(target))
  }

  /** `find({ path: v })`. */
  function FindAllExact(c: Collection<Doc>, schema: Schema, path: string, v: Value): (r: Collection<Doc>)
    ensures forall i :: 0 <= i < |r| ==> r[i] in c && Get(r[i].doc, path) == Some(QueryValue(schema, path, v))
    ensures forall i :: 0 <= i < |c| && Get(c[i].doc, path) == Some(QueryValue(schema, path, v)) ==> c[i] in r
  {
    AllAt(c, path, QueryValue(schema, path, v))
  }

  /** The documents holding `target` at `path`, in stored order. */
  function AllAt(c: Collection<Doc>, path: string, target: Value): (r: Collection<Doc>)
    ensures forall i :: 0 <= i < |r| ==> r[i] in c && Get(r[i].doc, path) == Some(target)
    ensures forall i :: 0 <= i < |c| && Get(c[i].doc, path) == Some(target) ==> c[i] in r
  {
    if c == [] then []
    else
      var rest := AllAt(c[1..], path, target);
      assert forall i :: 1 <= i < |c| ==> c[i] == c[1..][i - 1];
      (if Get(c[0].doc, path) == Some(target) then [c[0]] else []) + rest
  }

  /**
    A substring lookup finds a document holding the very text it was given, whatever the
    case of either: a lookup by a name always reports a document stored under that name.
   */
  lemma {:induction false} FindContainingFindsSameName(c: Collection<Doc>, path: string, i: nat, pattern: string)
    requires i < |c| && TextAt(c[i].doc, path) == Some(pattern)
    ensures FindContaining(c, path, pattern).Some?
  {
    ContainsIgnoringCaseSelf(pattern, pattern);
    assert FieldContains(c[i].doc, path, pattern);
  }

  // ---------------------------------------------------------------- list

  /** The query string of a list request: each parameter absent or as sent. */
  datatype ListQuery = ListQuery(page: Option<string>, limit: Option<string>, search: Option<string>, isActive: Option<string>)

  /** A page of documents and its pagination block. */
  datatype Listing = Listing(data: seq<Entry<Doc>>, pagination: PageInfo)

  /**
    The filter of a list request: when `search` is non-empty, some search path contains it
    (ignoring case); when `isActive` is present, the document's flag equals it.
   */
  predicate Listed(d: Doc, searchPaths: seq<string>, q: ListQuery)
  {
    var search := q.search.GetOr("");
    && (search != "" ==> exists k :: 0 <= k < |searchPaths| && FieldContains(d, searchPaths[k], search))
    && (var active := ActiveFilter(q.isActive); active.Some? ==> Get(d, "isActive") == Some(Bool(active.value)))
  }

  /**
    Without a search, `?isActive=true` lists the active documents, any other value the
    inactive ones, and no parameter every document.
   */
  lemma {:induction false} ActiveFilterMeans(d: Doc, searchPaths: seq<string>, q: ListQuery)
    requires q.search.GetOr("") == ""
    ensures q.isActive.None? ==> Listed(d, searchPaths, q)
    ensures q.isActive == Some("true") ==> (Listed(d, searchPaths, q) <==> Get(d, "isActive") == Some(Bool(true)))
    ensures q.isActive.Some? && q.isActive != Some("true") ==>
      (Listed(d, searchPaths, q) <==> Get(d, "isActive") == Some(Bool(false)))
  {
  }

  function Reverse<T>(xs: seq<T>): (r: seq<T>)
    ensures |r| == |xs|
    ensures forall i :: 0 <= i < |xs| ==> r[i] == xs[|xs| - 1 - i]
  {
    if xs == [] then [] else [xs[|xs| - 1]] + Reverse(xs[..|xs| - 1])
  }

  /** The documents a list request matches, newest first (`sort({ createdAt: -1 })`). */
  function Matching(c: Collection<Doc>, searchPaths: seq<string>, q: ListQuery): (r: Collection<Doc>)
    ensures forall i :: 0 <= i < |r| ==> r[i] in c && Listed(r[i].doc, searchPaths, q)
  {
    var found := AllWhere(c, (d: Doc) => Listed(d, searchPaths, q));
    assert forall j :: 0 <= j < |found| ==> found[j] in c && Listed(found[j].doc, searchPaths, q);
    Reverse(found)
  }

  /**
    `find(filter).sort({ createdAt: -1 }).skip(skip).limit(limit)` with `countDocuments(filter)`.
    A negative skip (a page below 1) is rejected by the server.
   */
  function List(c: Collection<Doc>, searchPaths: seq<string>, q: ListQuery): (r: Result<Listing, Error>)
    ensures var page, limit := PageOf(q.page), LimitOf(q.limit);
      && (r.Failure? <==> Skip(page, limit) < 0)
      && (r.Failure? ==> r.error == InternalError)
      && (r.Success? ==>
        var all := Matching(c, searchPaths, q);
        && r.value.pagination == PageInfo(page, TotalPages(|all|, limit), |all|, limit)
        && forall i :: 0 <= i < |r.value.data| ==>
             Skip(page, limit) + i < |all| && r.value.data[i] == all[Skip(page, limit) + i])
  {
    var page, limit := PageOf(q.page), LimitOf(q.limit);
    var all := Matching(c, searchPaths, q);
    match Window(all, Skip(page, limit), limit)
    case None => Failure(InternalError)
    case Some(data) => Success(Listing(data, PageInfo(page, TotalPages(|all|, limit), |all|, limit)))
  }

  /** Everything a list shows passes the filter and is stored. */
  lemma {:induction false} ListShowsOnlyMatches(c: Collection<Doc>, searchPaths: seq<string>, q: ListQuery)
    requires List(c, searchPaths, q).Success?
    ensures var data := List(c, searchPaths, q).value.data;
      forall i :: 0 <= i < |data| ==> data[i] in c && Listed(data[i].doc, searchPaths, q)
  {
    var all := Matching(c, searchPaths, q);
    var skip := Skip(PageOf(q.page), LimitOf(q.limit));
    var data := List(c, searchPaths, q).value.data;
    forall i | 0 <= i < |data|
      ensures data[i] in c && Listed(data[i].doc, searchPaths, q)
    {
      assert skip + i < |all| && data[i] == all[skip + i];
    }
  }

  /** With no search and no flag filter, the first page of ten holds the ten newest documents. */
  lemma {:induction false} FirstPageIsNewest(c: Collection<Doc>)
    requires |c| >= 10
    ensures var r := List(c, [], ListQuery(None, None, None, None));
      && r.Success?
      && |r.value.data| == 10
      && forall i :: 0 <= i < 10 ==> r.value.data[i] == c[|c| - 1 - i]
  {
    var q := ListQuery(None, None, None, None);
    PageAndLimitDefaults(0);
    assert Skip(PageOf(q.page), LimitOf(q.limit)) == 0;
    var accepts := (d: Doc) => Listed(d, [], q);
    forall i | 0 <= i < |c|
      ensures accepts(c[i].doc)
    {
    }
    AllWhereAll(c, accepts);
    var all := Matching(c, [], q);
    assert all == Reverse(c);
    WindowIsFull(all, 0, 10);
  }
}
