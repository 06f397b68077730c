/**
  How Express picks the handler of a `GET` request under `/receipt-transactions`: the router
  tries its routes in declaration order and the first whose pattern matches the path serves
  the request. Literal segments match ignoring letter case (the router's default); a `:name`
  segment matches any one segment. Paths are given as their non-empty segments.
 */
module ReceiptRouting {
  import opened Wrappers
  import opened Text
  import opened Patterns
  import opened Schema
  import opened Store
  import opened Errors
  import opened ReceiptRoutes
  import opened ReceiptViews

  datatype Segment = Lit(text: string) | Param

  /** The `GET` handlers of the receipt router. */
  datatype Handler = ListReceipts | ById | SearchBill | ByParty | BillAdjustmentView | PendingBillsView

  datatype Route = Route(pattern: seq<Segment>, handler: Handler)

  /** The chosen handler and the path's values of the route's `:name` segments, in order. */
  datatype Match = Match(handler: Handler, params: seq<string>)

  function SegmentMatches(p: Segment, s: string): bool
  {
    match p
    case Lit(t) => Lower(s) == t
    case Param => true
  }

  predicate Matches(pattern: seq<Segment>, path: seq<string>)
  {
    |pattern| == |path| && forall i :: 0 <= i < |path| ==> SegmentMatches(pattern[i], path[i])
  }

  /** The path's values at the pattern's parameter positions. */
  function Params(pattern: seq<Segment>, path: seq<string>): seq<string>
    requires |pattern| == |path|
  {
    if pattern == [] then []
    else (if pattern[0].Param? then [path[0]] else []) + Params(pattern[1..], path[1..])
  }

  /** The first route that matches, or `None` (the application's 404 handler). */
  function Dispatch(routes: seq<Route>, path: seq<string>): Option<Match>
  {
    if routes == [] then None
    else if Matches(routes[0].pattern, path) then Some(Match(routes[0].handler, Params(routes[0].pattern, path)))
    else Dispatch(routes[1..], path)
  }

  /** A request is served exactly when some route matches, and then by the first that does. */
  lemma {:induction false} DispatchFirstMatch(routes: seq<Route>, path: seq<string>)
    ensures Dispatch(routes, path).Some? <==> exists i :: 0 <= i < |routes| && Matches(routes[i].pattern, path)
    ensures Dispatch(routes, path).Some? ==>
      exists i :: (0 <= i < |routes| && Matches(routes[i].pattern, path)
        && Dispatch(routes, path).value.handler == routes[i].handler
        && forall j :: 0 <= j < i ==> !Matches(routes[j].pattern, path))
  {
    if routes != [] && !Matches(routes[0].pattern, path) {
      DispatchFirstMatch(routes[1..], path);
      assert forall i :: 1 <= i < |routes| ==> routes[i] == routes[1..][i - 1];
      if Dispatch(routes, path).Some? {
        var i :| 0 <= i < |routes[1..]| && Matches(routes[1..][i].pattern, path)
          && Dispatch(routes, path).value.handler == routes[1..][i].handler
          && (forall j :: 0 <= j < i ==> !Matches(routes[1..][j].pattern, path));
        assert Matches(routes[i + 1].pattern, path) && Dispatch(routes, path).value.handler == routes[i + 1].handler;
      }
    }
  }

  /** The routes in the order the receipt router declares them. */
  function DeclaredRoutes(): seq<Route>
  {
    [ Route([], ListReceipts),
      Route([Param], ById),
      Route([Lit("search"), Lit("bill-number"), Param], SearchBill),
      Route([Lit("credit-party"), Param], ByParty),
      Route([Lit("bill-adjustment"), Param], BillAdjustmentView),
      Route([Lit("pending-bills")], PendingBillsView) ]
  }

  /** The same routes with the literal `pending-bills` declared before the `/:id` route. */
  function CorrectedRoutes(): seq<Route>
  {
    [ Route([], ListReceipts),
      Route([Lit("pending-bills")], PendingBillsView),
      Route([Param], ById),
      Route([Lit("search"), Lit("bill-number"), Param], SearchBill),
      Route([Lit("credit-party"), Param], ByParty),
      Route([Lit("bill-adjustment"), Param], BillAdjustmentView) ]
  }

  /** What a modelled handler answers; `Unmodelled` stands for the listing routes and for 404. */
  datatype Reply =
    | ReceiptReply(receipt: Result<Doc, Error>)
    | SearchReply(found: Collection<Doc>)
    | AdjustmentReply(adjustment: Adjustment)
    | PendingReply(page: Result<PendingPage, Error>)
    | Unmodelled

  function Serve(routes: seq<Route>, path: seq<string>, receipts: Collection<Doc>, q: PendingQuery): Reply
  {
    match Dispatch(routes, path)
    case None => Unmodelled
    case Some(m) =>
      match m.handler
      case ById => if |m.params| == 1 then ReceiptReply(ReadReceipt(receipts, m.params[0])) else Unmodelled
      case SearchBill => if |m.params| == 1 then SearchReply(SearchByBillNumber(receipts, m.params[0])) else Unmodelled
      case BillAdjustmentView => if |m.params| == 1 then AdjustmentReply(BillAdjustment(receipts, m.params[0])) else Unmodelled
      case PendingBillsView => PendingReply(PendingBills(receipts, q))
      case _ => Unmodelled
  }

  /** The one-segment paths the `pending-bills` route accepts. */
  predicate IsPendingPath(path: seq<string>)
  {
    |path| == 1 && Lower(path[0]) == "pending-bills"
  }

  /** With the declared order no path reaches the pending-bills handler. */
  lemma {:induction false} PendingBillsUnreachable(path: seq<string>)
    ensures Dispatch(DeclaredRoutes(), path).Some? ==> Dispatch(DeclaredRoutes(), path).value.handler != PendingBillsView
  {
    var routes := DeclaredRoutes();
    DispatchFirstMatch(routes, path);
    if Dispatch(routes, path).Some? {
      var i :| 0 <= i < |routes| && Matches(routes[i].pattern, path)
        && Dispatch(routes, path).value.handler == routes[i].handler
        && forall j :: 0 <= j < i ==> !Matches(routes[j].pattern, path);
      if |path| == 1 {
        assert Matches(routes[1].pattern, path);
      }
    }
  }

  lemma {:induction false} PendingBillsIsNoObjectId()
    ensures !IsObjectIdText("pending-bills")
  {
    assert |"pending-bills"| == 13;
  }

  /**
    `GET /receipt-transactions/pending-bills` is served by the `/:id` route, which rejects
    "pending-bills" as a receipt id whatever the store holds.
   */
  lemma {:induction false} PendingBillsShadowed(receipts: Collection<Doc>, q: PendingQuery)
    ensures Dispatch(DeclaredRoutes(), ["pending-bills"]) == Some(Match(ById, ["pending-bills"]))
    ensures Serve(DeclaredRoutes(), ["pending-bills"], receipts, q) == ReceiptReply(Failure(BadRequest(InvalidReceiptId)))
  {
    var routes := DeclaredRoutes();
    assert !Matches(routes[0].pattern, ["pending-bills"]);
    assert Matches(routes[1].pattern, ["pending-bills"]);
    assert Params(routes[1].pattern, ["pending-bills"]) == ["pending-bills"];
    PendingBillsIsNoObjectId();
  }

  /** With the corrected order the same request reaches the pending-bills view. */
  lemma {:induction false} CorrectedReachesPendingBills(path: seq<string>, receipts: Collection<Doc>, q: PendingQuery)
    requires IsPendingPath(path)
    ensures Serve(CorrectedRoutes(), path, receipts, q) == PendingReply(PendingBills(receipts, q))
  {
    var routes := CorrectedRoutes();
    assert !Matches(routes[0].pattern, path);
    assert routes[1..][0] == routes[1] && Matches(routes[1].pattern, path);
    assert Dispatch(routes, path) == Dispatch(routes[1..], path);
  }

  /** The first match of a list skipping one route that does not match is unchanged. */
  lemma {:induction false} DispatchSkipsNonMatching(a: seq<Route>, x: Route, b: seq<Route>, path: seq<string>)
    requires !Matches(x.pattern, path)
    ensures Dispatch(a + [x] + b, path) == Dispatch(a + b, path)
  {
    if a == [] {
      assert a + [x] + b == [x] + b && a + b == b;
      assert ([x] + b)[1..] == b;
    } else {
      DispatchSkipsNonMatching(a[1..], x, b, path);
      assert (a + [x] + b)[1..] == a[1..] + [x] + b;
      assert (a + b)[1..] == a[1..] + b;
    }
  }

  /** Moving the pending-bills route changes the handler of no other path. */
  lemma {:induction false} ReorderOnlyAffectsPendingBills(path: seq<string>)
    requires !IsPendingPath(path)
    ensures Dispatch(DeclaredRoutes(), path) == Dispatch(CorrectedRoutes(), path)
  {
    var pending := Route([Lit("pending-bills")], PendingBillsView);
    var first := [Route([], ListReceipts)];
    var rest := [Route([Param], ById), Route([Lit("search"), Lit("bill-number"), Param], SearchBill),
      Route([Lit("credit-party"), Param], ByParty), Route([Lit("bill-adjustment"), Param], BillAdjustmentView)];
    assert !Matches(pending.pattern, path);
    assert DeclaredRoutes() == first + rest + [pending] + [];
    assert CorrectedRoutes() == first + [pending] + rest;
    DispatchSkipsNonMatching(first + rest, pending, [], path);
    DispatchSkipsNonMatching(first, pending, rest, path);
    assert first + rest + [] == first + rest;
  }
}
