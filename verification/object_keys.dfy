/**
  The order in which JavaScript enumerates the own keys of a plain object (`Object.keys`):
  the keys that are array indices first, in ascending numeric order, then every other key in
  the order it was first added. The pending-bills view groups receipts in such an object, so
  this order is the order of its bills.
 */
module ObjectKeys {
  import opened Text

  /** No two positions hold the same key. */
  predicate Distinct(ks: seq<string>)
  {
    forall i, j :: 0 <= i < j < |ks| ==> ks[i] != ks[j]
  }

  /** 2^32 - 1: array indices lie below it. */
  const IndexLimit: nat := 0xFFFF_FFFF

  /** A canonical array index: decimal digits, no leading zero except in "0", below 2^32 - 1. */
  predicate IsArrayIndex(k: string)
  {
    k != [] && AllDigits(k) && (k[0] == '0' ==> k == "0") && DigitsValue(k) < IndexLimit
  }

  // ---------------------------------------------------------------- insertion order

  /** The position at which `k` first occurs in `ks`. */
  function FirstIndex(ks: seq<string>, k: string): (i: nat)
    requires k in ks
    ensures i < |ks| && ks[i] == k && k !in ks[..i]
  {
    if ks[0] == k then 0
    else
      var j := FirstIndex(ks[1..], k);
      assert ks[..j + 1] == [ks[0]] + ks[1..][..j];
      j + 1
  }

  /** A position holding `k` with no `k` before it is the first one. */
  lemma {:induction false} FirstIndexUnique(ks: seq<string>, k: string, i: nat)
    requires i < |ks| && ks[i] == k && k !in ks[..i]
    ensures FirstIndex(ks, k) == i
  {
    var f := FirstIndex(ks, k);
    forall m | 0 <= m < i
      ensures ks[m] != k
    {
      assert ks[..i][m] == ks[m];
    }
    forall m | 0 <= m < f
      ensures ks[m] != k
    {
      assert ks[..f][m] == ks[m];
    }
  }

  /** Adding a key at the end moves no earlier key's first occurrence. */
  lemma {:induction false} FirstIndexSnoc(ks: seq<string>)
    requires ks != []
    ensures var init, last := ks[..|ks| - 1], ks[|ks| - 1];
      && (forall k :: k in init ==> FirstIndex(ks, k) == FirstIndex(init, k))
      && (last !in init ==> FirstIndex(ks, last) == |ks| - 1)
  {
    var init, last := ks[..|ks| - 1], ks[|ks| - 1];
    forall k | k in init
      ensures FirstIndex(ks, k) == FirstIndex(init, k)
    {
      var j := FirstIndex(init, k);
      assert ks[..j] == init[..j];
      FirstIndexUnique(ks, k, j);
    }
    if last !in init {
      assert ks[..|ks| - 1] == init;
      FirstIndexUnique(ks, last, |ks| - 1);
    }
  }

  /** The keys of `ks` are ordered by their first occurrence in `ins`. */
  predicate SeenInOrder(ins: seq<string>, ks: seq<string>)
  {
    forall i, j :: 0 <= i < j < |ks| && ks[i] in ins && ks[j] in ins ==> FirstIndex(ins, ks[i]) < FirstIndex(ins, ks[j])
  }

  /** The keys an object gains from assignments to `ins`, in the order each was first added. */
  function FirstSeen(ins: seq<string>): (r: seq<string>)
    ensures forall k :: k in r <==> k in ins
    ensures Distinct(r)
    ensures SeenInOrder(ins, r)
  {
    if ins == [] then []
    else
      var init, last := ins[..|ins| - 1], ins[|ins| - 1];
      var before := FirstSeen(init);
      FirstIndexSnoc(ins);
      assert forall k :: k in ins <==> k in init || k == last;
      if last in before then before else before + [last]
  }

  // ---------------------------------------------------------------- the two kinds of key

  /** The array-index keys of `ks`, in order. */
  function IndexKeys(ks: seq<string>): (r: seq<string>)
    ensures forall k :: k in r <==> k in ks && IsArrayIndex(k)
    ensures Distinct(ks) ==> Distinct(r)
  {
    if ks == [] then []
    else (if IsArrayIndex(ks[0]) then [ks[0]] else []) + IndexKeys(ks[1..])
  }

  /** The other keys of `ks`, in order. */
  function NamedKeys(ks: seq<string>): (r: seq<string>)
    ensures forall k :: k in r <==> k in ks && !IsArrayIndex(k)
    ensures Distinct(ks) ==> Distinct(r)
  {
    if ks == [] then []
    else (if IsArrayIndex(ks[0]) then [] else [ks[0]]) + NamedKeys(ks[1..])
  }

  /** Keeping only the named keys keeps their order. */
  lemma {:induction false} NamedKeysInOrder(ins: seq<string>, ks: seq<string>)
    requires SeenInOrder(ins, ks)
    ensures SeenInOrder(ins, NamedKeys(ks))
  {
    if ks != [] {
      assert SeenInOrder(ins, ks[1..]) by {
        forall i, j | 0 <= i < j < |ks[1..]| && ks[1..][i] in ins && ks[1..][j] in ins
          ensures FirstIndex(ins, ks[1..][i]) < FirstIndex(ins, ks[1..][j])
        {
          assert ks[1..][i] == ks[i + 1] && ks[1..][j] == ks[j + 1];
        }
      }
      NamedKeysInOrder(ins, ks[1..]);
      var rest := NamedKeys(ks[1..]);
      if !IsArrayIndex(ks[0]) {
        var r := [ks[0]] + rest;
        forall i, j | 0 <= i < j < |r| && r[i] in ins && r[j] in ins
          ensures FirstIndex(ins, r[i]) < FirstIndex(ins, r[j])
        {
          if i == 0 {
            assert r[j] == rest[j - 1] && rest[j - 1] in rest;
            var m :| 0 <= m < |ks[1..]| && ks[1..][m] == r[j];
            assert ks[m + 1] == r[j];
          } else {
            assert r[i] == rest[i - 1] && r[j] == rest[j - 1];
          }
        }
      }
    }
  }

  /** `k` inserted into keys in ascending numeric order, before the first key not below it. */
  function InsertIndex(k: string, ks: seq<string>): (r: seq<string>)
    ensures forall x :: x in r <==> x == k || x in ks
    ensures |r| == |ks| + 1
    ensures k !in ks && Distinct(ks) ==> Distinct(r)
  {
    if ks == [] || DigitsValue(k) <= DigitsValue(ks[0]) then [k] + ks
    else
      DistinctTail(ks);
      [ks[0]] + InsertIndex(k, ks[1..])
  }

  lemma {:induction false} DistinctTail(ks: seq<string>)
    requires ks != []
    ensures Distinct(ks) ==> Distinct(ks[1..]) && ks[0] !in ks[1..]
  {
    if Distinct(ks) {
      forall i, j | 0 <= i < j < |ks[1..]|
        ensures ks[1..][i] != ks[1..][j]
      {
        assert ks[1..][i] == ks[i + 1] && ks[1..][j] == ks[j + 1];
      }
      forall m | 0 <= m < |ks[1..]|
        ensures ks[1..][m] != ks[0]
      {
        assert ks[1..][m] == ks[m + 1];
      }
    }
  }

  /** Keys in ascending order of their numeric value. */
  predicate Ascending(ks: seq<string>)
  {
    forall i, j :: 0 <= i < j < |ks| ==> DigitsValue(ks[i]) <= DigitsValue(ks[j])
  }

  /** Every key of `ks` is worth at least `b`. */
  predicate AtLeast(b: nat, ks: seq<string>)
  {
    forall i :: 0 <= i < |ks| ==> b <= DigitsValue(ks[i])
  }

  lemma {:induction false} InsertIndexAtLeast(b: nat, k: string, ks: seq<string>)
    requires AtLeast(b, ks) && b <= DigitsValue(k)
    ensures AtLeast(b, InsertIndex(k, ks))
  {
    if ks != [] && DigitsValue(k) > DigitsValue(ks[0]) {
      InsertIndexAtLeast(b, k, ks[1..]);
      var rest := InsertIndex(k, ks[1..]);
      assert InsertIndex(k, ks) == [ks[0]] + rest;
    }
  }

  lemma {:induction false} InsertIndexAscending(k: string, ks: seq<string>)
    requires Ascending(ks)
    ensures Ascending(InsertIndex(k, ks))
  {
    if ks != [] && DigitsValue(k) > DigitsValue(ks[0]) {
      AscendingTail(ks);
      InsertIndexAscending(k, ks[1..]);
      InsertIndexAtLeast(DigitsValue(ks[0]), k, ks[1..]);
      ConsAscending(ks[0], InsertIndex(k, ks[1..]));
    }
  }

  lemma {:induction false} AscendingTail(ks: seq<string>)
    requires ks != [] && Ascending(ks)
    ensures Ascending(ks[1..]) && AtLeast(DigitsValue(ks[0]), ks[1..])
  {
    var tail := ks[1..];
    forall i | 0 <= i < |tail|
      ensures DigitsValue(ks[0]) <= DigitsValue(tail[i])
    {
      assert tail[i] == ks[i + 1];
    }
    forall i, j | 0 <= i < j < |tail|
      ensures DigitsValue(tail[i]) <= DigitsValue(tail[j])
    {
      assert tail[i] == ks[i + 1] && tail[j] == ks[j + 1];
    }
  }

  lemma {:induction false} ConsAscending(x: string, rest: seq<string>)
    requires Ascending(rest) && AtLeast(DigitsValue(x), rest)
    ensures Ascending([x] + rest)
  {
    var r := [x] + rest;
    forall i, j | 0 <= i < j < |r|
      ensures DigitsValue(r[i]) <= DigitsValue(r[j])
    {
      assert r[j] == rest[j - 1];
      if i > 0 {
        assert r[i] == rest[i - 1];
      }
    }
  }

  /** The array-index keys sorted by value. */
  function SortIndices(ks: seq<string>): (r: seq<string>)
    ensures forall x :: x in r <==> x in ks
    ensures Distinct(ks) ==> Distinct(r)
  {
    if ks == [] then []
    else
      DistinctTail(ks);
      InsertIndex(ks[0], SortIndices(ks[1..]))
  }

  lemma {:induction false} SortIndicesAscending(ks: seq<string>)
    ensures Ascending(SortIndices(ks))
  {
    if ks != [] {
      SortIndicesAscending(ks[1..]);
      InsertIndexAscending(ks[0], SortIndices(ks[1..]));
    }
  }

  // ---------------------------------------------------------------- Object.keys

  /** `Object.keys(o)` for an object whose properties were assigned in the order `ins`. */
  function KeysOf(ins: seq<string>): (r: seq<string>)
    ensures forall k :: k in r <==> k in ins
    ensures Distinct(r)
  {
    var seen := FirstSeen(ins);
    var indices, named := SortIndices(IndexKeys(seen)), NamedKeys(seen);
    var r := indices + named;
    forall i, j | 0 <= i < |indices| && 0 <= j < |named|
      ensures indices[i] != named[j]
    {
      assert indices[i] in indices && named[j] in named;
    }
    r
  }

  /** Array indices come before all other keys, ascending by value. */
  lemma {:induction false} KeysOfIndicesFirst(ins: seq<string>)
    ensures var r := KeysOf(ins);
      forall i, j :: 0 <= i < j < |r| && IsArrayIndex(r[j]) ==> IsArrayIndex(r[i]) && DigitsValue(r[i]) <= DigitsValue(r[j])
  {
    var r := KeysOf(ins);
    forall i, j | 0 <= i < j < |r| && IsArrayIndex(r[j])
      ensures IsArrayIndex(r[i]) && DigitsValue(r[i]) <= DigitsValue(r[j])
    {
      IndexPair(ins, i, j);
    }
  }

  lemma {:induction false} IndexPair(ins: seq<string>, i: nat, j: nat)
    requires i < j < |KeysOf(ins)| && IsArrayIndex(KeysOf(ins)[j])
    ensures IsArrayIndex(KeysOf(ins)[i]) && DigitsValue(KeysOf(ins)[i]) <= DigitsValue(KeysOf(ins)[j])
  {
    var seen := FirstSeen(ins);
    SortIndicesAscending(IndexKeys(seen));
    KeysOfParts(ins);
    ConcatIndexPair(SortIndices(IndexKeys(seen)), NamedKeys(seen), i, j);
  }

  lemma {:induction false} ConcatIndexPair(a: seq<string>, b: seq<string>, i: nat, j: nat)
    requires forall x :: x in a ==> IsArrayIndex(x)
    requires forall x :: x in b ==> !IsArrayIndex(x)
    requires Ascending(a)
    requires i < j < |a + b| && IsArrayIndex((a + b)[j])
    ensures IsArrayIndex((a + b)[i]) && DigitsValue((a + b)[i]) <= DigitsValue((a + b)[j])
  {
    var r := a + b;
    forall p | |a| <= p < |r|
      ensures !IsArrayIndex(r[p])
    {
      assert r[p] == b[p - |a|] && b[p - |a|] in b;
    }
    assert j < |a|;
    assert r[i] == a[i] && r[j] == a[j] && a[i] in a;
  }

  /** Every other key keeps the order in which it was first assigned, after all array indices. */
  lemma {:induction false} KeysOfNamedInOrder(ins: seq<string>)
    ensures var r := KeysOf(ins);
      forall i, j :: 0 <= i < j < |r| && !IsArrayIndex(r[i]) ==> !IsArrayIndex(r[j]) && FirstIndex(ins, r[i]) < FirstIndex(ins, r[j])
  {
    var r := KeysOf(ins);
    forall i, j | 0 <= i < j < |r| && !IsArrayIndex(r[i])
      ensures !IsArrayIndex(r[j]) && FirstIndex(ins, r[i]) < FirstIndex(ins, r[j])
    {
      NamedPair(ins, i, j);
    }
  }

  lemma {:induction false} NamedPair(ins: seq<string>, i: nat, j: nat)
    requires i < j < |KeysOf(ins)| && !IsArrayIndex(KeysOf(ins)[i])
    ensures !IsArrayIndex(KeysOf(ins)[j]) && FirstIndex(ins, KeysOf(ins)[i]) < FirstIndex(ins, KeysOf(ins)[j])
  {
    var seen := FirstSeen(ins);
    NamedKeysInOrder(ins, seen);
    KeysOfParts(ins);
    ConcatNamedPair(ins, SortIndices(IndexKeys(seen)), NamedKeys(seen), i, j);
  }

  lemma {:induction false} ConcatNamedPair(ins: seq<string>, a: seq<string>, b: seq<string>, i: nat, j: nat)
    requires forall x :: x in a ==> IsArrayIndex(x)
    requires forall x :: x in b ==> !IsArrayIndex(x) && x in ins
    requires SeenInOrder(ins, b)
    requires i < j < |a + b| && !IsArrayIndex((a + b)[i])
    ensures !IsArrayIndex((a + b)[j]) && (a + b)[i] in ins && (a + b)[j] in ins
    ensures FirstIndex(ins, (a + b)[i]) < FirstIndex(ins, (a + b)[j])
  {
    var r := a + b;
    forall p | 0 <= p < |a|
      ensures IsArrayIndex(r[p])
    {
      assert r[p] == a[p] && a[p] in a;
    }
    assert i >= |a|;
    assert r[i] == b[i - |a|] && r[j] == b[j - |a|];
    assert b[i - |a|] in b && b[j - |a|] in b;
  }

  /** A numeric bill number overtakes one added before it: "1001" is listed ahead of "INV-7". */
  lemma NumericKeyComesFirst()
    ensures KeysOf(["INV-7", "1001"]) == ["1001", "INV-7"]
  {
    var ins := ["INV-7", "1001"];
    var seen := FirstSeen(ins);
    TwoFirstSeen();
    TwoKinds(seen);
    OneSorted();
    KeysOfParts(ins);
  }

  lemma OneSorted()
    ensures SortIndices(["1001"]) == ["1001"]
  {
    assert ["1001"][1..] == [];
  }

  lemma KeysOfParts(ins: seq<string>)
    ensures KeysOf(ins) == SortIndices(IndexKeys(FirstSeen(ins))) + NamedKeys(FirstSeen(ins))
  {
  }

  lemma TwoFirstSeen()
    ensures FirstSeen(["INV-7", "1001"]) == ["INV-7", "1001"]
  {
    var ins := ["INV-7", "1001"];
    assert FirstSeen(["INV-7"]) == ["INV-7"] by {
      assert ["INV-7"][..0] == [];
    }
    assert ins[..1] == ["INV-7"];
    assert "1001" != "INV-7" by {
      assert "1001"[0] != "INV-7"[0];
    }
    assert "1001" !in ["INV-7"];
  }

  lemma TwoKinds(ks: seq<string>)
    requires ks == ["INV-7", "1001"]
    ensures IndexKeys(ks) == ["1001"] && NamedKeys(ks) == ["INV-7"]
  {
    assert !IsArrayIndex("INV-7") by {
      assert !IsDigit("INV-7"[0]);
    }
    ThousandAndOne();
    var t := ks[1..];
    assert t == ["1001"] && t[1..] == [];
    assert IndexKeys(t) == ["1001"] && NamedKeys(t) == [];
    assert IndexKeys(ks) == IndexKeys(t);
    assert NamedKeys(ks) == ["INV-7"] + NamedKeys(t);
  }

  lemma ThousandAndOne()
    ensures IsArrayIndex("1001")
  {
    var k := "1001";
    assert AllDigits(k) by {
      forall i | 0 <= i < |k|
        ensures IsDigit(k[i])
      {
      }
    }
    assert DigitsValue("1") == 1 by {
      assert "1"[..0] == "";
    }
    assert DigitsValue("10") == 10 by {
      assert "10"[..1] == "1";
    }
    assert DigitsValue("100") == 100 by {
      assert "100"[..2] == "10";
    }
    assert DigitsValue(k) == 1001 by {
      assert k[..3] == "100";
    }
  }
}
