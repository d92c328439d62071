/** Cutting a list after every element that ends a batch, as partition_path_at_waits does. */
module Cutting {

  function Flatten<T>(batches: seq<seq<T>>): seq<T> {
    if batches == [] then [] else batches[0] + Flatten(batches[1..])
  }

  /** What is left of the list, with the batch collected so far. */
  function Pieces<T>(s: seq<T>, ends: T -> bool, batch: seq<T>): seq<seq<T>> {
    if s == [] then (if batch == [] then [] else [batch])
    else if ends(s[0]) then [batch + [s[0]]] + Pieces(s[1..], ends, [])
    else Pieces(s[1..], ends, batch + [s[0]])
  }

  function Cut<T>(s: seq<T>, ends: T -> bool): seq<seq<T>> {
    Pieces(s, ends, [])
  }

  /** No batch is empty; an ending element closes its batch; every batch but the last is closed by one. */
  ghost predicate CutAtEnds<T>(batches: seq<seq<T>>, ends: T -> bool) {
    && (forall b :: 0 <= b < |batches| ==> batches[b] != [])
    && (forall b, i :: 0 <= b < |batches| && 0 <= i < |batches[b]| - 1 ==> !ends(batches[b][i]))
    && (forall b :: 0 <= b < |batches| - 1 ==> ends(batches[b][|batches[b]| - 1]))
  }

  predicate NoneEnds<T>(s: seq<T>, ends: T -> bool) {
    forall i :: 0 <= i < |s| ==> !ends(s[i])
  }

  lemma {:induction false} PiecesAreExact<T>(s: seq<T>, ends: T -> bool, batch: seq<T>)
    requires NoneEnds(batch, ends)
    ensures Flatten(Pieces(s, ends, batch)) == batch + s
    ensures CutAtEnds(Pieces(s, ends, batch), ends)
    ensures batch + s != [] ==> Pieces(s, ends, batch) != []
    decreases s
  {
    if s != [] {
      if ends(s[0]) {
        PiecesAreExact(s[1..], ends, []);
        var rest := Pieces(s[1..], ends, []);
        assert ([batch + [s[0]]] + rest)[1..] == rest;
        assert s == [s[0]] + s[1..];
      } else {
        PiecesAreExact(s[1..], ends, batch + [s[0]]);
        assert batch + s == batch + [s[0]] + s[1..];
      }
    } else if batch != [] {
      assert [batch][1..] == [];
      assert Flatten([batch]) == batch + Flatten([]);
    }
  }

  /** The cut covers the list in order and is made exactly at the ending elements. */
  lemma {:induction false} CutIsExact<T>(s: seq<T>, ends: T -> bool)
    ensures Flatten(Cut(s, ends)) == s && CutAtEnds(Cut(s, ends), ends)
    ensures s != [] ==> Cut(s, ends) != []
  {
    PiecesAreExact(s, ends, []);
  }

  lemma {:induction false} PiecesSkip<T>(s: seq<T>, ends: T -> bool, batch: seq<T>, rest: seq<T>)
    requires NoneEnds(s, ends)
    ensures Pieces(s + rest, ends, batch) == Pieces(rest, ends, batch + s)
  {
    if s == [] {
      assert s + rest == rest && batch + s == batch;
    } else {
      assert (s + rest)[1..] == s[1..] + rest;
      assert batch + [s[0]] + s[1..] == batch + s;
      PiecesSkip(s[1..], ends, batch + [s[0]], rest);
    }
  }

  /** Nothing else has these properties. */
  lemma {:induction false} CutIsUnique<T>(batches: seq<seq<T>>, ends: T -> bool)
    requires CutAtEnds(batches, ends)
    ensures Cut(Flatten(batches), ends) == batches
  {
    if batches != [] {
      var first, rest := batches[0], batches[1..];
      var n := |first| - 1;
      CutIsUnique(rest, ends);
      assert first + Flatten(rest) == first[..n] + ([first[n]] + Flatten(rest));
      PiecesSkip(first[..n], ends, [], [first[n]] + Flatten(rest));
      assert [] + first[..n] == first[..n] && first[..n] + [first[n]] == first;
      assert ([first[n]] + Flatten(rest))[1..] == Flatten(rest);
      if rest == [] && !ends(first[n]) {
        assert Flatten(batches) == first;
        assert Pieces([first[n]], ends, first[..n]) == Pieces([], ends, first);
      }
    }
  }

  lemma {:induction false} FlattenConcat<T>(a: seq<seq<T>>, b: seq<seq<T>>)
    ensures Flatten(a + b) == Flatten(a) + Flatten(b)
  {
    if a == [] {
      assert a + b == b;
    } else {
      assert (a + b)[1..] == a[1..] + b;
      FlattenConcat(a[1..], b);
    }
  }

  lemma {:induction false} FlattenLast<T>(a: seq<seq<T>>)
    requires a != []
    ensures Flatten(a) == Flatten(a[..|a| - 1]) + a[|a| - 1]
  {
    assert a == a[..|a| - 1] + [a[|a| - 1]];
    FlattenConcat(a[..|a| - 1], [a[|a| - 1]]);
    assert [a[|a| - 1]][1..] == [];
  }

  function Offset<T>(batches: seq<seq<T>>, b: nat): nat
    requires b <= |batches|
  {
    |Flatten(batches[..b])|
  }

  /** A batch is a stretch of the list, right after the one before it. */
  lemma {:induction false} BatchIsStretch<T>(batches: seq<seq<T>>, b: nat)
    requires b < |batches|
    ensures Offset(batches, b) + |batches[b]| <= |Flatten(batches)|
    ensures forall i :: 0 <= i < |batches[b]| ==> batches[b][i] == Flatten(batches)[Offset(batches, b) + i]
    ensures b == 0 ==> Offset(batches, b) == 0
    ensures b > 0 && batches[b - 1] != [] ==>
              Offset(batches, b) > 0 && Flatten(batches)[Offset(batches, b) - 1] == batches[b - 1][|batches[b - 1]| - 1]
  {
    var before, after := batches[..b], batches[b + 1..];
    assert batches == before + ([batches[b]] + after);
    FlattenConcat(before, [batches[b]] + after);
    assert ([batches[b]] + after)[1..] == after;
    assert Flatten(batches) == Flatten(before) + (batches[b] + Flatten(after));
    if b > 0 {
      FlattenLast(before);
      assert before[|before| - 1] == batches[b - 1];
    }
  }

  /** Every position of the list lies in some batch. */
  lemma {:induction false} Locate<T>(batches: seq<seq<T>>, p: nat) returns (b: nat, i: nat)
    requires p < |Flatten(batches)|
    ensures b < |batches| && i < |batches[b]| && p == Offset(batches, b) + i
  {
    if p < |batches[0]| {
      b, i := 0, p;
    } else {
      b, i := Locate(batches[1..], p - |batches[0]|);
      assert batches[..b + 1][1..] == batches[1..][..b];
      b := b + 1;
    }
  }

  /** An element of a batch comes right after its neighbour there, or after the element that closed the batch before. */
  lemma {:induction false} Predecessor<T>(batches: seq<seq<T>>, ends: T -> bool, b: nat, i: nat)
    requires CutAtEnds(batches, ends) && b < |batches| && i < |batches[b]|
    ensures var s, p := Flatten(batches), Offset(batches, b) + i;
            && p < |s| && batches[b][i] == s[p]
            && (i > 0 ==> batches[b][i - 1] == s[p - 1])
            && (i == 0 && p > 0 ==> ends(s[p - 1]))
  {
    BatchIsStretch(batches, b);
  }

  /** The last batch of `p` continued by the first of `q`. */
  function Seam<T>(p: seq<seq<T>>, q: seq<seq<T>>): seq<seq<T>>
    requires p != [] && q != []
  {
    p[..|p| - 1] + [p[|p| - 1] + q[0]] + q[1..]
  }

  predicate EndsLast<T>(s: seq<T>, ends: T -> bool) {
    s != [] ==> ends(s[|s| - 1])
  }

  lemma {:induction false} LastBatchEnds<T>(s: seq<T>, ends: T -> bool)
    requires s != []
    ensures var p := Cut(s, ends); p != [] && p[|p| - 1] != [] && p[|p| - 1][|p[|p| - 1]| - 1] == s[|s| - 1]
  {
    CutIsExact(s, ends);
    FlattenLast(Cut(s, ends));
  }

  /** Cutting two lists one after the other, when the first ends in a cut. */
  lemma {:induction false} CutSeparates<T>(a: seq<T>, b: seq<T>, ends: T -> bool)
    requires EndsLast(a, ends)
    ensures Cut(a + b, ends) == Cut(a, ends) + Cut(b, ends)
  {
    var p, q := Cut(a, ends), Cut(b, ends);
    CutIsExact(a, ends);
    CutIsExact(b, ends);
    if a != [] {
      LastBatchEnds(a, ends);
    }
    FlattenConcat(p, q);
    hide Cut, Flatten;
    CutIsUnique(p + q, ends);
  }

  /** And when it does not: the two batches at the seam become one. */
  lemma {:induction false} CutJoins<T>(a: seq<T>, b: seq<T>, ends: T -> bool)
    requires a != [] && b != [] && !EndsLast(a, ends)
    ensures Cut(a, ends) != [] && Cut(b, ends) != []
    ensures Cut(a + b, ends) == Seam(Cut(a, ends), Cut(b, ends))
  {
    var p, q := Cut(a, ends), Cut(b, ends);
    CutIsExact(a, ends);
    CutIsExact(b, ends);
    LastBatchEnds(a, ends);
    SeamFlattens(p, q);
    SeamIsCut(p, q, ends);
    CutIsUnique(Seam(p, q), ends);
  }

  lemma {:induction false} SeamFlattens<T>(p: seq<seq<T>>, q: seq<seq<T>>)
    requires p != [] && q != []
    ensures Flatten(Seam(p, q)) == Flatten(p) + Flatten(q)
  {
    var n := |p| - 1;
    FlattenLast(p);
    FlattenConcat(p[..n] + [p[n] + q[0]], q[1..]);
    FlattenLast(p[..n] + [p[n] + q[0]]);
    assert (p[..n] + [p[n] + q[0]])[..n] == p[..n];
  }

  lemma {:induction false} SeamIsCut<T>(p: seq<seq<T>>, q: seq<seq<T>>, ends: T -> bool)
    requires p != [] && q != [] && CutAtEnds(p, ends) && CutAtEnds(q, ends)
    requires !ends(p[|p| - 1][|p[|p| - 1]| - 1])
    ensures CutAtEnds(Seam(p, q), ends)
  {
    var n, r := |p| - 1, Seam(p, q);
    assert forall b :: 0 <= b < n ==> r[b] == p[b];
    assert forall b :: n < b < |r| ==> r[b] == q[b - n];
    assert r[n] == p[n] + q[0];
  }

  // Cutting commutes with a map.

  function Map<T, U>(s: seq<T>, f: T -> U): (r: seq<U>)
    ensures |r| == |s| && forall i :: 0 <= i < |r| ==> r[i] == f(s[i])
  {
    seq(|s|, i requires 0 <= i < |s| => f(s[i]))
  }

  function MapAll<T, U>(batches: seq<seq<T>>, f: T -> U): (r: seq<seq<U>>)
    ensures |r| == |batches| && forall b :: 0 <= b < |r| ==> r[b] == Map(batches[b], f)
  {
    seq(|batches|, b requires 0 <= b < |batches| => Map(batches[b], f))
  }

  lemma {:induction false} MapFlattens<T, U>(batches: seq<seq<T>>, f: T -> U)
    ensures Flatten(MapAll(batches, f)) == Map(Flatten(batches), f)
  {
    if batches != [] {
      MapFlattens(batches[1..], f);
      assert MapAll(batches, f)[1..] == MapAll(batches[1..], f);
    }
  }

  lemma {:induction false} CutOfMap<T, U>(s: seq<T>, f: T -> U, ends: T -> bool, ends': U -> bool)
    requires forall i :: 0 <= i < |s| ==> ends(s[i]) == ends'(f(s[i]))
    ensures Cut(Map(s, f), ends') == MapAll(Cut(s, ends), f)
  {
    var p := Cut(s, ends);
    CutIsExact(s, ends);
    MapFlattens(p, f);
    BatchesWithin(p);
    CutIsUnique(MapAll(p, f), ends');
  }

  /** Every element of a batch is an element of the list. */
  lemma {:induction false} BatchesWithin<T>(batches: seq<seq<T>>)
    ensures forall b, i :: 0 <= b < |batches| && 0 <= i < |batches[b]| ==> batches[b][i] in Flatten(batches)
  {
    if batches != [] {
      BatchesWithin(batches[1..]);
      forall b, i | 0 <= b < |batches| && 0 <= i < |batches[b]|
        ensures batches[b][i] in Flatten(batches)
      {
        if b > 0 {
          assert batches[b] == batches[1..][b - 1];
          assert batches[1..][b - 1][i] in Flatten(batches[1..]);
        }
      }
    }
  }

  // Counting.

  function Length<T>(batches: seq<seq<T>>): nat {
    if batches == [] then 0 else |batches[0]| + Length(batches[1..])
  }

  lemma {:induction false} FlattenLength<T>(batches: seq<seq<T>>)
    ensures Length(batches) == |Flatten(batches)|
  {
    if batches != [] {
      FlattenLength(batches[1..]);
    }
  }

  function Count<T>(s: seq<T>, ends: T -> bool): nat {
    if s == [] then 0 else (if ends(s[0]) then 1 else 0) + Count(s[1..], ends)
  }

  lemma {:induction false} PiecesCount<T>(s: seq<T>, ends: T -> bool, batch: seq<T>)
    requires NoneEnds(batch, ends)
    ensures |Pieces(s, ends, batch)| ==
            Count(s, ends) + (if batch + s == [] || (s != [] && ends(s[|s| - 1])) then 0 else 1)
    decreases s
  {
    if s != [] {
      PiecesCount(s[1..], ends, if ends(s[0]) then [] else batch + [s[0]]);
    }
  }

  /** There is one batch per ending element, and one more for a rest that does not end in one. */
  lemma {:induction false} CutCount<T>(s: seq<T>, ends: T -> bool)
    ensures |Cut(s, ends)| == Count(s, ends) + (if EndsLast(s, ends) then 0 else 1)
  {
    PiecesCount(s, ends, []);
    assert [] + s == s;
  }
}
