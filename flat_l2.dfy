/** A reference for the exact search of a flat L2 vector index (the
    `IndexFlatL2` the retriever builds): squared Euclidean distance from the
    query to every stored vector, the `k` nearest returned in ascending order
    of distance, and the slots beyond the number of stored vectors padded with
    label -1. Ties go to the vector stored first. */
module FlatL2 {

  type Vector = seq<real>

  /** A squared L2 distance is never negative. */
  type Dist = d: real | 0.0 <= d witness 0.0

  /** One slot of a search result: `(distances[0][i], indices[0][i])`. */
  datatype SearchHit = SearchHit(distance: Dist, id: int)

  /** The stored vectors, in insertion order; `ntotal` is their number. */
  datatype FlatIndex = FlatIndex(vectors: seq<Vector>)

  /** Label of a slot that no stored vector fills. */
  const PAD_LABEL: int := -1
  /** Distance reported for such a slot: the largest finite float32. */
  const PAD_DISTANCE: Dist := 340282346638528859811704183484516925440.0

  function Square(x: real): (s: Dist)
  {
    if x < 0.0 then (-x) * (-x) else x * x
  }

  /** Squared Euclidean distance over the common dimensions. */
  function SquaredL2(a: Vector, b: Vector): Dist
  {
    if |a| == 0 || |b| == 0 then 0.0 else Square(a[0] - b[0]) + SquaredL2(a[1..], b[1..])
  }

  /** The distance from the query to each stored vector, by position. */
  function Distances(index: FlatIndex, query: Vector): (d: seq<Dist>)
    ensures |d| == |index.vectors|
  {
    seq(|index.vectors|, i requires 0 <= i < |index.vectors| => SquaredL2(index.vectors[i], query))
  }

  /** What a slot holds when no stored vector fills it. */
  const PAD_HIT: SearchHit := SearchHit(PAD_DISTANCE, PAD_LABEL)

  /** Candidate positions: each names a stored vector. */
  predicate Candidates(d: seq<Dist>, rem: set<int>)
  {
    forall x :: x in rem ==> 0 <= x < |d|
  }

  /** Position `x` is listed before position `y`: nearer, or as near and
      stored no later. */
  predicate Before(d: seq<Dist>, x: int, y: int)
    requires 0 <= x < |d| && 0 <= y < |d|
  {
    d[x] < d[y] || (d[x] == d[y] && x <= y)
  }

  lemma SomeMember(s: set<int>)
    requires s != {}
    ensures exists y :: y in s
  {
    if forall y :: y !in s {
      assert false;
    }
  }

  /** The nearest candidate; of equally near ones, the one stored first. */
  ghost function Nearest(d: seq<Dist>, rem: set<int>): (x: int)
    requires rem != {} && Candidates(d, rem)
    ensures x in rem
    ensures forall y :: y in rem ==> Before(d, x, y)
    decreases rem
  {
    SomeMember(rem);
    var y :| y in rem;
    var rest := rem - {y};
    assert forall w :: w in rem ==> w == y || w in rest;
    if rest == {} then y
    else
      var z := Nearest(d, rest);
      if Before(d, y, z) then
        assert forall w :: w in rest ==> Before(d, z, w) && Before(d, y, w);
        y
      else
        assert Before(d, z, y);
        z
  }

  /** `k` slots: the nearest candidates in order, then padding once the
      candidates run out. */
  ghost function Select(d: seq<Dist>, rem: set<int>, k: nat): (hits: seq<SearchHit>)
    requires Candidates(d, rem)
    ensures |hits| == k
    decreases k
  {
    if k == 0 then []
    else if rem == {} then [PAD_HIT] + Select(d, rem, k - 1)
    else
      var x := Nearest(d, rem);
      [SearchHit(d[x], x)] + Select(d, rem - {x}, k - 1)
  }

  /** The positions of `n` stored vectors: `0` up to `n - 1`. */
  function Positions(n: nat): set<int>
  {
    if n == 0 then {} else Positions(n - 1) + {n - 1}
  }

  lemma {:induction false} PositionsMembers(n: nat)
    ensures forall x :: x in Positions(n) <==> 0 <= x < n
    ensures |Positions(n)| == n
  {
    if n > 0 {
      PositionsMembers(n - 1);
      assert n - 1 !in Positions(n - 1);
    }
  }

  /** `index.search(query, k)` on a flat L2 index, for one query. */
  ghost function Search(index: FlatIndex, query: Vector, k: nat): (hits: seq<SearchHit>)
    ensures |hits| == k
    ensures Filled(hits, Min(k, |index.vectors|))
    ensures forall j :: 0 <= j < Min(k, |index.vectors|) ==>
      0 <= hits[j].id < |index.vectors| && hits[j].distance == SquaredL2(index.vectors[hits[j].id], query)
    ensures forall a, b :: 0 <= a < b < Min(k, |index.vectors|) ==> hits[a].distance <= hits[b].distance
  {
    PositionsMembers(|index.vectors|);
    SelectShape(Distances(index, query), Positions(|index.vectors|), k);
    SelectSorted(Distances(index, query), Positions(|index.vectors|), k);
    Select(Distances(index, query), Positions(|index.vectors|), k)
  }

  function Min(a: nat, b: nat): nat
  {
    if a <= b then a else b
  }

  /** The first `m` slots name stored vectors and the rest are padding. */
  predicate Filled(hits: seq<SearchHit>, m: nat)
    requires m <= |hits|
  {
    (forall j :: 0 <= j < m ==> hits[j].id >= 0)
    && (forall j :: m <= j < |hits| ==> hits[j] == PAD_HIT)
  }

  /** With no candidate left, every slot is padding. */
  lemma {:induction false} SelectPadding(d: seq<Dist>, k: nat)
    ensures forall i :: 0 <= i < k ==> Select(d, {}, k)[i] == PAD_HIT
    decreases k
  {
    if k > 0 {
      SelectPadding(d, k - 1);
      forall i | 0 < i < k ensures Select(d, {}, k)[i] == PAD_HIT {
        assert Select(d, {}, k)[i] == Select(d, {}, k - 1)[i - 1];
      }
    }
  }

  lemma {:induction false} SelectFilled(d: seq<Dist>, rem: set<int>, k: nat)
    requires Candidates(d, rem)
    ensures Filled(Select(d, rem, k), Min(k, |rem|))
    decreases k
  {
    if k > 0 {
      var hits := Select(d, rem, k);
      var m := Min(k, |rem|);
      if rem == {} {
        SelectPadding(d, k);
      } else {
        var x := Nearest(d, rem);
        var rest := rem - {x};
        var tail := Select(d, rest, k - 1);
        assert hits == [SearchHit(d[x], x)] + tail;
        SelectFilled(d, rest, k - 1);
        assert Min(k - 1, |rest|) == m - 1;
        forall i | 0 <= i < m ensures hits[i].id >= 0 {
          if i > 0 {
            assert hits[i] == tail[i - 1];
          }
        }
        forall i | m <= i < k ensures hits[i] == PAD_HIT {
          assert hits[i] == tail[i - 1];
        }
      }
    }
  }

  lemma {:induction false} SelectFromCandidates(d: seq<Dist>, rem: set<int>, k: nat)
    requires Candidates(d, rem)
    ensures forall i :: 0 <= i < Min(k, |rem|) ==>
      Select(d, rem, k)[i].id in rem && Select(d, rem, k)[i].distance == d[Select(d, rem, k)[i].id]
    decreases k
  {
    if k > 0 && rem != {} {
      var hits := Select(d, rem, k);
      var m := Min(k, |rem|);
      var x := Nearest(d, rem);
      var rest := rem - {x};
      var tail := Select(d, rest, k - 1);
      assert hits == [SearchHit(d[x], x)] + tail;
      SelectFromCandidates(d, rest, k - 1);
      assert Min(k - 1, |rest|) == m - 1;
      forall i | 0 <= i < m ensures hits[i].id in rem && hits[i].distance == d[hits[i].id] {
        if i > 0 {
          assert hits[i] == tail[i - 1];
        }
      }
    }
  }

  lemma {:induction false} SelectDistinct(d: seq<Dist>, rem: set<int>, k: nat)
    requires Candidates(d, rem)
    ensures forall a, b :: 0 <= a < b < Min(k, |rem|) ==> Select(d, rem, k)[a].id != Select(d, rem, k)[b].id
    decreases k
  {
    if k > 0 && rem != {} {
      var hits := Select(d, rem, k);
      var m := Min(k, |rem|);
      var x := Nearest(d, rem);
      var rest := rem - {x};
      var tail := Select(d, rest, k - 1);
      assert hits == [SearchHit(d[x], x)] + tail;
      SelectDistinct(d, rest, k - 1);
      SelectFromCandidates(d, rest, k - 1);
      assert Min(k - 1, |rest|) == m - 1;
      forall a, b | 0 <= a < b < m ensures hits[a].id != hits[b].id {
        assert hits[b] == tail[b - 1];
        if a > 0 {
          assert hits[a] == tail[a - 1];
        }
      }
    }
  }

  /** Exactly `k` slots; the first `min(k, |rem|)` name candidates, at their own
      distance and each once; the rest are padding. */
  lemma SelectShape(d: seq<Dist>, rem: set<int>, k: nat)
    requires Candidates(d, rem)
    ensures |Select(d, rem, k)| == k
    ensures Filled(Select(d, rem, k), Min(k, |rem|))
    ensures forall j :: 0 <= j < Min(k, |rem|) ==>
      Select(d, rem, k)[j].id in rem && Select(d, rem, k)[j].distance == d[Select(d, rem, k)[j].id]
    ensures forall i, j :: 0 <= i < j < Min(k, |rem|) ==> Select(d, rem, k)[i].id != Select(d, rem, k)[j].id
  {
    SelectFilled(d, rem, k);
    SelectFromCandidates(d, rem, k);
    SelectDistinct(d, rem, k);
  }

  /** Filled slots come in non-decreasing order of distance. */
  lemma {:induction false} SelectSorted(d: seq<Dist>, rem: set<int>, k: nat)
    requires Candidates(d, rem)
    ensures forall a, b :: 0 <= a < b < Min(k, |rem|) ==>
      Select(d, rem, k)[a].distance <= Select(d, rem, k)[b].distance
    decreases k
  {
    if k > 0 && rem != {} {
      var hits := Select(d, rem, k);
      var m := Min(k, |rem|);
      var x := Nearest(d, rem);
      var rest := rem - {x};
      var tail := Select(d, rest, k - 1);
      assert hits == [SearchHit(d[x], x)] + tail;
      SelectSorted(d, rest, k - 1);
      SelectFromCandidates(d, rest, k - 1);
      assert Min(k - 1, |rest|) == m - 1;
      forall a, b | 0 <= a < b < m ensures hits[a].distance <= hits[b].distance {
        assert hits[b] == tail[b - 1];
        if a > 0 {
          assert hits[a] == tail[a - 1];
        } else {
          assert tail[b - 1].id in rem;
        }
      }
    }
  }

  /** No candidate left out is nearer than any returned slot, and a candidate
      is only left out when there are more than `k` of them. */
  lemma {:induction false} SelectExact(d: seq<Dist>, rem: set<int>, k: nat, p: int)
    requires Candidates(d, rem) && p in rem
    ensures (forall j :: 0 <= j < Min(k, |rem|) ==> Select(d, rem, k)[j].id != p)
      ==> k < |rem| && forall j :: 0 <= j < k ==> Select(d, rem, k)[j].distance <= d[p]
    decreases k
  {
    if k > 0 {
      var hits := Select(d, rem, k);
      var x := Nearest(d, rem);
      var rest := rem - {x};
      var tail := Select(d, rest, k - 1);
      assert hits == [SearchHit(d[x], x)] + tail;
      assert hits[0].id == x;
      if p != x && (forall i :: 0 <= i < Min(k, |rem|) ==> hits[i].id != p) {
        assert Min(k - 1, |rest|) == Min(k, |rem|) - 1;
        forall i | 0 <= i < Min(k - 1, |rest|) ensures tail[i].id != p {
          assert hits[i + 1] == tail[i];
        }
        SelectExact(d, rest, k - 1, p);
        forall i | 1 <= i < k ensures hits[i].distance <= d[p] {
          assert hits[i] == tail[i - 1];
        }
      }
    }
  }
}
