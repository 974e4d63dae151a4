/** Ranking by a similarity score: a stable sort in descending order of
    score, truncation to the first K entries, and the facts both relevance
    filters rely on (order, permutation, stability, uniqueness of the
    sorted order when equal scores carry equal items). */
module Ranking {
  import opened PyValues

  datatype Scored<T> = Scored(score: real, item: T)

  ghost predicate SortedDesc<T>(xs: seq<Scored<T>>) {
    forall i, j :: 0 <= i < j < |xs| ==> xs[i].score >= xs[j].score
  }

  /** Inserts `x` in front of the first entry whose score does not exceed
      its own, so `x` stays ahead of later entries with an equal score. */
  function Insert<T>(x: Scored<T>, ys: seq<Scored<T>>): (r: seq<Scored<T>>)
    ensures |r| == |ys| + 1
  {
    if ys == [] || ys[0].score <= x.score then [x] + ys
    else [ys[0]] + Insert(x, ys[1..])
  }

  lemma {:induction false} InsertPermutes<T>(x: Scored<T>, ys: seq<Scored<T>>)
    ensures multiset(Insert(x, ys)) == multiset(ys) + multiset{x}
    decreases |ys|
  {
    if ys != [] && ys[0].score > x.score {
      InsertPermutes(x, ys[1..]);
      ConsTail(ys);
    }
  }

  /** Every entry of `Insert(x, ys)` is `x` or an entry of `ys`. */
  lemma {:induction false} InsertMembers<T>(x: Scored<T>, ys: seq<Scored<T>>, z: Scored<T>)
    requires z in Insert(x, ys)
    ensures z == x || z in ys
    decreases |ys|
  {
    if ys != [] && ys[0].score > x.score && z != ys[0] {
      var rest := Insert(x, ys[1..]);
      assert Insert(x, ys) == [ys[0]] + rest;
      assert z in rest;
      InsertMembers(x, ys[1..], z);
    }
  }

  /** A descending list stays descending under a head that scores at
      least as high as each of its entries. */
  lemma ConsSorted<T>(h: Scored<T>, rest: seq<Scored<T>>)
    requires SortedDesc(rest)
    requires forall z :: z in rest ==> h.score >= z.score
    ensures SortedDesc([h] + rest)
  {
    var r := [h] + rest;
    forall i, j | 0 <= i < j < |r| ensures r[i].score >= r[j].score {
      assert r[j] == rest[j - 1];
      if i > 0 {
        assert r[i] == rest[i - 1];
      }
    }
  }

  lemma {:induction false} InsertSorted<T>(x: Scored<T>, ys: seq<Scored<T>>)
    requires SortedDesc(ys)
    ensures SortedDesc(Insert(x, ys))
    ensures Insert(x, ys) != [] && (Insert(x, ys)[0] == x || (ys != [] && Insert(x, ys)[0] == ys[0]))
    decreases |ys|
  {
    if ys == [] || ys[0].score <= x.score {
      forall z | z in ys ensures x.score >= z.score {
        var k :| 0 <= k < |ys| && ys[k] == z;
      }
      ConsSorted(x, ys);
    } else {
      var tail := ys[1..];
      var rest := Insert(x, tail);
      InsertSorted(x, tail);
      forall z | z in rest ensures ys[0].score >= z.score {
        InsertMembers(x, tail, z);
        if z != x {
          var k :| 0 <= k < |tail| && tail[k] == z;
          assert ys[k + 1] == z;
        }
      }
      ConsSorted(ys[0], rest);
    }
  }

  /** `sorted(xs, key=score, reverse=True)`: stable, highest score first. */
  function SortDesc<T>(xs: seq<Scored<T>>): (r: seq<Scored<T>>)
    ensures multiset(r) == multiset(xs)
    ensures |r| == |xs|
    ensures SortedDesc(r)
  {
    if xs == [] then []
    else
      ConsTail(xs);
      InsertSorted(xs[0], SortDesc(xs[1..]));
      InsertPermutes(xs[0], SortDesc(xs[1..]));
      Insert(xs[0], SortDesc(xs[1..]))
  }

  /** The entries of `xs` that have score `s`, in order. */
  function WithScore<T>(xs: seq<Scored<T>>, s: real): seq<Scored<T>>
  {
    if xs == [] then []
    else (if xs[0].score == s then [xs[0]] else []) + WithScore(xs[1..], s)
  }

  lemma {:induction false} InsertWithScore<T>(x: Scored<T>, ys: seq<Scored<T>>, s: real)
    requires SortedDesc(ys)
    ensures WithScore(Insert(x, ys), s) == (if x.score == s then [x] else []) + WithScore(ys, s)
    decreases |ys|
  {
    if ys == [] || ys[0].score <= x.score {
      var r := [x] + ys;
      assert r[0] == x && r[1..] == ys;
      assert WithScore(r, s) == (if x.score == s then [x] else []) + WithScore(ys, s);
    } else {
      var rest := Insert(x, ys[1..]);
      var r := [ys[0]] + rest;
      assert r[0] == ys[0] && r[1..] == rest;
      InsertWithScore(x, ys[1..], s);
      var hd := if ys[0].score == s then [ys[0]] else [];
      var hx := if x.score == s then [x] else [];
      calc {
        WithScore(r, s);
        hd + WithScore(rest, s);
        hd + (hx + WithScore(ys[1..], s));
        { AppendAssoc(hx, hd, WithScore(ys[1..], s)); AppendAssoc(hd, hx, WithScore(ys[1..], s)); }
        hx + (hd + WithScore(ys[1..], s));
        hx + WithScore(ys, s);
      }
    }
  }

  /** Stability: among entries of equal score, SortDesc keeps input order. */
  lemma {:induction false} SortDescStable<T>(xs: seq<Scored<T>>, s: real)
    ensures WithScore(SortDesc(xs), s) == WithScore(xs, s)
    decreases |xs|
  {
    if xs != [] {
      SortDescStable(xs[1..], s);
      InsertWithScore(xs[0], SortDesc(xs[1..]), s);
    }
  }

  /** The first `k` entries, `xs[:k]`. */
  function Take<T>(xs: seq<T>, k: nat): (r: seq<T>)
    ensures |r| <= k && |r| <= |xs|
    ensures r == xs[..|r|]
    ensures |xs| <= k ==> r == xs
  {
    if |xs| <= k then xs else xs[..k]
  }

  /** The items, scores dropped: `[item for _, item in xs]`. */
  function Items<T>(xs: seq<Scored<T>>): (r: seq<T>)
    ensures |r| == |xs|
    ensures forall i :: 0 <= i < |xs| ==> r[i] == xs[i].item
  {
    if xs == [] then [] else [xs[0].item] + Items(xs[1..])
  }

  /** Entries that share a score are equal. Otherwise comparing two such
      `(score, item)` tuples makes Python compare the items themselves. */
  predicate TiesAgree<T(==)>(xs: seq<Scored<T>>) {
    forall i, j :: 0 <= i < |xs| && 0 <= j < |xs| && xs[i].score == xs[j].score ==> xs[i] == xs[j]
  }

  lemma HeadsAgree<T>(a: seq<Scored<T>>, b: seq<Scored<T>>)
    requires a != [] && multiset(a) == multiset(b)
    requires SortedDesc(a) && SortedDesc(b)
    requires TiesAgree(a)
    ensures b != [] && a[0] == b[0]
  {
    assert a[0] in multiset(b);
    var j :| 0 <= j < |b| && b[j] == a[0];
    assert b[0] in multiset(a);
    var i :| 0 <= i < |a| && a[i] == b[0];
    assert a[0].score >= a[i].score;
    assert b[0].score >= b[j].score;
  }

  lemma TailMultiset<T>(a: seq<T>)
    requires a != []
    ensures multiset(a[1..]) == multiset(a) - multiset{a[0]}
  {
    ConsTail(a);
    assert multiset(a) == multiset{a[0]} + multiset(a[1..]);
  }

  lemma TailOf<T>(a: seq<Scored<T>>, b: seq<Scored<T>>)
    requires a != [] && b != [] && a[0] == b[0] && multiset(a) == multiset(b)
    requires SortedDesc(a) && SortedDesc(b) && TiesAgree(a)
    ensures multiset(a[1..]) == multiset(b[1..])
    ensures SortedDesc(a[1..]) && SortedDesc(b[1..]) && TiesAgree(a[1..])
  {
    TailMultiset(a);
    TailMultiset(b);
  }

  /** With ties agreeing there is only one descending arrangement of a
      multiset of entries, so every sort agrees with SortDesc. */
  lemma {:induction false} SortedPermutationUnique<T>(a: seq<Scored<T>>, b: seq<Scored<T>>)
    requires multiset(a) == multiset(b)
    requires SortedDesc(a) && SortedDesc(b)
    requires TiesAgree(a)
    ensures a == b
    decreases |a|
  {
    if a == [] {
      assert |b| == |multiset(b)| == 0;
    } else {
      HeadsAgree(a, b);
      TailOf(a, b);
      SortedPermutationUnique(a[1..], b[1..]);
      assert a == [a[0]] + a[1..];
      assert b == [b[0]] + b[1..];
    }
  }

  /** An entry that is not among the first `k` of a descending list scores
      no higher than any entry that is. */
  lemma TakeIsTop<T>(xs: seq<Scored<T>>, k: nat, x: Scored<T>)
    requires SortedDesc(xs)
    requires x in xs && x !in Take(xs, k)
    ensures |Take(xs, k)| == k
    ensures forall y :: y in Take(xs, k) ==> y.score >= x.score
  {
    var j :| 0 <= j < |xs| && xs[j] == x;
    assert j >= |Take(xs, k)|;
    forall y | y in Take(xs, k) ensures y.score >= x.score {
      var i :| 0 <= i < |Take(xs, k)| && Take(xs, k)[i] == y;
      assert xs[i] == y;
    }
  }
}
