// Reciprocal rank fusion: a score table built from several ranked lists.
module RankFusion {
  import opened Ranking

  // What rank 1, 2, ... of a list is worth.
  function Share(k: nat, rank: nat): (r: real)
    requires rank >= 1
    ensures r > 0.0
  {
    1.0 / (k + rank) as real
  }

  // The definition: every occurrence of an id adds its share.
  ghost function ListShare(ranked: seq<Scored>, k: nat, id: Id): (r: real)
    ensures r >= 0.0
    ensures HasId(ranked, id) <==> r > 0.0
  {
    if ranked == [] then 0.0 else
      var n := |ranked| - 1;
      var earlier := ListShare(ranked[..n], k, id);
      assert HasId(ranked, id) <==> HasId(ranked[..n], id) || ranked[n].id == id by {
        if HasId(ranked[..n], id) {
          var i :| 0 <= i < n && ranked[..n][i].id == id;
          assert ranked[i].id == id;
        }
        if HasId(ranked, id) && ranked[n].id != id {
          var i :| 0 <= i < |ranked| && ranked[i].id == id;
          assert ranked[..n][i].id == id;
        }
      }
      earlier + if ranked[n].id == id then Share(k, n + 1) else 0.0
  }

  ghost function Fused(lists: seq<seq<Scored>>, k: nat, id: Id): (r: real)
    ensures r >= 0.0
  {
    if lists == [] then 0.0 else Fused(lists[..|lists| - 1], k, id) + ListShare(lists[|lists| - 1], k, id)
  }

  // The ids of all lists, one list after the other.
  function Ids(ranked: seq<Scored>): (ids: seq<Id>)
    ensures |ids| == |ranked| && forall i :: 0 <= i < |ids| ==> ids[i] == ranked[i].id
  {
    seq(|ranked|, i requires 0 <= i < |ranked| => ranked[i].id)
  }

  function Flat(lists: seq<seq<Scored>>): seq<Id> {
    if lists == [] then [] else Flat(lists[..|lists| - 1]) + Ids(lists[|lists| - 1])
  }

  function FirstAt(ids: seq<Id>, id: Id): (i: nat)
    ensures i <= |ids| && (i < |ids| ==> ids[i] == id) && forall j :: 0 <= j < i ==> ids[j] != id
    ensures i < |ids| <==> id in ids
  {
    if ids == [] || ids[0] == id then 0 else 1 + FirstAt(ids[1..], id)
  }

  // The table holds every id of the lists, in order of first occurrence.
  ghost predicate Keyed(t: Table, ids: seq<Id>) {
    && Valid(t)
    && (forall id :: id in t.score <==> id in ids)
    && (forall p, q :: 0 <= p < q < |t.order| ==> FirstAt(ids, t.order[p]) < FirstAt(ids, t.order[q]))
  }

  // The fused table: every id of any list with its fused score.
  ghost predicate IsFused(t: Table, lists: seq<seq<Scored>>, k: nat) {
    Keyed(t, Flat(lists)) && forall id :: Get(t, id) == Fused(lists, k, id)
  }

  // The same in the middle of a list.
  ghost predicate HalfFused(t: Table, before: seq<seq<Scored>>, part: seq<Scored>, k: nat) {
    Keyed(t, Flat(before) + Ids(part)) && forall id :: Get(t, id) == Fused(before, k, id) + ListShare(part, k, id)
  }

  // The output: the best topK of the fused table.
  ghost predicate IsFusion(lists: seq<seq<Scored>>, topK: nat, k: nat, ranked: seq<Scored>) {
    exists fused :: IsFused(fused, lists, k) && IsTop(fused, topK, ranked)
  }

  method Fuse(lists: seq<seq<Scored>>, topK: nat, k: nat) returns (ranked: seq<Scored>)
    ensures IsFusion(lists, topK, k, ranked)
  {
    var table := EMPTY;
    var i := 0;
    while i < |lists|
      invariant 0 <= i <= |lists|
      invariant IsFused(table, lists[..i], k)
    {
      var list := lists[i];
      StartList(table, lists[..i], list, k);
      var j := 0;
      while j < |list|
        invariant 0 <= j <= |list|
        invariant HalfFused(table, lists[..i], list[..j], k)
      {
        ghost var was := table;
        table := Add(table, list[j].id, Share(k, j + 1));
        AddKeeps(was, lists[..i], list, j, k);
        j := j + 1;
      }
      assert list[..j] == list && lists[..i + 1][..i] == lists[..i];
      i := i + 1;
    }
    assert lists[..i] == lists;
    ranked := Top(table, topK);
  }

  lemma StartList(t: Table, before: seq<seq<Scored>>, list: seq<Scored>, k: nat)
    requires IsFused(t, before, k)
    ensures HalfFused(t, before, list[..0], k)
  {
    assert list[..0] == [] && Flat(before) + Ids(list[..0]) == Flat(before);
  }

  lemma AddKeeps(t: Table, before: seq<seq<Scored>>, list: seq<Scored>, j: nat, k: nat)
    requires j < |list| && HalfFused(t, before, list[..j], k)
    ensures HalfFused(Add(t, list[j].id, Share(k, j + 1)), before, list[..j + 1], k)
  {
    assert list[..j + 1][..j] == list[..j];
    assert Flat(before) + Ids(list[..j + 1]) == (Flat(before) + Ids(list[..j])) + [list[j].id];
    AddKeyed(t, Flat(before) + Ids(list[..j]), list[j].id, Share(k, j + 1));
  }

  lemma FirstAtGrows(ids: seq<Id>, id: Id, x: Id)
    requires x in ids || x == id
    ensures FirstAt(ids + [id], x) == FirstAt(ids, x)
  {
    var grown := ids + [id];
    var n := FirstAt(ids, x);
    assert forall j :: 0 <= j < |ids| ==> grown[j] == ids[j];
    assert grown[|ids|] == id;
    assert grown[n] == x;
  }

  lemma AddKeyed(t: Table, ids: seq<Id>, id: Id, delta: real)
    requires Keyed(t, ids)
    ensures Keyed(Add(t, id, delta), ids + [id])
  {
    var r := Add(t, id, delta);
    forall x ensures x in r.score <==> x in ids + [id] {}
    forall p, q | 0 <= p < q < |r.order| ensures FirstAt(ids + [id], r.order[p]) < FirstAt(ids + [id], r.order[q]) {
      assert r.order[p] == t.order[p];
      assert t.order[p] in t.order;
      FirstAtGrows(ids, id, r.order[p]);
      if q < |t.order| {
        assert t.order[q] in t.order;
        assert r.order[q] == t.order[q];
      }
      FirstAtGrows(ids, id, r.order[q]);
    }
  }

  // ---- the theorems ----

  lemma {:induction false} FusedPositiveIff(lists: seq<seq<Scored>>, k: nat, id: Id)
    ensures Fused(lists, k, id) > 0.0 <==> id in Flat(lists)
  {
    if lists != [] {
      var n := |lists| - 1;
      FusedPositiveIff(lists[..n], k, id);
      var last := lists[n];
      if HasId(last, id) {
        var i :| 0 <= i < |last| && last[i].id == id;
        assert Ids(last)[i] == id;
      }
      if id in Ids(last) {
        var i :| 0 <= i < |last| && Ids(last)[i] == id;
        assert last[i].id == id;
      }
    }
  }

  ghost predicate Above(ranked: seq<Scored>, i: nat, j: nat, a: Id, b: Id) {
    i < j < |ranked| && ranked[i].id == a && ranked[j].id == b
  }

  // Wherever b stands, a stands higher.
  ghost predicate Dominates(ranked: seq<Scored>, a: Id, b: Id) {
    HasId(ranked, b) ==> exists i, j :: Above(ranked, i, j, a, b)
  }

  lemma {:induction false} ShareOfDistinct(ranked: seq<Scored>, k: nat, id: Id, i: nat)
    requires Distinct(ranked) && i < |ranked| && ranked[i].id == id
    ensures ListShare(ranked, k, id) == Share(k, i + 1)
    decreases |ranked|
  {
    var n := |ranked| - 1;
    if i < n {
      ShareOfDistinct(ranked[..n], k, id, i);
    } else {
      assert forall j :: 0 <= j < n ==> ranked[..n][j].id != id;
    }
  }

  lemma ShareFalls(k: nat, r: nat, s: nat)
    requires 1 <= r < s
    ensures Share(k, r) > Share(k, s)
  {
    var x, y := (k + r) as real, (k + s) as real;
    assert 1.0 / x - 1.0 / y == (y - x) / (x * y);
  }

  lemma ListDominance(ranked: seq<Scored>, k: nat, a: Id, b: Id)
    requires Distinct(ranked) && Dominates(ranked, a, b)
    ensures ListShare(ranked, k, a) >= ListShare(ranked, k, b)
    ensures HasId(ranked, b) ==> ListShare(ranked, k, a) > ListShare(ranked, k, b)
  {
    if HasId(ranked, b) {
      var i: nat, j: nat :| Above(ranked, i, j, a, b);
      ShareOfDistinct(ranked, k, a, i);
      ShareOfDistinct(ranked, k, b, j);
      ShareFalls(k, i + 1, j + 1);
    }
  }

  lemma {:induction false} Dominance(lists: seq<seq<Scored>>, k: nat, a: Id, b: Id)
    requires forall l :: l in lists ==> Distinct(l) && Dominates(l, a, b)
    ensures Fused(lists, k, a) >= Fused(lists, k, b)
    ensures b in Flat(lists) ==> Fused(lists, k, a) > Fused(lists, k, b)
  {
    FusedPositiveIff(lists, k, b);
    if lists != [] {
      var n := |lists| - 1;
      Dominance(lists[..n], k, a, b);
      FusedPositiveIff(lists[..n], k, b);
      ListDominance(lists[n], k, a, b);
    }
  }

  // An id that dominates another in every list comes out before it.
  lemma DominanceInOutput(lists: seq<seq<Scored>>, topK: nat, k: nat, ranked: seq<Scored>, a: Id, b: Id, j: nat)
    requires forall l :: l in lists ==> Distinct(l) && Dominates(l, a, b)
    requires IsFusion(lists, topK, k, ranked)
    requires j < |ranked| && ranked[j].id == b
    ensures exists i :: 0 <= i < j && ranked[i].id == a && ranked[i].score > ranked[j].score
  {
    var fused :| IsFused(fused, lists, k) && IsTop(fused, topK, ranked);
    DominanceInTop(lists, topK, k, fused, ranked, a, b, j);
  }

  lemma DominanceInTop(
    lists: seq<seq<Scored>>, topK: nat, k: nat, fused: Table, ranked: seq<Scored>, a: Id, b: Id, j: nat)
    requires forall l :: l in lists ==> Distinct(l) && Dominates(l, a, b)
    requires IsFused(fused, lists, k) && IsTop(fused, topK, ranked)
    requires j < |ranked| && ranked[j].id == b
    ensures exists i :: 0 <= i < j && ranked[i].id == a && ranked[i].score > ranked[j].score
  {
    TopFacts(fused, topK, ranked);
    assert b in fused.score && b in Flat(lists);
    Dominance(lists, k, a, b);
    FusedPositiveIff(lists, k, a);
    assert Get(fused, a) == Fused(lists, k, a) && Get(fused, b) == Fused(lists, k, b);
    assert a in fused.order && b in fused.order;
    var p :| 0 <= p < |fused.order| && fused.order[p] == a;
    var q :| 0 <= q < |fused.order| && fused.order[q] == b;
    TopOrder(fused, topK, ranked, p, q, j);
  }

  // The output: every entry has the sum of its shares, best first, nothing left out is better.
  lemma FusionFacts(lists: seq<seq<Scored>>, topK: nat, k: nat, ranked: seq<Scored>)
    requires IsFusion(lists, topK, k, ranked)
    ensures Distinct(ranked) && Descending(ranked) && |ranked| <= topK
    ensures forall i :: 0 <= i < |ranked| ==>
              ranked[i].id in Flat(lists) && ranked[i].score == Fused(lists, k, ranked[i].id)
    ensures forall id, i :: id in Flat(lists) && 0 <= i < |ranked| ==>
              HasId(ranked, id) || Fused(lists, k, id) <= ranked[i].score
    ensures |ranked| < topK ==> forall id :: id in Flat(lists) ==> HasId(ranked, id)
  {
    var fused :| IsFused(fused, lists, k) && IsTop(fused, topK, ranked);
    TopFacts(fused, topK, ranked);
    forall i | 0 <= i < |ranked|
      ensures ranked[i].id in Flat(lists) && ranked[i].score == Fused(lists, k, ranked[i].id)
    {
      assert ranked[i].id in fused.score;
      assert Get(fused, ranked[i].id) == Fused(lists, k, ranked[i].id);
    }
    forall id, i | id in Flat(lists) && 0 <= i < |ranked|
      ensures HasId(ranked, id) || Fused(lists, k, id) <= ranked[i].score
    {
      assert id in fused.score && Get(fused, id) == Fused(lists, k, id);
    }
    if |ranked| < topK {
      forall id | id in Flat(lists) ensures HasId(ranked, id) {
        AllListed(fused, topK, ranked, id);
      }
    }
  }

  // The lists alone fix the output: best score first, then first occurrence.
  lemma FusionIsUnique(lists: seq<seq<Scored>>, topK: nat, k: nat, ranked: seq<Scored>, other: seq<Scored>)
    requires IsFusion(lists, topK, k, ranked) && IsFusion(lists, topK, k, other)
    ensures ranked == other
  {
    var s :| IsFused(s, lists, k) && IsTop(s, topK, ranked);
    var t :| IsFused(t, lists, k) && IsTop(t, topK, other);
    SameTable(lists, k, s, t);
    TopIsUnique(s, topK, ranked, other);
  }

  lemma SameTable(lists: seq<seq<Scored>>, k: nat, s: Table, t: Table)
    requires IsFused(s, lists, k) && IsFused(t, lists, k)
    ensures s == t
  {
    assert s.score.Keys == t.score.Keys;
    forall id | id in s.score ensures s.score[id] == t.score[id] {
      assert Get(s, id) == Fused(lists, k, id) && Get(t, id) == Fused(lists, k, id);
    }
    SameOrder(s.order, t.order, Flat(lists));
  }

  lemma {:induction false} SameOrder(xs: seq<Id>, ys: seq<Id>, ids: seq<Id>)
    requires forall id :: id in xs <==> id in ys
    requires forall p, q :: 0 <= p < q < |xs| ==> FirstAt(ids, xs[p]) < FirstAt(ids, xs[q])
    requires forall p, q :: 0 <= p < q < |ys| ==> FirstAt(ids, ys[p]) < FirstAt(ids, ys[q])
    ensures xs == ys
  {
    if xs != [] {
      assert xs[0] in ys;
    }
    if ys != [] {
      assert ys[0] in xs;
    }
    if xs != [] {
      var p :| 0 <= p < |ys| && ys[p] == xs[0];
      var q :| 0 <= q < |xs| && xs[q] == ys[0];
      assert xs[0] == ys[0];
      HeadOnce(xs, ids);
      HeadOnce(ys, ids);
      SameOrder(xs[1..], ys[1..], ids);
    }
  }

  lemma HeadOnce(xs: seq<Id>, ids: seq<Id>)
    requires xs != []
    requires forall p, q :: 0 <= p < q < |xs| ==> FirstAt(ids, xs[p]) < FirstAt(ids, xs[q])
    ensures forall id :: id in xs[1..] <==> id in xs && id != xs[0]
  {
    assert xs == [xs[0]] + xs[1..];
    forall i | 0 <= i < |xs[1..]| ensures xs[1..][i] != xs[0] {
      assert FirstAt(ids, xs[0]) < FirstAt(ids, xs[i + 1]);
    }
  }

  // An id that stands once in a list, at rank p + 1, gets 1 / (k + p + 1) from it.
  lemma {:induction false} ShareOfRank(ranked: seq<Scored>, k: nat, id: Id, p: nat)
    requires p < |ranked| && forall q :: 0 <= q < |ranked| ==> (ranked[q].id == id <==> q == p)
    ensures ListShare(ranked, k, id) == 1.0 / (k + p + 1) as real
    decreases |ranked|
  {
    var n := |ranked| - 1;
    if p < n {
      ShareOfRank(ranked[..n], k, id, p);
    } else {
      assert !HasId(ranked[..n], id);
    }
  }
}
