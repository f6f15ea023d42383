// Score tables (dictionaries of floats, which keep insertion order) and the stable
// descending sort both rankings end with.
module Ranking {
  type Id = string

  datatype Scored = Scored(id: Id, score: real)

  // A dictionary of scores: its keys in the order of their insertion.
  datatype Table = Table(order: seq<Id>, score: map<Id, real>)

  const EMPTY := Table([], map[])

  ghost predicate Valid(t: Table) {
    && (forall i, j :: 0 <= i < j < |t.order| ==> t.order[i] != t.order[j])
    && (forall id :: id in t.order <==> id in t.score)
  }

  function Get(t: Table, id: Id): real {
    if id in t.score then t.score[id] else 0.0
  }

  // d[id] = d.get(id, 0.0) + delta
  function Add(t: Table, id: Id, delta: real): (r: Table)
    ensures Valid(t) ==> Valid(r)
  {
    Table(if id in t.score then t.order else t.order + [id], t.score[id := Get(t, id) + delta])
  }

  // The order of a stable sort on descending values, as positions in the input.
  predicate Ahead(values: seq<real>, p: nat, q: nat)
    requires p < |values| && q < |values|
  {
    values[p] > values[q] || (values[p] == values[q] && p < q)
  }

  ghost predicate Sorted(values: seq<real>, perm: seq<nat>) {
    && (forall i :: 0 <= i < |perm| ==> perm[i] < |values|)
    && (forall i, j :: 0 <= i < j < |perm| ==> Ahead(values, perm[i], perm[j]))
  }

  method SortPositions(values: seq<real>) returns (perm: seq<nat>)
    ensures Sorted(values, perm) && |perm| == |values|
    ensures forall p :: 0 <= p < |values| ==> p in perm
  {
    perm := [];
    for n := 0 to |values|
      invariant Sorted(values, perm) && |perm| == n
      invariant forall p :: p in perm <==> 0 <= p < n
    {
      var at := n;
      while at > 0 && values[perm[at - 1]] < values[n]
        invariant 0 <= at <= n
        invariant forall i :: at <= i < n ==> values[perm[i]] < values[n]
      {
        at := at - 1;
      }
      ghost var was := perm;
      perm := perm[..at] + [n] + perm[at..];
      InsertedMembers(was, at, n);
      assert forall i :: 0 <= i < n ==> was[i] in was;
      InsertedOrder(values, was, at, n);
    }
  }

  lemma InsertedMembers(was: seq<nat>, at: nat, n: nat)
    requires at <= |was|
    requires forall p :: p in was <==> 0 <= p < n
    ensures forall p :: p in was[..at] + [n] + was[at..] <==> 0 <= p < n + 1
  {
    assert was == was[..at] + was[at..];
    forall p ensures p in was[..at] + [n] + was[at..] <==> p in was || p == n {}
  }

  lemma InsertedOrder(values: seq<real>, was: seq<nat>, at: nat, n: nat)
    requires n < |values| && |was| == n && at <= n && Sorted(values, was)
    requires forall i :: 0 <= i < n ==> was[i] < n
    requires at > 0 ==> values[was[at - 1]] >= values[n]
    requires forall i :: at <= i < n ==> values[was[i]] < values[n]
    ensures Sorted(values, was[..at] + [n] + was[at..])
  {
    var left, right := was[..at], was[at..];
    forall i | 0 <= i < at ensures Ahead(values, left[i], n) {
      assert i < at - 1 ==> Ahead(values, was[i], was[at - 1]);
    }
    Joined(values, left, n, right);
  }

  lemma Joined(values: seq<real>, left: seq<nat>, n: nat, right: seq<nat>)
    requires n < |values| && Sorted(values, left) && Sorted(values, right)
    requires forall i :: 0 <= i < |left| ==> Ahead(values, left[i], n)
    requires forall i :: 0 <= i < |right| ==> Ahead(values, n, right[i])
    requires forall i, j :: 0 <= i < |left| && 0 <= j < |right| ==> Ahead(values, left[i], right[j])
    ensures Sorted(values, left + [n] + right)
  {
    var perm, at := left + [n] + right, |left|;
    forall i | 0 <= i < |perm|
      ensures perm[i] == if i < at then left[i] else if i == at then n else right[i - at - 1]
    {}
  }

  // The first k of all keys, best score first and, among equals, first inserted first.
  ghost predicate IsTop(t: Table, k: nat, out: seq<Scored>) {
    && |out| == (if k < |t.order| then k else |t.order|)
    && exists perm :: IsTopBy(t, out, perm)
  }

  function Values(t: Table): (v: seq<real>)
    ensures |v| == |t.order|
  {
    seq(|t.order|, i requires 0 <= i < |t.order| => Get(t, t.order[i]))
  }

  ghost predicate IsTopBy(t: Table, out: seq<Scored>, perm: seq<nat>) {
    && Sorted(Values(t), perm) && |perm| == |t.order| && |out| <= |perm|
    && (forall p :: 0 <= p < |t.order| ==> p in perm)
    && (forall i :: 0 <= i < |out| ==> out[i] == Scored(t.order[perm[i]], Values(t)[perm[i]]))
  }

  // sorted(d.items(), key=score, reverse=True)[:k]
  method Top(t: Table, k: nat) returns (out: seq<Scored>)
    ensures IsTop(t, k, out)
  {
    var values := Values(t);
    var perm := SortPositions(values);
    var n := if k < |perm| then k else |perm|;
    out := seq(n, i requires 0 <= i < n => Scored(t.order[perm[i]], values[perm[i]]));
    assert IsTopBy(t, out, perm);
  }

  // ---- what the first k of a table are ----

  predicate HasId(out: seq<Scored>, id: Id) {
    exists i :: 0 <= i < |out| && out[i].id == id
  }

  ghost predicate Distinct(out: seq<Scored>) {
    forall i, j :: 0 <= i < j < |out| ==> out[i].id != out[j].id
  }

  ghost predicate Descending(out: seq<Scored>) {
    forall i, j :: 0 <= i < j < |out| ==> out[i].score >= out[j].score
  }

  lemma TopFacts(t: Table, k: nat, out: seq<Scored>)
    requires Valid(t) && IsTop(t, k, out)
    ensures Distinct(out) && Descending(out)
    ensures forall i :: 0 <= i < |out| ==> out[i].id in t.score && out[i].score == t.score[out[i].id]
    ensures forall id, i :: id in t.score && 0 <= i < |out| ==> HasId(out, id) || t.score[id] <= out[i].score
  {
    var perm :| IsTopBy(t, out, perm);
    forall id, i | id in t.score && 0 <= i < |out| ensures HasId(out, id) || t.score[id] <= out[i].score {
      var p :| 0 <= p < |t.order| && t.order[p] == id;
      assert p in perm;
      var j :| 0 <= j < |perm| && perm[j] == p;
      if j < |out| {
        assert out[j].id == id;
      }
    }
  }

  // A key comes out before every key it beats, or equals and precedes.
  lemma TopOrder(t: Table, k: nat, out: seq<Scored>, p: nat, q: nat, j: nat)
    requires Valid(t) && IsTop(t, k, out)
    requires p < |t.order| && q < |t.order| && Ahead(Values(t), p, q)
    requires j < |out| && out[j].id == t.order[q]
    ensures exists i :: 0 <= i < j && out[i].id == t.order[p]
  {
    var perm :| IsTopBy(t, out, perm);
    assert perm[j] == q;
    assert p in perm;
    var i :| 0 <= i < |perm| && perm[i] == p;
    assert i > j ==> Ahead(Values(t), perm[j], perm[i]);
    assert i < j && out[i].id == t.order[p];
  }

  // With room to spare, nothing is left out.
  lemma AllListed(t: Table, k: nat, out: seq<Scored>, id: Id)
    requires Valid(t) && IsTop(t, k, out) && |out| < k && id in t.score
    ensures HasId(out, id)
  {
    var perm :| IsTopBy(t, out, perm);
    var p :| 0 <= p < |t.order| && t.order[p] == id;
    assert p in perm;
    var j :| 0 <= j < |perm| && perm[j] == p;
    assert out[j].id == id;
  }

  // The table and k fix the output, ties included.
  lemma TopIsUnique(t: Table, k: nat, out: seq<Scored>, other: seq<Scored>)
    requires IsTop(t, k, out) && IsTop(t, k, other)
    ensures out == other
  {
    var p :| IsTopBy(t, out, p);
    var q :| IsTopBy(t, other, q);
    forall i | 0 <= i < |out| ensures out[i] == other[i] {
      SamePositions(Values(t), p, q, i);
    }
  }

  lemma {:induction false} SamePositions(values: seq<real>, p: seq<nat>, q: seq<nat>, i: nat)
    requires Sorted(values, p) && Sorted(values, q) && |p| == |q| == |values| && i < |values|
    requires forall n :: 0 <= n < |values| ==> n in p && n in q
    ensures p[i] == q[i]
  {
    forall j | 0 <= j < i ensures p[j] == q[j] {
      SamePositions(values, p, q, j);
    }
    NotLater(values, p, q, i);
    NotLater(values, q, p, i);
  }

  // What stands at i in one order does not stand before i in the other.
  lemma NotLater(values: seq<real>, p: seq<nat>, q: seq<nat>, i: nat)
    requires Sorted(values, p) && Sorted(values, q) && |p| == |q| && i < |p|
    requires p[i] in q && forall j :: 0 <= j < i ==> p[j] == q[j]
    ensures p[i] == q[i] || Ahead(values, q[i], p[i])
  {
    forall m | 0 <= m < i ensures p[m] != p[i] {
      assert Ahead(values, p[m], p[i]);
    }
    var j :| 0 <= j < |q| && q[j] == p[i];
  }
}
