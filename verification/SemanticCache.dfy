// The semantic answer cache: one bounded Redis list for each page domain, and a
// registry set that names the lists. Time is in seconds; a key is gone once its
// expiry has come.
module SemanticCache {
  import opened Options

  type Namespace = string
  type Vector = seq<real>

  datatype Citation = Citation(doc: string, fragment: int)
  datatype Entry = Entry(embedding: Vector, answer: string, citations: seq<Citation>, model: string)

  // What Redis holds: lists and the registry, each with its expiry.
  datatype ListKey = ListKey(rows: seq<Entry>, expiresAt: int)
  datatype Registry = NoRegistry | Registered(names: set<Namespace>, expiresAt: int)
  datatype Store = Store(lists: map<Namespace, ListKey>, registry: Registry)

  const NOTHING := Store(map[], NoRegistry)

  function Rows(s: Store, ns: Namespace, now: int): seq<Entry> {
    if ns in s.lists && now < s.lists[ns].expiresAt then s.lists[ns].rows else []
  }

  function Names(s: Store, now: int): set<Namespace> {
    if s.registry.Registered? && now < s.registry.expiresAt then s.registry.names else {}
  }

  // LTRIM key 0 (max - 1): with max 0 the range is 0..-1, the whole list.
  function Trim(rows: seq<Entry>, max: nat): seq<Entry> {
    if max == 0 || |rows| <= max then rows else rows[..max]
  }

  function Inserted(s: Store, ns: Namespace, e: Entry, now: int, ttl: int, max: nat): Store {
    Store(s.lists[ns := ListKey(Trim([e] + Rows(s, ns, now), max), now + ttl)],
          Registered(Names(s, now) + {ns}, now + ttl))
  }

  // The registry's names and the registry itself, in one atomic step.
  function Invalidated(s: Store, now: int): Store {
    Store(s.lists - Names(s, now), NoRegistry)
  }

  // LRANGE key 0 (max - 1)
  function Scanned(s: Store, ns: Namespace, now: int, max: nat): seq<Entry> {
    Trim(Rows(s, ns, now), max)
  }

  datatype Hit = Hit(entry: Entry, similarity: real)

  predicate Comparable(e: Entry, query: Vector) {
    |e.embedding| == |query|
  }

  // A most similar comparable entry at or above the threshold, the first of them.
  ghost predicate IsBest(
    rows: seq<Entry>, query: Vector, threshold: real, sim: (Vector, Vector) -> real, best: Option<Hit>)
  {
    match best
    case None => forall i :: 0 <= i < |rows| && Comparable(rows[i], query) ==> sim(query, rows[i].embedding) < threshold
    case Some(hit) => exists k :: BestAt(rows, query, threshold, sim, hit, k)
  }

  ghost predicate BestAt(
    rows: seq<Entry>, query: Vector, threshold: real, sim: (Vector, Vector) -> real, hit: Hit, k: int)
  {
    && 0 <= k < |rows| && rows[k] == hit.entry && Comparable(rows[k], query)
    && hit.similarity == sim(query, rows[k].embedding) && hit.similarity >= threshold
    && (forall i :: 0 <= i < |rows| && Comparable(rows[i], query) ==> sim(query, rows[i].embedding) <= hit.similarity)
    && (forall i :: 0 <= i < k && Comparable(rows[i], query) ==> sim(query, rows[i].embedding) < hit.similarity)
  }

  class SemanticAnswerCache {
    const threshold: real
    const ttl: int
    const maxEntries: nat
    var store: Store

    constructor (similarityThreshold: real, ttlSeconds: int, limit: nat)
      ensures threshold == similarityThreshold && ttl == ttlSeconds && maxEntries == limit && store == NOTHING
    {
      threshold, ttl, maxEntries, store := similarityThreshold, ttlSeconds, limit, NOTHING;
    }

    method Lookup(ns: Namespace, query: Vector, sim: (Vector, Vector) -> real, now: int) returns (best: Option<Hit>)
      ensures IsBest(Scanned(store, ns, now, maxEntries), query, threshold, sim, best)
    {
      var rows := Scanned(store, ns, now, maxEntries);
      best := None;
      var i := 0;
      while i < |rows|
        invariant 0 <= i <= |rows|
        invariant IsBest(rows[..i], query, threshold, sim, best)
      {
        var row := rows[i];
        ghost var was := best;
        if Comparable(row, query) {
          var similarity := sim(query, row.embedding);
          if !(similarity < threshold || (best.Some? && similarity <= best.value.similarity)) {
            best := Some(Hit(row, similarity));
          }
        }
        ExtendBest(rows, query, threshold, sim, was, best, i);
        i := i + 1;
      }
      assert rows[..i] == rows;
    }

    method Put(ns: Namespace, e: Entry, now: int)
      modifies this
      ensures store == Inserted(old(store), ns, e, now, ttl, maxEntries)
    {
      var rows := [e] + Rows(store, ns, now);
      rows := Trim(rows, maxEntries);
      var names := Names(store, now) + {ns};
      store := Store(store.lists[ns := ListKey(rows, now + ttl)], Registered(names, now + ttl));
    }

    method InvalidateAll(now: int)
      modifies this
      ensures store == Invalidated(old(store), now)
    {
      var namespaces := Names(store, now);
      var lists := store.lists;
      if namespaces != {} {
        lists := lists - namespaces;
      }
      store := Store(lists, NoRegistry);
    }
  }

  lemma ExtendBest(rows: seq<Entry>, query: Vector, threshold: real, sim: (Vector, Vector) -> real,
                   was: Option<Hit>, best: Option<Hit>, i: nat)
    requires i < |rows| && IsBest(rows[..i], query, threshold, sim, was)
    requires best == if Comparable(rows[i], query)
                        && sim(query, rows[i].embedding) >= threshold
                        && (was.None? || sim(query, rows[i].embedding) > was.value.similarity)
                     then Some(Hit(rows[i], sim(query, rows[i].embedding))) else was
    ensures IsBest(rows[..i + 1], query, threshold, sim, best)
  {
    var before, after := rows[..i], rows[..i + 1];
    assert forall j :: 0 <= j < i ==> after[j] == before[j];
    if best != was || (best.Some? && was.Some? && best == was && Comparable(rows[i], query)
      && sim(query, rows[i].embedding) > was.value.similarity) {
      assert BestAt(after, query, threshold, sim, best.value, i);
    } else if was.Some? {
      var k :| BestAt(before, query, threshold, sim, was.value, k);
      assert BestAt(after, query, threshold, sim, was.value, k);
    }
  }

  // ---- runs ----

  datatype Op = PutOp(ns: Namespace, e: Entry, at: int) | InvalidateOp(at: int)

  function Apply(s: Store, op: Op, ttl: int, max: nat): Store {
    match op
    case PutOp(ns, e, at) => Inserted(s, ns, e, at, ttl, max)
    case InvalidateOp(at) => Invalidated(s, at)
  }

  function After(s: Store, ops: seq<Op>, ttl: int, max: nat): Store
    decreases |ops|
  {
    if ops == [] then s else Apply(After(s, ops[..|ops| - 1], ttl, max), ops[|ops| - 1], ttl, max)
  }

  ghost predicate Monotone(ops: seq<Op>, until: int) {
    && (forall i, j :: 0 <= i < j < |ops| ==> ops[i].at <= ops[j].at)
    && (forall i :: 0 <= i < |ops| ==> ops[i].at <= until)
  }

  // Every list that is still alive is named by a registry that outlives it.
  ghost predicate RegistryCovers(s: Store, now: int) {
    forall ns :: ns in s.lists && now < s.lists[ns].expiresAt ==>
      && s.registry.Registered? && ns in s.registry.names && s.lists[ns].expiresAt <= s.registry.expiresAt
  }

  // No expiry lies further ahead than one time-to-live.
  ghost predicate ExpirySoon(s: Store, now: int, ttl: int) {
    forall ns :: ns in s.lists ==> s.lists[ns].expiresAt <= now + ttl
  }

  ghost predicate Bounded(s: Store, max: nat) {
    forall ns :: ns in s.lists ==> |s.lists[ns].rows| <= max
  }

  lemma {:induction false} RunKeeps(ops: seq<Op>, ttl: int, max: nat, now: int)
    requires Monotone(ops, now)
    ensures RegistryCovers(After(NOTHING, ops, ttl, max), now)
    ensures ExpirySoon(After(NOTHING, ops, ttl, max), now, ttl)
    decreases |ops|
  {
    if ops != [] {
      var n := |ops| - 1;
      RunKeeps(ops[..n], ttl, max, ops[n].at);
    }
  }

  // The lists stay within the limit exactly when it is positive: a limit of zero
  // trims to the range 0..-1, which keeps everything.
  lemma BoundedIff(max: nat)
    ensures (forall ops: seq<Op>, ttl: int :: Bounded(After(NOTHING, ops, ttl, max), max)) <==> max >= 1
  {
    if max >= 1 {
      forall ops: seq<Op>, ttl: int ensures Bounded(After(NOTHING, ops, ttl, max), max) {
        BoundedAlways(ops, ttl, max);
      }
    } else {
      var e := Entry([], "", [], "");
      var ops := [PutOp("", e, 0)];
      assert ops[..0] == [];
      assert !Bounded(After(NOTHING, ops, 1, max), max);
    }
  }

  lemma {:induction false} BoundedAlways(ops: seq<Op>, ttl: int, max: nat)
    requires max >= 1
    ensures Bounded(After(NOTHING, ops, ttl, max), max)
    decreases |ops|
  {
    if ops != [] {
      BoundedAlways(ops[..|ops| - 1], ttl, max);
    }
  }

  ghost predicate PutAmong(ops: seq<Op>, ns: Namespace, e: Entry) {
    exists i :: 0 <= i < |ops| && ops[i].PutOp? && ops[i].ns == ns && ops[i].e == e
  }

  // Whatever can be read was put.
  lemma {:induction false} OnlyPuts(ops: seq<Op>, ttl: int, max: nat, now: int, ns: Namespace, e: Entry)
    requires Monotone(ops, now) && e in Rows(After(NOTHING, ops, ttl, max), ns, now)
    ensures PutAmong(ops, ns, e)
    decreases |ops|
  {
    if ops != [] {
      var n := |ops| - 1;
      var s := After(NOTHING, ops[..n], ttl, max);
      if e in Rows(s, ns, ops[n].at) {
        OnlyPuts(ops[..n], ttl, max, ops[n].at, ns, e);
        var i :| 0 <= i < n && ops[..n][i].PutOp? && ops[..n][i].ns == ns && ops[..n][i].e == e;
        assert ops[i].PutOp? && ops[i].ns == ns && ops[i].e == e;
      } else {
        assert ops[n].PutOp? && ops[n].ns == ns && ops[n].e == e;
      }
    }
  }

  // Whatever can be read after an invalidation was put after it.
  lemma {:induction false} OnlyLaterPuts(
    before: seq<Op>, at: int, later: seq<Op>, ttl: int, max: nat, now: int, ns: Namespace, e: Entry)
    requires Monotone(before + [InvalidateOp(at)] + later, now)
    requires e in Rows(After(NOTHING, before + [InvalidateOp(at)] + later, ttl, max), ns, now)
    ensures PutAmong(later, ns, e)
    decreases |later|
  {
    var ops := before + [InvalidateOp(at)] + later;
    var n := |ops| - 1;
    if later == [] {
      assert ops[..n] == before && ops[n] == InvalidateOp(at);
      RunKeeps(before, ttl, max, at);
    } else {
      var last := later[|later| - 1];
      assert ops[n] == last;
      assert ops[..n] == before + [InvalidateOp(at)] + later[..|later| - 1];
      var s := After(NOTHING, ops[..n], ttl, max);
      if e in Rows(s, ns, last.at) {
        OnlyLaterPuts(before, at, later[..|later| - 1], ttl, max, last.at, ns, e);
        var i :| 0 <= i < |later| - 1 && later[..|later| - 1][i].PutOp? && later[..|later| - 1][i].ns == ns
          && later[..|later| - 1][i].e == e;
        assert later[i].PutOp? && later[i].ns == ns && later[i].e == e;
      } else {
        assert e in Rows(Apply(s, last, ttl, max), ns, now);
        assert last.PutOp? && last.ns == ns && last.e == e;
      }
    }
  }

  // A hit is always an entry of its own namespace that was put after the last invalidation.
  lemma HitIsCurrent(before: seq<Op>, at: int, later: seq<Op>, ttl: int, max: nat, now: int, ns: Namespace,
                     query: Vector, threshold: real, sim: (Vector, Vector) -> real, hit: Hit)
    requires Monotone(before + [InvalidateOp(at)] + later, now)
    requires IsBest(Scanned(After(NOTHING, before + [InvalidateOp(at)] + later, ttl, max), ns, now, max), query,
             threshold, sim, Some(hit))
    ensures PutAmong(later, ns, hit.entry) && hit.similarity >= threshold
  {
    var rows := Rows(After(NOTHING, before + [InvalidateOp(at)] + later, ttl, max), ns, now);
    var k :| BestAt(Trim(rows, max), query, threshold, sim, hit, k);
    assert rows[k] == hit.entry;
    OnlyLaterPuts(before, at, later, ttl, max, now, ns, hit.entry);
  }

  // On any store, an invalidation leaves nothing to be found exactly when the live
  // registry names every live list that has rows.
  lemma InvalidationEmptiesIff(s: Store, now: int)
    ensures (forall ns :: Rows(Invalidated(s, now), ns, now) == [])
       <==> (forall ns :: Rows(s, ns, now) != [] ==> ns in Names(s, now))
  {
    forall ns ensures Rows(Invalidated(s, now), ns, now) == if ns in Names(s, now) then [] else Rows(s, ns, now) {}
  }

  // ---- what is there to be read ----

  predicate PutTo(ops: seq<Op>, ns: Namespace, i: int) {
    0 <= i < |ops| && ops[i].PutOp? && ops[i].ns == ns
  }

  ghost predicate InvalidatedSince(ops: seq<Op>, i: nat) {
    exists j :: i < j < |ops| && ops[j].InvalidateOp?
  }

  // One time-to-live after put j, and no other put to the namespace before that.
  ghost predicate ExpiredAfter(ops: seq<Op>, ns: Namespace, ttl: int, now: int, j: nat) {
    && PutTo(ops, ns, j) && ops[j].at + ttl <= now
    && forall k :: j < k && PutTo(ops, ns, k) ==> ops[j].at + ttl <= ops[k].at
  }

  ghost predicate ExpiredSince(ops: seq<Op>, ns: Namespace, ttl: int, now: int, i: nat) {
    exists j :: i <= j && ExpiredAfter(ops, ns, ttl, now, j)
  }

  // Put i to the namespace has seen no invalidation and no expiry of its list.
  ghost predicate Lasts(ops: seq<Op>, ns: Namespace, ttl: int, now: int, i: nat) {
    PutTo(ops, ns, i) && !InvalidatedSince(ops, i) && !ExpiredSince(ops, ns, ttl, now, i)
  }

  // The puts that last, newest first.
  ghost predicate Lasting(ops: seq<Op>, ns: Namespace, ttl: int, now: int, at: seq<nat>) {
    && (forall i, j :: 0 <= i < j < |at| ==> at[j] < at[i])
    && (forall i: nat :: i in at <==> Lasts(ops, ns, ttl, now, i))
  }

  ghost predicate ArePuts(ops: seq<Op>, at: seq<nat>) {
    forall j :: 0 <= j < |at| ==> at[j] < |ops| && ops[at[j]].PutOp?
  }

  ghost function EntriesAt(ops: seq<Op>, at: seq<nat>): (r: seq<Entry>)
    requires ArePuts(ops, at)
    ensures |r| == |at| && forall j :: 0 <= j < |at| ==> r[j] == ops[at[j]].e
  {
    seq(|at|, j requires 0 <= j < |at| => ops[at[j]].e)
  }

  // The newest max of the puts that last; all of them if max is zero.
  ghost predicate Holds(rows: seq<Entry>, ops: seq<Op>, at: seq<nat>, max: nat) {
    && ArePuts(ops, at)
    && rows == if max >= 1 && |at| > max then EntriesAt(ops, at)[..max] else EntriesAt(ops, at)
  }

  ghost predicate Reads(s: Store, ops: seq<Op>, ttl: int, max: nat, now: int, ns: Namespace, at: seq<nat>) {
    && Lasting(ops, ns, ttl, now, at) && Holds(Rows(s, ns, now), ops, at, max)
    && Scanned(s, ns, now, max) == Rows(s, ns, now)
  }

  // Over every run, what can be read of a namespace is exactly its puts since the last
  // invalidation and the last expiry, newest first, cut to the limit if that is positive.
  lemma {:induction false} ReadsExactly(ops: seq<Op>, ttl: int, max: nat, now: int, ns: Namespace)
    returns (at: seq<nat>)
    requires Monotone(ops, now)
    ensures Reads(After(NOTHING, ops, ttl, max), ops, ttl, max, now, ns, at)
    decreases |ops|
  {
    if ops == [] {
      at := [];
    } else {
      var n := |ops| - 1;
      var s := After(NOTHING, ops[..n], ttl, max);
      if ops[n].InvalidateOp? {
        at := [];
        RunKeeps(ops[..n], ttl, max, ops[n].at);
        ReadsNothing(s, ops, ttl, max, now, ns);
      } else if ops[n].ns != ns {
        at := ReadsExactly(ops[..n], ttl, max, now, ns);
        ReadsAsBefore(s, ops, ttl, max, now, ns, at);
      } else if ops[n].at + ttl <= now {
        at := [];
        assert ExpiredAfter(ops, ns, ttl, now, n);
      } else {
        at := ReadsExactly(ops[..n], ttl, max, ops[n].at, ns);
        ReadsOneMore(s, ops, ttl, max, now, ns, at);
        at := [n] + at;
      }
    }
  }

  lemma ReadsNothing(s: Store, ops: seq<Op>, ttl: int, max: nat, now: int, ns: Namespace)
    requires ops != [] && ops[|ops| - 1].InvalidateOp? && ops[|ops| - 1].at <= now
    requires RegistryCovers(s, ops[|ops| - 1].at) && ExpirySoon(s, ops[|ops| - 1].at, ttl)
    ensures Reads(Apply(s, ops[|ops| - 1], ttl, max), ops, ttl, max, now, ns, [])
  {
    var n := |ops| - 1;
    assert Rows(Apply(s, ops[n], ttl, max), ns, now) == [];
    forall i: nat ensures !Lasts(ops, ns, ttl, now, i) {
      assert PutTo(ops, ns, i) ==> i < n;
    }
  }

  lemma ReadsAsBefore(s: Store, ops: seq<Op>, ttl: int, max: nat, now: int, ns: Namespace, at: seq<nat>)
    requires ops != [] && ops[|ops| - 1].PutOp? && ops[|ops| - 1].ns != ns
    requires Reads(s, ops[..|ops| - 1], ttl, max, now, ns, at)
    ensures Reads(Apply(s, ops[|ops| - 1], ttl, max), ops, ttl, max, now, ns, at)
  {
    OtherPut(ops, ns, ttl, now);
    SameEntries(ops, at);
    assert Rows(Apply(s, ops[|ops| - 1], ttl, max), ns, now) == Rows(s, ns, now);
  }

  lemma ReadsOneMore(s: Store, ops: seq<Op>, ttl: int, max: nat, now: int, ns: Namespace, at: seq<nat>)
    requires Monotone(ops, now) && ops != [] && PutTo(ops, ns, |ops| - 1) && now < ops[|ops| - 1].at + ttl
    requires Reads(s, ops[..|ops| - 1], ttl, max, ops[|ops| - 1].at, ns, at)
    ensures Reads(Apply(s, ops[|ops| - 1], ttl, max), ops, ttl, max, now, ns, [|ops| - 1] + at)
  {
    var n := |ops| - 1;
    OwnPut(ops, ns, ttl, now);
    PutOnTop(ops, max, at, Rows(s, ns, ops[n].at));
    NewestFirst(ops, ns, ttl, now, at);
    assert Rows(Apply(s, ops[n], ttl, max), ns, now) == Trim([ops[n].e] + Rows(s, ns, ops[n].at), max);
  }

  lemma NewestFirst(ops: seq<Op>, ns: Namespace, ttl: int, now: int, at: seq<nat>)
    requires ops != [] && Lasting(ops[..|ops| - 1], ns, ttl, ops[|ops| - 1].at, at)
    requires forall i: nat :: Lasts(ops, ns, ttl, now, i) <==>
               i == |ops| - 1 || Lasts(ops[..|ops| - 1], ns, ttl, ops[|ops| - 1].at, i)
    ensures Lasting(ops, ns, ttl, now, [|ops| - 1] + at)
  {
    var n := |ops| - 1;
    forall j | 0 <= j < |at| ensures at[j] < n {
      assert at[j] in at;
      assert PutTo(ops[..n], ns, at[j]);
    }
    forall i: nat ensures i in [n] + at <==> Lasts(ops, ns, ttl, now, i) {
      assert i in [n] + at <==> i == n || i in at;
    }
  }

  lemma SameEntries(ops: seq<Op>, at: seq<nat>)
    requires ops != [] && ArePuts(ops[..|ops| - 1], at)
    ensures ArePuts(ops, at) && EntriesAt(ops, at) == EntriesAt(ops[..|ops| - 1], at)
  {}

  lemma SameInvalidations(ops: seq<Op>, i: nat)
    requires ops != [] && ops[|ops| - 1].PutOp?
    ensures InvalidatedSince(ops, i) <==> InvalidatedSince(ops[..|ops| - 1], i)
  {
    var before := ops[..|ops| - 1];
    if InvalidatedSince(ops, i) {
      var j :| i < j < |ops| && ops[j].InvalidateOp?;
      assert before[j].InvalidateOp?;
    }
    if InvalidatedSince(before, i) {
      var j :| i < j < |before| && before[j].InvalidateOp?;
      assert ops[j].InvalidateOp?;
    }
  }

  // A put to another namespace changes nothing.
  lemma OtherPut(ops: seq<Op>, ns: Namespace, ttl: int, now: int)
    requires ops != [] && ops[|ops| - 1].PutOp? && ops[|ops| - 1].ns != ns
    ensures forall i: nat :: Lasts(ops, ns, ttl, now, i) <==> Lasts(ops[..|ops| - 1], ns, ttl, now, i)
  {
    var before := ops[..|ops| - 1];
    forall i: nat ensures Lasts(ops, ns, ttl, now, i) <==> Lasts(before, ns, ttl, now, i) {
      assert forall j :: PutTo(ops, ns, j) <==> PutTo(before, ns, j);
      assert forall j :: ExpiredAfter(ops, ns, ttl, now, j) <==> ExpiredAfter(before, ns, ttl, now, j);
      SameInvalidations(ops, i);
    }
  }

  // A put to the namespace that has not expired since: what lasted until then still lasts.
  lemma OwnPut(ops: seq<Op>, ns: Namespace, ttl: int, now: int)
    requires Monotone(ops, now) && ops != [] && PutTo(ops, ns, |ops| - 1) && now < ops[|ops| - 1].at + ttl
    ensures var n := |ops| - 1;
            forall i: nat :: Lasts(ops, ns, ttl, now, i) <==> i == n || Lasts(ops[..n], ns, ttl, ops[n].at, i)
  {
    var n := |ops| - 1;
    var before := ops[..n];
    forall j: nat ensures ExpiredAfter(ops, ns, ttl, now, j) <==> ExpiredAfter(before, ns, ttl, ops[n].at, j) {
      assert forall k :: PutTo(before, ns, k) <==> PutTo(ops, ns, k) && k < n;
    }
    forall i: nat ensures Lasts(ops, ns, ttl, now, i) <==> i == n || Lasts(before, ns, ttl, ops[n].at, i) {
      assert forall k :: PutTo(before, ns, k) <==> PutTo(ops, ns, k) && k < n;
      SameInvalidations(ops, i);
    }
  }

  lemma PutOnTop(ops: seq<Op>, max: nat, at: seq<nat>, rows: seq<Entry>)
    requires ops != [] && ops[|ops| - 1].PutOp? && Holds(rows, ops[..|ops| - 1], at, max)
    ensures Holds(Trim([ops[|ops| - 1].e] + rows, max), ops, [|ops| - 1] + at, max)
  {
    var n := |ops| - 1;
    SameEntries(ops, at);
    assert EntriesAt(ops, [n] + at) == [ops[n].e] + EntriesAt(ops, at);
  }

  ghost function LaterPuts(ops: seq<Op>, ns: Namespace, i: int): set<int> {
    set k | i < k < |ops| && PutTo(ops, ns, k)
  }

  // So an entry stays readable until an invalidation, an expiry, or max later puts to its namespace.
  lemma EntryStays(ops: seq<Op>, ttl: int, max: nat, now: int, ns: Namespace, i: nat)
    requires Monotone(ops, now) && Lasts(ops, ns, ttl, now, i)
    requires max == 0 || |LaterPuts(ops, ns, i)| < max
    ensures ops[i].e in Rows(After(NOTHING, ops, ttl, max), ns, now)
  {
    var at := ReadsExactly(ops, ttl, max, now, ns);
    var p :| 0 <= p < |at| && at[p] == i;
    forall q | 0 <= q < p ensures at[q] in LaterPuts(ops, ns, i) {
      assert at[q] in at;
      assert Lasts(ops, ns, ttl, now, at[q]);
    }
    Before(at, p, LaterPuts(ops, ns, i));
    assert EntriesAt(ops, at)[p] == ops[i].e;
    assert Rows(After(NOTHING, ops, ttl, max), ns, now)[p] == ops[i].e;
  }

  lemma {:induction false} Before(at: seq<nat>, p: nat, later: set<int>)
    requires p <= |at| && forall i, j :: 0 <= i < j < |at| ==> at[j] < at[i]
    requires forall q :: 0 <= q < p ==> at[q] in later
    ensures p <= |later|
    decreases p
  {
    if p > 0 {
      forall q | 0 <= q < p - 1 ensures at[q] in later - {at[p - 1] as int} {
        assert at[p - 1] < at[q];
      }
      Before(at, p - 1, later - {at[p - 1] as int});
    }
  }
}
