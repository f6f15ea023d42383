// The inverted index for BM25. Tokenising and the logarithm are given from outside;
// scores are real numbers.
module Bm25 {
  import opened Ranking

  type Token = string

  datatype Document = Document(id: Id, tokens: seq<Token>)

  const K1 := 1.5
  const B := 0.75

  // ---- the documents ----

  predicate DistinctIds(docs: seq<Document>) {
    forall i, j :: 0 <= i < j < |docs| ==> docs[i].id != docs[j].id
  }

  function TotalLength(docs: seq<Document>): (n: nat)
    ensures forall i :: 0 <= i < |docs| ==> |docs[i].tokens| <= n
  {
    if docs == [] then 0 else TotalLength(docs[..|docs| - 1]) + |docs[|docs| - 1].tokens|
  }

  function Average(docs: seq<Document>): (a: real)
    ensures forall i :: 0 <= i < |docs| && docs[i].tokens != [] ==> a > 0.0
  {
    if docs == [] then 0.0 else TotalLength(docs) as real / |docs| as real
  }

  function Occurrences(d: Document, t: Token): nat {
    multiset(d.tokens)[t]
  }

  // The ids under which the token occurs.
  ghost function Holders(docs: seq<Document>, t: Token): set<Id> {
    set d | 0 <= d < |docs| && t in docs[d].tokens :: docs[d].id
  }

  // How often the last document with this id that has the token has it.
  ghost function Count(docs: seq<Document>, t: Token, id: Id): nat {
    if docs == [] then 0 else
      var n := |docs| - 1;
      if docs[n].id == id && t in docs[n].tokens then Occurrences(docs[n], t) else Count(docs[..n], t, id)
  }

  // ---- the formula, over the documents themselves ----

  // math.log(1 + (n - df + 0.5) / (df + 0.5))
  function Idf(n: nat, df: nat, log: real -> real): real {
    log(1.0 + (n as real - df as real + 0.5) / (df as real + 0.5))
  }

  function Denominator(freq: nat, length: nat, average: real): (r: real)
    requires average > 0.0
    ensures r > freq as real
  {
    assert length as real / average >= 0.0;
    freq as real + K1 * (1.0 - B + B * length as real / average)
  }

  // idf * (freq * (k1 + 1)) / denom
  function Gain(idf: real, freq: nat, length: nat, average: real): real
    requires average > 0.0
  {
    idf * (freq as real * (K1 + 1.0)) / Denominator(freq, length, average)
  }

  // What one token adds to the score of an id: a gain for each of the first n documents that bear
  // it, each with its own length.
  ghost function Share(docs: seq<Document>, t: Token, id: Id, n: nat, log: real -> real): real
    requires n <= |docs|
  {
    if n == 0 then 0.0
    else if docs[n - 1].id == id && id in Holders(docs, t) then
      Share(docs, t, id, n - 1, log) +
      Gain(Idf(|docs|, |Holders(docs, t)|, log), Count(docs, t, id), |docs[n - 1].tokens|, Average(docs))
    else Share(docs, t, id, n - 1, log)
  }

  ghost function Weight(docs: seq<Document>, t: Token, id: Id, log: real -> real): real {
    Share(docs, t, id, |docs|, log)
  }

  // The sum over a set of tokens, taken in some order; ScoreWithout says that any will do.
  ghost function Score(docs: seq<Document>, tokens: set<Token>, id: Id, log: real -> real): real {
    if tokens == {} then 0.0 else
      var t :| t in tokens;
      Weight(docs, t, id, log) + Score(docs, tokens - {t}, id, log)
  }

  ghost predicate Matches(docs: seq<Document>, tokens: set<Token>, id: Id) {
    exists t :: t in tokens && id in Holders(docs, t)
  }

  // A best topK of the matching ids by the formula.
  ghost predicate IsResult(docs: seq<Document>, tokens: set<Token>, topK: nat, log: real -> real, out: seq<Scored>) {
    && Distinct(out) && Descending(out) && |out| <= topK
    && (forall i :: 0 <= i < |out| ==>
          Matches(docs, tokens, out[i].id) && out[i].score == Score(docs, tokens, out[i].id, log))
    && (forall id :: Matches(docs, tokens, id) && !HasId(out, id) ==>
          |out| == topK && forall i :: 0 <= i < |out| ==> Score(docs, tokens, id, log) <= out[i].score)
  }

  // ---- the index ----

  // The postings of one token: for each document with the token, how often it has it.
  function PostingOf(docs: seq<Document>, t: Token): map<Id, nat> {
    if docs == [] then map[] else
      var n := |docs| - 1;
      var earlier := PostingOf(docs[..n], t);
      if t in docs[n].tokens then earlier[docs[n].id := Occurrences(docs[n], t)] else earlier
  }

  function Posting(postings: map<Token, map<Id, nat>>, t: Token): map<Id, nat> {
    if t in postings then postings[t] else map[]
  }

  class BM25Index {
    const documents: seq<Document>
    var lengths: seq<nat>
    var avgLen: real
    var postings: map<Token, map<Id, nat>>
    var docFreq: map<Token, nat>

    // The index says about the documents what counting in them says.
    ghost predicate Agrees()
      reads this
    {
      && |lengths| == |documents|
      && (forall i :: 0 <= i < |documents| ==> lengths[i] == |documents[i].tokens|)
      && avgLen == Average(documents)
      && (forall t :: Posting(postings, t) == PostingOf(documents, t))
      && docFreq.Keys == postings.Keys
      && (forall t :: t in postings ==> postings[t] != map[] && docFreq[t] == |postings[t]|)
    }

    constructor (docs: seq<Document>)
      ensures documents == docs && Agrees()
    {
      documents := docs;
      lengths, avgLen, postings, docFreq := [], 0.0, map[], map[];
      new;
      if docs != [] {
        var total := 0;
        for i := 0 to |docs|
          invariant documents == docs && avgLen == 0.0 && docFreq == map[]
          invariant |lengths| == i && forall j :: 0 <= j < i ==> lengths[j] == |docs[j].tokens|
          invariant total == TotalLength(docs[..i])
          invariant forall t :: Posting(postings, t) == PostingOf(docs[..i], t)
          invariant forall t :: t in postings ==> postings[t] != map[]
        {
          var doc := docs[i];
          lengths := lengths + [|doc.tokens|];
          total := total + |doc.tokens|;
          assert docs[..i + 1][..i] == docs[..i];
          postings := PostDocument(postings, doc);
        }
        assert docs[..|docs|] == docs;
        avgLen := total as real / |docs| as real;
        docFreq := map t | t in postings :: |postings[t]|;
      }
    }

    method Search(queryTokens: seq<Token>, topK: nat, log: real -> real) returns (ranked: seq<Scored>)
      requires Agrees()
      ensures IsResult(documents, (set t | t in queryTokens), topK, log, ranked)
    {
      if queryTokens == [] || documents == [] {
        return [];
      }
      ghost var all := set t | t in queryTokens;
      var table := EMPTY;
      var rest := set t | t in queryTokens;
      while rest != {}
        invariant rest <= all
        invariant Accounts(table, documents, all - rest, log)
      {
        var t :| t in rest;
        PostingFacts(documents, t);
        ghost var done := all - rest;
        rest := rest - {t};
        assert all - rest == done + {t};
        if t !in postings || postings[t] == map[] {
          Unposted(table, documents, done, t, log);
          continue;
        }
        table := AddToken(table, t, done, log);
      }
      assert all - rest == all;
      ranked := Top(table, topK);
      Ranked(table, documents, all, topK, log, ranked);
    }

    // One round of the search: what a token with postings adds to every document's score.
    method AddToken(before: Table, t: Token, ghost done: set<Token>, log: real -> real) returns (table: Table)
      requires Agrees() && t in postings && t !in done
      requires Accounts(before, documents, done, log)
      ensures Accounts(table, documents, done + {t}, log)
    {
      PostingFacts(documents, t);
      table := before;
      var posting, df := postings[t], docFreq[t];
      assert posting == Posting(postings, t) == PostingOf(documents, t);
      assert df == |Holders(documents, t)|;
      var idf := Idf(|documents|, df, log);
      StartToken(table, documents, done, t, log);
      for index := 0 to |documents|
        invariant Halfway(table, documents, done, t, index, log)
      {
        var id := documents[index].id;
        ghost var was := table;
        if id in posting {
          table := Add(table, id, Gain(idf, posting[id], lengths[index], avgLen));
        }
        OneMore(was, table, documents, done, t, index, log);
      }
      EndToken(table, documents, done, t, log);
    }
  }

  // ---- searching ----

  // The inner loop of the constructor: one entry for each token of the document.
  method PostDocument(before: map<Token, map<Id, nat>>, doc: Document) returns (postings: map<Token, map<Id, nat>>)
    requires forall t :: t in before ==> before[t] != map[]
    ensures forall t :: t in postings ==> postings[t] != map[]
    ensures forall t :: Posting(postings, t) ==
                        if t in doc.tokens
                        then Posting(before, t)[doc.id := Occurrences(doc, t)]
                        else Posting(before, t)
  {
    postings := before;
    var rest := set t | t in doc.tokens;
    while rest != {}
      invariant forall t :: t in rest ==> t in doc.tokens
      invariant forall t :: t in postings ==> postings[t] != map[]
      invariant forall t :: Posting(postings, t) ==
                            if t in doc.tokens && t !in rest
                            then Posting(before, t)[doc.id := Occurrences(doc, t)]
                            else Posting(before, t)
    {
      var t :| t in rest;
      var posting := Posting(postings, t)[doc.id := Occurrences(doc, t)];
      assert doc.id in posting;
      postings := postings[t := posting];
      rest := rest - {t};
    }
  }

  lemma HoldersGrow(docs: seq<Document>, t: Token)
    requires docs != []
    ensures var n := |docs| - 1;
            Holders(docs, t) == Holders(docs[..n], t) + if t in docs[n].tokens then {docs[n].id} else {}
  {
    var n := |docs| - 1;
    forall id | id in Holders(docs, t)
      ensures id in Holders(docs[..n], t) || (t in docs[n].tokens && id == docs[n].id)
    {
      var d :| 0 <= d < |docs| && t in docs[d].tokens && docs[d].id == id;
      assert d < n ==> docs[..n][d] == docs[d];
    }
    forall id | id in Holders(docs[..n], t) ensures id in Holders(docs, t) {
      var d :| 0 <= d < n && t in docs[..n][d].tokens && docs[..n][d].id == id;
      assert docs[d].id == id;
    }
  }

  // A token's postings are the ids under which it occurs, each with the count of the last
  // document that has it.
  lemma PostingFacts(docs: seq<Document>, t: Token)
    ensures PostingOf(docs, t).Keys == Holders(docs, t)
    ensures forall id :: id in PostingOf(docs, t) ==> PostingOf(docs, t)[id] == Count(docs, t, id) > 0
    ensures |PostingOf(docs, t)| == |Holders(docs, t)|
  {
    PostedHolders(docs, t);
    PostedCounts(docs, t);
    assert |PostingOf(docs, t).Keys| == |PostingOf(docs, t)|;
  }

  lemma {:induction false} PostedHolders(docs: seq<Document>, t: Token)
    ensures PostingOf(docs, t).Keys == Holders(docs, t)
  {
    if docs != [] {
      PostedHolders(docs[..|docs| - 1], t);
      HoldersGrow(docs, t);
    }
  }

  lemma {:induction false} PostedCounts(docs: seq<Document>, t: Token)
    ensures forall id :: id in PostingOf(docs, t) ==> PostingOf(docs, t)[id] == Count(docs, t, id) > 0
  {
    if docs != [] {
      var n := |docs| - 1;
      PostedCounts(docs[..n], t);
      assert t in docs[n].tokens ==> Occurrences(docs[n], t) > 0;
    }
  }

  lemma {:induction false} ScoreWithout(docs: seq<Document>, tokens: set<Token>, id: Id, log: real -> real, t: Token)
    requires t in tokens
    ensures Score(docs, tokens, id, log) == Weight(docs, t, id, log) + Score(docs, tokens - {t}, id, log)
    decreases tokens
  {
    var u :| && u in tokens
             && Score(docs, tokens, id, log) == Weight(docs, u, id, log) + Score(docs, tokens - {u}, id, log);
    if u != t {
      ScoreWithout(docs, tokens - {u}, id, log, t);
      ScoreWithout(docs, tokens - {t}, id, log, u);
      assert tokens - {u} - {t} == tokens - {t} - {u};
    }
  }

  // What the table says about one id.
  ghost predicate AccountsFor(table: Table, docs: seq<Document>, tokens: set<Token>, id: Id, log: real -> real) {
    && Get(table, id) == Score(docs, tokens, id, log)
    && (id in table.score <==> Matches(docs, tokens, id))
  }

  ghost predicate Accounts(table: Table, docs: seq<Document>, tokens: set<Token>, log: real -> real) {
    Valid(table) && forall id :: AccountsFor(table, docs, tokens, id, log)
  }

  // The same amid the documents' loop for one more token, after the first n of them.
  ghost predicate HalfwayFor(
    table: Table, docs: seq<Document>, done: set<Token>, t: Token, n: nat, id: Id, log: real -> real)
    requires n <= |docs|
  {
    && Get(table, id) == Score(docs, done, id, log) + Share(docs, t, id, n, log)
    && (id in table.score <==> Matches(docs, done, id) || Reached(docs, t, id, n))
  }

  ghost predicate Reached(docs: seq<Document>, t: Token, id: Id, n: nat)
    requires n <= |docs|
  {
    id in Holders(docs, t) && exists d :: 0 <= d < n && docs[d].id == id
  }

  ghost predicate Halfway(table: Table, docs: seq<Document>, done: set<Token>, t: Token, n: nat, log: real -> real) {
    Valid(table) && n <= |docs| && forall id :: HalfwayFor(table, docs, done, t, n, id, log)
  }

  lemma StartToken(table: Table, docs: seq<Document>, done: set<Token>, t: Token, log: real -> real)
    requires Accounts(table, docs, done, log)
    ensures Halfway(table, docs, done, t, 0, log)
  {
    forall id ensures HalfwayFor(table, docs, done, t, 0, id, log) {
      assert AccountsFor(table, docs, done, id, log);
    }
  }

  lemma EndToken(table: Table, docs: seq<Document>, done: set<Token>, t: Token, log: real -> real)
    requires t !in done && Halfway(table, docs, done, t, |docs|, log)
    ensures Accounts(table, docs, done + {t}, log)
  {
    forall id ensures AccountsFor(table, docs, done + {t}, id, log) {
      assert HalfwayFor(table, docs, done, t, |docs|, id, log);
      MoreTokens(docs, done, t, id, log);
    }
  }

  lemma MoreTokens(docs: seq<Document>, done: set<Token>, t: Token, id: Id, log: real -> real)
    requires t !in done
    ensures Score(docs, done + {t}, id, log) == Score(docs, done, id, log) + Weight(docs, t, id, log)
    ensures Matches(docs, done + {t}, id) <==> Matches(docs, done, id) || id in Holders(docs, t)
  {
    ScoreWithout(docs, done + {t}, id, log, t);
    assert done + {t} - {t} == done;
    if id in Holders(docs, t) {
      assert t in done + {t};
    }
  }

  lemma Unposted(table: Table, docs: seq<Document>, done: set<Token>, t: Token, log: real -> real)
    requires Accounts(table, docs, done, log) && t !in done && Holders(docs, t) == {}
    ensures Accounts(table, docs, done + {t}, log)
  {
    forall id ensures AccountsFor(table, docs, done + {t}, id, log) {
      assert AccountsFor(table, docs, done, id, log);
      MoreTokens(docs, done, t, id, log);
      NoShare(docs, t, id, |docs|, log);
    }
  }

  lemma {:induction false} NoShare(docs: seq<Document>, t: Token, id: Id, n: nat, log: real -> real)
    requires n <= |docs| && id !in Holders(docs, t)
    ensures Share(docs, t, id, n, log) == 0.0
  {
    if n > 0 {
      NoShare(docs, t, id, n - 1, log);
    }
  }

  lemma OneMore(was: Table, table: Table, docs: seq<Document>, done: set<Token>, t: Token, n: nat, log: real -> real)
    requires n < |docs| && Halfway(was, docs, done, t, n, log)
    requires var id := docs[n].id;
             if id !in Holders(docs, t) then table == was
             else table == Add(was, id,
               Gain(Idf(|docs|, |Holders(docs, t)|, log), Count(docs, t, id), |docs[n].tokens|, Average(docs)))
    ensures Halfway(table, docs, done, t, n + 1, log)
  {
    var next := n + 1;
    forall id ensures HalfwayFor(table, docs, done, t, next, id, log) {
      assert HalfwayFor(was, docs, done, t, n, id, log);
    }
  }

  lemma Ranked(table: Table, docs: seq<Document>, tokens: set<Token>, topK: nat, log: real -> real, out: seq<Scored>)
    requires Accounts(table, docs, tokens, log) && IsTop(table, topK, out)
    ensures IsResult(docs, tokens, topK, log, out)
  {
    TopFacts(table, topK, out);
    forall i | 0 <= i < |out|
      ensures Matches(docs, tokens, out[i].id) && out[i].score == Score(docs, tokens, out[i].id, log)
    {
      assert AccountsFor(table, docs, tokens, out[i].id, log);
    }
    forall id | Matches(docs, tokens, id) && !HasId(out, id)
      ensures |out| == topK && forall i :: 0 <= i < |out| ==> Score(docs, tokens, id, log) <= out[i].score
    {
      assert AccountsFor(table, docs, tokens, id, log);
      if |out| < topK {
        AllListed(table, topK, out, id);
      }
    }
  }

  // ---- the theorems ----

  ghost function FirstIds(out: seq<Scored>, n: nat): set<Id>
    requires n <= |out|
  {
    set i | 0 <= i < n :: out[i].id
  }

  lemma {:induction false} CountFirstIds(out: seq<Scored>, n: nat)
    requires Distinct(out) && n <= |out|
    ensures |FirstIds(out, n)| == n
  {
    if n > 0 {
      CountFirstIds(out, n - 1);
      OneIdMore(out, n);
    }
  }

  lemma OneIdMore(out: seq<Scored>, n: nat)
    requires Distinct(out) && 1 <= n <= |out|
    ensures FirstIds(out, n) == FirstIds(out, n - 1) + {out[n - 1].id} && out[n - 1].id !in FirstIds(out, n - 1)
  {
    forall id | id in FirstIds(out, n) ensures id in FirstIds(out, n - 1) + {out[n - 1].id} {
      var i :| 0 <= i < n && out[i].id == id;
      assert i < n - 1 ==> out[i].id in FirstIds(out, n - 1);
    }
    forall id | id in FirstIds(out, n - 1) ensures id in FirstIds(out, n) && id != out[n - 1].id {
      var i :| 0 <= i < n - 1 && out[i].id == id;
    }
  }

  lemma Subset(out: seq<Scored>, n: nat, other: seq<Scored>, m: nat)
    requires Distinct(out) && Distinct(other) && n <= |out| && m <= |other|
    requires FirstIds(out, n) <= FirstIds(other, m)
    ensures n <= m
  {
    CountFirstIds(out, n);
    CountFirstIds(other, m);
    assert FirstIds(other, m) == FirstIds(out, n) + (FirstIds(other, m) - FirstIds(out, n));
  }

  // An entry of one result is in the other, with the same score, or scores no better than all of it.
  lemma InOther(
    docs: seq<Document>, tokens: set<Token>, topK: nat, log: real -> real, out: seq<Scored>, other: seq<Scored>, j: nat)
    requires IsResult(docs, tokens, topK, log, out) && IsResult(docs, tokens, topK, log, other) && j < |out|
    ensures || (exists m :: 0 <= m < |other| && other[m] == out[j])
            || (|other| == topK && forall i :: 0 <= i < |other| ==> out[j].score <= other[i].score)
  {
    if HasId(other, out[j].id) {
      var m :| 0 <= m < |other| && other[m].id == out[j].id;
      assert other[m] == out[j];
    }
  }

  lemma Earlier(docs: seq<Document>, tokens: set<Token>, topK: nat, log: real -> real,
                out: seq<Scored>, other: seq<Scored>, i: nat, j: nat)
    requires IsResult(docs, tokens, topK, log, out) && IsResult(docs, tokens, topK, log, other)
    requires j <= i < |out| && i < |other| && out[i].score > other[i].score
    ensures out[j].id in FirstIds(other, i)
  {
    InOther(docs, tokens, topK, log, out, other, j);
    assert out[j].score > other[i].score;
    var m :| 0 <= m < |other| && other[m] == out[j];
    assert m < i;
  }

  lemma NoBetter(
    docs: seq<Document>, tokens: set<Token>, topK: nat, log: real -> real, out: seq<Scored>, other: seq<Scored>, i: nat)
    requires IsResult(docs, tokens, topK, log, out) && IsResult(docs, tokens, topK, log, other)
    requires i < |out| && i < |other|
    ensures out[i].score <= other[i].score
  {
    if out[i].score > other[i].score {
      forall j | 0 <= j < i + 1 ensures out[j].id in FirstIds(other, i) {
        Earlier(docs, tokens, topK, log, out, other, i, j);
      }
      Subset(out, i + 1, other, i);
    }
  }

  lemma NoLonger(
    docs: seq<Document>, tokens: set<Token>, topK: nat, log: real -> real, out: seq<Scored>, other: seq<Scored>)
    requires IsResult(docs, tokens, topK, log, out) && IsResult(docs, tokens, topK, log, other)
    ensures |out| <= |other|
  {
    if |other| < topK {
      forall id | id in FirstIds(out, |out|) ensures id in FirstIds(other, |other|) {
        var j :| 0 <= j < |out| && out[j].id == id;
        InOther(docs, tokens, topK, log, out, other, j);
        var m :| 0 <= m < |other| && other[m] == out[j];
      }
      Subset(out, |out|, other, |other|);
    }
  }

  // Whatever order the tokens are taken in, and however ties fall, the scores are the same.
  lemma ScoresAreDetermined(
    docs: seq<Document>, tokens: set<Token>, topK: nat, log: real -> real, out: seq<Scored>, other: seq<Scored>)
    requires IsResult(docs, tokens, topK, log, out) && IsResult(docs, tokens, topK, log, other)
    ensures |out| == |other| && forall i :: 0 <= i < |out| ==> out[i].score == other[i].score
  {
    NoLonger(docs, tokens, topK, log, out, other);
    NoLonger(docs, tokens, topK, log, other, out);
    forall i | 0 <= i < |out| ensures out[i].score == other[i].score {
      NoBetter(docs, tokens, topK, log, out, other, i);
      NoBetter(docs, tokens, topK, log, other, out, i);
    }
  }

  // ---- documents with ids of their own ----

  // Then a token adds the BM25 formula, read off the one document and the number of documents
  // that have the token.
  lemma WeightIsFormula(docs: seq<Document>, t: Token, d: nat, log: real -> real)
    requires DistinctIds(docs) && d < |docs|
    ensures docs[d].id in Holders(docs, t) <==> t in docs[d].tokens
    ensures Weight(docs, t, docs[d].id, log) ==
            if t !in docs[d].tokens then 0.0 else
              Gain(Idf(|docs|, |Containing(docs, t)|, log), Occurrences(docs[d], t), |docs[d].tokens|, Average(docs))
  {
    if t in docs[d].tokens {
      CountHere(docs, t, d);
      CountHolders(docs, t);
      ShareOfOne(docs, t, d, |docs|, log);
    } else {
      NoShare(docs, t, docs[d].id, |docs|, log);
    }
  }

  ghost function Containing(docs: seq<Document>, t: Token): set<nat> {
    set d: nat | d < |docs| && t in docs[d].tokens
  }

  lemma {:induction false} CountHere(docs: seq<Document>, t: Token, d: nat)
    requires DistinctIds(docs) && d < |docs| && t in docs[d].tokens
    ensures Count(docs, t, docs[d].id) == Occurrences(docs[d], t)
  {
    if d < |docs| - 1 {
      CountHere(docs[..|docs| - 1], t, d);
    }
  }

  lemma {:induction false} CountHolders(docs: seq<Document>, t: Token)
    requires DistinctIds(docs)
    ensures |Holders(docs, t)| == |Containing(docs, t)|
  {
    if docs != [] {
      var n := |docs| - 1;
      CountHolders(docs[..n], t);
      HoldersGrow(docs, t);
      ContainingGrows(docs, t);
      assert t in docs[n].tokens ==> docs[n].id !in Holders(docs[..n], t);
    }
  }

  lemma ContainingGrows(docs: seq<Document>, t: Token)
    requires docs != []
    ensures |Containing(docs, t)| == |Containing(docs[..|docs| - 1], t)| + if t in docs[|docs| - 1].tokens then 1 else 0
  {
    var n := |docs| - 1;
    assert Containing(docs, t) == Containing(docs[..n], t) + if t in docs[n].tokens then {n} else {};
  }

  lemma {:induction false} ShareOfOne(docs: seq<Document>, t: Token, d: nat, n: nat, log: real -> real)
    requires DistinctIds(docs) && d < |docs| && n <= |docs| && t in docs[d].tokens
    ensures Share(docs, t, docs[d].id, n, log) ==
            if n <= d then 0.0 else
              Gain(Idf(|docs|, |Holders(docs, t)|, log), Count(docs, t, docs[d].id), |docs[d].tokens|, Average(docs))
  {
    if n > 0 {
      ShareOfOne(docs, t, d, n - 1, log);
    }
  }

  // The formula in full, with k1 = 1.5 and b = 0.75.
  lemma GainIs(n: nat, df: nat, freq: nat, length: nat, average: real, log: real -> real)
    requires average > 0.0
    ensures var idf := log(1.0 + (n as real - df as real + 0.5) / (df as real + 0.5));
            var norm := freq as real + 1.5 * (0.25 + 0.75 * length as real / average);
            norm > 0.0 && Gain(Idf(n, df, log), freq, length, average) == idf * (freq as real * 2.5) / norm
  {}

  // ---- which scores are positive ----

  lemma {:induction false} SharePositive(docs: seq<Document>, t: Token, id: Id, n: nat, log: real -> real)
    requires n <= |docs| && forall x :: x > 1.0 ==> log(x) > 0.0
    ensures Share(docs, t, id, n, log) >= 0.0
    ensures Reached(docs, t, id, n) ==> Share(docs, t, id, n, log) > 0.0
  {
    if n > 0 {
      SharePositive(docs, t, id, n - 1, log);
      if docs[n - 1].id == id && id in Holders(docs, t) {
        IdfPositive(docs, t, log);
        PostingFacts(docs, t);
        GainPositive(Idf(|docs|, |Holders(docs, t)|, log), Count(docs, t, id), |docs[n - 1].tokens|, Average(docs));
      }
    }
  }

  lemma IdfPositive(docs: seq<Document>, t: Token, log: real -> real)
    requires forall x :: x > 1.0 ==> log(x) > 0.0
    ensures Idf(|docs|, |Holders(docs, t)|, log) > 0.0
  {
    var n, df := |docs|, |Holders(docs, t)|;
    FewHolders(docs, t);
    var odds := (n as real - df as real + 0.5) / (df as real + 0.5);
    assert odds > 0.0;
    assert Idf(n, df, log) == log(1.0 + odds);
  }

  lemma GainPositive(idf: real, freq: nat, length: nat, average: real)
    requires idf > 0.0 && freq > 0 && average > 0.0
    ensures Gain(idf, freq, length, average) > 0.0
  {
    var x := freq as real * (K1 + 1.0);
    assert idf * x > 0.0;
    assert Gain(idf, freq, length, average) == (idf * x) / Denominator(freq, length, average);
  }

  lemma {:induction false} FewHolders(docs: seq<Document>, t: Token)
    ensures |Holders(docs, t)| <= |docs|
  {
    if docs != [] {
      var n := |docs| - 1;
      FewHolders(docs[..n], t);
      HoldersGrow(docs, t);
    }
  }

  // With a logarithm that is positive above 1, the scored ids are those of documents that share
  // a token with the query.
  lemma {:induction false} PositiveIffMatches(docs: seq<Document>, tokens: set<Token>, id: Id, log: real -> real)
    requires forall x :: x > 1.0 ==> log(x) > 0.0
    ensures Score(docs, tokens, id, log) >= 0.0
    ensures Score(docs, tokens, id, log) > 0.0 <==> Matches(docs, tokens, id)
    decreases |tokens|
  {
    if tokens != {} {
      var t :| t in tokens;
      ScoreWithout(docs, tokens, id, log, t);
      PositiveIffMatches(docs, tokens - {t}, id, log);
      SharePositive(docs, t, id, |docs|, log);
      if id in Holders(docs, t) {
        assert Reached(docs, t, id, |docs|);
      } else {
        NoShare(docs, t, id, |docs|, log);
      }
    }
  }

  // Documents without any token are searched without a division: the answer is empty.
  lemma TokenlessIsEmpty(docs: seq<Document>, tokens: set<Token>, topK: nat, log: real -> real, out: seq<Scored>)
    requires IsResult(docs, tokens, topK, log, out) && forall d :: 0 <= d < |docs| ==> docs[d].tokens == []
    ensures Average(docs) == 0.0 && out == []
  {
    TokenlessTotal(docs);
    HitHasToken(docs, tokens, topK, log, out);
  }

  lemma HitHasToken(docs: seq<Document>, tokens: set<Token>, topK: nat, log: real -> real, out: seq<Scored>)
    requires IsResult(docs, tokens, topK, log, out)
    ensures out != [] ==> exists d :: 0 <= d < |docs| && docs[d].tokens != []
  {
    if out != [] {
      assert Matches(docs, tokens, out[0].id);
      var t :| t in tokens && out[0].id in Holders(docs, t);
      var d :| 0 <= d < |docs| && t in docs[d].tokens && docs[d].id == out[0].id;
      assert docs[d].tokens != [];
    }
  }

  lemma {:induction false} TokenlessTotal(docs: seq<Document>)
    requires forall d :: 0 <= d < |docs| ==> docs[d].tokens == []
    ensures TotalLength(docs) == 0
  {
    if docs != [] {
      TokenlessTotal(docs[..|docs| - 1]);
    }
  }
}
