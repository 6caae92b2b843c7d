/**
 * The BM25 keyword index (`BM25Index`) and the hybrid retriever
 * (`HybridRetriever`) that merges its results with vector-search results by
 * rank.
 *
 * `tokenize`, the BM25 score of a chunk and the reciprocal-rank-fusion
 * formula are abstract functions; what is modelled is the index
 * bookkeeping and the selection, ordering and truncation of results.
 */
module Bm25Search {
  import opened Lib
  import opened Sorting

  /** What the index keeps per chunk. */
  datatype Document = Document(text: string, tokens: seq<string>, docId: string, metadata: map<string, Json>)

  /** The index's maps (`documents`, `doc_lengths`, `doc_count`, `inverted_index`, `doc_freq`) as one value. */
  datatype IndexData = IndexData(
    documents: map<string, Document>,
    docLengths: map<string, int>,
    docCount: int,
    invertedIndex: map<string, map<string, int>>,
    docFreq: map<string, int>)

  /** `inverted_index.get(term, {})`. */
  function Postings(index: map<string, map<string, int>>, term: string): map<string, int> {
    if term in index then index[term] else map[]
  }

  /** For every term, the number of chunks listed under it. */
  function FreqOf(index: map<string, map<string, int>>): (freq: map<string, int>)
    ensures freq.Keys == index.Keys
    ensures forall t :: t in index ==> freq[t] == |index[t]|
  {
    map t | t in index :: |index[t]|
  }

  /** `Counter(tokens)[t]`: how often `t` occurs. */
  function Count(tokens: seq<string>, t: string): (n: nat)
    ensures n > 0 <==> t in tokens
  {
    if tokens == [] then 0 else Count(tokens[1..], t) + if tokens[0] == t then 1 else 0
  }

  /** The keys of `Counter(tokens)`, in the order they first occur. */
  function Distinct(tokens: seq<string>): (keys: seq<string>)
    ensures forall t :: t in keys <==> t in tokens
  {
    if tokens == [] then []
    else
      var keys := Distinct(tokens[..|tokens| - 1]);
      assert forall t :: t in tokens <==> t in tokens[..|tokens| - 1] || t == tokens[|tokens| - 1];
      if tokens[|tokens| - 1] in keys then keys else keys + [tokens[|tokens| - 1]]
  }

  /** Each key of the counter occurs once. */
  lemma {:induction false} DistinctKeysUnique(tokens: seq<string>)
    ensures forall i, j :: 0 <= i < j < |Distinct(tokens)| ==> Distinct(tokens)[i] != Distinct(tokens)[j]
  {
    if tokens != [] {
      DistinctKeysUnique(tokens[..|tokens| - 1]);
    }
  }

  /** The inverted index after the chunk is listed, with its count in `tokens`, under each of `terms` in turn. */
  function PostAll(index: map<string, map<string, int>>, chunkId: string, tokens: seq<string>, terms: seq<string>): map<string, map<string, int>>
  {
    if terms == [] then index
    else
      var prev := PostAll(index, chunkId, tokens, terms[..|terms| - 1]);
      var t := terms[|terms| - 1];
      prev[t := Postings(prev, t)[chunkId := Count(tokens, t)]]
  }

  /** After posting, a listed term holds its old entries plus the chunk with its count; every other term is untouched. */
  lemma {:induction false} PostAllAt(index: map<string, map<string, int>>, chunkId: string, tokens: seq<string>, terms: seq<string>, t: string)
    ensures t in PostAll(index, chunkId, tokens, terms) <==> t in index || t in terms
    ensures t in terms ==> PostAll(index, chunkId, tokens, terms)[t] == Postings(index, t)[chunkId := Count(tokens, t)]
    ensures t !in terms && t in index ==> PostAll(index, chunkId, tokens, terms)[t] == index[t]
  {
    if terms != [] {
      var init := terms[..|terms| - 1];
      PostAllAt(index, chunkId, tokens, init, t);
      assert forall u :: u in terms <==> u in init || u == terms[|terms| - 1];
      if t in init && t == terms[|terms| - 1] {
        var prev := PostAll(index, chunkId, tokens, init);
        assert Postings(prev, t)[chunkId := Count(tokens, t)] == Postings(index, t)[chunkId := Count(tokens, t)][chunkId := Count(tokens, t)];
      }
    }
  }

  /**
   * `add_document`: the chunk is stored (replacing one with the same id),
   * its length recorded, `doc_count` grows by one, and every distinct token
   * lists the chunk with its count; terms of an earlier text of the same
   * chunk keep their old entries.
   */
  function AddOne(d: IndexData, chunkId: string, tokens: seq<string>, text: string, docId: string,
                  metadata: Option<map<string, Json>>): IndexData
  {
    var index := PostAll(d.invertedIndex, chunkId, tokens, Distinct(tokens));
    IndexData(
      d.documents[chunkId := Document(text, tokens, docId, if metadata.Some? then metadata.value else map[])],
      d.docLengths[chunkId := |tokens|],
      d.docCount + 1,
      index,
      FreqOf(index))
  }

  /** Every posting names a stored chunk. */
  ghost predicate PostingsStored(d: IndexData) {
    forall t, c :: t in d.invertedIndex && c in d.invertedIndex[t] ==> c in d.documents
  }

  /** `doc_lengths` holds the token count of every stored chunk and nothing else. */
  ghost predicate LengthsRecorded(d: IndexData) {
    && d.docLengths.Keys == d.documents.Keys
    && (forall c :: c in d.documents ==> d.docLengths[c] == |d.documents[c].tokens|)
  }

  /** The bookkeeping every reachable index keeps. */
  ghost predicate ValidData(d: IndexData) {
    && d.docFreq == FreqOf(d.invertedIndex)
    && LengthsRecorded(d)
    && PostingsStored(d)
    && |d.documents| <= d.docCount
  }

  /** `AddOne` spelled out field by field. */
  lemma AddOneIs(d: IndexData, chunkId: string, tokens: seq<string>, text: string, docId: string,
                 metadata: Option<map<string, Json>>, index: map<string, map<string, int>>, freq: map<string, int>)
    requires index == PostAll(d.invertedIndex, chunkId, tokens, Distinct(tokens)) && freq == FreqOf(index)
    ensures AddOne(d, chunkId, tokens, text, docId, metadata) ==
      IndexData(d.documents[chunkId := Document(text, tokens, docId, if metadata.Some? then metadata.value else map[])],
                d.docLengths[chunkId := |tokens|], d.docCount + 1, index, freq)
  {
  }

  lemma AddOneStored(d: IndexData, chunkId: string, tokens: seq<string>, text: string, docId: string,
                     metadata: Option<map<string, Json>>)
    requires PostingsStored(d)
    ensures PostingsStored(AddOne(d, chunkId, tokens, text, docId, metadata))
  {
    var index := PostAll(d.invertedIndex, chunkId, tokens, Distinct(tokens));
    var docs := AddOne(d, chunkId, tokens, text, docId, metadata).documents;
    forall t, c | t in index && c in index[t]
      ensures c in docs
    {
      PostAllAt(d.invertedIndex, chunkId, tokens, Distinct(tokens), t);
      if t in Distinct(tokens) && c != chunkId {
        assert c in Postings(d.invertedIndex, t);
      }
    }
  }

  lemma AddOneCount(d: IndexData, chunkId: string, tokens: seq<string>, text: string, docId: string,
                    metadata: Option<map<string, Json>>)
    requires |d.documents| <= d.docCount
    ensures var e := AddOne(d, chunkId, tokens, text, docId, metadata); |e.documents| <= e.docCount
  {
    var e := AddOne(d, chunkId, tokens, text, docId, metadata);
    assert e.documents.Keys == d.documents.Keys + {chunkId};
    assert |e.documents.Keys| <= |d.documents.Keys| + 1;
  }

  /** `doc_freq[t]` is the number of chunks in `inverted_index[t]`, and `doc_count` bounds the number of stored chunks. */
  lemma AddOnePreservesValid(d: IndexData, chunkId: string, tokens: seq<string>, text: string, docId: string,
                             metadata: Option<map<string, Json>>)
    requires ValidData(d)
    ensures ValidData(AddOne(d, chunkId, tokens, text, docId, metadata))
  {
    AddOneStored(d, chunkId, tokens, text, docId, metadata);
    AddOneCount(d, chunkId, tokens, text, docId, metadata);
  }

  /** Every posting is exact: the chunk is stored and holds the term that many times. */
  ghost predicate PostingsExact(d: IndexData) {
    forall t, c :: t in d.invertedIndex && c in d.invertedIndex[t] ==>
      c in d.documents && d.invertedIndex[t][c] == Count(d.documents[c].tokens, t) > 0
  }

  /** Every token of a stored chunk lists that chunk. */
  ghost predicate TokensPosted(d: IndexData) {
    forall c, t :: c in d.documents && t in d.documents[c].tokens ==> t in d.invertedIndex && c in d.invertedIndex[t]
  }

  /** The inverted index agrees exactly with the stored token lists. */
  ghost predicate Accurate(d: IndexData) {
    PostingsExact(d) && TokensPosted(d)
  }

  lemma AddNewKeepsExact(d: IndexData, chunkId: string, tokens: seq<string>, text: string, docId: string,
                         metadata: Option<map<string, Json>>)
    requires PostingsExact(d) && chunkId !in d.documents
    ensures PostingsExact(AddOne(d, chunkId, tokens, text, docId, metadata))
  {
    var keys := Distinct(tokens);
    var index := PostAll(d.invertedIndex, chunkId, tokens, keys);
    var doc := Document(text, tokens, docId, if metadata.Some? then metadata.value else map[]);
    var docs := d.documents[chunkId := doc];
    forall t, c | t in index && c in index[t]
      ensures c in docs && index[t][c] == Count(docs[c].tokens, t) > 0
    {
      PostAllAt(d.invertedIndex, chunkId, tokens, keys, t);
      if c != chunkId {
        if t in keys {
          assert c in Postings(d.invertedIndex, t);
        }
        assert c in d.invertedIndex[t] && index[t][c] == d.invertedIndex[t][c];
      }
    }
    AddOneIs(d, chunkId, tokens, text, docId, metadata, index, FreqOf(index));
  }

  lemma AddKeepsPosted(d: IndexData, chunkId: string, tokens: seq<string>, text: string, docId: string,
                       metadata: Option<map<string, Json>>)
    requires TokensPosted(d)
    ensures TokensPosted(AddOne(d, chunkId, tokens, text, docId, metadata))
  {
    var e := AddOne(d, chunkId, tokens, text, docId, metadata);
    var keys := Distinct(tokens);
    forall c, t | c in e.documents && t in e.documents[c].tokens
      ensures t in e.invertedIndex && c in e.invertedIndex[t]
    {
      PostAllAt(d.invertedIndex, chunkId, tokens, keys, t);
    }
  }

  /** Adding a new chunk id keeps the inverted index in exact agreement with the stored tokens. */
  lemma AddNewKeepsAccurate(d: IndexData, chunkId: string, tokens: seq<string>, text: string, docId: string,
                            metadata: Option<map<string, Json>>)
    requires Accurate(d) && chunkId !in d.documents
    ensures Accurate(AddOne(d, chunkId, tokens, text, docId, metadata))
  {
    AddNewKeepsExact(d, chunkId, tokens, text, docId, metadata);
    AddKeepsPosted(d, chunkId, tokens, text, docId, metadata);
  }

  /**
   * Re-adding a chunk with other text leaves it listed under a term it no
   * longer holds, and counts it twice in `doc_count` though one chunk is stored.
   */
  lemma ReAddLeavesStalePosting()
    ensures var d0 := IndexData(map[], map[], 0, map[], map[]);
            var d1 := AddOne(d0, "c", ["old"], "old", "", None);
            var d2 := AddOne(d1, "c", ["new"], "new", "", None);
            && "old" in d2.invertedIndex && "c" in d2.invertedIndex["old"] && "old" !in d2.documents["c"].tokens
            && d2.docCount == 2 && |d2.documents| == 1
  {
    var d0 := IndexData(map[], map[], 0, map[], map[]);
    var d1 := AddOne(d0, "c", ["old"], "old", "", None);
    PostAllAt(d0.invertedIndex, "c", ["old"], Distinct(["old"]), "old");
    var d2 := AddOne(d1, "c", ["new"], "new", "", None);
    assert "old" !in Distinct(["new"]);
    PostAllAt(d1.invertedIndex, "c", ["new"], Distinct(["new"]), "old");
  }

  /** One hit of `BM25Index.search`. */
  datatype Bm25Result = Bm25Result(chunkId: string, text: string, score: real, docId: string, metadata: map<string, Json>)

  /** The chunk a BM25 result names. */
  function ResultChunk(r: Bm25Result): string { r.chunkId }

  /** `key=lambda x: x.score, reverse=True`. */
  const ByScore := (a: Bm25Result, b: Bm25Result) => a.score >= b.score

  /** The chunks listed under at least one of `terms`. */
  function Candidates(index: map<string, map<string, int>>, terms: seq<string>): (cs: set<string>)
    ensures forall c :: c in cs <==> exists t :: t in terms && t in index && c in index[t]
  {
    if terms == [] then {}
    else
      var init := terms[..|terms| - 1];
      assert forall t :: t in terms <==> t in init || t == terms[|terms| - 1];
      Candidates(index, init) + if terms[|terms| - 1] in index then index[terms[|terms| - 1]].Keys else {}
  }

  /** A candidate of a valid index is a stored chunk. */
  lemma CandidateStored(d: IndexData, terms: seq<string>, c: string)
    requires ValidData(d) && c in Candidates(d.invertedIndex, terms)
    ensures c in d.documents
  {
  }

  /** Every candidate of a valid index is a stored chunk. */
  lemma CandidatesStored(d: IndexData, terms: seq<string>)
    requires ValidData(d)
    ensures Candidates(d.invertedIndex, terms) <= d.documents.Keys
  {
    forall c | c in Candidates(d.invertedIndex, terms)
      ensures c in d.documents
    {
      CandidateStored(d, terms, c);
    }
  }

  /**
   * A result of `search`: the chunk holds one of the query tokens, its
   * score reaches the threshold, and text, document id and metadata are
   * the stored ones.
   */
  ghost predicate IsHit(d: IndexData, tokens: seq<string>, score: (string, seq<string>) -> real, threshold: real, r: Bm25Result) {
    && r.chunkId in Candidates(d.invertedIndex, tokens)
    && r.chunkId in d.documents
    && r.score == score(r.chunkId, tokens) >= threshold
    && r.text == d.documents[r.chunkId].text
    && r.docId == d.documents[r.chunkId].docId
    && r.metadata == d.documents[r.chunkId].metadata
  }

  /** The loop of `search` that gathers the chunks listed under each query token. */
  method CollectCandidates(index: map<string, map<string, int>>, tokens: seq<string>) returns (candidates: set<string>)
    ensures candidates == Candidates(index, tokens)
  {
    candidates := {};
    for i := 0 to |tokens|
      invariant candidates == Candidates(index, tokens[..i])
    {
      assert tokens[..i + 1][..i] == tokens[..i];
      if tokens[i] in index {
        candidates := candidates + index[tokens[i]].Keys;
      }
    }
    assert tokens[..|tokens|] == tokens;
  }

  /** The loop of `search` that scores each candidate and keeps those reaching the threshold. */
  method ScoreCandidates(d: IndexData, tokens: seq<string>, candidates: set<string>,
                         score: (string, seq<string>) -> real, threshold: real)
    returns (found: seq<Bm25Result>)
    requires candidates == Candidates(d.invertedIndex, tokens) && candidates <= d.documents.Keys
    ensures forall r :: r in found ==> IsHit(d, tokens, score, threshold, r)
    ensures forall c :: c in candidates && score(c, tokens) >= threshold ==> exists r :: r in found && r.chunkId == c
    ensures KeysDistinct(ResultChunk, found)
  {
    found := [];
    var rest := candidates;
    while rest != {}
      invariant rest <= candidates
      invariant forall r :: r in found ==> IsHit(d, tokens, score, threshold, r)
      invariant forall i :: 0 <= i < |found| ==> ResultChunk(found[i]) !in rest
      invariant KeysDistinct(ResultChunk, found)
      invariant forall c :: c in candidates - rest && score(c, tokens) >= threshold ==> exists r :: r in found && r.chunkId == c
      decreases rest
    {
      var c :| c in rest;
      var s := score(c, tokens);
      if s >= threshold {
        var doc := d.documents[c];
        var r := Bm25Result(c, doc.text, s, doc.docId, doc.metadata);
        AppendNewKey(ResultChunk, found, r);
        found := found + [r];
        assert found[|found| - 1].chunkId == c;
      }
      rest := rest - {c};
    }
  }

  /** Sorting the hits by score keeps exactly the same hits, in score order. */
  lemma RankedHits(d: IndexData, tokens: seq<string>, score: (string, seq<string>) -> real, threshold: real, found: seq<Bm25Result>)
    requires forall r :: r in found ==> IsHit(d, tokens, score, threshold, r)
    ensures SortedBy(ByScore, SortBy(ByScore, found))
    ensures forall r :: r in SortBy(ByScore, found) <==> r in found
  {
    KeyDescendingPreorder((r: Bm25Result) => r.score);
    SortBySorted(ByScore, found);
    var sorted := SortBy(ByScore, found);
    forall r
      ensures r in sorted <==> r in found
    {
      assert r in sorted <==> r in multiset(sorted);
      assert r in found <==> r in multiset(found);
    }
  }

  /** One document of `add_documents`; absent keys are None. */
  datatype DocInput = DocInput(chunkId: Option<string>, text: string, docId: Option<string>, metadata: Option<map<string, Json>>)

  class BM25Index {
    /** The tokenizer, kept abstract. */
    const tokenize: string -> seq<string>
    var documents: map<string, Document>
    var docLengths: map<string, int>
    var docCount: int
    var invertedIndex: map<string, map<string, int>>
    var docFreq: map<string, int>

    function Snapshot(): IndexData
      reads this
    {
      IndexData(documents, docLengths, docCount, invertedIndex, docFreq)
    }

    ghost predicate Valid()
      reads this
    {
      ValidData(Snapshot())
    }

    constructor(tokenize: string -> seq<string>)
      ensures this.tokenize == tokenize
      ensures Snapshot() == IndexData(map[], map[], 0, map[], map[])
      ensures Valid()
    {
      this.tokenize := tokenize;
      documents := map[];
      docLengths := map[];
      docCount := 0;
      invertedIndex := map[];
      docFreq := map[];
    }

    /** `add_document`, with its loop over the distinct tokens (`Counter(tokens).items()`). */
    method AddDocument(chunkId: string, text: string, docId: string, metadata: Option<map<string, Json>>)
      requires Valid()
      modifies this
      ensures Valid()
      ensures Snapshot() == AddOne(old(Snapshot()), chunkId, tokenize(text), text, docId, metadata)
    {
      ghost var before := Snapshot();
      var tokens := tokenize(text);
      var doc := Document(text, tokens, docId, if metadata.Some? then metadata.value else map[]);
      var index, freq := PostTerms(invertedIndex, docFreq, chunkId, tokens);
      ghost var after := AddOne(before, chunkId, tokens, text, docId, metadata);
      AddOneIs(before, chunkId, tokens, text, docId, metadata, index, freq);
      AddOnePreservesValid(before, chunkId, tokens, text, docId, metadata);
      documents, docLengths, docCount, invertedIndex, docFreq :=
        documents[chunkId := doc], docLengths[chunkId := |tokens|], docCount + 1, index, freq;
      assert Snapshot() == after;
    }

    /** `add_documents`: each document in order; a missing chunk id becomes `str(len(documents))` at that point. */
    method AddDocuments(docs: seq<DocInput>)
      requires Valid()
      modifies this
      ensures Valid()
      ensures Snapshot() == AddAll(old(Snapshot()), docs)
    {
      var i := 0;
      ghost var before := Snapshot();
      while i < |docs|
        invariant i <= |docs|
        invariant Valid()
        invariant Snapshot() == AddAll(before, docs[..i])
      {
        var doc := docs[i];
        var chunkId := if doc.chunkId.Some? then doc.chunkId.value else NatToString(|documents|);
        AddDocument(chunkId, doc.text, if doc.docId.Some? then doc.docId.value else "", if doc.metadata.Some? then doc.metadata else Some(map[]));
        assert docs[..i + 1][..i] == docs[..i];
        i := i + 1;
      }
      assert docs[..i] == docs;
    }

    /** The index after `docs` are added one by one. */
    function AddAll(d: IndexData, docs: seq<DocInput>): IndexData
    {
      if docs == [] then d
      else
        var prev := AddAll(d, docs[..|docs| - 1]);
        var doc := docs[|docs| - 1];
        AddOne(prev, if doc.chunkId.Some? then doc.chunkId.value else NatToString(|prev.documents|), tokenize(doc.text), doc.text,
               if doc.docId.Some? then doc.docId.value else "", if doc.metadata.Some? then doc.metadata else Some(map[]))
    }

    /**
     * `search`: the chunks listed under at least one query token, scored,
     * kept when the score reaches the threshold, ordered by score (largest
     * first) and cut to `top_k`. `score(c, tokens)` is the BM25 score of
     * chunk `c` in the current index, kept abstract; `ranked` is the ordered
     * list before the cut.
     */
    method Search(query: string, topK: int, threshold: real, score: (string, seq<string>) -> real)
      returns (results: seq<Bm25Result>, ghost ranked: seq<Bm25Result>)
      requires Valid()
      ensures tokenize(query) == [] ==> results == []
      ensures results == PyPrefix(ranked, topK)
      ensures SortedBy(ByScore, ranked)
      ensures forall r :: r in ranked ==> IsHit(Snapshot(), tokenize(query), score, threshold, r)
      ensures forall c :: c in Candidates(invertedIndex, tokenize(query)) && score(c, tokenize(query)) >= threshold ==>
                exists r :: r in ranked && r.chunkId == c
      ensures KeysDistinct(ResultChunk, ranked)
    {
      var tokens := tokenize(query);
      if tokens == [] {
        return [], [];
      }
      var candidates := CollectCandidates(invertedIndex, tokens);
      CandidatesStored(Snapshot(), tokens);
      var found := ScoreCandidates(Snapshot(), tokens, candidates, score, threshold);
      var sorted := SortBy(ByScore, found);
      ranked := sorted;
      RankedHits(Snapshot(), tokens, score, threshold, found);
      PermutationKeepsKeysDistinct(ResultChunk, found, sorted);
      results := PyPrefix(sorted, topK);
    }

    /** `clear`: every map emptied and `doc_count` back to 0. */
    method Clear()
      modifies this
      ensures Snapshot() == IndexData(map[], map[], 0, map[], map[])
      ensures Valid()
    {
      documents := map[];
      docLengths := map[];
      invertedIndex := map[];
      docFreq := map[];
      docCount := 0;
    }
  }

  /**
   * The loop of `add_document` over `Counter(tokens).items()`: each term
   * gets an empty posting list and a zero count the first time it is seen,
   * its count grows when the chunk was not listed under it yet, and the
   * chunk is listed with its count.
   */
  method PostTerms(index0: map<string, map<string, int>>, freq0: map<string, int>, chunkId: string, tokens: seq<string>)
    returns (index: map<string, map<string, int>>, freq: map<string, int>)
    requires freq0 == FreqOf(index0)
    ensures index == PostAll(index0, chunkId, tokens, Distinct(tokens))
    ensures freq == FreqOf(index)
  {
    var termFreq := Distinct(tokens);
    index, freq := index0, freq0;
    for i := 0 to |termFreq|
      invariant index == PostAll(index0, chunkId, tokens, termFreq[..i])
      invariant freq == FreqOf(index)
    {
      index, freq := PostTerm(index, freq, chunkId, termFreq[i], Count(tokens, termFreq[i]));
      PostAllSnoc(index0, chunkId, tokens, termFreq, i);
    }
    assert termFreq[..|termFreq|] == termFreq;
  }

  /** One pass of that loop: term `term` lists the chunk with count `count`, its document count kept in step. */
  method PostTerm(index0: map<string, map<string, int>>, freq0: map<string, int>, chunkId: string, term: string, count: int)
    returns (index: map<string, map<string, int>>, freq: map<string, int>)
    requires freq0 == FreqOf(index0)
    ensures index == index0[term := Postings(index0, term)[chunkId := count]]
    ensures freq == FreqOf(index)
  {
    index, freq := index0, freq0;
    if term !in index {
      index := index[term := map[]];
      freq := freq[term := 0];
    }
    if chunkId !in index[term] {
      freq := freq[term := freq[term] + 1];
    }
    index := index[term := index[term][chunkId := count]];
    assert index == index0[term := Postings(index0, term)[chunkId := count]];
    assert freq == freq0[term := (if term in freq0 then freq0[term] else 0) + (if chunkId in Postings(index0, term) then 0 else 1)];
    FreqStep(index0, freq0, term, chunkId, count);
  }

  lemma PostAllSnoc(index: map<string, map<string, int>>, chunkId: string, tokens: seq<string>, terms: seq<string>, i: nat)
    requires i < |terms|
    ensures PostAll(index, chunkId, tokens, terms[..i + 1]) ==
      PostAll(index, chunkId, tokens, terms[..i])[terms[i] := Postings(PostAll(index, chunkId, tokens, terms[..i]), terms[i])[chunkId := Count(tokens, terms[i])]]
  {
    assert terms[..i + 1][..i] == terms[..i];
  }

  /** Listing chunk `c` under term `t` raises the term's count by one exactly when `c` was not listed yet. */
  lemma FreqStep(index: map<string, map<string, int>>, freq: map<string, int>, t: string, c: string, v: int)
    requires freq == FreqOf(index)
    ensures FreqOf(index[t := Postings(index, t)[c := v]]) ==
      freq[t := (if t in freq then freq[t] else 0) + (if c in Postings(index, t) then 0 else 1)]
  {
    CardUpdate(Postings(index, t), c, v);
  }

  lemma CardUpdate(p: map<string, int>, c: string, v: int)
    ensures |p[c := v]| == if c in p then |p| else |p| + 1
  {
    if c in p {
      assert p[c := v].Keys == p.Keys;
    } else {
      assert p[c := v].Keys == p.Keys + {c};
    }
  }

  // ---------------------------------------------------------------------------
  // HybridRetriever

  /** A 1-based position in a result list. */
  type Rank = r: int | r >= 1 witness 1

  /** One result of the vector search, as a dict; absent keys are None. */
  datatype VectorHit = VectorHit(chunkId: Option<string>, id: Option<string>, text: Option<string>,
                                 docId: Option<string>, metadata: Option<map<string, Json>>)

  /** One merged result of `HybridRetriever.search`. */
  datatype HybridHit = HybridHit(chunkId: string, text: string, docId: string, metadata: map<string, Json>,
                                 combinedScore: real, bm25Rank: Option<Rank>, vectorRank: Option<Rank>)

  /** A chunk id with its combined score: one item of `combined_scores`. */
  datatype Scored = Scored(chunkId: string, score: real)

  function ScoredChunk(p: Scored): string { p.chunkId }

  function HitChunk(h: HybridHit): string { h.chunkId }

  /** `key=lambda x: x[1], reverse=True`. */
  const ByCombined := (a: Scored, b: Scored) => a.score >= b.score

  /** `r.get("chunk_id", r.get("id", str(i)))`. */
  function VectorKey(i: nat, r: VectorHit): string {
    if r.chunkId.Some? then r.chunkId.value else if r.id.Some? then r.id.value else NatToString(i)
  }

  /** The key of every vector result, by position. */
  function VectorKeys(hits: seq<VectorHit>): (keys: seq<string>)
    ensures |keys| == |hits|
    ensures forall i :: 0 <= i < |hits| ==> keys[i] == VectorKey(i, hits[i])
  {
    if hits == [] then [] else VectorKeys(hits[..|hits| - 1]) + [VectorKey(|hits| - 1, hits[|hits| - 1])]
  }

  /** The chunk id of every BM25 result. */
  function ResultIds(rs: seq<Bm25Result>): (ids: seq<string>)
    ensures |ids| == |rs|
    ensures forall i :: 0 <= i < |rs| ==> ids[i] == rs[i].chunkId
  {
    if rs == [] then [] else ResultIds(rs[..|rs| - 1]) + [rs[|rs| - 1].chunkId]
  }

  /** `{key: i + 1 for i, key in enumerate(keys)}`: a repeated key keeps its last rank. */
  function Ranks(keys: seq<string>): (m: map<string, Rank>)
    ensures forall k :: k in m <==> k in keys
  {
    if keys == [] then map[]
    else
      var init := keys[..|keys| - 1];
      assert forall k :: k in keys <==> k in init || k == keys[|keys| - 1];
      Ranks(init)[keys[|keys| - 1] := |keys|]
  }

  /** `{key: v for key, v in zip(keys, vals)}`: a repeated key keeps its last value. */
  function LastWins<V>(keys: seq<string>, vals: seq<V>): (m: map<string, V>)
    requires |keys| == |vals|
    ensures forall k :: k in m <==> k in keys
  {
    if keys == [] then map[]
    else
      var init := keys[..|keys| - 1];
      assert forall k :: k in keys <==> k in init || k == keys[|keys| - 1];
      LastWins(init, vals[..|vals| - 1])[keys[|keys| - 1] := vals[|vals| - 1]]
  }

  /** The rank of a key is one more than the position of its last occurrence. */
  lemma {:induction false} RanksLast(keys: seq<string>, c: string)
    requires c in keys
    ensures 1 <= Ranks(keys)[c] <= |keys| && keys[Ranks(keys)[c] - 1] == c
    ensures forall j :: Ranks(keys)[c] <= j < |keys| ==> keys[j] != c
  {
    var n := |keys|;
    var init := keys[..n - 1];
    if keys[n - 1] != c {
      assert c in init by {
        var i :| 0 <= i < n && keys[i] == c;
        assert init[i] == c;
      }
      RanksLast(init, c);
      var r := Ranks(init)[c];
      assert Ranks(keys)[c] == r;
      assert keys[r - 1] == init[r - 1];
      forall j | r <= j < n
        ensures keys[j] != c
      {
        if j < n - 1 {
          assert keys[j] == init[j];
        }
      }
    }
  }

  /** The value kept for a key is the one at the position its rank names. */
  lemma {:induction false} LastWinsLast<V>(keys: seq<string>, vals: seq<V>, c: string)
    requires |keys| == |vals| && c in keys
    ensures 1 <= Ranks(keys)[c] <= |keys|
    ensures LastWins(keys, vals)[c] == vals[Ranks(keys)[c] - 1]
  {
    RanksLast(keys, c);
    var n := |keys|;
    var init := keys[..n - 1];
    if keys[n - 1] != c {
      assert c in init by {
        var i :| 0 <= i < n && keys[i] == c;
        assert init[i] == c;
      }
      LastWinsLast(init, vals[..n - 1], c);
      assert Ranks(keys)[c] == Ranks(init)[c];
    }
  }

  /** `dict.get`. */
  function Get<V>(m: map<string, V>, k: string): (r: Option<V>)
    ensures r.Some? <==> k in m
    ensures r.Some? ==> r.value == m[k]
  {
    if k in m then Some(m[k]) else None
  }

  /**
   * Reciprocal-rank fusion: `bm25_weight / (rrf_k + bm25_rank)` when the
   * chunk is among the BM25 results, plus `vector_weight / (rrf_k +
   * vector_rank)` when it is among the vector results.
   */
  function RrfScore(bm25Weight: real, vectorWeight: real, rrfK: nat, bm25Rank: Option<Rank>, vectorRank: Option<Rank>): (s: real)
    ensures bm25Rank.None? && vectorRank.None? ==> s == 0.0
  {
    (if bm25Rank.Some? then bm25Weight * (1.0 / (rrfK + bm25Rank.value) as real) else 0.0)
    + (if vectorRank.Some? then vectorWeight * (1.0 / (rrfK + vectorRank.value) as real) else 0.0)
  }

  /** With non-negative weights the fused score is never negative. */
  lemma RrfScoreNonNegative(bm25Weight: real, vectorWeight: real, rrfK: nat, bm25Rank: Option<Rank>, vectorRank: Option<Rank>)
    requires bm25Weight >= 0.0 && vectorWeight >= 0.0
    ensures RrfScore(bm25Weight, vectorWeight, rrfK, bm25Rank, vectorRank) >= 0.0
  {
    if bm25Rank.Some? {
      WeightedReciprocal(bm25Weight, (rrfK + bm25Rank.value) as real);
    }
    if vectorRank.Some? {
      WeightedReciprocal(vectorWeight, (rrfK + vectorRank.value) as real);
    }
  }

  lemma WeightedReciprocal(w: real, x: real)
    requires w >= 0.0 && x > 0.0
    ensures w * (1.0 / x) >= 0.0
  {
  }

  /** With positive weights, a better rank in one list and the same standing in the other never lowers the score. */
  lemma RrfBetterRank(bw: real, vw: real, k: nat, b1: Rank, b2: Rank, v: Option<Rank>)
    requires bw > 0.0 && b1 < b2
    ensures RrfScore(bw, vw, k, Some(b1), v) > RrfScore(bw, vw, k, Some(b2), v)
  {
    var x1, x2 := (k + b1) as real, (k + b2) as real;
    ReciprocalFalls(x1, x2);
    ScaleKeepsOrder(bw, 1.0 / x1, 1.0 / x2);
  }

  lemma ReciprocalFalls(x1: real, x2: real)
    requires 0.0 < x1 < x2
    ensures 1.0 / x1 > 1.0 / x2
  {
    assert (1.0 / x2) * x2 == 1.0;
    assert (1.0 / x1) * x1 == 1.0;
  }

  lemma ScaleKeepsOrder(w: real, a: real, b: real)
    requires w > 0.0 && a > b
    ensures w * a > w * b
  {
    assert w * a - w * b == w * (a - b);
  }

  /**
   * The result for chunk `c` with combined score `s`: taken from the BM25
   * result when the chunk is among them, else from the vector result with
   * defaults "" / "" / {}.
   */
  function HitOf(bm25: seq<Bm25Result>, vec: seq<VectorHit>, c: string, s: real): (h: HybridHit)
    requires c in ResultIds(bm25) || c in VectorKeys(vec)
    ensures h.chunkId == c && h.combinedScore == s
    ensures h.bm25Rank == Get(Ranks(ResultIds(bm25)), c) && h.vectorRank == Get(Ranks(VectorKeys(vec)), c)
  {
    var bRanks, vRanks := Ranks(ResultIds(bm25)), Ranks(VectorKeys(vec));
    var bMap := LastWins(ResultIds(bm25), bm25);
    var vMap := LastWins(VectorKeys(vec), vec);
    if c in bMap then
      HybridHit(c, bMap[c].text, bMap[c].docId, bMap[c].metadata, s, Get(bRanks, c), Get(vRanks, c))
    else
      var r := vMap[c];
      HybridHit(c, if r.text.Some? then r.text.value else "", if r.docId.Some? then r.docId.value else "",
                if r.metadata.Some? then r.metadata.value else map[], s, Get(bRanks, c), Get(vRanks, c))
  }

  /** `set(bm25_ranks.keys()) | set(vector_ranks.keys())`. */
  function AllChunks(bm25: seq<Bm25Result>, vec: seq<VectorHit>): (cs: set<string>)
    ensures forall c :: c in cs <==> c in ResultIds(bm25) || c in VectorKeys(vec)
  {
    Ranks(ResultIds(bm25)).Keys + Ranks(VectorKeys(vec)).Keys
  }

  /** `combined_scores[c]`. */
  function Combined(bm25: seq<Bm25Result>, vec: seq<VectorHit>, bw: real, vw: real, k: nat, c: string): real {
    RrfScore(bw, vw, k, Get(Ranks(ResultIds(bm25)), c), Get(Ranks(VectorKeys(vec)), c))
  }

  /** `items` holds every chunk of either list with its combined score, and nothing else. */
  ghost predicate AllScored(bm25: seq<Bm25Result>, vec: seq<VectorHit>, bw: real, vw: real, k: nat, items: seq<Scored>) {
    && (forall p :: p in items ==> p.chunkId in AllChunks(bm25, vec) && p.score == Combined(bm25, vec, bw, vw, k, p.chunkId))
    && (forall c :: c in AllChunks(bm25, vec) ==> Scored(c, Combined(bm25, vec, bw, vw, k, c)) in items)
  }

  /**
   * The outcome of the merge: `ranked` holds every chunk with its combined
   * score, largest first, and the results are its first `top_k` entries,
   * each filled in by `HitOf`.
   */
  ghost predicate Merged(bm25: seq<Bm25Result>, vec: seq<VectorHit>, bw: real, vw: real, k: nat, topK: int,
                         ranked: seq<Scored>, hits: seq<HybridHit>) {
    && AllScored(bm25, vec, bw, vw, k, ranked)
    && KeysDistinct(ScoredChunk, ranked)
    && SortedBy(ByCombined, ranked)
    && |hits| == |PyPrefix(ranked, topK)|
    && (forall i :: 0 <= i < |hits| ==>
          (ranked[i].chunkId in AllChunks(bm25, vec) && hits[i] == HitOf(bm25, vec, ranked[i].chunkId, ranked[i].score)))
  }

  /**
   * `combined_scores` as a function value, characterised by `Combined` so
   * that the scoring loop's invariants need not unfold the arithmetic.
   */
  ghost function CombinedScores(bm25: seq<Bm25Result>, vec: seq<VectorHit>, bw: real, vw: real, k: nat): (f: string -> real)
    ensures forall c {:trigger Combined(bm25, vec, bw, vw, k, c)} :: f(c) == Combined(bm25, vec, bw, vw, k, c)
  {
    var w := (c: string) => Combined(bm25, vec, bw, vw, k, c);
    assert forall c {:trigger Combined(bm25, vec, bw, vw, k, c)} :: w(c) == Combined(bm25, vec, bw, vw, k, c);
    var f: string -> real :| forall c {:trigger Combined(bm25, vec, bw, vw, k, c)} :: f(c) == Combined(bm25, vec, bw, vw, k, c);
    f
  }

  /** The loop of `HybridRetriever.search` that computes `combined_scores` over the union of both key sets. */
  method CombineScores(bm25: seq<Bm25Result>, vec: seq<VectorHit>, bw: real, vw: real, k: nat)
    returns (items: seq<Scored>)
    ensures AllScored(bm25, vec, bw, vw, k, items)
    ensures KeysDistinct(ScoredChunk, items)
  {
    var bRanks, vRanks := Ranks(ResultIds(bm25)), Ranks(VectorKeys(vec));
    ghost var f := CombinedScores(bm25, vec, bw, vw, k);
    var all := bRanks.Keys + vRanks.Keys;
    var rest := all;
    items := [];
    while rest != {}
      invariant rest <= all
      invariant forall p :: p in items ==> p.chunkId in all && p.score == f(p.chunkId)
      invariant forall c :: c in all - rest ==> Scored(c, f(c)) in items
      invariant forall p :: p in items ==> p.chunkId !in rest
      invariant KeysDistinct(ScoredChunk, items)
      decreases rest
    {
      var c :| c in rest;
      var rrf := RrfOf(bRanks, vRanks, bw, vw, k, c);
      assert rrf == f(c) by {
        assert rrf == Combined(bm25, vec, bw, vw, k, c);
      }
      items := items + [Scored(c, rrf)];
      rest := rest - {c};
    }
    assert all == AllChunks(bm25, vec);
    forall p | p in items
      ensures p.score == Combined(bm25, vec, bw, vw, k, p.chunkId)
    {
      assert p.score == f(p.chunkId);
    }
    forall c | c in all
      ensures Scored(c, Combined(bm25, vec, bw, vw, k, c)) in items
    {
      assert Scored(c, f(c)) in items;
    }
  }

  /** The body of the scoring loop: each list in which the chunk has a rank adds its weighted reciprocal rank. */
  method RrfOf(bRanks: map<string, Rank>, vRanks: map<string, Rank>, bw: real, vw: real, k: nat, c: string) returns (rrf: real)
    ensures rrf == RrfScore(bw, vw, k, Get(bRanks, c), Get(vRanks, c))
  {
    rrf := 0.0;
    if c in bRanks {
      rrf := rrf + bw * (1.0 / (k + bRanks[c]) as real);
    }
    if c in vRanks {
      rrf := rrf + vw * (1.0 / (k + vRanks[c]) as real);
    }
  }

  /** Sorting the scored items keeps exactly the same items, in score order. */
  lemma RankedScores(bm25: seq<Bm25Result>, vec: seq<VectorHit>, bw: real, vw: real, k: nat, items: seq<Scored>)
    requires AllScored(bm25, vec, bw, vw, k, items)
    ensures AllScored(bm25, vec, bw, vw, k, SortBy(ByCombined, items))
    ensures SortedBy(ByCombined, SortBy(ByCombined, items))
  {
    KeyDescendingPreorder((p: Scored) => p.score);
    SortBySorted(ByCombined, items);
    var sorted := SortBy(ByCombined, items);
    forall p
      ensures p in sorted <==> p in items
    {
      assert p in sorted <==> p in multiset(sorted);
      assert p in items <==> p in multiset(items);
    }
  }

  /**
   * Steps 3-7 of `HybridRetriever.search`: rank maps, combined scores,
   * sort, and the first `top_k` results, each filled in by `HitOf` (the
   * `else: continue` of the source never happens: every key comes from one
   * of the two lists).
   */
  method Merge(bm25: seq<Bm25Result>, vec: seq<VectorHit>, bw: real, vw: real, k: nat, topK: int)
    returns (hits: seq<HybridHit>, ghost ranked: seq<Scored>)
    ensures Merged(bm25, vec, bw, vw, k, topK, ranked, hits)
  {
    var items := CombineScores(bm25, vec, bw, vw, k);
    var sorted := SortBy(ByCombined, items);
    RankedScores(bm25, vec, bw, vw, k, items);
    PermutationKeepsKeysDistinct(ScoredChunk, items, sorted);
    ranked := sorted;
    var top := PyPrefix(sorted, topK);
    hits := [];
    for i := 0 to |top|
      invariant |hits| == i
      invariant forall j :: 0 <= j < i ==>
                  (sorted[j].chunkId in AllChunks(bm25, vec) && hits[j] == HitOf(bm25, vec, sorted[j].chunkId, sorted[j].score))
    {
      assert top[i] == sorted[i] && sorted[i] in sorted;
      hits := hits + [HitOf(bm25, vec, top[i].chunkId, top[i].score)];
    }
  }

  /** Every result is a chunk of one of the two lists, at most `top_k` are returned, and they come largest combined score first. */
  lemma MergedShape(bm25: seq<Bm25Result>, vec: seq<VectorHit>, bw: real, vw: real, k: nat, topK: int,
                    ranked: seq<Scored>, hits: seq<HybridHit>)
    requires Merged(bm25, vec, bw, vw, k, topK, ranked, hits)
    ensures topK >= 0 ==> |hits| <= topK
    ensures forall i :: 0 <= i < |hits| ==> hits[i].chunkId in ResultIds(bm25) || hits[i].chunkId in VectorKeys(vec)
    ensures forall i, j :: 0 <= i < j < |hits| ==> hits[i].combinedScore >= hits[j].combinedScore
  {
    forall i, j | 0 <= i < j < |hits|
      ensures hits[i].combinedScore >= hits[j].combinedScore
    {
      assert ByCombined(ranked[i], ranked[j]);
    }
  }

  /** No chunk is returned twice. */
  lemma MergedDistinct(bm25: seq<Bm25Result>, vec: seq<VectorHit>, bw: real, vw: real, k: nat, topK: int,
                       ranked: seq<Scored>, hits: seq<HybridHit>)
    requires Merged(bm25, vec, bw, vw, k, topK, ranked, hits)
    ensures KeysDistinct(HitChunk, hits)
  {
    forall i, j | 0 <= i < j < |hits|
      ensures hits[i].chunkId != hits[j].chunkId
    {
      assert ScoredChunk(ranked[i]) != ScoredChunk(ranked[j]);
    }
  }

  /** A chunk of either list that is left out of the results scores no higher than any returned one. */
  lemma MergedKeepsBest(bm25: seq<Bm25Result>, vec: seq<VectorHit>, bw: real, vw: real, k: nat, topK: int,
                        ranked: seq<Scored>, hits: seq<HybridHit>, c: string)
    requires Merged(bm25, vec, bw, vw, k, topK, ranked, hits)
    requires c in ResultIds(bm25) || c in VectorKeys(vec)
    requires forall i :: 0 <= i < |hits| ==> hits[i].chunkId != c
    ensures forall i :: 0 <= i < |hits| ==> hits[i].combinedScore >= Combined(bm25, vec, bw, vw, k, c)
  {
    var p := Scored(c, Combined(bm25, vec, bw, vw, k, c));
    assert p in ranked;
    var j :| 0 <= j < |ranked| && ranked[j] == p;
    assert forall i :: 0 <= i < |hits| ==> ranked[i].chunkId != c;
    assert j >= |hits|;
    forall i | 0 <= i < |hits|
      ensures hits[i].combinedScore >= p.score
    {
      assert ByCombined(ranked[i], ranked[j]);
    }
  }

  /** When no more than `top_k` chunks are found, every chunk of either list is returned. */
  lemma MergedKeepsAll(bm25: seq<Bm25Result>, vec: seq<VectorHit>, bw: real, vw: real, k: nat, topK: int,
                       ranked: seq<Scored>, hits: seq<HybridHit>, c: string)
    requires Merged(bm25, vec, bw, vw, k, topK, ranked, hits)
    requires c in ResultIds(bm25) || c in VectorKeys(vec)
    requires topK >= |ranked|
    ensures exists i :: 0 <= i < |hits| && hits[i].chunkId == c
  {
    var p := Scored(c, Combined(bm25, vec, bw, vw, k, c));
    assert p in ranked;
    var j :| 0 <= j < |ranked| && ranked[j] == p;
    assert hits[j].chunkId == c;
  }

  /** When the BM25 list holds the chunk, the result carries its BM25 text, document id and metadata. */
  lemma HitPrefersBm25(bm25: seq<Bm25Result>, vec: seq<VectorHit>, c: string, s: real)
    requires c in ResultIds(bm25)
    ensures 1 <= Ranks(ResultIds(bm25))[c] <= |bm25|
    ensures var r := bm25[Ranks(ResultIds(bm25))[c] - 1];
            var h := HitOf(bm25, vec, c, s);
            r.chunkId == c && h.text == r.text && h.docId == r.docId && h.metadata == r.metadata
            && h.bm25Rank == Some(Ranks(ResultIds(bm25))[c])
  {
    RanksLast(ResultIds(bm25), c);
    LastWinsLast(ResultIds(bm25), bm25, c);
  }

  /**
   * `HybridRetriever`: a BM25 index, an abstract vector search
   * `vector_search_fn(query, top_k)`, the two weights (which the RAG service
   * changes for one call) and the RRF constant.
   */
  class HybridRetriever {
    const index: BM25Index
    const vectorSearch: (string, int) -> seq<VectorHit>
    var bm25Weight: real
    var vectorWeight: real
    const rrfK: nat

    constructor(index: BM25Index, vectorSearch: (string, int) -> seq<VectorHit>, bm25Weight: real, vectorWeight: real, rrfK: nat)
      ensures this.index == index && this.vectorSearch == vectorSearch && this.rrfK == rrfK
      ensures this.bm25Weight == bm25Weight && this.vectorWeight == vectorWeight
    {
      this.index := index;
      this.vectorSearch := vectorSearch;
      this.bm25Weight := bm25Weight;
      this.vectorWeight := vectorWeight;
      this.rrfK := rrfK;
    }

    /**
     * `search`: the BM25 search (threshold 0.0, `bm25_top_k` results) and
     * the vector search (`vector_top_k` results) merged by `Merge`. `bm25`
     * is the BM25 list merged: the first `bm25_top_k` of `bm25Ranked`,
     * every candidate with a non-negative score, one entry per chunk,
     * largest score first.
     */
    method Search(query: string, topK: int, bm25TopK: int, vectorTopK: int, score: (string, seq<string>) -> real)
      returns (hits: seq<HybridHit>, ghost bm25: seq<Bm25Result>, ghost bm25Ranked: seq<Bm25Result>, ghost ranked: seq<Scored>)
      requires index.Valid()
      ensures index.tokenize(query) == [] ==> bm25 == []
      ensures bm25 == PyPrefix(bm25Ranked, bm25TopK)
      ensures SortedBy(ByScore, bm25Ranked) && KeysDistinct(ResultChunk, bm25Ranked)
      ensures forall r :: r in bm25Ranked ==> IsHit(index.Snapshot(), index.tokenize(query), score, 0.0, r)
      ensures forall c :: c in Candidates(index.invertedIndex, index.tokenize(query)) && score(c, index.tokenize(query)) >= 0.0 ==>
                exists r :: r in bm25Ranked && r.chunkId == c
      ensures Merged(bm25, vectorSearch(query, vectorTopK), bm25Weight, vectorWeight, rrfK, topK, ranked, hits)
    {
      var bm25Results;
      bm25Results, bm25Ranked := index.Search(query, bm25TopK, 0.0, score);
      bm25 := bm25Results;
      var vectorResults := vectorSearch(query, vectorTopK);
      hits, ranked := Merge(bm25Results, vectorResults, bm25Weight, vectorWeight, rrfK, topK);
    }
  }
}
