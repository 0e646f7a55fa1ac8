/**
 * The vector store's in-memory fallback: two dictionaries keyed by document
 * position (embeddings and stored documents) and a brute-force top-k search
 * over them. How a document or a query is embedded, and the cosine
 * similarity of two embeddings, are parameters.
 *
 * Every store writes the keys 0, 1, ..., n - 1 in increasing order, so the
 * dictionaries' keys are always 0 .. size - 1 and Python's insertion order
 * on them is increasing key order; the model keeps `size` for that.
 */
module VectorStore {
  import opened Collections
  import opened MathDataset

  type Embedding = seq<real>

  /** One search result: the document's key, its similarity and the stored document. */
  datatype SearchHit = SearchHit(id: nat, score: real, content: Doc)

  function Score(h: SearchHit): real { h.score }

  class VectorStore {
    var collectionName: string
    /** Whether `_use_fallback_storage` has created the in-memory dictionaries. */
    var hasFallback: bool
    var vectors: map<nat, Embedding>
    var metadata: map<nat, Doc>
    /** The number of keys, which are 0 .. size - 1. */
    var size: nat

    ghost predicate Valid()
      reads this
    {
      (forall k: nat :: k in vectors <==> k < size) &&
      metadata.Keys == vectors.Keys &&
      (!hasFallback ==> size == 0)
    }

    /** `__init__`: when the vector database cannot be reached, falls back to memory. */
    constructor (name: string, databaseReachable: bool)
      ensures Valid()
      ensures hasFallback == !databaseReachable
      ensures collectionName == if databaseReachable then name else "fallback_collection"
      ensures vectors == map[] && metadata == map[] && size == 0
    {
      collectionName := name;
      hasFallback := false;
      vectors := map[];
      metadata := map[];
      size := 0;
      new;
      if !databaseReachable {
        UseFallbackStorage();
      }
    }

    /** `_use_fallback_storage`: renames the collection and starts with empty dictionaries. */
    method UseFallbackStorage()
      modifies this
      ensures Valid()
      ensures hasFallback
      ensures collectionName == "fallback_collection"
      ensures vectors == map[] && metadata == map[] && size == 0
    {
      collectionName := "fallback_collection";
      vectors := map[];
      metadata := map[];
      size := 0;
      hasFallback := true;
    }

    /**
     * `_add_to_fallback`: the i-th document is stored under key i, with its
     * embedding. Before the fallback exists the dictionaries do not either,
     * and the call fails without changing anything (`stored` is false).
     */
    method AddToFallback(documents: seq<Doc>, embed: Doc -> Embedding) returns (stored: bool)
      requires Valid()
      modifies this
      ensures Valid()
      ensures stored == old(hasFallback)
      ensures hasFallback == old(hasFallback) && collectionName == old(collectionName)
      ensures !stored ==> vectors == old(vectors) && metadata == old(metadata) && size == old(size)
      ensures stored ==> size == Max(old(size), |documents|)
      ensures stored ==> forall i :: 0 <= i < |documents| ==>
        vectors[i] == embed(documents[i]) && metadata[i] == documents[i]
      ensures stored ==> forall k :: |documents| <= k < size ==>
        vectors[k] == old(vectors)[k] && metadata[k] == old(metadata)[k]
    {
      if !hasFallback {
        return false;
      }
      ghost var vectors0, metadata0, size0 := vectors, metadata, size;
      for i := 0 to |documents|
        invariant Valid() && hasFallback
        invariant collectionName == old(collectionName)
        invariant size == Max(size0, i)
        invariant forall j :: 0 <= j < i ==> vectors[j] == embed(documents[j]) && metadata[j] == documents[j]
        invariant forall k :: i <= k < size ==> vectors[k] == vectors0[k] && metadata[k] == metadata0[k]
      {
        StoreAt(i, embed(documents[i]), documents[i]);
      }
      return true;
    }

    /** `self.vectors[k] = e` and `self.metadata[k] = doc` for the next key or an existing one. */
    method StoreAt(k: nat, e: Embedding, doc: Doc)
      requires Valid() && hasFallback && k <= size
      modifies this
      ensures Valid() && hasFallback && collectionName == old(collectionName)
      ensures vectors == old(vectors)[k := e] && metadata == old(metadata)[k := doc]
      ensures size == Max(old(size), k + 1)
    {
      vectors := vectors[k := e];
      metadata := metadata[k := doc];
      if k == size {
        size := size + 1;
      }
    }

    /** The result `_search_fallback` builds for key `k`. */
    function Hit(queryVector: Embedding, similarity: (Embedding, Embedding) -> real, k: nat): SearchHit
      reads this
      requires k in vectors && k in metadata
    {
      SearchHit(k, similarity(queryVector, vectors[k]), metadata[k])
    }

    /** The results for keys 0 .. n - 1, in that order, before the threshold filter. */
    function Hits(queryVector: Embedding, similarity: (Embedding, Embedding) -> real, n: nat): (r: seq<SearchHit>)
      reads this
      requires Valid() && n <= size
      ensures |r| == n
      ensures forall i :: 0 <= i < n ==> r[i] == Hit(queryVector, similarity, i)
    {
      if n == 0 then [] else Hits(queryVector, similarity, n - 1) + [Hit(queryVector, similarity, n - 1)]
    }

    /** The documents among keys 0 .. n - 1 whose similarity reaches the threshold, in key order. */
    ghost function QualifyingUpTo(queryVector: Embedding, threshold: real,
                                  similarity: (Embedding, Embedding) -> real, n: nat): seq<SearchHit>
      reads this
      requires Valid() && n <= size
    {
      Filter(Hits(queryVector, similarity, n), (h: SearchHit) => h.score >= threshold)
    }

    /** Every stored document whose similarity reaches the threshold, in dictionary order. */
    ghost function Qualifying(queryVector: Embedding, threshold: real, similarity: (Embedding, Embedding) -> real): seq<SearchHit>
      reads this
      requires Valid()
    {
      QualifyingUpTo(queryVector, threshold, similarity, size)
    }

    /** Key n joins the qualifying documents exactly when its similarity reaches the threshold. */
    lemma QualifyingStep(queryVector: Embedding, threshold: real, similarity: (Embedding, Embedding) -> real, n: nat)
      requires Valid() && n < size
      ensures QualifyingUpTo(queryVector, threshold, similarity, n + 1) ==
        QualifyingUpTo(queryVector, threshold, similarity, n) +
        (if Hit(queryVector, similarity, n).score >= threshold then [Hit(queryVector, similarity, n)] else [])
    {
      FilterAppend(Hits(queryVector, similarity, n), [Hit(queryVector, similarity, n)],
        (h: SearchHit) => h.score >= threshold);
    }

    /** The scan of `_search_fallback` over the stored keys, before sorting. */
    method ScanFallback(queryVector: Embedding, threshold: real,
                        similarity: (Embedding, Embedding) -> real) returns (found: seq<SearchHit>)
      requires Valid()
      ensures found == Qualifying(queryVector, threshold, similarity)
    {
      found := [];
      for docId := 0 to size
        invariant found == QualifyingUpTo(queryVector, threshold, similarity, docId)
      {
        var score := similarity(queryVector, vectors[docId]);
        QualifyingStep(queryVector, threshold, similarity, docId);
        assert Hit(queryVector, similarity, docId) == SearchHit(docId, score, metadata[docId]);
        if score >= threshold {
          found := found + [SearchHit(docId, score, metadata[docId])];
        }
      }
    }

    /**
     * `_search_fallback`: keeps the documents whose similarity is at least
     * the threshold, sorts them by similarity, highest first (stably), and
     * returns the first `limit` (Python slicing, so a negative `limit` drops
     * from the end). Without the fallback it returns nothing.
     */
    method SearchFallback(queryVector: Embedding, limit: int, threshold: real,
                          similarity: (Embedding, Embedding) -> real) returns (results: seq<SearchHit>)
      requires Valid()
      ensures !hasFallback ==> results == []
      ensures hasFallback ==>
        results == Head(SortDesc(Qualifying(queryVector, threshold, similarity), Score), limit)
      ensures SortedDesc(results, Score)
      ensures 0 <= limit ==> |results| == Min(limit, |Qualifying(queryVector, threshold, similarity)|)
      ensures forall i :: 0 <= i < |results| ==>
        results[i].id in vectors &&
        results[i].score == similarity(queryVector, vectors[results[i].id]) &&
        results[i].score >= threshold &&
        results[i].content == metadata[results[i].id]
      ensures forall i, j :: 0 <= i < j < |results| ==> results[i].id != results[j].id
      ensures hasFallback ==> forall k :: (k in vectors && similarity(queryVector, vectors[k]) >= threshold &&
          (forall i :: 0 <= i < |results| ==> results[i].id != k)) ==>
        forall i :: 0 <= i < |results| ==> similarity(queryVector, vectors[k]) <= results[i].score
    {
      if !hasFallback {
        return [];
      }
      var found := ScanFallback(queryVector, threshold, similarity);
      var sorted := SortDesc(found, Score);
      results := Head(sorted, limit);
      ResultsQualify(queryVector, limit, threshold, similarity, results);
      ResultsTopK(queryVector, limit, threshold, similarity, results);
    }

    /** The fallback search's result is sorted, qualifying, and free of repeated keys. */
    lemma ResultsQualify(queryVector: Embedding, limit: int, threshold: real,
                         similarity: (Embedding, Embedding) -> real, results: seq<SearchHit>)
      requires Valid()
      requires results == Head(SortDesc(Qualifying(queryVector, threshold, similarity), Score), limit)
      ensures SortedDesc(results, Score)
      ensures forall i :: 0 <= i < |results| ==>
        results[i].id in vectors &&
        results[i].score == similarity(queryVector, vectors[results[i].id]) &&
        results[i].score >= threshold &&
        results[i].content == metadata[results[i].id]
      ensures forall i, j :: 0 <= i < j < |results| ==> results[i].id != results[j].id
    {
      var found := Qualifying(queryVector, threshold, similarity);
      var sorted := SortDesc(found, Score);
      HitsFacts(queryVector, threshold, similarity, found);
      PrefixFacts(sorted, results, found);
      forall i, j | 0 <= i < j < |results| ensures results[i].id != results[j].id {
        assert results[i] == sorted[i] && results[j] == sorted[j];
        DistinctSorted(sorted, found, i, j);
      }
    }

    /** No qualifying document left out of the result scores above one kept. */
    lemma ResultsTopK(queryVector: Embedding, limit: int, threshold: real,
                      similarity: (Embedding, Embedding) -> real, results: seq<SearchHit>)
      requires Valid()
      requires results == Head(SortDesc(Qualifying(queryVector, threshold, similarity), Score), limit)
      ensures forall k :: (k in vectors && similarity(queryVector, vectors[k]) >= threshold &&
          (forall i :: 0 <= i < |results| ==> results[i].id != k)) ==>
        forall i :: 0 <= i < |results| ==> similarity(queryVector, vectors[k]) <= results[i].score
    {
      var found := Qualifying(queryVector, threshold, similarity);
      var sorted := SortDesc(found, Score);
      forall k | k in vectors && similarity(queryVector, vectors[k]) >= threshold &&
          (forall i :: 0 <= i < |results| ==> results[i].id != k)
        ensures forall i :: 0 <= i < |results| ==> similarity(queryVector, vectors[k]) <= results[i].score
      {
        var all := Hits(queryVector, similarity, size);
        var d := all[k];
        assert d in found;
        assert d in multiset(sorted);
        assert d !in results;
        TopOfSorted(sorted, Score, |results|, d);
        forall i | 0 <= i < |results| ensures d.score <= results[i].score {
          assert results[i] in sorted[..|results|];
        }
      }
    }

    /** What every qualifying result satisfies, and that their keys are distinct. */
    lemma HitsFacts(queryVector: Embedding, threshold: real, similarity: (Embedding, Embedding) -> real, found: seq<SearchHit>)
      requires Valid()
      requires found == Qualifying(queryVector, threshold, similarity)
      ensures forall h :: h in found ==>
        h.id in vectors && h.score == similarity(queryVector, vectors[h.id]) &&
        h.score >= threshold && h.content == metadata[h.id]
      ensures forall i, j :: 0 <= i < j < |found| ==> found[i].id != found[j].id
    {
      var all := Hits(queryVector, similarity, size);
      forall h | h in found
        ensures h.id in vectors && h.score == similarity(queryVector, vectors[h.id])
        ensures h.score >= threshold && h.content == metadata[h.id]
      {
        var j :| 0 <= j < |found| && found[j] == h;
        var m :| 0 <= m < |all| && all[m] == h;
      }
      DistinctIds(all, (h: SearchHit) => h.score >= threshold);
    }

    /** Hits built from distinct keys keep distinct ids through a filter. */
    lemma DistinctIds(all: seq<SearchHit>, f: SearchHit -> bool)
      requires forall i, j :: 0 <= i < j < |all| ==> all[i].id != all[j].id
      ensures forall i, j :: 0 <= i < j < |Filter(all, f)| ==> Filter(all, f)[i].id != Filter(all, f)[j].id
    {
      FilterIsSubsequence(all, f);
      SubsequenceDistinct(Filter(all, f), all);
    }
  }

  function Min(a: int, b: int): int { if a < b then a else b }

  function Max(a: int, b: int): int { if a < b then b else a }

  /** A subsequence of a sequence with distinct ids has distinct ids. */
  lemma {:induction false} SubsequenceDistinct(a: seq<SearchHit>, b: seq<SearchHit>)
    requires IsSubsequence(a, b)
    requires forall i, j :: 0 <= i < j < |b| ==> b[i].id != b[j].id
    ensures forall i, j :: 0 <= i < j < |a| ==> a[i].id != a[j].id
    ensures forall i :: 0 <= i < |a| ==> a[i] in b
    decreases |b|
  {
    if a != [] {
      if a[0] == b[0] {
        SubsequenceDistinct(a[1..], b[1..]);
        forall j | 0 < j < |a| ensures a[0].id != a[j].id {
          assert a[1..][j - 1] == a[j];
          var m :| 0 <= m < |b[1..]| && b[1..][m] == a[j];
          assert b[m + 1] == a[j];
        }
        forall i, j | 0 <= i < j < |a| ensures a[i].id != a[j].id {
          if i > 0 {
            assert a[1..][i - 1] == a[i] && a[1..][j - 1] == a[j];
          }
        }
        forall i | 0 <= i < |a| ensures a[i] in b {
          if i > 0 {
            assert a[1..][i - 1] == a[i];
          }
        }
      } else {
        SubsequenceDistinct(a, b[1..]);
      }
    }
  }

  /** Two places of the sorted hits hold different ids when the unsorted ones do. */
  lemma DistinctSorted(sorted: seq<SearchHit>, found: seq<SearchHit>, i: nat, j: nat)
    requires multiset(sorted) == multiset(found) && i < j < |sorted|
    requires forall a, b :: 0 <= a < b < |found| ==> found[a].id != found[b].id
    ensures sorted[i].id != sorted[j].id
  {
    assert sorted[i] in multiset(found) && sorted[j] in multiset(found);
    var a :| 0 <= a < |found| && found[a] == sorted[i];
    var b :| 0 <= b < |found| && found[b] == sorted[j];
    OnceIn(found, a);
    if sorted[i] == sorted[j] {
      TwiceIn(sorted, i, j);
      assert false;
    }
  }

  /** An element at two places occurs at least twice. */
  lemma TwiceIn(s: seq<SearchHit>, i: nat, j: nat)
    requires i < j < |s| && s[i] == s[j]
    ensures multiset(s)[s[i]] >= 2
  {
    assert s == s[..i] + [s[i]] + s[i + 1..j] + [s[j]] + s[j + 1..];
  }

  /** In a sequence with distinct ids, an element occurs exactly once. */
  lemma {:induction false} OnceIn(s: seq<SearchHit>, a: nat)
    requires a < |s|
    requires forall i, j :: 0 <= i < j < |s| ==> s[i].id != s[j].id
    ensures multiset(s)[s[a]] == 1
  {
    if a == 0 {
      assert s == [s[0]] + s[1..];
      assert s[0] !in s[1..] by {
        forall m | 0 <= m < |s[1..]| ensures s[1..][m] != s[0] {
          assert s[1..][m] == s[m + 1];
        }
      }
    } else {
      assert s == [s[0]] + s[1..];
      assert s[1..][a - 1] == s[a];
      OnceIn(s[1..], a - 1);
      assert s[0] != s[a];
    }
  }

  /**
   * The results are a prefix of the sorted qualifying hits: they are sorted,
   * come from the qualifying hits, and none left out scores higher than any kept.
   */
  lemma PrefixFacts(sorted: seq<SearchHit>, results: seq<SearchHit>, found: seq<SearchHit>)
    requires SortedDesc(sorted, Score) && multiset(sorted) == multiset(found)
    requires |results| <= |sorted| && results == sorted[..|results|]
    ensures SortedDesc(results, Score)
    ensures forall i :: 0 <= i < |results| ==> results[i] in found
  {
    forall i | 0 <= i < |results| ensures results[i] in found {
      assert results[i] == sorted[i];
      assert sorted[i] in multiset(sorted);
    }
  }
}
