/**
 * Ranking the function catalog by similarity to a prompt
 * (openai-func-embeddings/src/lib.rs): `rank_functions` pairs every
 * catalog name with its similarity score and sorts the pairs with the
 * stable `sort_by`, most similar first; `get_ranked_function_names` reads
 * the catalog from the embedding archive, and a missing archive ranks
 * nothing.
 *
 * The score is left abstract: `similarity` stands for `cosine_similarity`
 * and yields a real number, so the NaN case of `partial_cmp` does not arise.
 * The sort is written as an insertion sort in place; every stable sort by
 * a total preorder produces the same order, which `StableDesc` defines.
 */
module Embeddings {
  import opened Wrappers

  /** `FuncEmbedding`: a catalog entry as stored in the archive. */
  datatype FuncEmbedding = FuncEmbedding(name: string, description: string, embedding: seq<real>)

  type Pair = (string, real)

  type Similarity = (seq<real>, seq<real>) -> real

  /** `name_similarity_pairs`: one (name, score) pair per catalog entry, in catalog order. */
  function Pairs(catalog: seq<FuncEmbedding>, input: seq<real>, similarity: Similarity): (ps: seq<Pair>)
    ensures |ps| == |catalog|
  {
    seq(|catalog|, i requires 0 <= i < |catalog| => (catalog[i].name, similarity(catalog[i].embedding, input)))
  }

  function NamesOf(ps: seq<Pair>): seq<string>
  {
    seq(|ps|, i requires 0 <= i < |ps| => ps[i].0)
  }

  function CatalogNames(catalog: seq<FuncEmbedding>): seq<string>
  {
    seq(|catalog|, i requires 0 <= i < |catalog| => catalog[i].name)
  }

  /** `x` goes after every trailing pair scoring at least as much, before those scoring less. */
  function InsertLast(t: seq<Pair>, x: Pair): seq<Pair>
  {
    if t == [] || t[|t| - 1].1 >= x.1 then t + [x]
    else InsertLast(t[..|t| - 1], x) + [t[|t| - 1]]
  }

  /** The stable descending order of the pairs by score. */
  function StableDesc(s: seq<Pair>): seq<Pair>
  {
    if s == [] then [] else InsertLast(StableDesc(s[..|s| - 1]), s[|s| - 1])
  }

  /** The ranking of a catalog: its pairs in stable descending order. */
  function Ranking(catalog: seq<FuncEmbedding>, input: seq<real>, similarity: Similarity): seq<Pair>
  {
    StableDesc(Pairs(catalog, input, similarity))
  }

  /** The insertion step: `x` lands right after the prefix that the loop did not shift. */
  lemma {:induction false} InsertLastSplit(t: seq<Pair>, x: Pair, j: nat)
    requires j <= |t|
    requires j == 0 || t[j - 1].1 >= x.1
    requires forall k :: j <= k < |t| ==> t[k].1 < x.1
    ensures InsertLast(t, x) == t[..j] + [x] + t[j..]
    decreases |t| - j
  {
    if j < |t| {
      var n := |t| - 1;
      InsertLastSplit(t[..n], x, j);
      assert t[..n][..j] == t[..j];
      assert t[j..] == t[j..n] + [t[n]];
    } else {
      assert t[..j] == t;
    }
  }

  /** One pass of the sort: `a[i]` moves left past the pairs of `a[..i]` that score less. */
  method InsertIntoSorted(a: array<Pair>, i: nat)
    requires i < a.Length
    modifies a
    ensures a[..i + 1] == InsertLast(old(a[..i]), old(a[i]))
    ensures forall k :: i < k < a.Length ==> a[k] == old(a[k])
  {
    ghost var t := a[..i];
    var key := a[i];
    var j := i;
    while j > 0 && a[j - 1].1 < key.1
      invariant 0 <= j <= i
      invariant forall k :: 0 <= k < j ==> a[k] == t[k]
      invariant forall k :: j < k <= i ==> a[k] == t[k - 1]
      invariant forall k :: j <= k < i ==> t[k].1 < key.1
      invariant forall k :: i < k < a.Length ==> a[k] == old(a[k])
    {
      a[j] := a[j - 1];
      j := j - 1;
    }
    a[j] := key;
    InsertLastSplit(t, key, j);
    assert a[..i + 1] == t[..j] + [key] + t[j..];
  }

  /** `sort_by(|a, b| b.1.partial_cmp(&a.1))`: a stable sort of the pairs, highest score first. */
  method SortByScoreDesc(a: array<Pair>)
    modifies a
    ensures a[..] == StableDesc(old(a[..]))
  {
    ghost var input := a[..];
    var i := 0;
    while i < a.Length
      invariant 0 <= i <= a.Length
      invariant a[..i] == StableDesc(input[..i])
      invariant forall k :: i <= k < a.Length ==> a[k] == input[k]
    {
      InsertIntoSorted(a, i);
      assert input[..i + 1][..i] == input[..i];
      i := i + 1;
    }
    assert a[..] == a[..a.Length];
    assert input[..a.Length] == input;
  }

  /** `rank_functions`: the catalog's names, most similar first. */
  method RankFunctions(catalog: seq<FuncEmbedding>, input: seq<real>, similarity: Similarity) returns (names: seq<string>)
    ensures names == NamesOf(Ranking(catalog, input, similarity))
    ensures |names| == |catalog|
    ensures multiset(names) == multiset(CatalogNames(catalog))
  {
    var pairs := Pairs(catalog, input, similarity);
    var a := new Pair[|pairs|](i requires 0 <= i < |pairs| => pairs[i]);
    assert a[..] == pairs;
    SortByScoreDesc(a);
    names := NamesOf(a[..]);
    RankingIsPermutation(catalog, input, similarity);
  }

  /** Where the embedding archive comes from: the outcomes of `exists`, `open`, `read_to_end` and validation. */
  datatype ArchiveFile =
    | Missing
    | OpenFailed(reason: string)
    | ReadFailed(reason: string)
    | Malformed(reason: string)
    | Archived(entries: seq<FuncEmbedding>)

  /** The two error variants `get_ranked_function_names` can return. */
  datatype RankError = IoError(reason: string) | RkyvError(message: string)

  const ArchiveFailurePrefix: string := "Archive processing failed: "

  /** `get_ranked_function_names`. */
  method GetRankedFunctionNames(promptEmbedding: seq<real>, file: ArchiveFile, similarity: Similarity)
    returns (r: Result<seq<string>, RankError>)
    ensures file.Missing? ==> r == Ok([])
    ensures file.OpenFailed? || file.ReadFailed? ==> r == Err(IoError(file.reason))
    ensures file.Malformed? ==> r == Err(RkyvError(ArchiveFailurePrefix + file.reason))
    ensures file.Archived? ==> r.Ok? && r.value == NamesOf(Ranking(file.entries, promptEmbedding, similarity))
  {
    match file {
      case Missing => r := Ok([]);
      case OpenFailed(e) => r := Err(IoError(e));
      case ReadFailed(e) => r := Err(IoError(e));
      case Malformed(e) => r := Err(RkyvError(ArchiveFailurePrefix + e));
      case Archived(entries) =>
        var names := RankFunctions(entries, promptEmbedding, similarity);
        r := Ok(names);
    }
  }

  // ---------------------------------------------------------------------
  // Properties of the ranking
  // ---------------------------------------------------------------------

  lemma {:induction false} InsertLastPermutes(t: seq<Pair>, x: Pair)
    ensures multiset(InsertLast(t, x)) == multiset(t) + multiset{x}
    decreases |t|
  {
    if !(t == [] || t[|t| - 1].1 >= x.1) {
      var n := |t| - 1;
      InsertLastPermutes(t[..n], x);
      assert t == t[..n] + [t[n]];
    }
  }

  /** The sorted pairs are a rearrangement of the input pairs. */
  lemma {:induction false} StableDescPermutes(s: seq<Pair>)
    ensures multiset(StableDesc(s)) == multiset(s)
    ensures |StableDesc(s)| == |s|
  {
    if s != [] {
      var n := |s| - 1;
      StableDescPermutes(s[..n]);
      InsertLastPermutes(StableDesc(s[..n]), s[n]);
      assert s == s[..n] + [s[n]];
      assert |multiset(StableDesc(s))| == |multiset(s)|;
    }
  }

  predicate Descending(s: seq<Pair>)
  {
    forall i, j :: 0 <= i < j < |s| ==> s[i].1 >= s[j].1
  }

  /** Where `InsertLast` puts `x`: after the pairs scoring at least as much, before the trailing ones scoring less. */
  lemma {:induction false} InsertLastAt(t: seq<Pair>, x: Pair) returns (j: nat)
    ensures j <= |t|
    ensures InsertLast(t, x) == t[..j] + [x] + t[j..]
    ensures j > 0 ==> t[j - 1].1 >= x.1
    ensures forall k :: j <= k < |t| ==> t[k].1 < x.1
    decreases |t|
  {
    if t == [] || t[|t| - 1].1 >= x.1 {
      j := |t|;
      assert t[..j] == t;
    } else {
      var n := |t| - 1;
      j := InsertLastAt(t[..n], x);
      assert t[..n][..j] == t[..j];
      assert t[j..] == t[..n][j..] + [t[n]];
    }
  }

  lemma InsertLastDescending(t: seq<Pair>, x: Pair)
    requires Descending(t)
    ensures Descending(InsertLast(t, x))
  {
    var j := InsertLastAt(t, x);
    var u := InsertLast(t, x);
    assert forall k :: 0 <= k < j ==> u[k] == t[k] && t[k].1 >= x.1;
    assert u[j] == x;
    assert forall k :: j < k < |u| ==> u[k] == t[k - 1] && t[k - 1].1 < x.1;
  }

  /** Scores are non-increasing along the ranking. */
  lemma {:induction false} StableDescDescending(s: seq<Pair>)
    ensures Descending(StableDesc(s))
  {
    if s != [] {
      StableDescDescending(s[..|s| - 1]);
      InsertLastDescending(StableDesc(s[..|s| - 1]), s[|s| - 1]);
    }
  }

  /** The pairs with score `v`, in order. */
  function WithScore(s: seq<Pair>, v: real): seq<Pair>
  {
    if s == [] then []
    else WithScore(s[..|s| - 1], v) + (if s[|s| - 1].1 == v then [s[|s| - 1]] else [])
  }

  lemma {:induction false} WithScoreAppend(a: seq<Pair>, b: seq<Pair>, v: real)
    ensures WithScore(a + b, v) == WithScore(a, v) + WithScore(b, v)
    decreases |b|
  {
    if b == [] {
      assert a + b == a;
    } else {
      var n := |b| - 1;
      WithScoreAppend(a, b[..n], v);
      assert (a + b)[..|a + b| - 1] == a + b[..n];
    }
  }

  lemma {:induction false} InsertLastStable(t: seq<Pair>, x: Pair, v: real)
    ensures WithScore(InsertLast(t, x), v) == WithScore(t, v) + WithScore([x], v)
    decreases |t|
  {
    assert [x][..0] == [];
    if t == [] || t[|t| - 1].1 >= x.1 {
      WithScoreAppend(t, [x], v);
    } else {
      var n := |t| - 1;
      var init := t[..n];
      InsertLastStable(init, x, v);
      WithScoreAppend(InsertLast(init, x), [t[n]], v);
      assert [t[n]][..0] == [];
      assert t == init + [t[n]];
      WithScoreAppend(init, [t[n]], v);
      // t[n] scores less than x, so at most one of the two is kept
      WithScoreAppend(WithScore(init, v), WithScore([x], v), v);
    }
  }

  /** Stability: the pairs of any one score appear in the ranking in catalog order. */
  lemma {:induction false} StableDescStable(s: seq<Pair>, v: real)
    ensures WithScore(StableDesc(s), v) == WithScore(s, v)
  {
    if s != [] {
      var n := |s| - 1;
      StableDescStable(s[..n], v);
      InsertLastStable(StableDesc(s[..n]), s[n], v);
      assert [s[n]][..0] == [];
    }
  }

  lemma {:induction false} InsertLastNames(t: seq<Pair>, x: Pair)
    ensures multiset(NamesOf(InsertLast(t, x))) == multiset(NamesOf(t)) + multiset{x.0}
    decreases |t|
  {
    if t == [] || t[|t| - 1].1 >= x.1 {
      assert NamesOf(t + [x]) == NamesOf(t) + [x.0];
    } else {
      var n := |t| - 1;
      InsertLastNames(t[..n], x);
      assert NamesOf(InsertLast(t[..n], x) + [t[n]]) == NamesOf(InsertLast(t[..n], x)) + [t[n].0];
      assert NamesOf(t) == NamesOf(t[..n]) + [t[n].0];
    }
  }

  lemma {:induction false} StableDescNames(s: seq<Pair>)
    ensures multiset(NamesOf(StableDesc(s))) == multiset(NamesOf(s))
  {
    if s != [] {
      var n := |s| - 1;
      StableDescNames(s[..n]);
      InsertLastNames(StableDesc(s[..n]), s[n]);
      assert NamesOf(s) == NamesOf(s[..n]) + [s[n].0];
    }
  }

  /** The ranked names are the catalog's names rearranged. */
  lemma RankingIsPermutation(catalog: seq<FuncEmbedding>, input: seq<real>, similarity: Similarity)
    ensures |NamesOf(Ranking(catalog, input, similarity))| == |catalog|
    ensures multiset(NamesOf(Ranking(catalog, input, similarity))) == multiset(CatalogNames(catalog))
  {
    var ps := Pairs(catalog, input, similarity);
    StableDescPermutes(ps);
    StableDescNames(ps);
    assert NamesOf(ps) == CatalogNames(catalog);
  }

  /**
   * The ranking puts the most similar first, keeps equally similar entries
   * in catalog order, and ranks nothing for an empty catalog.
   */
  lemma RankingOrder(catalog: seq<FuncEmbedding>, input: seq<real>, similarity: Similarity, v: real)
    ensures Descending(Ranking(catalog, input, similarity))
    ensures WithScore(Ranking(catalog, input, similarity), v) == WithScore(Pairs(catalog, input, similarity), v)
    ensures catalog == [] ==> Ranking(catalog, input, similarity) == []
  {
    StableDescDescending(Pairs(catalog, input, similarity));
    StableDescStable(Pairs(catalog, input, similarity), v);
  }
}
