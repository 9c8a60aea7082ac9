/** The in-memory vector store: chunks replaced and dropped in place, and top-k search by cosine score. */
module EmbeddingIndex {
  import opened EmbeddingCodec
  import opened SeqFilter
  import opened VectorMath

  datatype Chunk = Chunk(sourceType: string, sourceId: int, text: string, vec: seq<Float32>, norm: real)

  datatype Hit = Hit(sourceType: string, sourceId: int, text: string, score: real)

  // ----- what a search sees

  /** A chunk of an allowed type that is skipped for its dimension. */
  function Mismatched(q: seq<real>, types: seq<string>): Chunk -> bool {
    (c: Chunk) => c.sourceType in types && |c.vec| != |q|
  }

  function Eligible(q: seq<real>, types: seq<string>): Chunk -> bool {
    (c: Chunk) => c.sourceType in types && |c.vec| == |q| && c.norm != 0.0
  }

  lemma NonZeroProduct(a: real, b: real)
    requires a != 0.0 && b != 0.0
    ensures a * b != 0.0
  {
  }

  /** The score of vector `v` with recorded norm `n` for query `q` of norm `m`; 0 stands for no score. */
  function Cosine(q: seq<real>, m: real, v: seq<real>, n: real): real {
    if |v| == |q| && m != 0.0 && n != 0.0 then
      NonZeroProduct(m, n);
      Dot(q, v) / (m * n)
    else 0.0
  }

  function Scoring(root: real -> real, q: seq<real>): Chunk -> Hit {
    (c: Chunk) => Hit(c.sourceType, c.sourceId, c.text, Cosine(q, Norm(root, q), Values(c.vec), c.norm))
  }

  function Hits(root: real -> real, q: seq<real>, types: seq<string>, chunks: seq<Chunk>): seq<Hit> {
    Map(Scoring(root, q), Filter(Eligible(q, types), chunks))
  }

  function Mismatches(q: seq<real>, types: seq<string>, chunks: seq<Chunk>): nat {
    |Filter(Mismatched(q, types), chunks)|
  }

  lemma OneMoreChunk(root: real -> real, q: seq<real>, types: seq<string>, chunks: seq<Chunk>, i: nat)
    requires i < |chunks|
    ensures Hits(root, q, types, chunks[..i + 1]) ==
            Hits(root, q, types, chunks[..i]) + (if Eligible(q, types)(chunks[i]) then [Scoring(root, q)(chunks[i])] else [])
    ensures Mismatches(q, types, chunks[..i + 1]) ==
            Mismatches(q, types, chunks[..i]) + (if Mismatched(q, types)(chunks[i]) then 1 else 0)
  {
    assert chunks[..i + 1][..i] == chunks[..i];
  }

  lemma NoChunks(root: real -> real, q: seq<real>, types: seq<string>)
    ensures Hits(root, q, types, []) == [] && Mismatches(q, types, []) == 0
  {
  }

  // ----- top k

  predicate Descending(s: seq<Hit>) {
    forall i, j | 0 <= i < j < |s| :: s[i].score >= s[j].score
  }

  predicate OmittedAreLower(all: seq<Hit>, r: seq<Hit>) {
    forall h, i | h in multiset(all) - multiset(r) && 0 <= i < |r| :: h.score <= r[i].score
  }

  /** The best `k` of `all`, or all of them when `k` is not positive, best first. Ties may fall either way. */
  predicate IsTopK(all: seq<Hit>, k: int, r: seq<Hit>) {
    && Descending(r)
    && multiset(r) <= multiset(all)
    && |r| == (if 0 < k < |all| then k else |all|)
    && OmittedAreLower(all, r)
  }

  function AtLeast(t: real): Hit -> bool {
    (h: Hit) => h.score >= t
  }

  lemma HighPrefix(r: seq<Hit>, i: nat)
    requires Descending(r) && i < |r|
    ensures |Filter(AtLeast(r[i].score), r)| >= i + 1
  {
    var p := AtLeast(r[i].score);
    assert r == r[..i + 1] + r[i + 1..];
    FilterConcat(p, r[..i + 1], r[i + 1..]);
    FilterAll(p, r[..i + 1]);
  }

  lemma LowSuffix(r: seq<Hit>, i: nat, t: real)
    requires Descending(r) && i < |r| && r[i].score < t
    ensures |Filter(AtLeast(t), r)| <= i
  {
    var p := AtLeast(t);
    assert r == r[..i] + r[i..];
    FilterConcat(p, r[..i], r[i..]);
    forall h | h in r[i..] ensures !p(h) {
      var j :| 0 <= j < |r[i..]| && r[i..][j] == h;
      assert h == r[i + j];
    }
    FilterNone(p, r[i..]);
    FilterMembers(p, r[..i]);
  }

  lemma NoBetterHit(all: seq<Hit>, k: int, r1: seq<Hit>, r2: seq<Hit>, i: nat)
    requires IsTopK(all, k, r1) && IsTopK(all, k, r2) && i < |r1|
    ensures r1[i].score <= r2[i].score
  {
    var t := r1[i].score;
    if r2[i].score < t {
      HighPrefix(r1, i);
      LowSuffix(r2, i, t);
      var p := AtLeast(t);
      if forall x | p(x) :: x !in multiset(all) - multiset(r2) {
        forall x: Hit ensures multiset(Filter(p, r1))[x] <= multiset(Filter(p, r2))[x] {
          FilterCount(p, r1, x);
          FilterCount(p, r2, x);
        }
        SmallerMultiset(multiset(Filter(p, r1)), multiset(Filter(p, r2)));
      }
    }
  }

  /** The scores a search returns are determined, position by position, whatever order the sort leaves ties in. */
  lemma TopKScoresUnique(all: seq<Hit>, k: int, r1: seq<Hit>, r2: seq<Hit>)
    requires IsTopK(all, k, r1) && IsTopK(all, k, r2)
    ensures |r1| == |r2|
    ensures forall i | 0 <= i < |r1| :: r1[i].score == r2[i].score
  {
    forall i | 0 <= i < |r1| ensures r1[i].score == r2[i].score {
      NoBetterHit(all, k, r1, r2, i);
      NoBetterHit(all, k, r2, r1, i);
    }
  }

  // ----- scores over recorded norms

  /** Every chunk carries the norm of its own vector. */
  predicate NormsRecorded(root: real -> real, chunks: seq<Chunk>) {
    forall c | c in chunks :: c.norm == Norm(root, Values(c.vec))
  }

  lemma CosineIsScore(root: real -> real, q: seq<real>, v: seq<real>)
    requires |q| == |v| && Norm(root, q) != 0.0 && Norm(root, v) != 0.0
    ensures Norm(root, q) * Norm(root, v) != 0.0
    ensures Cosine(q, Norm(root, q), v, Norm(root, v)) == Score(root, q, v)
  {
    hide Norm, Dot;
    NonZeroProduct(Norm(root, q), Norm(root, v));
  }

  lemma ScoreOfChunk(root: real -> real, q: seq<real>, c: Chunk)
    requires IsSqrt(root) && |c.vec| == |q| && Norm(root, q) != 0.0 && c.norm != 0.0
    requires c.norm == Norm(root, Values(c.vec))
    ensures -1.0 <= Scoring(root, q)(c).score <= 1.0
  {
    hide IsSqrt, Norm, Cosine, Score;
    CosineIsScore(root, q, Values(c.vec));
    ScoreInRange(root, q, Values(c.vec));
  }

  /** Whatever a search returns scores between -1 and 1. */
  lemma ScoresInRange(root: real -> real, q: seq<real>, types: seq<string>, chunks: seq<Chunk>, k: int, r: seq<Hit>)
    requires IsSqrt(root) && NormsRecorded(root, chunks) && Norm(root, q) != 0.0
    requires IsTopK(Hits(root, q, types, chunks), k, r)
    ensures forall h | h in r :: -1.0 <= h.score <= 1.0
  {
    var some := Filter(Eligible(q, types), chunks);
    FilterMembers(Eligible(q, types), chunks);
    forall h | h in r ensures -1.0 <= h.score <= 1.0 {
      assert h in multiset(r);
      assert h in Hits(root, q, types, chunks);
      var i :| 0 <= i < |some| && Hits(root, q, types, chunks)[i] == h;
      assert some[i] in some;
      ScoreOfChunk(root, q, some[i]);
    }
  }

  lemma CosineIgnoresScale(root: real -> real, factor: real, q: seq<real>, v: seq<real>)
    requires IsSqrt(root) && factor > 0.0
    ensures Cosine(Scaled(factor, q), Norm(root, Scaled(factor, q)), v, Norm(root, v)) == Cosine(q, Norm(root, q), v, Norm(root, v))
  {
    hide IsSqrt, Norm, Score;
    ZeroNormScales(root, factor, q);
    if |q| == |v| && Norm(root, q) != 0.0 && Norm(root, v) != 0.0 {
      CosineIsScore(root, q, v);
      CosineIsScore(root, Scaled(factor, q), v);
      hide Cosine;
      ScoreIgnoresScale(root, factor, q, v);
    }
  }

  lemma ZeroNormScales(root: real -> real, factor: real, q: seq<real>)
    requires IsSqrt(root) && factor > 0.0
    ensures Norm(root, Scaled(factor, q)) == 0.0 <==> Norm(root, q) == 0.0
  {
    hide IsSqrt, Norm;
    NormScales(root, factor, q);
    if Norm(root, q) != 0.0 {
      NonZeroProduct(factor, Norm(root, q));
    }
  }

  /** Scaling the query by a positive factor changes neither the scored chunks nor the mismatch count. */
  lemma SearchIgnoresScale(root: real -> real, factor: real, q: seq<real>, types: seq<string>, chunks: seq<Chunk>)
    requires IsSqrt(root) && factor > 0.0 && NormsRecorded(root, chunks)
    ensures Hits(root, Scaled(factor, q), types, chunks) == Hits(root, q, types, chunks)
    ensures Mismatches(Scaled(factor, q), types, chunks) == Mismatches(q, types, chunks)
  {
    hide IsSqrt, Norm, Cosine;
    var s := Scaled(factor, q);
    FilterAgrees(Eligible(s, types), Eligible(q, types), chunks);
    FilterAgrees(Mismatched(s, types), Mismatched(q, types), chunks);
    FilterMembers(Eligible(q, types), chunks);
    var some := Filter(Eligible(q, types), chunks);
    forall i | 0 <= i < |some| ensures Map(Scoring(root, s), some)[i] == Map(Scoring(root, q), some)[i] {
      assert some[i] in some;
      CosineIgnoresScale(root, factor, q, Values(some[i].vec));
    }
  }

  // ----- what a search returns, chunk by chunk

  /** The hit stands for the chunk, and its score times the two norms is the dot product. */
  predicate HitFor(h: Hit, c: Chunk, q: seq<real>, norm: real) {
    && h.sourceType == c.sourceType && h.sourceId == c.sourceId && h.text == c.text
    && |c.vec| == |q| && h.score * (norm * c.norm) == Dot(q, Values(c.vec))
  }

  /** The chunk scores no higher than this. */
  predicate ScoresAtMost(c: Chunk, q: seq<real>, norm: real, limit: real) {
    |c.vec| == |q| && norm * c.norm != 0.0 && Dot(q, Values(c.vec)) / (norm * c.norm) <= limit
  }

  /** The hits are those of the best `k` chunks of the types asked for that have the dimension of the query and a norm, or of
      all of them when `k` is not positive, best first; whatever is left out scores no higher than anything returned. */
  ghost predicate BestFits(root: real -> real, q: seq<real>, types: seq<string>, k: int, chunks: seq<Chunk>, hits: seq<Hit>,
                           picked: seq<Chunk>, rest: seq<Chunk>) {
    && (forall c: Chunk :: (multiset(picked) + multiset(rest))[c] ==
                    if c.sourceType in types && |c.vec| == |q| && c.norm != 0.0 then multiset(chunks)[c] else 0)
    && |hits| == |picked| == (if 0 < k < |picked| + |rest| then k else |picked| + |rest|)
    && (forall i | 0 <= i < |hits| :: HitFor(hits[i], picked[i], q, Norm(root, q)))
    && (forall i, j | 0 <= i < j < |hits| :: hits[i].score >= hits[j].score)
    && (forall c, i | c in rest && 0 <= i < |hits| :: ScoresAtMost(c, q, Norm(root, q), hits[i].score))
  }

  lemma ScoringHits(root: real -> real, q: seq<real>, c: Chunk)
    requires Norm(root, q) != 0.0 && c.norm != 0.0 && |c.vec| == |q|
    ensures HitFor(Scoring(root, q)(c), c, q, Norm(root, q))
    ensures forall limit | Scoring(root, q)(c).score <= limit :: ScoresAtMost(c, q, Norm(root, q), limit)
  {
    hide Norm, Dot;
    NonZeroProduct(Norm(root, q), c.norm);
  }

  lemma EligibleCount(q: seq<real>, types: seq<string>, chunks: seq<Chunk>)
    ensures forall c: Chunk :: multiset(Filter(Eligible(q, types), chunks))[c] ==
                               if c.sourceType in types && |c.vec| == |q| && c.norm != 0.0 then multiset(chunks)[c] else 0
  {
    hide Filter;
    forall c: Chunk ensures multiset(Filter(Eligible(q, types), chunks))[c] ==
                            if c.sourceType in types && |c.vec| == |q| && c.norm != 0.0 then multiset(chunks)[c] else 0 {
      FilterCount(Eligible(q, types), chunks, c);
    }
  }

  lemma PickedHits(root: real -> real, q: seq<real>, picked: seq<Chunk>)
    requires Norm(root, q) != 0.0 && forall c | c in picked :: c.norm != 0.0 && |c.vec| == |q|
    ensures forall i | 0 <= i < |picked| :: HitFor(Map(Scoring(root, q), picked)[i], picked[i], q, Norm(root, q))
  {
    hide Norm, Scoring, HitFor, ScoresAtMost;
    forall i | 0 <= i < |picked| ensures HitFor(Map(Scoring(root, q), picked)[i], picked[i], q, Norm(root, q)) {
      assert picked[i] in picked;
      ScoringHits(root, q, picked[i]);
    }
  }

  lemma RestScores(root: real -> real, q: seq<real>, rest: seq<Chunk>, limit: real)
    requires Norm(root, q) != 0.0 && forall c | c in rest :: c.norm != 0.0 && |c.vec| == |q|
    requires forall h | h in multiset(Map(Scoring(root, q), rest)) :: h.score <= limit
    ensures forall c | c in rest :: ScoresAtMost(c, q, Norm(root, q), limit)
  {
    hide Norm, Scoring, HitFor, ScoresAtMost, Map;
    forall c | c in rest ensures ScoresAtMost(c, q, Norm(root, q), limit) {
      ScoringHits(root, q, c);
      InMap(Scoring(root, q), rest, c);
    }
  }

  /** Any admissible result of a search, traced back to the chunks. */
  lemma TopKBestFits(root: real -> real, q: seq<real>, types: seq<string>, k: int, chunks: seq<Chunk>, hits: seq<Hit>)
    requires Norm(root, q) != 0.0 && IsTopK(Hits(root, q, types, chunks), k, hits)
    ensures exists picked, rest :: BestFits(root, q, types, k, chunks, hits, picked, rest)
  {
    hide Norm, Scoring, Map, Filter, HitFor, ScoresAtMost, Eligible;
    var eligible := Filter(Eligible(q, types), chunks);
    var picked, rest := Preimages(Scoring(root, q), eligible, hits);
    EligibleCount(q, types, chunks);
    assert |eligible| == |multiset(eligible)| == |picked| + |rest|;
    MapAt(Scoring(root, q), eligible, 0);
    MapAt(Scoring(root, q), picked, 0);
    SameOmitted(Hits(root, q, types, chunks), hits, Map(Scoring(root, q), rest));
    TracedBack(root, q, types, k, chunks, hits, picked, rest);
  }

  lemma SameOmitted(all: seq<Hit>, hits: seq<Hit>, others: seq<Hit>)
    requires OmittedAreLower(all, hits) && multiset(all) == multiset(hits) + multiset(others)
    ensures OmittedAreLower(hits + others, hits)
  {
    assert multiset(hits + others) == multiset(all);
  }

  lemma RestIsLower(root: real -> real, q: seq<real>, hits: seq<Hit>, rest: seq<Chunk>)
    requires Norm(root, q) != 0.0 && forall c | c in rest :: c.norm != 0.0 && |c.vec| == |q|
    requires OmittedAreLower(hits + Map(Scoring(root, q), rest), hits)
    ensures forall c, i | c in rest && 0 <= i < |hits| :: ScoresAtMost(c, q, Norm(root, q), hits[i].score)
  {
    hide Norm, Scoring, ScoresAtMost;
    var others := Map(Scoring(root, q), rest);
    assert multiset(hits + others) - multiset(hits) == multiset(others);
    forall i | 0 <= i < |hits| ensures forall c | c in rest :: ScoresAtMost(c, q, Norm(root, q), hits[i].score) {
      RestScores(root, q, rest, hits[i].score);
    }
  }

  lemma TracedBack(root: real -> real, q: seq<real>, types: seq<string>, k: int, chunks: seq<Chunk>, hits: seq<Hit>,
                   picked: seq<Chunk>, rest: seq<Chunk>)
    requires Norm(root, q) != 0.0 && Descending(hits) && hits == Map(Scoring(root, q), picked)
    requires forall c: Chunk :: (multiset(picked) + multiset(rest))[c] ==
                                if c.sourceType in types && |c.vec| == |q| && c.norm != 0.0 then multiset(chunks)[c] else 0
    requires |hits| == if 0 < k < |picked| + |rest| then k else |picked| + |rest|
    requires OmittedAreLower(hits + Map(Scoring(root, q), rest), hits)
    ensures BestFits(root, q, types, k, chunks, hits, picked, rest)
  {
    hide Norm, Scoring, HitFor, ScoresAtMost, OmittedAreLower;
    forall c: Chunk | c in picked || c in rest ensures |c.vec| == |q| && c.norm != 0.0 {
      assert c in multiset(picked) + multiset(rest);
    }
    PickedHits(root, q, picked);
    RestIsLower(root, q, hits, rest);
  }

  lemma MismatchPlaces(q: seq<real>, types: seq<string>, chunks: seq<Chunk>)
    ensures Mismatches(q, types, chunks) == |set i: nat | i < |chunks| && |chunks[i].vec| != |q| && chunks[i].sourceType in types|
  {
    FilterPlaces(Mismatched(q, types), chunks);
    assert Places(Mismatched(q, types), chunks)
        == set i: nat | i < |chunks| && |chunks[i].vec| != |q| && chunks[i].sourceType in types;
  }

  lemma InMap<T, U>(f: T -> U, s: seq<T>, x: T)
    requires x in s
    ensures f(x) in multiset(Map(f, s))
  {
    var i :| 0 <= i < |s| && s[i] == x;
    assert Map(f, s)[i] == f(x);
  }

  // ----- what does not matter to a search

  function NotEmpty(): Chunk -> bool {
    (c: Chunk) => c.vec != []
  }

  lemma EmptyChunksNeverHit(root: real -> real, q: seq<real>, types: seq<string>, chunks: seq<Chunk>)
    requires q != []
    ensures Hits(root, q, types, Filter(NotEmpty(), chunks)) == Hits(root, q, types, chunks)
  {
    FilterTwice(Eligible(q, types), NotEmpty(), chunks);
    FilterMembers(Eligible(q, types), chunks);
    FilterAll(NotEmpty(), Filter(Eligible(q, types), chunks));
  }

  lemma HitsReordered(root: real -> real, q: seq<real>, types: seq<string>, a: seq<Chunk>, b: seq<Chunk>)
    requires multiset(a) == multiset(b)
    ensures multiset(Hits(root, q, types, a)) == multiset(Hits(root, q, types, b))
  {
    FilterReordered(Eligible(q, types), a, b);
    MapReordered(Scoring(root, q), Filter(Eligible(q, types), a), Filter(Eligible(q, types), b));
  }

  lemma TopKReordered(a: seq<Hit>, b: seq<Hit>, k: int, r: seq<Hit>)
    requires multiset(a) == multiset(b)
    ensures IsTopK(a, k, r) <==> IsTopK(b, k, r)
  {
    assert |a| == |multiset(a)| == |b|;
  }

  // ----- the zero query

  /** What a search reports as its hits and as its mismatch count: a query of norm zero returns before looking. */
  function Reported(root: real -> real, q: seq<real>, types: seq<string>, chunks: seq<Chunk>): (seq<Hit>, nat) {
    if Norm(root, q) == 0.0 then ([], 0) else (Hits(root, q, types, chunks), Mismatches(q, types, chunks))
  }

  function OtherDimension(q: seq<real>, sourceType: string): Chunk {
    Chunk(sourceType, 0, "", seq(|q| + 1, i => 0), 0.0)
  }

  lemma ZeroQueryMiscounts(root: real -> real, q: seq<real>, types: seq<string>)
    requires Norm(root, q) == 0.0 && types != []
    ensures Reported(root, q, types, [OtherDimension(q, types[0])]).1 == 0
    ensures Mismatches(q, types, [OtherDimension(q, types[0])]) == 1
  {
    FilterOne(Mismatched(q, types), OtherDimension(q, types[0]));
  }

  /** The mismatch count is exact on every index if and only if the query has a non-zero norm or no type is asked for. */
  lemma MismatchCountExact(root: real -> real, q: seq<real>, types: seq<string>)
    ensures (forall chunks :: Reported(root, q, types, chunks).1 == Mismatches(q, types, chunks))
            <==> (Norm(root, q) != 0.0 || types == [])
  {
    if Norm(root, q) == 0.0 {
      if types == [] {
        forall chunks ensures Mismatches(q, types, chunks) == 0 {
          FilterNone(Mismatched(q, types), chunks);
        }
      } else {
        ZeroQueryMiscounts(root, q, types);
      }
    }
  }

  // ----- sorting, as the library routine promises it

  lemma PushFront(h: Hit, s: seq<Hit>)
    requires Descending(s) && forall x | x in multiset(s) :: x.score <= h.score
    ensures Descending([h] + s)
  {
    forall j | 0 <= j < |s| ensures s[j].score <= h.score {
      assert s[j] in multiset(s);
    }
  }

  lemma FirstIsHighest(s: seq<Hit>)
    requires Descending(s) && s != []
    ensures Descending(s[1..]) && multiset(s) == multiset(s[1..]) + multiset{s[0]}
    ensures forall x | x in multiset(s) :: x.score <= s[0].score
  {
    assert s == [s[0]] + s[1..];
    forall x | x in multiset(s) ensures x.score <= s[0].score {
      var j :| 0 <= j < |s| && s[j] == x;
    }
  }

  function Inserted(s: seq<Hit>, h: Hit): (r: seq<Hit>)
    requires Descending(s)
    ensures Descending(r) && multiset(r) == multiset(s) + multiset{h}
  {
    if s == [] then [h] else
      FirstIsHighest(s);
      if s[0].score < h.score then
        PushFront(h, s);
        [h] + s
      else
        var rest := Inserted(s[1..], h);
        PushFront(s[0], rest);
        [s[0]] + rest
  }

  function SortedByScore(s: seq<Hit>): (r: seq<Hit>)
    ensures Descending(r) && multiset(r) == multiset(s)
  {
    if s == [] then [] else
      assert s == s[..|s| - 1] + [s[|s| - 1]];
      Inserted(SortedByScore(s[..|s| - 1]), s[|s| - 1])
  }

  lemma RestOfCut<T>(s: seq<T>, k: nat)
    requires k <= |s|
    ensures multiset(s[..k]) <= multiset(s)
    ensures multiset(s) - multiset(s[..k]) == multiset(s[k..])
  {
    assert s == s[..k] + s[k..];
  }

  lemma PlaceInRest<T>(s: seq<T>, k: nat, x: T) returns (j: nat)
    requires k <= |s| && x in multiset(s[k..])
    ensures k <= j < |s| && s[j] == x
  {
    var i := PlaceOf(s[k..], x);
    j := k + i;
  }

  lemma CutOmitsLower(sorted: seq<Hit>, k: nat)
    requires Descending(sorted) && k <= |sorted|
    ensures Descending(sorted[..k]) && OmittedAreLower(sorted, sorted[..k]) && multiset(sorted[..k]) <= multiset(sorted)
  {
    RestOfCut(sorted, k);
    forall h, i | h in multiset(sorted) - multiset(sorted[..k]) && 0 <= i < k ensures h.score <= sorted[..k][i].score {
      var j := PlaceInRest(sorted, k, h);
    }
  }

  lemma CutIsTopK(all: seq<Hit>, sorted: seq<Hit>, k: int)
    requires Descending(sorted) && multiset(sorted) == multiset(all)
    ensures |sorted| == |all|
    ensures IsTopK(all, k, if 0 < k < |sorted| then sorted[..k] else sorted)
  {
    hide Descending;
    assert |sorted| == |multiset(sorted)| == |multiset(all)| == |all|;
    var n := if 0 < k < |sorted| then k else |sorted|;
    CutOmitsLower(sorted, n);
    assert sorted[..|sorted|] == sorted;
  }

  // ----- the store itself

  function Hitting(sourceType: string, ids: seq<int>): Chunk -> bool {
    (c: Chunk) => c.sourceType == sourceType && c.sourceId in ids
  }

  function Sparing(drop: Chunk -> bool): Chunk -> bool {
    (c: Chunk) => !drop(c)
  }

  function Kept(sourceType: string, ids: seq<int>, chunks: seq<Chunk>): seq<Chunk> {
    Filter(Sparing(Hitting(sourceType, ids)), chunks)
  }

  function OfType(sourceType: string): Chunk -> bool {
    (c: Chunk) => c.sourceType == sourceType
  }

  class Index {
    var chunks: seq<Chunk>

    constructor ()
      ensures chunks == []
    {
      chunks := [];
    }

    method ReplaceAll(chunks: seq<Chunk>)
      modifies this
      ensures this.chunks == chunks
    {
      this.chunks := chunks;
    }

    method ReplaceWhere(drop: Chunk -> bool, added: seq<Chunk>)
      modifies this
      ensures chunks == Filter(Sparing(drop), old(chunks)) + added
      ensures chunks == Filter((c: Chunk) => !drop(c), old(chunks)) + added
    {
      SameFilter(Sparing(drop), (c: Chunk) => !drop(c), chunks);
      var kept: seq<Chunk> := [];
      for i := 0 to |chunks|
        invariant chunks == old(chunks)
        invariant kept == Filter(Sparing(drop), chunks[..i])
      {
        assert chunks[..i + 1][..i] == chunks[..i];
        if !drop(chunks[i]) {
          kept := kept + [chunks[i]];
        }
      }
      assert chunks[..|chunks|] == chunks;
      chunks := kept + added;
    }

    method ReplaceSourceIds(sourceType: string, ids: seq<int>, added: seq<Chunk>)
      modifies this
      ensures chunks == Kept(sourceType, ids, old(chunks)) + added
      ensures chunks == Filter((c: Chunk) => !(c.sourceType == sourceType && c.sourceId in ids), old(chunks)) + added
    {
      SameFilter(Sparing(Hitting(sourceType, ids)), (c: Chunk) => !(c.sourceType == sourceType && c.sourceId in ids), chunks);
      ReplaceWhere(Hitting(sourceType, ids), added);
    }

    method RemoveSource(sourceType: string, sourceId: int)
      modifies this
      ensures chunks == Kept(sourceType, [sourceId], old(chunks))
      ensures chunks == Filter((c: Chunk) => c.sourceType != sourceType || c.sourceId != sourceId, old(chunks))
    {
      SameFilter(Sparing(Hitting(sourceType, [sourceId])), (c: Chunk) => c.sourceType != sourceType || c.sourceId != sourceId, chunks);
      ReplaceSourceIds(sourceType, [sourceId], []);
    }

    method RemoveSourceType(sourceType: string)
      modifies this
      ensures chunks == Filter(Sparing(OfType(sourceType)), old(chunks))
      ensures chunks == Filter((c: Chunk) => c.sourceType != sourceType, old(chunks))
    {
      SameFilter(Sparing(OfType(sourceType)), (c: Chunk) => c.sourceType != sourceType, chunks);
      ReplaceWhere(OfType(sourceType), []);
    }

    method Search(root: real -> real, query: seq<Float32>, k: int, types: seq<string>)
      returns (results: seq<Hit>, dimMismatch: nat)
      ensures IsTopK(Reported(root, Values(query), types, chunks).0, k, results)
      ensures dimMismatch == Reported(root, Values(query), types, chunks).1
      ensures if Norm(root, Values(query)) == 0.0 then results == [] && dimMismatch == 0
              else
                && (exists picked, rest :: BestFits(root, Values(query), types, k, chunks, results, picked, rest))
                && dimMismatch == |set i: nat | i < |chunks| && |chunks[i].vec| != |query| && chunks[i].sourceType in types|
    {
      hide Norm, Dot, Hits, Mismatches, IsTopK;
      var q := Values(query);
      var qNorm := ComputeNorm(root, q);
      if qNorm == 0.0 {
        CutIsTopK([], [], k);
        return [], 0;
      }
      dimMismatch, results := 0, [];
      NoChunks(root, q, types);
      for i := 0 to |chunks|
        invariant results == Hits(root, q, types, chunks[..i])
        invariant dimMismatch == Mismatches(q, types, chunks[..i])
      {
        var c := chunks[i];
        OneMoreChunk(root, q, types, chunks, i);
        if c.sourceType !in types {
          continue;
        }
        if |c.vec| != |query| {
          dimMismatch := dimMismatch + 1;
          continue;
        }
        if c.norm == 0.0 {
          continue;
        }
        NonZeroProduct(qNorm, c.norm);
        var product := ComputeDot(q, Values(c.vec));
        var score := product / (qNorm * c.norm);
        assert score == Cosine(q, qNorm, Values(c.vec), c.norm);
        results := results + [Hit(c.sourceType, c.sourceId, c.text, score)];
      }
      assert chunks[..|chunks|] == chunks;
      var sorted := SortedByScore(results);
      CutIsTopK(results, sorted, k);
      results := sorted;
      if k > 0 && |results| > k {
        results := results[..k];
      }
      TopKBestFits(root, q, types, k, chunks, results);
      MismatchPlaces(q, types, chunks);
    }
  }
}
