/**
 The similarity measures and the duplicate decision (pkg/reef/evolution/server/gate.go:
 369-549), on exact counts.
 */
module Similarity {
  import opened Tasks
  import opened Tokens

  // ----- Jaccard -----

  /** Shared shingles over all shingles; two empty sets are identical. */
  function Jaccard(a: set<string>, b: set<string>): real {
    if a == {} && b == {} then 1.0
    else assert a + b != {}; |a * b| as real / |a + b| as real
  }

  lemma UnionSize(a: set<string>, b: set<string>)
    ensures |a + b| == |a| + |b| - |a * b|
  {
    assert a + b == a + (b - a) && b == (b - a) + a * b;
  }

  /** jaccardSimilarity: counts the intersection and derives the union. */
  method JaccardSimilarity(a: set<string>, b: set<string>) returns (r: real)
    ensures r == Jaccard(a, b)
  {
    if |a| == 0 && |b| == 0 {
      return 1.0;
    }
    if |a| == 0 || |b| == 0 {
      assert a * b == {};
      return 0.0;
    }
    var intersection := 0;
    var todo := a;
    while todo != {}
      invariant todo <= a && intersection == |(a - todo) * b|
      decreases todo
    {
      var k :| k in todo;
      if k in b {
        assert (a - (todo - {k})) * b == (a - todo) * b + {k};
        intersection := intersection + 1;
      } else {
        assert (a - (todo - {k})) * b == (a - todo) * b;
      }
      todo := todo - {k};
    }
    assert a - {} == a;
    UnionSize(a, b);
    var union := |a| + |b| - intersection;
    r := intersection as real / union as real;
  }

  lemma SmallerWithin(a: set<string>, b: set<string>)
    requires a <= b
    ensures |a| <= |b| && (|a| == |b| ==> a == b)
  {
    assert b == a + (b - a);
    if |a| == |b| {
      assert b - a == {};
    }
  }

  lemma RatioBounds(n: nat, d: nat)
    requires n <= d && d > 0
    ensures 0.0 <= n as real / d as real <= 1.0
    ensures n as real / d as real == 1.0 <==> n == d
    ensures n as real / d as real == 0.0 <==> n == 0
  {
    assert (n as real / d as real) * d as real == n as real;
  }

  /** What is measured: the share of the common elements among all. */
  lemma JaccardIsShare(a: set<string>, b: set<string>)
    ensures a + b != {} ==> Jaccard(a, b) * |a + b| as real == |a * b| as real
    ensures a + b == {} ==> Jaccard(a, b) == 1.0
  {
    if a == {} && b == {} {
      assert a + b == {};
    } else {
      assert |a + b| > 0;
    }
  }

  /** The ratio lies between 0 and 1, is symmetric, is 1 exactly for equal sets and 0 exactly when nothing is shared. */
  lemma JaccardMeasures(a: set<string>, b: set<string>)
    ensures 0.0 <= Jaccard(a, b) <= 1.0 && Jaccard(a, b) == Jaccard(b, a)
    ensures Jaccard(a, b) == 1.0 <==> a == b
    ensures Jaccard(a, b) == 0.0 <==> a * b == {} && a + b != {}
  {
    assert a + b == b + a && a * b == b * a;
    if a + b != {} {
      SmallerWithin(a * b, a + b);
      assert a * b == a + b <==> a == b;
      RatioBounds(|a * b|, |a + b|);
    }
  }

  // ----- Sums over sets -----

  function Count(v: map<string, nat>, w: string): nat {
    if w in v then v[w] else 0
  }

  /** The sum of v[w] * u[w] over a set of words. */
  ghost function Dot(ws: set<string>, v: map<string, nat>, u: map<string, nat>): (r: nat)
    decreases |ws|
  {
    if ws == {} then 0
    else
      var w :| w in ws;
      Dot(ws - {w}, v, u) + Count(v, w) * Count(u, w)
  }

  /** The order of summation does not matter. */
  lemma {:induction false} DotTakes(ws: set<string>, v: map<string, nat>, u: map<string, nat>, w: string)
    requires w in ws
    ensures Dot(ws, v, u) == Dot(ws - {w}, v, u) + Count(v, w) * Count(u, w)
    decreases |ws|
  {
    var x :| x in ws && Dot(ws, v, u) == Dot(ws - {x}, v, u) + Count(v, x) * Count(u, x);
    if x != w {
      DotTakes(ws - {x}, v, u, w);
      DotTakes(ws - {w}, v, u, x);
      assert ws - {x} - {w} == ws - {w} - {x};
    }
  }

  lemma DotAdds(ws: set<string>, v: map<string, nat>, u: map<string, nat>, w: string)
    requires w !in ws
    ensures Dot(ws + {w}, v, u) == Dot(ws, v, u) + Count(v, w) * Count(u, w)
  {
    DotTakes(ws + {w}, v, u, w);
    assert ws + {w} - {w} == ws;
  }

  lemma {:induction false} DotSymmetric(ws: set<string>, v: map<string, nat>, u: map<string, nat>)
    ensures Dot(ws, v, u) == Dot(ws, u, v)
    decreases |ws|
  {
    if ws != {} {
      var w :| w in ws;
      DotTakes(ws, v, u, w);
      DotTakes(ws, u, v, w);
      DotSymmetric(ws - {w}, v, u);
    }
  }

  /** Words that one of the vectors lacks add nothing. */
  lemma {:induction false} DotIgnores(ws: set<string>, more: set<string>, v: map<string, nat>, u: map<string, nat>)
    requires ws <= more && forall w :: w in more - ws ==> w !in v || w !in u
    ensures Dot(more, v, u) == Dot(ws, v, u)
    decreases |more|
  {
    if ws != more {
      assert more == ws + (more - ws);
      var w :| w in more - ws;
      DotTakes(more, v, u, w);
      DotIgnores(ws, more - {w}, v, u);
    }
  }

  // ----- Cauchy-Schwarz -----

  lemma SquaresOrder(x: int, y: int)
    requires y >= 0
    ensures x * x <= y * y ==> x <= y
  {
    if x > y {
      assert y * y <= x * y;
      assert x * y < x * x;
    }
  }

  /** Twice the geometric mean is at most the sum. */
  lemma Means(p: nat, q: nat, c: nat)
    requires c * c <= p * q
    ensures 2 * c <= p + q
  {
    assert (p - q) * (p - q) == p * p - 2 * (p * q) + q * q;
    assert (p + q) * (p + q) == p * p + 2 * (p * q) + q * q;
    assert (2 * c) * (2 * c) == 4 * (c * c);
    SquaresOrder(2 * c, p + q);
  }

  lemma MulMono(a: int, b: int, c: int)
    requires a <= b && c >= 0
    ensures a * c <= b * c
  {
  }

  /** 2dxy <= ay^2 + bx^2 when d^2 <= ab. */
  lemma CrossTerm(d: nat, a: nat, b: nat, x: nat, y: nat)
    requires d * d <= a * b
    ensures 2 * (d * (x * y)) <= a * (y * y) + b * (x * x)
  {
    MulMono(d * d, a * b, (x * y) * (x * y));
    Regroup(d, x * y);
    RegroupAll(a, b, x, y);
    Means(a * (y * y), b * (x * x), d * (x * y));
  }

  lemma Regroup(d: int, z: int)
    ensures (d * z) * (d * z) == (d * d) * (z * z)
  {
    calc {
      (d * z) * (d * z);
      d * (z * (d * z));
      d * (d * (z * z));
      (d * d) * (z * z);
    }
  }

  lemma RegroupAll(a: int, b: int, x: int, y: int)
    ensures (a * (y * y)) * (b * (x * x)) == (a * b) * ((x * y) * (x * y))
  {
    var s, t := y * y, x * x;
    Regroup(x, y);
    assert (a * s) * (b * t) == (a * b) * (t * s) by {
      assert (a * s) * (b * t) == a * (s * (b * t)) == a * (b * (s * t)) == (a * b) * (s * t);
    }
  }

  /** The bound survives one more coordinate. */
  lemma OneMoreCoordinate(d: nat, a: nat, b: nat, x: nat, y: nat)
    requires d * d <= a * b
    ensures (d + x * y) * (d + x * y) <= (a + x * x) * (b + y * y)
  {
    CrossTerm(d, a, b, x, y);
    var z := x * y;
    assert (d + z) * (d + z) == d * d + 2 * (d * z) + z * z;
    assert (a + x * x) * (b + y * y) == a * b + a * (y * y) + b * (x * x) + (x * x) * (y * y) by {
      Distribute(a, x * x, b, y * y);
    }
    Regroup(x, y);
  }

  lemma Distribute(a: int, s: int, b: int, t: int)
    ensures (a + s) * (b + t) == a * b + a * t + b * s + s * t
  {
  }

  /** Cauchy-Schwarz on word counts: the cosine never exceeds 1. */
  lemma {:induction false} DotIsBounded(ws: set<string>, v: map<string, nat>, u: map<string, nat>)
    ensures Dot(ws, v, u) * Dot(ws, v, u) <= Dot(ws, v, v) * Dot(ws, u, u)
    decreases |ws|
  {
    if ws != {} {
      var w :| w in ws;
      DotIsBounded(ws - {w}, v, u);
      OneMoreCoordinate(Dot(ws - {w}, v, u), Dot(ws - {w}, v, v), Dot(ws - {w}, u, u), Count(v, w), Count(u, w));
      DotTakes(ws, v, u, w);
      DotTakes(ws, v, v, w);
      DotTakes(ws, u, u, w);
    }
  }

  lemma DotPositive(ws: set<string>, v: map<string, nat>, w: string)
    requires w in ws && w in v && v[w] > 0
    ensures Dot(ws, v, v) > 0
  {
    DotTakes(ws, v, v, w);
    assert v[w] * v[w] >= 1;
  }

  // ----- Cosine -----

  /** No words to compare, or the dot product and the two squared magnitudes; the cosine is dot / sqrt(magA * magB). */
  datatype Cosine = NoWords | Cosine(dot: nat, magA: nat, magB: nat)
  {
    /** The cosine is at least t, for a positive threshold. */
    predicate Reaches(t: real) {
      Cosine? && (dot * dot) as real >= t * t * (magA * magB) as real
    }

    /** The square of the cosine, which orders cosines as they are ordered themselves. */
    function Squared(): (r: real)
      ensures r >= 0.0
    {
      if NoWords? || magA * magB == 0 then 0.0 else (dot * dot) as real / (magA * magB) as real
    }
  }

  lemma SquareOrder(x: real, y: real)
    requires 0.0 <= x <= y
    ensures x * x <= y * y
  {
    assert x * x <= x * y && x * y <= y * y;
  }

  lemma ScaledOrder(x: real, y: real, m: real)
    requires m > 0.0
    ensures x <= y <==> x * m <= y * m
  {
    if x > y {
      assert (x - y) * m > 0.0;
    } else {
      assert (y - x) * m >= 0.0;
    }
  }

  /**
   The number r is at most the cosine if its square times both squared magnitudes is at
   most the squared dot product.  A threshold is reached if some such number is no less
   than it, and otherwise all of them are less; so it is exactly for the squares.
   */
  lemma ReachesIff(c: Cosine, t: real, r: real)
    requires c.Cosine? && c.magA > 0 && c.magB > 0 && t > 0.0
    ensures r >= t && r * r * (c.magA * c.magB) as real <= (c.dot * c.dot) as real ==> c.Reaches(t)
    ensures !c.Reaches(t) && r >= 0.0 && r * r * (c.magA * c.magB) as real <= (c.dot * c.dot) as real ==> r < t
    ensures c.Reaches(t) ==> t * t * (c.magA * c.magB) as real <= (c.dot * c.dot) as real
    ensures c.Squared() * (c.magA * c.magB) as real == (c.dot * c.dot) as real
    ensures c.Reaches(t) <==> c.Squared() >= t * t
  {
    ProductPositive(c.magA, c.magB);
    var m, d := (c.magA * c.magB) as real, (c.dot * c.dot) as real;
    if r >= t && r * r * m <= d {
      SquareOrder(t, r);
      ScaledOrder(t * t, r * r, m);
    }
    assert c.Squared() * m == d;
    ScaledOrder(t * t, c.Squared(), m);
  }

  lemma NoWordsIs(c: Cosine, t: real)
    requires c.NoWords?
    ensures !c.Reaches(t) && c.Squared() == 0.0
  {
  }

  /** Nothing to compare reaches no threshold. */
  lemma NoWordsReachNothing(c: Cosine, t: real)
    requires c.NoWords? && t > 0.0
    ensures !c.Reaches(t) && c.Squared() < t * t
  {
    hide Cosine.Reaches, Cosine.Squared;
    NoWordsIs(c, t);
    PositiveProduct(t, t, c.Squared());
  }

  lemma PositiveProduct(x: real, y: real, z: real)
    requires x > 0.0 && y > 0.0 && z <= 0.0
    ensures z < x * y
  {
  }

  ghost function CosineOf(v: map<string, nat>, u: map<string, nat>): Cosine {
    if v == map[] || u == map[] then NoWords
    else
      var all := v.Keys + u.Keys;
      Cosine(Dot(all, v, u), Dot(all, v, v), Dot(all, u, u))
  }

  /** One pass over a set of words. */
  method SumProducts(ws: set<string>, v: map<string, nat>, u: map<string, nat>) returns (sum: nat)
    ensures sum == Dot(ws, v, u)
  {
    sum := 0;
    var todo := ws;
    while todo != {}
      invariant todo <= ws && sum == Dot(ws - todo, v, u)
      decreases todo
    {
      var k :| k in todo;
      DotAdds(ws - todo, v, u, k);
      assert ws - (todo - {k}) == (ws - todo) + {k};
      sum := sum + (if k in v then v[k] else 0) * (if k in u then u[k] else 0);
      todo := todo - {k};
    }
    assert ws - {} == ws;
  }

  /** cosineSimilarity, with both of its computations: the sums over each vector's own keys and those over all keys. */
  method CosineSimilarity(vecA: map<string, nat>, vecB: map<string, nat>) returns (c: Cosine)
    requires (forall w :: w in vecA ==> vecA[w] > 0) && forall w :: w in vecB ==> vecB[w] > 0
    ensures c == CosineOf(vecA, vecB)
  {
    if |vecA| == 0 || |vecB| == 0 {
      return NoWords;
    }
    var dot1 := SumProducts(vecA.Keys, vecA, vecB);
    var magA1 := SumProducts(vecA.Keys, vecA, vecA);
    var magB1 := SumProducts(vecB.Keys, vecB, vecB);
    var allKeys := vecA.Keys + vecB.Keys;
    var dot := SumProducts(allKeys, vecA, vecB);
    var magA := SumProducts(allKeys, vecA, vecA);
    var magB := SumProducts(allKeys, vecB, vecB);
    BothComputationsAgree(vecA, vecB);
    assert dot1 == dot && magA1 == magA && magB1 == magB;
    MagnitudesPositive(vecA, allKeys);
    MagnitudesPositive(vecB, allKeys);
    if magA == 0 || magB == 0 {
      return NoWords;
    }
    return Cosine(dot, magA, magB);
  }

  /** Summing over each vector's own keys gives what summing over all keys gives. */
  lemma BothComputationsAgree(v: map<string, nat>, u: map<string, nat>)
    ensures var all := v.Keys + u.Keys;
      && Dot(v.Keys, v, u) == Dot(all, v, u) && Dot(v.Keys, v, v) == Dot(all, v, v) && Dot(u.Keys, u, u) == Dot(all, u, u)
  {
    DotIgnores(v.Keys, v.Keys + u.Keys, v, u);
    DotIgnores(v.Keys, v.Keys + u.Keys, v, v);
    DotIgnores(u.Keys, v.Keys + u.Keys, u, u);
  }

  /** A vector with a word has a positive magnitude, so the test for zero never fires. */
  lemma MagnitudesPositive(v: map<string, nat>, all: set<string>)
    requires v != map[] && v.Keys <= all && forall w :: w in v ==> v[w] > 0
    ensures Dot(all, v, v) > 0
  {
    var w :| w in v;
    DotPositive(all, v, w);
  }

  /** The cosine is symmetric and never exceeds 1; it is 0 exactly when no word is shared. */
  lemma CosineMeasures(v: map<string, nat>, u: map<string, nat>)
    requires v != map[] && u != map[]
    requires (forall w :: w in v ==> v[w] > 0) && forall w :: w in u ==> u[w] > 0
    ensures var c := CosineOf(v, u);
      && c.Cosine? && c.magA > 0 && c.magB > 0 && c.dot * c.dot <= c.magA * c.magB
      && CosineOf(u, v) == Cosine(c.dot, c.magB, c.magA)
      && (c.dot == 0 <==> v.Keys * u.Keys == {})
  {
    hide Dot;
    var all := v.Keys + u.Keys;
    MagnitudesPositive(v, all);
    MagnitudesPositive(u, all);
    DotIsBounded(all, v, u);
    DotSymmetric(all, v, u);
    assert u.Keys + v.Keys == all;
    SharedWords(v, u);
  }

  lemma SharedWords(v: map<string, nat>, u: map<string, nat>)
    requires (forall w :: w in v ==> v[w] > 0) && forall w :: w in u ==> u[w] > 0
    ensures Dot(v.Keys + u.Keys, v, u) == 0 <==> v.Keys * u.Keys == {}
  {
    var all := v.Keys + u.Keys;
    if v.Keys * u.Keys == {} {
      DotIgnores({}, all, v, u);
    } else {
      var w :| w in v.Keys * u.Keys;
      DotTakes(all, v, u, w);
      ProductPositive(v[w], u[w]);
    }
  }

  lemma ProductPositive(x: nat, y: nat)
    requires x > 0 && y > 0
    ensures x * y > 0
  {
  }

  // ----- The duplicate decision -----

  datatype Gene = Gene(id: string, signal: string)

  /** The similarity that is reported: of shingles, or of words. */
  datatype Level = ByShingles(jaccard: real) | ByWords(cosine: Cosine)

  datatype Verdict = Unique(level: Level) | SharesShingles(id: string, jaccard: real) | SharesWords(id: string, cosine: Cosine)

  function Grams(lang: Lang, signal: string): set<string> {
    Shingles(Fields(Cleaned(lang, signal)))
  }

  ghost function Frequencies(lang: Lang, signal: string): (v: map<string, nat>)
    ensures forall w :: w in v ==> v[w] > 0
  {
    Frequency(lang, Fields(Alphanumeric(lang, signal)))
  }

  /** The existing gene has shingles to compare. */
  predicate HasGrams(lang: Lang, e: Gene) {
    e.signal != "" && Grams(lang, e.signal) != {}
  }

  ghost predicate Close(lang: Lang, signal: string, e: Gene, t: real) {
    e.signal != "" && CosineOf(Frequencies(lang, signal), Frequencies(lang, e.signal)).Reaches(t)
  }

  /** The candidate is rejected: some Jaccard reaches the threshold, or all are 0 and some cosine does. */
  ghost predicate Duplicate(lang: Lang, signal: string, existing: seq<Gene>, t: real) {
    && Grams(lang, signal) != {}
    && ((exists e :: e in existing && HasGrams(lang, e) && Jaccard(Grams(lang, signal), Grams(lang, e.signal)) >= t)
        || ((forall e :: e in existing && HasGrams(lang, e) ==> Jaccard(Grams(lang, signal), Grams(lang, e.signal)) == 0.0)
            && exists e :: e in existing && Close(lang, signal, e, t)))
  }

  ghost function CosineWith(lang: Lang, signal: string, e: Gene): Cosine {
    CosineOf(Frequencies(lang, signal), Frequencies(lang, e.signal))
  }

  /** No existing gene shares more shingles, and some gene shares as many unless the level is 0. */
  ghost predicate LargestJaccard(lang: Lang, signal: string, existing: seq<Gene>, level: real) {
    && level >= 0.0
    && (forall e :: e in existing && HasGrams(lang, e) ==> Jaccard(Grams(lang, signal), Grams(lang, e.signal)) <= level)
    && (level != 0.0 ==> exists e :: e in existing && HasGrams(lang, e) && Jaccard(Grams(lang, signal), Grams(lang, e.signal)) == level)
  }

  ghost predicate LargestCosine(lang: Lang, signal: string, existing: seq<Gene>, level: Cosine) {
    && (forall e :: e in existing && e.signal != "" ==> CosineWith(lang, signal, e).Squared() <= level.Squared())
    && (level != NoWords ==> exists e :: e in existing && e.signal != "" && CosineWith(lang, signal, e) == level)
  }

  /** The similarity reported for an accepted candidate: the largest Jaccard, or if all are 0 the largest cosine. */
  ghost predicate Closest(lang: Lang, signal: string, existing: seq<Gene>, level: Level) {
    if existing == [] || Grams(lang, signal) == {} then level == ByShingles(0.0)
    else match level
         case ByShingles(j) => j > 0.0 && LargestJaccard(lang, signal, existing, j)
         case ByWords(c) => LargestJaccard(lang, signal, existing, 0.0) && LargestCosine(lang, signal, existing, c)
  }

  /** The verdict does not depend on the order in which the store returns the genes. */
  lemma OrderDoesNotMatter(lang: Lang, signal: string, p: seq<Gene>, q: seq<Gene>, t: real)
    requires multiset(p) == multiset(q)
    ensures Duplicate(lang, signal, p, t) == Duplicate(lang, signal, q, t)
  {
    forall e ensures e in p <==> e in q {
      assert e in p <==> e in multiset(p);
    }
  }

  /** setDefaults for the threshold. */
  function Threshold(t: real): (r: real)
    ensures r > 0.0
  {
    if t <= 0.0 then 0.80 else t
  }

  /** The first loop of reviewLayer2. */
  method CompareShingles(lang: Lang, signal: string, grams: set<string>, existing: seq<Gene>, t: real) returns (hit: Option<Verdict>, maxSimilarity: real)
    requires t > 0.0 && grams == Grams(lang, signal)
    ensures hit.Some? <==> exists e :: e in existing && HasGrams(lang, e) && Jaccard(grams, Grams(lang, e.signal)) >= t
    ensures hit.Some? ==> hit.value.SharesShingles? && hit.value.jaccard >= t
    ensures hit.Some? ==> exists e :: e in existing && HasGrams(lang, e) && hit.value == SharesShingles(e.id, Jaccard(grams, Grams(lang, e.signal)))
    ensures hit.None? ==> LargestJaccard(lang, signal, existing, maxSimilarity)
  {
    hide Jaccard, Grams, Fields, Cleaned, Shingles, HasGrams;
    hit, maxSimilarity := None, 0.0;
    for i := 0 to |existing|
      invariant hit == None && maxSimilarity >= 0.0
      invariant forall k :: 0 <= k < i && HasGrams(lang, existing[k]) ==> Jaccard(grams, Grams(lang, existing[k].signal)) <= maxSimilarity
      invariant forall k :: 0 <= k < i && HasGrams(lang, existing[k]) ==> Jaccard(grams, Grams(lang, existing[k].signal)) < t
      invariant maxSimilarity == 0.0 ||
        exists k :: 0 <= k < i && HasGrams(lang, existing[k]) && Jaccard(grams, Grams(lang, existing[k].signal)) == maxSimilarity
    {
      GramsAre(lang, existing[i]);
      if existing[i].signal == "" {
        continue;
      }
      var theirs := Tokenize3Grams(lang, existing[i].signal);
      if |theirs| == 0 {
        continue;
      }
      JaccardMeasures(grams, theirs);
      var jaccard := JaccardSimilarity(grams, theirs);
      if jaccard > maxSimilarity {
        maxSimilarity := jaccard;
      }
      if jaccard >= t {
        assert existing[i] in existing;
        return Some(SharesShingles(existing[i].id, jaccard)), maxSimilarity;
      }
    }
  }

  lemma GramsAre(lang: Lang, e: Gene)
    ensures Grams(lang, e.signal) == Shingles(Fields(Cleaned(lang, e.signal)))
    ensures HasGrams(lang, e) <==> e.signal != "" && Grams(lang, e.signal) != {}
  {
  }

  lemma VectorIs(lang: Lang, signal: string)
    ensures Frequencies(lang, signal) == Frequency(lang, Fields(Alphanumeric(lang, signal)))
  {
  }

  lemma CloseIs(lang: Lang, signal: string, e: Gene, t: real)
    ensures Close(lang, signal, e, t) <==>
      e.signal != "" && CosineOf(Frequencies(lang, signal), Frequencies(lang, e.signal)).Reaches(t)
  {
  }

  lemma CloseMeans(lang: Lang, signal: string, e: Gene, t: real)
    requires t > 0.0
    ensures Close(lang, signal, e, t) <==> e.signal != "" && CosineWith(lang, signal, e).Squared() >= t * t
  {
    hide CosineOf, Cosine.Reaches, Cosine.Squared, Frequencies;
    var v, u := Frequencies(lang, signal), Frequencies(lang, e.signal);
    if v == map[] || u == map[] {
      NoWordsOf(v, u);
      NoWordsReachNothing(CosineOf(v, u), t);
    } else {
      CosineMeasures(v, u);
      ReachesIff(CosineOf(v, u), t, t);
    }
  }

  lemma NoWordsOf(v: map<string, nat>, u: map<string, nat>)
    requires v == map[] || u == map[]
    ensures CosineOf(v, u) == NoWords
  {
  }

  /** The second loop of reviewLayer2. */
  method CompareWords(lang: Lang, signal: string, existing: seq<Gene>, t: real) returns (v: Verdict)
    ensures v.SharesWords? <==> exists e :: e in existing && Close(lang, signal, e, t)
    ensures t > 0.0 ==> (v.SharesWords? <==> exists e :: e in existing && e.signal != "" && CosineWith(lang, signal, e).Squared() >= t * t)
    ensures t > 0.0 && v.SharesWords? ==> v.cosine.Squared() >= t * t
    ensures v.SharesWords? ==> v.cosine.Reaches(t) && exists e :: e in existing && v.id == e.id && v.cosine == CosineWith(lang, signal, e)
    ensures !v.SharesWords? ==> v.Unique? && v.level.ByWords? && LargestCosine(lang, signal, existing, v.level.cosine)
  {
    hide CosineOf, Cosine.Reaches, Cosine.Squared, Fields, Alphanumeric, Close, Frequencies, Frequency;
    var vecA := WordFreqVector(lang, signal);
    VectorIs(lang, signal);
    var closest := NoWords;
    NoWordsIsLeast();
    for i := 0 to |existing|
      invariant forall k :: 0 <= k < i ==> !Close(lang, signal, existing[k], t)
      invariant t > 0.0 ==> forall k :: 0 <= k < i && existing[k].signal != "" ==> CosineWith(lang, signal, existing[k]).Squared() < t * t
      invariant forall k :: 0 <= k < i && existing[k].signal != "" ==> CosineWith(lang, signal, existing[k]).Squared() <= closest.Squared()
      invariant closest != NoWords ==> exists k :: 0 <= k < i && existing[k].signal != "" && CosineWith(lang, signal, existing[k]) == closest
    {
      CloseIs(lang, signal, existing[i], t);
      if t > 0.0 { CloseMeans(lang, signal, existing[i], t); }
      if existing[i].signal == "" {
        continue;
      }
      var vecB := WordFreqVector(lang, existing[i].signal);
      VectorIs(lang, existing[i].signal);
      var cosine := CosineSimilarity(vecA, vecB);
      if cosine.Squared() > closest.Squared() {
        closest := cosine;
      }
      if cosine.Reaches(t) {
        assert existing[i] in existing && Close(lang, signal, existing[i], t);
        return SharesWords(existing[i].id, cosine);
      }
    }
    return Unique(ByWords(closest));
  }

  lemma NoWordsIsLeast()
    ensures NoWords.Squared() == 0.0
  {
  }

  /** The rejection, with the cosine measured by its square. */
  lemma DuplicateMeans(lang: Lang, signal: string, existing: seq<Gene>, t: real)
    requires t > 0.0
    ensures Duplicate(lang, signal, existing, t) <==>
      && Grams(lang, signal) != {}
      && ((exists e :: e in existing && e.signal != "" && Grams(lang, e.signal) != {} && Jaccard(Grams(lang, signal), Grams(lang, e.signal)) >= t)
          || ((forall e :: e in existing && e.signal != "" && Grams(lang, e.signal) != {} ==>
                 Jaccard(Grams(lang, signal), Grams(lang, e.signal)) == 0.0)
              && exists e :: e in existing && e.signal != "" && CosineWith(lang, signal, e).Squared() >= t * t))
  {
    hide Grams, Jaccard, Close, CosineWith, Cosine.Squared;
    forall e ensures Close(lang, signal, e, t) <==> e.signal != "" && CosineWith(lang, signal, e).Squared() >= t * t {
      CloseMeans(lang, signal, e, t);
    }
  }

  /** reviewLayer2 after its guards. */
  method CompareAll(lang: Lang, signal: string, existing: seq<Gene>, t: real) returns (v: Verdict)
    requires t > 0.0
    ensures v.Unique? <==> !Duplicate(lang, signal, existing, t)
    ensures !v.Unique? ==> exists e :: e in existing && v.id == e.id
    ensures v.Unique? ==> Closest(lang, signal, existing, v.level)
  {
    hide Grams, Jaccard, Close, CosineWith, LargestCosine, HasGrams, Cosine.Squared;
    if |existing| == 0 {
      return Unique(ByShingles(0.0));
    }
    var grams := Tokenize3Grams(lang, signal);
    GramsAre(lang, Gene("", signal));
    if |grams| == 0 {
      return Unique(ByShingles(0.0));
    }
    var hit, maxSimilarity := CompareShingles(lang, signal, grams, existing, t);
    NoneNegative(lang, signal, existing);
    if hit.Some? {
      v := hit.value;
    } else if maxSimilarity == 0.0 {
      v := CompareWords(lang, signal, existing, t);
    } else {
      v := Unique(ByShingles(maxSimilarity));
    }
  }

  /**
   reviewLayer2; None stands for a store that cannot be queried, which passes the
   candidate.  It is rejected exactly if it has shingles and some gene's Jaccard reaches the
   threshold, or none shares a shingle and the square of some gene's cosine reaches the
   square of the threshold.
   */
  method ReviewLayer2(enabled: bool, signal: string, approved: Option<seq<Gene>>, lower: char -> char, threshold: real) returns (v: Verdict)
    ensures v.Unique? <==> !(enabled && approved.Some? && Duplicate(Lang(lower, STOP_WORDS), signal, approved.value, Threshold(threshold)))
    ensures var lang, t := Lang(lower, STOP_WORDS), if threshold <= 0.0 then 0.80 else threshold;
      !v.Unique? <==>
        && enabled && approved.Some? && Grams(lang, signal) != {}
        && ((exists e :: e in approved.value && e.signal != "" && Grams(lang, e.signal) != {} && Jaccard(Grams(lang, signal), Grams(lang, e.signal)) >= t)
            || ((forall e :: e in approved.value && e.signal != "" && Grams(lang, e.signal) != {} ==>
                   Jaccard(Grams(lang, signal), Grams(lang, e.signal)) == 0.0)
                && exists e :: e in approved.value && e.signal != "" && CosineWith(lang, signal, e).Squared() >= t * t))
    ensures !v.Unique? ==> exists e :: e in approved.value && v.id == e.id
    ensures v.Unique? ==> if enabled && approved.Some? then Closest(Lang(lower, STOP_WORDS), signal, approved.value, v.level) else v.level == ByShingles(0.0)
  {
    hide Duplicate, Closest, Grams, Jaccard, CosineWith, Cosine.Squared;
    if !enabled || approved.None? {
      return Unique(ByShingles(0.0));
    }
    var existing, t, lang := approved.value, Threshold(threshold), Lang(lower, STOP_WORDS);
    DuplicateMeans(lang, signal, existing, t);
    v := CompareAll(lang, signal, existing, t);
  }

  lemma NoneNegative(lang: Lang, signal: string, existing: seq<Gene>)
    ensures forall e :: e in existing ==> Jaccard(Grams(lang, signal), Grams(lang, e.signal)) >= 0.0
  {
    forall e | e in existing ensures Jaccard(Grams(lang, signal), Grams(lang, e.signal)) >= 0.0 {
      JaccardMeasures(Grams(lang, signal), Grams(lang, e.signal));
    }
  }
}
