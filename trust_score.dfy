/**
 * The trust score: a pure reduction of the verified claims to counts per
 * classification, an average confidence, a 0-100 score and a risk tier.
 *
 * Arithmetic is exact over `real`; `Math.round(x)` is Floor(x + 0.5).
 */
module TrustScore {

  import opened VerifyClaims

  datatype RiskLevel = Low | Medium | High

  datatype TrustScoreMetrics = TrustScoreMetrics(
    score: int,
    verifiedCount: nat,
    partialCount: nat,
    unsupportedCount: nat,
    totalClaims: nat,
    avgConfidence: int,
    riskLevel: RiskLevel)

  /** The metrics of an empty claim list. */
  const EmptyMetrics := TrustScoreMetrics(0, 0, 0, 0, 0, 0, Low)

  /** JavaScript's Math.round on exact reals: the nearest integer, halves rounding up. */
  function Round(x: real): (r: int)
    ensures x - 0.5 < r as real <= x + 0.5
  {
    (x + 0.5).Floor
  }

  /** The final weighted score: the rounded percentage of base credibility times modifier. */
  function WeightedScore(base: real, modifier: real): int
  {
    Round(base * modifier * 100.0)
  }

  /** The number of claims with classification `k`. */
  function CountOf(claims: seq<Claim>, k: Classification): (n: nat)
    ensures n <= |claims|
  {
    if |claims| == 0 then 0
    else CountOf(claims[..|claims| - 1], k) + (if claims[|claims| - 1].classification == k then 1 else 0)
  }

  /** The sum of the confidences, added left to right. */
  function SumConfidence(claims: seq<Claim>): real
  {
    if |claims| == 0 then 0.0
    else SumConfidence(claims[..|claims| - 1]) + claims[|claims| - 1].confidence
  }

  /** The mean confidence of a non-empty claim list. */
  function AverageConfidence(claims: seq<Claim>): real
    requires |claims| > 0
  {
    SumConfidence(claims) / |claims| as real
  }

  /** The claim-count-weighted mean of the weights 1.0, 0.5 and 0.0. */
  function BaseCredibility(claims: seq<Claim>): (b: real)
    requires |claims| > 0
    ensures 0.0 <= b <= 1.0
  {
    CountsPartition(claims);
    var verified := CountOf(claims, Verified) as real;
    var partial := CountOf(claims, PartiallySupported) as real;
    var unsupported := CountOf(claims, Unsupported) as real;
    var weighted := verified * 1.0 + partial * 0.5 + unsupported * 0.0;
    QuotientInUnit(weighted, |claims| as real);
    weighted / |claims| as real
  }

  /** The multiplier that lets the average confidence move the score by up to 20%. */
  function ConfidenceModifier(avg: real): (m: real)
    ensures 0.0 <= avg <= 1.0 ==> 0.8 <= m <= 1.0
    ensures 0.0 <= avg ==> 0.8 <= m
  {
    0.8 + 0.2 * avg
  }

  /**
   * The risk tier, set Low, overwritten with Medium when a claim is
   * unsupported or the score is under 80, and then with High when more than
   * one claim is unsupported or the score is under 50.
   */
  function RiskOf(score: int, unsupported: nat): (r: RiskLevel)
    ensures r == High <==> unsupported > 1 || score < 50
    ensures r == Medium <==> !(unsupported > 1 || score < 50) && (unsupported > 0 || score < 80)
    ensures r == Low <==> unsupported == 0 && score >= 80
  {
    var afterFirst := if unsupported > 0 || score < 80 then Medium else Low;
    if unsupported > 1 || score < 50 then High else afterFirst
  }

  /** The trust metrics of a claim list. */
  function CalculateTrustScore(claims: seq<Claim>): (m: TrustScoreMetrics)
    ensures claims == [] ==> m == EmptyMetrics
    ensures m.totalClaims == |claims|
    ensures m.verifiedCount + m.partialCount + m.unsupportedCount == m.totalClaims
    ensures claims != [] ==> m.riskLevel == RiskOf(m.score, m.unsupportedCount)
  {
    if |claims| == 0 then EmptyMetrics
    else
      CountsPartition(claims);
      var avgConfidence := AverageConfidence(claims);
      var rawScore := WeightedScore(BaseCredibility(claims), ConfidenceModifier(avgConfidence));
      var unsupported := CountOf(claims, Unsupported);
      TrustScoreMetrics(
        rawScore,
        CountOf(claims, Verified),
        CountOf(claims, PartiallySupported),
        unsupported,
        |claims|,
        Round(avgConfidence * 100.0),
        RiskOf(rawScore, unsupported))
  }

  // ---------------------------------------------------------------------------
  // Real arithmetic

  /** A quotient of a value in [0, n] by a positive n lies in [0, 1]. */
  lemma QuotientInUnit(x: real, n: real)
    requires 0.0 <= x <= n && n > 0.0
    ensures 0.0 <= x / n <= 1.0
  {
  }

  /** A product of two values in [0, 1] lies in [0, 1]. */
  lemma ProductInUnit(x: real, y: real)
    requires 0.0 <= x <= 1.0 && 0.0 <= y <= 1.0
    ensures 0.0 <= x * y <= 1.0
  {
    MulNonNegative(x, y);
    MulNonNegative(1.0 - x, y);
    assert y - x * y == (1.0 - x) * y;
  }

  /** A product of non-negative values is non-negative. */
  lemma MulNonNegative(x: real, y: real)
    requires 0.0 <= x && 0.0 <= y
    ensures 0.0 <= x * y
  {
  }

  /** Multiplying by a non-negative factor preserves order. */
  lemma MulMonotone(x: real, y: real, f: real)
    requires x <= y && 0.0 <= f
    ensures x * f <= y * f
  {
  }

  /** A higher base credibility under the same non-negative modifier gives a score at least as high. */
  lemma ScoreMonotone(base: real, base': real, modifier: real)
    requires base <= base' && 0.0 <= modifier
    ensures WeightedScore(base, modifier) <= WeightedScore(base', modifier)
  {
    MulMonotone(base, base', modifier);
    MulMonotone(base * modifier, base' * modifier, 100.0);
    RoundMonotone(base * modifier * 100.0, base' * modifier * 100.0);
  }

  // ---------------------------------------------------------------------------
  // Counting and summing

  /** Every claim falls in exactly one of the three classifications. */
  lemma {:induction false} CountsPartition(claims: seq<Claim>)
    ensures CountOf(claims, Verified) + CountOf(claims, PartiallySupported) + CountOf(claims, Unsupported) == |claims|
  {
    if |claims| > 0 {
      CountsPartition(claims[..|claims| - 1]);
    }
  }

  /** A classification no claim carries has count zero. */
  lemma {:induction false} CountOfAbsent(claims: seq<Claim>, k: Classification)
    requires forall i :: 0 <= i < |claims| ==> claims[i].classification != k
    ensures CountOf(claims, k) == 0
  {
    if |claims| > 0 {
      CountOfAbsent(claims[..|claims| - 1], k);
    }
  }

  /** Counts and sums split over a concatenation. */
  lemma {:induction false} TotalsAppend(a: seq<Claim>, b: seq<Claim>)
    ensures forall k :: CountOf(a + b, k) == CountOf(a, k) + CountOf(b, k)
    ensures SumConfidence(a + b) == SumConfidence(a) + SumConfidence(b)
    decreases |b|
  {
    if |b| == 0 {
      assert a + b == a;
    } else {
      var n := |b| - 1;
      assert (a + b)[..|a + b| - 1] == a + b[..n];
      TotalsAppend(a, b[..n]);
    }
  }

  /** With every confidence in [0, 1], the sum lies in [0, n] for n claims. */
  lemma {:induction false} SumConfidenceBounds(claims: seq<Claim>)
    requires forall i :: 0 <= i < |claims| ==> 0.0 <= claims[i].confidence <= 1.0
    ensures 0.0 <= SumConfidence(claims) <= |claims| as real
  {
    if |claims| > 0 {
      SumConfidenceBounds(claims[..|claims| - 1]);
    }
  }

  /** With non-negative confidences the sum is non-negative. */
  lemma {:induction false} SumConfidenceNonNegative(claims: seq<Claim>)
    requires forall i :: 0 <= i < |claims| ==> 0.0 <= claims[i].confidence
    ensures 0.0 <= SumConfidence(claims)
  {
    if |claims| > 0 {
      SumConfidenceNonNegative(claims[..|claims| - 1]);
    }
  }

  /** An empty claim list gives score 0, all counts 0, average 0 and Low risk. */
  lemma EmptyInputMetrics()
    ensures var m := CalculateTrustScore([]);
            && m.score == 0 && m.verifiedCount == 0 && m.partialCount == 0 && m.unsupportedCount == 0
            && m.totalClaims == 0 && m.avgConfidence == 0 && m.riskLevel == Low
  {
  }

  // ---------------------------------------------------------------------------
  // Bounds

  /** Rounding a value in [0, 100] gives an integer in [0, 100]. */
  lemma RoundBounds(x: real)
    requires 0.0 <= x <= 100.0
    ensures 0 <= Round(x) <= 100
  {
  }

  /** Rounding is monotone. */
  lemma RoundMonotone(x: real, y: real)
    requires x <= y
    ensures Round(x) <= Round(y)
  {
  }

  /** With every confidence in [0, 1], the average is in [0, 1]. */
  lemma {:induction false} AverageConfidenceBounds(claims: seq<Claim>)
    requires |claims| > 0
    requires forall i :: 0 <= i < |claims| ==> 0.0 <= claims[i].confidence <= 1.0
    ensures 0.0 <= AverageConfidence(claims) <= 1.0
    ensures 0.8 <= ConfidenceModifier(AverageConfidence(claims)) <= 1.0
  {
    SumConfidenceBounds(claims);
    var n := |claims| as real;
    var s := SumConfidence(claims);
    assert s / n <= 1.0 by {
      assert s <= n;
    }
  }

  /** With every confidence in [0, 1], the score and the percentage confidence are in [0, 100]. */
  lemma {:induction false} ScoreBounds(claims: seq<Claim>)
    requires forall i :: 0 <= i < |claims| ==> 0.0 <= claims[i].confidence <= 1.0
    ensures 0 <= CalculateTrustScore(claims).score <= 100
    ensures 0 <= CalculateTrustScore(claims).avgConfidence <= 100
  {
    if |claims| > 0 {
      AverageConfidenceBounds(claims);
      var avg := AverageConfidence(claims);
      var b := BaseCredibility(claims);
      var mod := ConfidenceModifier(avg);
      ProductInUnit(b, mod);
      RoundBounds(b * mod * 100.0);
      RoundBounds(avg * 100.0);
    }
  }

  // ---------------------------------------------------------------------------
  // Risk tier

  /** A Low tier means no unsupported claim and a score of at least 80, unless there are no claims. */
  lemma LowRiskMeansClean(claims: seq<Claim>)
    requires CalculateTrustScore(claims).riskLevel == Low
    ensures var m := CalculateTrustScore(claims);
            m.unsupportedCount == 0 && (m.score >= 80 || m.totalClaims == 0)
  {
  }

  /** A non-empty list of unsupported claims scores 0 and is High risk. */
  lemma {:induction false} AllUnsupported(claims: seq<Claim>)
    requires |claims| > 0
    requires forall i :: 0 <= i < |claims| ==> claims[i].classification == Unsupported
    ensures CalculateTrustScore(claims).score == 0
    ensures CalculateTrustScore(claims).riskLevel == High
  {
    CountOfAbsent(claims, Verified);
    CountOfAbsent(claims, PartiallySupported);
    assert BaseCredibility(claims) == 0.0;
  }

  // ---------------------------------------------------------------------------
  // Monotonicity and order independence

  /** The claim list after reclassifying claim i as verified, its other fields unchanged. */
  function ReclassifiedAsVerified(claims: seq<Claim>, i: nat): (r: seq<Claim>)
    requires i < |claims|
    ensures |r| == |claims|
  {
    claims[i := claims[i].(classification := Verified)]
  }

  /**
   * Reclassifying claim i as verified moves it from its old class to the
   * verified count and leaves the confidence sum unchanged.
   */
  lemma {:induction false} ReclassifiedTotals(claims: seq<Claim>, i: nat)
    requires i < |claims|
    ensures var after := ReclassifiedAsVerified(claims, i);
            var old_k := claims[i].classification;
            && SumConfidence(after) == SumConfidence(claims)
            && CountOf(after, Verified) == CountOf(claims, Verified) + (if old_k == Verified then 0 else 1)
            && (forall k :: k != Verified ==>
                  CountOf(after, k) == CountOf(claims, k) - (if old_k == k then 1 else 0))
  {
    var after := ReclassifiedAsVerified(claims, i);
    assert after[..i] + after[i + 1..] == claims[..i] + claims[i + 1..];
    TotalsWithout(claims, i);
    TotalsWithout(after, i);
  }

  /**
   * With non-negative confidences, reclassifying one claim as verified,
   * its confidence unchanged, never lowers the score.
   */
  lemma {:induction false} ReclassifyAsVerifiedMonotone(claims: seq<Claim>, i: nat)
    requires i < |claims|
    requires forall j :: 0 <= j < |claims| ==> 0.0 <= claims[j].confidence
    ensures CalculateTrustScore(ReclassifiedAsVerified(claims, i)).score >= CalculateTrustScore(claims).score
  {
    var after := ReclassifiedAsVerified(claims, i);
    ReclassifiedBaseRises(claims, i);
    AverageConfidenceNonNegative(claims);
    var mod := ConfidenceModifier(AverageConfidence(claims));
    var before, later := BaseCredibility(claims), BaseCredibility(after);
    assert ConfidenceModifier(AverageConfidence(after)) == mod;
    ScoreFormula(claims);
    ScoreFormula(after);
    ScoreMonotone(before, later, mod);
  }

  /** For a non-empty list, the score is the rounded product of base, modifier and 100. */
  lemma ScoreFormula(claims: seq<Claim>)
    requires |claims| > 0
    ensures CalculateTrustScore(claims).score
            == WeightedScore(BaseCredibility(claims), ConfidenceModifier(AverageConfidence(claims)))
  {
  }

  /** With non-negative confidences the average confidence is non-negative. */
  lemma {:induction false} AverageConfidenceNonNegative(claims: seq<Claim>)
    requires |claims| > 0
    requires forall j :: 0 <= j < |claims| ==> 0.0 <= claims[j].confidence
    ensures 0.0 <= AverageConfidence(claims)
  {
    SumConfidenceNonNegative(claims);
    QuotientMonotone(0.0, SumConfidence(claims), |claims| as real);
  }

  /** Reclassifying a claim as verified keeps the average confidence and does not lower the base credibility. */
  lemma {:induction false} ReclassifiedBaseRises(claims: seq<Claim>, i: nat)
    requires i < |claims|
    ensures AverageConfidence(ReclassifiedAsVerified(claims, i)) == AverageConfidence(claims)
    ensures BaseCredibility(ReclassifiedAsVerified(claims, i)) >= BaseCredibility(claims)
  {
    var after := ReclassifiedAsVerified(claims, i);
    ReclassifiedTotals(claims, i);
    var n := |claims| as real;
    var w := CountOf(claims, Verified) as real * 1.0 + CountOf(claims, PartiallySupported) as real * 0.5
             + CountOf(claims, Unsupported) as real * 0.0;
    var w' := CountOf(after, Verified) as real * 1.0 + CountOf(after, PartiallySupported) as real * 0.5
              + CountOf(after, Unsupported) as real * 0.0;
    assert w <= w';
    assert BaseCredibility(claims) == w / n;
    assert BaseCredibility(after) == w' / n;
    QuotientMonotone(w, w', n);
  }

  /** Dividing by a positive value preserves order. */
  lemma QuotientMonotone(x: real, y: real, n: real)
    requires x <= y && n > 0.0
    ensures x / n <= y / n
  {
  }

  /** The (classification, confidence) pair of each claim, in order. */
  function Pairs(claims: seq<Claim>): (ps: seq<(Classification, real)>)
    ensures |ps| == |claims|
  {
    seq(|claims|, i requires 0 <= i < |claims| => (claims[i].classification, claims[i].confidence))
  }

  /** Pairs distributes over concatenation. */
  lemma PairsAppend(a: seq<Claim>, b: seq<Claim>)
    ensures Pairs(a + b) == Pairs(a) + Pairs(b)
  {
  }

  /** Removing the claim at j takes its class out of the counts and its confidence out of the sum. */
  lemma {:induction false} TotalsWithout(b: seq<Claim>, j: nat)
    requires j < |b|
    ensures var rest := b[..j] + b[j + 1..];
            && SumConfidence(b) == SumConfidence(rest) + b[j].confidence
            && forall k :: CountOf(b, k) == CountOf(rest, k) + (if b[j].classification == k then 1 else 0)
  {
    assert b == b[..j] + [b[j]] + b[j + 1..];
    TotalsAppend(b[..j], [b[j]]);
    TotalsAppend(b[..j] + [b[j]], b[j + 1..]);
    TotalsAppend(b[..j], b[j + 1..]);
    assert [b[j]][..0] == [];
  }

  /** The pair multiset of a list is that of the list without claim j, plus claim j's pair. */
  lemma PairsSplitAt(b: seq<Claim>, j: nat)
    requires j < |b|
    ensures multiset(Pairs(b)) == multiset(Pairs(b[..j] + b[j + 1..])) + multiset{Pairs(b)[j]}
  {
    assert b == b[..j] + [b[j]] + b[j + 1..];
    PairsAppend(b[..j], [b[j]]);
    PairsAppend(b[..j] + [b[j]], b[j + 1..]);
    PairsAppend(b[..j], b[j + 1..]);
    assert Pairs([b[j]]) == [Pairs(b)[j]];
  }

  /**
   * Taking the last claim of `a` and a claim of `b` with the same pair out
   * of two lists with equal pair multisets leaves equal pair multisets.
   */
  lemma {:induction false} PairsWithoutMatching(a: seq<Claim>, b: seq<Claim>, j: nat)
    requires |a| > 0 && j < |b|
    requires Pairs(b)[j] == Pairs(a)[|a| - 1]
    requires multiset(Pairs(a)) == multiset(Pairs(b))
    ensures multiset(Pairs(a[..|a| - 1])) == multiset(Pairs(b[..j] + b[j + 1..]))
  {
    var n := |a| - 1;
    var p := Pairs(a)[n];
    PairsSplitAt(a, n);
    PairsSplitAt(b, j);
    assert a[..n] + a[n + 1..] == a[..n];
    var x, y := multiset(Pairs(a[..n])), multiset(Pairs(b[..j] + b[j + 1..]));
    assert x + multiset{p} == y + multiset{p};
    assert x == x + multiset{p} - multiset{p};
    assert y == y + multiset{p} - multiset{p};
  }

  /** Lists with the same multiset of pairs have the same length, counts and confidence sum. */
  lemma {:induction false} PairsDetermineTotals(a: seq<Claim>, b: seq<Claim>)
    requires multiset(Pairs(a)) == multiset(Pairs(b))
    ensures |a| == |b|
    ensures forall k :: CountOf(a, k) == CountOf(b, k)
    ensures SumConfidence(a) == SumConfidence(b)
    decreases |a|
  {
    assert |a| == |multiset(Pairs(a))| == |multiset(Pairs(b))| == |b|;
    if |a| > 0 {
      var n := |a| - 1;
      assert Pairs(a)[n] in multiset(Pairs(b));
      var j :| 0 <= j < |b| && Pairs(b)[j] == Pairs(a)[n];
      PairsWithoutMatching(a, b, j);
      PairsDetermineTotals(a[..n], b[..j] + b[j + 1..]);
      TotalsWithout(b, j);
      assert a[n].classification == b[j].classification && a[n].confidence == b[j].confidence;
    }
  }

  /** The metrics depend only on the multiset of (classification, confidence) pairs, not on order. */
  lemma {:induction false} SamePairsSameMetrics(a: seq<Claim>, b: seq<Claim>)
    requires multiset(Pairs(a)) == multiset(Pairs(b))
    ensures CalculateTrustScore(a) == CalculateTrustScore(b)
  {
    PairsDetermineTotals(a, b);
    if |a| > 0 {
      assert AverageConfidence(a) == AverageConfidence(b);
      assert BaseCredibility(a) == BaseCredibility(b);
      ScoreFormula(a);
      ScoreFormula(b);
    }
  }

  // ---------------------------------------------------------------------------
  // Worked examples

  /** Three verified claims at confidence 0.9 score 98 and are Low risk. */
  lemma ThreeVerifiedExample()
    ensures var c := Claim("", Verified, [], 0.9, "");
            var m := CalculateTrustScore([c, c, c]);
            m.score == 98 && m.riskLevel == Low && m.avgConfidence == 90
  {
    var c := Claim("", Verified, [], 0.9, "");
    var s := [c, c, c];
    assert s[..2] == [c, c] && [c, c][..1] == [c] && [c][..0] == [];
    assert SumConfidence([c]) == 0.9;
    assert SumConfidence([c, c]) == 1.8;
    assert SumConfidence(s) == 2.7;
    assert CountOf([c], Verified) == 1 && CountOf([c], PartiallySupported) == 0 && CountOf([c], Unsupported) == 0;
    assert CountOf([c, c], Verified) == 2 && CountOf([c, c], PartiallySupported) == 0 && CountOf([c, c], Unsupported) == 0;
    assert CountOf(s, Verified) == 3 && CountOf(s, PartiallySupported) == 0 && CountOf(s, Unsupported) == 0;
  }

  /** One verified and one unsupported claim at confidence 1.0 score 50 and are Medium risk. */
  lemma VerifiedAndUnsupportedExample()
    ensures var m := CalculateTrustScore([Claim("", Verified, [], 1.0, ""), Claim("", Unsupported, [], 1.0, "")]);
            m.score == 50 && m.unsupportedCount == 1 && m.riskLevel == Medium
  {
    var v, u := Claim("", Verified, [], 1.0, ""), Claim("", Unsupported, [], 1.0, "");
    var s := [v, u];
    assert s[..1] == [v] && [v][..0] == [];
    assert SumConfidence([v]) == 1.0;
    assert SumConfidence(s) == 2.0;
    assert CountOf([v], Verified) == 1 && CountOf([v], PartiallySupported) == 0 && CountOf([v], Unsupported) == 0;
    assert CountOf(s, Verified) == 1;
    assert CountOf(s, PartiallySupported) == 0;
    assert CountOf(s, Unsupported) == 1;
  }

  /** Two unsupported claims make the tier High whatever the score. */
  lemma TwoUnsupportedIsHigh(claims: seq<Claim>)
    requires CountOf(claims, Unsupported) > 1
    ensures CalculateTrustScore(claims).riskLevel == High
  {
  }
}
