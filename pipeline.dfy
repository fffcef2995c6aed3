/**
 * The verification flow's output fed into the trust score, as the page does
 * after the flow returns.
 */
module Pipeline {

  import opened Wrappers
  import opened VerifyClaims
  import opened TrustScore

  /** The number of checks that returned a result whose status maps to `k`. */
  function ResponsesMappedTo(rs: seq<Option<CheckResult>>, k: Classification): nat
  {
    if |rs| == 0 then 0
    else
      ResponsesMappedTo(rs[..|rs| - 1], k)
      + (match rs[|rs| - 1] case Some(r) => (if MapStatus(r.status) == k then 1 else 0) case None => 0)
  }

  /** Counting a classification in the kept records counts the checks whose status maps to it. */
  lemma {:induction false} CountOfKeepPresent(rs: seq<Option<CheckResult>>, k: Classification)
    ensures CountOf(KeepPresent(rs), k) == ResponsesMappedTo(rs, k)
  {
    if |rs| > 0 {
      var front := rs[..|rs| - 1];
      CountOfKeepPresent(front, k);
      var kf := KeepPresent(front);
      match rs[|rs| - 1]
      case Some(r) =>
        assert KeepPresent(rs) == kf + [ToClaim(r)];
        assert (kf + [ToClaim(r)])[..|kf|] == kf;
      case None =>
        assert KeepPresent(rs) == kf;
    }
  }

  /**
   * Scoring the flow's output: nothing extracted gives the zero-claim
   * metrics (score 0, Low risk); otherwise the claim total is at most the
   * number of extracted claims, and each classification count is the number
   * of checks that returned a result whose status maps to that class.
   */
  lemma {:induction false} ScoredFlow(input: VerifyClaimsInput, extract: Extractor, respond: Checker)
    ensures var m := CalculateTrustScore(Flow(input, extract, respond));
            && (NothingExtracted(extract(input.answer)) ==> m == EmptyMetrics)
            && (!NothingExtracted(extract(input.answer)) ==>
                  var rs := FlowResponses(input, extract, respond);
                  && m.totalClaims <= |extract(input.answer).value|
                  && m.verifiedCount == ResponsesMappedTo(rs, Verified)
                  && m.partialCount == ResponsesMappedTo(rs, PartiallySupported)
                  && m.unsupportedCount == ResponsesMappedTo(rs, Unsupported))
  {
    if !NothingExtracted(extract(input.answer)) {
      var rs := FlowResponses(input, extract, respond);
      CountOfKeepPresent(rs, Verified);
      CountOfKeepPresent(rs, PartiallySupported);
      CountOfKeepPresent(rs, Unsupported);
    }
  }
}
