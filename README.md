# Claim verification and trust scoring, modelled in Dafny

This project models the two parts of the answer-checking pipeline that compute
something:

- **The claim-verification flow** (`verifyClaimsFlow`). It extracts atomic claims
  from an answer. It then fact-checks each claim, in order, against the whole
  internal document corpus. For every check that returned output it emits a
  claim record: the checker's echoed claim text, a lower-case classification
  mapped from the checker's upper-case status, and the checker's evidence,
  confidence and reasoning, copied unchanged. A missing or empty extraction
  returns `[]` without running any check.
- **The trust score** (`calculateTrustScore`). It counts the claims per
  classification and averages their confidence. It scores
  `round(base * (0.8 + 0.2 * avg) * 100)`, where the base weighs verified 1.0,
  partially supported 0.5 and unsupported 0. It then picks the risk tier:
  High when more than one claim is unsupported or the score is under 50,
  otherwise Medium when any claim is unsupported or the score is under 80,
  otherwise Low. An empty list gives all-zero metrics and Low.

Files and modules:

- `wrappers.dfy` (`Wrappers`): `Option`, for prompt outputs that may be absent.
- `verify_claims.dfy` (`VerifyClaims`): the records, the status mapping, the
  specification function `Flow` and the imperative `VerifyClaimsFlow`, a `for`
  loop over the extracted claims that appends to an output sequence. The loop
  invariants tie it to `Flow`.
- `trust_score.dfy` (`TrustScore`): `CalculateTrustScore` and its helpers as
  functions over `seq`, with lemmas for the partition, the bounds, the risk
  tiers, monotonicity, order independence and the worked examples.
- `pipeline.dfy` (`Pipeline`): the flow's output fed into the score, as the page
  does.

Modelling choices:

- The two prompts are parameters, not code. `extract: string -> Option<seq<ExtractedClaim>>`
  is the extraction prompt's output for an answer. `respond(i, request)` is the
  check prompt's output on its i-th call. The call index lets the same request
  get different answers on different calls, because a model call is not
  referentially transparent.
- `VerifyClaimsFlow` also returns a ghost `calls`, the log of requests sent to
  the checker; the source returns no such value. It exists so the contract can
  say that no check runs on an empty extraction and that every check gets the
  complete document list.
- The checker's `status` is a string, and the mapping is the source's two
  sequential `if`s over a default of `unsupported`. So a value outside the
  schema's three literals also maps to `unsupported`, as in the code.
- The classification of a claim record is a three-constructor datatype. That
  matches the record schema's union of three literals.
- Numbers are exact `real`s. `Math.round(x)` is `Floor(x + 0.5)`, which is
  JavaScript's round-half-up.

Behaviour of the code worth noting, which the model follows:

- Only a check that returns no output is dropped. A check that throws is not
  caught inside the loop, so it aborts the whole flow. The model has no
  exceptions; it covers the dropped-output path only.
- The code does not check that evidence snippets occur in the documents. The
  model copies evidence unchanged and states nothing about where it comes from.
- The code does not check that a confidence lies in [0, 1]. The bound lemmas
  take this as a hypothesis.

## Model

| member | source | states |
|---|---|---|
| `VerifyClaims.MapStatus` | src/ai/flows/verify-claims.ts:157-159 | the classification is Verified exactly for status `VERIFIED`, PartiallySupported exactly for `PARTIALLY_SUPPORTED`, and Unsupported for every other status |
| `VerifyClaims.MapStatusOfStatusName` | src/ai/flows/verify-claims.ts:82-86 | each of the checker's three status literals maps back to the classification it names |
| `VerifyClaims.ToClaim` | src/ai/flows/verify-claims.ts:161-167 | the pushed record: echoed claim as text, mapped status as classification, evidence, confidence and reasoning copied; its field-by-field property is stated in `FlowEntries` |
| `VerifyClaims.Requests` | src/ai/flows/verify-claims.ts:150-153 | one check request per extracted claim (`claim_text` with the whole document list); its per-element content is stated in `CallsMade` |
| `VerifyClaims.Responses` | src/ai/flows/verify-claims.ts:150-153 | one checker answer per request, call i answering request i; stated element by element in `FlowResponses` |
| `VerifyClaims.KeepPresent` | src/ai/flows/verify-claims.ts:148-169 | the keep-if-present loop as a function: never more records than check results; its order and content are stated in `KeepPresentSelects` |
| `VerifyClaims.PresentIndicesAscending` | src/ai/flows/verify-claims.ts:149-169 | the positions of the checks that returned output are in range, strictly ascending, and each holds a result |
| `VerifyClaims.PresentIndicesComplete` | src/ai/flows/verify-claims.ts:155 | no check that returned output is left out of those positions |
| `VerifyClaims.KeepPresentAt` | src/ai/flows/verify-claims.ts:155-167 | exactly one record per returned result; the k-th record is built from the result at the k-th present position |
| `VerifyClaims.KeepPresentSelects` | src/ai/flows/verify-claims.ts:148-169 | the output is the in-order subsequence of records of the returned results, at most one per check, no returned result skipped |
| `VerifyClaims.KeepPresentAppend` | src/ai/flows/verify-claims.ts:149-168 | the output for two runs of results back to back is the concatenation of their outputs, so no state but the output list passes between claims |
| `VerifyClaims.CallsMade` | src/ai/flows/verify-claims.ts:141-153 | no check request after a missing or empty extraction; otherwise one request per extracted claim, in order, carrying that claim's text and the complete document list |
| `VerifyClaims.FlowResponses` | src/ai/flows/verify-claims.ts:149-153 | the i-th check result is the checker's answer on call i to the i-th extracted claim's text with all documents |
| `VerifyClaims.Flow` | src/ai/flows/verify-claims.ts:137-172 | a missing or empty extraction gives `[]`; otherwise the output is no longer than the extraction |
| `VerifyClaims.FlowEntries` | src/ai/flows/verify-claims.ts:149-168 | the k-th output entry comes from the k-th extracted claim (in extraction order) whose check returned output; its text is the checker's echoed claim, its classification the mapped status, and evidence, confidence and reasoning are copied unchanged |
| `VerifyClaims.VerifyClaimsFlow` | src/ai/flows/verify-claims.ts:137-172 | the loop's output equals `Flow`, and its ghost log of issued checks equals `CallsMade` |
| `TrustScore.Round` | src/lib/trust-score.ts:61 | `Math.round` on exact reals: the result is the integer within half of x, ties going up |
| `TrustScore.SumConfidence` | src/lib/trust-score.ts:52 | the `reduce` sum of confidences, left to right; its bounds are stated in `SumConfidenceBounds` and `SumConfidenceNonNegative`, its behaviour on concatenation in `TotalsAppend` |
| `TrustScore.AverageConfidence` | src/lib/trust-score.ts:52 | the mean confidence; its range is stated in `AverageConfidenceBounds` and `AverageConfidenceNonNegative` |
| `TrustScore.WeightedScore` | src/lib/trust-score.ts:61 | the rounded percentage of base times modifier; its monotonicity is stated in `ScoreMonotone` |
| `TrustScore.EmptyInputMetrics` | src/lib/trust-score.ts:35-45 | an empty list gives score 0, all three counts 0, total 0, average 0 and Low risk |
| `TrustScore.ScoreFormula` | src/lib/trust-score.ts:55-61 | for a non-empty list the score is the weighted score of the base credibility and the modifier of the average confidence |
| `TrustScore.AverageConfidenceNonNegative` | src/lib/trust-score.ts:52 | with non-negative confidences the average confidence is non-negative |
| `TrustScore.PairsSplitAt` | src/lib/trust-score.ts:47-52 | the pair multiset of a list is that of the list without one claim plus that claim's pair |
| `TrustScore.CountOf` | src/lib/trust-score.ts:47-49 | a class count never exceeds the number of claims |
| `TrustScore.BaseCredibility` | src/lib/trust-score.ts:55 | the weighted base credibility lies in [0, 1] |
| `TrustScore.ConfidenceModifier` | src/lib/trust-score.ts:58 | for an average confidence in [0, 1] the modifier lies in [0.8, 1.0]; for a non-negative average it is at least 0.8 |
| `TrustScore.RiskOf` | src/lib/trust-score.ts:64-66 | High iff more than one claim is unsupported or the score is under 50; Medium iff not High and some claim is unsupported or the score is under 80; Low iff no claim is unsupported and the score is at least 80 |
| `TrustScore.CalculateTrustScore` | src/lib/trust-score.ts:34-77 | an empty list gives the all-zero Low metrics; the total is the list length; the three counts add up to the total; for a non-empty list the tier is `RiskOf` of the score and the unsupported count |
| `TrustScore.CountsPartition` | src/lib/trust-score.ts:47-49 | verified, partial and unsupported counts add up to the number of claims |
| `TrustScore.CountOfAbsent` | src/lib/trust-score.ts:47-49 | a classification that no claim carries has count 0 |
| `TrustScore.TotalsAppend` | src/lib/trust-score.ts:47-52 | counts and the confidence sum of a concatenation are the sums of the parts |
| `TrustScore.TotalsWithout` | src/lib/trust-score.ts:47-52 | removing one claim removes exactly its class from the counts and its confidence from the sum |
| `TrustScore.SumConfidenceBounds` | src/lib/trust-score.ts:52 | with confidences in [0, 1] the confidence sum lies in [0, n] |
| `TrustScore.SumConfidenceNonNegative` | src/lib/trust-score.ts:52 | with non-negative confidences the confidence sum is non-negative |
| `TrustScore.RoundBounds` | src/lib/trust-score.ts:61 | rounding a value in [0, 100] gives an integer in [0, 100] |
| `TrustScore.RoundMonotone` | src/lib/trust-score.ts:61 | rounding is monotone |
| `TrustScore.ScoreMonotone` | src/lib/trust-score.ts:61 | under the same non-negative modifier a higher base never gives a lower `WeightedScore` |
| `TrustScore.AverageConfidenceBounds` | src/lib/trust-score.ts:52-58 | with confidences in [0, 1] the average lies in [0, 1] and the modifier in [0.8, 1.0] |
| `TrustScore.ScoreBounds` | src/lib/trust-score.ts:52-74 | with confidences in [0, 1] the score and the percentage average confidence are integers in [0, 100] |
| `TrustScore.LowRiskMeansClean` | src/lib/trust-score.ts:34-66 | a Low tier means no unsupported claim and a score of at least 80, or no claims at all |
| `TrustScore.AllUnsupported` | src/lib/trust-score.ts:55-66 | a non-empty all-unsupported list scores 0 and is High risk, whatever the confidences |
| `TrustScore.ReclassifiedTotals` | src/lib/trust-score.ts:47-52 | reclassifying one claim as verified moves it from its old count to the verified count and keeps the confidence sum |
| `TrustScore.ReclassifiedBaseRises` | src/lib/trust-score.ts:52-55 | that reclassification keeps the average confidence and does not lower the base credibility |
| `TrustScore.ReclassifyAsVerifiedMonotone` | src/lib/trust-score.ts:55-61 | with non-negative confidences, reclassifying one claim as verified never lowers the score |
| `TrustScore.PairsDetermineTotals` | src/lib/trust-score.ts:47-52 | lists with the same multiset of (classification, confidence) pairs have the same length, counts and confidence sum |
| `TrustScore.SamePairsSameMetrics` | src/lib/trust-score.ts:47-76 | the metrics depend only on the multiset of (classification, confidence) pairs, so reordering the claims changes nothing |
| `TrustScore.ThreeVerifiedExample` | src/lib/trust-score.ts:55-66 | three verified claims at confidence 0.9 score 98 with average 90 and Low risk |
| `TrustScore.VerifiedAndUnsupportedExample` | src/lib/trust-score.ts:55-66 | one verified and one unsupported claim at confidence 1.0 score 50 with one unsupported and Medium risk |
| `TrustScore.TwoUnsupportedIsHigh` | src/lib/trust-score.ts:66 | more than one unsupported claim makes the tier High whatever the score |
| `Pipeline.CountOfKeepPresent` | src/ai/flows/verify-claims.ts:155-163 | a classification's count in the flow's records is the number of returned check results whose status maps to it |
| `Pipeline.ScoredFlow` | src/app/page.tsx:112-117 | scoring the flow's output gives the zero metrics when nothing was extracted; otherwise the total is at most the number of extracted claims and each count is the number of returned results mapped to that class |

## Left out

- The orchestration in src/app/page.tsx (the `generating`/`verifying`/`complete`/`error` status writes, the Firestore document, the random id) is I/O and UI. Only the composition of the flow with the score is modelled, in `Pipeline.ScoredFlow`.
- src/ai/flows/generate-initial-answer.ts is a thin wrapper over a model prompt. It is not part of this model.
- The contents of the extraction and check prompts (templates, schemas, model behaviour) are not modelled. Their outputs are the parameters `extract` and `respond`.
- Exceptions from a prompt call are not modelled. In the code they propagate out of the flow, and the model covers only the no-output path.
- Whether evidence snippets appear in the documents is not stated, because the code never checks it.
- A confidence range for the checker's output is not stated, because the schema accepts any number. The bound lemmas assume [0, 1] instead.
- IEEE-754 floating point is not modelled; the arithmetic is exact. Results near a rounding boundary may differ from JavaScript's by one: exactly, 1.005 * 100 is 100.5 and rounds to 101, while JavaScript computes 100.49999999999999 and rounds to 100.
- The checks run one after another, with no concurrency, so none is modelled.
- The UI components, the score-counter animation, the Firebase configuration and subscription hook, and the mock documents have no logic to verify.
- ReclassifyAsVerifiedMonotone: assumes non-negative confidences. The source does not promise them, and with a strongly negative average the modifier could turn negative and reverse the order.
