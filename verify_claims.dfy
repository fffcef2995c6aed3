/**
 * The claim-verification flow: extract claims from an answer, fact-check each
 * one against the internal documents, and turn every check that produced
 * output into a claim record with a lower-case classification.
 *
 * The two model prompts are not modelled; their outputs are parameters:
 *  - `extract` is what the extraction prompt returns for an answer;
 *  - `respond(i, request)` is what the check prompt returns on its i-th call.
 *    The call index lets the same request be answered differently on
 *    different calls, since the prompt is not referentially transparent.
 */
module VerifyClaims {

  import opened Wrappers

  /** The three classifications a verified claim can carry. */
  datatype Classification = Verified | PartiallySupported | Unsupported

  /** The flow's input: the answer to check and the document corpus. */
  datatype VerifyClaimsInput = VerifyClaimsInput(answer: string, internalDocuments: seq<string>)

  /** One element of the extraction prompt's output. */
  datatype ExtractedClaim = ExtractedClaim(claimId: int, claimText: string)

  /** What one call of the check prompt is given. */
  datatype CheckRequest = CheckRequest(claim: string, documents: seq<string>)

  /** What one call of the check prompt returns; `status` is the raw upper-case value. */
  datatype CheckResult = CheckResult(claim: string, status: string, confidence: real,
                                     reasoning: string, evidence: seq<string>)

  /** One element of the flow's output. */
  datatype Claim = Claim(text: string, classification: Classification, evidence: seq<string>,
                         confidence: real, reasoning: string)

  type Extractor = string -> Option<seq<ExtractedClaim>>
  type Checker = (nat, CheckRequest) -> Option<CheckResult>

  /**
   * Maps the checker's upper-case status to the classification vocabulary;
   * any value other than the two supported ones falls back to Unsupported.
   */
  function MapStatus(status: string): (c: Classification)
    ensures c == Verified <==> status == "VERIFIED"
    ensures c == PartiallySupported <==> status == "PARTIALLY_SUPPORTED"
    ensures c == Unsupported <==> status != "VERIFIED" && status != "PARTIALLY_SUPPORTED"
  {
    if status == "PARTIALLY_SUPPORTED" then PartiallySupported
    else if status == "VERIFIED" then Verified
    else Unsupported
  }

  /** The canonical upper-case status naming a classification. */
  function StatusName(c: Classification): string
  {
    match c
    case Verified => "VERIFIED"
    case PartiallySupported => "PARTIALLY_SUPPORTED"
    case Unsupported => "UNSUPPORTED"
  }

  /** Each canonical status maps back to the classification it names. */
  lemma MapStatusOfStatusName(c: Classification)
    ensures MapStatus(StatusName(c)) == c
  {
  }

  /** The claim record built from one check result. */
  function ToClaim(r: CheckResult): Claim
  {
    Claim(r.claim, MapStatus(r.status), r.evidence, r.confidence, r.reasoning)
  }

  /** The requests issued for the extracted claims, one per claim, in order. */
  function Requests(claims: seq<ExtractedClaim>, documents: seq<string>): (reqs: seq<CheckRequest>)
    ensures |reqs| == |claims|
  {
    seq(|claims|, i requires 0 <= i < |claims| => CheckRequest(claims[i].claimText, documents))
  }

  /** The checker's answer to each request, the i-th request being the i-th call. */
  function Responses(reqs: seq<CheckRequest>, respond: Checker): (rs: seq<Option<CheckResult>>)
    ensures |rs| == |reqs|
  {
    seq(|reqs|, i requires 0 <= i < |reqs| => respond(i, reqs[i]))
  }

  /** The claim records of the present responses, in response order. */
  function KeepPresent(rs: seq<Option<CheckResult>>): (out: seq<Claim>)
    ensures |out| <= |rs|
  {
    if |rs| == 0 then []
    else
      KeepPresent(rs[..|rs| - 1])
      + (match rs[|rs| - 1] case Some(r) => [ToClaim(r)] case None => [])
  }

  /** The positions of the present responses, ascending. */
  function PresentIndices(rs: seq<Option<CheckResult>>): seq<nat>
  {
    if |rs| == 0 then []
    else PresentIndices(rs[..|rs| - 1]) + (if rs[|rs| - 1].Some? then [|rs| - 1] else [])
  }

  /** The present positions are in range, strictly ascending, and each holds a response. */
  lemma {:induction false} PresentIndicesAscending(rs: seq<Option<CheckResult>>)
    ensures |PresentIndices(rs)| <= |rs|
    ensures forall k :: 0 <= k < |PresentIndices(rs)| ==>
              PresentIndices(rs)[k] < |rs| && rs[PresentIndices(rs)[k]].Some?
    ensures forall k, l :: 0 <= k < l < |PresentIndices(rs)| ==> PresentIndices(rs)[k] < PresentIndices(rs)[l]
  {
    if |rs| > 0 {
      var n := |rs| - 1;
      var front := rs[..n];
      PresentIndicesAscending(front);
      var pf := PresentIndices(front);
      assert forall k :: 0 <= k < |pf| ==> rs[pf[k]] == front[pf[k]];
      if rs[n].Some? {
        assert PresentIndices(rs) == pf + [n];
      } else {
        assert PresentIndices(rs) == pf;
      }
    }
  }

  /** No present position is left out. */
  lemma {:induction false} PresentIndicesComplete(rs: seq<Option<CheckResult>>)
    ensures forall i :: 0 <= i < |rs| && rs[i].Some? ==> i in PresentIndices(rs)
  {
    if |rs| > 0 {
      var n := |rs| - 1;
      var front := rs[..n];
      PresentIndicesComplete(front);
      assert forall i :: 0 <= i < n ==> front[i] == rs[i];
      assert PresentIndices(front) <= PresentIndices(rs);
    }
  }

  /** The k-th record comes from the response at the k-th present position. */
  lemma {:induction false} KeepPresentAt(rs: seq<Option<CheckResult>>)
    ensures |KeepPresent(rs)| == |PresentIndices(rs)|
    ensures forall k :: 0 <= k < |PresentIndices(rs)| ==>
              PresentIndices(rs)[k] < |rs| && rs[PresentIndices(rs)[k]].Some? &&
              KeepPresent(rs)[k] == ToClaim(rs[PresentIndices(rs)[k]].value)
  {
    PresentIndicesAscending(rs);
    if |rs| > 0 {
      var n := |rs| - 1;
      var front := rs[..n];
      KeepPresentAt(front);
      var pf, kf := PresentIndices(front), KeepPresent(front);
      var p, kp := PresentIndices(rs), KeepPresent(rs);
      if rs[n].Some? {
        assert p == pf + [n] && kp == kf + [ToClaim(rs[n].value)];
      } else {
        assert p == pf && kp == kf;
      }
      forall k | 0 <= k < |p|
        ensures kp[k] == ToClaim(rs[p[k]].value)
      {
        if k < |pf| {
          assert p[k] == pf[k] && kp[k] == kf[k] && front[pf[k]] == rs[pf[k]];
        }
      }
    }
  }

  /**
   * KeepPresent emits exactly one record per present response, in the order
   * of the responses: the k-th record comes from the k-th present position,
   * the positions are strictly ascending, and no present position is skipped.
   */
  lemma {:induction false} KeepPresentSelects(rs: seq<Option<CheckResult>>)
    ensures |KeepPresent(rs)| == |PresentIndices(rs)| <= |rs|
    ensures forall k :: 0 <= k < |PresentIndices(rs)| ==>
              PresentIndices(rs)[k] < |rs| && rs[PresentIndices(rs)[k]].Some? &&
              KeepPresent(rs)[k] == ToClaim(rs[PresentIndices(rs)[k]].value)
    ensures forall k, l :: 0 <= k < l < |PresentIndices(rs)| ==> PresentIndices(rs)[k] < PresentIndices(rs)[l]
    ensures forall i :: 0 <= i < |rs| && rs[i].Some? ==> i in PresentIndices(rs)
  {
    PresentIndicesAscending(rs);
    PresentIndicesComplete(rs);
    KeepPresentAt(rs);
  }

  /**
   * The output for a concatenation of responses is the concatenation of the
   * outputs: no state other than the output list is carried from one claim
   * to the next.
   */
  lemma {:induction false} KeepPresentAppend(a: seq<Option<CheckResult>>, b: seq<Option<CheckResult>>)
    ensures KeepPresent(a + b) == KeepPresent(a) + KeepPresent(b)
    decreases |b|
  {
    if |b| == 0 {
      assert a + b == a;
    } else {
      var n := |b| - 1;
      assert (a + b)[..|a + b| - 1] == a + b[..n];
      KeepPresentAppend(a, b[..n]);
    }
  }

  /** True when the extraction prompt gave no claims, by returning nothing or an empty list. */
  predicate NothingExtracted(extracted: Option<seq<ExtractedClaim>>)
  {
    extracted.None? || |extracted.value| == 0
  }

  /** The check requests the flow issues for an input. */
  function CallsMade(input: VerifyClaimsInput, extract: Extractor): (reqs: seq<CheckRequest>)
    ensures NothingExtracted(extract(input.answer)) ==> reqs == []
    ensures !NothingExtracted(extract(input.answer)) ==>
              |reqs| == |extract(input.answer).value| &&
              forall j :: 0 <= j < |reqs| ==>
                reqs[j] == CheckRequest(extract(input.answer).value[j].claimText, input.internalDocuments)
  {
    var extracted := extract(input.answer);
    if NothingExtracted(extracted) then []
    else Requests(extracted.value, input.internalDocuments)
  }

  /** The checker's answer to each extracted claim, in extraction order. */
  function FlowResponses(input: VerifyClaimsInput, extract: Extractor, respond: Checker): (rs: seq<Option<CheckResult>>)
    requires !NothingExtracted(extract(input.answer))
    ensures |rs| == |extract(input.answer).value|
    ensures forall i :: 0 <= i < |rs| ==>
              rs[i] == respond(i, CheckRequest(extract(input.answer).value[i].claimText, input.internalDocuments))
  {
    Responses(Requests(extract(input.answer).value, input.internalDocuments), respond)
  }

  /** What the flow returns for an input, as a function of the two prompts' outputs. */
  function Flow(input: VerifyClaimsInput, extract: Extractor, respond: Checker): (out: seq<Claim>)
    ensures NothingExtracted(extract(input.answer)) ==> out == []
    ensures !NothingExtracted(extract(input.answer)) ==> |out| <= |extract(input.answer).value|
  {
    if NothingExtracted(extract(input.answer)) then []
    else
      var rs := FlowResponses(input, extract, respond);
      KeepPresentSelects(rs);
      KeepPresent(rs)
  }

  /**
   * The flow's output, entry by entry: with idx the ascending list of the
   * calls that returned a result (no such call left out), the k-th entry is
   * built from the idx[k]-th extracted claim's check result; its text is the
   * checker's echoed claim, its classification the mapped status, and
   * evidence, confidence and reasoning are copied unchanged.
   */
  lemma {:induction false} FlowEntries(input: VerifyClaimsInput, extract: Extractor, respond: Checker)
    requires !NothingExtracted(extract(input.answer))
    ensures var claims := extract(input.answer).value;
            var docs := input.internalDocuments;
            var out := Flow(input, extract, respond);
            var idx := PresentIndices(FlowResponses(input, extract, respond));
            && |idx| == |out|
            && (forall k, l :: 0 <= k < l < |idx| ==> idx[k] < idx[l])
            && (forall i :: 0 <= i < |claims| && respond(i, CheckRequest(claims[i].claimText, docs)).Some? ==> i in idx)
            && (forall k :: 0 <= k < |idx| ==>
                  idx[k] < |claims| &&
                  var r := respond(idx[k], CheckRequest(claims[idx[k]].claimText, docs));
                  && r.Some?
                  && out[k].text == r.value.claim
                  && out[k].classification == MapStatus(r.value.status)
                  && out[k].evidence == r.value.evidence
                  && out[k].confidence == r.value.confidence
                  && out[k].reasoning == r.value.reasoning)
  {
    var rs := FlowResponses(input, extract, respond);
    KeepPresentSelects(rs);
  }

  /**
   * The flow itself: one extraction, then one check per extracted claim in
   * extraction order, keeping a record for each check that returned output.
   * The ghost `calls` logs the requests issued to the checker; the source
   * returns no such value.
   */
  method VerifyClaimsFlow(input: VerifyClaimsInput, extract: Extractor, respond: Checker)
    returns (verifiedClaims: seq<Claim>, ghost calls: seq<CheckRequest>)
    ensures verifiedClaims == Flow(input, extract, respond)
    ensures calls == CallsMade(input, extract)
  {
    var extractedClaims := extract(input.answer);
    if extractedClaims.None? || |extractedClaims.value| == 0 {
      return [], [];
    }
    var claims := extractedClaims.value;
    ghost var rs := FlowResponses(input, extract, respond);
    verifiedClaims, calls := [], [];
    for i := 0 to |claims|
      invariant calls == Requests(claims, input.internalDocuments)[..i]
      invariant verifiedClaims == KeepPresent(rs[..i])
    {
      var request := CheckRequest(claims[i].claimText, input.internalDocuments);
      var checkResult := respond(i, request);
      calls := calls + [request];
      assert rs[..i + 1][..i] == rs[..i];
      if checkResult.Some? {
        var r := checkResult.value;
        var classification := Unsupported;
        if r.status == "VERIFIED" { classification := Verified; }
        if r.status == "PARTIALLY_SUPPORTED" { classification := PartiallySupported; }
        verifiedClaims := verifiedClaims + [Claim(r.claim, classification, r.evidence, r.confidence, r.reasoning)];
      }
    }
    assert rs[..|claims|] == rs;
    assert calls == Requests(claims, input.internalDocuments);
  }
}
