/** The recovery decision for a claimed completion, from what the provider reports. */
module Completion {
  import opened Wrappers
  import opened Text

  /** What a HEAD request reports about an object. */
  datatype Blob = Blob(size: nat, etag: string)
  datatype CompletionAction = FinalizeIt | ReopenIt | CleanIt

  predicate MatchesExpectation(size: nat, etag: string, blob: Blob) {
    blob.size == size && EqIgnoreCase(blob.etag, etag)
  }

  function Decision<E>(size: nat, etag: string, multipart: bool, observed: Result<Option<Blob>, E>)
    : (r: Result<CompletionAction, E>)
    ensures observed.Failure? <==> r.Failure?
    ensures r.Success? && r.value.FinalizeIt? <==>
            observed.Success? && observed.value.Some? && MatchesExpectation(size, etag, observed.value.value)
    ensures r.Success? && r.value.ReopenIt? <==> observed == Success(None) && multipart
  {
    match observed
    case Failure(e) => Failure(e)
    case Success(Some(blob)) => Success(if MatchesExpectation(size, etag, blob) then FinalizeIt else CleanIt)
    case Success(None) => Success(if multipart then ReopenIt else CleanIt)
  }
}
