/**
  What `completeUpload` and `abortUpload` send to the store and what they return,
  for one session, once `Promise.all` over its upload handle and parts has settled.
  The store's answers are parameters: `None` is a failed request.
 */
module Finalizer {
  import opened Wrappers
  import opened PartLists
  import opened Sessions

  /** The body of `completeMultipartUpload` and `abortMultipartUpload`. */
  datatype MultipartRequest = MultipartRequest(key: string, uploadId: Handle, parts: seq<PartResult>)

  datatype CompleteResponse = CompleteResponse(location: string, bucket: string, key: string, eTag: string)
  datatype HeadResponse = HeadResponse(contentLength: nat)
  datatype AbortResponse = AbortResponse(body: string)

  /** The record `completeUpload` resolves to. */
  datatype Completion = Completion(location: string, bucket: string, key: string,
                                   metadata: Option<Metadata>, size: nat)

  /** The request a finalization sent (if it got that far) and how it ended. */
  datatype Finalized<T> = Finalized(sent: Option<MultipartRequest>, result: Result<T, UploadError>)

  /** The error a finalization ends with when Promise.all has not resolved. */
  function SettlementError<T>(g: Settlement<T>): UploadError {
    if g.Pending? then PartsPending else PartsRejected
  }

  /** `completeUpload`: once the handle and every part resolved, send the parts sorted by part
      number, then fetch the object's head; succeed only when both requests succeed. */
  function CompleteOutcome(s: Session, complete: Option<CompleteResponse>, head: Option<HeadResponse>): (f: Finalized<Completion>)
    ensures f.sent.Some? <==> SettleSession(s).Resolved?
    ensures f.sent.Some? ==> f.sent.value.key == s.key && f.sent.value.uploadId == s.upload.handle
    ensures f.result.Success? <==> f.sent.Some? && complete.Some? && head.Some?
    ensures f.result.Success? ==>
      f.result.value == Completion(complete.value.location, complete.value.bucket, complete.value.key,
                                   s.metadata, head.value.contentLength)
    ensures f.result.Failure? ==>
      f.result.error == if f.sent.None? then SettlementError(SettleSession(s)) else RemoteFailed
  {
    var g := SettleSession(s);
    if !g.Resolved? then Finalized(None, Failure(SettlementError(g)))
    else
      var parts := g.value.1;
      var request := MultipartRequest(s.key, g.value.0, SortByPartNumber(parts));
      if complete.None? || head.None? then Finalized(Some(request), Failure(RemoteFailed))
      else
        var c := complete.value;
        Finalized(Some(request), Success(Completion(c.location, c.bucket, c.key, s.metadata, head.value.contentLength)))
  }

  /** The completion list `completeUpload` sends is `_.sortBy(parts, ['PartNumber'])`: sorted by
      part number, a permutation of the settled parts, and stable, so parts that share a number
      keep the order of their promises. */
  lemma CompleteSendsSortedParts(s: Session, complete: Option<CompleteResponse>, head: Option<HeadResponse>)
    ensures var f := CompleteOutcome(s, complete, head);
            f.sent.Some? ==>
              var settled := SettleParts(s.parts).value;
              && SortedByNumber(f.sent.value.parts)
              && multiset(f.sent.value.parts) == multiset(settled)
              && forall n :: WithNumber(f.sent.value.parts, n) == WithNumber(settled, n)
  {
    if SettleSession(s).Resolved? {
      SortIsStable(SettleParts(s.parts).value);
    }
  }

  /** `abortUpload`: the same wait, then the parts in submission order, unsorted. */
  function AbortOutcome(s: Session, abort: Option<AbortResponse>): (f: Finalized<AbortResponse>)
    ensures f.sent.Some? <==> SettleSession(s).Resolved?
    ensures f.sent.Some? ==>
      && f.sent.value.key == s.key
      && f.sent.value.uploadId == s.upload.handle
      && |f.sent.value.parts| == |s.parts|
      && forall i :: 0 <= i < |s.parts| ==> f.sent.value.parts[i] == s.parts[i].part
    ensures f.result.Success? <==> f.sent.Some? && abort.Some?
    ensures f.result.Success? ==> f.result.value == abort.value
    ensures f.result.Failure? ==>
      f.result.error == if f.sent.None? then SettlementError(SettleSession(s)) else RemoteFailed
  {
    var g := SettleSession(s);
    if !g.Resolved? then Finalized(None, Failure(SettlementError(g)))
    else
      var request := MultipartRequest(s.key, g.value.0, g.value.1);
      if abort.None? then Finalized(Some(request), Failure(RemoteFailed))
      else Finalized(Some(request), Success(abort.value))
  }
}
