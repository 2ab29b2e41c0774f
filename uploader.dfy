/**
  The `Uploader` class: its session registry, readiness set and in-flight counter as
  fields, its event handlers as direct method calls, and the settling of the store's
  requests as explicit steps whose outcomes are parameters.
 */
module Uploads {
  import opened Wrappers
  import opened PartLists
  import opened Sessions
  import opened Finalizer
  import opened Scheduler

  /** The part promise at `index` of session `id`. */
  datatype PartRef = PartRef(id: Id, index: nat)

  predicate InFlightAt(sessions: map<Id, Session>, r: PartRef) {
    r.id in sessions && r.index < |sessions[r.id].parts| && sessions[r.id].parts[r.index].InFlight?
  }

  /** `refs` names exactly the part promises of `sessions` that are still in flight. */
  ghost predicate TracksInFlight(sessions: map<Id, Session>, refs: set<PartRef>) {
    forall r :: r in refs <==> InFlightAt(sessions, r)
  }

  ghost predicate AllNumbered(sessions: map<Id, Session>) {
    forall id :: id in sessions ==> Numbered(sessions[id])
  }

  lemma ReplaceNumbered(sessions: map<Id, Session>, id: Id, s: Session)
    requires AllNumbered(sessions) && Numbered(s)
    ensures AllNumbered(sessions[id := s])
  {
  }

  /** Replacing a session by one with the same part entries keeps the tracking. */
  lemma ReplaceKeepsParts(sessions: map<Id, Session>, refs: set<PartRef>, id: Id, s: Session)
    requires TracksInFlight(sessions, refs)
    requires id in sessions && s.parts == sessions[id].parts
    ensures TracksInFlight(sessions[id := s], refs)
  {
    forall r ensures r in refs <==> InFlightAt(sessions[id := s], r) {
      assert InFlightAt(sessions[id := s], r) <==> InFlightAt(sessions, r);
    }
  }

  /** Appending a pending part to session `id` adds exactly one in-flight promise. */
  lemma AppendInFlight(sessions: map<Id, Session>, refs: set<PartRef>, id: Id, s: Session, e: PartEntry)
    requires TracksInFlight(sessions, refs)
    requires id in sessions && s.parts == sessions[id].parts + [e] && e.InFlight?
    ensures PartRef(id, |sessions[id].parts|) !in refs
    ensures TracksInFlight(sessions[id := s], refs + {PartRef(id, |sessions[id].parts|)})
  {
    var old_ := sessions[id].parts;
    assert !InFlightAt(sessions, PartRef(id, |old_|));
    forall r ensures r in refs + {PartRef(id, |old_|)} <==> InFlightAt(sessions[id := s], r) {
      if r.id == id && r.index < |old_| {
        assert s.parts[r.index] == old_[r.index];
      }
    }
  }

  /** A read appends one in-flight promise and keeps every session numbered. */
  lemma ReadKeepsAccounting(sessions: map<Id, Session>, refs: set<PartRef>, id: Id)
    requires TracksInFlight(sessions, refs) && AllNumbered(sessions)
    requires id in sessions && sessions[id].readable.Some? && sessions[id].readable.value != []
    ensures PartRef(id, |sessions[id].parts|) !in refs
    ensures TracksInFlight(sessions[id := ReadChunk(sessions[id])], refs + {PartRef(id, |sessions[id].parts|)})
    ensures AllNumbered(sessions[id := ReadChunk(sessions[id])])
  {
    var s := sessions[id];
    AppendInFlight(sessions, refs, id, ReadChunk(s), InFlight(s.partOffset + |s.parts| + 1, s.readable.value[0]));
    ReadChunkDrains(s, 0, 0);
    ReplaceNumbered(sessions, id, ReadChunk(s));
  }

  /** Settling the in-flight entry at `index` removes exactly that promise. */
  lemma SettleEntry(sessions: map<Id, Session>, refs: set<PartRef>, id: Id, index: nat, s: Session)
    requires TracksInFlight(sessions, refs)
    requires id in sessions && index < |sessions[id].parts| && sessions[id].parts[index].InFlight?
    requires |s.parts| == |sessions[id].parts| && !s.parts[index].InFlight?
    requires forall i :: 0 <= i < |s.parts| && i != index ==> s.parts[i] == sessions[id].parts[i]
    ensures PartRef(id, index) in refs
    ensures TracksInFlight(sessions[id := s], refs - {PartRef(id, index)})
  {
    assert InFlightAt(sessions, PartRef(id, index));
    forall r ensures r in refs - {PartRef(id, index)} <==> InFlightAt(sessions[id := s], r) {
      if r.id == id && r.index < |s.parts| && r.index != index {
        assert s.parts[r.index] == sessions[id].parts[r.index];
      }
    }
  }

  /** Replacing one settled entry of session `id` by another settled entry keeps the tracking. */
  lemma ReplaceSettled(sessions: map<Id, Session>, refs: set<PartRef>, id: Id, index: nat, s: Session)
    requires TracksInFlight(sessions, refs)
    requires id in sessions && index < |sessions[id].parts| && !sessions[id].parts[index].InFlight?
    requires |s.parts| == |sessions[id].parts| && !s.parts[index].InFlight?
    requires forall i :: 0 <= i < |s.parts| && i != index ==> s.parts[i] == sessions[id].parts[i]
    ensures TracksInFlight(sessions[id := s], refs)
  {
    forall r ensures r in refs <==> InFlightAt(sessions[id := s], r) {
      if r.id == id && r.index < |s.parts| && r.index != index {
        assert s.parts[r.index] == sessions[id].parts[r.index];
      }
    }
  }

  /** Removing a session none of whose promises is in flight keeps the tracking. */
  lemma RemoveSettled(sessions: map<Id, Session>, refs: set<PartRef>, id: Id)
    requires TracksInFlight(sessions, refs)
    requires id in sessions && forall i :: 0 <= i < |sessions[id].parts| ==> !sessions[id].parts[i].InFlight?
    ensures TracksInFlight(sessions - {id}, refs)
  {
    forall r ensures r in refs <==> InFlightAt(sessions - {id}, r) {
      if r.id == id && r.index < |sessions[id].parts| {
        assert !sessions[id].parts[r.index].InFlight?;
      }
    }
  }

  /** Adding a session that has nothing in flight keeps the tracking. */
  lemma AddIdle(sessions: map<Id, Session>, refs: set<PartRef>, id: Id, s: Session)
    requires TracksInFlight(sessions, refs)
    requires id !in sessions && forall i :: 0 <= i < |s.parts| ==> !s.parts[i].InFlight?
    ensures TracksInFlight(sessions[id := s], refs)
  {
    forall r ensures r in refs <==> InFlightAt(sessions[id := s], r) {
      if r.id == id && r.index < |s.parts| {
        assert !s.parts[r.index].InFlight?;
      }
    }
  }

  function Succeeded<T>(results: map<Id, Finalized<T>>): set<Id> {
    set id | id in results && results[id].result.Success?
  }

  /** Where a fan-out over the sessions `s0` stands: `results` holds the expected outcome of every
      session handled so far (those not in `todo`), and of those exactly the successful ones are
      gone from `sessions`; the rest are as they were. */
  ghost predicate FannedOut<T>(s0: map<Id, Session>, expected: map<Id, Finalized<T>>, todo: set<Id>,
                               sessions: map<Id, Session>, results: map<Id, Finalized<T>>)
  {
    && todo <= s0.Keys
    && (forall id :: id in results <==> id in s0 && id !in todo)
    && (forall id :: id in results ==> id in expected && results[id] == expected[id])
    && (forall id :: id in sessions <==> id in s0 && !(id in results && results[id].result.Success?))
    && (forall id :: id in sessions ==> sessions[id] == s0[id])
  }

  /** Handling one more session, which is deleted exactly when its outcome succeeded. */
  lemma FanOutStep<T>(s0: map<Id, Session>, expected: map<Id, Finalized<T>>, todo: set<Id>,
                      sessions: map<Id, Session>, results: map<Id, Finalized<T>>,
                      id: Id, f: Finalized<T>, sessions': map<Id, Session>)
    requires FannedOut(s0, expected, todo, sessions, results)
    requires id in todo && id in expected && f == expected[id]
    requires sessions' == if f.result.Success? then sessions - {id} else sessions
    ensures FannedOut(s0, expected, todo - {id}, sessions', results[id := f])
  {
  }

  /** The store's answers to one completion: `completeMultipartUpload`, then `headObject`. */
  type CompleteReplies = (Option<CompleteResponse>, Option<HeadResponse>)

  class Uploader {
    const concurrency: int
    var sessions: map<Id, Session>   // uploadInternalStorage
    var ready: set<Id>               // the keys of readableUploads
    var active: int                  // activeRequestsCount

    // every part promise still in flight, and the number of parts whose upload failed (whose
    // increment of the counter is never taken back)
    ghost var inFlight: set<PartRef>
    ghost var leaked: nat

    function State(): Registry
      reads this
    {
      Registry(sessions, ready, active)
    }

    /** The counter is the parts in flight plus the failed ones, it never passes
        `concurrency + 1`, and every part read from a stream is numbered from the offset. */
    ghost predicate Valid()
      reads this
    {
      && active == |inFlight| + leaked
      && active <= Max(0, concurrency + 1)
      && TracksInFlight(sessions, inFlight)
      && AllNumbered(sessions)
    }

    constructor (concurrency: int)
      ensures Valid()
      ensures this.concurrency == concurrency
      ensures State() == Registry(map[], {}, 0)
    {
      this.concurrency := concurrency;
      sessions := map[];
      ready := {};
      active := 0;
      inFlight := {};
      leaked := 0;
    }

    /** `startUpload`: `id` is the fresh uuid. On success the session is registered and, unless
        the upload is a resumed one, `createMultipartUpload` is requested for its key
        (`createFor`); on a validation error nothing changes and nothing is requested. */
    method StartUpload(id: Id, params: S3Params, readable: Option<seq<Chunk>>, metadata: Option<Metadata>,
                       partial: Option<PartialParams>) returns (r: Result<Id, UploadError>, createFor: Option<string>)
      requires Valid()
      requires id !in sessions
      modifies this
      ensures Valid()
      ensures var ns := NewSession(params, readable, metadata, partial);
              && r == (if ns.Success? then Success(id) else Failure(ns.error))
              && sessions == (if ns.Success? then old(sessions)[id := ns.value] else old(sessions))
              && createFor == (if ns.Success? && partial.None? then Some(params.key.value) else None)
      ensures ready == old(ready) && active == old(active)
    {
      var ns := NewSession(params, readable, metadata, partial);
      if ns.Failure? {
        return Failure(ns.error), None;
      }
      AddIdle(sessions, inFlight, id, ns.value);
      ReplaceNumbered(sessions, id, ns.value);
      sessions := sessions[id := ns.value];
      r := Success(id);
      createFor := if partial.None? then Some(params.key.value) else None;
    }

    /** The settling of `createUploadPromise` for a fresh upload. */
    method CreateSettled(id: Id, response: Option<Handle>)
      requires Valid()
      requires id in sessions && sessions[id].upload.Creating?
      modifies this
      ensures Valid()
      ensures sessions == old(sessions)[id := old(sessions[id]).(upload := if response.Some? then Created(response.value) else CreateFailed)]
      ensures ready == old(ready) && active == old(active)
    {
      var s := sessions[id];
      var s' := s.(upload := if response.Some? then Created(response.value) else CreateFailed);
      ReplaceKeepsParts(sessions, inFlight, id, s');
      ReplaceNumbered(sessions, id, s');
      sessions := sessions[id := s'];
    }

    /** `tryUploadPart`: proved to do exactly what `DrainStep` describes. */
    method TryUploadPart(id: Id) returns (crashed: bool)
      requires Valid()
      modifies this
      ensures Valid()
      ensures DrainStep(old(State()), concurrency, id) == Pass(State(), crashed)
    {
      if id !in sessions || sessions[id].readable.None? {
        // `upload` or `upload.readable` is undefined: the first read throws, unless the
        // cap check before it already fails
        crashed := active <= concurrency;
        return;
      }
      crashed := false;
      ghost var s0 := sessions[id];
      var exhausted := false;  // the last read returned null
      while active <= concurrency
        invariant Valid()
        invariant id in sessions && sessions[id].readable.Some?
        invariant sessions == old(sessions)[id := sessions[id]]
        invariant sessions[id] == s0.(parts := sessions[id].parts, readable := sessions[id].readable)
        invariant ready == old(ready)
        invariant Drain(s0.partOffset, sessions[id].parts, sessions[id].readable.value, active, concurrency)
                  == Drain(s0.partOffset, s0.parts, s0.readable.value, old(active), concurrency)
        decreases |sessions[id].readable.value|
      {
        ghost var before := sessions;
        ghost var a := active;
        var read := ReadPart(id);
        if !read {
          exhausted := true;
          break;
        }
        ReadChunkDrains(before[id], a, concurrency);
        assert sessions == old(sessions)[id := sessions[id]] by {
          assert before == old(sessions)[id := before[id]];
        }
      }
      ghost var d := Drain(s0.partOffset, s0.parts, s0.readable.value, old(active), concurrency);
      assert d == Drained(sessions[id].parts, sessions[id].readable.value, active, exhausted);
      assert sessions == old(sessions)[id := s0.(parts := d.parts, readable := Some(d.queue))];
      if exhausted {
        ready := ready - {id};
      }
    }

    /** One turn of the drain loop once the cap check passed: `readable.read`; on a chunk, the
        next part number, a pending promise appended to `partPromises` and the counter up by one. */
    method ReadPart(id: Id) returns (read: bool)
      requires Valid()
      requires id in sessions && sessions[id].readable.Some? && active <= concurrency
      modifies this
      ensures Valid()
      ensures ready == old(ready)
      ensures var s := old(sessions[id]);
              var queue := s.readable.value;
              && (read <==> queue != [])
              && (read ==> sessions == old(sessions)[id := ReadChunk(s)] && active == old(active) + 1)
              && (!read ==> sessions == old(sessions) && active == old(active))
    {
      var upload := sessions[id];
      if upload.readable.value == [] {
        return false;
      }
      read := true;
      ghost var ref := PartRef(id, |upload.parts|);
      ReadKeepsAccounting(sessions, inFlight, id);
      active := active + 1;
      inFlight := inFlight + {ref};
      sessions := sessions[id := ReadChunk(upload)];
    }

    /** The `_tryUploadPart` handler: drain some ready session, if there is one. */
    method ScheduleNext() returns (picked: Option<Id>, crashed: bool)
      requires Valid()
      modifies this
      ensures Valid()
      ensures Scheduled(old(State()), concurrency, State(), picked, crashed)
    {
      if ready == {} {
        return None, false;
      }
      var id :| id in ready;
      picked := Some(id);
      crashed := TryUploadPart(id);
    }

    /** The `_newDataAvailable` handler: mark the session ready, then run the scheduler. */
    method NewDataAvailable(id: Id) returns (picked: Option<Id>, crashed: bool)
      requires Valid()
      modifies this
      ensures Valid()
      ensures Scheduled(old(State()).(ready := old(ready) + {id}), concurrency, State(), picked, crashed)
    {
      ready := ready + {id};
      picked, crashed := ScheduleNext();
    }

    /** New chunks become readable on a session's stream, whose `readable` listener then
        signals `_newDataAvailable` for the session. */
    method StreamReceives(id: Id, chunks: seq<Chunk>) returns (picked: Option<Id>, crashed: bool)
      requires Valid()
      requires id in sessions && sessions[id].readable.Some?
      modifies this
      ensures Valid()
      ensures var s := old(sessions[id]);
              var fed := old(State()).(sessions := old(sessions)[id := s.(readable := Some(s.readable.value + chunks))]);
              Scheduled(fed.(ready := old(ready) + {id}), concurrency, State(), picked, crashed)
    {
      var s := sessions[id];
      var s' := s.(readable := Some(s.readable.value + chunks));
      ReplaceKeepsParts(sessions, inFlight, id, s');
      ReplaceNumbered(sessions, id, s');
      sessions := sessions[id := s'];
      picked, crashed := NewDataAvailable(id);
    }

    /** The settling of one part upload. On success the counter goes down and `partUploaded` is
        emitted with the session id, whose listener runs the scheduler inside the `.then`
        callback; when that pass throws, the part's promise rejects instead of resolving to
        `{ETag, PartNumber}`. On failure the promise rejects, the counter keeps the part and
        nothing is emitted. */
    method FinishPart(id: Id, index: nat, eTag: Option<ETag>) returns (notified: Option<Id>, picked: Option<Id>, crashed: bool)
      requires Valid()
      requires id in sessions && index < |sessions[id].parts| && sessions[id].parts[index].InFlight?
      requires sessions[id].upload.Created? || (sessions[id].upload.CreateFailed? && eTag.None?)
      modifies this
      ensures Valid()
      ensures eTag.Some? ==> notified == Some(id)
      ensures eTag.Some? && !crashed ==>
                Scheduled(FinishStep(old(State()), id, index, eTag), concurrency, State(), picked, false)
      ensures eTag.Some? && crashed ==>
                && Scheduled(FinishStep(old(State()), id, index, eTag), concurrency,
                             FinishStep(old(State()), id, index, eTag), picked, true)
                && State() == ThrowStep(old(State()), id, index, eTag.value)
      ensures eTag.None? ==>
                && notified.None? && picked.None? && !crashed
                && State() == FinishStep(old(State()), id, index, eTag)
                && leaked == old(leaked) + 1
    {
      ghost var st0 := State();
      ghost var settled := FinishStep(State(), id, index, eTag);
      var s := sessions[id];
      var n := s.parts[index].partNumber;
      var entry := if eTag.Some? then Uploaded(PartResult(eTag.value, n)) else Failed(n);
      var s' := s.(parts := s.parts[index := entry]);
      SettleEntry(sessions, inFlight, id, index, s');
      ReplaceNumbered(sessions, id, s');
      sessions := sessions[id := s'];
      inFlight := inFlight - {PartRef(id, index)};
      if eTag.Some? {
        active := active - 1;
        assert State() == settled;
        notified := Some(id);
        picked, crashed := ScheduleNext();
        if crashed {
          // the pass threw before changing anything; the exception rejects the part's promise
          DrainStepReadiness(settled, concurrency, picked.value);
          assert State() == settled;
          RejectPart(id, index);
          assert State() == RejectStep(settled, id, index) == ThrowStep(st0, id, index, eTag.value);
        }
      } else {
        leaked := leaked + 1;
        assert State() == settled;
        notified, picked, crashed := None, None, false;
      }
    }

    /** The part promise at `index` rejects after all. */
    method RejectPart(id: Id, index: nat)
      requires Valid()
      requires id in sessions && index < |sessions[id].parts| && sessions[id].parts[index].Uploaded?
      modifies this
      ensures Valid()
      ensures State() == RejectStep(old(State()), id, index) && leaked == old(leaked)
    {
      var s := sessions[id];
      var rejected := s.(parts := s.parts[index := Failed(s.parts[index].Number())]);
      ReplaceSettled(sessions, inFlight, id, index, rejected);
      assert NumberedFrom(s.partOffset, rejected.parts) by {
        forall i | 0 <= i < |rejected.parts| && !rejected.parts[i].Seeded?
          ensures rejected.parts[i].Number() == s.partOffset + i + 1
        {
          assert i != index ==> rejected.parts[i] == s.parts[i];
        }
      }
      ReplaceNumbered(sessions, id, rejected);
      sessions := sessions[id := rejected];
    }

    /** `awsUploadId`: the session's `createUploadPromise`. */
    method AwsUploadId(id: Id) returns (r: Result<UploadHandle, UploadError>)
      ensures id in sessions ==> r == Success(sessions[id].upload)
      ensures id !in sessions ==> r == Failure(UnknownSession)
    {
      if id !in sessions {
        return Failure(UnknownSession);
      }
      r := Success(sessions[id].upload);
    }

    /** `awsParts`: `Promise.all` over the session's part promises alone. */
    method AwsParts(id: Id) returns (r: Result<Settlement<seq<PartResult>>, UploadError>)
      ensures id !in sessions ==> r == Failure(UnknownSession)
      ensures id in sessions ==> r == Success(SettleParts(sessions[id].parts))
      ensures id in sessions ==>
                && r.Success?
                && (r.value.Rejected? <==> exists i :: 0 <= i < |sessions[id].parts| && sessions[id].parts[i].Failed?)
                && (r.value.Resolved? ==>
                      && |r.value.value| == |sessions[id].parts|
                      && forall i :: 0 <= i < |sessions[id].parts| ==>
                     (sessions[id].parts[i].Seeded? || sessions[id].parts[i].Uploaded?) && r.value.value[i] == sessions[id].parts[i].part)
    {
      if id !in sessions {
        return Failure(UnknownSession);
      }
      r := Success(SettleParts(sessions[id].parts));
    }

    /** `completeUpload`: the session is deleted only when the whole chain succeeded. The id
        stays in the readiness set. */
    method CompleteUpload(id: Id, complete: Option<CompleteResponse>, head: Option<HeadResponse>) returns (f: Finalized<Completion>)
      requires Valid()
      modifies this
      ensures Valid()
      ensures f == if id in old(sessions) then CompleteOutcome(old(sessions[id]), complete, head)
                   else Finalized(None, Failure(UnknownSession))
      ensures sessions == if f.result.Success? then old(sessions) - {id} else old(sessions)
      ensures ready == old(ready) && active == old(active)
    {
      if id !in sessions {
        return Finalized(None, Failure(UnknownSession));
      }
      f := CompleteOutcome(sessions[id], complete, head);
      if f.result.Success? {
        Delete(id);
      }
    }

    /** `abortUpload`: the same discipline, with the parts in submission order. */
    method AbortUpload(id: Id, abort: Option<AbortResponse>) returns (f: Finalized<AbortResponse>)
      requires Valid()
      modifies this
      ensures Valid()
      ensures f == if id in old(sessions) then AbortOutcome(old(sessions[id]), abort)
                   else Finalized(None, Failure(UnknownSession))
      ensures sessions == if f.result.Success? then old(sessions) - {id} else old(sessions)
      ensures ready == old(ready) && active == old(active)
    {
      if id !in sessions {
        return Finalized(None, Failure(UnknownSession));
      }
      f := AbortOutcome(sessions[id], abort);
      if f.result.Success? {
        Delete(id);
      }
    }

    /** `delete this.uploadInternalStorage[id]` once every promise of the session resolved. */
    method Delete(id: Id)
      requires Valid()
      requires id in sessions && SettleSession(sessions[id]).Resolved?
      modifies this
      ensures Valid()
      ensures sessions == old(sessions) - {id}
      ensures ready == old(ready) && active == old(active)
    {
      RemoveSettled(sessions, inFlight, id);
      sessions := sessions - {id};
    }

    /** `complateAll`: `completeUpload` on every registered session, one chain after the other. */
    method CompleteAll(replies: map<Id, CompleteReplies>) returns (results: map<Id, Finalized<Completion>>)
      requires Valid()
      requires sessions.Keys <= replies.Keys
      modifies this
      ensures Valid()
      ensures results.Keys == old(sessions).Keys
      ensures forall id :: id in results ==> results[id] == CompleteOutcome(old(sessions)[id], replies[id].0, replies[id].1)
      ensures sessions.Keys == old(sessions).Keys - Succeeded(results)
      ensures forall id :: id in sessions ==> sessions[id] == old(sessions)[id]
      ensures ready == old(ready) && active == old(active)
    {
      ghost var expected := map id | id in sessions :: CompleteOutcome(sessions[id], replies[id].0, replies[id].1);
      var todo := sessions.Keys;
      results := map[];
      while todo != {}
        invariant Valid()
        invariant FannedOut(old(sessions), expected, todo, sessions, results)
        invariant ready == old(ready) && active == old(active)
        decreases todo
      {
        var id :| id in todo;
        ghost var before := sessions;
        var f := CompleteUpload(id, replies[id].0, replies[id].1);
        FanOutStep(old(sessions), expected, todo, before, results, id, f, sessions);
        results := results[id := f];
        todo := todo - {id};
      }
    }

    /** `abortAll`: as written it calls `completeUpload`, not `abortUpload`, on every session,
        so it sends `completeMultipartUpload` requests and returns completions. */
    method AbortAll(replies: map<Id, CompleteReplies>) returns (results: map<Id, Finalized<Completion>>)
      requires Valid()
      requires sessions.Keys <= replies.Keys
      modifies this
      ensures Valid()
      ensures results.Keys == old(sessions).Keys
      ensures forall id :: id in results ==> results[id] == CompleteOutcome(old(sessions)[id], replies[id].0, replies[id].1)
      ensures sessions.Keys == old(sessions).Keys - Succeeded(results)
      ensures forall id :: id in sessions ==> sessions[id] == old(sessions)[id]
      ensures ready == old(ready) && active == old(active)
    {
      results := CompleteAll(replies);
    }

    /** What `abortAll` evidently means to do: `abortUpload` on every registered session. */
    method AbortAllIntended(replies: map<Id, Option<AbortResponse>>) returns (results: map<Id, Finalized<AbortResponse>>)
      requires Valid()
      requires sessions.Keys <= replies.Keys
      modifies this
      ensures Valid()
      ensures results.Keys == old(sessions).Keys
      ensures forall id :: id in results ==> results[id] == AbortOutcome(old(sessions)[id], replies[id])
      ensures sessions.Keys == old(sessions).Keys - Succeeded(results)
      ensures forall id :: id in sessions ==> sessions[id] == old(sessions)[id]
      ensures ready == old(ready) && active == old(active)
    {
      ghost var expected := map id | id in sessions :: AbortOutcome(sessions[id], replies[id]);
      var todo := sessions.Keys;
      results := map[];
      while todo != {}
        invariant Valid()
        invariant FannedOut(old(sessions), expected, todo, sessions, results)
        invariant ready == old(ready) && active == old(active)
        decreases todo
      {
        var id :| id in todo;
        ghost var before := sessions;
        var f := AbortUpload(id, replies[id]);
        FanOutStep(old(sessions), expected, todo, before, results, id, f, sessions);
        results := results[id := f];
        todo := todo - {id};
      }
    }
  }

  /** What `abortAll` as written does to a session whose promises all resolved, when the store
      answers: it completes the object (the request is the sorted completion list) and
      deletes the session, where an abort would have sent the abort request. */
  lemma AbortAllCompletesSettledSessions(s: Session, c: CompleteResponse, h: HeadResponse, a: AbortResponse)
    requires SettleSession(s).Resolved?
    ensures CompleteOutcome(s, Some(c), Some(h)).result.Success?
    ensures CompleteOutcome(s, Some(c), Some(h)).sent.value.parts == SortByPartNumber(SettleParts(s.parts).value)
    ensures AbortOutcome(s, Some(a)).result == Success(a)
  {
  }
}
