/**
  The Uploader's three pieces of state as one value, and the event-driven steps of its
  scheduler as functions on that value: `tryUploadPart`, the `_tryUploadPart` pass that
  picks a ready session, and the settling of one part upload.
 */
module Scheduler {
  import opened Wrappers
  import opened PartLists
  import opened Sessions

  /** `uploadInternalStorage`, the keys of `readableUploads` and `activeRequestsCount`. */
  datatype Registry = Registry(sessions: map<Id, Session>, ready: set<Id>, active: int)

  /** The state after a call of `tryUploadPart`, and whether that call threw. */
  datatype Pass = Pass(after: Registry, crashed: bool)

  /** `tryUploadPart(id)`. With no record for `id`, or a record without a stream, the first
      read throws a TypeError, unless the cap check (evaluated first) already fails. */
  function DrainStep(st: Registry, cap: int, id: Id): Pass {
    if id !in st.sessions || st.sessions[id].readable.None? then Pass(st, st.active <= cap)
    else
      var s := st.sessions[id];
      var d := Drain(s.partOffset, s.parts, s.readable.value, st.active, cap);
      Pass(Registry(st.sessions[id := s.(parts := d.parts, readable := Some(d.queue))],
                    if d.exhausted then st.ready - {id} else st.ready,
                    d.active),
           false)
  }

  /** The session leaves the readiness set exactly when its last read returned null, which is
      exactly when the counter ended within the cap; stopping at the cap keeps it ready.
      No other id's readiness changes, and a failed first cap check changes nothing. */
  lemma DrainStepReadiness(st: Registry, cap: int, id: Id)
    ensures var p := DrainStep(st, cap, id);
            && (p.crashed ==> p.after == st)
            && (!p.crashed ==> (id in p.after.ready <==> id in st.ready && p.after.active > cap))
            && p.after.ready - {id} == st.ready - {id}
            && (st.active > cap ==> p == Pass(st, false))
  {
    if id in st.sessions && st.sessions[id].readable.Some? {
      var s := st.sessions[id];
      DrainStops(s.partOffset, s.parts, s.readable.value, st.active, cap);
    }
  }

  /** The counter only goes up in a pass, and never past `max(initial, cap + 1)`. */
  lemma DrainStepCounter(st: Registry, cap: int, id: Id)
    ensures var p := DrainStep(st, cap, id);
            st.active <= p.after.active <= Max(st.active, cap + 1)
  {
    if id in st.sessions && st.sessions[id].readable.Some? {
      var s := st.sessions[id];
      DrainStops(s.partOffset, s.parts, s.readable.value, st.active, cap);
      DrainConsumesPrefix(s.partOffset, s.parts, s.readable.value, st.active, cap);
    }
  }

  /** A pass touches only the drained session: it reads a prefix of that session's stream and
      appends one pending part per chunk, numbered on from `partOffset + |partPromises| + 1`;
      the counter grows by the number of chunks read; key, offset, handle and metadata stay. */
  lemma DrainStepParts(st: Registry, cap: int, id: Id)
    ensures var p := DrainStep(st, cap, id);
            && p.after.sessions.Keys == st.sessions.Keys
            && (forall other :: other in st.sessions && other != id ==> p.after.sessions[other] == st.sessions[other])
    ensures var p := DrainStep(st, cap, id);
            id in st.sessions && st.sessions[id].readable.Some? ==>
              var s := st.sessions[id];
              var s' := p.after.sessions[id];
              var queue := s.readable.value;
              var n := p.after.active - st.active;
              && s'.readable.Some?
              && 0 <= n <= |queue|
              && s'.readable.value == queue[n..]
              && s'.parts == s.parts + NumberedChunks(s.partOffset + |s.parts| + 1, queue[..n])
              && s' == s.(parts := s'.parts, readable := s'.readable)
  {
    if id in st.sessions && st.sessions[id].readable.Some? {
      var s := st.sessions[id];
      DrainConsumesPrefix(s.partOffset, s.parts, s.readable.value, st.active, cap);
      DrainAppendsNumberedParts(s.partOffset, s.parts, s.readable.value, st.active, cap);
    }
  }

  /** The `_tryUploadPart` handler: nothing when no session is ready, otherwise
      `tryUploadPart` on some ready session (`_.sample` may pick any of them). */
  predicate Scheduled(before: Registry, cap: int, after: Registry, picked: Option<Id>, crashed: bool) {
    if before.ready == {} then picked.None? && after == before && !crashed
    else picked.Some? && picked.value in before.ready && DrainStep(before, cap, picked.value) == Pass(after, crashed)
  }

  /** A pass by the scheduler leaves every session it did not pick as it was. */
  lemma ScheduledTouchesOnlyPicked(before: Registry, cap: int, after: Registry, picked: Option<Id>, crashed: bool, other: Id)
    requires Scheduled(before, cap, after, picked, crashed)
    requires other in before.sessions && picked != Some(other)
    ensures other in after.sessions && after.sessions[other] == before.sessions[other]
    ensures other in after.ready <==> other in before.ready
  {
    if picked.Some? {
      DrainStepParts(before, cap, picked.value);
      DrainStepReadiness(before, cap, picked.value);
      assert other in before.ready - {picked.value} <==> other in after.ready - {picked.value};
    }
  }

  /** The settling of the part promise at `index`: on success it holds `{ETag, PartNumber}` and
      the counter goes down by one; on failure it is rejected and the counter stays. */
  function FinishStep(st: Registry, id: Id, index: nat, eTag: Option<ETag>): (r: Registry)
    requires id in st.sessions && index < |st.sessions[id].parts| && st.sessions[id].parts[index].InFlight?
    ensures r.ready == st.ready
    ensures r.active == if eTag.Some? then st.active - 1 else st.active
    ensures r.sessions.Keys == st.sessions.Keys
    ensures forall other :: other in st.sessions && other != id ==> r.sessions[other] == st.sessions[other]
    ensures var s := st.sessions[id];
            var s' := r.sessions[id];
            && |s'.parts| == |s.parts|
            && s'.parts[index].Number() == s.parts[index].Number()
            && (eTag.Some? <==> s'.parts[index].Uploaded?)
            && (eTag.Some? ==> s'.parts[index].part.eTag == eTag.value)
            && (eTag.None? <==> s'.parts[index].Failed?)
            && (forall i :: 0 <= i < |s.parts| && i != index ==> s'.parts[i] == s.parts[i])
            && (Numbered(s) ==> Numbered(s'))
            && s' == s.(parts := s'.parts)
  {
    var s := st.sessions[id];
    var n := s.parts[index].partNumber;
    var entry := if eTag.Some? then Uploaded(PartResult(eTag.value, n)) else Failed(n);
    Registry(st.sessions[id := s.(parts := s.parts[index := entry])],
             st.ready,
             if eTag.Some? then st.active - 1 else st.active)
  }

  /** The part promise at `index` rejects after all, with its number kept. */
  function RejectStep(st: Registry, id: Id, index: nat): Registry
    requires id in st.sessions && index < |st.sessions[id].parts|
  {
    var s := st.sessions[id];
    Registry(st.sessions[id := s.(parts := s.parts[index := Failed(s.parts[index].Number())])], st.ready, st.active)
  }

  /** A part upload that succeeded, lowered the counter and emitted `partUploaded`, whose
      listener then threw inside the `.then` callback: `{ETag, PartNumber}` is never returned,
      so the part's promise rejects, and the counter stays lowered. */
  function ThrowStep(st: Registry, id: Id, index: nat, eTag: ETag): (r: Registry)
    requires id in st.sessions && index < |st.sessions[id].parts| && st.sessions[id].parts[index].InFlight?
    ensures r.ready == st.ready && r.active == st.active - 1
    ensures r.sessions.Keys == st.sessions.Keys
    ensures forall other :: other in st.sessions && other != id ==> r.sessions[other] == st.sessions[other]
    ensures var s := st.sessions[id];
            var s' := r.sessions[id];
            && |s'.parts| == |s.parts|
            && s'.parts[index] == Failed(s.parts[index].Number())
            && (forall i :: 0 <= i < |s.parts| && i != index ==> s'.parts[i] == s.parts[i])
            && (Numbered(s) ==> Numbered(s'))
            && s' == s.(parts := s'.parts)
  {
    RejectStep(FinishStep(st, id, index, Some(eTag)), id, index)
  }

  /** After such a throw, `Promise.all` over that session's parts rejects, so `awsParts`,
      `completeUpload` and `abortUpload` of the session fail, whatever the other parts do. */
  lemma ThrowRejectsSession(st: Registry, id: Id, index: nat, eTag: ETag)
    requires id in st.sessions && index < |st.sessions[id].parts| && st.sessions[id].parts[index].InFlight?
    ensures SettleParts(ThrowStep(st, id, index, eTag).sessions[id].parts).Rejected?
    ensures SettleSession(ThrowStep(st, id, index, eTag).sessions[id]).Rejected?
  {
    var parts := ThrowStep(st, id, index, eTag).sessions[id].parts;
    assert parts[index].Failed?;
  }

  /** Resuming with `Offset = 5` and five seeded parts numbers the next chunk 11, not 6:
      the seeded parts count towards `partPromises.length` on top of the offset. */
  lemma ResumeNumbersAfterOffsetAndSeeds(seeded: seq<PartResult>, chunk: Chunk, handle: Handle)
    requires |seeded| == 5
    ensures var r := NewSession(S3Params(Some("key")), Some([chunk]), None,
                                Some(PartialParams(Some(handle), Some(seeded), Some(5))));
            && r.Success?
            && var p := DrainStep(Registry(map["id" := r.value], {"id"}, 0), 4, "id");
               |p.after.sessions["id"].parts| == 6 && p.after.sessions["id"].parts[5] == InFlight(11, chunk)
  {
    var r := NewSession(S3Params(Some("key")), Some([chunk]), None,
                        Some(PartialParams(Some(handle), Some(seeded), Some(5))));
    var parts := r.value.parts;
    assert |parts| == 5;
    assert [chunk][1..] == [];
    assert Drain(5, parts, [chunk], 0, 4) == Drain(5, parts + [InFlight(11, chunk)], [], 1, 4);
  }

  /** With a cap of 2 and three chunks buffered, one pass reads all three (the check is `<=`),
      numbers them 1, 2, 3, leaves three requests in flight and keeps the session ready. */
  lemma CapCheckAdmitsOneExtra(s: Session, a: Chunk, b: Chunk, c: Chunk)
    requires s.partOffset == 0 && s.parts == [] && s.readable == Some([a, b, c])
    ensures var p := DrainStep(Registry(map["id" := s], {"id"}, 0), 2, "id");
            && !p.crashed
            && p.after.active == 3
            && p.after.sessions["id"].parts == [InFlight(1, a), InFlight(2, b), InFlight(3, c)]
            && "id" in p.after.ready
  {
    assert [a, b, c][1..] == [b, c] && [b, c][1..] == [c] && [c][1..] == [];
    assert [] + [InFlight(1, a)] == [InFlight(1, a)];
    assert [InFlight(1, a)] + [InFlight(2, b)] == [InFlight(1, a), InFlight(2, b)];
    assert [InFlight(1, a), InFlight(2, b)] + [InFlight(3, c)] == [InFlight(1, a), InFlight(2, b), InFlight(3, c)];
    assert Drain(0, [], [a, b, c], 0, 2) == Drain(0, [InFlight(1, a)], [b, c], 1, 2);
    assert Drain(0, [InFlight(1, a)], [b, c], 1, 2) == Drain(0, [InFlight(1, a), InFlight(2, b)], [c], 2, 2);
    assert Drain(0, [InFlight(1, a), InFlight(2, b)], [c], 2, 2)
        == Drain(0, [InFlight(1, a), InFlight(2, b), InFlight(3, c)], [], 3, 2);
  }

  /** Finalization deletes a session but leaves its id in `readableUploads`; a later pass that
      picks the id while the counter is within the cap throws, because `upload` is undefined. */
  lemma StaleReadyIdThrows(st: Registry, cap: int, id: Id)
    requires id in st.ready && id !in st.sessions
    ensures var p := DrainStep(st, cap, id);
            p.after == st && (p.crashed <==> st.active <= cap)
  {
  }
}
