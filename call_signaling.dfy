/** The voice-call rows (road-trip-backend/src/services/voice_call_signaling.rs):
    a call is inserted `ringing`, accepting sets it `active`, ending or
    rejecting sets it `ended` with an end time. No transition is guarded
    by the current status. */
module CallSignaling {
  import opened Wrappers
  import opened Sequences
  import opened BackendTables

  const Ringing: string := "ringing"
  const Active: string := "active"
  const Ended: string := "ended"
  const CallNotFound: string := "Call not found"

  /** The row `initiate_call` inserts. */
  function NewCall(id: Uuid, roomId: Uuid, initiatorId: Uuid, now: int): CallRow {
    CallRow(id, roomId, initiatorId, now, None, Ringing)
  }

  /** A call `get_active_call_in_room` looks for. */
  predicate Live(c: CallRow) {
    c.status == Ringing || c.status == Active
  }

  /** `get_call`: the row with that id. */
  function FindCall(calls: seq<CallRow>, callId: Uuid): (r: Result<CallRow, string>)
    ensures r.Ok? <==> !KeyFree(calls, CallId, callId)
    ensures r.Ok? ==> r.value in calls && r.value.id == callId
    ensures r.Err? ==> r.error == CallNotFound
  {
    var i := IndexOf(calls, CallId, callId);
    if i == |calls| then Err(CallNotFound) else Ok(calls[i])
  }

  function SetActive(c: CallRow): CallRow {
    c.(status := Active)
  }

  function SetEnded(now: int): CallRow -> CallRow {
    (c: CallRow) => c.(status := Ended, endTime := Some(now))
  }

  function HasId(callId: Uuid): CallRow -> bool {
    (c: CallRow) => c.id == callId
  }

  /** The table after `accept_call`: the call becomes active whatever its
      status was, and nothing else changes. */
  function AfterAccept(calls: seq<CallRow>, callId: Uuid): (r: Result<seq<CallRow>, string>)
    ensures r.Err? <==> KeyFree(calls, CallId, callId)
    ensures r.Err? ==> r.error == CallNotFound
    ensures r.Ok? ==> (
      && |r.value| == |calls|
      && forall k :: 0 <= k < |calls| ==>
           r.value[k] == if calls[k].id == callId then calls[k].(status := Active) else calls[k])
  {
    if KeyFree(calls, CallId, callId) then Err(CallNotFound)
    else Ok(UpdateWhere(calls, HasId(callId), SetActive))
  }

  /** The table after `end_call` (and `reject_call`): the call is ended at
      `now`, and nothing else changes. */
  function AfterEnd(calls: seq<CallRow>, callId: Uuid, now: int): (r: Result<seq<CallRow>, string>)
    ensures r.Err? <==> KeyFree(calls, CallId, callId)
    ensures r.Err? ==> r.error == CallNotFound
    ensures r.Ok? ==> (
      && |r.value| == |calls|
      && forall k :: 0 <= k < |calls| ==>
           r.value[k] == if calls[k].id == callId then calls[k].(status := Ended, endTime := Some(now)) else calls[k])
  {
    if KeyFree(calls, CallId, callId) then Err(CallNotFound)
    else Ok(UpdateWhere(calls, HasId(callId), SetEnded(now)))
  }

  /** `get_active_call_in_room`: a ringing or active call of the room, if any. */
  function ActiveCallIn(calls: seq<CallRow>, roomId: Uuid): (r: Option<CallRow>)
    ensures r.Some? ==> r.value in calls && r.value.roomId == roomId && Live(r.value)
    ensures r.None? <==> forall k :: 0 <= k < |calls| ==> !(calls[k].roomId == roomId && Live(calls[k]))
  {
    if calls == [] then None
    else if calls[0].roomId == roomId && Live(calls[0]) then Some(calls[0])
    else
      var r := ActiveCallIn(calls[1..], roomId);
      assert forall k :: 1 <= k < |calls| ==> calls[k] == calls[1..][k - 1];
      r
  }

  function InRoomLive(roomId: Uuid): CallRow -> bool {
    (c: CallRow) => c.roomId == roomId && Live(c)
  }

  /** How many calls of the room are ringing or active. */
  function LiveCount(calls: seq<CallRow>, roomId: Uuid): nat {
    |Filter(calls, InRoomLive(roomId))|
  }

  /** Every call's status is one the service writes. */
  predicate KnownStatuses(calls: seq<CallRow>) {
    forall k :: 0 <= k < |calls| ==> Live(calls[k]) || calls[k].status == Ended
  }

  /** Initiating, accepting and ending keep every status among the three. */
  lemma StatusesStayKnown(calls: seq<CallRow>, id: Uuid, roomId: Uuid, initiatorId: Uuid, now: int)
    requires KnownStatuses(calls)
    ensures KnownStatuses(calls + [NewCall(id, roomId, initiatorId, now)])
    ensures AfterAccept(calls, id).Ok? ==> KnownStatuses(AfterAccept(calls, id).value)
    ensures AfterEnd(calls, id, now).Ok? ==> KnownStatuses(AfterEnd(calls, id, now).value)
  {
  }

  /** A new call is live in its room at once, and each initiation adds one
      more live call: nothing stops a second call in a room that already
      has one. */
  lemma {:induction false} InitiateAddsLiveCall(calls: seq<CallRow>, id: Uuid, roomId: Uuid, initiatorId: Uuid, now: int)
    ensures ActiveCallIn(calls + [NewCall(id, roomId, initiatorId, now)], roomId).Some?
    ensures LiveCount(calls + [NewCall(id, roomId, initiatorId, now)], roomId) == LiveCount(calls, roomId) + 1
  {
    var c := NewCall(id, roomId, initiatorId, now);
    var after := calls + [c];
    assert after[|calls|] == c;
    FilterAppend(calls, [c], InRoomLive(roomId));
    assert Filter([c], InRoomLive(roomId)) == [c];
  }

  /** Once ended, a call is no longer reported as the room's active call
      (ids are unique, so no other row carries its id). */
  lemma EndedCallIsNotActive(calls: seq<CallRow>, callId: Uuid, roomId: Uuid, now: int)
    requires UniqueBy(calls, CallId)
    requires AfterEnd(calls, callId, now).Ok?
    ensures var r := ActiveCallIn(AfterEnd(calls, callId, now).value, roomId); r.Some? ==> r.value.id != callId
  {
    var after := AfterEnd(calls, callId, now).value;
    var r := ActiveCallIn(after, roomId);
    if r.Some? {
      var k :| 0 <= k < |after| && after[k] == r.value;
    }
  }

  /** No status guard: accepting an ended call makes it active again, and
      it keeps the end time it was given. */
  lemma AcceptReopensEndedCall(calls: seq<CallRow>, callId: Uuid, now: int)
    requires AfterEnd(calls, callId, now).Ok?
    ensures var ended := AfterEnd(calls, callId, now).value;
      var reopened := AfterAccept(ended, callId);
      reopened.Ok?
      && FindCall(reopened.value, callId).Ok?
      && FindCall(reopened.value, callId).value.status == Active
      && FindCall(reopened.value, callId).value.endTime == Some(now)
  {
    var ended := AfterEnd(calls, callId, now).value;
    var i := IndexOf(calls, CallId, callId);
    assert ended[i].id == callId;
    var reopened := AfterAccept(ended, callId).value;
    var j := IndexOf(reopened, CallId, callId);
    assert reopened[j] == ended[j].(status := Active);
    assert ended[j] == calls[j].(status := Ended, endTime := Some(now));
  }

  class VoiceCallSignalingService {
    const db: Database

    constructor (db: Database)
      ensures this.db == db
    {
      this.db := db;
    }

    /** `initiate_call`: inserts a ringing call with the fresh id `freshId`
        and start time `now`; the insert fails only if the id is taken. */
    method InitiateCall(freshId: Uuid, roomId: Uuid, initiatorId: Uuid, now: int) returns (r: Result<CallRow, string>)
      requires db.Valid()
      modifies db
      ensures db.Valid()
      ensures r.Ok? <==> KeyFree(old(db.calls), CallId, freshId)
      ensures r.Ok? ==> (
        && r.value == NewCall(freshId, roomId, initiatorId, now)
        && db.Snapshot() == old(db.Snapshot()).(calls := old(db.calls) + [r.value]))
      ensures r.Err? ==> r.error == DbError && db.Snapshot() == old(db.Snapshot())
    {
      var call := NewCall(freshId, roomId, initiatorId, now);
      var inserted := InsertRow(db.calls, call, CallId);
      if inserted.Err? {
        return Err(inserted.error);
      }
      db.calls := inserted.value;
      r := Ok(call);
    }

    /** `accept_call`: returns the updated row. */
    method AcceptCall(callId: Uuid) returns (r: Result<CallRow, string>)
      requires db.Valid()
      modifies db
      ensures db.Valid()
      ensures var after := AfterAccept(old(db.calls), callId);
        && (after.Err? ==> r == Err(CallNotFound) && db.Snapshot() == old(db.Snapshot()))
        && (after.Ok? ==> db.Snapshot() == old(db.Snapshot()).(calls := after.value)
                          && r == Ok(FindCall(old(db.calls), callId).value.(status := Active)))
    {
      var found := FindCall(db.calls, callId);
      if found.Err? {
        return Err(found.error);
      }
      var after := AfterAccept(db.calls, callId);
      UpdateKeepsUnique(db.calls, HasId(callId), SetActive, CallId);
      db.calls := after.value;
      r := Ok(found.value.(status := Active));
    }

    /** `end_call`. */
    method EndCall(callId: Uuid, now: int) returns (r: Outcome<string>)
      requires db.Valid()
      modifies db
      ensures db.Valid()
      ensures var after := AfterEnd(old(db.calls), callId, now);
        && (after.Err? ==> r == Fail(CallNotFound) && db.Snapshot() == old(db.Snapshot()))
        && (after.Ok? ==> r == Pass && db.Snapshot() == old(db.Snapshot()).(calls := after.value))
    {
      var after := AfterEnd(db.calls, callId, now);
      if after.Err? {
        return Fail(after.error);
      }
      UpdateKeepsUnique(db.calls, HasId(callId), SetEnded(now), CallId);
      db.calls := after.value;
      r := Pass;
    }

    /** `reject_call` is `end_call`. */
    method RejectCall(callId: Uuid, now: int) returns (r: Outcome<string>)
      requires db.Valid()
      modifies db
      ensures db.Valid()
      ensures var after := AfterEnd(old(db.calls), callId, now);
        && (after.Err? ==> r == Fail(CallNotFound) && db.Snapshot() == old(db.Snapshot()))
        && (after.Ok? ==> r == Pass && db.Snapshot() == old(db.Snapshot()).(calls := after.value))
    {
      r := EndCall(callId, now);
    }

    /** `get_call`. */
    method GetCall(callId: Uuid) returns (r: Result<CallRow, string>)
      ensures r == FindCall(db.calls, callId)
    {
      r := FindCall(db.calls, callId);
    }

    /** `get_active_call_in_room`. */
    method GetActiveCallInRoom(roomId: Uuid) returns (r: Option<CallRow>)
      ensures r == ActiveCallIn(db.calls, roomId)
    {
      r := ActiveCallIn(db.calls, roomId);
    }
  }
}
