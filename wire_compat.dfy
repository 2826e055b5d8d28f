/** How the frames the client writes (road-trip-app/app/services/websocketService.ts)
    read on the server (road-trip-backend/src/services/websocket.rs). A frame
    that does not decode is dropped by the server without a reply, so this
    fixes which client actions can reach other members at all. */
module WireCompat {
  import opened Wrappers
  import opened Json
  import opened SignalingChannel
  import RelayEvents

  /** Joining and leaving arrive as sent; a typing notice arrives when it
      carries the user; offers, answers and candidates arrive when they
      carry a call id. Chat messages, image messages and location updates
      never decode (the client leaves out `message_id`, `user_id` and
      `message_type`, and `image-message` is no server type), and neither
      does any call-control event, which lacks `initiator_id` or `user_id`. */
  lemma ClientFramesOnServer(e: OutEvent)
    ensures e.JoinRoom? ==> RelayEvents.Decode(ToWire(e)) == Some(RelayEvents.JoinRoom(e.roomId))
    ensures e.LeaveRoom? ==> RelayEvents.Decode(ToWire(e)) == Some(RelayEvents.LeaveRoom(e.roomId))
    ensures e.Typing? ==> (
      RelayEvents.Decode(ToWire(e)) == if e.userId.Some? then Some(RelayEvents.Typing(e.roomId, e.userId.value)) else None)
    ensures e.NewMessage? || e.ImageMessage? || e.LocationUpdate? ==> RelayEvents.Decode(ToWire(e)).None?
    ensures e.VoiceCallInitiate? || e.VoiceCallAccept? || e.VoiceCallReject? || e.VoiceCallEnd? ==>
      RelayEvents.Decode(ToWire(e)).None?
    ensures e.VoiceOffer? ==> (
      RelayEvents.Decode(ToWire(e)) == if e.callId.Some? then Some(RelayEvents.VoiceOffer(e.callId.value, e.offer)) else None)
    ensures e.VoiceAnswer? ==> (
      RelayEvents.Decode(ToWire(e)) == if e.callId.Some? then Some(RelayEvents.VoiceAnswer(e.callId.value, e.answer)) else None)
    ensures e.IceCandidate? ==> (
      RelayEvents.Decode(ToWire(e)) == if e.callId.Some? then Some(RelayEvents.IceCandidate(e.callId.value, e.candidate)) else None)
  {
    if e.JoinRoom? || e.LeaveRoom? || e.Typing? {
      RoomFrames(e);
    } else if e.NewMessage? || e.ImageMessage? || e.LocationUpdate? {
      ChatFrames(e);
    } else if e.VoiceCallInitiate? || e.VoiceCallAccept? || e.VoiceCallReject? || e.VoiceCallEnd? {
      ControlFrames(e);
    } else if e.VoiceOffer? || e.VoiceAnswer? || e.IceCandidate? {
      NegotiationFrames(e);
    }
  }

  lemma RoomFrames(e: OutEvent)
    requires e.JoinRoom? || e.LeaveRoom? || e.Typing?
    ensures e.JoinRoom? ==> RelayEvents.Decode(ToWire(e)) == Some(RelayEvents.JoinRoom(e.roomId))
    ensures e.LeaveRoom? ==> RelayEvents.Decode(ToWire(e)) == Some(RelayEvents.LeaveRoom(e.roomId))
    ensures e.Typing? ==> (
      RelayEvents.Decode(ToWire(e)) == if e.userId.Some? then Some(RelayEvents.Typing(e.roomId, e.userId.value)) else None)
  {
  }

  lemma ChatFrames(e: OutEvent)
    requires e.NewMessage? || e.ImageMessage? || e.LocationUpdate?
    ensures e.NewMessage? || e.ImageMessage? || e.LocationUpdate? ==> RelayEvents.Decode(ToWire(e)).None?
  {
  }

  lemma ControlFrames(e: OutEvent)
    requires e.VoiceCallInitiate? || e.VoiceCallAccept? || e.VoiceCallReject? || e.VoiceCallEnd?
    ensures e.VoiceCallInitiate? || e.VoiceCallAccept? || e.VoiceCallReject? || e.VoiceCallEnd? ==>
      RelayEvents.Decode(ToWire(e)).None?
  {
  }

  lemma NegotiationFrames(e: OutEvent)
    requires e.VoiceOffer? || e.VoiceAnswer? || e.IceCandidate?
    ensures e.VoiceOffer? ==> (
      RelayEvents.Decode(ToWire(e)) == if e.callId.Some? then Some(RelayEvents.VoiceOffer(e.callId.value, e.offer)) else None)
    ensures e.VoiceAnswer? ==> (
      RelayEvents.Decode(ToWire(e)) == if e.callId.Some? then Some(RelayEvents.VoiceAnswer(e.callId.value, e.answer)) else None)
    ensures e.IceCandidate? ==> (
      RelayEvents.Decode(ToWire(e)) == if e.callId.Some? then Some(RelayEvents.IceCandidate(e.callId.value, e.candidate)) else None)
  {
  }
}
