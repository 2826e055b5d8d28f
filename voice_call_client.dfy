/** The client's call orchestration (road-trip-app/app/services/voiceCallService.ts):
    each operation is an ordered sequence of calls into the socket wrapper,
    the WebRTC session and the store, plus a once-a-second timer that writes
    the elapsed whole seconds into the call state.

    The services are the shared singletons `ws`, `rtc` and `store`. The ghost
    `trace` records each collaborator step as it completes, so that the
    order of the steps and where a failure stops them can be stated. The
    clock reading is a parameter; what the WebRTC engine returns is passed
    through to `rtc`. */
module VoiceCallClient {
  import opened Wrappers
  import opened ClientTypes
  import opened AppStore
  import opened SignalingChannel
  import opened PeerSession
  import opened Json

  const NotLoggedIn: string := "User not logged in"
  const TimerPeriod: int := 1000

  datatype CallStep =
    | Signalled(event: OutEvent)
    | PeerInitialized(id: Option<string>)
    | RemoteDescriptionSet(kind: SdpType)
    | StreamAcquired
    | OfferCreated
    | AnswerCreated
    | CandidateAdded
    | TimerStarted
    | SessionCleanedUp
    | TimerStopped
    | CallStateCleared

  /** `Math.floor((now - start) / 1000)`: the whole seconds elapsed. */
  function ElapsedSeconds(start: int, now: int): (r: int)
    ensures r * 1000 <= now - start < r * 1000 + 1000
  {
    (now - start) / 1000
  }

  /** `store.user?.id`, when truthy. */
  function LoggedInUser(s: AppState): Option<string> {
    if s.user.Some? && s.user.value.id != "" then Some(s.user.value.id) else None
  }

  /** What the socket wrapper has transmitted after `send(e)`: the frame
      goes out only on an open socket. */
  function AfterSend(socket: Option<ReadyState>, sent: seq<JsonObject>, e: OutEvent): seq<JsonObject> {
    if socket == Some(Open) then sent + [ToWire(e)] else sent
  }

  /** The steps of `acceptCall` in order; the first `n` of them run. */
  function AcceptSteps(call: VoiceCall): seq<CallStep> {
    [Signalled(VoiceCallAccept(call.id)), PeerInitialized(call.id), StreamAcquired, TimerStarted]
  }

  /** How many steps of `acceptCall` complete. */
  function AcceptProgress(loggedIn: bool, available: bool, media: bool, granted: bool): (n: nat)
    ensures n <= 4
    ensures n == 4 <==> loggedIn && available && media && granted
    ensures n == 0 <==> !loggedIn
  {
    if !loggedIn then 0 else if !available then 1 else if !(media && granted) then 2 else 4
  }

  /** The steps of a successful `handleOffer`: initialisation and stream
      acquisition run only when nothing is held yet. */
  function OfferHandledSteps(call: VoiceCall, needPeer: bool, needStream: bool, answer: SessionDescription): seq<CallStep> {
    (if needPeer then [PeerInitialized(call.id)] else [])
    + [RemoteDescriptionSet(OfferSdp)]
    + (if needStream then [StreamAcquired] else [])
    + [AnswerCreated, Signalled(VoiceAnswer(call.id, DescriptionJson(answer)))]
  }

  class VoiceCallService {
    var callDurationInterval: bool
    /** Intervals that were replaced without being cleared; they keep firing. */
    var orphanIntervals: nat
    var startTime: int
    const ws: WebSocketService
    const rtc: WebRTCService
    const store: Store
    ghost var trace: seq<CallStep>

    constructor (ws: WebSocketService, rtc: WebRTCService, store: Store)
      ensures this.ws == ws && this.rtc == rtc && this.store == store
      ensures !callDurationInterval && orphanIntervals == 0 && startTime == 0 && trace == []
    {
      this.ws := ws;
      this.rtc := rtc;
      this.store := store;
      callDurationInterval := false;
      orphanIntervals := 0;
      startTime := 0;
      trace := [];
    }

    /** Sends one initiate event for the room; fails, sending nothing, when
        no user is logged in. A call already in progress is not checked. */
    method InitiateCall(roomId: string) returns (r: Outcome<string>)
      requires ws.Valid()
      modifies ws, this
      ensures ws.Valid()
      ensures LoggedInUser(store.state).None? ==>
        r == Fail(NotLoggedIn) && ws.transmitted == old(ws.transmitted) && trace == old(trace)
      ensures LoggedInUser(store.state).Some? ==>
        r == Pass && trace == old(trace) + [Signalled(VoiceCallInitiate(roomId))]
        && ws.transmitted == AfterSend(old(ws.socket), old(ws.transmitted), VoiceCallInitiate(roomId))
      ensures ws.socket == old(ws.socket) && ws.scheduled == old(ws.scheduled)
      ensures callDurationInterval == old(callDurationInterval) && startTime == old(startTime)
    {
      if LoggedInUser(store.state).None? {
        return Fail(NotLoggedIn);
      }
      ws.Send(VoiceCallInitiate(roomId));
      trace := trace + [Signalled(VoiceCallInitiate(roomId))];
      return Pass;
    }

    method StartCallTimer(now: int)
      modifies this
      ensures callDurationInterval && startTime == now && trace == old(trace) + [TimerStarted]
      ensures orphanIntervals == old(orphanIntervals) + if old(callDurationInterval) then 1 else 0
    {
      if callDurationInterval {
        orphanIntervals := orphanIntervals + 1;
      }
      startTime := now;
      callDurationInterval := true;
      trace := trace + [TimerStarted];
    }

    /** Clears the held interval, if any, and resets the start time. */
    method StopCallTimer()
      modifies this
      ensures !callDurationInterval && startTime == 0 && orphanIntervals == old(orphanIntervals)
      ensures trace == old(trace) + [TimerStopped]
    {
      if callDurationInterval {
        callDurationInterval := false;
      }
      startTime := 0;
      trace := trace + [TimerStopped];
    }

    /** An interval fires at `now`: the duration becomes the whole seconds
        since `startTime`, and nothing else in the call state changes. */
    method Tick(now: int)
      requires callDurationInterval || orphanIntervals > 0
      modifies store
      ensures old(store.state.callState).None? ==> store.state == old(store.state)
      ensures old(store.state.callState).Some? ==>
        store.state == SetCallState(old(store.state),
          Some(old(store.state.callState).value.(callDuration := ElapsedSeconds(startTime, now))))
    {
      var duration := ElapsedSeconds(startTime, now);
      if store.state.callState.Some? {
        store.state := SetCallState(store.state, Some(store.state.callState.value.(callDuration := duration)));
      }
    }

    /** Sends accept, initialises the connection for `call.id`, acquires the
        local stream and starts the timer, in that order; the first failure
        is returned and the later steps do not run. */
    method AcceptCall(call: VoiceCall, granted: MediaStream?, now: int) returns (r: Outcome<string>)
      requires ws.Valid()
      modifies this, ws, rtc, rtc.peerConnection
      ensures ws.Valid()
      ensures var n := AcceptProgress(LoggedInUser(store.state).Some?, rtc.available, rtc.hasMediaDevices, granted != null);
        trace == old(trace) + AcceptSteps(call)[..n] && (r.Pass? <==> n == 4)
      ensures LoggedInUser(store.state).None? ==> r == Fail(NotLoggedIn) && ws.transmitted == old(ws.transmitted)
      ensures LoggedInUser(store.state).Some? ==>
        ws.transmitted == AfterSend(old(ws.socket), old(ws.transmitted), VoiceCallAccept(call.id))
      ensures r.Pass? ==> rtc.callId == call.id && rtc.localStream == granted && callDurationInterval && startTime == now
      ensures r.Fail? ==> callDurationInterval == old(callDurationInterval) && startTime == old(startTime)
    {
      if LoggedInUser(store.state).None? {
        return Fail(NotLoggedIn);
      }
      ws.Send(VoiceCallAccept(call.id));
      trace := trace + [Signalled(VoiceCallAccept(call.id))];
      var init := rtc.InitializePeerConnection(call.id);
      if init.Fail? {
        return init;
      }
      trace := trace + [PeerInitialized(call.id)];
      var stream := rtc.GetLocalStream(granted);
      if stream.Err? {
        return Fail(stream.error);
      }
      trace := trace + [StreamAcquired];
      StartCallTimer(now);
      assert trace == old(trace) + AcceptSteps(call);
      return Pass;
    }

    /** Initialises a connection only if none exists, sets the offer as the
        remote description, acquires a stream only if none is held, then
        creates the answer and sends it. */
    method HandleOffer(call: VoiceCall, offer: string, answerSdp: string, granted: MediaStream?)
      returns (r: Outcome<string>)
      requires ws.Valid()
      modifies this, ws, rtc, rtc.peerConnection
      ensures ws.Valid()
      ensures old(rtc.peerConnection) != null && rtc.available ==> rtc.peerConnection == old(rtc.peerConnection)
      ensures r.Pass? ==>
        rtc.available && rtc.peerConnection != null
        && rtc.peerConnection.remoteDescription == Some(SessionDescription(OfferSdp, offer))
        && rtc.peerConnection.localDescription == Some(SessionDescription(AnswerSdp, answerSdp))
        && (old(rtc.localStream) != null ==> rtc.localStream == old(rtc.localStream))
        && ws.transmitted == AfterSend(old(ws.socket), old(ws.transmitted), VoiceAnswer(call.id, DescriptionJson(SessionDescription(AnswerSdp, answerSdp))))
      ensures r.Fail? ==> ws.transmitted == old(ws.transmitted)
      ensures rtc.available && (old(rtc.localStream) != null || (rtc.hasMediaDevices && granted != null)) ==> r.Pass?
      ensures old(trace) <= trace
      ensures r.Pass? ==>
        trace == old(trace) + OfferHandledSteps(call, old(rtc.peerConnection) == null, old(rtc.localStream) == null,
                                                SessionDescription(AnswerSdp, answerSdp))
      ensures callDurationInterval == old(callDurationInterval) && startTime == old(startTime)
    {
      ghost var needPeer := rtc.peerConnection == null;
      ghost var needStream := rtc.localStream == null;
      var steps: seq<CallStep> := [];
      if rtc.peerConnection == null {
        var init := rtc.InitializePeerConnection(call.id);
        if init.Fail? {
          return init;
        }
        steps := [PeerInitialized(call.id)];
        trace := trace + steps;
      }
      var remote := rtc.SetRemoteDescription(offer, OfferSdp);
      if remote.Fail? {
        return remote;
      }
      steps := steps + [RemoteDescriptionSet(OfferSdp)];
      trace := old(trace) + steps;
      if rtc.localStream == null {
        var stream := rtc.GetLocalStream(granted);
        if stream.Err? {
          return Fail(stream.error);
        }
        steps := steps + [StreamAcquired];
        trace := old(trace) + steps;
      }
      var answer := rtc.CreateAnswer(answerSdp);
      ws.Send(VoiceAnswer(call.id, answer.value));
      steps := steps + [AnswerCreated, Signalled(VoiceAnswer(call.id, answer.value))];
      assert steps == OfferHandledSteps(call, needPeer, needStream, SessionDescription(AnswerSdp, answerSdp));
      trace := old(trace) + steps;
      return Pass;
    }

    /** Initialises a connection, acquires the local stream, creates the
        offer and sends it, in that order. */
    method CreateOfferForCall(call: VoiceCall, offerSdp: string, granted: MediaStream?) returns (r: Outcome<string>)
      requires ws.Valid()
      modifies this, ws, rtc, rtc.peerConnection
      ensures ws.Valid()
      ensures r.Pass? <==> rtc.available && rtc.hasMediaDevices && granted != null
      ensures r.Pass? ==>
        rtc.callId == call.id && rtc.localStream == granted && rtc.peerConnection != null
        && fresh(rtc.peerConnection) && rtc.peerConnection.senders == granted.tracks
        && rtc.peerConnection.localDescription == Some(SessionDescription(OfferSdp, offerSdp))
        && ws.transmitted == AfterSend(old(ws.socket), old(ws.transmitted), VoiceOffer(call.id, DescriptionJson(SessionDescription(OfferSdp, offerSdp))))
        && trace == old(trace) + [PeerInitialized(call.id), StreamAcquired, OfferCreated,
                                  Signalled(VoiceOffer(call.id, DescriptionJson(SessionDescription(OfferSdp, offerSdp))))]
      ensures r.Fail? ==> ws.transmitted == old(ws.transmitted)
      ensures callDurationInterval == old(callDurationInterval) && startTime == old(startTime)
    {
      var init := rtc.InitializePeerConnection(call.id);
      if init.Fail? {
        return init;
      }
      trace := trace + [PeerInitialized(call.id)];
      var stream := rtc.GetLocalStream(granted);
      if stream.Err? {
        return Fail(stream.error);
      }
      trace := trace + [StreamAcquired];
      var offer := rtc.CreateOffer(offerSdp);
      trace := trace + [OfferCreated];
      ws.Send(VoiceOffer(call.id, offer.value));
      trace := trace + [Signalled(VoiceOffer(call.id, offer.value))];
      return Pass;
    }

    method HandleAnswer(call: VoiceCall, answer: string) returns (r: Outcome<string>)
      modifies this, rtc.peerConnection
      ensures r == if !rtc.available then Fail(NotAvailable)
                   else if rtc.peerConnection == null then Fail(NotInitialized) else Pass
      ensures r.Pass? ==> rtc.peerConnection.remoteDescription == Some(SessionDescription(AnswerSdp, answer))
      ensures trace == old(trace) + if r.Pass? then [RemoteDescriptionSet(AnswerSdp)] else []
    {
      r := rtc.SetRemoteDescription(answer, AnswerSdp);
      if r.Pass? {
        trace := trace + [RemoteDescriptionSet(AnswerSdp)];
      }
    }

    /** `parses` says whether `JSON.parse` accepts the candidate text. */
    method HandleIceCandidate(call: VoiceCall, candidate: string, parses: bool) returns (r: Outcome<string>)
      modifies this, rtc.peerConnection
      ensures r == if !rtc.available then Fail(NotAvailable)
                   else if rtc.peerConnection == null then Fail(NotInitialized)
                   else if !parses then Fail(MalformedCandidate) else Pass
      ensures r.Fail? ==> rtc.peerConnection == null || unchanged(rtc.peerConnection)
      ensures r.Pass? ==> rtc.peerConnection.remoteCandidates == old(rtc.peerConnection.remoteCandidates) + [candidate]
      ensures trace == old(trace) + if r.Pass? then [CandidateAdded] else []
    {
      r := rtc.AddIceCandidate(candidate, parses);
      if r.Pass? {
        trace := trace + [CandidateAdded];
      }
    }

    /** Without a user nothing happens; otherwise reject is sent and the call
        state is cleared. */
    method RejectCall(call: VoiceCall)
      requires ws.Valid()
      modifies this, ws, store
      ensures ws.Valid()
      ensures old(LoggedInUser(store.state)).None? ==>
        store.state == old(store.state) && ws.transmitted == old(ws.transmitted) && trace == old(trace)
      ensures old(LoggedInUser(store.state)).Some? ==>
        store.state == SetCallRejected(old(store.state))
        && trace == old(trace) + [Signalled(VoiceCallReject(call.id)), CallStateCleared]
        && ws.transmitted == AfterSend(old(ws.socket), old(ws.transmitted), VoiceCallReject(call.id))
      ensures callDurationInterval == old(callDurationInterval) && startTime == old(startTime)
    {
      if LoggedInUser(store.state).None? {
        return;
      }
      ws.Send(VoiceCallReject(call.id));
      store.state := SetCallRejected(store.state);
      trace := trace + [Signalled(VoiceCallReject(call.id)), CallStateCleared];
    }

    /** Sends end, tears down the WebRTC session, stops the timer and clears
        the call state; fails without a user. */
    method EndCall(call: VoiceCall) returns (r: Outcome<string>)
      requires ws.Valid()
      modifies this, ws, store, rtc.Footprint()
      ensures ws.Valid()
      ensures old(LoggedInUser(store.state)).None? ==>
        r == Fail(NotLoggedIn) && store.state == old(store.state) && trace == old(trace)
        && ws.transmitted == old(ws.transmitted) && callDurationInterval == old(callDurationInterval)
      ensures old(LoggedInUser(store.state)).Some? ==>
        r == Pass && store.state == AppStore.EndCall(old(store.state))
        && rtc.peerConnection == null && rtc.localStream == null && rtc.remoteStream == null && rtc.callId.None?
        && (forall t :: t in TracksOf(old(rtc.localStream)) || t in TracksOf(old(rtc.remoteStream)) ==> t.stopped)
        && (old(rtc.peerConnection) != null ==> old(rtc.peerConnection).closed)
        && !callDurationInterval && startTime == 0
        && trace == old(trace) + [Signalled(VoiceCallEnd(call.id)), SessionCleanedUp, TimerStopped, CallStateCleared]
        && ws.transmitted == AfterSend(old(ws.socket), old(ws.transmitted), VoiceCallEnd(call.id))
    {
      if LoggedInUser(store.state).None? {
        return Fail(NotLoggedIn);
      }
      ws.Send(VoiceCallEnd(call.id));
      trace := trace + [Signalled(VoiceCallEnd(call.id))];
      CleanupSession();
      StopCallTimer();
      store.state := AppStore.EndCall(store.state);
      trace := trace + [CallStateCleared];
      return Pass;
    }

    /** `webrtcService.cleanup()` on behalf of this service. */
    method CleanupSession()
      modifies this, rtc.Footprint()
      ensures rtc.peerConnection == null && rtc.localStream == null && rtc.remoteStream == null && rtc.callId.None?
      ensures forall t :: t in TracksOf(old(rtc.localStream)) || t in TracksOf(old(rtc.remoteStream)) ==> t.stopped
      ensures old(rtc.peerConnection) != null ==> old(rtc.peerConnection).closed
      ensures trace == old(trace) + [SessionCleanedUp]
      ensures callDurationInterval == old(callDurationInterval) && startTime == old(startTime)
      ensures orphanIntervals == old(orphanIntervals)
      ensures ws !in rtc.Footprint() && store !in rtc.Footprint()
    {
      assert this !in rtc.Footprint();
      rtc.Cleanup();
      trace := trace + [SessionCleanedUp];
    }

    method Mute()
      modifies set t | t in TracksOf(rtc.localStream)
      ensures forall t :: t in TracksOf(rtc.localStream) ==> t.enabled == (t.kind != Audio && old(t.enabled))
    {
      rtc.MuteAudio();
    }

    method Unmute()
      modifies set t | t in TracksOf(rtc.localStream)
      ensures forall t :: t in TracksOf(rtc.localStream) ==> t.enabled == (t.kind == Audio || old(t.enabled))
    {
      rtc.UnmuteAudio();
    }
  }
}
