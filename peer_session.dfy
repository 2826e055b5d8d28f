/** The client's WebRTC session (road-trip-app/app/services/webrtcService.ts):
    one optional peer connection, one optional local and one optional remote
    media stream, and the id of the call they belong to.

    The native WebRTC objects are handles: a track has a kind and two
    switches, a stream is a fixed list of tracks, and a peer connection
    records what is done to it. What the native engine produces (session
    descriptions, the stream `getUserMedia` grants) is passed in; whether the
    native module loads at all is the constant `available`, and whether it
    offers `mediaDevices.getUserMedia` is `hasMediaDevices`. The engine's own
    rejections of `createOffer`, `createAnswer`, `setLocalDescription`,
    `setRemoteDescription` and `addIceCandidate` are not modelled. */
module PeerSession {
  import opened Wrappers
  import opened ClientTypes
  import opened SignalingChannel

  const StunServers: seq<string> := ["stun:stun.l.google.com:19302", "stun:stun1.l.google.com:19302"]

  const NotInitialized: string := "Peer connection not initialized"
  const NotAvailable: string := "WebRTC is not available. This feature requires a development build or native app."
  const NoMediaDevices: string := "WebRTC mediaDevices not available"
  /** What `JSON.parse` throws on text that is not JSON; only the error's name is kept. */
  const MalformedCandidate: string := "SyntaxError"

  datatype TrackKind = Audio | Video

  datatype SdpType = OfferSdp | AnswerSdp

  datatype SessionDescription = SessionDescription(kind: SdpType, sdp: string)

  /** The options given to `createOffer`/`createAnswer`; `None` for none. */
  datatype OfferOptions = OfferOptions(offerToReceiveAudio: bool, offerToReceiveVideo: bool)

  /** The constraints given to `getUserMedia`. */
  datatype MediaConstraints = MediaConstraints(audio: bool, video: bool)

  /** `JSON.stringify` of a session description. */
  function DescriptionJson(d: SessionDescription): string {
    "{\"type\":\"" + (if d.kind == OfferSdp then "offer" else "answer") + "\",\"sdp\":\"" + JsonEscape(d.sdp) + "\"}"
  }

  function HexDigit(n: nat): char
    requires n < 16
  {
    if n < 10 then '0' + n as char else 'a' + (n - 10) as char
  }

  /** How `JSON.stringify` writes one character inside a string literal. */
  function EscapeChar(c: char): string {
    if c == '"' then "\\\""
    else if c == '\\' then "\\\\"
    else if c == '\n' then "\\n"
    else if c == '\r' then "\\r"
    else if c == '\t' then "\\t"
    else if c == '\U{8}' then "\\b"
    else if c == '\U{C}' then "\\f"
    else if c < ' ' then "\\u00" + [HexDigit(c as nat / 16), HexDigit(c as nat % 16)]
    else [c]
  }

  /** The body of a JSON string literal holding `s`. */
  function JsonEscape(s: string): string {
    if s == [] then [] else EscapeChar(s[0]) + JsonEscape(s[1..])
  }

  /** No character needs quoting inside a JSON string: no control character
      is left raw, and every quote is preceded by a backslash. */
  lemma {:induction false} JsonEscapeSafe(s: string)
    ensures forall i :: 0 <= i < |JsonEscape(s)| ==> JsonEscape(s)[i] >= ' '
    ensures forall i :: 0 <= i < |JsonEscape(s)| && JsonEscape(s)[i] == '"' ==> 0 < i && JsonEscape(s)[i - 1] == '\\'
  {
    if s != [] {
      JsonEscapeSafe(s[1..]);
      var e, rest := EscapeChar(s[0]), JsonEscape(s[1..]);
      assert JsonEscape(s) == e + rest;
      forall i | 0 <= i < |e + rest| && (e + rest)[i] == '"'
        ensures 0 < i && (e + rest)[i - 1] == '\\'
      {
        if i >= |e| {
          assert rest[i - |e|] == '"';
          assert i - |e| > 0;
        }
      }
    }
  }

  class MediaTrack {
    const kind: TrackKind
    var enabled: bool
    var stopped: bool

    constructor (kind: TrackKind)
      ensures this.kind == kind && enabled && !stopped
    {
      this.kind := kind;
      enabled := true;
      stopped := false;
    }
  }

  class MediaStream {
    const tracks: seq<MediaTrack>

    constructor (tracks: seq<MediaTrack>)
      ensures this.tracks == tracks
    {
      this.tracks := tracks;
    }
  }

  class PeerConnection {
    const iceServers: seq<string>
    /** Tracks added with `addTrack`, in order. */
    var senders: seq<MediaTrack>
    var localDescription: Option<SessionDescription>
    var remoteDescription: Option<SessionDescription>
    /** Remote candidates added, as their JSON text. */
    var remoteCandidates: seq<string>
    /** Options of each `createOffer`/`createAnswer` request, in order. */
    var requests: seq<Option<OfferOptions>>
    var closed: bool

    constructor (iceServers: seq<string>)
      ensures this.iceServers == iceServers && senders == [] && !closed
      ensures localDescription.None? && remoteDescription.None?
      ensures remoteCandidates == [] && requests == []
    {
      this.iceServers := iceServers;
      senders := [];
      localDescription := None;
      remoteDescription := None;
      remoteCandidates := [];
      requests := [];
      closed := false;
    }
  }

  /** The tracks of an optional stream. */
  function TracksOf(s: MediaStream?): seq<MediaTrack> {
    if s == null then [] else s.tracks
  }

  class WebRTCService {
    var peerConnection: PeerConnection?
    var localStream: MediaStream?
    var remoteStream: MediaStream?
    var callId: Option<string>
    /** Constraints of each `getUserMedia` request, in order. */
    var mediaRequests: seq<MediaConstraints>
    const available: bool
    const hasMediaDevices: bool
    const signal: WebSocketService

    /** Everything the session may change: itself, its connection and the
        tracks of its streams. */
    ghost function Footprint(): set<object>
      reads this
    {
      {this} + (if peerConnection == null then {} else {peerConnection})
      + (set t | t in TracksOf(localStream)) + (set t | t in TracksOf(remoteStream))
    }

    constructor (available: bool, hasMediaDevices: bool, signal: WebSocketService)
      ensures peerConnection == null && localStream == null && remoteStream == null && callId.None?
      ensures mediaRequests == [] && this.available == available
      ensures this.hasMediaDevices == hasMediaDevices && this.signal == signal
    {
      peerConnection := null;
      localStream := null;
      remoteStream := null;
      callId := None;
      mediaRequests := [];
      this.available := available;
      this.hasMediaDevices := hasMediaDevices;
      this.signal := signal;
    }

    /** A new connection configured with the two STUN servers, for `id`. The
        previous connection, if any, is dropped without being closed. */
    method InitializePeerConnection(id: Option<string>) returns (r: Outcome<string>)
      modifies this
      ensures r == if available then Pass else Fail(NotAvailable)
      ensures available ==>
        (peerConnection != null && fresh(peerConnection)
         && peerConnection.iceServers == StunServers && peerConnection.senders == []
         && peerConnection.localDescription.None? && peerConnection.remoteDescription.None?
         && !peerConnection.closed && callId == id)
      ensures !available ==> peerConnection == old(peerConnection) && callId == old(callId)
      ensures localStream == old(localStream) && remoteStream == old(remoteStream)
      ensures mediaRequests == old(mediaRequests)
    {
      if !available {
        return Fail(NotAvailable);
      }
      peerConnection := new PeerConnection(StunServers);
      callId := id;
      return Pass;
    }

    /** An offer that receives audio and no video, set as the local
        description; `sdp` is what the engine produces. */
    method CreateOffer(sdp: string) returns (r: Result<string, string>)
      modifies peerConnection
      ensures !available ==> r == Err(NotAvailable)
      ensures available && peerConnection == null ==> r == Err(NotInitialized)
      ensures available && peerConnection != null ==>
        var d := SessionDescription(OfferSdp, sdp);
        r == Ok(DescriptionJson(d)) && peerConnection.localDescription == Some(d)
        && peerConnection.requests == old(peerConnection.requests) + [Some(OfferOptions(true, false))]
        && peerConnection.senders == old(peerConnection.senders)
        && peerConnection.remoteDescription == old(peerConnection.remoteDescription)
      ensures !available || peerConnection == null ==> peerConnection == null || unchanged(peerConnection)
    {
      if !available {
        return Err(NotAvailable);
      }
      if peerConnection == null {
        return Err(NotInitialized);
      }
      var offer := SessionDescription(OfferSdp, sdp);
      peerConnection.requests := peerConnection.requests + [Some(OfferOptions(true, false))];
      peerConnection.localDescription := Some(offer);
      return Ok(DescriptionJson(offer));
    }

    method SetRemoteDescription(sdp: string, kind: SdpType) returns (r: Outcome<string>)
      modifies peerConnection
      ensures !available ==> r == Fail(NotAvailable)
      ensures available && peerConnection == null ==> r == Fail(NotInitialized)
      ensures available && peerConnection != null ==>
        r == Pass && peerConnection.remoteDescription == Some(SessionDescription(kind, sdp))
        && peerConnection.localDescription == old(peerConnection.localDescription)
        && peerConnection.senders == old(peerConnection.senders)
        && peerConnection.requests == old(peerConnection.requests)
      ensures !available || peerConnection == null ==> peerConnection == null || unchanged(peerConnection)
    {
      if !available {
        return Fail(NotAvailable);
      }
      if peerConnection == null {
        return Fail(NotInitialized);
      }
      peerConnection.remoteDescription := Some(SessionDescription(kind, sdp));
      return Pass;
    }

    /** An answer, requested without options, set as the local description. */
    method CreateAnswer(sdp: string) returns (r: Result<string, string>)
      modifies peerConnection
      ensures !available ==> r == Err(NotAvailable)
      ensures available && peerConnection == null ==> r == Err(NotInitialized)
      ensures available && peerConnection != null ==>
        var d := SessionDescription(AnswerSdp, sdp);
        r == Ok(DescriptionJson(d)) && peerConnection.localDescription == Some(d)
        && peerConnection.requests == old(peerConnection.requests) + [None]
        && peerConnection.senders == old(peerConnection.senders)
        && peerConnection.remoteDescription == old(peerConnection.remoteDescription)
      ensures !available || peerConnection == null ==> peerConnection == null || unchanged(peerConnection)
    {
      if !available {
        return Err(NotAvailable);
      }
      if peerConnection == null {
        return Err(NotInitialized);
      }
      var answer := SessionDescription(AnswerSdp, sdp);
      peerConnection.requests := peerConnection.requests + [None];
      peerConnection.localDescription := Some(answer);
      return Ok(DescriptionJson(answer));
    }

    /** Adds a candidate received from the other side. `parses` says whether
        `JSON.parse` accepts the candidate text; when it does not, the parse
        throws before the connection is touched. */
    method AddIceCandidate(candidate: string, parses: bool) returns (r: Outcome<string>)
      modifies peerConnection
      ensures !available ==> r == Fail(NotAvailable)
      ensures available && peerConnection == null ==> r == Fail(NotInitialized)
      ensures available && peerConnection != null && !parses ==> r == Fail(MalformedCandidate)
      ensures r.Fail? ==> peerConnection == null || unchanged(peerConnection)
      ensures available && peerConnection != null && parses ==>
        r == Pass && peerConnection.remoteCandidates == old(peerConnection.remoteCandidates) + [candidate]
        && peerConnection.localDescription == old(peerConnection.localDescription)
        && peerConnection.remoteDescription == old(peerConnection.remoteDescription)
        && peerConnection.senders == old(peerConnection.senders)
    {
      if !available {
        return Fail(NotAvailable);
      }
      if peerConnection == null {
        return Fail(NotInitialized);
      }
      if !parses {
        return Fail(MalformedCandidate);
      }
      peerConnection.remoteCandidates := peerConnection.remoteCandidates + [candidate];
      return Pass;
    }

    /** Asks for an audio-only stream; `granted` is what `getUserMedia`
        resolves to (null when it rejects). The stream is kept, and when a
        connection exists each of its tracks is added to it, in order. */
    method GetLocalStream(granted: MediaStream?) returns (r: Result<MediaStream, string>)
      modifies this, peerConnection
      ensures peerConnection == old(peerConnection) && remoteStream == old(remoteStream) && callId == old(callId)
      ensures !available ==> r == Err(NotAvailable) && localStream == old(localStream)
      ensures available && !hasMediaDevices ==> r == Err(NoMediaDevices) && localStream == old(localStream)
      ensures available && hasMediaDevices ==>
        mediaRequests == old(mediaRequests) + [MediaConstraints(true, false)]
      ensures !(available && hasMediaDevices) ==> mediaRequests == old(mediaRequests)
      ensures available && hasMediaDevices && granted == null ==> r.Err? && localStream == old(localStream)
      ensures available && hasMediaDevices && granted != null ==>
        r.Ok? && r.value == granted && localStream == granted
        && (peerConnection != null ==> peerConnection.senders == old(peerConnection.senders) + granted.tracks)
      ensures peerConnection != null ==>
        peerConnection.localDescription == old(peerConnection.localDescription)
        && peerConnection.remoteDescription == old(peerConnection.remoteDescription)
        && peerConnection.closed == old(peerConnection.closed)
      ensures peerConnection != null && !(available && hasMediaDevices && granted != null) ==>
        peerConnection.senders == old(peerConnection.senders)
    {
      if !available {
        return Err(NotAvailable);
      }
      if !hasMediaDevices {
        return Err(NoMediaDevices);
      }
      mediaRequests := mediaRequests + [MediaConstraints(true, false)];
      if granted == null {
        return Err("getUserMedia rejected");
      }
      var stream: MediaStream := granted;
      localStream := stream;
      var pc := peerConnection;
      if pc != null {
        var i := 0;
        while i < |stream.tracks|
          invariant 0 <= i <= |stream.tracks|
          invariant peerConnection == pc && localStream == stream
          invariant remoteStream == old(remoteStream) && callId == old(callId)
          invariant mediaRequests == old(mediaRequests) + [MediaConstraints(true, false)]
          invariant pc.senders == old(pc.senders) + stream.tracks[..i]
          invariant pc.localDescription == old(pc.localDescription)
          invariant pc.remoteDescription == old(pc.remoteDescription)
          invariant pc.closed == old(pc.closed)
        {
          pc.senders := pc.senders + [stream.tracks[i]];
          i := i + 1;
          assert stream.tracks[..i] == stream.tracks[..i - 1] + [stream.tracks[i - 1]];
        }
        assert stream.tracks[..i] == stream.tracks;
      }
      return Ok(stream);
    }

    function GetRemoteStream(): (s: MediaStream?)
      reads this
      ensures s == remoteStream
    {
      remoteStream
    }

    /** Switches every local audio track to `on`; video tracks are left alone. */
    method SetAudioEnabled(on: bool)
      modifies set t | t in TracksOf(localStream)
      ensures forall t :: t in TracksOf(localStream) ==>
        t.enabled == (if t.kind == Audio then on else old(t.enabled))
      ensures forall t :: t in TracksOf(localStream) ==> t.stopped == old(t.stopped)
    {
      if localStream == null {
        return;
      }
      var tracks := localStream.tracks;
      var i := 0;
      while i < |tracks|
        invariant 0 <= i <= |tracks|
        invariant forall t :: t in tracks[..i] ==> t.enabled == (if t.kind == Audio then on else old(t.enabled))
        invariant forall t :: t in tracks && t !in tracks[..i] ==> t.enabled == old(t.enabled)
        invariant forall t :: t in tracks ==> t.stopped == old(t.stopped)
      {
        if tracks[i].kind == Audio {
          tracks[i].enabled := on;
        }
        assert tracks[..i + 1] == tracks[..i] + [tracks[i]];
        i := i + 1;
      }
      assert tracks[..i] == tracks;
    }

    method MuteAudio()
      modifies set t | t in TracksOf(localStream)
      ensures forall t :: t in TracksOf(localStream) ==> t.enabled == (t.kind != Audio && old(t.enabled))
      ensures forall t :: t in TracksOf(localStream) ==> t.stopped == old(t.stopped)
    {
      SetAudioEnabled(false);
    }

    method UnmuteAudio()
      modifies set t | t in TracksOf(localStream)
      ensures forall t :: t in TracksOf(localStream) ==> t.enabled == (t.kind == Audio || old(t.enabled))
      ensures forall t :: t in TracksOf(localStream) ==> t.stopped == old(t.stopped)
    {
      SetAudioEnabled(true);
    }

    /** Stops every listed track. */
    static method StopAll(tracks: seq<MediaTrack>)
      modifies set t | t in tracks
      ensures forall t :: t in tracks ==> t.stopped && t.enabled == old(t.enabled)
    {
      var i := 0;
      while i < |tracks|
        invariant 0 <= i <= |tracks|
        invariant forall t :: t in tracks[..i] ==> t.stopped
        invariant forall t :: t in tracks ==> t.enabled == old(t.enabled)
      {
        tracks[i].stopped := true;
        assert tracks[..i + 1] == tracks[..i] + [tracks[i]];
        i := i + 1;
      }
      assert tracks[..i] == tracks;
    }

    /** Stops every local and remote track, closes the connection and forgets
        all four fields. Calling it again, or before anything was set up,
        does no harm. */
    method Cleanup()
      modifies Footprint()
      ensures peerConnection == null && localStream == null && remoteStream == null && callId.None?
      ensures forall t :: t in TracksOf(old(localStream)) || t in TracksOf(old(remoteStream)) ==> t.stopped
      ensures old(peerConnection) != null ==> old(peerConnection).closed
      ensures mediaRequests == old(mediaRequests)
    {
      if localStream != null {
        StopAll(localStream.tracks);
        localStream := null;
      }
      if remoteStream != null {
        StopAll(remoteStream.tracks);
        remoteStream := null;
      }
      if peerConnection != null {
        peerConnection.closed := true;
        peerConnection := null;
      }
      callId := None;
    }

    /** The connection discovered a local candidate (`None` marks the end of
        gathering); it is forwarded, tagged with the call id, when both exist. */
    method OnIceCandidate(candidate: Option<string>)
      requires signal.Valid()
      modifies signal
      ensures signal.Valid()
      ensures signal.transmitted ==
        if candidate.Some? && Truthy(callId) && old(signal.socket) == Some(Open)
        then old(signal.transmitted) + [ToWire(IceCandidate(callId, candidate.value))]
        else old(signal.transmitted)
      ensures signal.socket == old(signal.socket) && signal.scheduled == old(signal.scheduled)
    {
      if candidate.Some? && Truthy(callId) {
        signal.Send(IceCandidate(callId, candidate.value));
      }
    }

    /** A remote track arrived with the streams it belongs to. */
    method OnTrack(streams: seq<MediaStream>)
      modifies this
      ensures remoteStream == if |streams| > 0 then streams[0] else old(remoteStream)
      ensures peerConnection == old(peerConnection) && localStream == old(localStream) && callId == old(callId)
      ensures mediaRequests == old(mediaRequests)
    {
      if |streams| > 0 {
        remoteStream := streams[0];
      }
    }

    /** The connection changed state; a failed connection is torn down. */
    method OnConnectionStateChange(state: string)
      modifies Footprint()
      ensures old(peerConnection) != null && state == "failed" ==>
        peerConnection == null && localStream == null && remoteStream == null && callId.None?
        && (forall t :: t in TracksOf(old(localStream)) || t in TracksOf(old(remoteStream)) ==> t.stopped)
        && old(peerConnection).closed
      ensures old(peerConnection) == null || state != "failed" ==> unchanged(old(Footprint()))
      ensures mediaRequests == old(mediaRequests)
    {
      if peerConnection != null && state == "failed" {
        Cleanup();
      }
    }
  }
}
