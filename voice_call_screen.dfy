/** The call screen (road-trip-app/app/screens/VoiceCallScreen.tsx): what it
    shows for the store's call state, the duration text, and the buttons'
    handlers. Navigation is a counter of `goBack` calls. */
module VoiceCallScreen {
  import opened Wrappers
  import opened Text
  import opened ClientTypes
  import opened AppStore
  import opened PeerSession
  import opened SignalingChannel
  import opened VoiceCallClient

  const CallingTitle: string := "Calling..."
  const IncomingTitle: string := "Incoming Call"

  /** JavaScript's `%`: the remainder takes the sign of the dividend. */
  function JsRem(a: int, b: int): (r: int)
    requires b > 0
    ensures a >= 0 ==> 0 <= r < b && r == a % b
    ensures a < 0 ==> -b < r <= 0
  {
    if a >= 0 then a % b else -((-a) % b)
  }

  /** `formatDuration`: whole minutes (floored), a colon, then the seconds
      remainder padded to two characters with `'0'`. */
  function FormatDuration(seconds: int): (r: string)
    ensures seconds >= 0 ==> |r| >= 4 && r[|r| - 3] == ':' && AllDigits(r[..|r| - 3]) && AllDigits(r[|r| - 2..])
  {
    var mins := seconds / 60;
    var secs := JsRem(seconds, 60);
    assert seconds >= 0 ==> mins >= 0 && |NatToString(secs)| <= 2 by {
      if seconds >= 0 && secs >= 10 {
        assert NatToString(secs) == NatToString(secs / 10) + [DigitChar(secs % 10)];
      }
    }
    IntToString(mins) + ":" + PadStart(IntToString(secs), 2, '0')
  }

  /** Reading a displayed duration back: digits, a colon, two digits. */
  function ParseDuration(t: string): (r: Option<nat>)
    ensures r.Some? ==> |t| >= 4 && t[|t| - 3] == ':'
  {
    if |t| >= 4 && t[|t| - 3] == ':' && AllDigits(t[..|t| - 3]) && AllDigits(t[|t| - 2..])
    then Some(DigitsValue(t[..|t| - 3]) * 60 + DigitsValue(t[|t| - 2..]))
    else None
  }

  lemma TwoDigitValue(n: nat)
    requires n < 60
    ensures var p := PadStart(NatToString(n), 2, '0'); |p| == 2 && AllDigits(p) && DigitsValue(p) == n
  {
    NatToStringValue(n);
    var d := NatToString(n);
    if n >= 10 {
      assert d == NatToString(n / 10) + [DigitChar(n % 10)];
    } else {
      var p := PadStart(d, 2, '0');
      assert p == ['0'] + d;
      assert p[..1] == ['0'];
    }
  }

  lemma FormatDurationShape(seconds: nat)
    ensures FormatDuration(seconds) == NatToString(seconds / 60) + ":" + PadStart(NatToString(seconds % 60), 2, '0')
  {
  }

  lemma ParseDurationParts(m: string, p: string)
    requires |m| >= 1 && AllDigits(m) && |p| == 2 && AllDigits(p)
    ensures ParseDuration(m + ":" + p) == Some(DigitsValue(m) * 60 + DigitsValue(p))
  {
    var t := m + ":" + p;
    assert t[..|t| - 3] == m;
    assert t[|t| - 2..] == p;
  }

  /** The displayed text of a non-negative duration reads back as that
      duration: the minutes are not padded or capped, the seconds are two
      digits below 60. */
  lemma FormatDurationRoundTrip(seconds: nat)
    ensures ParseDuration(FormatDuration(seconds)) == Some(seconds)
  {
    var mins := seconds / 60;
    var secs := seconds % 60;
    var m, p := NatToString(mins), PadStart(NatToString(secs), 2, '0');
    TwoDigitValue(secs);
    NatToStringValue(mins);
    assert DigitsValue(m) * 60 + DigitsValue(p) == seconds;
    ParseDurationParts(m, p);
    assert ParseDuration(m + ":" + p) == Some(seconds);
    FormatDurationShape(seconds);
    assert FormatDuration(seconds) == m + ":" + p;
  }

  lemma FormatDurationExamples()
    ensures FormatDuration(65) == "1:05"
    ensures FormatDuration(0) == "0:00"
    ensures FormatDuration(600) == "10:00"
  {
    assert NatToString(10) == NatToString(1) + [DigitChar(0)];
  }

  /** `call.initiator_id === user?.id`; two absent ids are equal too. */
  predicate IsInitiator(call: VoiceCall, user: Option<User>)
    ensures user.Some? ==> (IsInitiator(call, user) <==> call.initiatorId == Some(user.value.id))
    ensures user.None? ==> (IsInitiator(call, user) <==> call.initiatorId.None?)
  {
    call.initiatorId == if user.Some? then Some(user.value.id) else None
  }

  /** What the screen renders for a call. */
  datatype CallView = CallView(
    title: string,
    duration: Option<string>,
    acceptReject: bool,
    muteEnd: bool,
    muteLabel: string)

  /** `null` when there is no call state or no call in it. */
  function Render(cs: Option<CallState>, user: Option<User>, muted: bool): (v: Option<CallView>)
    ensures v.Some? <==> cs.Some? && cs.value.call.Some?
    ensures v.Some? ==>
      (v.value.title == CallingTitle <==> IsInitiator(cs.value.call.value, user))
      && (v.value.title == IncomingTitle <==> !IsInitiator(cs.value.call.value, user))
      && (v.value.acceptReject <==> cs.value.isIncoming && !cs.value.isActive)
      && (v.value.muteEnd <==> cs.value.isActive)
      && (v.value.duration.Some? <==> cs.value.isActive)
      && (v.value.duration.Some? ==> v.value.duration.value == FormatDuration(cs.value.callDuration))
  {
    if cs.None? || cs.value.call.None? then None
    else
      var c := cs.value;
      Some(CallView(
        if IsInitiator(c.call.value, user) then CallingTitle else IncomingTitle,
        if c.isActive then Some(FormatDuration(c.callDuration)) else None,
        c.isIncoming && !c.isActive,
        c.isActive,
        if muted then "Unmute" else "Mute"))
  }

  /** The effect hook: the screen leaves when the call state is cleared. */
  predicate NavigatesBack(cs: Option<CallState>) {
    cs.None?
  }

  /** Accept/Reject and Mute/End are never offered together. */
  lemma ButtonsExclusive(cs: Option<CallState>, user: Option<User>, muted: bool)
    ensures var v := Render(cs, user, muted); v.Some? ==> !(v.value.acceptReject && v.value.muteEnd)
  {
  }

  /** After an incoming call arrives the screen offers Accept/Reject and no
      timer; after accepting it shows the timer with Mute/End. */
  lemma IncomingThenAcceptedScreens(s: AppState, call: VoiceCall, user: Option<User>, muted: bool)
    ensures var v := Render(SetIncomingCall(s, call).callState, user, muted);
      v.Some? && v.value.acceptReject && !v.value.muteEnd && v.value.duration.None?
    ensures var v := Render(SetCallAccepted(SetIncomingCall(s, call), call).callState, user, muted);
      v.Some? && !v.value.acceptReject && v.value.muteEnd && v.value.duration == Some("0:00")
  {
    FormatDurationExamples();
  }

  /** Rejecting or ending a call makes the screen render nothing and leave. */
  lemma ClearedCallLeaves(s: AppState, user: Option<User>, muted: bool)
    ensures Render(SetCallRejected(s).callState, user, muted).None? && NavigatesBack(SetCallRejected(s).callState)
    ensures Render(AppStore.EndCall(s).callState, user, muted).None? && NavigatesBack(AppStore.EndCall(s).callState)
  {
  }

  class VoiceCallScreenState {
    var muted: bool
    /** How many times the screen called `navigation.goBack()`. */
    var wentBack: nat
    const calls: VoiceCallService

    constructor (calls: VoiceCallService)
      ensures this.calls == calls && !muted && wentBack == 0
    {
      this.calls := calls;
      muted := false;
      wentBack := 0;
    }

    /** Unmutes when muted, mutes otherwise, then flips `muted`. */
    method HandleMute()
      modifies this, set t | t in TracksOf(calls.rtc.localStream)
      ensures muted == !old(muted) && wentBack == old(wentBack)
      ensures forall t :: t in TracksOf(calls.rtc.localStream) ==>
        t.enabled == if old(muted) then t.kind == Audio || old(t.enabled) else t.kind != Audio && old(t.enabled)
    {
      if muted {
        calls.Unmute();
      } else {
        calls.Mute();
      }
      muted := !muted;
    }

    /** Rejects and leaves the screen, whatever the rejection did. */
    method HandleReject(call: VoiceCall)
      requires calls.ws.Valid()
      modifies this, calls, calls.ws, calls.store
      ensures calls.ws.Valid()
      ensures wentBack == old(wentBack) + 1 && muted == old(muted)
      ensures old(LoggedInUser(calls.store.state)).Some? ==> calls.store.state == SetCallRejected(old(calls.store.state))
      ensures old(LoggedInUser(calls.store.state)).None? ==> calls.store.state == old(calls.store.state)
    {
      calls.RejectCall(call);
      wentBack := wentBack + 1;
    }

    /** Ends the call and leaves the screen only when ending succeeded. */
    method HandleEnd(call: VoiceCall)
      requires calls.ws.Valid()
      modifies this, calls, calls.ws, calls.store, calls.rtc.Footprint()
      ensures calls.ws.Valid()
      ensures muted == old(muted)
      ensures wentBack == old(wentBack) + if old(LoggedInUser(calls.store.state)).Some? then 1 else 0
      ensures old(LoggedInUser(calls.store.state)).Some? ==> calls.store.state == AppStore.EndCall(old(calls.store.state))
    {
      var r := calls.EndCall(call);
      if r.Pass? {
        wentBack := wentBack + 1;
      }
    }
  }
}
