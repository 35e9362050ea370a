/** The audio-focus policy of AudioFocusSessionDelegate as pure transitions on a value
    of its state. Each handler yields the new state together with the calls it makes,
    in order, to the focus service (request / abandon) and to the media session
    (pause / play). */
module FocusPolicy {
  import opened GeckoMedia

  datatype Option<T> = None | Some(value: T)

  // Result codes of AudioManager.requestAudioFocus.
  const RequestFailed: int := 0
  const RequestGranted: int := 1
  const RequestDelayed: int := 2

  // Focus-change codes delivered to AudioManager.OnAudioFocusChangeListener.
  const FocusGain: int := 1
  const FocusLoss: int := -1
  const FocusLossTransient: int := -2
  const FocusLossTransientCanDuck: int := -3

  // Attribute values of AudioAttributesCompat.
  const UsageMedia: int := 1
  const ContentTypeMusic: int := 2

  /** How the delegate reads the result code of a focus request. */
  datatype RequestResult = Granted | Delayed | OtherResult(code: int)

  function RequestResultOf(code: int): (r: RequestResult)
    ensures r == Granted <==> code == RequestGranted
    ensures r == Delayed <==> code == RequestDelayed
    ensures r.OtherResult? ==> r.code == code
  {
    if code == RequestGranted then Granted
    else if code == RequestDelayed then Delayed
    else OtherResult(code)
  }

  /** How the delegate reads a focus-change code. */
  datatype FocusChange = Gain | Loss | LossTransient | LossTransientCanDuck | Unknown(code: int)

  function FocusChangeOf(code: int): (c: FocusChange)
    ensures c == Gain <==> code == FocusGain
    ensures c == Loss <==> code == FocusLoss
    ensures c == LossTransient <==> code == FocusLossTransient
    ensures c == LossTransientCanDuck <==> code == FocusLossTransientCanDuck
    ensures c.Unknown? ==> c.code == code
  {
    if code == FocusGain then Gain
    else if code == FocusLoss then Loss
    else if code == FocusLossTransient then LossTransient
    else if code == FocusLossTransientCanDuck then LossTransientCanDuck
    else Unknown(code)
  }

  /** The focus-request descriptor: the gain asked for, the audio attributes, and whether
      the app pauses itself when the platform ducks it (false: it accepts being ducked and
      keeps playing at lower volume). Its listener is always the delegate that built it. */
  datatype FocusRequest = FocusRequest(focusGain: int, usage: int, contentType: int, willPauseWhenDucked: bool)

  /** The one descriptor the delegate builds: full gain, media usage, music content,
      and no pause when ducked (`willPauseWhenDucked` false). */
  const SessionFocusRequest := FocusRequest(FocusGain, UsageMedia, ContentTypeMusic, false)

  /** A call the delegate makes to the outside world. */
  datatype Effect =
    | RequestFocus(request: FocusRequest)
    | AbandonFocus(request: FocusRequest)
    | PauseCall(session: MediaSession)
    | PlayCall(session: MediaSession)

  /** The delegate's fields. `weakSession` is what its weak reference holds; whether that
      session is still active is not part of the delegate and is passed to each handler. */
  datatype State = State(
    shouldAllowAudioFocus: bool,
    weakSession: Option<MediaSession>,
    resumeOnFocusGain: bool,
    playbackDelayed: bool,
    focusRequest: Option<FocusRequest>)

  const Initial := State(false, None, false, false, None)

  /** The state after a handler and the calls it made, in order. */
  datatype Outcome = Outcome(state: State, effects: seq<Effect>)

  /** The descriptor is built at most once, and only ever as SessionFocusRequest. */
  predicate DescriptorBuiltOnce(st: State)
  {
    st.focusRequest == None || st.focusRequest == Some(SessionFocusRequest)
  }

  /** The `mediaSession` getter: the held session, but only while it is still active. */
  function MediaSessionOf(st: State, active: bool): (r: Option<MediaSession>)
    ensures r.Some? <==> st.weakSession.Some? && active
    ensures r.Some? ==> r == st.weakSession
  {
    if active then st.weakSession else None
  }

  /** The lazy `focusRequest`: the stored descriptor, built and stored on first use. */
  function FocusRequestOf(st: State): (r: (State, FocusRequest))
    ensures r.0 == st.(focusRequest := Some(r.1))
    ensures st.focusRequest.Some? ==> r.1 == st.focusRequest.value
    ensures st.focusRequest.None? ==> r.1 == SessionFocusRequest
  {
    match st.focusRequest
    case Some(request) => (st, request)
    case None => (st.(focusRequest := Some(SessionFocusRequest)), SessionFocusRequest)
  }

  /** `mediaSession?.pause()`: one pause call if a session is reachable, none otherwise. */
  function PauseCalls(target: Option<MediaSession>): seq<Effect>
  {
    match target
    case Some(s) => [PauseCall(s)]
    case None => []
  }

  /** `mediaSession?.play()`. */
  function PlayCalls(target: Option<MediaSession>): seq<Effect>
  {
    match target
    case Some(s) => [PlayCall(s)]
    case None => []
  }

  /** The private helper `pause(temporary)`. */
  function Pause(st: State, temporary: bool, active: bool): Outcome
  {
    Outcome(st.(resumeOnFocusGain := temporary), PauseCalls(MediaSessionOf(st, active)))
  }

  /** The private helper `play(delayed)`: a delayed play is a pause for now. */
  function Play(st: State, delayed: bool, active: bool): Outcome
  {
    var marked := st.(playbackDelayed := delayed);
    if delayed then Pause(marked, false, active)
    else Outcome(marked, PlayCalls(MediaSessionOf(marked, active)))
  }

  /** The private helper `reset()`. */
  function Reset(st: State): State
  {
    st.(resumeOnFocusGain := false, playbackDelayed := false)
  }

  /** `onPlay`: `active` tells whether `session` is active. Bypassed entirely when the
      policy switch is off; otherwise the session is remembered, the flags are cleared,
      focus is requested, and the result decides between nothing (granted), a delayed
      play (a pause now, a play on regain) and a plain pause (anything else). */
  function OnPlay(st: State, session: MediaSession, requestResult: int, active: bool): (o: Outcome)
    ensures !st.shouldAllowAudioFocus ==> o == Outcome(st, [])
    ensures st.shouldAllowAudioFocus ==>
      && o.state.shouldAllowAudioFocus
      && o.state.weakSession == Some(session)
      && o.state.focusRequest.Some?
      && (st.focusRequest.Some? ==> o.state.focusRequest == st.focusRequest)
      && !o.state.resumeOnFocusGain
      && (o.state.playbackDelayed <==> requestResult == RequestDelayed)
      && |o.effects| >= 1
      && o.effects[0] == RequestFocus(o.state.focusRequest.value)
      && o.effects[1..] == (if requestResult == RequestGranted || !active then [] else [PauseCall(session)])
  {
    if !st.shouldAllowAudioFocus then Outcome(st, [])
    else
      var held := Reset(st.(weakSession := Some(session)));
      var (requested, request) := FocusRequestOf(held);
      var after :=
        match RequestResultOf(requestResult)
        case Granted => Outcome(requested, [])
        case Delayed => Play(requested, true, active)
        case OtherResult(_) => Pause(requested, false, active);
      Outcome(after.state, [RequestFocus(request)] + after.effects)
  }

  /** `onStop`: give the focus back with the same descriptor and clear both flags,
      whatever the policy switch says; the session is neither paused nor played. */
  function OnStop(st: State): (o: Outcome)
    ensures o.state.focusRequest.Some?
    ensures st.focusRequest.Some? ==> o.state.focusRequest == st.focusRequest
    ensures o.state == State(st.shouldAllowAudioFocus, st.weakSession, false, false, o.state.focusRequest)
    ensures o.effects == [AbandonFocus(o.state.focusRequest.value)]
  {
    var (requested, request) := FocusRequestOf(st);
    Outcome(Reset(requested), [AbandonFocus(request)])
  }

  /** `onAudioFocusChange`: `active` tells whether the held session is still active. */
  function OnAudioFocusChange(st: State, focusChange: int, active: bool): (o: Outcome)
    // only the two flags ever change
    ensures o.state == st.(resumeOnFocusGain := o.state.resumeOnFocusGain, playbackDelayed := o.state.playbackDelayed)
    // gain: play exactly when something was waiting; the delay is over, the resume flag stays
    ensures focusChange == FocusGain ==>
      && !o.state.playbackDelayed
      && o.state.resumeOnFocusGain == st.resumeOnFocusGain
      && o.effects == (if st.playbackDelayed || st.resumeOnFocusGain then PlayCalls(MediaSessionOf(st, active)) else [])
    ensures focusChange == FocusGain && !st.playbackDelayed && !st.resumeOnFocusGain ==> o == Outcome(st, [])
    // permanent loss: pause, no resume on regain, the delay flag untouched
    ensures focusChange == FocusLoss ==>
      && !o.state.resumeOnFocusGain
      && o.state.playbackDelayed == st.playbackDelayed
      && o.effects == PauseCalls(MediaSessionOf(st, active))
    // transient loss, duckable or not: pause and resume on regain
    ensures focusChange == FocusLossTransient || focusChange == FocusLossTransientCanDuck ==>
      && o.state.resumeOnFocusGain
      && o.state.playbackDelayed == st.playbackDelayed
      && o.effects == PauseCalls(MediaSessionOf(st, active))
    // any other code: nothing
    ensures focusChange !in {FocusGain, FocusLoss, FocusLossTransient, FocusLossTransientCanDuck} ==>
      o == Outcome(st, [])
  {
    match FocusChangeOf(focusChange)
    case Gain => if st.playbackDelayed || st.resumeOnFocusGain then Play(st, false, active) else Outcome(st, [])
    case Loss => Pause(st, false, active)
    case LossTransient => Pause(st, true, active)
    case LossTransientCanDuck => Pause(st, true, active)
    case Unknown(_) => Outcome(st, [])
  }
}
