/** AudioFocusSessionDelegate: the object that sits between a GeckoView media session and
    Android's audio-focus service. Its handlers update its fields in place and call the
    session's pause/play; every handler is specified by the pure transition of FocusPolicy
    on the abstract value of its fields, and `trace` records the calls it makes. */
module Gecko {
  import opened GeckoMedia
  import FocusPolicy

  /** A nullable reference as an optional session. */
  function Held(session: MediaSession?): (r: FocusPolicy.Option<MediaSession>)
    ensures r.Some? <==> session != null
    ensures r.Some? ==> r.value == session
  {
    if session == null then FocusPolicy.None
    else var s: MediaSession := session; FocusPolicy.Some(s)
  }

  class AudioFocusSessionDelegate {
    var shouldAllowAudioFocus: bool
    /** The referent of the weak reference; a collected session reads as an inactive one. */
    var weakSession: MediaSession?
    var resumeOnFocusGain: bool
    var playbackDelayed: bool
    /** The lazily built focus-request descriptor. */
    var focusRequest: FocusPolicy.Option<FocusPolicy.FocusRequest>
    /** Every call made to the focus service and to the session, in order. */
    ghost var trace: seq<FocusPolicy.Effect>

    ghost function Model(): FocusPolicy.State
      reads this
    {
      FocusPolicy.State(shouldAllowAudioFocus, Held(weakSession), resumeOnFocusGain, playbackDelayed, focusRequest)
    }

    /** Whether the held session is still there and active. */
    ghost predicate HeldSessionActive()
      reads this, weakSession
    {
      weakSession != null && weakSession.isActive
    }

    /** The object invariant: the descriptor is built at most once, as the session descriptor. */
    ghost predicate Valid()
      reads this
    {
      FocusPolicy.DescriptorBuiltOnce(Model())
    }

    constructor ()
      ensures Valid()
      ensures Model() == FocusPolicy.Initial && trace == []
    {
      shouldAllowAudioFocus := false;
      weakSession := null;
      resumeOnFocusGain, playbackDelayed := false, false;
      focusRequest := FocusPolicy.None;
      trace := [];
    }

    /** The `mediaSession` getter: the held session while it is active, null otherwise. */
    function GetMediaSession(): (r: MediaSession?)
      reads this, weakSession
      ensures r != null <==> weakSession != null && weakSession.isActive
      ensures r != null ==> r == weakSession
      ensures Held(r) == FocusPolicy.MediaSessionOf(Model(), HeldSessionActive())
    {
      if weakSession != null && weakSession.isActive then weakSession else null
    }

    /** The `mediaSession` setter: a new weak reference to `value`. */
    method SetMediaSession(value: MediaSession?)
      modifies this`weakSession
      ensures Model() == old(Model()).(weakSession := Held(value))
    {
      weakSession := value;
    }

    /** The lazy `focusRequest` property. */
    method GetFocusRequest() returns (request: FocusPolicy.FocusRequest)
      modifies this`focusRequest
      ensures (Model(), request) == FocusPolicy.FocusRequestOf(old(Model()))
    {
      if focusRequest.None? {
        focusRequest := FocusPolicy.Some(FocusPolicy.SessionFocusRequest);
      }
      request := focusRequest.value;
    }

    method Pause(temporary: bool := false)
      modifies this`resumeOnFocusGain, this`trace
      ensures var o := FocusPolicy.Pause(old(Model()), temporary, HeldSessionActive());
        Model() == o.state && trace == old(trace) + o.effects
    {
      resumeOnFocusGain := temporary;
      var session := GetMediaSession();
      if session != null {
        trace := trace + [FocusPolicy.PauseCall(session)];
      }
    }

    method Play(delayed: bool := false)
      modifies this`playbackDelayed, this`resumeOnFocusGain, this`trace
      ensures var o := FocusPolicy.Play(old(Model()), delayed, HeldSessionActive());
        Model() == o.state && trace == old(trace) + o.effects
    {
      playbackDelayed := delayed;
      if delayed {
        // a pause for now; the gain notification will start playback
        Pause();
      } else {
        var session := GetMediaSession();
        if session != null {
          trace := trace + [FocusPolicy.PlayCall(session)];
        }
      }
    }

    method Reset()
      modifies this`resumeOnFocusGain, this`playbackDelayed
      ensures Model() == FocusPolicy.Reset(old(Model()))
    {
      resumeOnFocusGain := false;
      playbackDelayed := false;
    }

    /** `onPlay`; `requestResult` is the code the focus service answers the request with. */
    method OnPlay(mediaSession: MediaSession, requestResult: int)
      requires Valid()
      modifies this
      ensures Valid()
      ensures var o := FocusPolicy.OnPlay(old(Model()), mediaSession, requestResult, mediaSession.isActive);
        Model() == o.state && trace == old(trace) + o.effects
    {
      if !shouldAllowAudioFocus {
        return;
      }
      SetMediaSession(mediaSession);
      Reset();
      var request := GetFocusRequest();
      trace := trace + [FocusPolicy.RequestFocus(request)];
      match FocusPolicy.RequestResultOf(requestResult)
      case Granted =>
        return;
      case Delayed =>
        Play(delayed := true);
      case OtherResult(_) =>
        Pause();
    }

    /** `onStop`: the session it is given plays no part. */
    method OnStop(mediaSession: MediaSession)
      requires Valid()
      modifies this
      ensures Valid()
      ensures var o := FocusPolicy.OnStop(old(Model()));
        Model() == o.state && trace == old(trace) + o.effects
    {
      var request := GetFocusRequest();
      trace := trace + [FocusPolicy.AbandonFocus(request)];
      Reset();
    }

    method OnAudioFocusChange(focusChange: int)
      requires Valid()
      modifies this
      ensures Valid()
      ensures var o := FocusPolicy.OnAudioFocusChange(old(Model()), focusChange, HeldSessionActive());
        Model() == o.state && trace == old(trace) + o.effects
    {
      match FocusPolicy.FocusChangeOf(focusChange)
      case Gain =>
        if playbackDelayed || resumeOnFocusGain {
          Play();
        }
      case Loss =>
        Pause();
      case LossTransient =>
        Pause(temporary := true);
      case LossTransientCanDuck =>
        Pause(temporary := true);
      case Unknown(_) =>
    }
  }

  /** A delegate driven through a delayed grant, a transient loss, a gain and a permanent loss
      while its session stays active; then a second transient loss arms the resume flag, the
      session goes inactive, and the gain that would otherwise play it is skipped, while the
      resume flag stays armed. */
  method DelayedPlaybackScenario() returns (session: MediaSession, resumeArmed: bool, ghost calls: seq<FocusPolicy.Effect>)
    ensures calls == [FocusPolicy.RequestFocus(FocusPolicy.SessionFocusRequest), FocusPolicy.PauseCall(session),
                      FocusPolicy.PauseCall(session), FocusPolicy.PlayCall(session), FocusPolicy.PauseCall(session),
                      FocusPolicy.PauseCall(session)]
    ensures resumeArmed
  {
    var delegate := new AudioFocusSessionDelegate();
    delegate.shouldAllowAudioFocus := true;
    session := new MediaSession(true);
    delegate.OnPlay(session, FocusPolicy.RequestDelayed);
    delegate.OnAudioFocusChange(FocusPolicy.FocusLossTransient);
    delegate.OnAudioFocusChange(FocusPolicy.FocusGain);
    delegate.OnAudioFocusChange(FocusPolicy.FocusLoss);
    delegate.OnAudioFocusChange(FocusPolicy.FocusLossTransient);
    session.isActive := false;
    delegate.OnAudioFocusChange(FocusPolicy.FocusGain);
    calls := delegate.trace;
    resumeArmed := delegate.resumeOnFocusGain;
  }
}
