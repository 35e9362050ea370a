# Audio-focus arbitration of Firefox Focus's GeckoView media sessions

`AudioFocusSessionDelegate` (Kotlin, package `org.mozilla.focus.gecko`) stands between a
GeckoView `MediaSession` and Android's audio-focus service. When a page starts playing,
`onPlay` asks the platform for audio focus. The answer decides between letting playback run
(granted), pausing until focus arrives (delayed) and pausing with no resume on regain (anything else).
`onStop` gives the focus back. `onAudioFocusChange` reacts to the platform's notifications:
it resumes on gain, pauses on permanent loss, and pauses with resume-on-gain on transient loss.

The model has four files:

- `media_session.dfy` (`GeckoMedia`): the media session, an outside object with a liveness flag.
- `focus_policy.dfy` (`FocusPolicy`): the delegate's fields as a value, Android's result and
  focus-change codes, and each handler as a pure transition. A transition yields the new fields
  and the calls made, in order: request or abandon of focus, and pause or play of the session.
  The per-handler properties are the `ensures` of these functions.
- `focus_runs.dfy` (`FocusRuns`): sequences of calls into the delegate. It holds inductive
  lemmas about every run (counting, a single descriptor) and the multi-step scenarios.
- `audio_focus_session_delegate.dfy` (`Gecko`): the class itself. Its fields are updated in
  place by methods that mirror the Kotlin ones. Each method's `ensures` equates the new fields
  and the extended call trace with the pure transition of the old fields. The helpers
  `FocusPolicy.Pause`, `FocusPolicy.Play`, `FocusPolicy.Reset` and the getter
  `FocusPolicy.MediaSessionOf` are the closed forms those contracts rest on, so the class
  rows below are only as strong as these functions. The object invariant `Valid()` carries
  "one descriptor, built once" through every handler of the class.

Inputs from the outside world are parameters:

- the code returned by `AudioManagerCompat.requestAudioFocus` is the `requestResult` of `OnPlay`;
- the focus-change code is the argument of `OnAudioFocusChange`;
- the liveness of the session is the session's `isActive` field in the class, and the
  `active` / `sessionActive` argument in the pure model. The environment may change it
  between any two calls.

Android's constant values are used: request failed 0, granted 1, delayed 2; focus gain 1,
loss -1, transient loss -2, transient loss that may duck -3.

Three details of the code that are easy to misread:

- a delayed request leaves `resumeOnFocusGain` false and only `playbackDelayed` set. The
  delayed branch's `play(delayed = true)` calls `pause()` with `temporary = false`.
- `onPlay` with the policy switch off returns before resetting anything. The flags are
  therefore not reset at the start of every play intent.
- nothing stops a focus change that arrives after `onStop` from setting a flag again. The
  flags are clear right after a stop (`StopAfterAnythingIsIdle`), not for good.

## Model

| member | source | states |
|---|---|---|
| FocusPolicy.RequestResultOf | app/src/main/java/org/mozilla/focus/gecko/AudioFocusSessionDelegate.kt:69-72 | the request result is read as granted exactly for code 1, as delayed exactly for code 2, and as "anything else", keeping its code, otherwise |
| FocusPolicy.FocusChangeOf | app/src/main/java/org/mozilla/focus/gecko/AudioFocusSessionDelegate.kt:87-92 | each of gain, loss, transient loss and duckable transient loss is recognised exactly for its own code; every other code is unknown |
| FocusPolicy.MediaSessionOf | app/src/main/java/org/mozilla/focus/gecko/AudioFocusSessionDelegate.kt:20-21 | the getter yields a session exactly when one is held and it is still active, and then it is the held one |
| FocusPolicy.FocusRequestOf | app/src/main/java/org/mozilla/focus/gecko/AudioFocusSessionDelegate.kt:29-40 | the descriptor is built on first use as media usage, music content, full gain, and does not pause when ducked (`willPauseWhenDucked` false); once stored it is returned unchanged and stays stored |
| FocusPolicy.OnPlay | app/src/main/java/org/mozilla/focus/gecko/AudioFocusSessionDelegate.kt:62-75 | with the switch off nothing changes and no call is made, not even the session swap; otherwise the session is stored and one request with the stored descriptor is made. Then granted: both flags false, no pause or play. Delayed: `playbackDelayed` true, `resumeOnFocusGain` false, one pause if the session is active. Any other result: both flags false, one pause if active |
| FocusPolicy.OnStop | app/src/main/java/org/mozilla/focus/gecko/AudioFocusSessionDelegate.kt:77-83 | whatever the switch and the flags, exactly one abandon with the same descriptor an earlier request used, both flags cleared, no pause or play, the held session and the switch untouched |
| FocusPolicy.OnAudioFocusChange | app/src/main/java/org/mozilla/focus/gecko/AudioFocusSessionDelegate.kt:85-94 | only the flags change. Gain plays exactly when `playbackDelayed` or `resumeOnFocusGain` was set and a session is active; afterwards `playbackDelayed` is false and `resumeOnFocusGain` unchanged, and with neither flag set gain changes nothing. Loss pauses, clears `resumeOnFocusGain` and keeps `playbackDelayed`. Both transient losses pause and set `resumeOnFocusGain`. Any other code changes nothing |
| FocusRuns.Step | app/src/main/java/org/mozilla/focus/gecko/AudioFocusSessionDelegate.kt:62-94 | one handler call makes at most two outside calls |
| FocusRuns.Run | app/src/main/java/org/mozilla/focus/gecko/AudioFocusSessionDelegate.kt:62-94 | a sequence of handler calls, each atomic, makes at most two outside calls per handler call |
| FocusRuns.RunAppend | app/src/main/java/org/mozilla/focus/gecko/AudioFocusSessionDelegate.kt:67-93 | because each handler is one atomic step, running two batches of calls in turn equals running them as one batch |
| FocusRuns.PlayIntentCounts | app/src/main/java/org/mozilla/focus/gecko/AudioFocusSessionDelegate.kt:62-75 | a play intent requests focus once if the switch is on and never otherwise; it never abandons and never plays |
| FocusRuns.FocusChangeCounts | app/src/main/java/org/mozilla/focus/gecko/AudioFocusSessionDelegate.kt:85-94 | a focus change never requests or abandons focus, and plays at most once, and only on gain |
| FocusRuns.StepCounts | app/src/main/java/org/mozilla/focus/gecko/AudioFocusSessionDelegate.kt:62-94 | derived from `PlayIntentCounts` and `FocusChangeCounts`: one handler call requests focus only for a play intent with the switch on, abandons only for a stop, plays at most once and only on gain, and leaves the switch alone |
| FocusRuns.StepKeepsDescriptor | app/src/main/java/org/mozilla/focus/gecko/AudioFocusSessionDelegate.kt:29-40 | one handler call keeps a built descriptor, builds none but the session descriptor, and requests or abandons only with it |
| FocusRuns.PlaysAtMostGains | app/src/main/java/org/mozilla/focus/gecko/AudioFocusSessionDelegate.kt:47-54 | in any run, the session is played no more often than focus-gain notifications arrive |
| FocusRuns.AbandonsMatchStops | app/src/main/java/org/mozilla/focus/gecko/AudioFocusSessionDelegate.kt:77-83 | in any run, focus is abandoned exactly once per stop intent and at no other time |
| FocusRuns.RequestsMatchAllowedPlayIntents | app/src/main/java/org/mozilla/focus/gecko/AudioFocusSessionDelegate.kt:62-69 | in any run, focus is requested exactly once per play intent made while the switch is on, following the owner's changes to it, and never while it is off |
| FocusRuns.SameDescriptorThroughout | app/src/main/java/org/mozilla/focus/gecko/AudioFocusSessionDelegate.kt:29-40 | once built the descriptor is never replaced, and every request and every abandon in any run carries that one descriptor |
| FocusRuns.DelayedThenGainPlaysOnce | app/src/main/java/org/mozilla/focus/gecko/AudioFocusSessionDelegate.kt:71 | a delayed grant pauses exactly once, and the following gain plays exactly once |
| FocusRuns.RefusedThenGainStaysPaused | app/src/main/java/org/mozilla/focus/gecko/AudioFocusSessionDelegate.kt:72 | a request answered with any code but granted or delayed pauses once, and a following gain plays nothing |
| FocusRuns.TransientLossThenGainResumes | app/src/main/java/org/mozilla/focus/gecko/AudioFocusSessionDelegate.kt:90-91 | after a granted play, a transient loss, duckable or not, pauses once and the next gain plays once |
| FocusRuns.PermanentLossThenGainStaysPaused | app/src/main/java/org/mozilla/focus/gecko/AudioFocusSessionDelegate.kt:89 | after a granted play, a permanent loss pauses once and the next gain plays nothing |
| FocusRuns.DelayedTransientLossThenGain | app/src/main/java/org/mozilla/focus/gecko/AudioFocusSessionDelegate.kt:88-91 | delayed grant, transient loss, then gain: exactly pause, pause, play after the request |
| FocusRuns.StaleSessionIsSkipped | app/src/main/java/org/mozilla/focus/gecko/AudioFocusSessionDelegate.kt:20-21 | when the session went inactive after a delayed grant, the gain makes no play call, yet `playbackDelayed` is still cleared |
| FocusRuns.StopAfterAnythingIsIdle | app/src/main/java/org/mozilla/focus/gecko/AudioFocusSessionDelegate.kt:77-83 | after any history, a stop adds one abandon and nothing else, and leaves both flags false |
| Gecko.AudioFocusSessionDelegate.constructor | app/src/main/java/org/mozilla/focus/gecko/AudioFocusSessionDelegate.kt:14-27 | a new delegate has the switch off, no session, both flags false, no descriptor yet and no calls made, and satisfies the invariant `Valid()` |
| Gecko.AudioFocusSessionDelegate.GetMediaSession | app/src/main/java/org/mozilla/focus/gecko/AudioFocusSessionDelegate.kt:20-21 | yields the held session exactly when it is non-null and active, and null otherwise; this agrees with `FocusPolicy.MediaSessionOf` on the delegate's fields |
| Gecko.AudioFocusSessionDelegate.SetMediaSession | app/src/main/java/org/mozilla/focus/gecko/AudioFocusSessionDelegate.kt:22-24 | replaces the held session and changes nothing else |
| Gecko.AudioFocusSessionDelegate.GetFocusRequest | app/src/main/java/org/mozilla/focus/gecko/AudioFocusSessionDelegate.kt:29-40 | the lazy descriptor, as `FocusPolicy.FocusRequestOf` |
| Gecko.AudioFocusSessionDelegate.Pause | app/src/main/java/org/mozilla/focus/gecko/AudioFocusSessionDelegate.kt:42-45 | sets `resumeOnFocusGain` to `temporary` and pauses the session only if it is active |
| Gecko.AudioFocusSessionDelegate.Play | app/src/main/java/org/mozilla/focus/gecko/AudioFocusSessionDelegate.kt:47-55 | sets `playbackDelayed`; a delayed play is a non-temporary pause, otherwise the session is played only if it is active |
| Gecko.AudioFocusSessionDelegate.Reset | app/src/main/java/org/mozilla/focus/gecko/AudioFocusSessionDelegate.kt:57-60 | clears both flags and nothing else |
| Gecko.AudioFocusSessionDelegate.OnPlay | app/src/main/java/org/mozilla/focus/gecko/AudioFocusSessionDelegate.kt:62-75 | new fields and calls are those of `FocusPolicy.OnPlay` on the old fields; keeps `Valid()` |
| Gecko.AudioFocusSessionDelegate.OnStop | app/src/main/java/org/mozilla/focus/gecko/AudioFocusSessionDelegate.kt:77-83 | new fields and calls are those of `FocusPolicy.OnStop` on the old fields; keeps `Valid()` |
| Gecko.AudioFocusSessionDelegate.OnAudioFocusChange | app/src/main/java/org/mozilla/focus/gecko/AudioFocusSessionDelegate.kt:85-94 | new fields and calls are those of `FocusPolicy.OnAudioFocusChange` on the old fields, given whether the held session is active; keeps `Valid()` |
| Gecko.DelayedPlaybackScenario | app/src/main/java/org/mozilla/focus/gecko/AudioFocusSessionDelegate.kt:62-94 | on the class: a delayed grant, transient loss, gain, loss and transient loss reach the active session as pause, pause, play, pause, pause; the transient loss arms the resume flag, and a gain after the session went inactive makes no play call, while the flag stays armed |

## Left out

- `AudioManager` / `AudioManagerCompat`: their internals are platform code. A focus request is an outside call whose result code the caller supplies. Abandoning focus is only recorded as a call.
- The descriptor's builder keeps only what the delegate sets: gain, usage, content type and will-pause-when-ducked. The listener is always the delegate itself and is not stored.
- The descriptor's object identity is modelled as value equality. "The same instance for request and abandon" becomes "one descriptor value, built once and never replaced".
- `synchronized(this)` and the arrival of focus changes on another thread: each handler is one atomic step, and runs are sequences of such steps. `onPlay` reads the switch and stores the new session before taking the lock (AudioFocusSessionDelegate.kt:63-65). A focus change that arrives in between can play the new session on the previous session's flags, before the new session's reset and request; that interleaving is not modelled.
- `WeakReference` collection is folded into the session's liveness. A collected session reads through the getter exactly like an inactive one: the getter yields nothing.
- The `Context` service lookup and the `GeckoSession` parameter of `onPlay` / `onStop` are Android wiring that the delegate never reads.
- What `MediaSession.pause()` / `play()` do inside GeckoView: the model records the calls only.
