/** Sequences of calls into the delegate: the two intents, the platform's focus changes,
    and the owner flipping the policy switch. Each handler is modelled as one atomic step. */
module FocusRuns {
  import opened GeckoMedia
  import opened FocusPolicy

  datatype Event =
    | SetShouldAllowAudioFocus(allow: bool)
    | PlayIntent(session: MediaSession, requestResult: int)
    | StopIntent
    | AudioFocusChange(focusChange: int)

  /** One call; `sessionActive` is the liveness, at that moment, of the session the handler
      reads (the new one for a play intent, the held one otherwise). */
  datatype Call = Call(event: Event, sessionActive: bool)

  function Step(st: State, c: Call): (o: Outcome)
    ensures |o.effects| <= 2
  {
    match c.event
    case SetShouldAllowAudioFocus(allow) => Outcome(st.(shouldAllowAudioFocus := allow), [])
    case PlayIntent(session, code) => OnPlay(st, session, code, c.sessionActive)
    case StopIntent => OnStop(st)
    case AudioFocusChange(code) => OnAudioFocusChange(st, code, c.sessionActive)
  }

  /** The final state and every call made, in order, when `calls` arrive one after another. */
  function Run(st: State, calls: seq<Call>): (o: Outcome)
    ensures |o.effects| <= 2 * |calls|
    decreases |calls|
  {
    if calls == [] then Outcome(st, [])
    else
      var first := Step(st, calls[0]);
      var rest := Run(first.state, calls[1..]);
      Outcome(rest.state, first.effects + rest.effects)
  }

  datatype EffectKind = RequestKind | AbandonKind | PauseKind | PlayKind

  function KindOf(e: Effect): EffectKind
  {
    match e
    case RequestFocus(_) => RequestKind
    case AbandonFocus(_) => AbandonKind
    case PauseCall(_) => PauseKind
    case PlayCall(_) => PlayKind
  }

  /** How many of `effects` are of kind `k`. */
  function CountOf(effects: seq<Effect>, k: EffectKind): (n: nat)
    ensures n <= |effects|
    decreases |effects|
  {
    if effects == [] then 0
    else (if KindOf(effects[0]) == k then 1 else 0) + CountOf(effects[1..], k)
  }

  /** How many focus-change notifications in `calls` carry the gain code. */
  function GainCount(calls: seq<Call>): nat
    decreases |calls|
  {
    if calls == [] then 0
    else (if calls[0].event == AudioFocusChange(FocusGain) then 1 else 0) + GainCount(calls[1..])
  }

  /** How many stop intents `calls` holds. */
  function StopCount(calls: seq<Call>): nat
    decreases |calls|
  {
    if calls == [] then 0
    else (if calls[0].event == StopIntent then 1 else 0) + StopCount(calls[1..])
  }

  /** How many play intents arrive while the policy switch, starting at `allow` and
      following the owner's changes, is on. */
  function AllowedPlayIntents(allow: bool, calls: seq<Call>): nat
    decreases |calls|
  {
    if calls == [] then 0
    else
      match calls[0].event
      case SetShouldAllowAudioFocus(b) => AllowedPlayIntents(b, calls[1..])
      case PlayIntent(_, _) => (if allow then 1 else 0) + AllowedPlayIntents(allow, calls[1..])
      case _ => AllowedPlayIntents(allow, calls[1..])
  }

  lemma {:induction false} CountOfAppend(x: seq<Effect>, y: seq<Effect>, k: EffectKind)
    ensures CountOf(x + y, k) == CountOf(x, k) + CountOf(y, k)
    decreases |x|
  {
    if x == [] {
      assert x + y == y;
    } else {
      assert (x + y)[1..] == x[1..] + y;
      CountOfAppend(x[1..], y, k);
    }
  }

  /** One step off the front of a run. */
  lemma RunUnfold(st: State, calls: seq<Call>)
    requires calls != []
    ensures var first := Step(st, calls[0]); var rest := Run(first.state, calls[1..]);
      Run(st, calls) == Outcome(rest.state, first.effects + rest.effects)
  {
  }

  /** Running two batches of calls one after the other is running them together. */
  lemma {:induction false} RunAppend(st: State, a: seq<Call>, b: seq<Call>)
    ensures var first := Run(st, a); var second := Run(first.state, b);
      Run(st, a + b) == Outcome(second.state, first.effects + second.effects)
    decreases |a|
  {
    if a == [] {
      assert a + b == b;
    } else {
      var ab := a + b;
      assert ab[0] == a[0] && ab[1..] == a[1..] + b;
      var head := Step(st, a[0]);
      var tail := Run(head.state, a[1..]);
      var second := Run(tail.state, b);
      calc {
        Run(st, ab);
        { RunUnfold(st, ab); }
        Outcome(Run(head.state, a[1..] + b).state, head.effects + Run(head.state, a[1..] + b).effects);
        { RunAppend(head.state, a[1..], b); }
        Outcome(second.state, head.effects + (tail.effects + second.effects));
        { assert head.effects + (tail.effects + second.effects) == (head.effects + tail.effects) + second.effects; }
        Outcome(second.state, (head.effects + tail.effects) + second.effects);
        { RunUnfold(st, a); }
        Outcome(second.state, Run(st, a).effects + second.effects);
      }
    }
  }

  /** Counting over the calls of one step followed by the rest of a run. */
  lemma RunCounts(st: State, calls: seq<Call>, k: EffectKind)
    requires calls != []
    ensures CountOf(Run(st, calls).effects, k)
         == CountOf(Step(st, calls[0]).effects, k) + CountOf(Run(Step(st, calls[0]).state, calls[1..]).effects, k)
  {
    var first := Step(st, calls[0]);
    CountOfAppend(first.effects, Run(first.state, calls[1..]).effects, k);
  }

  /** The calls one play intent makes: the request first, then at most a pause. */
  lemma PlayIntentCounts(st: State, session: MediaSession, code: int, active: bool)
    ensures var o := OnPlay(st, session, code, active);
      && CountOf(o.effects, RequestKind) == (if st.shouldAllowAudioFocus then 1 else 0)
      && CountOf(o.effects, AbandonKind) == 0
      && CountOf(o.effects, PlayKind) == 0
  {
  }

  /** The calls one focus change makes: at most one pause or one play, and a play only on gain. */
  lemma FocusChangeCounts(st: State, code: int, active: bool)
    ensures var o := OnAudioFocusChange(st, code, active);
      && CountOf(o.effects, RequestKind) == 0
      && CountOf(o.effects, AbandonKind) == 0
      && CountOf(o.effects, PlayKind) <= (if code == FocusGain then 1 else 0)
  {
  }

  /** The calls of one step, counted by kind. */
  lemma StepCounts(st: State, c: Call)
    ensures var o := Step(st, c);
      && CountOf(o.effects, RequestKind) == (if c.event.PlayIntent? && st.shouldAllowAudioFocus then 1 else 0)
      && CountOf(o.effects, AbandonKind) == (if c.event == StopIntent then 1 else 0)
      && CountOf(o.effects, PlayKind) <= (if c.event == AudioFocusChange(FocusGain) then 1 else 0)
      && (!c.event.SetShouldAllowAudioFocus? ==> o.state.shouldAllowAudioFocus == st.shouldAllowAudioFocus)
  {
    match c.event
    case PlayIntent(session, code) => PlayIntentCounts(st, session, code, c.sessionActive);
    case AudioFocusChange(code) => FocusChangeCounts(st, code, c.sessionActive);
    case _ =>
  }

  /** Every play call answers a gain notification: no run plays more often than it regains focus. */
  lemma {:induction false} PlaysAtMostGains(st: State, calls: seq<Call>)
    ensures CountOf(Run(st, calls).effects, PlayKind) <= GainCount(calls)
    decreases |calls|
  {
    if calls != [] {
      RunCounts(st, calls, PlayKind);
      StepCounts(st, calls[0]);
      PlaysAtMostGains(Step(st, calls[0]).state, calls[1..]);
    }
  }

  /** Every stop intent gives the focus back once, and nothing else does. */
  lemma {:induction false} AbandonsMatchStops(st: State, calls: seq<Call>)
    ensures CountOf(Run(st, calls).effects, AbandonKind) == StopCount(calls)
    decreases |calls|
  {
    if calls != [] {
      RunCounts(st, calls, AbandonKind);
      StepCounts(st, calls[0]);
      AbandonsMatchStops(Step(st, calls[0]).state, calls[1..]);
    }
  }

  /** Focus is requested exactly once per play intent that arrives while the policy switch
      is on, and never while it is off. */
  lemma {:induction false} RequestsMatchAllowedPlayIntents(st: State, calls: seq<Call>)
    ensures CountOf(Run(st, calls).effects, RequestKind) == AllowedPlayIntents(st.shouldAllowAudioFocus, calls)
    decreases |calls|
  {
    if calls != [] {
      var c := calls[0];
      RunCounts(st, calls, RequestKind);
      StepCounts(st, c);
      RequestsMatchAllowedPlayIntents(Step(st, c).state, calls[1..]);
      if c.event.SetShouldAllowAudioFocus? {
        assert Step(st, c).state.shouldAllowAudioFocus == c.event.allow;
      }
    }
  }

  /** The only requests and abandons are those made with the descriptor. */
  predicate OnlyDescriptor(effects: seq<Effect>, request: FocusRequest)
  {
    forall e :: e in effects && (e.RequestFocus? || e.AbandonFocus?) ==> e.request == request
  }

  /** One step keeps the descriptor it found, or builds SessionFocusRequest, and uses only it. */
  lemma StepKeepsDescriptor(st: State, c: Call)
    requires DescriptorBuiltOnce(st)
    ensures DescriptorBuiltOnce(Step(st, c).state)
    ensures st.focusRequest.Some? ==> Step(st, c).state.focusRequest == st.focusRequest
    ensures OnlyDescriptor(Step(st, c).effects, SessionFocusRequest)
  {
  }

  /** Request and abandon always hand the platform the same descriptor: once built it is
      never replaced, and every request or abandon in a run carries it. */
  lemma {:induction false} SameDescriptorThroughout(st: State, calls: seq<Call>)
    requires DescriptorBuiltOnce(st)
    ensures DescriptorBuiltOnce(Run(st, calls).state)
    ensures st.focusRequest.Some? ==> Run(st, calls).state.focusRequest == st.focusRequest
    ensures OnlyDescriptor(Run(st, calls).effects, SessionFocusRequest)
    decreases |calls|
  {
    if calls != [] {
      var first := Step(st, calls[0]);
      StepKeepsDescriptor(st, calls[0]);
      SameDescriptorThroughout(first.state, calls[1..]);
      RunUnfold(st, calls);
    }
  }

  /** The calls a run of two, or three, calls makes: those of each step in turn. */
  lemma RunOfTwo(st: State, c1: Call, c2: Call)
    ensures var o1 := Step(st, c1); var o2 := Step(o1.state, c2);
      Run(st, [c1, c2]) == Outcome(o2.state, o1.effects + o2.effects)
  {
    var calls := [c1, c2];
    RunUnfold(st, calls);
    assert calls[1..] == [c2];
    RunUnfold(Step(st, c1).state, [c2]);
    assert [c2][1..] == [];
  }

  lemma RunOfThree(st: State, c1: Call, c2: Call, c3: Call)
    ensures var o1 := Step(st, c1); var o2 := Step(o1.state, c2); var o3 := Step(o2.state, c3);
      Run(st, [c1, c2, c3]) == Outcome(o3.state, o1.effects + o2.effects + o3.effects)
  {
    var calls := [c1, c2, c3];
    RunUnfold(st, calls);
    assert calls[1..] == [c2, c3];
    RunOfTwo(Step(st, c1).state, c2, c3);
  }

  /** A delayed grant pauses once now and plays once when focus arrives. */
  lemma DelayedThenGainPlaysOnce(st: State, s: MediaSession)
    requires st.shouldAllowAudioFocus && DescriptorBuiltOnce(st)
    ensures Run(st, [Call(PlayIntent(s, RequestDelayed), true), Call(AudioFocusChange(FocusGain), true)]).effects
         == [RequestFocus(SessionFocusRequest), PauseCall(s), PlayCall(s)]
  {
  }

  /** A refused request (any code but granted or delayed) pauses once and a later gain does not play. */
  lemma RefusedThenGainStaysPaused(st: State, s: MediaSession, code: int)
    requires st.shouldAllowAudioFocus && DescriptorBuiltOnce(st)
    requires code != RequestGranted && code != RequestDelayed
    ensures Run(st, [Call(PlayIntent(s, code), true), Call(AudioFocusChange(FocusGain), true)]).effects
         == [RequestFocus(SessionFocusRequest), PauseCall(s)]
  {
  }

  /** After a granted play, a transient loss (duckable or not) pauses and the next gain plays. */
  lemma TransientLossThenGainResumes(st: State, s: MediaSession, loss: int)
    requires st.shouldAllowAudioFocus && DescriptorBuiltOnce(st)
    requires loss == FocusLossTransient || loss == FocusLossTransientCanDuck
    ensures Run(st, [Call(PlayIntent(s, RequestGranted), true), Call(AudioFocusChange(loss), true),
                     Call(AudioFocusChange(FocusGain), true)]).effects
         == [RequestFocus(SessionFocusRequest), PauseCall(s), PlayCall(s)]
  {
    RunOfThree(st, Call(PlayIntent(s, RequestGranted), true), Call(AudioFocusChange(loss), true),
               Call(AudioFocusChange(FocusGain), true));
  }

  /** After a granted play, a permanent loss pauses and the next gain does not play. */
  lemma PermanentLossThenGainStaysPaused(st: State, s: MediaSession)
    requires st.shouldAllowAudioFocus && DescriptorBuiltOnce(st)
    ensures Run(st, [Call(PlayIntent(s, RequestGranted), true), Call(AudioFocusChange(FocusLoss), true),
                     Call(AudioFocusChange(FocusGain), true)]).effects
         == [RequestFocus(SessionFocusRequest), PauseCall(s)]
  {
    RunOfThree(st, Call(PlayIntent(s, RequestGranted), true), Call(AudioFocusChange(FocusLoss), true),
               Call(AudioFocusChange(FocusGain), true));
  }

  /** Delayed grant, transient loss, gain: two pauses and one play. */
  lemma DelayedTransientLossThenGain(st: State, s: MediaSession)
    requires st.shouldAllowAudioFocus && DescriptorBuiltOnce(st)
    ensures Run(st, [Call(PlayIntent(s, RequestDelayed), true), Call(AudioFocusChange(FocusLossTransient), true),
                     Call(AudioFocusChange(FocusGain), true)]).effects
         == [RequestFocus(SessionFocusRequest), PauseCall(s), PauseCall(s), PlayCall(s)]
  {
    RunOfThree(st, Call(PlayIntent(s, RequestDelayed), true), Call(AudioFocusChange(FocusLossTransient), true),
               Call(AudioFocusChange(FocusGain), true));
  }

  /** A session that went inactive after a delayed grant is not played on gain, but the delay
      is still over. */
  lemma StaleSessionIsSkipped(st: State, s: MediaSession)
    requires st.shouldAllowAudioFocus && DescriptorBuiltOnce(st)
    ensures var o := Run(st, [Call(PlayIntent(s, RequestDelayed), true), Call(AudioFocusChange(FocusGain), false)]);
      && o.effects == [RequestFocus(SessionFocusRequest), PauseCall(s)]
      && !o.state.playbackDelayed && !o.state.resumeOnFocusGain
      && o.state.weakSession == Some(s)
  {
    RunOfTwo(st, Call(PlayIntent(s, RequestDelayed), true), Call(AudioFocusChange(FocusGain), false));
  }

  /** A stop clears whatever the flags held and plays or pauses nothing. */
  lemma StopAfterAnythingIsIdle(st: State, calls: seq<Call>)
    ensures var before := Run(st, calls); var o := Run(st, calls + [Call(StopIntent, true)]);
      && !o.state.resumeOnFocusGain && !o.state.playbackDelayed
      && o.state.focusRequest.Some?
      && o.effects == before.effects + [AbandonFocus(o.state.focusRequest.value)]
  {
    RunAppend(st, calls, [Call(StopIntent, true)]);
    RunUnfold(Run(st, calls).state, [Call(StopIntent, true)]);
    assert [Call(StopIntent, true)][1..] == [];
  }
}
