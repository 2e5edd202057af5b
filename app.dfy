/**
 * The App component's state and event handlers (App.tsx): the play button,
 * slider and toggle handlers, the mood prompt, and applying the translator's
 * answer. React state is a class whose fields the handlers reassign; the
 * audio engine is the object the component's hook owns.
 */
module App {
  import opened Wrappers
  import opened Types
  import opened Constants
  import opened Channels
  import opened Engine

  const DefaultVibe: string := "Custom Mix"
  const DefaultMoodColor: string := "#6366f1"
  const FailureMessage: string := "AI Generation failed. Check API Key or try again."

  /**
   * What the translator call hands `handleAISubmit`: a configuration; an
   * answer that parsed but carries no settings object (a `null` answer, or one
   * without `settings`), on which the apply step throws after its reset loop;
   * or a call that failed.
   */
  datatype Answer =
    | Answered(config: MixerConfigResponse)
    | NoSettings
    | Failed(reason: string)

  /** JavaScript's white space and line terminators, the characters `trim` removes. */
  predicate IsJsWhitespace(c: char)
  {
    var n := c as int;
    n == 0x09 || n == 0x0A || n == 0x0B || n == 0x0C || n == 0x0D || n == 0x20 ||
    n == 0xA0 || n == 0x1680 || (0x2000 <= n <= 0x200A) || n == 0x2028 || n == 0x2029 ||
    n == 0x202F || n == 0x205F || n == 0x3000 || n == 0xFEFF
  }

  /** Every character is white space. */
  predicate Blank(s: string)
  {
    forall i :: 0 <= i < |s| ==> IsJsWhitespace(s[i])
  }

  /** Drops leading white space. */
  function TrimStart(s: string): (r: string)
    ensures |r| <= |s|
  {
    if |s| > 0 && IsJsWhitespace(s[0]) then TrimStart(s[1..]) else s
  }

  /** Drops trailing white space. */
  function TrimEnd(s: string): (r: string)
    ensures |r| <= |s|
  {
    if |s| > 0 && IsJsWhitespace(s[|s| - 1]) then TrimEnd(s[..|s| - 1]) else s
  }

  /** `TrimStart` keeps the rest of `s` after a blank prefix, which starts with a non-blank character. */
  lemma {:induction false} TrimStartDropsBlankPrefix(s: string)
    ensures var r := TrimStart(s);
      && r == s[|s| - |r|..]
      && (forall i :: 0 <= i < |s| - |r| ==> IsJsWhitespace(s[i]))
      && (r != [] ==> !IsJsWhitespace(r[0]))
  {
    if |s| > 0 && IsJsWhitespace(s[0]) {
      var r := TrimStart(s[1..]);
      TrimStartDropsBlankPrefix(s[1..]);
      assert s[1..][|s| - 1 - |r|..] == s[|s| - |r|..];
      forall i | 0 <= i < |s| - |r|
        ensures IsJsWhitespace(s[i])
      {
        if i > 0 {
          assert s[i] == s[1..][i - 1];
        }
      }
    }
  }

  /** `TrimEnd` keeps the part of `s` before a blank suffix, which ends with a non-blank character. */
  lemma {:induction false} TrimEndDropsBlankSuffix(s: string)
    ensures var r := TrimEnd(s);
      && r == s[..|r|]
      && (forall i :: |r| <= i < |s| ==> IsJsWhitespace(s[i]))
      && (r != [] ==> !IsJsWhitespace(r[|r| - 1]))
  {
    if |s| > 0 && IsJsWhitespace(s[|s| - 1]) {
      var init := s[..|s| - 1];
      var r := TrimEnd(init);
      TrimEndDropsBlankSuffix(init);
      assert init[..|r|] == s[..|r|];
      forall i | |r| <= i < |s|
        ensures IsJsWhitespace(s[i])
      {
        if i < |s| - 1 {
          assert s[i] == init[i];
        }
      }
    }
  }

  /** `String.prototype.trim`. */
  function Trim(s: string): string
  {
    TrimEnd(TrimStart(s))
  }

  /** The trimmed prompt is a contiguous part of `s`, starting after the leading white space. */
  lemma TrimIsSlice(s: string)
    ensures var start := |s| - |TrimStart(s)|;
      start + |Trim(s)| <= |s| && Trim(s) == s[start..start + |Trim(s)|]
  {
    var t := TrimStart(s);
    var start := |s| - |t|;
    TrimStartDropsBlankPrefix(s);
    TrimEndDropsBlankSuffix(t);
    assert t == s[start..];
  }

  /** Everything `Trim` drops, before and after the trimmed prompt, is white space. */
  lemma TrimDropsWhitespace(s: string)
    ensures var start := |s| - |TrimStart(s)|;
      && (forall i :: 0 <= i < start ==> IsJsWhitespace(s[i]))
      && (forall i :: start + |Trim(s)| <= i < |s| ==> IsJsWhitespace(s[i]))
  {
    var t := TrimStart(s);
    var r := TrimEnd(t);
    var start := |s| - |t|;
    TrimStartDropsBlankPrefix(s);
    TrimEndDropsBlankSuffix(t);
    forall i | start + |r| <= i < |s|
      ensures IsJsWhitespace(s[i])
    {
      assert s[i] == t[i - start];
    }
  }

  /** The trimmed prompt neither starts nor ends with white space. */
  lemma TrimEnds(s: string)
    ensures Trim(s) != [] ==> !IsJsWhitespace(Trim(s)[0]) && !IsJsWhitespace(Trim(s)[|Trim(s)| - 1])
  {
    var t := TrimStart(s);
    var r := TrimEnd(t);
    TrimStartDropsBlankPrefix(s);
    TrimEndDropsBlankSuffix(t);
    if r != [] {
      assert r[0] == t[0];
    }
  }

  /** A prompt trims to the empty string exactly when it is blank. */
  lemma TrimEmptyIffBlank(s: string)
    ensures Trim(s) == [] <==> Blank(s)
  {
    var t := TrimStart(s);
    TrimStartDropsBlankPrefix(s);
    TrimEndDropsBlankSuffix(t);
    if t != [] {
      assert !IsJsWhitespace(s[|s| - |t|]) by {
        assert t[0] == s[|s| - |t|];
      }
    }
  }

  /** `config.moodHex || default`: an empty colour falls back to the default. */
  function MoodColorOf(moodHex: string): (color: string)
    ensures color != ""
    ensures moodHex != "" ==> color == moodHex
  {
    if moodHex == "" then DefaultMoodColor else moodHex
  }

  /**
   * For non-negative volumes, an inactive channel is always sent to gain 0,
   * playing or not.
   */
  lemma InactiveChannelsGetZeroTarget(chs: ChannelMap, isPlaying: bool)
    requires MutedWhenInactive(chs)
    ensures forall k :: k in chs && !chs[k].isActive ==> EffectiveTarget(isPlaying, Volumes(chs)[k]) == 0.0
  {
  }

  /**
   * Channel records that agree on every volume schedule the same ramps
   * whatever their on/off flags: the engine reads the volume only.
   */
  lemma ScheduleIgnoresActiveFlags(gains: map<SoundType, Option<GainNode>>, c1: ChannelMap, c2: ChannelMap,
                                   isPlaying: bool, now: real)
    requires forall k :: k in c1 <==> k in c2
    requires forall k :: k in c1 ==> c1[k].volume == c2[k].volume
    ensures Scheduled(gains, Volumes(c1), isPlaying, now) == Scheduled(gains, Volumes(c2), isPlaying, now)
  {
  }

  /**
   * Without clamping, a negative value from the translator leaves its channel
   * off but still reaches the engine as a nonzero target.
   */
  lemma NegativeVolumeReachesEngine()
    ensures var r := Configured(InitialChannels(), [Setting("rain", Some(-0.5))]);
      !r[Rain].isActive && EffectiveTarget(true, Volumes(r)[Rain]) == -0.5
  {
  }

  /** The component's state; `mixer` is the audio engine behind `useAudioMixer`. */
  class AppState {
    var channels: ChannelMap
    var isPlaying: bool
    var prompt: string
    var isGenerating: bool
    var currentVibe: string
    var moodColor: string
    var error: Option<string>
    const mixer: AudioMixer

    ghost predicate Valid()
      reads this, mixer
    {
      WellKeyed(channels) && mixer.Valid()
    }

    /** The first render: initial channels, paused, empty prompt, engine not built. */
    constructor ()
      ensures Valid() && fresh(mixer) && !mixer.ready
      ensures channels == InitialChannels() && MutedWhenInactive(channels)
      ensures !isPlaying && prompt == "" && !isGenerating && error == None
      ensures currentVibe == DefaultVibe && moodColor == DefaultMoodColor
    {
      channels := InitialChannels();
      isPlaying := false;
      prompt := "";
      isGenerating := false;
      currentVibe := DefaultVibe;
      moodColor := DefaultMoodColor;
      error := None;
      mixer := new AudioMixer();
      InitialChannelsMuted();
    }

    /** `togglePlay`: builds the engine only if it is not ready, and always flips play. */
    method TogglePlay()
      requires Valid()
      modifies this, mixer
      ensures Valid() && mixer.ready
      ensures isPlaying == !old(isPlaying)
      ensures old(mixer.ready) ==> unchanged(mixer)
      ensures !old(mixer.ready) ==> forall k :: k in mixer.gains && mixer.gains[k] == Some(SilentGain)
      ensures channels == old(channels) && prompt == old(prompt) && isGenerating == old(isGenerating)
      ensures currentVibe == old(currentVibe) && moodColor == old(moodColor) && error == old(error)
    {
      EnsureEngine();
      isPlaying := !isPlaying;
    }

    /** `handleVolumeChange`. */
    method HandleVolumeChange(id: SoundType, volume: real)
      requires Valid()
      modifies this`channels
      ensures Valid()
      ensures channels == WithVolume(old(channels), id, volume)
      ensures MutedWhenInactive(old(channels)) && volume >= 0.0 ==> MutedWhenInactive(channels)
    {
      channels := WithVolume(channels, id, volume);
    }

    /** `handleToggleChannel`. */
    method HandleToggleChannel(id: SoundType)
      requires Valid()
      modifies this`channels
      ensures Valid()
      ensures channels == Toggled(old(channels), id)
      ensures MutedWhenInactive(old(channels)) ==> MutedWhenInactive(channels)
    {
      channels := Toggled(channels, id);
    }

    /** The prompt field's `onChange`. */
    method SetPrompt(text: string)
      modifies this`prompt
      ensures prompt == text
    {
      prompt := text;
    }

    /** The first loop of `handleAISubmit`: every channel is switched off at volume 0. */
    method ResetChannels()
      requires WellKeyed(channels)
      modifies this`channels
      ensures forall k :: k in channels && channels[k] == Applied(old(channels)[k], None)
    {
      ghost var before := channels;
      KindsListedOnce();
      var i := 0;
      while i < |AllKinds|
        invariant 0 <= i <= |AllKinds|
        invariant forall k :: k in channels
        invariant forall j :: 0 <= j < i ==> channels[AllKinds[j]] == before[AllKinds[j]].(volume := 0.0, isActive := false)
        invariant forall j :: i <= j < |AllKinds| ==> channels[AllKinds[j]] == before[AllKinds[j]]
      {
        var key := AllKinds[i];
        channels := channels[key := channels[key].(volume := 0.0, isActive := false)];
        i := i + 1;
      }
      forall k ensures channels[k] == Applied(before[k], None) {
        var j := Index(k);
        assert channels[AllKinds[j]] == before[AllKinds[j]].(volume := 0.0, isActive := false);
      }
    }

    /**
     * The second loop of `handleAISubmit`: each entry whose key names a kind
     * and whose value is defined overwrites that channel's volume and sets it
     * active exactly when the volume is positive. Starting from the reset
     * record of `before`, the result is `Configured(before, settings)`.
     */
    method ApplyEntries(settings: seq<Setting>, ghost before: ChannelMap)
      requires forall k :: k in before && k in channels && channels[k] == Applied(before[k], None)
      modifies this`channels
      ensures channels == Configured(before, settings)
    {
      var n := 0;
      while n < |settings|
        invariant 0 <= n <= |settings|
        invariant AppliedUpTo(before, channels, settings, n)
      {
        var soundKey := KindOfName(settings[n].key);
        if soundKey.Some? && soundKey.value in channels && settings[n].value.Some? {
          var vol := settings[n].value.value;
          var k := soundKey.value;
          EntryNamingKind(before, channels, settings, n, k);
          channels := channels[k := channels[k].(volume := vol, isActive := vol > 0.0)];
        } else {
          EntryIgnored(before, channels, settings, n);
        }
        n := n + 1;
      }
      assert settings[..n] == settings;
      ConfiguredFromPointwise(before, channels, settings);
    }

    /** The channel part of `handleAISubmit`: reset, then apply the entries. */
    method ApplySettings(settings: seq<Setting>)
      requires WellKeyed(channels)
      modifies this`channels
      ensures channels == Configured(old(channels), settings)
      ensures WellKeyed(channels)
    {
      ghost var before := channels;
      ResetChannels();
      ApplyEntries(settings, before);
    }

    /** `if (!isReady) initAudio()`: the engine is built once, on first use. */
    method EnsureEngine()
      requires Valid()
      modifies mixer
      ensures Valid() && mixer.ready
      ensures old(mixer.ready) ==> unchanged(mixer)
      ensures !old(mixer.ready) ==> forall k :: k in mixer.gains && mixer.gains[k] == Some(SilentGain)
    {
      if !mixer.ready {
        mixer.InitAudio();
      }
    }

    /**
     * The `try`/`catch` of `handleAISubmit`. A configuration replaces the
     * channels, the vibe and the colour. An answer without settings has
     * already switched every channel off at volume 0, in place, when the
     * apply step throws, so the reset stays and the error is set. A failed
     * call sets only the error message.
     */
    method ApplyResponse(response: Answer)
      requires WellKeyed(channels)
      modifies this`channels, this`currentVibe, this`moodColor, this`error
      ensures WellKeyed(channels)
      ensures response.Answered? ==>
        && channels == Configured(old(channels), response.config.settings)
        && currentVibe == response.config.description
        && moodColor == MoodColorOf(response.config.moodHex)
        && error == old(error)
      ensures response.NoSettings? ==>
        && channels == Configured(old(channels), [])
        && currentVibe == old(currentVibe) && moodColor == old(moodColor)
        && error == Some(FailureMessage)
      ensures response.Failed? ==>
        && channels == old(channels)
        && currentVibe == old(currentVibe) && moodColor == old(moodColor)
        && error == Some(FailureMessage)
    {
      match response {
        case Answered(config) =>
          ApplySettings(config.settings);
          currentVibe := config.description;
          moodColor := MoodColorOf(config.moodHex);
        case NoSettings =>
          ghost var before := channels;
          ResetChannels();
          ConfiguredFromPointwise(before, channels, []);
          error := Some(FailureMessage);
        case Failed(_) =>
          error := Some(FailureMessage);
      }
    }

    /**
     * `handleAISubmit` past its blank-prompt guard: the engine is built if
     * needed (every gain node at 0) and play is switched on; the outcome is
     * then that of `ApplyResponse`, with the error cleared first.
     */
    method Submit(response: Answer)
      requires Valid()
      modifies this, mixer
      ensures Valid()
      ensures mixer.ready && (old(mixer.ready) ==> unchanged(mixer))
      ensures !old(mixer.ready) ==> forall k :: k in mixer.gains && mixer.gains[k] == Some(SilentGain)
      ensures isPlaying && !isGenerating && prompt == old(prompt)
      ensures response.Answered? ==>
        && channels == Configured(old(channels), response.config.settings)
        && currentVibe == response.config.description
        && moodColor == MoodColorOf(response.config.moodHex)
        && error == None
      ensures response.NoSettings? ==>
        && channels == Configured(old(channels), [])
        && currentVibe == old(currentVibe) && moodColor == old(moodColor)
        && error == Some(FailureMessage)
      ensures response.Failed? ==>
        && channels == old(channels)
        && currentVibe == old(currentVibe) && moodColor == old(moodColor)
        && error == Some(FailureMessage)
    {
      EnsureEngine();
      isPlaying := true;
      isGenerating := true;
      error := None;
      ApplyResponse(response);
      isGenerating := false;
    }

    /**
     * `handleAISubmit` with the translator's answer (or its failure) given as
     * `response`. A prompt that trims to nothing (a blank one, by
     * `TrimEmptyIffBlank`) changes nothing; any other prompt goes on as
     * `Submit` states.
     */
    method HandleAISubmit(response: Answer)
      requires Valid()
      modifies this, mixer
      ensures Valid()
      ensures Trim(old(prompt)) == [] ==> unchanged(this) && unchanged(mixer)
      ensures Trim(old(prompt)) != [] ==>
        && mixer.ready && (old(mixer.ready) ==> unchanged(mixer))
        && isPlaying && !isGenerating && prompt == old(prompt)
      ensures Trim(old(prompt)) != [] && !old(mixer.ready) ==>
        forall k :: k in mixer.gains && mixer.gains[k] == Some(SilentGain)
      ensures Trim(old(prompt)) != [] && response.Answered? ==>
        && channels == Configured(old(channels), response.config.settings)
        && currentVibe == response.config.description
        && moodColor == MoodColorOf(response.config.moodHex)
        && error == None
      ensures Trim(old(prompt)) != [] && response.NoSettings? ==>
        && channels == Configured(old(channels), [])
        && currentVibe == old(currentVibe) && moodColor == old(moodColor)
        && error == Some(FailureMessage)
      ensures Trim(old(prompt)) != [] && response.Failed? ==>
        && channels == old(channels)
        && currentVibe == old(currentVibe) && moodColor == old(moodColor)
        && error == Some(FailureMessage)
    {
      if Trim(prompt) != [] {
        Submit(response);
      }
    }

    /**
     * The hook's update effect, which React runs after any change to the
     * channels or the play state, at audio time `now`.
     */
    method SyncEngine(now: real)
      requires Valid()
      modifies mixer`gains
      ensures Valid()
      ensures !mixer.ready ==> mixer.gains == old(mixer.gains)
      ensures mixer.ready ==> mixer.gains == Scheduled(old(mixer.gains), Volumes(channels), isPlaying, now)
      ensures mixer.ready && MutedWhenInactive(channels) ==>
        forall k :: k in channels && !channels[k].isActive ==> mixer.gains[k].value.ramp.value.target == 0.0
    {
      mixer.UpdateVolumes(Volumes(channels), isPlaying, now);
      if MutedWhenInactive(channels) {
        InactiveChannelsGetZeroTarget(channels, isPlaying);
      }
    }
  }
}
