/**
 * The per-kind signal graph that `setupSource` wires inside `initAudio`
 * (hooks/useAudioMixer.ts): which noise buffer feeds the channel, which
 * filter and gain stages it passes through on the way to the channel's gain
 * node, and which low-frequency oscillator (if any) modulates which parameter.
 */
module Topology {
  import opened Wrappers
  import opened Types

  /** The three shared noise buffers. */
  datatype NoiseColor = WhiteNoise | PinkNoise | BrownNoise

  datatype FilterType = Lowpass | Highpass | Bandpass

  /**
   * A processing stage between the source and the channel gain: a biquad
   * filter (`q` is `None` where the program leaves the Q factor at its
   * default), or an intermediate gain node with a base gain.
   */
  datatype Stage =
    | Biquad(filter: FilterType, frequency: real, q: Option<real>)
    | StageGain(base: real)

  /** Oscillator waveforms the program uses. */
  datatype Waveform = Sine | Triangle

  /** An oscillator whose type the program does not set runs Web Audio's default, a sine. */
  const DefaultWaveform: Waveform := Sine

  /**
   * What an oscillator's depth gain is connected to: the main parameter of
   * stage `index` of the chain (a filter's frequency, a gain stage's gain),
   * or the gain of the channel's own gain node.
   */
  datatype ModTarget = StageParam(index: nat) | ChannelGain

  /** An oscillator at `rate` Hz through a gain of `depth`, added onto `target`. */
  datatype Lfo = Lfo(wave: Waveform, rate: real, depth: real, target: ModTarget)

  /** The signal path of one channel: source buffer -> chain, in order -> channel gain. */
  datatype Topology = Topology(source: NoiseColor, chain: seq<Stage>, lfo: Option<Lfo>)

  /** Every oscillator is wired to a stage that exists. */
  predicate WellFormed(t: Topology)
  {
    t.lfo.Some? && t.lfo.value.target.StageParam? ==> t.lfo.value.target.index < |t.chain|
  }

  /** The three kinds that play a noise buffer unprocessed. */
  predicate IsPrimitive(k: SoundType)
  {
    k == White || k == Pink || k == Brown
  }

  /** The buffer that a primitive kind plays. */
  function PrimitiveColor(k: SoundType): NoiseColor
    requires IsPrimitive(k)
  {
    match k
    case White => WhiteNoise
    case Pink => PinkNoise
    case Brown => BrownNoise
  }

  /**
   * The branch chain of `setupSource`; every oscillator is wired to a stage
   * that exists. The closing fallback branch is unreachable because
   * `SoundType` is closed, so it has no case here.
   */
  function ChannelSpec(k: SoundType): (t: Topology)
    ensures WellFormed(t)
  {
    match k
    case White => Topology(WhiteNoise, [], None)
    case Pink => Topology(PinkNoise, [], None)
    case Brown => Topology(BrownNoise, [], None)
    case Rain => Topology(PinkNoise, [Biquad(Lowpass, 800.0, None)], None)
    case Wind =>
      Topology(PinkNoise, [Biquad(Bandpass, 400.0, Some(1.0))],
               Some(Lfo(Sine, 0.1, 200.0, StageParam(0))))
    case Fire =>
      Topology(BrownNoise, [Biquad(Highpass, 200.0, None)],
               Some(Lfo(Triangle, 15.0, 0.1, ChannelGain)))
    case Stream =>
      Topology(PinkNoise, [Biquad(Highpass, 400.0, None), Biquad(Lowpass, 1200.0, None)],
               Some(Lfo(DefaultWaveform, 0.4, 100.0, StageParam(1))))
    case Waves =>
      Topology(PinkNoise, [Biquad(Lowpass, 400.0, None), StageGain(0.5)],
               Some(Lfo(DefaultWaveform, 0.1, 0.5, StageParam(1))))
  }

  /**
   * The three primitives
   * play their own buffer straight into the channel gain; every texture is
   * processed, and reads the pink buffer except fire, which reads the brown
   * one. Only the white channel uses the white buffer.
   */
  lemma ChannelSpecShape(k: SoundType)
    ensures IsPrimitive(k) <==> ChannelSpec(k).chain == [] && ChannelSpec(k).lfo == None
    ensures IsPrimitive(k) ==> ChannelSpec(k).source == PrimitiveColor(k)
    ensures !IsPrimitive(k) ==> ChannelSpec(k).source == (if k == Fire then BrownNoise else PinkNoise)
    ensures ChannelSpec(k).source == WhiteNoise <==> k == White
  {
  }

  /**
   * Every filter sits in the audible band (20 Hz to 20 kHz); only the
   * band-pass sets its Q factor; and where a chain has both a high-pass and a
   * low-pass, the high-pass cutoff lies below the low-pass one, so the pair
   * passes a band rather than nothing.
   */
  lemma FilterSettings(k: SoundType)
    ensures var c := ChannelSpec(k).chain;
      forall i :: 0 <= i < |c| && c[i].Biquad? ==>
        20.0 <= c[i].frequency <= 20000.0 && (c[i].q.Some? <==> c[i].filter == Bandpass)
    ensures var c := ChannelSpec(k).chain;
      forall i, j ::
        (0 <= i < |c| && 0 <= j < |c| && c[i].Biquad? && c[j].Biquad? && c[i].filter == Highpass && c[j].filter == Lowpass)
        ==> c[i].frequency < c[j].frequency
  {
  }

  /** The value of the parameter an oscillator modulates, before modulation. */
  function ModulatedBase(t: Topology): real
    requires WellFormed(t) && t.lfo.Some? && t.lfo.value.target.StageParam?
  {
    match t.chain[t.lfo.value.target.index]
    case Biquad(_, f, _) => f
    case StageGain(g) => g
  }

  /**
   * Whenever an oscillator sweeps a stage parameter, the sweep stays in range:
   * a filter's frequency stays above 0 Hz and an intermediate gain never goes
   * negative. Every oscillator runs below 20 Hz.
   */
  lemma ModulationStaysInRange(k: SoundType)
    ensures var t := ChannelSpec(k);
      t.lfo.Some? ==> 0.0 < t.lfo.value.rate < 20.0 && t.lfo.value.depth > 0.0
    ensures var t := ChannelSpec(k);
      t.lfo.Some? && t.lfo.value.target.StageParam? ==>
        match t.chain[t.lfo.value.target.index]
        case Biquad(_, _, _) => ModulatedBase(t) - t.lfo.value.depth > 0.0
        case StageGain(_) => ModulatedBase(t) - t.lfo.value.depth >= 0.0
  {
  }

  /**
   * The largest magnitude the channel gain parameter reaches once it has
   * settled on `target`. Web Audio adds a connected oscillator's output to the
   * parameter's own value, so an oscillator on the channel gain widens it by
   * its depth.
   */
  function PeakChannelGain(t: Topology, target: real): (g: real)
    ensures g >= 0.0
  {
    (if target < 0.0 then -target else target) +
    (if t.lfo.Some? && t.lfo.value.target.ChannelGain? && t.lfo.value.depth > 0.0 then t.lfo.value.depth else 0.0)
  }

  /**
   * A channel settled on target 0 (paused, or at volume 0) is silent for
   * every kind but fire: fire's flicker oscillator is added to its channel
   * gain, which therefore keeps swinging by 0.1 around 0.
   */
  lemma SilentAtZeroTargetExceptFire(k: SoundType)
    ensures PeakChannelGain(ChannelSpec(k), 0.0) == 0.0 <==> k != Fire
    ensures k == Fire ==> PeakChannelGain(ChannelSpec(k), 0.0) == 0.1
  {
  }
}
