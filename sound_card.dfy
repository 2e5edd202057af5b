/**
 * The display logic of one channel card (components/SoundCard.tsx): which
 * icon it shows, whether it is lit, what the slider shows and emits, and
 * which volume preset is highlighted. The markup itself is not modelled.
 */
module SoundCard {
  import opened Types
  import opened Constants
  import opened Channels

  /** The icon components the card can show. */
  datatype Icon = Monitor | Zap | CloudRain | WindIcon | Flame | Droplets | WavesIcon

  /** The card's icon table, total over the eight kinds. */
  function IconFor(k: SoundType): (i: Icon)
    ensures i == Zap <==> k == Pink || k == Brown
  {
    match k
    case White => Monitor
    case Pink => Zap
    case Brown => Zap
    case Rain => CloudRain
    case Wind => WindIcon
    case Fire => Flame
    case Stream => Droplets
    case Waves => WavesIcon
  }

  /** The component name of an icon, as the channel record spells it. */
  function IconName(i: Icon): string
  {
    match i
    case Monitor => "Monitor"
    case Zap => "Zap"
    case CloudRain => "CloudRain"
    case WindIcon => "Wind"
    case Flame => "Flame"
    case Droplets => "Droplets"
    case WavesIcon => "Waves"
  }

  /** The card's own icon table agrees with the `icon` field of every initial channel. */
  lemma IconMatchesInitialChannel(k: SoundType)
    ensures k in InitialChannels() && IconName(IconFor(k)) == InitialChannels()[k].icon
  {
  }

  /** The card and its toggle button are lit only for an active channel with a positive volume. */
  predicate CardLit(isActive: bool, volume: real)
    ensures CardLit(isActive, volume) ==> isActive && SliderValue(isActive, volume) > 0.0
  {
    isActive && volume > 0.0
  }

  /** For a channel whose flag agrees with its volume, the card is lit exactly when the channel is on. */
  lemma LitIffActive(c: SoundChannel)
    requires Consistent(c)
    ensures CardLit(c.isActive, c.volume) <==> c.isActive
  {
  }

  /** The slider's displayed value: the volume when active, 0 otherwise. */
  function SliderValue(isActive: bool, volume: real): (r: real)
    ensures isActive ==> r == volume
    ensures !isActive ==> r == 0.0
  {
    if isActive then volume else 0.0
  }

  /** Under the record's invariant the slider always shows the stored volume. */
  lemma SliderShowsVolume(chs: ChannelMap, k: SoundType)
    requires MutedWhenInactive(chs) && k in chs
    ensures SliderValue(chs[k].isActive, chs[k].volume) == chs[k].volume
  {
  }

  /** The granularity of the slider: 0.01 from 0 to 1. */
  const SliderSteps: nat := 100

  /** The value a range input from 0 to 1 in steps of 0.01 reports at step `n`. */
  function SliderOutput(n: nat): (v: real)
    requires n <= SliderSteps
    ensures 0.0 <= v <= 1.0
    ensures v * SliderSteps as real == n as real
  {
    n as real / SliderSteps as real
  }

  /** Moving the slider to step `n` sets that channel to exactly `n / 100`; it is on unless `n` is 0. */
  lemma SliderMoveSetsVolume(chs: ChannelMap, k: SoundType, n: nat)
    requires k in chs && n <= SliderSteps
    ensures var r := WithVolume(chs, k, SliderOutput(n));
      r[k].volume == SliderOutput(n) && (r[k].isActive <==> n > 0)
  {
  }

  datatype Preset = Preset(name: string, val: real)

  /** The three preset buttons. */
  const Presets: seq<Preset> := [Preset("Low", 0.2), Preset("Med", 0.5), Preset("High", 0.8)]

  function Abs(x: real): (r: real)
    ensures r >= 0.0 && (r == x || r == -x)
  {
    if x < 0.0 then -x else x
  }

  /** A preset button is highlighted when the card is active and the volume is within 0.05 of it. */
  predicate PresetHighlighted(isActive: bool, volume: real, i: nat)
    requires i < |Presets|
    ensures PresetHighlighted(isActive, volume, i) ==> CardLit(isActive, volume)
  {
    isActive && Abs(volume - Presets[i].val) < 0.05
  }

  /** The presets are 0.3 apart, so at most one button is highlighted at a time. */
  lemma AtMostOnePresetHighlighted(isActive: bool, volume: real, i: nat, j: nat)
    requires i < |Presets| && j < |Presets|
    requires PresetHighlighted(isActive, volume, i) && PresetHighlighted(isActive, volume, j)
    ensures i == j
  {
  }

  /**
   * Clicking preset `i` sends its value through the volume handler: the
   * channel turns on at that value, the card lights, and exactly that button
   * is highlighted; no other channel changes.
   */
  lemma PresetClickHighlightsIt(chs: ChannelMap, k: SoundType, i: nat)
    requires k in chs && i < |Presets|
    ensures var r := WithVolume(chs, k, Presets[i].val);
      && r[k].volume == Presets[i].val && r[k].isActive && CardLit(r[k].isActive, r[k].volume)
      && (forall j :: 0 <= j < |Presets| ==> (PresetHighlighted(r[k].isActive, r[k].volume, j) <==> j == i))
      && (forall k' :: k' in chs && k' != k ==> r[k'] == chs[k'])
  {
    var r := WithVolume(chs, k, Presets[i].val);
    forall j | 0 <= j < |Presets| && PresetHighlighted(r[k].isActive, r[k].volume, j)
      ensures j == i
    {
      AtMostOnePresetHighlighted(r[k].isActive, r[k].volume, i, j);
    }
  }
}
