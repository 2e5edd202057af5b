/** The mixer's initial UI state (constants.ts). */
module Constants {
  import opened Types

  /** The record the app starts from: one entry per kind, each active at volume 0. */
  function InitialChannels(): (r: map<SoundType, SoundChannel>)
    ensures r.Keys == Kinds
    ensures forall k :: k in r ==> r[k].id == k && r[k].volume == 0.0 && r[k].isActive
  {
    map[
      White := SoundChannel(White, "White Noise", "Monitor", 0.0, true),
      Pink := SoundChannel(Pink, "Pink Noise", "Zap", 0.0, true),
      Brown := SoundChannel(Brown, "Brown Noise", "Zap", 0.0, true),
      Rain := SoundChannel(Rain, "Heavy Rain", "CloudRain", 0.0, true),
      Wind := SoundChannel(Wind, "Windy", "Wind", 0.0, true),
      Fire := SoundChannel(Fire, "Campfire", "Flame", 0.0, true),
      Stream := SoundChannel(Stream, "Brook", "Droplets", 0.0, true),
      Waves := SoundChannel(Waves, "Ocean", "Waves", 0.0, true)
    ]
  }
}
