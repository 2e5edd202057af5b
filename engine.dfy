/**
 * The engine control layer of `useAudioMixer` (hooks/useAudioMixer.ts): the
 * lazy, idempotent `initAudio`, and the effect that schedules a smoothed gain
 * ramp on every channel whenever the volumes or the play state change.
 * Scheduling is recorded, not simulated: a gain node keeps its set value and
 * the last `setTargetAtTime` call made on it.
 */
module Engine {
  import opened Wrappers
  import opened Types
  import opened Topology

  /** The time constant of every gain ramp, in seconds. */
  const TimeConstant: real := 0.1

  /** The analyser's FFT size. */
  const FftSize: nat := 256

  /** One `setTargetAtTime(target, startTime, timeConstant)` call. */
  datatype Ramp = Ramp(target: real, startTime: real, timeConstant: real)

  /** A channel gain node: its set value and the last ramp scheduled on it. */
  datatype GainNode = GainNode(value: real, ramp: Option<Ramp>)

  /** A freshly built channel gain: value 0, nothing scheduled. */
  const SilentGain: GainNode := GainNode(0.0, None)

  /** The target a channel's gain is sent to: its volume while playing, 0 while paused. */
  function EffectiveTarget(isPlaying: bool, volume: real): (r: real)
    ensures r == 0.0 <==> !isPlaying || volume == 0.0
    ensures r != 0.0 ==> r == volume
  {
    if isPlaying then volume else 0.0
  }

  /**
   * One channel's slot after the update effect: an existing node whose kind
   * has a volume gets a ramp to its effective target from `now`; an empty
   * slot, or a kind without a volume, is left alone.
   */
  function ScheduledNode(node: Option<GainNode>, volume: Option<real>, isPlaying: bool, now: real): Option<GainNode>
  {
    if node.Some? && volume.Some?
    then Some(node.value.(ramp := Some(Ramp(EffectiveTarget(isPlaying, volume.value), now, TimeConstant))))
    else node
  }

  /** The gain table after one run of the update effect at time `now`. */
  function Scheduled(gains: map<SoundType, Option<GainNode>>, volumes: map<SoundType, real>,
                     isPlaying: bool, now: real): (r: map<SoundType, Option<GainNode>>)
    ensures r.Keys == gains.Keys
    ensures forall k :: k in gains && k in volumes && gains[k].Some? ==>
      r[k].Some? && r[k].value.value == gains[k].value.value &&
      r[k].value.ramp == Some(Ramp(EffectiveTarget(isPlaying, volumes[k]), now, TimeConstant))
    ensures forall k :: k in gains && (k !in volumes || gains[k].None?) ==> r[k] == gains[k]
  {
    map k | k in gains :: ScheduledNode(gains[k], if k in volumes then Some(volumes[k]) else None, isPlaying, now)
  }

  /** A table that holds the scheduled slot for every kind is the scheduled table. */
  lemma ScheduledFromPointwise(gains: map<SoundType, Option<GainNode>>, nodes: map<SoundType, Option<GainNode>>,
                               volumes: map<SoundType, real>, isPlaying: bool, now: real)
    requires forall k :: k in gains && k in nodes
    requires forall k :: nodes[k] == ScheduledNode(gains[k], if k in volumes then Some(volumes[k]) else None, isPlaying, now)
    ensures nodes == Scheduled(gains, volumes, isPlaying, now)
  {
  }

  /** While paused every scheduled target is 0, whatever the volumes. */
  lemma PausedSchedulesSilence(gains: map<SoundType, Option<GainNode>>, volumes: map<SoundType, real>, now: real)
    ensures forall k :: k in gains && k in volumes && gains[k].Some? ==>
      Scheduled(gains, volumes, false, now)[k].value.ramp.value.target == 0.0
  {
  }

  /** The engine's state: the audio context, the channel gain table and the built graphs. */
  class AudioMixer {
    /** Whether the audio context exists (`contextRef.current`), equally `isReady`. */
    var ready: bool
    /** `gainNodesRef.current`: one slot per kind, empty until initialisation. */
    var gains: map<SoundType, Option<GainNode>>
    /** The topology built for each kind. */
    var graphs: map<SoundType, Topology>
    /** The analyser on the main output, given by its FFT size. */
    var analyser: Option<nat>

    /** Before initialisation nothing exists; afterwards all eight channels are built. */
    ghost predicate Valid()
      reads this
    {
      && (forall k :: k in gains)
      && (!ready ==> (forall k :: k in gains ==> gains[k] == None) && graphs == map[] && analyser == None)
      && (ready ==>
            (forall k :: k in gains ==> gains[k].Some?) &&
            (forall k :: k in graphs) && (forall k :: k in graphs ==> graphs[k] == ChannelSpec(k)) &&
            analyser == Some(FftSize))
    }

    /** The hook's first render: no context, every gain slot null. */
    constructor ()
      ensures Valid() && !ready
      ensures forall k :: k in gains && gains[k] == None
    {
      ready := false;
      gains := map k | k in Kinds :: None;
      EveryKindInKinds();
      graphs := map[];
      analyser := None;
    }

    /**
     * `initAudio`: a no-op once the context exists; otherwise builds the main
     * output, the analyser and, kind by kind, a channel gain at 0 with that
     * kind's topology, then becomes ready.
     */
    method InitAudio()
      requires Valid()
      modifies this
      ensures Valid() && ready
      ensures old(ready) ==> unchanged(this)
      ensures !old(ready) ==> forall k :: k in gains && gains[k] == Some(SilentGain)
    {
      if ready {
        return;
      }
      var nodes := gains;
      var built: map<SoundType, Topology> := map[];
      var i := 0;
      while i < |AllKinds|
        invariant 0 <= i <= |AllKinds|
        invariant forall k :: k in nodes
        invariant forall j :: 0 <= j < i ==>
          nodes[AllKinds[j]] == Some(SilentGain) && AllKinds[j] in built && built[AllKinds[j]] == ChannelSpec(AllKinds[j])
        invariant forall k :: k in built ==> built[k] == ChannelSpec(k)
      {
        var k := AllKinds[i];
        nodes := nodes[k := Some(SilentGain)];
        built := built[k := ChannelSpec(k)];
        i := i + 1;
      }
      forall k ensures k in built && nodes[k] == Some(SilentGain) {
        var j := Index(k);
      }
      gains, graphs, analyser := nodes, built, Some(FftSize);
      ready := true;
    }

    /**
     * The update effect: before initialisation it returns at once; afterwards,
     * at time `now`, it schedules on every channel a ramp to its volume when
     * playing and to 0 when paused, with time constant 0.1.
     */
    method UpdateVolumes(volumes: map<SoundType, real>, isPlaying: bool, now: real)
      requires Valid()
      modifies this`gains
      ensures Valid()
      ensures !ready ==> gains == old(gains)
      ensures ready ==> gains == Scheduled(old(gains), volumes, isPlaying, now)
    {
      if !ready {
        return;
      }
      var nodes := gains;
      var i := 0;
      while i < |AllKinds|
        invariant 0 <= i <= |AllKinds|
        invariant forall k :: k in nodes
        invariant forall j :: 0 <= j < i ==> nodes[AllKinds[j]] == ScheduledNode(gains[AllKinds[j]],
          if AllKinds[j] in volumes then Some(volumes[AllKinds[j]]) else None, isPlaying, now)
        invariant forall j :: i <= j < |AllKinds| ==> nodes[AllKinds[j]] == gains[AllKinds[j]]
      {
        var id := AllKinds[i];
        if id in volumes {
          var node := nodes[id];
          if node.Some? {
            var targetVol := EffectiveTarget(isPlaying, volumes[id]);
            nodes := nodes[id := Some(node.value.(ramp := Some(Ramp(targetVol, now, TimeConstant))))];
          }
        }
        i := i + 1;
      }
      forall k ensures nodes[k] == ScheduledNode(gains[k], if k in volumes then Some(volumes[k]) else None, isPlaying, now) {
        var j := Index(k);
      }
      ScheduledFromPointwise(gains, nodes, volumes, isPlaying, now);
      gains := nodes;
    }
  }
}
