/**
 * The channel record updates of the App component (App.tsx): a slider or
 * preset change, a card toggle, and applying the mood translator's settings.
 * Each is a value-level function of the previous record; the App class
 * performs them as state changes.
 */
module Channels {
  import opened Wrappers
  import opened Types
  import opened Constants

  type ChannelMap = map<SoundType, SoundChannel>

  /** The record has every kind, and each entry's `id` is its key. */
  predicate WellKeyed(chs: ChannelMap)
  {
    forall k :: k in chs && chs[k].id == k
  }

  /** A channel is on exactly when it is audible. */
  predicate Consistent(c: SoundChannel)
  {
    c.isActive <==> c.volume > 0.0
  }

  /**
   * The invariant the updates keep for non-negative inputs: no negative
   * volume, and an inactive channel sits at volume 0. (A fresh channel is
   * active at volume 0, so `Consistent` itself does not hold from the start.)
   */
  predicate MutedWhenInactive(chs: ChannelMap)
  {
    forall k :: k in chs ==> chs[k].volume >= 0.0 && (!chs[k].isActive ==> chs[k].volume == 0.0)
  }

  /** Everything of a channel but its volume and on/off state. */
  predicate SameCard(a: SoundChannel, b: SoundChannel)
  {
    a.id == b.id && a.name == b.name && a.icon == b.icon
  }

  /** The initial record is well keyed and meets the invariant. */
  lemma InitialChannelsMuted()
    ensures WellKeyed(InitialChannels()) && MutedWhenInactive(InitialChannels())
  {
    EveryKindInKinds();
  }

  /**
   * `handleVolumeChange`: channel `id` takes volume `v` and is on exactly
   * when `v > 0`; every other channel is untouched.
   */
  function WithVolume(chs: ChannelMap, id: SoundType, v: real): (r: ChannelMap)
    requires id in chs
    ensures r.Keys == chs.Keys
    ensures r[id].volume == v && Consistent(r[id]) && SameCard(r[id], chs[id])
    ensures forall k :: k in chs && k != id ==> r[k] == chs[k]
    ensures WellKeyed(chs) ==> WellKeyed(r)
    ensures MutedWhenInactive(chs) && v >= 0.0 ==> MutedWhenInactive(r)
  {
    chs[id := chs[id].(volume := v, isActive := v > 0.0)]
  }

  /** The volume a channel switched on from 0 gets. */
  const DefaultOnVolume: real := 0.5

  /**
   * `handleToggleChannel`: flips `isActive`. Switching on keeps a nonzero
   * volume and turns 0 into 0.5; switching off forces volume 0. Every other
   * channel is untouched.
   */
  function Toggled(chs: ChannelMap, id: SoundType): (r: ChannelMap)
    requires id in chs
    ensures r.Keys == chs.Keys
    ensures r[id].isActive == !chs[id].isActive && SameCard(r[id], chs[id])
    ensures r[id].isActive && chs[id].volume == 0.0 ==> r[id].volume == DefaultOnVolume
    ensures r[id].isActive && chs[id].volume != 0.0 ==> r[id].volume == chs[id].volume
    ensures !r[id].isActive ==> r[id].volume == 0.0
    ensures chs[id].volume >= 0.0 ==> Consistent(r[id])
    ensures forall k :: k in chs && k != id ==> r[k] == chs[k]
    ensures WellKeyed(chs) ==> WellKeyed(r)
    ensures MutedWhenInactive(chs) ==> MutedWhenInactive(r)
  {
    var channel := chs[id];
    var newActive := !channel.isActive;
    var newVolume := if newActive && channel.volume == 0.0 then DefaultOnVolume else channel.volume;
    chs[id := channel.(isActive := newActive, volume := if newActive then newVolume else 0.0)]
  }

  /**
   * A fresh channel is on at volume 0, so its first toggle switches it off
   * (still at 0) and only the second brings it to 0.5.
   */
  lemma FreshChannelToggles(k: SoundType)
    ensures var once := Toggled(InitialChannels(), k);
      !once[k].isActive && once[k].volume == 0.0
    ensures var twice := Toggled(Toggled(InitialChannels(), k), k);
      twice[k].isActive && twice[k].volume == DefaultOnVolume
  {
    EveryKindInKinds();
  }

  /**
   * The value the translator's entries give kind `k`: the last entry whose
   * key is `k`'s name and whose value is defined. Entries with other keys,
   * or `undefined` values, do not count.
   */
  function SettingFor(settings: seq<Setting>, k: SoundType): Option<real>
  {
    if settings == [] then None
    else
      var last := settings[|settings| - 1];
      if last.key == Name(k) && last.value.Some? then last.value
      else SettingFor(settings[..|settings| - 1], k)
  }

  /** One channel after the reset-then-apply of the translator's settings. */
  function Applied(c: SoundChannel, setting: Option<real>): (r: SoundChannel)
    ensures Consistent(r) && SameCard(r, c)
    ensures r.volume == if setting.Some? then setting.value else 0.0
  {
    match setting
    case None => c.(volume := 0.0, isActive := false)
    case Some(vol) => c.(volume := vol, isActive := vol > 0.0)
  }

  /**
   * The record after applying the translator's settings: every channel is
   * first reset to volume 0 and off, then each kind with a defined value
   * takes that volume and is on exactly when it is positive.
   */
  function Configured(chs: ChannelMap, settings: seq<Setting>): (r: ChannelMap)
    ensures r.Keys == chs.Keys
    ensures forall k :: k in chs ==> Consistent(r[k]) && SameCard(r[k], chs[k])
    ensures forall k :: k in chs ==> r[k] == Applied(chs[k], SettingFor(settings, k))
    ensures WellKeyed(chs) ==> WellKeyed(r)
  {
    map k | k in chs :: Applied(chs[k], SettingFor(settings, k))
  }

  /** Adding one more entry to the settings changes the kind it names, if its value is defined. */
  lemma {:induction false} SettingForStep(settings: seq<Setting>, n: nat, k: SoundType)
    requires n < |settings|
    ensures SettingFor(settings[..n + 1], k) ==
      if settings[n].key == Name(k) && settings[n].value.Some? then settings[n].value
      else SettingFor(settings[..n], k)
  {
    assert settings[..n + 1][..n] == settings[..n];
  }

  /** The loop invariant of applying settings: `chs` reflects the first `n` entries. */
  predicate AppliedUpTo(before: ChannelMap, chs: ChannelMap, settings: seq<Setting>, n: nat)
    requires n <= |settings|
  {
    forall k :: k in before && k in chs && chs[k] == Applied(before[k], SettingFor(settings[..n], k))
  }

  /** Entry `n` names kind `k` with a defined value: only channel `k` is overwritten. */
  lemma EntryNamingKind(before: ChannelMap, chs: ChannelMap, settings: seq<Setting>, n: nat, k: SoundType)
    requires n < |settings| && AppliedUpTo(before, chs, settings, n)
    requires settings[n].key == Name(k) && settings[n].value.Some?
    ensures var vol := settings[n].value.value;
      AppliedUpTo(before, chs[k := chs[k].(volume := vol, isActive := vol > 0.0)], settings, n + 1)
  {
    forall k' ensures SettingFor(settings[..n + 1], k') == if k' == k then settings[n].value else SettingFor(settings[..n], k') {
      SettingForStep(settings, n, k');
      if k' != k && settings[n].key == Name(k') {
        NamesDistinct(k, k');
      }
    }
  }

  /** Entry `n` names no kind, or has no value: no channel changes. */
  lemma EntryIgnored(before: ChannelMap, chs: ChannelMap, settings: seq<Setting>, n: nat)
    requires n < |settings| && AppliedUpTo(before, chs, settings, n)
    requires settings[n].value.None? || forall k :: Name(k) != settings[n].key
    ensures AppliedUpTo(before, chs, settings, n + 1)
  {
    forall k ensures SettingFor(settings[..n + 1], k) == SettingFor(settings[..n], k) {
      SettingForStep(settings, n, k);
    }
  }

  /** A record that agrees with `Configured` on every kind is `Configured`. */
  lemma ConfiguredFromPointwise(chs: ChannelMap, r: ChannelMap, settings: seq<Setting>)
    requires forall k :: k in chs && k in r && r[k] == Applied(chs[k], SettingFor(settings, k))
    ensures r == Configured(chs, settings)
  {
  }

  /** Every defined value in the settings is non-negative. */
  predicate NonNegativeSettings(settings: seq<Setting>)
  {
    forall i :: 0 <= i < |settings| && settings[i].value.Some? ==> settings[i].value.value >= 0.0
  }

  /** A kind's value comes from one of the entries. */
  lemma {:induction false} SettingForNonNegative(settings: seq<Setting>, k: SoundType)
    requires NonNegativeSettings(settings)
    ensures SettingFor(settings, k).Some? ==> SettingFor(settings, k).value >= 0.0
  {
    if settings != [] {
      var init := settings[..|settings| - 1];
      assert NonNegativeSettings(init) by {
        forall i | 0 <= i < |init| && init[i].value.Some? ensures init[i].value.value >= 0.0 {
          assert init[i] == settings[i];
        }
      }
      SettingForNonNegative(init, k);
    }
  }

  /** With non-negative values, applying settings keeps the invariant. */
  lemma ConfiguredMuted(chs: ChannelMap, settings: seq<Setting>)
    requires NonNegativeSettings(settings)
    ensures MutedWhenInactive(Configured(chs, settings))
  {
    forall k | k in chs {
      SettingForNonNegative(settings, k);
    }
  }

  /** A kind that no entry defines ends at volume 0, off. */
  lemma {:induction false} AbsentKindMuted(chs: ChannelMap, settings: seq<Setting>, k: SoundType)
    requires k in chs
    requires forall i :: 0 <= i < |settings| ==> settings[i].key != Name(k) || settings[i].value.None?
    ensures Configured(chs, settings)[k].volume == 0.0 && !Configured(chs, settings)[k].isActive
  {
    AbsentKindUnset(settings, k);
  }

  lemma {:induction false} AbsentKindUnset(settings: seq<Setting>, k: SoundType)
    requires forall i :: 0 <= i < |settings| ==> settings[i].key != Name(k) || settings[i].value.None?
    ensures SettingFor(settings, k) == None
  {
    if settings != [] {
      var init := settings[..|settings| - 1];
      forall i | 0 <= i < |init| ensures init[i].key != Name(k) || init[i].value.None? {
        assert init[i] == settings[i];
      }
      AbsentKindUnset(init, k);
    }
  }

  /**
   * An entry that does not define kind `k` (another key, or an `undefined`
   * value) does not affect it: dropping the entry gives `k` the same value.
   */
  lemma {:induction false} OtherEntryIrrelevant(settings: seq<Setting>, i: nat, k: SoundType)
    requires i < |settings|
    requires settings[i].key != Name(k) || settings[i].value == None
    ensures SettingFor(settings[..i] + settings[i + 1..], k) == SettingFor(settings, k)
  {
    var n := |settings|;
    var init := settings[..n - 1];
    var dropped := settings[..i] + settings[i + 1..];
    SettingForLast(settings, k);
    if i == n - 1 {
      assert dropped == init;
    } else {
      DropBeforeLast(settings, i);
      OtherEntryIrrelevant(init, i, k);
      SettingForLast(dropped, k);
    }
  }

  /** One unfolding of `SettingFor`: the last entry decides, if it defines `k`. */
  lemma SettingForLast(settings: seq<Setting>, k: SoundType)
    requires settings != []
    ensures var last := settings[|settings| - 1];
      SettingFor(settings, k) ==
        if last.key == Name(k) && last.value.Some? then last.value else SettingFor(settings[..|settings| - 1], k)
  {
  }

  /** Dropping an entry before the last one commutes with taking all but the last. */
  lemma DropBeforeLast(settings: seq<Setting>, i: nat)
    requires i < |settings| - 1
    ensures var dropped := settings[..i] + settings[i + 1..];
      var init := settings[..|settings| - 1];
      && |dropped| == |settings| - 1
      && dropped[..|dropped| - 1] == init[..i] + init[i + 1..]
      && dropped[|dropped| - 1] == settings[|settings| - 1]
      && init[i] == settings[i]
  {
  }

  /**
   * Unknown keys and `undefined` values are ignored: dropping such an entry
   * leaves the configured record unchanged.
   */
  lemma IgnoredEntryIrrelevant(chs: ChannelMap, settings: seq<Setting>, i: nat)
    requires i < |settings|
    requires KindOfName(settings[i].key) == None || settings[i].value == None
    ensures Configured(chs, settings[..i] + settings[i + 1..]) == Configured(chs, settings)
  {
    forall k | k in chs
      ensures SettingFor(settings[..i] + settings[i + 1..], k) == SettingFor(settings, k)
    {
      OtherEntryIrrelevant(settings, i, k);
    }
  }

  /** A value a kind receives is the value of an entry that names it. */
  lemma {:induction false} SettingComesFromEntry(settings: seq<Setting>, k: SoundType)
    ensures SettingFor(settings, k).Some? ==>
      exists i :: 0 <= i < |settings| && settings[i].key == Name(k) && settings[i].value == SettingFor(settings, k)
  {
    if settings != [] {
      var n := |settings|;
      var init := settings[..n - 1];
      if !(settings[n - 1].key == Name(k) && settings[n - 1].value.Some?) {
        SettingComesFromEntry(init, k);
        if SettingFor(init, k).Some? {
          var i :| 0 <= i < |init| && init[i].key == Name(k) && init[i].value == SettingFor(init, k);
          assert settings[i] == init[i];
        }
      }
    }
  }

  /** A kind named by some entry with a defined value does receive a value. */
  lemma {:induction false} DefinedEntrySets(settings: seq<Setting>, i: nat, k: SoundType)
    requires i < |settings| && settings[i].key == Name(k) && settings[i].value.Some?
    ensures SettingFor(settings, k).Some?
  {
    var n := |settings|;
    if i != n - 1 {
      var init := settings[..n - 1];
      assert init[i] == settings[i];
      DefinedEntrySets(init, i, k);
    }
  }

  /** Entries have distinct keys, as the entries of one object do. */
  predicate DistinctKeys(settings: seq<Setting>)
  {
    forall i, j :: 0 <= i < j < |settings| ==> settings[i].key != settings[j].key
  }

  /** With distinct keys, a kind named with a defined value gets exactly that value. */
  lemma {:induction false} DefinedEntryApplied(settings: seq<Setting>, i: nat, k: SoundType)
    requires DistinctKeys(settings)
    requires i < |settings| && settings[i].key == Name(k) && settings[i].value.Some?
    ensures SettingFor(settings, k) == settings[i].value
  {
    var n := |settings|;
    if i != n - 1 {
      var init := settings[..n - 1];
      assert settings[n - 1].key != Name(k);
      assert init[i] == settings[i];
      assert DistinctKeys(init) by {
        forall a, b | 0 <= a < b < |init| ensures init[a].key != init[b].key {
          assert init[a] == settings[a] && init[b] == settings[b];
        }
      }
      DefinedEntryApplied(init, i, k);
    }
  }

  /** The translator's settings for a storm mood. */
  const Storm: seq<Setting> := [Setting("rain", Some(0.8)), Setting("wind", Some(0.6)), Setting("brown", Some(0.3))]

  /**
   * A storm mood: rain 0.8, wind 0.6, brown 0.3. Those three end on at exactly
   * those volumes; the other five end off at volume 0.
   */
  lemma StormScenario(chs: ChannelMap)
    requires WellKeyed(chs)
    ensures var r := Configured(chs, Storm);
      && r[Rain].volume == 0.8 && r[Rain].isActive
      && r[Wind].volume == 0.6 && r[Wind].isActive
      && r[Brown].volume == 0.3 && r[Brown].isActive
      && (forall k :: k in {White, Pink, Fire, Stream, Waves} ==> r[k].volume == 0.0 && !r[k].isActive)
  {
    assert DistinctKeys(Storm);
    DefinedEntryApplied(Storm, 0, Rain);
    DefinedEntryApplied(Storm, 1, Wind);
    DefinedEntryApplied(Storm, 2, Brown);
    forall k | k in {White, Pink, Fire, Stream, Waves} ensures Configured(chs, Storm)[k].volume == 0.0 && !Configured(chs, Storm)[k].isActive {
      AbsentKindMuted(chs, Storm, k);
    }
  }

  /** The volumes alone: the view of the record that the audio engine receives. */
  function Volumes(chs: ChannelMap): (v: map<SoundType, real>)
    ensures v.Keys == chs.Keys
    ensures forall k :: k in chs ==> v[k] == chs[k].volume
  {
    map k | k in chs :: chs[k].volume
  }
}
