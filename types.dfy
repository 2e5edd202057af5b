/**
 * The shared types of the mixer (types.ts): the closed set of sound kinds,
 * the per-channel UI record and the shape of the mood translator's answer.
 */
module Types {
  import opened Wrappers

  /** `SoundType`: exactly eight channel kinds. */
  datatype SoundType = White | Pink | Brown | Rain | Wind | Fire | Stream | Waves

  /** The kinds in the order the program lists them (constants and the engine's `types` array). */
  const AllKinds: seq<SoundType> := [White, Pink, Brown, Rain, Wind, Fire, Stream, Waves]

  /** Every kind, as a set. */
  const Kinds: set<SoundType> := {White, Pink, Brown, Rain, Wind, Fire, Stream, Waves}

  /** The position of a kind in `AllKinds`. */
  function Index(k: SoundType): (i: nat)
    ensures i < |AllKinds| && AllKinds[i] == k
  {
    match k
    case White => 0
    case Pink => 1
    case Brown => 2
    case Rain => 3
    case Wind => 4
    case Fire => 5
    case Stream => 6
    case Waves => 7
  }

  /** The string literal that names a kind in the program (and keys its records). */
  function Name(k: SoundType): string
  {
    match k
    case White => "white"
    case Pink => "pink"
    case Brown => "brown"
    case Rain => "rain"
    case Wind => "wind"
    case Fire => "fire"
    case Stream => "stream"
    case Waves => "waves"
  }

  /**
   * Reading an arbitrary record key as a kind: `Some` exactly for the eight
   * names, `None` for every other string.
   */
  function KindOfName(s: string): (r: Option<SoundType>)
    ensures r.Some? ==> Name(r.value) == s
    ensures forall k :: Name(k) == s ==> r == Some(k)
  {
    if s == "white" then Some(White)
    else if s == "pink" then Some(Pink)
    else if s == "brown" then Some(Brown)
    else if s == "rain" then Some(Rain)
    else if s == "wind" then Some(Wind)
    else if s == "fire" then Some(Fire)
    else if s == "stream" then Some(Stream)
    else if s == "waves" then Some(Waves)
    else None
  }

  /** `Kinds` is every kind. */
  lemma EveryKindInKinds()
    ensures forall k :: k in Kinds
  {
    forall k ensures k in Kinds {
      match k
      case White => case Pink => case Brown => case Rain =>
      case Wind => case Fire => case Stream => case Waves =>
    }
  }

  /** The list of kinds holds every kind exactly once. */
  lemma KindsListedOnce()
    ensures |AllKinds| == 8
    ensures forall k :: k in AllKinds
    ensures forall i, j :: 0 <= i < j < |AllKinds| ==> AllKinds[i] != AllKinds[j]
  {
    forall k ensures k in AllKinds {
      assert AllKinds[Index(k)] == k;
    }
  }

  /** Distinct kinds have distinct names. */
  lemma NamesDistinct(a: SoundType, b: SoundType)
    requires Name(a) == Name(b)
    ensures a == b
  {
    assert KindOfName(Name(a)) == Some(a);
  }

  /**
   * `SoundChannel`: one card's state. `volume` is documented as 0 to 1 but
   * nothing enforces it, so it is an unconstrained real here.
   */
  datatype SoundChannel = SoundChannel(id: SoundType, name: string, icon: string, volume: real, isActive: bool)

  /** One entry of the translator's `settings` object; `None` stands for `undefined`. */
  datatype Setting = Setting(key: string, value: Option<real>)

  /**
   * `MixerConfigResponse`: a label, a partial kind-to-volume mapping given as
   * the object's entries in order (any kind may be missing, and a parsed
   * answer may carry keys that are not kinds), and a colour.
   */
  datatype MixerConfigResponse = MixerConfigResponse(description: string, settings: seq<Setting>, moodHex: string)
}
