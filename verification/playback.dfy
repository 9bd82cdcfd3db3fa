/**
 * The two computations of playSound that are not audio I/O: the resource
 * path of a cue and the gain offset derived from the volume setting.
 */
module Playback {
  import opened Options

  /** A Java int. */
  type Int32 = x: int | -0x8000_0000 <= x < 0x8000_0000

  const Int32Min: Int32 := -0x8000_0000
  const Int32Max: Int32 := 0x7fff_ffff

  /** The volume setting's default value. */
  const DefaultVolume: Int32 := 100

  /** Two's-complement truncation of an integer to 32 bits. */
  function Wrap32(x: int): (r: Int32)
    ensures (r - x) % 0x1_0000_0000 == 0
  {
    (x + 0x8000_0000) % 0x1_0000_0000 - 0x8000_0000
  }

  /** The integer `volume - 100` that becomes the master gain, in Java int arithmetic. */
  function GainOffset(volume: Int32): (g: Int32)
    ensures Int32Min + 100 <= volume ==> g == volume - 100
    ensures volume < Int32Min + 100 ==> g == volume - 100 + 0x1_0000_0000
  {
    Wrap32(volume - 100)
  }

  /** The volume a gain offset came from: adding 100 back, in Java int arithmetic. */
  function VolumeOfGain(g: Int32): Int32 {
    Wrap32(g + 100)
  }

  /** The offset loses nothing: the volume is recovered from it for every int. */
  lemma GainOffsetRoundTrip(volume: Int32)
    ensures VolumeOfGain(GainOffset(volume)) == volume
  {
  }

  /** The default volume gives offset 0 and volume 0 gives offset -100. */
  lemma GainOffsetEndpoints()
    ensures GainOffset(DefaultVolume) == 0
    ensures GainOffset(0) == -100
  {
  }

  /** On volumes 0..100 the offset lies in -100..0 and preserves order. */
  lemma GainOffsetMonotone(v1: Int32, v2: Int32)
    requires 0 <= v1 <= v2 <= 100
    ensures -100 <= GainOffset(v1) <= GainOffset(v2) <= 0
  {
  }

  /** The resource path of a cue: a leading slash, the name, then ".wav". */
  function SoundPath(name: string): (p: string)
    ensures |p| == |name| + 5
    ensures p[0] == '/' && p[1..|p| - 4] == name && p[|p| - 4..] == ".wav"
  {
    "/" + name + ".wav"
  }

  /** The cue name a resource path denotes, if it has the "/<name>.wav" shape. */
  function CueOfPath(p: string): Option<string> {
    if 5 <= |p| && p[0] == '/' && p[|p| - 4..] == ".wav" then Some(p[1..|p| - 4]) else None
  }

  /** Every cue name is recovered from its path. */
  lemma SoundPathRoundTrip(name: string)
    ensures CueOfPath(SoundPath(name)) == Some(name)
  {
  }

  /** A path that denotes a cue is exactly that cue's path. */
  lemma CueOfPathSound(p: string)
    requires CueOfPath(p).Some?
    ensures SoundPath(CueOfPath(p).value) == p
  {
  }

  /** Different cue names never share a resource path. */
  lemma SoundPathInjective(a: string, b: string)
    ensures SoundPath(a) == SoundPath(b) ==> a == b
  {
  }
}
