/** The immerse library's domain objects as the core sees them. The library's
    factories are foreign code: each becomes a constructor that records the
    arguments it received, and nothing of their own behaviour is modelled. */
module Immerse {
  import opened Results

  datatype Vector3D = Vector3D(x: real, y: real, z: real)

  datatype Speaker = Speaker(id: int, position: Vector3D)

  /** A room's speakers, in the iteration order of its id-to-speaker map. */
  type Room = seq<Speaker>

  /** The ids are unique, as the keys of the room's id-to-speaker map. */
  ghost predicate DistinctIds(room: Room)
  {
    forall i, j :: 0 <= i < j < |room| ==> room[i].id != room[j].id
  }

  /** The room's speaker ids (its map's key set), in iteration order. */
  function SpeakerIds(room: Room): (ids: seq<int>)
    ensures |ids| == |room|
    ensures forall i :: 0 <= i < |room| ==> ids[i] == room[i].id
  {
    if room == [] then [] else [room[0].id] + SpeakerIds(room[1..])
  }

  // ImmerseAudioFormat and its enums
  datatype RecordingMode = Mono | Stereo
  datatype SampleSize = OneByte | TwoBytes
  datatype ByteOrder = LittleEndian | BigEndian
  /** A SampleRate enum constant, by its name. */
  datatype SampleRate = SampleRate(name: string)
  datatype AudioFormat = AudioFormat(
    recordingMode: RecordingMode,
    sampleRate: SampleRate,
    sampleSize: SampleSize,
    signed: bool,
    byteOrder: ByteOrder)

  /** An AudioFileType enum constant, by its name. */
  datatype AudioFileType = AudioFileType(name: string)

  /** FileAudioResource.file, UrlAudioResource.urlWithFormat / urlWithType. */
  datatype AudioResource =
    | FileResource(path: string)
    | UrlResourceWithFormat(url: string, format: AudioFormat)
    | UrlResourceWithType(url: string, fileType: AudioFileType)

  /** FixedDynamicVolume.fixed / full / mute, LinearDynamicVolume.linear / linearWithDelay;
      `flag` is the boolean the builder always passes as `true`. */
  datatype DynamicVolume =
    | Fixed(volume: real)
    | Full
    | Mute
    | Linear(from: real, to: real, inMillis: int, flag: bool)
    | LinearWithDelay(from: real, to: real, inMillis: int, flag: bool, delayMillis: int)

  /** Factory<DynamicLocation>: FixedDynamicLocation.fixed,
      KeyFramesDynamicLocation.keyFrames, HorizontalCircleDynamicLocation.horizontalCircle. */
  datatype LocationFactory =
    | FixedLocation(position: Vector3D)
    | KeyFrames(keyFrames: map<int, Vector3D>, loop: bool)
    | HorizontalCircle(center: Vector3D, startAngle: real, radius: real, clockwise: bool, millisPerFullCircle: real)

  /** FixedVolumeRatiosAlgorithm.fixed over a SpeakerVolumeRatios map, and
      FieldOfHearingVolumeRatiosAlgorithm.fieldOfHearing with or without an angle. */
  datatype VolumeRatiosAlgorithm =
    | FixedRatios(ratios: map<int, real>)
    | FieldOfHearing(room: Room, source: LocationFactory, listener: LocationFactory, angle: Option<real>)

  /** FractionalNormalizeAlgorithm.fractional, MaxSumNormalizeAlgorithm.maxSum. */
  datatype NormalizeAlgorithm = Fractional | MaxSum(maxSum: real)

  /** LoopPlayback.once / times, ForeverPlayback.forever, TimerPlayback.timer. */
  datatype Playback = LoopOnce | LoopTimes(times: int) | Forever | Timer(millis: int)

  /** The slots of a ScenarioSettings.Builder; an empty slot was never set. */
  datatype ScenarioSettings = ScenarioSettings(
    audioResource: Option<AudioResource>,
    volume: Option<DynamicVolume>,
    volumeRatiosAlgorithm: Option<VolumeRatiosAlgorithm>,
    normalizeAlgorithm: Option<NormalizeAlgorithm>,
    playback: Option<Playback>)

  const EmptySettings := ScenarioSettings(None, None, None, None, None)

  datatype Scenario = Scenario(name: string, description: string, settings: ScenarioSettings)
}
