/** PlayAudioAction: the typed description of one "play audio" script action,
    filled section by section by the converter. */
module PlayAudioActionModel {
  import opened Results
  import Immerse

  /** A parsed coordinate literal: its components in order, as many as the literal has. */
  type Coordinates = seq<real>

  datatype Resource =
    | File(filename: string)
    | Url(urlString: string, audioFormat: Option<Immerse.AudioFormat>)

  datatype Volume = Volume(volumePercentage: int, fadeInMillis: Option<int>)

  datatype Path = Path(waypoints: seq<Coordinates>, speed: real)

  datatype Circling = Circling(
    center: Coordinates,
    radius: real,
    startAngle: Option<real>,
    speed: real,
    clockwise: Option<bool>)

  datatype DynamicLocation =
    | StaticLocation(location: Coordinates)
    | PathLocation(path: Path)
    | CirclingLocation(circling: Circling)

  datatype SoundSource =
    | SpeakerIds(speakerIds: seq<int>)
    | DynamicLocationSource(dynamicLocation: DynamicLocation)

  datatype Playback = Once | Repeat(times: int) | Forever | Seconds(seconds: int)

  datatype Normalize = AsOneSpeaker | AsAllSpeakers

  class PlayAudioAction {
    var resource: Option<Resource>
    var volume: Option<Volume>
    var soundSource: Option<SoundSource>
    var listenerLocation: Option<DynamicLocation>
    var normalize: Option<Normalize>
    var playback: Option<Playback>
    var saveAsVariable: Option<string>

    /** A new action has no section filled in. */
    constructor ()
      ensures resource == None && volume == None && soundSource == None && listenerLocation == None
      ensures normalize == None && playback == None && saveAsVariable == None
    {
      resource := None;
      volume := None;
      soundSource := None;
      listenerLocation := None;
      normalize := None;
      playback := None;
      saveAsVariable := None;
    }
  }
}
