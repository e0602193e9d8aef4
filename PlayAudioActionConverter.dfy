/** PlayAudioActionConverter: resolves the sections of one parsed "play audio"
    action into the fields of a PlayAudioAction. Each parser context is a record
    of the tokens and sub-contexts the grammar may or may not have matched; each
    group of mutually exclusive alternatives is resolved by StreamUtil. */
module PlayAudioActionConverter {
  import opened Results
  import opened StreamUtil
  import opened Text
  import opened JavaNumbers
  import opened PlayAudioActionModel
  import Immerse

  /** A token, by its text. */
  type Token = string

  /** What the converter reads besides the parse tree: the number parsers
      (Integer.valueOf and Double.parseDouble, partial), the adventure's speaker
      resources, and the names of the SampleRate enum constants. */
  datatype Env = Env(
    toInt: string -> Option<int>,
    toDouble: string -> Option<real>,
    speakers: seq<Immerse.Speaker>,
    sampleRates: set<string>)

  // ---------------------------------------------------------------------------
  // Parser contexts

  datatype FileResourceContext = FileResourceContext(filename: Token)
  datatype UrlResourceContext = UrlResourceContext(
    urlString: Token,
    format: Option<Token>,
    stereo: Option<Token>,
    sampleRate: Option<Token>,
    oneByte: Option<Token>,
    signed: Option<Token>,
    littleEndian: Option<Token>)
  datatype ResourceSectionContext = ResourceSectionContext(
    fileResource: Option<FileResourceContext>,
    urlResource: Option<UrlResourceContext>)

  datatype VolumeSectionContext = VolumeSectionContext(volume: Token, fadeIn: Option<Token>)

  datatype SingleSpeakerContext = SingleSpeakerContext(speakerId: Token)
  datatype MultipleSpeakersContext = MultipleSpeakersContext(speakerIds: Token)
  datatype AllSpeakersContext = AllSpeakersContext
  datatype SourceSpeakerSectionContext = SourceSpeakerSectionContext(
    singleSpeaker: Option<SingleSpeakerContext>,
    multipleSpeakers: Option<MultipleSpeakersContext>,
    allSpeakers: Option<AllSpeakersContext>)

  datatype FixedLocationContext = FixedLocationContext(location: Token)
  datatype PathLocationContext = PathLocationContext(path: Token, speed: Token)
  datatype CirclingLocationContext = CirclingLocationContext(
    clockwise: Option<Token>,
    antiClockwise: Option<Token>,
    center: Token,
    radius: Token,
    startAngle: Option<Token>,
    speed: Token)
  datatype LocationSectionContext = LocationSectionContext(
    fixedLocation: Option<FixedLocationContext>,
    pathLocation: Option<PathLocationContext>,
    circlingLocation: Option<CirclingLocationContext>)
  datatype SourceLocationSectionContext = SourceLocationSectionContext(locationSection: LocationSectionContext)
  datatype ListenerLocationSectionContext = ListenerLocationSectionContext(locationSection: LocationSectionContext)

  datatype NormalizeSectionContext = NormalizeSectionContext(
    asOneSpeaker: Option<Token>,
    asAllSpeakers: Option<Token>)
  datatype PlaybackSectionContext = PlaybackSectionContext(
    once: Option<Token>,
    repeat: Option<Token>,
    forever: Option<Token>,
    seconds: Option<Token>)
  datatype VariableSectionContext = VariableSectionContext(variableName: Token)

  // ---------------------------------------------------------------------------
  // Numbers and vectors

  /** One numeric token: its value, or InvalidNumericLiteral naming it. */
  function Number<T>(parse: string -> Option<T>, text: string): (r: Result<T, Error>)
    ensures r.Success? <==> parse(text).Some?
    ensures r.Success? ==> parse(text) == Some(r.value)
    ensures r.Failure? ==> r.error == InvalidNumericLiteral(text)
  {
    match parse(text)
    case Some(v) => Success(v)
    case None => Failure(InvalidNumericLiteral(text))
  }

  /** `toOptionalDouble`: an absent token gives no value. */
  function OptionalNumber<T>(parse: string -> Option<T>, token: Option<Token>): (r: Result<Option<T>, Error>)
    ensures token.None? ==> r == Success(None)
    ensures token.Some? ==> (r.Success? <==> parse(token.value).Some?)
    ensures token.Some? && r.Success? ==> r.value == parse(token.value)
  {
    match token
    case None => Success(None)
    case Some(t) =>
      var v :- Number(parse, t);
      Success(Some(v))
  }

  /** Each piece parsed in turn, the first bad piece failing the whole. */
  function ParseNumbers<T>(pieces: seq<string>, parse: string -> Option<T>): (r: Result<seq<T>, Error>)
    ensures r.Success? <==> forall i :: 0 <= i < |pieces| ==> parse(pieces[i]).Some?
    ensures r.Success? ==> |r.value| == |pieces| && forall i :: 0 <= i < |pieces| ==> parse(pieces[i]) == Some(r.value[i])
    ensures r.Failure? ==> r.error.InvalidNumericLiteral? && r.error.literal in pieces && parse(r.error.literal).None?
  {
    if pieces == [] then Success([])
    else
      var first :- Number(parse, pieces[0]);
      var rest :- ParseNumbers(pieces[1..], parse);
      Success([first] + rest)
  }

  /** `parseVector3D`: both parentheses removed, then one component per
      `,`-separated piece, in order. */
  function ParseVector3D(env: Env, text: Token): (r: Result<Coordinates, Error>)
    ensures var pieces := JavaSplit(StripParentheses(text), ',');
      && (r.Success? <==> forall i :: 0 <= i < |pieces| ==> env.toDouble(pieces[i]).Some?)
      && (r.Success? ==> |r.value| == |pieces| && forall i :: 0 <= i < |pieces| ==> env.toDouble(pieces[i]) == Some(r.value[i]))
  {
    ParseNumbers(JavaSplit(StripParentheses(text), ','), env.toDouble)
  }

  /** Each piece parsed in turn by `parse`, the first failure failing the whole. */
  function ParseEach<T>(pieces: seq<string>, parse: string -> Result<T, Error>): (r: Result<seq<T>, Error>)
    ensures r.Success? <==> forall i :: 0 <= i < |pieces| ==> parse(pieces[i]).Success?
    ensures r.Success? ==> |r.value| == |pieces|
    ensures r.Success? ==> forall i :: 0 <= i < |pieces| ==> parse(pieces[i]) == Success(r.value[i])
  {
    if pieces == [] then Success([])
    else
      var first :- parse(pieces[0]);
      var rest :- ParseEach(pieces[1..], parse);
      Success([first] + rest)
  }

  /** One vector per piece, in order. */
  function ParseVectors(env: Env, pieces: seq<string>): (r: Result<seq<Coordinates>, Error>)
    ensures r.Success? <==> forall i :: 0 <= i < |pieces| ==> ParseVector3D(env, pieces[i]).Success?
    ensures r.Success? ==> |r.value| == |pieces|
    ensures r.Success? ==> forall i :: 0 <= i < |pieces| ==> ParseVector3D(env, pieces[i]) == Success(r.value[i])
  {
    ParseEach(pieces, t => ParseVector3D(env, t))
  }

  /** A present alternative whose parse may fail. */
  function Alternative<T>(r: Result<T, Error>): (o: Result<Option<T>, Error>)
    ensures o.Success? <==> r.Success?
    ensures r.Success? ==> o.value == Some(r.value)
    ensures r.Failure? ==> o.error == r.error
  {
    match r
    case Success(v) => Success(Some(v))
    case Failure(e) => Failure(e)
  }

  // ---------------------------------------------------------------------------
  // Resource

  const RATE_PREFIX: string := "RATE_"

  /** The format descriptor the tokens select, each attribute by the presence of its token. */
  ghost predicate FormatOf(f: Immerse.AudioFormat, ctx: UrlResourceContext)
    requires ctx.sampleRate.Some?
  {
    && (f.recordingMode == Immerse.Stereo <==> ctx.stereo.Some?)
    && f.sampleRate == Immerse.SampleRate(RATE_PREFIX + ctx.sampleRate.value)
    && (f.sampleSize == Immerse.OneByte <==> ctx.oneByte.Some?)
    && (f.signed <==> ctx.signed.Some?)
    && (f.byteOrder == Immerse.LittleEndian <==> ctx.littleEndian.Some?)
  }

  function ParseUrlResource(env: Env, ctx: UrlResourceContext): (r: Result<Resource, Error>)
    ensures ctx.format.None? ==> r == Success(Url(ctx.urlString, None))
    ensures ctx.format.Some? && ctx.sampleRate.None? ==> r == Failure(MissingToken("sampleRate"))
    ensures ctx.format.Some? && ctx.sampleRate.Some? ==>
      (r.Success? <==> RATE_PREFIX + ctx.sampleRate.value in env.sampleRates)
    ensures ctx.format.Some? && r.Failure? && ctx.sampleRate.Some? ==>
      r.error == UnknownSampleRate(RATE_PREFIX + ctx.sampleRate.value)
    ensures r.Success? ==> r.value.Url? && r.value.urlString == ctx.urlString
    ensures r.Success? && ctx.format.Some? ==> r.value.audioFormat.Some? && FormatOf(r.value.audioFormat.value, ctx)
  {
    if ctx.format.None? then Success(Url(ctx.urlString, None))
    else if ctx.sampleRate.None? then Failure(MissingToken("sampleRate"))
    else
      var rateName := RATE_PREFIX + ctx.sampleRate.value;
      if rateName !in env.sampleRates then Failure(UnknownSampleRate(rateName))
      else
        var format := Immerse.AudioFormat(
          if ctx.stereo.Some? then Immerse.Stereo else Immerse.Mono,
          Immerse.SampleRate(rateName),
          if ctx.oneByte.Some? then Immerse.OneByte else Immerse.TwoBytes,
          ctx.signed.Some?,
          if ctx.littleEndian.Some? then Immerse.LittleEndian else Immerse.BigEndian);
        Success(Url(ctx.urlString, Some(format)))
  }

  /** The resource is the one alternative present: a file keeps its name as written. */
  function ResolveResourceSection(env: Env, ctx: ResourceSectionContext): (r: Result<Resource, Error>)
    ensures r.Success? ==> (ctx.fileResource.Some? <==> ctx.urlResource.None?)
    ensures ctx.fileResource.Some? && ctx.urlResource.None? ==> r == Success(File(ctx.fileResource.value.filename))
    ensures ctx.fileResource.None? && ctx.urlResource.Some? ==> r == ParseUrlResource(env, ctx.urlResource.value)
    ensures ctx.fileResource.None? && ctx.urlResource.None? ==> r == Failure(MissingAlternative)
    ensures ctx.fileResource.Some? && ctx.urlResource.Some? && ParseUrlResource(env, ctx.urlResource.value).Success? ==>
      r == Failure(AmbiguousAlternative)
    ensures ctx.urlResource.Some? && ParseUrlResource(env, ctx.urlResource.value).Failure? ==>
      r == ParseUrlResource(env, ctx.urlResource.value)
  {
    var file: Option<Resource> := if ctx.fileResource.Some? then Some(File(ctx.fileResource.value.filename)) else None;
    var url :- if ctx.urlResource.Some? then Alternative(ParseUrlResource(env, ctx.urlResource.value)) else Success(None);
    PresentCountOfTwo(file, url);
    GetOne([file, url])
  }

  // ---------------------------------------------------------------------------
  // Volume

  function ResolveVolumeSection(env: Env, ctx: VolumeSectionContext): (r: Result<Volume, Error>)
    ensures r.Success? <==> env.toInt(ctx.volume).Some? && (ctx.fadeIn.Some? ==> env.toDouble(ctx.fadeIn.value).Some?)
    ensures r.Success? ==> Some(r.value.volumePercentage) == env.toInt(ctx.volume)
    ensures r.Success? ==> (r.value.fadeInMillis.Some? <==> ctx.fadeIn.Some?)
    ensures r.Success? && ctx.fadeIn.Some? ==>
      r.value.fadeInMillis.value == DoubleToInt(env.toDouble(ctx.fadeIn.value).value * 1000.0)
  {
    var volumePercentage :- Number(env.toInt, ctx.volume);
    var fadeInSeconds :- OptionalNumber(env.toDouble, ctx.fadeIn);
    var fadeInMillis := match fadeInSeconds
      case Some(seconds) => Some(DoubleToInt(seconds * 1000.0))
      case None => None;
    Success(Volume(volumePercentage, fadeInMillis))
  }

  // ---------------------------------------------------------------------------
  // Speakers

  function ParseSingleSpeaker(env: Env, ctx: SingleSpeakerContext): (r: Result<seq<int>, Error>)
    ensures r.Success? <==> env.toInt(ctx.speakerId).Some?
    ensures r.Success? ==> r.value == [env.toInt(ctx.speakerId).value]
  {
    var id :- Number(env.toInt, ctx.speakerId);
    Success([id])
  }

  /** One id per `,`-separated piece, in the literal's order, duplicates kept. */
  function ParseMultipleSpeakers(env: Env, ctx: MultipleSpeakersContext): (r: Result<seq<int>, Error>)
    ensures var pieces := JavaSplit(ctx.speakerIds, ',');
      && (r.Success? <==> forall i :: 0 <= i < |pieces| ==> env.toInt(pieces[i]).Some?)
      && (r.Success? ==> |r.value| == |pieces| && forall i :: 0 <= i < |pieces| ==> env.toInt(pieces[i]) == Some(r.value[i]))
  {
    ParseNumbers(JavaSplit(ctx.speakerIds, ','), env.toInt)
  }

  /** The ids of every speaker resource of the adventure, in resource order. */
  function ParseAllSpeakers(env: Env, ctx: AllSpeakersContext): (r: seq<int>)
    ensures |r| == |env.speakers|
    ensures forall i :: 0 <= i < |r| ==> r[i] == env.speakers[i].id
  {
    Immerse.SpeakerIds(env.speakers)
  }

  /** How many of the speaker alternatives the parser matched. */
  function SpeakerAlternatives(ctx: SourceSpeakerSectionContext): nat
  {
    Present(ctx.singleSpeaker) + Present(ctx.multipleSpeakers) + Present(ctx.allSpeakers)
  }

  function ResolveSourceSpeakerSection(env: Env, ctx: SourceSpeakerSectionContext): (r: Result<SoundSource, Error>)
    ensures r.Success? ==> SpeakerAlternatives(ctx) == 1 && r.value.SpeakerIds?
    ensures SpeakerAlternatives(ctx) == 0 ==> r == Failure(MissingAlternative)
    ensures ctx.singleSpeaker.Some? && SpeakerAlternatives(ctx) == 1 ==>
      r == (var ids :- ParseSingleSpeaker(env, ctx.singleSpeaker.value); Success(SpeakerIds(ids)))
    ensures ctx.multipleSpeakers.Some? && SpeakerAlternatives(ctx) == 1 ==>
      r == (var ids :- ParseMultipleSpeakers(env, ctx.multipleSpeakers.value); Success(SpeakerIds(ids)))
    ensures ctx.allSpeakers.Some? && SpeakerAlternatives(ctx) == 1 ==>
      r == Success(SpeakerIds(Immerse.SpeakerIds(env.speakers)))
    ensures SpeakerAlternatives(ctx) >= 2
      && (ctx.singleSpeaker.Some? ==> ParseSingleSpeaker(env, ctx.singleSpeaker.value).Success?)
      && (ctx.multipleSpeakers.Some? ==> ParseMultipleSpeakers(env, ctx.multipleSpeakers.value).Success?)
      ==> r == Failure(AmbiguousAlternative)
    ensures ctx.singleSpeaker.Some? && ParseSingleSpeaker(env, ctx.singleSpeaker.value).Failure? ==>
      r == Failure(ParseSingleSpeaker(env, ctx.singleSpeaker.value).error)
  {
    var single :- if ctx.singleSpeaker.Some? then Alternative(ParseSingleSpeaker(env, ctx.singleSpeaker.value)) else Success(None);
    var multiple :- if ctx.multipleSpeakers.Some? then Alternative(ParseMultipleSpeakers(env, ctx.multipleSpeakers.value)) else Success(None);
    var all := if ctx.allSpeakers.Some? then Some(ParseAllSpeakers(env, ctx.allSpeakers.value)) else None;
    PresentCountOfThree(single, multiple, all);
    var ids :- GetOne([single, multiple, all]);
    Success(SpeakerIds(ids))
  }

  // ---------------------------------------------------------------------------
  // Locations

  function ParseFixedLocation(env: Env, ctx: FixedLocationContext): (r: Result<DynamicLocation, Error>)
    ensures r.Success? <==> ParseVector3D(env, ctx.location).Success?
    ensures r.Success? ==> r.value == StaticLocation(ParseVector3D(env, ctx.location).value)
  {
    var location :- ParseVector3D(env, ctx.location);
    Success(StaticLocation(location))
  }

  /** One waypoint per `;`-separated piece, in order, and the parsed speed. */
  function ParsePathLocation(env: Env, ctx: PathLocationContext): (r: Result<DynamicLocation, Error>)
    ensures var pieces := JavaSplit(ctx.path, ';');
      r.Success? <==> (forall i :: 0 <= i < |pieces| ==> ParseVector3D(env, pieces[i]).Success?)
                      && env.toDouble(ctx.speed).Some?
    ensures var pieces := JavaSplit(ctx.path, ';');
      r.Success? ==> (
        && r.value.PathLocation? && |r.value.path.waypoints| == |pieces|
        && (forall i :: 0 <= i < |pieces| ==> ParseVector3D(env, pieces[i]) == Success(r.value.path.waypoints[i]))
        && env.toDouble(ctx.speed) == Some(r.value.path.speed))
  {
    var waypoints :- ParseVectors(env, JavaSplit(ctx.path, ';'));
    var speed :- Number(env.toDouble, ctx.speed);
    Success(PathLocation(Path(waypoints, speed)))
  }

  /** Clockwise when its keyword is present, anti-clockwise when that one is,
      and no direction when neither is; the start angle is optional. */
  function ParseCirclingLocation(env: Env, ctx: CirclingLocationContext): (r: Result<DynamicLocation, Error>)
    ensures ctx.clockwise.Some? && ctx.antiClockwise.Some? ==> r == Failure(AmbiguousAlternative)
    ensures r.Success? <==>
      && !(ctx.clockwise.Some? && ctx.antiClockwise.Some?)
      && ParseVector3D(env, ctx.center).Success?
      && env.toDouble(ctx.radius).Some?
      && (ctx.startAngle.Some? ==> env.toDouble(ctx.startAngle.value).Some?)
      && env.toDouble(ctx.speed).Some?
    ensures r.Success? ==> r.value.CirclingLocation?
    ensures r.Success? ==> (
      var c := r.value.circling;
      && (c.clockwise == Some(true) <==> ctx.clockwise.Some?)
      && (c.clockwise == Some(false) <==> ctx.antiClockwise.Some?)
      && Success(c.center) == ParseVector3D(env, ctx.center)
      && Some(c.radius) == env.toDouble(ctx.radius)
      && (c.startAngle.Some? <==> ctx.startAngle.Some?)
      && (ctx.startAngle.Some? ==> c.startAngle == env.toDouble(ctx.startAngle.value))
      && Some(c.speed) == env.toDouble(ctx.speed))
  {
    var clockwise :- MaybeOne(
      if ctx.clockwise.Some? then Some(true) else None,
      if ctx.antiClockwise.Some? then Some(false) else None);
    var center :- ParseVector3D(env, ctx.center);
    var radius :- Number(env.toDouble, ctx.radius);
    var startAngle :- OptionalNumber(env.toDouble, ctx.startAngle);
    var speed :- Number(env.toDouble, ctx.speed);
    Success(CirclingLocation(Circling(center, radius, startAngle, speed, clockwise)))
  }

  /** How many of the location alternatives the parser matched. */
  function LocationAlternatives(ctx: LocationSectionContext): nat
  {
    Present(ctx.fixedLocation) + Present(ctx.pathLocation) + Present(ctx.circlingLocation)
  }

  /** A location is exactly one of fixed, path or circling, of the kind matched. */
  function ParseLocationSection(env: Env, ctx: LocationSectionContext): (r: Result<DynamicLocation, Error>)
    ensures r.Success? ==> LocationAlternatives(ctx) == 1
    ensures r.Success? ==> (r.value.StaticLocation? <==> ctx.fixedLocation.Some?)
    ensures r.Success? ==> (r.value.PathLocation? <==> ctx.pathLocation.Some?)
    ensures r.Success? ==> (r.value.CirclingLocation? <==> ctx.circlingLocation.Some?)
    ensures LocationAlternatives(ctx) == 0 ==> r == Failure(MissingAlternative)
    ensures ctx.fixedLocation.Some? && LocationAlternatives(ctx) == 1 ==> r == ParseFixedLocation(env, ctx.fixedLocation.value)
    ensures ctx.pathLocation.Some? && LocationAlternatives(ctx) == 1 ==> r == ParsePathLocation(env, ctx.pathLocation.value)
    ensures ctx.circlingLocation.Some? && LocationAlternatives(ctx) == 1 ==> r == ParseCirclingLocation(env, ctx.circlingLocation.value)
    ensures LocationAlternatives(ctx) >= 2
      && (ctx.fixedLocation.Some? ==> ParseFixedLocation(env, ctx.fixedLocation.value).Success?)
      && (ctx.pathLocation.Some? ==> ParsePathLocation(env, ctx.pathLocation.value).Success?)
      && (ctx.circlingLocation.Some? ==> ParseCirclingLocation(env, ctx.circlingLocation.value).Success?)
      ==> r == Failure(AmbiguousAlternative)
    ensures ctx.fixedLocation.Some? && ParseFixedLocation(env, ctx.fixedLocation.value).Failure? ==>
      r == ParseFixedLocation(env, ctx.fixedLocation.value)
  {
    var fixed :- if ctx.fixedLocation.Some? then Alternative(ParseFixedLocation(env, ctx.fixedLocation.value)) else Success(None);
    var path :- if ctx.pathLocation.Some? then Alternative(ParsePathLocation(env, ctx.pathLocation.value)) else Success(None);
    var circling :- if ctx.circlingLocation.Some? then Alternative(ParseCirclingLocation(env, ctx.circlingLocation.value)) else Success(None);
    PresentCountOfThree(fixed, path, circling);
    GetOne([fixed, path, circling])
  }

  function ResolveSourceLocationSection(env: Env, ctx: SourceLocationSectionContext): (r: Result<SoundSource, Error>)
    ensures r.Success? <==> ParseLocationSection(env, ctx.locationSection).Success?
    ensures r.Success? ==> r.value == DynamicLocationSource(ParseLocationSection(env, ctx.locationSection).value)
  {
    var location :- ParseLocationSection(env, ctx.locationSection);
    Success(DynamicLocationSource(location))
  }

  // ---------------------------------------------------------------------------
  // Normalize, playback, variable

  function ResolveNormalizeSection(ctx: NormalizeSectionContext): (r: Result<Option<Normalize>, Error>)
    ensures ctx.asOneSpeaker.Some? && ctx.asAllSpeakers.None? ==> r == Success(Some(AsOneSpeaker))
    ensures ctx.asOneSpeaker.None? && ctx.asAllSpeakers.Some? ==> r == Success(Some(AsAllSpeakers))
    ensures ctx.asOneSpeaker.None? && ctx.asAllSpeakers.None? ==> r == Success(None)
    ensures ctx.asOneSpeaker.Some? && ctx.asAllSpeakers.Some? ==> r == Failure(AmbiguousAlternative)
  {
    GetOneAsOptional([
      if ctx.asOneSpeaker.Some? then Some(AsOneSpeaker) else None,
      if ctx.asAllSpeakers.Some? then Some(AsAllSpeakers) else None])
  }

  /** How many of the playback keywords the parser matched. */
  function PlaybackAlternatives(ctx: PlaybackSectionContext): nat
  {
    Present(ctx.once) + Present(ctx.repeat) + Present(ctx.forever) + Present(ctx.seconds)
  }

  function ResolvePlaybackSection(env: Env, ctx: PlaybackSectionContext): (r: Result<Option<Playback>, Error>)
    ensures PlaybackAlternatives(ctx) == 0 ==> r == Success(None)
    ensures r.Success? ==> PlaybackAlternatives(ctx) <= 1
    ensures r.Success? && r.value.Some? ==> PlaybackAlternatives(ctx) == 1
    ensures ctx.once.Some? && PlaybackAlternatives(ctx) == 1 ==> r == Success(Some(Once))
    ensures ctx.forever.Some? && PlaybackAlternatives(ctx) == 1 ==> r == Success(Some(Forever))
    ensures ctx.repeat.Some? && PlaybackAlternatives(ctx) == 1 ==>
      (r.Success? <==> env.toInt(ctx.repeat.value).Some?) &&
      (r.Success? ==> r.value == Some(Repeat(env.toInt(ctx.repeat.value).value)))
    ensures ctx.seconds.Some? && PlaybackAlternatives(ctx) == 1 ==>
      (r.Success? <==> env.toInt(ctx.seconds.value).Some?) &&
      (r.Success? ==> r.value == Some(Seconds(env.toInt(ctx.seconds.value).value)))
    ensures PlaybackAlternatives(ctx) >= 2
      && (ctx.repeat.Some? ==> env.toInt(ctx.repeat.value).Some?)
      && (ctx.seconds.Some? ==> env.toInt(ctx.seconds.value).Some?)
      ==> r == Failure(AmbiguousAlternative)
    ensures ctx.repeat.Some? && env.toInt(ctx.repeat.value).None? ==>
      r == Failure(InvalidNumericLiteral(ctx.repeat.value))
  {
    var once := if ctx.once.Some? then Some(Once) else None;
    var repeat :- if ctx.repeat.Some? then Alternative(var n :- Number(env.toInt, ctx.repeat.value); Success(Repeat(n))) else Success(None);
    var forever := if ctx.forever.Some? then Some(Forever) else None;
    var seconds :- if ctx.seconds.Some? then Alternative(var n :- Number(env.toInt, ctx.seconds.value); Success(Seconds(n))) else Success(None);
    PresentCountOfFour(once, repeat, forever, seconds);
    GetOneAsOptional([once, repeat, forever, seconds])
  }

  // ---------------------------------------------------------------------------
  // Properties of the string handling

  /** Parentheses around a vector literal do not change the vector. */
  lemma ParenthesesIgnored(env: Env, s: string)
    requires '(' !in s && ')' !in s
    ensures ParseVector3D(env, "(" + s + ")") == ParseVector3D(env, s)
  {
    StripEnclosingParentheses(s);
    StripParenthesesNoop(s);
  }

  /** A vector literal written as its components joined by commas, in
      parentheses, parses to those components in order. */
  lemma VectorFromComponents(env: Env, components: seq<string>)
    requires |components| >= 1 && components[|components| - 1] != []
    requires forall i :: 0 <= i < |components| ==> ',' !in components[i] && '(' !in components[i] && ')' !in components[i]
    ensures ParseVector3D(env, "(" + Join(components, ',') + ")") == ParseNumbers(components, env.toDouble)
  {
    var s := Join(components, ',');
    JoinExcludes(components, ',', '(');
    JoinExcludes(components, ',', ')');
    ParenthesesIgnored(env, s);
    StripParenthesesNoop(s);
    JavaSplitJoin(components, ',');
  }

  /** A speaker list yields one id per comma-separated piece, in literal order. */
  lemma SpeakersFromPieces(env: Env, pieces: seq<string>)
    requires |pieces| >= 1 && pieces[|pieces| - 1] != []
    requires forall i :: 0 <= i < |pieces| ==> ',' !in pieces[i]
    ensures ParseMultipleSpeakers(env, MultipleSpeakersContext(Join(pieces, ','))) == ParseNumbers(pieces, env.toInt)
  {
    JavaSplitJoin(pieces, ',');
  }

  /** A repeated id is kept: `1,1` names speaker 1 twice. */
  lemma SpeakerListKeepsDuplicates(env: Env)
    requires env.toInt("1") == Some(1)
    ensures ParseMultipleSpeakers(env, MultipleSpeakersContext("1,1")) == Success([1, 1])
  {
    var pieces := ["1", "1"];
    assert pieces[1..] == ["1"];
    assert Join(pieces, ',') == "1,1";
    SpeakersFromPieces(env, pieces);
    var r := ParseNumbers(pieces, env.toInt);
    assert env.toInt(pieces[0]) == Some(1) && env.toInt(pieces[1]) == Some(1);
    assert r.Success? && |r.value| == 2;
    assert r.value[0] == 1 && r.value[1] == 1;
    assert r.value == [1, 1];
  }

  // ---------------------------------------------------------------------------
  // The section handlers: each fills one field of the action, or leaves the
  // action as it was and reports the error.

  method ParseResourceSection(env: Env, ctx: ResourceSectionContext, action: PlayAudioAction) returns (outcome: Outcome<Error>)
    modifies action`resource
    ensures var r := ResolveResourceSection(env, ctx);
      if r.Success? then outcome == Pass && action.resource == Some(r.value)
      else outcome == Fail(r.error) && action.resource == old(action.resource)
  {
    var r := ResolveResourceSection(env, ctx);
    if r.Success? {
      action.resource := Some(r.value);
      outcome := Pass;
    } else {
      outcome := Fail(r.error);
    }
  }

  method ParseVolumeSection(env: Env, ctx: VolumeSectionContext, action: PlayAudioAction) returns (outcome: Outcome<Error>)
    modifies action`volume
    ensures var r := ResolveVolumeSection(env, ctx);
      if r.Success? then outcome == Pass && action.volume == Some(r.value)
      else outcome == Fail(r.error) && action.volume == old(action.volume)
  {
    var r := ResolveVolumeSection(env, ctx);
    if r.Success? {
      action.volume := Some(r.value);
      outcome := Pass;
    } else {
      outcome := Fail(r.error);
    }
  }

  method ParseSourceSpeakerSection(env: Env, ctx: SourceSpeakerSectionContext, action: PlayAudioAction) returns (outcome: Outcome<Error>)
    modifies action`soundSource
    ensures var r := ResolveSourceSpeakerSection(env, ctx);
      if r.Success? then outcome == Pass && action.soundSource == Some(r.value)
      else outcome == Fail(r.error) && action.soundSource == old(action.soundSource)
  {
    var r := ResolveSourceSpeakerSection(env, ctx);
    if r.Success? {
      action.soundSource := Some(r.value);
      outcome := Pass;
    } else {
      outcome := Fail(r.error);
    }
  }

  method ParseSourceLocationSection(env: Env, ctx: SourceLocationSectionContext, action: PlayAudioAction) returns (outcome: Outcome<Error>)
    modifies action`soundSource
    ensures var r := ResolveSourceLocationSection(env, ctx);
      if r.Success? then outcome == Pass && action.soundSource == Some(r.value)
      else outcome == Fail(r.error) && action.soundSource == old(action.soundSource)
  {
    var r := ResolveSourceLocationSection(env, ctx);
    if r.Success? {
      action.soundSource := Some(r.value);
      outcome := Pass;
    } else {
      outcome := Fail(r.error);
    }
  }

  method ParseListenerLocationSection(env: Env, ctx: ListenerLocationSectionContext, action: PlayAudioAction) returns (outcome: Outcome<Error>)
    modifies action`listenerLocation
    ensures var r := ParseLocationSection(env, ctx.locationSection);
      if r.Success? then outcome == Pass && action.listenerLocation == Some(r.value)
      else outcome == Fail(r.error) && action.listenerLocation == old(action.listenerLocation)
  {
    var r := ParseLocationSection(env, ctx.locationSection);
    if r.Success? {
      action.listenerLocation := Some(r.value);
      outcome := Pass;
    } else {
      outcome := Fail(r.error);
    }
  }

  /** Assigns the (possibly empty) selection, so a section without a keyword clears the field. */
  method ParseNormalizeSection(ctx: NormalizeSectionContext, action: PlayAudioAction) returns (outcome: Outcome<Error>)
    modifies action`normalize
    ensures var r := ResolveNormalizeSection(ctx);
      if r.Success? then outcome == Pass && action.normalize == r.value
      else outcome == Fail(r.error) && action.normalize == old(action.normalize)
  {
    var r := ResolveNormalizeSection(ctx);
    if r.Success? {
      action.normalize := r.value;
      outcome := Pass;
    } else {
      outcome := Fail(r.error);
    }
  }

  /** Assigns the (possibly empty) selection, so a section without a keyword clears the field. */
  method ParsePlaybackSection(env: Env, ctx: PlaybackSectionContext, action: PlayAudioAction) returns (outcome: Outcome<Error>)
    modifies action`playback
    ensures var r := ResolvePlaybackSection(env, ctx);
      if r.Success? then outcome == Pass && action.playback == r.value
      else outcome == Fail(r.error) && action.playback == old(action.playback)
  {
    var r := ResolvePlaybackSection(env, ctx);
    if r.Success? {
      action.playback := r.value;
      outcome := Pass;
    } else {
      outcome := Fail(r.error);
    }
  }

  method ParseVariableSection(ctx: VariableSectionContext, action: PlayAudioAction)
    modifies action`saveAsVariable
    ensures action.saveAsVariable == Some(ctx.variableName)
  {
    action.saveAsVariable := Some(ctx.variableName);
  }
}
