# Immerse scenario builder and play-audio converter

A Dafny model of two pieces of the adventure room's immerse module.

- **ScenarioBuilderImpl** is the fluent builder the immerse module hands to scripts.
  - It holds a draft of the scenario settings. Each setter overwrites one slot of the draft: audio resource, volume, volume-ratio algorithm, normalize algorithm or playback. The name and description setters overwrite the scenario's name and description.
  - A new builder starts with these defaults:
    - full volume;
    - the sound source at every speaker of the room;
    - fractional normalisation;
    - play once.
  - Three helpers have real logic:
    - `atPath` turns waypoints and a speed into a keyframe map from timestamp to position;
    - `calculateCenterOfRoom` takes the per-axis mean of the speaker positions;
    - `volumeAtSpeakers` builds a weight map over the room's speakers.
  - The model is the class `ScenarioBuilder.ScenarioBuilderImpl`. Its draft settings are a field that every setter method reassigns. `AtPath` keeps the source's loop over the waypoints, with its running total and its map. That loop is proved equal to the specification functions `TravelTime`, `KeyTime` and `KeyFramesUpTo`, which the keyframe lemmas are about.
- **PlayAudioActionConverter** turns one parsed "play audio" action into a `PlayAudioAction`, one section at a time.
  - In each section the grammar offers mutually exclusive alternatives; the converter picks the one the parser matched.
  - Along the way it parses numbers, vector literals such as `(1,2,3)`, comma-separated speaker lists and semicolon-separated paths.
  - Each parser context is a record of optional tokens.
  - Each section is a method that assigns one field of the action object or, on an error, leaves the action unchanged and returns the error.
  - Most sections also have a pure resolver function (`Resolve…Section`) that the method's contract refers to:
    - the listener-location section uses the shared `ParseLocationSection` directly;
    - the variable section only copies the token's text.

Modules:
- `Results`: `Option`, `Result` and `Outcome`, plus the model's `Error`s. An `Error` stands for an exception the source throws.
- `JavaNumbers`:
  - Java's `(int)` cast of a double: truncation toward zero, saturating at the int range;
  - `Math.round`: ⌊x + ½⌋, saturating at the long range.
- `StreamUtil`: the selection helpers `getOne`, `getOneAsOptional` and `maybeOne`.
- `Text`: Java's `String.split` for a one-character separator, including its dropping of trailing empty strings, and the `replaceAll` that removes one character.
- `Immerse`: the immerse library's objects.
  - The library's factories are foreign code. Each is modelled as a datatype constructor that records its arguments.
- `ScenarioBuilder`, `PlayAudioActionModel` and `PlayAudioActionConverter`: the two components and the action they produce.

Parameters standing in for what the model cannot see:
- `Distance`: a non-negative function that replaces la4j's Euclidean norm.
- `Env` holds the rest:
  - the number parsers `Integer.valueOf` and `Double.parseDouble`, as partial functions;
  - the adventure's speaker resources;
  - the names of the `SampleRate` constants.

## Model

| member | source | states |
|---|---|---|
| ScenarioBuilder.ScenarioBuilderImpl.constructor | service-impl/src/main/java/com/programyourhome/adventureroom/module/immerse/service/ScenarioBuilderImpl.java:47-57 | for a room with distinct speaker ids: default name and description; settings hold full volume, fixed ratios over the room's speaker ids, fractional normalize and play-once; no resource |
| ScenarioBuilder.ScenarioBuilderImpl.Name | service-impl/src/main/java/com/programyourhome/adventureroom/module/immerse/service/ScenarioBuilderImpl.java:59-63 | the scenario name becomes the argument |
| ScenarioBuilder.ScenarioBuilderImpl.Description | service-impl/src/main/java/com/programyourhome/adventureroom/module/immerse/service/ScenarioBuilderImpl.java:65-69 | the scenario description becomes the argument |
| ScenarioBuilder.ScenarioBuilderImpl.File | service-impl/src/main/java/com/programyourhome/adventureroom/module/immerse/service/ScenarioBuilderImpl.java:71-75 | only the audio-resource slot changes, to a file resource |
| ScenarioBuilder.ScenarioBuilderImpl.UrlWithFormat | service-impl/src/main/java/com/programyourhome/adventureroom/module/immerse/service/ScenarioBuilderImpl.java:77-81 | only the audio-resource slot changes, to a URL with a format |
| ScenarioBuilder.ScenarioBuilderImpl.UrlWithType | service-impl/src/main/java/com/programyourhome/adventureroom/module/immerse/service/ScenarioBuilderImpl.java:83-87 | only the audio-resource slot changes, to a URL with a file type |
| ScenarioBuilder.ScenarioBuilderImpl.Volume | service-impl/src/main/java/com/programyourhome/adventureroom/module/immerse/service/ScenarioBuilderImpl.java:89-93 | only the volume slot changes, to a fixed volume |
| ScenarioBuilder.ScenarioBuilderImpl.FullVolume | service-impl/src/main/java/com/programyourhome/adventureroom/module/immerse/service/ScenarioBuilderImpl.java:95-99 | only the volume slot changes, to full |
| ScenarioBuilder.ScenarioBuilderImpl.MuteVolume | service-impl/src/main/java/com/programyourhome/adventureroom/module/immerse/service/ScenarioBuilderImpl.java:101-105 | only the volume slot changes, to mute |
| ScenarioBuilder.ScenarioBuilderImpl.LinearVolume | service-impl/src/main/java/com/programyourhome/adventureroom/module/immerse/service/ScenarioBuilderImpl.java:107-111 | only the volume slot changes, to a linear volume with the flag set to true |
| ScenarioBuilder.ScenarioBuilderImpl.LinearVolumeWithDelay | service-impl/src/main/java/com/programyourhome/adventureroom/module/immerse/service/ScenarioBuilderImpl.java:113-117 | only the volume slot changes, to a delayed linear volume with the flag set to true |
| ScenarioBuilder.ScenarioBuilderImpl.SourceAtSpeaker | service-impl/src/main/java/com/programyourhome/adventureroom/module/immerse/service/ScenarioBuilderImpl.java:119-122 | the same ratios as listing just that one speaker |
| ScenarioBuilder.ScenarioBuilderImpl.SourceAtSpeakers | service-impl/src/main/java/com/programyourhome/adventureroom/module/immerse/service/ScenarioBuilderImpl.java:124-127 | only the ratio slot changes, to fixed ratios from volumeAtSpeakers of the ids |
| ScenarioBuilder.ScenarioBuilderImpl.SourceAtAllSpeakers | service-impl/src/main/java/com/programyourhome/adventureroom/module/immerse/service/ScenarioBuilderImpl.java:129-132 | only the ratio slot changes, to fixed ratios over every room speaker id |
| ScenarioBuilder.ScenarioBuilderImpl.AtLocation | service-impl/src/main/java/com/programyourhome/adventureroom/module/immerse/service/ScenarioBuilderImpl.java:134-137 | a fixed location at the given position |
| ScenarioBuilder.ScenarioBuilderImpl.AtPath | service-impl/src/main/java/com/programyourhome/adventureroom/module/immerse/service/ScenarioBuilderImpl.java:140-157 | an empty path fails, and only an empty path fails; otherwise the keyframes are KeyFramesUpTo over the whole path with the loop flag passed through |
| ScenarioBuilder.ScenarioBuilderImpl.Circling | service-impl/src/main/java/com/programyourhome/adventureroom/module/immerse/service/ScenarioBuilderImpl.java:160-165 | centre, start angle, radius and direction pass through unchanged; period × speed = 2π·radius·1000 |
| ScenarioBuilder.ScenarioBuilderImpl.AtCenter | service-impl/src/main/java/com/programyourhome/adventureroom/module/immerse/service/ScenarioBuilderImpl.java:167-170 | for a non-empty room, a fixed location whose coordinates times the speaker count are the per-axis sums |
| ScenarioBuilder.ScenarioBuilderImpl.FieldOfHearingVolume | service-impl/src/main/java/com/programyourhome/adventureroom/module/immerse/service/ScenarioBuilderImpl.java:172-177 | only the ratio slot changes, to field-of-hearing over the room with no angle |
| ScenarioBuilder.ScenarioBuilderImpl.FieldOfHearingVolumeWithAngle | service-impl/src/main/java/com/programyourhome/adventureroom/module/immerse/service/ScenarioBuilderImpl.java:179-184 | only the ratio slot changes, to field-of-hearing over the room with the angle |
| ScenarioBuilder.ScenarioBuilderImpl.FixedVolumesRelative | service-impl/src/main/java/com/programyourhome/adventureroom/module/immerse/service/ScenarioBuilderImpl.java:186-190 | only the ratio slot changes, to fixed ratios from the map |
| ScenarioBuilder.ScenarioBuilderImpl.NormalizeVolume | service-impl/src/main/java/com/programyourhome/adventureroom/module/immerse/service/ScenarioBuilderImpl.java:192-196 | only the normalize slot changes, to fractional |
| ScenarioBuilder.ScenarioBuilderImpl.VolumeAsOneSpeaker | service-impl/src/main/java/com/programyourhome/adventureroom/module/immerse/service/ScenarioBuilderImpl.java:198-202 | only the normalize slot changes, to max-sum 1 |
| ScenarioBuilder.ScenarioBuilderImpl.MaxSumVolume | service-impl/src/main/java/com/programyourhome/adventureroom/module/immerse/service/ScenarioBuilderImpl.java:204-208 | only the normalize slot changes, to max-sum of the argument |
| ScenarioBuilder.ScenarioBuilderImpl.PlayOnce | service-impl/src/main/java/com/programyourhome/adventureroom/module/immerse/service/ScenarioBuilderImpl.java:210-214 | only the playback slot changes, to loop once |
| ScenarioBuilder.ScenarioBuilderImpl.PlayRepeat | service-impl/src/main/java/com/programyourhome/adventureroom/module/immerse/service/ScenarioBuilderImpl.java:216-220 | only the playback slot changes, to loop n times |
| ScenarioBuilder.ScenarioBuilderImpl.PlayRepeatForever | service-impl/src/main/java/com/programyourhome/adventureroom/module/immerse/service/ScenarioBuilderImpl.java:222-226 | only the playback slot changes, to forever |
| ScenarioBuilder.ScenarioBuilderImpl.PlayForDuration | service-impl/src/main/java/com/programyourhome/adventureroom/module/immerse/service/ScenarioBuilderImpl.java:228-232 | only the playback slot changes, to a timer of the duration in milliseconds |
| ScenarioBuilder.ScenarioBuilderImpl.Build | service-impl/src/main/java/com/programyourhome/adventureroom/module/immerse/service/ScenarioBuilderImpl.java:234-237 | the scenario carries the current name, description and settings |
| ScenarioBuilder.ScenarioBuilderImpl.CalculateCenterOfRoom | service-impl/src/main/java/com/programyourhome/adventureroom/module/immerse/service/ScenarioBuilderImpl.java:239-244 | for a non-empty room, each coordinate times the speaker count is that axis's sum over all speakers |
| ScenarioBuilder.ScenarioBuilderImpl.CenterOfAxis | service-impl/src/main/java/com/programyourhome/adventureroom/module/immerse/service/ScenarioBuilderImpl.java:246-252 | the mean of one axis: the value times the speaker count is the axis sum |
| ScenarioBuilder.ScenarioBuilderImpl.VolumeAtSpeakers | service-impl/src/main/java/com/programyourhome/adventureroom/module/immerse/service/ScenarioBuilderImpl.java:254-257 | keys are exactly the room's speaker ids; a key maps to 1.0 iff it is listed and to 0.0 iff it is not; listed ids outside the room never appear |
| ScenarioBuilder.KeyFramesStart | service-impl/src/main/java/com/programyourhome/adventureroom/module/immerse/service/ScenarioBuilderImpl.java:145-147 | the first waypoint is put first, under key 0 |
| ScenarioBuilder.KeyFramesKeys | service-impl/src/main/java/com/programyourhome/adventureroom/module/immerse/service/ScenarioBuilderImpl.java:148-155 | the keys are exactly the rounded running totals of the waypoints put so far |
| ScenarioBuilder.KeyFramesKeepLast | service-impl/src/main/java/com/programyourhome/adventureroom/module/immerse/service/ScenarioBuilderImpl.java:154 | a waypoint survives under its key if no later waypoint is put under the same key (TreeMap.put replaces); the converse is KeyFramesEntry |
| ScenarioBuilder.KeyFramesEntry | service-impl/src/main/java/com/programyourhome/adventureroom/module/immerse/service/ScenarioBuilderImpl.java:145-155 | every entry holds the last waypoint whose rounded running total is its key |
| ScenarioBuilder.KeyFramesSize | service-impl/src/main/java/com/programyourhome/adventureroom/module/immerse/service/ScenarioBuilderImpl.java:145-155 | the map never has more entries than waypoints |
| ScenarioBuilder.TravelTimeMonotonic | service-impl/src/main/java/com/programyourhome/adventureroom/module/immerse/service/ScenarioBuilderImpl.java:152-153 | at positive speed the running total never decreases along the path |
| ScenarioBuilder.KeyTimeMonotonic | service-impl/src/main/java/com/programyourhome/adventureroom/module/immerse/service/ScenarioBuilderImpl.java:154 | at positive speed the keys are non-decreasing along the path |
| ScenarioBuilder.LastWaypointPresent | service-impl/src/main/java/com/programyourhome/adventureroom/module/immerse/service/ScenarioBuilderImpl.java:154 | the final waypoint is always present, under the key of the total time |
| ScenarioBuilder.KeyFramesTwoPoints | service-impl/src/main/java/com/programyourhome/adventureroom/module/immerse/service/ScenarioBuilderImpl.java:145-156 | two points 10 apart at speed 10 give keyframes {0 ↦ first, 1000 ↦ second} |
| ScenarioBuilder.AxisSumBounds | service-impl/src/main/java/com/programyourhome/adventureroom/module/immerse/service/ScenarioBuilderImpl.java:248-251 | if every coordinate lies in [lo, hi], the sum lies in [n·lo, n·hi] |
| ScenarioBuilder.CenterWithinBounds | service-impl/src/main/java/com/programyourhome/adventureroom/module/immerse/service/ScenarioBuilderImpl.java:246-252 | the centre lies within the speakers' extent on every axis |
| ScenarioBuilder.CenterOfTwoSpeakers | service-impl/src/main/java/com/programyourhome/adventureroom/module/immerse/service/ScenarioBuilderImpl.java:239-252 | speakers at (0,0,0) and (10,0,0) have their centre at (5,0,0) |
| ScenarioBuilder.VolumeAtSpeakersIsSetBased | service-impl/src/main/java/com/programyourhome/adventureroom/module/immerse/service/ScenarioBuilderImpl.java:254-257 | only which ids are listed matters; their order and repetitions do not |
| ScenarioBuilder.AllSpeakersAtFullWeight | service-impl/src/main/java/com/programyourhome/adventureroom/module/immerse/service/ScenarioBuilderImpl.java:254-257 | listing every room speaker gives each of them weight 1.0 |
| ScenarioBuilder.VolumeAtOneOfThree | service-impl/src/main/java/com/programyourhome/adventureroom/module/immerse/service/ScenarioBuilderImpl.java:254-257 | listing speaker 2 in a room of 1, 2, 3 gives {1 ↦ 0, 2 ↦ 1, 3 ↦ 0} |
| ScenarioBuilder.NormalizeTwice | service-impl/src/main/java/com/programyourhome/adventureroom/module/immerse/service/ScenarioBuilderImpl.java:192-196 | two normalizeVolume calls equal one call; name and description are untouched |
| ScenarioBuilder.LastPlaybackWins | service-impl/src/main/java/com/programyourhome/adventureroom/module/immerse/service/ScenarioBuilderImpl.java:210-226 | after several playback setters only the last counts, and the other slots keep their values |
| ScenarioBuilder.VolumeAndPlaybackCommute | service-impl/src/main/java/com/programyourhome/adventureroom/module/immerse/service/ScenarioBuilderImpl.java:101-220 | setters of different slots commute |
| ScenarioBuilder.DefaultsAtFullWeight | service-impl/src/main/java/com/programyourhome/adventureroom/module/immerse/service/ScenarioBuilderImpl.java:53-56 | a new builder has full volume, fractional normalize, play-once, no resource, and weight 1.0 for every room speaker |
| ScenarioBuilder.CirclingPeriodExample | service-impl/src/main/java/com/programyourhome/adventureroom/module/immerse/service/ScenarioBuilderImpl.java:161-165 | radius 5 at about 10π units per second circles in about 1000 ms |
| Immerse.SpeakerIds | service-impl/src/main/java/com/programyourhome/adventureroom/module/immerse/service/ScenarioBuilderImpl.java:131 | the room's speaker ids in iteration order, one per speaker |
| JavaNumbers.Truncate | dsl/src/main/java/com/programyourhome/adventureroom/module/immerse/dsl/converters/PlayAudioActionConverter.java:77 | rounds toward zero: never past x, and less than one from x |
| JavaNumbers.DoubleToInt | dsl/src/main/java/com/programyourhome/adventureroom/module/immerse/dsl/converters/PlayAudioActionConverter.java:77 | the int cast: truncation, saturating at the int bounds |
| JavaNumbers.Round | service-impl/src/main/java/com/programyourhome/adventureroom/module/immerse/service/ScenarioBuilderImpl.java:154 | within half a unit of x (ties round up) inside the long range; saturates at LONG_MAX and LONG_MIN outside it |
| JavaNumbers.RoundMonotonic | service-impl/src/main/java/com/programyourhome/adventureroom/module/immerse/service/ScenarioBuilderImpl.java:154 | rounding preserves order |
| JavaNumbers.RoundOfInt | service-impl/src/main/java/com/programyourhome/adventureroom/module/immerse/service/ScenarioBuilderImpl.java:147 | an integral value rounds to itself, so time 0 gives key 0 |
| StreamUtil.GetOne | dsl/src/main/java/com/programyourhome/adventureroom/module/immerse/dsl/converters/PlayAudioActionConverter.java:53-55 | succeeds iff exactly one alternative is present, with that value; none present is MissingAlternative, several is AmbiguousAlternative |
| StreamUtil.GetOneAsOptional | dsl/src/main/java/com/programyourhome/adventureroom/module/immerse/dsl/converters/PlayAudioActionConverter.java:150-152 | empty iff none is present, the value when one is, AmbiguousAlternative iff several are |
| StreamUtil.MaybeOne | dsl/src/main/java/com/programyourhome/adventureroom/module/immerse/dsl/converters/PlayAudioActionConverter.java:129-131 | empty when neither is present, the present one when one is, an error when both are |
| StreamUtil.SelectsOnlyPresent | dsl/src/main/java/com/programyourhome/adventureroom/module/immerse/dsl/converters/PlayAudioActionConverter.java:109-112 | a group whose only present alternative is i selects alternative i, under both helpers |
| StreamUtil.TwoPresentIsAmbiguous | dsl/src/main/java/com/programyourhome/adventureroom/module/immerse/dsl/converters/PlayAudioActionConverter.java:109-112 | two present alternatives make every selection fail as ambiguous |
| Text.Split | dsl/src/main/java/com/programyourhome/adventureroom/module/immerse/dsl/converters/PlayAudioActionConverter.java:93 | at least one piece, and no piece contains the separator |
| Text.JoinSplit | dsl/src/main/java/com/programyourhome/adventureroom/module/immerse/dsl/converters/PlayAudioActionConverter.java:93 | joining the pieces of a split gives back the string |
| Text.SplitJoin | dsl/src/main/java/com/programyourhome/adventureroom/module/immerse/dsl/converters/PlayAudioActionConverter.java:121 | splitting a join of separator-free pieces gives back the pieces |
| Text.DropTrailingEmpty | dsl/src/main/java/com/programyourhome/adventureroom/module/immerse/dsl/converters/PlayAudioActionConverter.java:145 | a prefix of the pieces that does not end in an empty piece; only empty pieces are dropped |
| Text.JavaSplit | dsl/src/main/java/com/programyourhome/adventureroom/module/immerse/dsl/converters/PlayAudioActionConverter.java:145 | a string without the separator is its own only piece; otherwise a prefix of the raw pieces whose last piece is non-empty, only empty pieces dropped; no piece contains the separator |
| Text.JavaSplitKeepsAll | dsl/src/main/java/com/programyourhome/adventureroom/module/immerse/dsl/converters/PlayAudioActionConverter.java:121 | a string that does not end with the separator keeps every piece, and joining them gives back the string |
| Text.JavaSplitJoin | dsl/src/main/java/com/programyourhome/adventureroom/module/immerse/dsl/converters/PlayAudioActionConverter.java:93 | Java's split undoes a join of separator-free pieces whose last piece is not empty |
| Text.RemoveChar | dsl/src/main/java/com/programyourhome/adventureroom/module/immerse/dsl/converters/PlayAudioActionConverter.java:144 | the character is gone, and every other character keeps its count |
| Text.RemoveCharConcat | dsl/src/main/java/com/programyourhome/adventureroom/module/immerse/dsl/converters/PlayAudioActionConverter.java:144 | removal distributes over concatenation, so the remaining characters keep their order |
| Text.StripParentheses | dsl/src/main/java/com/programyourhome/adventureroom/module/immerse/dsl/converters/PlayAudioActionConverter.java:144 | no parenthesis of either kind remains, and every other character keeps its count |
| Text.StripParenthesesConcat | dsl/src/main/java/com/programyourhome/adventureroom/module/immerse/dsl/converters/PlayAudioActionConverter.java:144 | stripping distributes over concatenation, so the kept characters keep their order |
| Text.StripParenthesesSingle | dsl/src/main/java/com/programyourhome/adventureroom/module/immerse/dsl/converters/PlayAudioActionConverter.java:144 | a single parenthesis is removed and any other character kept |
| Text.StripParenthesesIdempotent | dsl/src/main/java/com/programyourhome/adventureroom/module/immerse/dsl/converters/PlayAudioActionConverter.java:144 | stripping twice is stripping once |
| Text.StripParenthesesNoop | dsl/src/main/java/com/programyourhome/adventureroom/module/immerse/dsl/converters/PlayAudioActionConverter.java:144 | a parenthesis-free string is left alone |
| Text.StripEnclosingParentheses | dsl/src/main/java/com/programyourhome/adventureroom/module/immerse/dsl/converters/PlayAudioActionConverter.java:144 | "(" + s + ")" strips to s when s has no parenthesis |
| PlayAudioActionConverter.Number | dsl/src/main/java/com/programyourhome/adventureroom/module/immerse/dsl/converters/PlayAudioActionConverter.java:76 | a value iff the parser accepts the token; otherwise an error naming the token |
| PlayAudioActionConverter.OptionalNumber | dsl/src/main/java/com/programyourhome/adventureroom/module/immerse/dsl/converters/PlayAudioActionConverter.java:134 | an absent token gives no value; a present one gives its parsed value or fails |
| PlayAudioActionConverter.ParseNumbers | dsl/src/main/java/com/programyourhome/adventureroom/module/immerse/dsl/converters/PlayAudioActionConverter.java:145 | succeeds iff every piece parses; then one value per piece in order; a failure names a piece that does not parse |
| PlayAudioActionConverter.ParseVector3D | dsl/src/main/java/com/programyourhome/adventureroom/module/immerse/dsl/converters/PlayAudioActionConverter.java:143-147 | parentheses are removed; there is one component per comma-separated piece, in order, and the result succeeds iff every piece parses |
| PlayAudioActionConverter.ParseVectors | dsl/src/main/java/com/programyourhome/adventureroom/module/immerse/dsl/converters/PlayAudioActionConverter.java:122 | one vector per piece, in order; succeeds iff every piece parses |
| PlayAudioActionConverter.ParseUrlResource | dsl/src/main/java/com/programyourhome/adventureroom/module/immerse/dsl/converters/PlayAudioActionConverter.java:58-72 | no format token leaves the format empty; otherwise stereo, one byte, signed and little endian each hold iff their token is present, and the sample rate is "RATE_" + text or an error |
| PlayAudioActionConverter.ResolveResourceSection | dsl/src/main/java/com/programyourhome/adventureroom/module/immerse/dsl/converters/PlayAudioActionConverter.java:52-56 | succeeds only when exactly one of file and URL is present; a file keeps its name verbatim; neither present is MissingAlternative; both present is AmbiguousAlternative when the URL parses; a URL parse error is reported as such |
| PlayAudioActionConverter.ResolveVolumeSection | dsl/src/main/java/com/programyourhome/adventureroom/module/immerse/dsl/converters/PlayAudioActionConverter.java:74-79 | the percentage is the int of the token; fade-in is present iff its token is, and then equals the truncation of seconds × 1000 |
| PlayAudioActionConverter.ParseSingleSpeaker | dsl/src/main/java/com/programyourhome/adventureroom/module/immerse/dsl/converters/PlayAudioActionConverter.java:88-90 | a one-element list of the parsed id |
| PlayAudioActionConverter.ParseMultipleSpeakers | dsl/src/main/java/com/programyourhome/adventureroom/module/immerse/dsl/converters/PlayAudioActionConverter.java:92-94 | one id per comma-separated piece, in literal order |
| PlayAudioActionConverter.ParseAllSpeakers | dsl/src/main/java/com/programyourhome/adventureroom/module/immerse/dsl/converters/PlayAudioActionConverter.java:96-98 | the ids of every speaker resource, in resource order |
| PlayAudioActionConverter.ResolveSourceSpeakerSection | dsl/src/main/java/com/programyourhome/adventureroom/module/immerse/dsl/converters/PlayAudioActionConverter.java:81-86 | succeeds only when exactly one of single, multiple and all is present, and the result is then that parser's list; none is MissingAlternative; two or more that parse are AmbiguousAlternative; a single-speaker parse error is reported as such |
| PlayAudioActionConverter.ParseFixedLocation | dsl/src/main/java/com/programyourhome/adventureroom/module/immerse/dsl/converters/PlayAudioActionConverter.java:115-117 | a static location at the parsed vector |
| PlayAudioActionConverter.ParsePathLocation | dsl/src/main/java/com/programyourhome/adventureroom/module/immerse/dsl/converters/PlayAudioActionConverter.java:119-125 | one waypoint per semicolon-separated piece, in order, plus the parsed speed |
| PlayAudioActionConverter.ParseCirclingLocation | dsl/src/main/java/com/programyourhome/adventureroom/module/immerse/dsl/converters/PlayAudioActionConverter.java:127-137 | direction is true iff the clockwise token is present and false iff the anti-clockwise one is, empty when neither is, an error when both are; the start angle is optional with no default |
| PlayAudioActionConverter.ParseLocationSection | dsl/src/main/java/com/programyourhome/adventureroom/module/immerse/dsl/converters/PlayAudioActionConverter.java:108-113 | succeeds only when exactly one of fixed, path and circling is present, and the result is then of that kind and equals that parser's result; none is MissingAlternative; two or more that parse are AmbiguousAlternative; a fixed-location parse error is reported as such |
| PlayAudioActionConverter.ResolveSourceLocationSection | dsl/src/main/java/com/programyourhome/adventureroom/module/immerse/dsl/converters/PlayAudioActionConverter.java:100-102 | a dynamic-location source over the shared location parser's result |
| PlayAudioActionConverter.ResolveNormalizeSection | dsl/src/main/java/com/programyourhome/adventureroom/module/immerse/dsl/converters/PlayAudioActionConverter.java:149-153 | as-one-speaker or as-all-speakers by its keyword; empty with no keyword; an error with both |
| PlayAudioActionConverter.ResolvePlaybackSection | dsl/src/main/java/com/programyourhome/adventureroom/module/immerse/dsl/converters/PlayAudioActionConverter.java:155-161 | once, repeat(n), forever and seconds(n) map to their variants; empty with no keyword; two or more whose numbers parse are AmbiguousAlternative; a bad repeat count is InvalidNumericLiteral |
| PlayAudioActionConverter.ParenthesesIgnored | dsl/src/main/java/com/programyourhome/adventureroom/module/immerse/dsl/converters/PlayAudioActionConverter.java:143-147 | parentheses around a vector literal do not change the vector, so "(1,2,3)" and "1,2,3" agree |
| PlayAudioActionConverter.VectorFromComponents | dsl/src/main/java/com/programyourhome/adventureroom/module/immerse/dsl/converters/PlayAudioActionConverter.java:143-147 | a parenthesised, comma-joined literal parses to its components in order |
| PlayAudioActionConverter.SpeakersFromPieces | dsl/src/main/java/com/programyourhome/adventureroom/module/immerse/dsl/converters/PlayAudioActionConverter.java:92-94 | a comma-joined id list parses to one id per piece, in order |
| PlayAudioActionConverter.SpeakerListKeepsDuplicates | dsl/src/main/java/com/programyourhome/adventureroom/module/immerse/dsl/converters/PlayAudioActionConverter.java:92-94 | "1,1" names speaker 1 twice: no deduplication |
| PlayAudioActionConverter.ParseResourceSection | dsl/src/main/java/com/programyourhome/adventureroom/module/immerse/dsl/converters/PlayAudioActionConverter.java:52-56 | the action's resource becomes the resolved resource; on an error it is unchanged and the error is returned |
| PlayAudioActionConverter.ParseVolumeSection | dsl/src/main/java/com/programyourhome/adventureroom/module/immerse/dsl/converters/PlayAudioActionConverter.java:74-79 | the action's volume becomes the resolved volume, or is unchanged on an error |
| PlayAudioActionConverter.ParseSourceSpeakerSection | dsl/src/main/java/com/programyourhome/adventureroom/module/immerse/dsl/converters/PlayAudioActionConverter.java:81-86 | the action's sound source becomes the resolved speaker ids, or is unchanged on an error |
| PlayAudioActionConverter.ParseSourceLocationSection | dsl/src/main/java/com/programyourhome/adventureroom/module/immerse/dsl/converters/PlayAudioActionConverter.java:100-102 | the action's sound source becomes the resolved dynamic location, or is unchanged on an error |
| PlayAudioActionConverter.ParseListenerLocationSection | dsl/src/main/java/com/programyourhome/adventureroom/module/immerse/dsl/converters/PlayAudioActionConverter.java:104-106 | the action's listener location is the shared location parser's result, or is unchanged on an error |
| PlayAudioActionConverter.ParseNormalizeSection | dsl/src/main/java/com/programyourhome/adventureroom/module/immerse/dsl/converters/PlayAudioActionConverter.java:149-153 | the action's normalize becomes the selection, empty included, or is unchanged on an error |
| PlayAudioActionConverter.ParsePlaybackSection | dsl/src/main/java/com/programyourhome/adventureroom/module/immerse/dsl/converters/PlayAudioActionConverter.java:155-161 | the action's playback becomes the selection, empty included, or is unchanged on an error |
| PlayAudioActionConverter.ParseVariableSection | dsl/src/main/java/com/programyourhome/adventureroom/module/immerse/dsl/converters/PlayAudioActionConverter.java:163-165 | the action's variable name is the token's text |

## Left out

- Floating point: doubles are reals.
  - No NaN, infinities or IEEE rounding.
  - `Math.PI` is its decimal expansion to 15 places.
  - A zero speed in `atPath` and `circling` (division by zero, giving infinity) is excluded by a precondition.
- ScenarioBuilder.ScenarioBuilderImpl.AtPath: the distance between waypoints is an abstract non-negative function, because la4j's Euclidean norm (a square root) is foreign code.
- The immerse library's own behaviour is not modelled. Each factory is a constructor that records its arguments. This covers:
  - the volumes;
  - the key-frame and circle locations;
  - the field-of-hearing, fixed-ratio, max-sum and fractional algorithms;
  - the playbacks;
  - `ImmerseAudioFormat.buildForInput`;
  - `Scenario.Builder` and `ScenarioSettings.Builder`, including any validation their `build` performs.
- The fluent `return this` of every builder setter. The methods update the builder in place, so chaining is sequential calls.
- ScenarioBuilder.ScenarioBuilderImpl.PlayForDuration: takes the duration already converted to milliseconds, i.e. `Duration.toMillis`.
- The room is a sequence of speakers in the iteration order of the room's id-to-speaker map. A new builder requires the ids to be distinct, as map keys are. The HashMap iteration order itself is not modelled.
- `StreamUtil` is not part of this model. `getOne`, `getOneAsOptional` and `maybeOne` are modelled by their evident contract. Which exception they throw becomes an `Error` value. `maybeOne` with both values present is modelled as an error.
- The ANTLR grammar, the token objects and the reflective section dispatch of `AbstractReflectiveParseTreeAntlrActionConverter` are not part of this model.
  - A context is a record of its optional tokens and sub-contexts, and a token is its text.
  - `toString`, `toInt`, `toDouble` and `toOptionalDouble` are taken to read the token's text.
  - `parse` is taken to apply its function to a present context and to give nothing for an absent one.
- `Integer.valueOf` and `Double.parseDouble` are abstract partial parsers. A rejected literal becomes an `InvalidNumericLiteral` error instead of an exception.
- PlayAudioActionConverter.ParseUrlResource: a format token without a sample-rate token is modelled as a MissingToken error. This is a modelling choice: what `toString` does with an absent token is not part of this model, and the grammar may rule the case out.
- Order of evaluation:
  - every present alternative of a group is parsed before the selection;
  - the first parse error, in argument order, is the one reported;
  - when an alternative fails to parse and another is also present, the parse error wins over the ambiguity.
- `new Vector3D(coordinates)` is foreign code. A parsed vector is the list of its components, however many there are.
- `getAdventure().getExternalResources` is an input: the sequence of speaker resources in `Env`.
- The concrete vector example `(1,2,3)` is stated for all strings, by ParenthesesIgnored and VectorFromComponents, not as a literal instance.
- Audio loading, rendering and concurrency are not part of this logic.
