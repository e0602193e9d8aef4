/** ScenarioBuilderImpl: a fluent builder whose setters each overwrite one slot
    of a scenario-settings draft, together with the geometry it derives for
    locations (path keyframes, circling period, room centre) and the binary
    per-speaker volume map. */
module ScenarioBuilder {
  import opened Results
  import opened JavaNumbers
  import opened Immerse

  /** Java's Math.PI. */
  const PI: real := 3.141592653589793

  const DEFAULT_NAME: string := "Builder Scenario"
  const DEFAULT_DESCRIPTION: string := "Scenario built by the ScenarioBuilder"

  /** The Euclidean distance between two points (la4j's norm of their
      difference), known here only to be non-negative. */
  type Distance = f: (Vector3D, Vector3D) -> real | forall a, b :: f(a, b) >= 0.0
    witness (a: Vector3D, b: Vector3D) => 0.0

  // ---------------------------------------------------------------------------
  // Path keyframes

  /** Milliseconds needed to travel from waypoint 0 to waypoint i at the given
      speed: the running total `travelTimeSoFar`, before rounding. */
  function TravelTime(path: seq<Vector3D>, unitsPerSecond: real, norm: Distance, i: nat): real
    requires i < |path| && unitsPerSecond != 0.0
  {
    if i == 0 then 0.0
    else TravelTime(path, unitsPerSecond, norm, i - 1) + norm(path[i - 1], path[i]) / unitsPerSecond * 1000.0
  }

  /** The key under which waypoint i is put: the rounded running total. */
  function KeyTime(path: seq<Vector3D>, unitsPerSecond: real, norm: Distance, i: nat): int
    requires i < |path| && unitsPerSecond != 0.0
  {
    Round(TravelTime(path, unitsPerSecond, norm, i))
  }

  /** The keyframe map after the first n waypoints have been put, a later put
      replacing an earlier one under the same key. */
  function KeyFramesUpTo(path: seq<Vector3D>, unitsPerSecond: real, norm: Distance, n: nat): map<int, Vector3D>
    requires 1 <= n <= |path| && unitsPerSecond != 0.0
  {
    if n == 1 then map[KeyTime(path, unitsPerSecond, norm, 0) := path[0]]
    else KeyFramesUpTo(path, unitsPerSecond, norm, n - 1)[KeyTime(path, unitsPerSecond, norm, n - 1) := path[n - 1]]
  }

  /** The first waypoint goes in first, under key 0. */
  lemma KeyFramesStart(path: seq<Vector3D>, unitsPerSecond: real, norm: Distance)
    requires |path| >= 1 && unitsPerSecond != 0.0
    ensures KeyTime(path, unitsPerSecond, norm, 0) == 0
    ensures KeyFramesUpTo(path, unitsPerSecond, norm, 1) == map[0 := path[0]]
  {
    RoundOfInt(0);
  }

  /** The keys are exactly the rounded running totals of the waypoints put so far. */
  lemma {:induction false} KeyFramesKeys(path: seq<Vector3D>, unitsPerSecond: real, norm: Distance, n: nat)
    requires 1 <= n <= |path| && unitsPerSecond != 0.0
    ensures KeyFramesUpTo(path, unitsPerSecond, norm, n).Keys
         == set i | 0 <= i < n :: KeyTime(path, unitsPerSecond, norm, i)
  {
    if n > 1 {
      KeyFramesKeys(path, unitsPerSecond, norm, n - 1);
      var before := set i | 0 <= i < n - 1 :: KeyTime(path, unitsPerSecond, norm, i);
      var after := set i | 0 <= i < n :: KeyTime(path, unitsPerSecond, norm, i);
      assert after == before + {KeyTime(path, unitsPerSecond, norm, n - 1)};
    }
  }

  /** Keep-last: a waypoint survives under its key exactly when no later
      waypoint is put under the same key. */
  lemma {:induction false} KeyFramesKeepLast(path: seq<Vector3D>, unitsPerSecond: real, norm: Distance, n: nat, i: nat)
    requires 1 <= n <= |path| && unitsPerSecond != 0.0 && i < n
    requires forall j :: i < j < n ==> KeyTime(path, unitsPerSecond, norm, j) != KeyTime(path, unitsPerSecond, norm, i)
    ensures KeyTime(path, unitsPerSecond, norm, i) in KeyFramesUpTo(path, unitsPerSecond, norm, n)
    ensures KeyFramesUpTo(path, unitsPerSecond, norm, n)[KeyTime(path, unitsPerSecond, norm, i)] == path[i]
  {
    if i < n - 1 {
      KeyFramesKeepLast(path, unitsPerSecond, norm, n - 1, i);
    }
  }

  /** Every entry holds the last waypoint put under its key. */
  lemma {:induction false} KeyFramesEntry(path: seq<Vector3D>, unitsPerSecond: real, norm: Distance, n: nat, k: int)
    requires 1 <= n <= |path| && unitsPerSecond != 0.0
    requires k in KeyFramesUpTo(path, unitsPerSecond, norm, n)
    ensures exists i :: (0 <= i < n && KeyTime(path, unitsPerSecond, norm, i) == k
      && KeyFramesUpTo(path, unitsPerSecond, norm, n)[k] == path[i]
      && forall j :: i < j < n ==> KeyTime(path, unitsPerSecond, norm, j) != k)
  {
    if k == KeyTime(path, unitsPerSecond, norm, n - 1) {
      assert KeyFramesUpTo(path, unitsPerSecond, norm, n)[k] == path[n - 1];
    } else {
      KeyFramesEntry(path, unitsPerSecond, norm, n - 1, k);
      var i :| 0 <= i < n - 1 && KeyTime(path, unitsPerSecond, norm, i) == k
        && KeyFramesUpTo(path, unitsPerSecond, norm, n - 1)[k] == path[i]
        && forall j :: i < j < n - 1 ==> KeyTime(path, unitsPerSecond, norm, j) != k;
      assert KeyFramesUpTo(path, unitsPerSecond, norm, n)[k] == path[i];
    }
  }

  /** The map never holds more entries than there are waypoints. */
  lemma {:induction false} KeyFramesSize(path: seq<Vector3D>, unitsPerSecond: real, norm: Distance, n: nat)
    requires 1 <= n <= |path| && unitsPerSecond != 0.0
    ensures |KeyFramesUpTo(path, unitsPerSecond, norm, n)| <= n
  {
    if n > 1 {
      KeyFramesSize(path, unitsPerSecond, norm, n - 1);
      var m := KeyFramesUpTo(path, unitsPerSecond, norm, n - 1);
      var k := KeyTime(path, unitsPerSecond, norm, n - 1);
      assert m[k := path[n - 1]].Keys == m.Keys + {k};
      assert |m.Keys + {k}| <= |m.Keys| + 1;
    }
  }

  /** At positive speed the running total never decreases. */
  lemma {:induction false} TravelTimeMonotonic(path: seq<Vector3D>, unitsPerSecond: real, norm: Distance, i: nat, j: nat)
    requires unitsPerSecond > 0.0 && i <= j < |path|
    ensures TravelTime(path, unitsPerSecond, norm, i) <= TravelTime(path, unitsPerSecond, norm, j)
  {
    if i < j {
      TravelTimeMonotonic(path, unitsPerSecond, norm, i, j - 1);
      var d := norm(path[j - 1], path[j]);
      assert d >= 0.0;
      assert d / unitsPerSecond >= 0.0;
    }
  }

  /** At positive speed the keys are non-decreasing along the path. */
  lemma KeyTimeMonotonic(path: seq<Vector3D>, unitsPerSecond: real, norm: Distance, i: nat, j: nat)
    requires unitsPerSecond > 0.0 && i <= j < |path|
    ensures KeyTime(path, unitsPerSecond, norm, i) <= KeyTime(path, unitsPerSecond, norm, j)
  {
    TravelTimeMonotonic(path, unitsPerSecond, norm, i, j);
    RoundMonotonic(TravelTime(path, unitsPerSecond, norm, i), TravelTime(path, unitsPerSecond, norm, j));
  }

  /** The final waypoint is always present, under the key of the total travel time. */
  lemma LastWaypointPresent(path: seq<Vector3D>, unitsPerSecond: real, norm: Distance)
    requires |path| >= 1 && unitsPerSecond != 0.0
    ensures KeyFramesUpTo(path, unitsPerSecond, norm, |path|)[KeyTime(path, unitsPerSecond, norm, |path| - 1)]
         == path[|path| - 1]
  {
    KeyFramesKeepLast(path, unitsPerSecond, norm, |path|, |path| - 1);
  }

  /** Two points 10 units apart, travelled at 10 units per second: one second. */
  lemma KeyFramesTwoPoints(norm: Distance)
    requires norm(Vector3D(0.0, 0.0, 0.0), Vector3D(10.0, 0.0, 0.0)) == 10.0
    ensures KeyFramesUpTo([Vector3D(0.0, 0.0, 0.0), Vector3D(10.0, 0.0, 0.0)], 10.0, norm, 2)
         == map[0 := Vector3D(0.0, 0.0, 0.0), 1000 := Vector3D(10.0, 0.0, 0.0)]
  {
    var path := [Vector3D(0.0, 0.0, 0.0), Vector3D(10.0, 0.0, 0.0)];
    KeyFramesStart(path, 10.0, norm);
    assert TravelTime(path, 10.0, norm, 1) == 1000.0;
    RoundOfInt(1000);
  }

  // ---------------------------------------------------------------------------
  // Room centre

  datatype Axis = X | Y | Z

  function Coordinate(v: Vector3D, axis: Axis): real
  {
    match axis
    case X => v.x
    case Y => v.y
    case Z => v.z
  }

  /** Sum of one axis over every speaker position. */
  function AxisSum(speakers: seq<Speaker>, axis: Axis): real
  {
    if speakers == [] then 0.0
    else Coordinate(speakers[0].position, axis) + AxisSum(speakers[1..], axis)
  }

  lemma {:induction false} AxisSumBounds(speakers: seq<Speaker>, axis: Axis, lo: real, hi: real)
    requires forall i :: 0 <= i < |speakers| ==> lo <= Coordinate(speakers[i].position, axis) <= hi
    ensures |speakers| as real * lo <= AxisSum(speakers, axis) <= |speakers| as real * hi
  {
    if speakers != [] {
      AxisSumBounds(speakers[1..], axis, lo, hi);
    }
  }

  // ---------------------------------------------------------------------------
  // The builder

  class ScenarioBuilderImpl {
    /** The room of the immerse settings the builder was created with. */
    const room: Room
    var name: string
    var description: string
    /** The ScenarioSettings.Builder being filled. */
    var settings: ScenarioSettings

    /** A fresh builder: the default name and description, full volume, the
        source at every speaker, fractional normalisation and play-once. */
    constructor (room: Room)
      requires DistinctIds(room)
      ensures this.room == room
      ensures name == DEFAULT_NAME && description == DEFAULT_DESCRIPTION
      ensures settings == ScenarioSettings(
        None, Some(Full), Some(FixedRatios(VolumeAtSpeakers(SpeakerIds(room)))),
        Some(Fractional), Some(LoopOnce))
    {
      this.room := room;
      name := DEFAULT_NAME;
      description := DEFAULT_DESCRIPTION;
      settings := EmptySettings;
      new;
      FullVolume();
      SourceAtAllSpeakers();
      NormalizeVolume();
      PlayOnce();
    }

    method Name(name: string)
      modifies this`name
      ensures this.name == name
    {
      this.name := name;
    }

    method Description(description: string)
      modifies this`description
      ensures this.description == description
    {
      this.description := description;
    }

    method File(path: string)
      modifies this`settings
      ensures settings == old(settings).(audioResource := Some(FileResource(path)))
    {
      settings := settings.(audioResource := Some(FileResource(path)));
    }

    method UrlWithFormat(url: string, format: AudioFormat)
      modifies this`settings
      ensures settings == old(settings).(audioResource := Some(UrlResourceWithFormat(url, format)))
    {
      settings := settings.(audioResource := Some(UrlResourceWithFormat(url, format)));
    }

    method UrlWithType(url: string, fileType: AudioFileType)
      modifies this`settings
      ensures settings == old(settings).(audioResource := Some(UrlResourceWithType(url, fileType)))
    {
      settings := settings.(audioResource := Some(UrlResourceWithType(url, fileType)));
    }

    method Volume(volume: real)
      modifies this`settings
      ensures settings == old(settings).(volume := Some(Fixed(volume)))
    {
      settings := settings.(volume := Some(Fixed(volume)));
    }

    method FullVolume()
      modifies this`settings
      ensures settings == old(settings).(volume := Some(Full))
    {
      settings := settings.(volume := Some(Full));
    }

    method MuteVolume()
      modifies this`settings
      ensures settings == old(settings).(volume := Some(Mute))
    {
      settings := settings.(volume := Some(Mute));
    }

    method LinearVolume(from: real, to: real, inMillis: int)
      modifies this`settings
      ensures settings == old(settings).(volume := Some(Linear(from, to, inMillis, true)))
    {
      settings := settings.(volume := Some(Linear(from, to, inMillis, true)));
    }

    method LinearVolumeWithDelay(from: real, to: real, inMillis: int, delayMillis: int)
      modifies this`settings
      ensures settings == old(settings).(volume := Some(LinearWithDelay(from, to, inMillis, true, delayMillis)))
    {
      settings := settings.(volume := Some(LinearWithDelay(from, to, inMillis, true, delayMillis)));
    }

    method SourceAtSpeaker(speakerId: int)
      modifies this`settings
      ensures settings == old(settings).(volumeRatiosAlgorithm := Some(FixedRatios(VolumeAtSpeakers([speakerId]))))
    {
      SourceAtSpeakers([speakerId]);
    }

    method SourceAtSpeakers(speakerIds: seq<int>)
      modifies this`settings
      ensures settings == old(settings).(volumeRatiosAlgorithm := Some(FixedRatios(VolumeAtSpeakers(speakerIds))))
    {
      FixedVolumesRelative(VolumeAtSpeakers(speakerIds));
    }

    method SourceAtAllSpeakers()
      modifies this`settings
      ensures settings == old(settings).(volumeRatiosAlgorithm := Some(FixedRatios(VolumeAtSpeakers(SpeakerIds(room)))))
    {
      SourceAtSpeakers(SpeakerIds(room));
    }

    function AtLocation(location: Vector3D): (r: LocationFactory)
      ensures r.FixedLocation? && r.position == location
    {
      FixedLocation(location)
    }

    /** Keyframes for travelling along `path` at `unitsPerSecond`: each waypoint
        is put under the rounded running total of the travel time up to it. */
    method AtPath(path: seq<Vector3D>, unitsPerSecond: real, loop: bool, norm: Distance)
      returns (r: Result<LocationFactory, Error>)
      requires unitsPerSecond != 0.0
      ensures path == [] <==> r == Failure(EmptyPath)
      ensures path != [] ==> r == Success(KeyFrames(KeyFramesUpTo(path, unitsPerSecond, norm, |path|), loop))
    {
      if |path| == 0 {
        return Failure(EmptyPath);
      }
      var keyFrames: map<int, Vector3D> := map[];
      var travelTimeSoFar := 0.0;
      keyFrames := keyFrames[Round(travelTimeSoFar) := path[0]];
      var i := 1;
      while i < |path|
        invariant 1 <= i <= |path|
        invariant travelTimeSoFar == TravelTime(path, unitsPerSecond, norm, i - 1)
        invariant keyFrames == KeyFramesUpTo(path, unitsPerSecond, norm, i)
      {
        var previousPoint := path[i - 1];
        var nextPoint := path[i];
        var distance := norm(previousPoint, nextPoint);
        var travelTimeInMillis := distance / unitsPerSecond * 1000.0;
        travelTimeSoFar := travelTimeSoFar + travelTimeInMillis;
        keyFrames := keyFrames[Round(travelTimeSoFar) := nextPoint];
        i := i + 1;
      }
      r := Success(KeyFrames(keyFrames, loop));
    }

    /** A horizontal circle whose full revolution takes as many milliseconds as
        the circumference needs at `unitsPerSecond`. */
    function Circling(center: Vector3D, startAngle: real, radius: real, unitsPerSecond: real, clockwise: bool)
      : (r: LocationFactory)
      requires unitsPerSecond != 0.0
      ensures r.HorizontalCircle?
      ensures r.center == center && r.startAngle == startAngle && r.radius == radius && r.clockwise == clockwise
      ensures r.millisPerFullCircle * unitsPerSecond == 2.0 * PI * radius * 1000.0
    {
      var circumference := 2.0 * PI * radius;
      var millisPerFullCircle := circumference / unitsPerSecond * 1000.0;
      HorizontalCircle(center, startAngle, radius, clockwise, millisPerFullCircle)
    }

    function AtCenter(): (r: LocationFactory)
      requires |room| > 0
      ensures r.FixedLocation?
      ensures r.position.x * |room| as real == AxisSum(room, X)
      ensures r.position.y * |room| as real == AxisSum(room, Y)
      ensures r.position.z * |room| as real == AxisSum(room, Z)
    {
      CalculateCenterOfRoom()
    }

    method FieldOfHearingVolume(sourceLocation: LocationFactory, listenerLocation: LocationFactory)
      modifies this`settings
      ensures settings == old(settings).(volumeRatiosAlgorithm :=
        Some(FieldOfHearing(room, sourceLocation, listenerLocation, None)))
    {
      settings := settings.(volumeRatiosAlgorithm := Some(FieldOfHearing(room, sourceLocation, listenerLocation, None)));
    }

    method FieldOfHearingVolumeWithAngle(sourceLocation: LocationFactory, listenerLocation: LocationFactory, angle: real)
      modifies this`settings
      ensures settings == old(settings).(volumeRatiosAlgorithm :=
        Some(FieldOfHearing(room, sourceLocation, listenerLocation, Some(angle))))
    {
      settings := settings.(volumeRatiosAlgorithm := Some(FieldOfHearing(room, sourceLocation, listenerLocation, Some(angle))));
    }

    method FixedVolumesRelative(relativeSpeakerVolumes: map<int, real>)
      modifies this`settings
      ensures settings == old(settings).(volumeRatiosAlgorithm := Some(FixedRatios(relativeSpeakerVolumes)))
    {
      settings := settings.(volumeRatiosAlgorithm := Some(FixedRatios(relativeSpeakerVolumes)));
    }

    method NormalizeVolume()
      modifies this`settings
      ensures settings == old(settings).(normalizeAlgorithm := Some(Fractional))
    {
      settings := settings.(normalizeAlgorithm := Some(Fractional));
    }

    method VolumeAsOneSpeaker()
      modifies this`settings
      ensures settings == old(settings).(normalizeAlgorithm := Some(MaxSum(1.0)))
    {
      settings := settings.(normalizeAlgorithm := Some(MaxSum(1.0)));
    }

    method MaxSumVolume(maxSum: real)
      modifies this`settings
      ensures settings == old(settings).(normalizeAlgorithm := Some(MaxSum(maxSum)))
    {
      settings := settings.(normalizeAlgorithm := Some(MaxSum(maxSum)));
    }

    method PlayOnce()
      modifies this`settings
      ensures settings == old(settings).(playback := Some(LoopOnce))
    {
      settings := settings.(playback := Some(LoopOnce));
    }

    method PlayRepeat(times: int)
      modifies this`settings
      ensures settings == old(settings).(playback := Some(LoopTimes(times)))
    {
      settings := settings.(playback := Some(LoopTimes(times)));
    }

    method PlayRepeatForever()
      modifies this`settings
      ensures settings == old(settings).(playback := Some(Forever))
    {
      settings := settings.(playback := Some(Forever));
    }

    /** `durationMillis` is the Duration's `toMillis()`. */
    method PlayForDuration(durationMillis: int)
      modifies this`settings
      ensures settings == old(settings).(playback := Some(Timer(durationMillis)))
    {
      settings := settings.(playback := Some(Timer(durationMillis)));
    }

    /** The scenario with the current name, description and settings; the builder is left as it is. */
    method Build() returns (scenario: Scenario)
      ensures scenario.name == name && scenario.description == description
      ensures scenario.settings == settings
    {
      scenario := Scenario(name, description, settings);
    }

    /** The fixed location at the per-axis mean of the speaker positions. */
    function CalculateCenterOfRoom(): (r: LocationFactory)
      requires |room| > 0
      ensures r.FixedLocation?
      ensures r.position.x * |room| as real == AxisSum(room, X)
      ensures r.position.y * |room| as real == AxisSum(room, Y)
      ensures r.position.z * |room| as real == AxisSum(room, Z)
    {
      FixedLocation(Vector3D(CenterOfAxis(X), CenterOfAxis(Y), CenterOfAxis(Z)))
    }

    /** The mean of one axis over the room's speakers. */
    function CenterOfAxis(axis: Axis): (c: real)
      requires |room| > 0
      ensures c * |room| as real == AxisSum(room, axis)
    {
      AxisSum(room, axis) / |room| as real
    }

    /** Weight 1.0 for every room speaker listed in `speakerIds`, 0.0 for every
        other room speaker, and no entry for anything that is not a room speaker. */
    function VolumeAtSpeakers(speakerIds: seq<int>): (r: map<int, real>)
      ensures r.Keys == set i | 0 <= i < |room| :: room[i].id
      ensures forall id :: id in r ==> (r[id] == 1.0 <==> id in speakerIds)
      ensures forall id :: id in r ==> (r[id] == 0.0 <==> id !in speakerIds)
    {
      map id | id in (set i | 0 <= i < |room| :: room[i].id) :: if id in speakerIds then 1.0 else 0.0
    }
  }

  // ---------------------------------------------------------------------------
  // Properties of the builder

  /** The centre lies within the speakers' extent on every axis. */
  lemma CenterWithinBounds(b: ScenarioBuilderImpl, axis: Axis, lo: real, hi: real)
    requires |b.room| > 0
    requires forall i :: 0 <= i < |b.room| ==> lo <= Coordinate(b.room[i].position, axis) <= hi
    ensures lo <= b.CenterOfAxis(axis) <= hi
  {
    AxisSumBounds(b.room, axis, lo, hi);
    var n := |b.room| as real;
    var c := b.CenterOfAxis(axis);
    var sum := AxisSum(b.room, axis);
    assert c * n == sum;
    assert n * lo <= sum <= n * hi;
    DivideBounds(c, n, lo, hi);
  }

  /** Dividing bounds on a product by a positive factor. */
  lemma DivideBounds(c: real, n: real, lo: real, hi: real)
    requires n > 0.0 && n * lo <= c * n <= n * hi
    ensures lo <= c <= hi
  {
    assert (c - lo) * n >= 0.0;
    assert (hi - c) * n >= 0.0;
  }

  /** Speakers at (0,0,0) and (10,0,0) have their centre at (5,0,0). */
  lemma CenterOfTwoSpeakers(b: ScenarioBuilderImpl)
    requires b.room == [Speaker(1, Vector3D(0.0, 0.0, 0.0)), Speaker(2, Vector3D(10.0, 0.0, 0.0))]
    ensures b.CalculateCenterOfRoom() == FixedLocation(Vector3D(5.0, 0.0, 0.0))
  {
    var rest := b.room[1..];
    assert rest == [Speaker(2, Vector3D(10.0, 0.0, 0.0))] && rest[1..] == [];
    forall axis: Axis ensures AxisSum(b.room, axis) == AxisSum(rest, axis) + Coordinate(Vector3D(0.0, 0.0, 0.0), axis) {}
    assert AxisSum(rest, X) == 10.0 && AxisSum(rest, Y) == 0.0 && AxisSum(rest, Z) == 0.0;
  }

  /** Only the set of listed ids matters: their order and repetitions do not. */
  lemma VolumeAtSpeakersIsSetBased(b: ScenarioBuilderImpl, ids1: seq<int>, ids2: seq<int>)
    requires forall id :: id in ids1 <==> id in ids2
    ensures b.VolumeAtSpeakers(ids1) == b.VolumeAtSpeakers(ids2)
  {
  }

  /** Listing every room speaker gives each of them weight 1.0. */
  lemma AllSpeakersAtFullWeight(b: ScenarioBuilderImpl)
    ensures forall id :: id in b.VolumeAtSpeakers(SpeakerIds(b.room)) ==> b.VolumeAtSpeakers(SpeakerIds(b.room))[id] == 1.0
  {
    var ids := SpeakerIds(b.room);
    forall id | id in b.VolumeAtSpeakers(ids)
      ensures id in ids
    {
      var i :| 0 <= i < |b.room| && b.room[i].id == id;
      assert ids[i] == id;
    }
  }

  /** Subset {2} over a room with speakers 1, 2 and 3. */
  lemma VolumeAtOneOfThree(b: ScenarioBuilderImpl)
    requires SpeakerIds(b.room) == [1, 2, 3]
    ensures b.VolumeAtSpeakers([2]) == map[1 := 0.0, 2 := 1.0, 3 := 0.0]
  {
    var ids := set i | 0 <= i < |b.room| :: b.room[i].id;
    assert b.room[0].id == 1 && b.room[1].id == 2 && b.room[2].id == 3;
    assert ids == {1, 2, 3};
  }

  /** Calling the fractional-normalize setter twice is the same as calling it once. */
  method NormalizeTwice(b: ScenarioBuilderImpl)
    modifies b
    ensures b.settings == old(b.settings).(normalizeAlgorithm := Some(Fractional))
    ensures b.name == old(b.name) && b.description == old(b.description)
  {
    b.NormalizeVolume();
    b.NormalizeVolume();
  }

  /** The last playback setter wins and the other slots keep their values. */
  method LastPlaybackWins(b: ScenarioBuilderImpl, times: int)
    modifies b
    ensures b.settings == old(b.settings).(playback := Some(LoopTimes(times)))
  {
    b.PlayRepeatForever();
    b.PlayOnce();
    b.PlayRepeat(times);
  }

  /** Setters of different slots commute. */
  method VolumeAndPlaybackCommute(b1: ScenarioBuilderImpl, b2: ScenarioBuilderImpl, times: int)
    requires b1 != b2 && b1.settings == b2.settings
    modifies b1, b2
    ensures b1.settings == b2.settings
    ensures b1.settings == old(b1.settings).(volume := Some(Mute), playback := Some(LoopTimes(times)))
  {
    b1.MuteVolume();
    b1.PlayRepeat(times);
    b2.PlayRepeat(times);
    b2.MuteVolume();
  }

  /** A new builder's ratios give every room speaker weight 1.0. */
  method DefaultsAtFullWeight(room: Room) returns (b: ScenarioBuilderImpl)
    requires DistinctIds(room)
    ensures b.settings.volumeRatiosAlgorithm.Some? && b.settings.volumeRatiosAlgorithm.value.FixedRatios?
    ensures var ratios := b.settings.volumeRatiosAlgorithm.value.ratios;
      ratios.Keys == (set i | 0 <= i < |room| :: room[i].id) && forall id :: id in ratios ==> ratios[id] == 1.0
    ensures b.settings.volume == Some(Full) && b.settings.normalizeAlgorithm == Some(Fractional)
    ensures b.settings.playback == Some(LoopOnce) && b.settings.audioResource == None
  {
    b := new ScenarioBuilderImpl(room);
    AllSpeakersAtFullWeight(b);
  }

  /** A full revolution of radius 5 at about 10 pi units per second takes about one second. */
  lemma CirclingPeriodExample(b: ScenarioBuilderImpl, center: Vector3D)
    ensures var period := b.Circling(center, 0.0, 5.0, 31.4159, true).millisPerFullCircle;
      999.999 < period < 1000.001
  {
  }
}
