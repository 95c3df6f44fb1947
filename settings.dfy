/** The experience settings schema and its upgrade from version 1 to version 2 (`importSettings`). */
module Settings {
  import opened Types
  import opened Wrappers

  // ---------------------------------------------------------------------------------------------
  // Version 1 documents. Fields that early documents may lack are optional.

  /** A version 1 camera animation track. `frameRate` was missing in some early documents and
      `smoothness` was added later. */
  datatype TrackV1 = TrackV1(
    name: string,
    duration: real,
    frameRate: Option<real>,
    loopMode: LoopMode,
    interpolation: string,
    smoothness: Option<real>,
    times: seq<real>,
    position: seq<real>,
    target: seq<real>)

  datatype CameraV1 = CameraV1(
    position: Option<seq<real>>,
    target: Option<seq<real>>,
    fov: Option<real>,
    startAnim: Option<string>)

  datatype SettingsV1 = SettingsV1(
    backgroundColor: Option<seq<real>>,
    camera: CameraV1,
    animTracks: Option<seq<TrackV1>>)

  // ---------------------------------------------------------------------------------------------
  // Version 2 documents.

  /** A version 2 camera animation track: keyframe times and, per keyframe, a position, a target
      (three entries each) and a field of view. */
  datatype AnimTrack = AnimTrack(
    name: string,
    duration: real,
    frameRate: real,
    loopMode: LoopMode,
    interpolation: string,
    smoothness: real,
    times: seq<real>,
    position: seq<real>,
    target: seq<real>,
    fov: seq<real>)

  datatype CameraPose = CameraPose(position: seq<real>, target: seq<real>, fov: real)

  datatype Annotation = Annotation(title: string, text: string, position: seq<real>, camera: CameraPose)

  datatype StartMode = Default | AnimTrackStart

  datatype PostEffects = PostEffects(
    sharpnessEnabled: bool, sharpnessAmount: real,
    bloomEnabled: bool, bloomIntensity: real, bloomBlurLevel: real,
    gradingEnabled: bool, brightness: real, contrast: real, saturation: real, tint: seq<real>,
    vignetteEnabled: bool, vignetteIntensity: real, vignetteInner: real, vignetteOuter: real,
    vignetteCurvature: real,
    fringingEnabled: bool, fringingIntensity: real)

  /** The post effects an upgraded document gets: all disabled, with neutral parameters. */
  const DisabledPostEffects := PostEffects(
    false, 0.0,
    false, 1.0, 2.0,
    false, 0.0, 1.0, 1.0, [1.0, 1.0, 1.0],
    false, 0.5, 0.3, 0.75, 1.0,
    false, 0.5)

  datatype SettingsV2 = SettingsV2(
    version: real,
    tonemapping: string,
    highPrecisionRendering: bool,
    backgroundColor: seq<real>,
    postEffects: PostEffects,
    animTracks: seq<AnimTrack>,
    cameras: seq<CameraPose>,
    annotations: seq<Annotation>,
    startMode: StartMode,
    hasStartPose: bool)

  /** A parsed settings document: without a `version` field, or with one (of any value). */
  datatype Document = Unversioned(v1: SettingsV1) | Versioned(settings: SettingsV2)

  /** What `importSettings` produces: the upgraded settings, or the error it throws. */
  datatype Outcome = Imported(settings: SettingsV2) | UnsupportedVersion(version: real)

  // ---------------------------------------------------------------------------------------------
  // JavaScript truthiness of the optional fields the upgrade tests.

  /** A number field is truthy when present and non-zero (JSON has no NaN). */
  predicate Truthy(x: Option<real>) {
    x.Some? && x.value != 0.0
  }

  /** `x || d` on a number field. */
  function NumberOr(x: Option<real>, d: real): real {
    if Truthy(x) then x.value else d
  }

  /** `x || d` on an array field: any present array, even an empty one, is truthy. */
  function ArrayOr(x: Option<seq<real>>, d: seq<real>): seq<real> {
    if x.Some? then x.value else d
  }

  // ---------------------------------------------------------------------------------------------
  // migrateV1

  const DefaultFrameRate: real := 30.0

  /** What migrateV1 does to one track: a track with a falsy frame rate gets 30 frames per second
      and its keyframe times, which were in seconds, are scaled to frames; a track without a
      smoothness gets 0. Nothing else about the track changes. */
  function MigrateTrack(t: TrackV1): (r: TrackV1)
    ensures Truthy(r.frameRate) && r.smoothness.Some?
    ensures !Truthy(t.frameRate) ==> r.frameRate == Some(DefaultFrameRate) && |r.times| == |t.times|
    ensures !Truthy(t.frameRate) ==> forall i :: 0 <= i < |t.times| ==> r.times[i] == t.times[i] * DefaultFrameRate
    ensures Truthy(t.frameRate) ==> r.frameRate == t.frameRate && r.times == t.times
    ensures t.smoothness.None? ==> r.smoothness == Some(0.0)
    ensures t.smoothness.Some? ==> r.smoothness == t.smoothness
    ensures r.(frameRate := t.frameRate, times := t.times, smoothness := t.smoothness) == t
  {
    var rated := if Truthy(t.frameRate) then t
      else t.(frameRate := Some(DefaultFrameRate), times := ScaleAll(t.times, DefaultFrameRate));
    if t.smoothness.Some? then rated else rated.(smoothness := Some(0.0))
  }

  function ScaleAll(s: seq<real>, k: real): seq<real> {
    seq(|s|, i requires 0 <= i < |s| => s[i] * k)
  }

  /** The document migrateV1 returns: every track migrated, or an empty track list when there was
      none. */
  function MigratedV1(s: SettingsV1): SettingsV1 {
    if s.animTracks.Some? then
      var tracks := s.animTracks.value;
      s.(animTracks := Some(seq(|tracks|, i requires 0 <= i < |tracks| => MigrateTrack(tracks[i]))))
    else
      s.(animTracks := Some([]))
  }

  /** `migrateV1(settings)`: patches the tracks one by one, scaling keyframe times in place. */
  method MigrateV1(s: SettingsV1) returns (r: SettingsV1)
    ensures r == MigratedV1(s)
  {
    if s.animTracks.None? {
      return s.(animTracks := Some([]));
    }
    var tracks := s.animTracks.value;
    var i := 0;
    while i < |tracks|
      invariant 0 <= i <= |tracks| == |s.animTracks.value|
      invariant forall k :: 0 <= k < i ==> tracks[k] == MigrateTrack(s.animTracks.value[k])
      invariant tracks[i..] == s.animTracks.value[i..]
    {
      var track := tracks[i];
      assert track == s.animTracks.value[i] by {
        assert tracks[i..][0] == s.animTracks.value[i..][0];
      }
      if !Truthy(track.frameRate) {
        var times := track.times;
        var j := 0;
        while j < |times|
          invariant 0 <= j <= |times| == |track.times|
          invariant forall k :: 0 <= k < j ==> times[k] == track.times[k] * DefaultFrameRate
          invariant times[j..] == track.times[j..]
        {
          assert times[j] == track.times[j] by {
            assert times[j..][0] == track.times[j..][0];
          }
          times := times[j := times[j] * DefaultFrameRate];
          j := j + 1;
        }
        assert times == ScaleAll(track.times, DefaultFrameRate);
        track := track.(frameRate := Some(DefaultFrameRate), times := times);
      }
      if track.smoothness.None? {
        track := track.(smoothness := Some(0.0));
      }
      assert track == MigrateTrack(s.animTracks.value[i]);
      tracks := tracks[i := track];
      i := i + 1;
    }
    assert tracks == seq(|tracks|, k requires 0 <= k < |tracks| => MigrateTrack(s.animTracks.value[k]));
    r := s.(animTracks := Some(tracks));
  }

  /** A track that already has a truthy frame rate and a smoothness is left exactly as it was. */
  lemma CompleteTrackUntouched(t: TrackV1)
    requires Truthy(t.frameRate) && t.smoothness.Some?
    ensures MigrateTrack(t) == t
  {
  }

  /** migrateV1 is idempotent: a migrated document migrates to itself. */
  lemma MigrateV1Idempotent(s: SettingsV1)
    ensures MigratedV1(MigratedV1(s)) == MigratedV1(s)
  {
    var m := MigratedV1(s);
    var tracks := m.animTracks.value;
    forall i | 0 <= i < |tracks|
      ensures MigrateTrack(tracks[i]) == tracks[i]
    {
      CompleteTrackUntouched(tracks[i]);
    }
    assert MigratedV1(m).animTracks.value == tracks;
  }

  // ---------------------------------------------------------------------------------------------
  // migrateAnimTrackV2 and migrateV2

  /** Every track field the version 2 track has, from a track migrateV1 has completed. */
  predicate CompleteTrack(t: TrackV1) {
    t.frameRate.Some? && t.smoothness.Some?
  }

  /** `migrateAnimTrackV2(track, fov)`: copies the track and adds one field-of-view keyframe per
      time, all equal to `fov`. */
  function MigrateAnimTrackV2(t: TrackV1, fov: real): (r: AnimTrack)
    requires CompleteTrack(t)
    ensures r.name == t.name && r.duration == t.duration && r.frameRate == t.frameRate.value
    ensures r.loopMode == t.loopMode && r.interpolation == t.interpolation
    ensures r.smoothness == t.smoothness.value
    ensures r.times == t.times && r.position == t.position && r.target == t.target
    ensures |r.fov| == |r.times| && forall i :: 0 <= i < |r.fov| ==> r.fov[i] == fov
  {
    AnimTrack(t.name, t.duration, t.frameRate.value, t.loopMode, t.interpolation, t.smoothness.value,
      t.times, t.position, t.target, seq(|t.times|, _ => fov))
  }

  /** A document whose track list migrateV1 has filled in. */
  predicate MigratedDocument(s: SettingsV1) {
    s.animTracks.Some? && forall i :: 0 <= i < |s.animTracks.value| ==> CompleteTrack(s.animTracks.value[i])
  }

  lemma MigratedV1IsComplete(s: SettingsV1)
    ensures MigratedDocument(MigratedV1(s))
  {
  }

  /** `migrateV2(v1)`: version 2 with tone mapping off, the v1 background colour (black when absent),
      disabled post effects, every track upgraded with the v1 field of view (60 when falsy), one
      camera at the v1 pose (defaults position [0, 0, 5], target [0, 0, 0], field of view 65), no
      annotations. */
  function MigrateV2(v1: SettingsV1): (r: SettingsV2)
    requires MigratedDocument(v1)
    ensures r.version == 2.0 && r.tonemapping == "none" && !r.highPrecisionRendering
    ensures r.backgroundColor == ArrayOr(v1.backgroundColor, [0.0, 0.0, 0.0])
    ensures |r.animTracks| == |v1.animTracks.value|
    ensures forall i :: 0 <= i < |r.animTracks| ==>
      r.animTracks[i] == MigrateAnimTrackV2(v1.animTracks.value[i], NumberOr(v1.camera.fov, 60.0))
    ensures |r.cameras| == 1
    ensures r.cameras[0].position == ArrayOr(v1.camera.position, [0.0, 0.0, 5.0])
    ensures r.cameras[0].target == ArrayOr(v1.camera.target, [0.0, 0.0, 0.0])
    ensures r.cameras[0].fov == NumberOr(v1.camera.fov, 65.0)
    ensures r.annotations == []
    ensures r.startMode == AnimTrackStart <==> v1.camera.startAnim == Some("animTrack")
    ensures r.hasStartPose <==> v1.camera.position.Some? && v1.camera.target.Some?
  {
    var tracks := v1.animTracks.value;
    var fov := NumberOr(v1.camera.fov, 60.0);
    SettingsV2(
      2.0, "none", false,
      ArrayOr(v1.backgroundColor, [0.0, 0.0, 0.0]),
      DisabledPostEffects,
      seq(|tracks|, i requires 0 <= i < |tracks| => MigrateAnimTrackV2(tracks[i], fov)),
      [CameraPose(ArrayOr(v1.camera.position, [0.0, 0.0, 5.0]), ArrayOr(v1.camera.target, [0.0, 0.0, 0.0]),
        NumberOr(v1.camera.fov, 65.0))],
      [],
      if v1.camera.startAnim == Some("animTrack") then AnimTrackStart else Default,
      v1.camera.position.Some? && v1.camera.target.Some?)
  }

  // ---------------------------------------------------------------------------------------------
  // importSettings

  /** `importSettings(settings)`: a document without a version is upgraded from version 1, a
      version 2 document is returned as it is, and any other version is rejected. */
  function ImportSettings(doc: Document): (r: Outcome)
    ensures doc.Unversioned? ==> r.Imported? && r.settings.version == 2.0
    ensures doc.Versioned? && doc.settings.version == 2.0 ==> r == Imported(doc.settings)
    ensures doc.Versioned? && doc.settings.version != 2.0 ==> r == UnsupportedVersion(doc.settings.version)
  {
    match doc
    case Unversioned(v1) =>
      MigratedV1IsComplete(v1);
      Imported(MigrateV2(MigratedV1(v1)))
    case Versioned(s) =>
      if s.version == 2.0 then Imported(s) else UnsupportedVersion(s.version)
  }

  /** The upgrade path of importSettings, with migrateV1 run as the in-place method. */
  method ImportSettingsV1(v1: SettingsV1) returns (r: SettingsV2)
    ensures Imported(r) == ImportSettings(Unversioned(v1))
  {
    var migrated := MigrateV1(v1);
    MigratedV1IsComplete(v1);
    r := MigrateV2(migrated);
  }

  /** Importing is idempotent: whatever importSettings produces is a version 2 document that imports
      to itself, so loading saved settings twice changes nothing. */
  lemma ImportIdempotent(doc: Document)
    requires ImportSettings(doc).Imported?
    ensures ImportSettings(Versioned(ImportSettings(doc).settings)) == ImportSettings(doc)
  {
  }

  /** Only version 2 and unversioned documents import; every other version is an error. */
  lemma ImportFailsExactlyOnOtherVersions(doc: Document)
    ensures ImportSettings(doc).UnsupportedVersion? <==> doc.Versioned? && doc.settings.version != 2.0
  {
  }
}
