/**
 The Quest reconstruction pipeline (modules/quest_reconstruction_pipeline.py,
 `QuestReconstructionPipeline`): camera intrinsics and head-to-camera
 extrinsics from the frames.json metadata, the camera list, the frame
 stride, the progress percentages, and the loop that turns every
 (frame, camera) pair into either one integration or one failure.  Open3D's
 integration is opaque: the pairs whose `integrate_frame` call raises are an
 input, and so are the counts of the mesh the grid extracts.
 */
module QuestPipeline {
  import opened Wrappers
  import opened ConfigTree
  import opened Geometry
  import opened Reconstruction
  import QuestAdapter
  import QuestImageProcessor

  type Frame = QuestAdapter.Frame
  type ProjectFiles = QuestImageProcessor.ProjectFiles

  datatype PipelineError =
    | ReconstructorInit(paramError: ParamError)        // QuestReconstructor(config) raised
    | CameraDataNotADict(camera: string)               // `.get` on a metadata entry that is not a dict
    | IntrinsicsNotADict(camera: string)
    | IntrinsicNotNumeric(camera: string, key: string) // np.array(..., dtype=float64) refused the entry
    | TranslationMalformed(camera: string)             // the translation does not broadcast to 3 floats
    | ZeroStride                                       // frames[::0]
    | MalformedPose(step: nat, poseError: PoseError)   // build_pose_matrix raised outside the try
    | MeshFailed(meshError: MeshError)                 // extract_mesh raised
    | FramesJsonNotFound                               // the constructor's FileNotFoundError
    | ExportNotADict                                   // `export_config.get` when on_log is given

  // ---------------------------------------------------------------------------
  // get_camera_intrinsics
  // ---------------------------------------------------------------------------

  /** `intrinsics_obj.get(key, default)` as a float64 entry. */
  function IntrinsicEntry(intr: map<string, Value>, key: string, default: real): Option<real> {
    ToFloat(ChildOr(intr, key, Real(default)))
  }

  /** The pinhole matrix [[fx, 0, cx], [0, fy, cy], [0, 0, 1]]. */
  function Pinhole(fx: real, fy: real, cx: real, cy: real): (k: Matrix)
    ensures IsMatrix(k, 3, 3)
  {
    [[fx, 0.0, cx], [0.0, fy, cy], [0.0, 0.0, 1.0]]
  }

  /**
   `get_camera_intrinsics`: the camera's entry (default {}), its
   "intrinsics" object (default {}), and fx, fy (default 867) and cx, cy
   (default 640) read from it.
   */
  function Intrinsics(metadata: map<string, Value>, camera: string): (r: Result<Matrix, PipelineError>)
    ensures r.Success? ==> IsMatrix(r.value, 3, 3)
    ensures !ChildOr(metadata, camera, Dict(map[])).Dict? ==> r == Failure(CameraDataNotADict(camera))
    ensures r.Success? <==>
              var cam := ChildOr(metadata, camera, Dict(map[]));
              cam.Dict? &&
              var intrObj := ChildOr(cam.entries, "intrinsics", Dict(map[]));
              intrObj.Dict? &&
              var intr := intrObj.entries;
              && IntrinsicEntry(intr, "fx", 867.0).Some? && IntrinsicEntry(intr, "fy", 867.0).Some?
              && IntrinsicEntry(intr, "cx", 640.0).Some? && IntrinsicEntry(intr, "cy", 640.0).Some?
    ensures r.Success? ==>
              var intr := ChildOr(ChildOr(metadata, camera, Dict(map[])).entries, "intrinsics", Dict(map[])).entries;
              r.value == Pinhole(IntrinsicEntry(intr, "fx", 867.0).value, IntrinsicEntry(intr, "fy", 867.0).value,
                                    IntrinsicEntry(intr, "cx", 640.0).value, IntrinsicEntry(intr, "cy", 640.0).value)
  {
    var cam := ChildOr(metadata, camera, Dict(map[]));
    if !cam.Dict? then Failure(CameraDataNotADict(camera))
    else
      var intrObj := ChildOr(cam.entries, "intrinsics", Dict(map[]));
      if !intrObj.Dict? then Failure(IntrinsicsNotADict(camera))
      else
        var intr := intrObj.entries;
        var fx := IntrinsicEntry(intr, "fx", 867.0);
        var fy := IntrinsicEntry(intr, "fy", 867.0);
        var cx := IntrinsicEntry(intr, "cx", 640.0);
        var cy := IntrinsicEntry(intr, "cy", 640.0);
        if fx.None? then Failure(IntrinsicNotNumeric(camera, "fx"))
        else if fy.None? then Failure(IntrinsicNotNumeric(camera, "fy"))
        else if cx.None? then Failure(IntrinsicNotNumeric(camera, "cx"))
        else if cy.None? then Failure(IntrinsicNotNumeric(camera, "cy"))
        else Success(Pinhole(fx.value, fy.value, cx.value, cy.value))
  }

  /** A camera without metadata gets fx = fy = 867 and cx = cy = 640. */
  lemma DefaultIntrinsics(metadata: map<string, Value>, camera: string)
    requires camera !in metadata
    ensures Intrinsics(metadata, camera) == Success(Pinhole(867.0, 867.0, 640.0, 640.0))
  {
  }

  /** Numeric entries of the camera's "intrinsics" object are used as they are. */
  lemma StoredIntrinsics(metadata: map<string, Value>, camera: string, fx: real, fy: real, cx: real, cy: real)
    requires camera in metadata && metadata[camera].Dict?
    requires var e := metadata[camera].entries;
             "intrinsics" in e
             && e["intrinsics"] == Dict(map["fx" := Real(fx), "fy" := Real(fy), "cx" := Real(cx), "cy" := Real(cy)])
    ensures Intrinsics(metadata, camera) == Success(Pinhole(fx, fy, cx, cy))
  {
  }

  // ---------------------------------------------------------------------------
  // get_camera_extrinsics
  // ---------------------------------------------------------------------------

  /** The default offset along x: -32 mm for "left", +32 mm for any other camera. */
  function DefaultOffset(camera: string): real {
    if camera == "left" then -0.032 else 0.032
  }

  /**
   `H[:3, 3] = np.array(translation)`: a number or a one-element list is
   broadcast to all three rows, a three-element list is copied; anything
   else raises.
   */
  function TranslationOf(v: Value): (t: Option<seq<real>>)
    ensures t.Some? ==> |t.value| == 3
    ensures Numeric(v) ==> t == Some([ToFloat(v).value, ToFloat(v).value, ToFloat(v).value])
    ensures v.List? && |v.items| == 3 && (forall i :: 0 <= i < 3 ==> v.items[i].Real?) ==>
              t == Some([v.items[0].r, v.items[1].r, v.items[2].r])
    ensures !Numeric(v) && !v.List? ==> t.None?
  {
    if Numeric(v) then
      var x := ToFloat(v).value;
      Some([x, x, x])
    else if v.List? && |v.items| == 1 && Numeric(v.items[0]) then
      var x := ToFloat(v.items[0]).value;
      Some([x, x, x])
    else if v.List? && |v.items| == 3 && Numeric(v.items[0]) && Numeric(v.items[1]) && Numeric(v.items[2]) then
      Some([ToFloat(v.items[0]).value, ToFloat(v.items[1]).value, ToFloat(v.items[2]).value])
    else None
  }

  /**
   `get_camera_extrinsics`: identity rotation, and as translation the
   entry's "translation" when present, else the default offset along x.
   The "rotation_quat" entry is read but never used.
   */
  function Extrinsics(metadata: map<string, Value>, camera: string): (r: Result<Matrix, PipelineError>)
    ensures r.Success? ==> IsMatrix(r.value, 4, 4)
    ensures !ChildOr(metadata, camera, Dict(map[])).Dict? ==> r == Failure(CameraDataNotADict(camera))
    ensures r.Success? <==>
              var cam := ChildOr(metadata, camera, Dict(map[]));
              cam.Dict? && ("translation" in cam.entries ==> TranslationOf(cam.entries["translation"]).Some?)
    ensures r.Success? ==>
              var cam := ChildOr(metadata, camera, Dict(map[])).entries;
              r.value == RigidTransform(Identity(3),
                           if "translation" in cam then TranslationOf(cam["translation"]).value
                           else [DefaultOffset(camera), 0.0, 0.0])
  {
    var cam := ChildOr(metadata, camera, Dict(map[]));
    if !cam.Dict? then Failure(CameraDataNotADict(camera))
    else if "translation" in cam.entries then
      match TranslationOf(cam.entries["translation"])
      case None => Failure(TranslationMalformed(camera))
      case Some(t) => Success(RigidTransform(Identity(3), t))
    else Success(RigidTransform(Identity(3), [DefaultOffset(camera), 0.0, 0.0]))
  }

  /**
   Without a "translation" entry the extrinsic is the pure translation by
   [-0.032, 0, 0] for "left" and [0.032, 0, 0] for every other camera, with
   the identity as rotation.
   */
  lemma DefaultExtrinsics(metadata: map<string, Value>, camera: string)
    requires camera !in metadata || (metadata[camera].Dict? && "translation" !in metadata[camera].entries)
    ensures Extrinsics(metadata, camera).Success?
    ensures var h := Extrinsics(metadata, camera).value;
            && (forall i, j :: 0 <= i < 3 && 0 <= j < 3 ==> h[i][j] == if i == j then 1.0 else 0.0)
            && h[0][3] == (if camera == "left" then -0.032 else 0.032)
            && h[1][3] == 0.0 && h[2][3] == 0.0
            && h[3] == [0.0, 0.0, 0.0, 1.0]
  {
    var h := Extrinsics(metadata, camera).value;
    var t := [DefaultOffset(camera), 0.0, 0.0];
    assert h == RigidTransform(Identity(3), t);
    forall i | 0 <= i < 3
      ensures h[i] == Identity(3)[i] + [t[i]]
    {
    }
  }

  // ---------------------------------------------------------------------------
  // The camera list, the stride and the progress value
  // ---------------------------------------------------------------------------

  /** `['left', 'right'] if camera == 'both' else [camera]`. */
  function CamerasToProcess(camera: string): (cams: seq<string>)
    ensures camera == "both" ==> cams == ["left", "right"]
    ensures camera != "both" ==> cams == [camera]
    ensures forall a, b :: 0 <= a < b < |cams| ==> cams[a] != cams[b]
  {
    if camera == "both" then ["left", "right"] else [camera]
  }

  /** j k, counted out step by step so that the stride's facts stay linear. */
  function Offset(j: nat, k: nat): nat {
    if j == 0 then 0 else Offset(j - 1, k) + k
  }

  lemma {:induction false} OffsetIsProduct(j: nat, k: nat)
    ensures Offset(j, k) == j * k
  {
    if j > 0 {
      OffsetIsProduct(j - 1, k);
      assert (j - 1) * k + k == j * k;
    }
  }

  /** `s[::k]` for k > 0: the elements at 0, k, 2k, ... */
  function StrideForward(s: seq<Frame>, k: nat): (r: seq<Frame>)
    requires k > 0
    ensures forall j :: 0 <= j < |r| ==> Offset(j, k) < |s| && r[j] == s[Offset(j, k)]
    ensures Offset(|r|, k) >= |s|
    decreases |s|
  {
    if |s| == 0 then []
    else if |s| <= k then
      assert Offset(1, k) == k;
      [s[0]]
    else
      var rest := StrideForward(s[k..], k);
      StrideStep(s, k, rest);
      [s[0]] + rest
  }

  /** Prepending s[0] to the stride of s[k..] gives the stride of s. */
  lemma StrideStep(s: seq<Frame>, k: nat, rest: seq<Frame>)
    requires 0 < k < |s|
    requires forall j :: 0 <= j < |rest| ==> Offset(j, k) < |s| - k && rest[j] == s[k..][Offset(j, k)]
    requires Offset(|rest|, k) >= |s| - k
    ensures var r := [s[0]] + rest;
            && (forall j :: 0 <= j < |r| ==> Offset(j, k) < |s| && r[j] == s[Offset(j, k)])
            && Offset(|r|, k) >= |s|
  {
    var r := [s[0]] + rest;
    forall j | 0 <= j < |r|
      ensures Offset(j, k) < |s| && r[j] == s[Offset(j, k)]
    {
      if j > 0 {
        var o := Offset(j - 1, k);
        assert Offset(j, k) == o + k;
        assert o < |s| - k && rest[j - 1] == s[k..][o];
        assert s[k..][o] == s[k + o];
        assert r[j] == rest[j - 1];
      }
    }
    assert Offset(|r|, k) == Offset(|rest|, k) + k;
  }

  /** Python's `list[::-1]`. */
  function Reverse(s: seq<Frame>): (r: seq<Frame>)
    ensures |r| == |s| && forall i :: 0 <= i < |s| ==> r[i] == s[|s| - 1 - i]
  {
    seq(|s|, i requires 0 <= i < |s| => s[|s| - 1 - i])
  }

  /**
   `frames[::k]`: every k-th frame from the first for k > 0, every |k|-th
   frame counted back from the last for k < 0; a zero step raises ValueError.
   */
  function Stride(frames: seq<Frame>, k: int): (r: Result<seq<Frame>, PipelineError>)
    ensures r.Failure? <==> k == 0
    ensures k > 0 ==> r.Success? && forall j :: 0 <= j < |r.value| ==>
              Offset(j, k) < |frames| && r.value[j] == frames[Offset(j, k)]
    ensures k < 0 ==> r.Success? && forall j :: 0 <= j < |r.value| ==>
              Offset(j, -k) < |frames| && r.value[j] == frames[|frames| - 1 - Offset(j, -k)]
    ensures k != 0 ==> Offset(|r.value|, if k > 0 then k else -k) >= |frames|
  {
    if k == 0 then Failure(ZeroStride)
    else if k > 0 then Success(StrideForward(frames, k))
    else Success(StrideForward(Reverse(frames), -k))
  }

  /**
   A positive stride visits every multiple of k below the length: frame
   m k is the m-th frame of the stride (StrideAt gives the converse).
   */
  lemma StrideVisitsMultiples(frames: seq<Frame>, k: int, m: nat)
    requires k > 0 && 0 <= m * k < |frames|
    ensures var r := Stride(frames, k).value;
            m < |r| && r[m] == frames[m * k]
  {
    var r := Stride(frames, k).value;
    OffsetIsProduct(m, k);
    OffsetIsProduct(|r|, k);
    if m >= |r| {
      MulLeInt(|r|, m, k);
      assert false;
    }
  }

  /** The j-th frame of a positive stride is frames[j k]. */
  lemma StrideAt(frames: seq<Frame>, k: int, j: nat)
    requires k > 0 && j < |Stride(frames, k).value|
    ensures 0 <= j * k < |frames| && Stride(frames, k).value[j] == frames[j * k]
  {
    OffsetIsProduct(j, k);
  }

  /** Multiplying by a positive number keeps the order. */
  lemma MulLeInt(a: int, b: int, k: int)
    requires k > 0 && a <= b
    ensures a * k <= b * k
  {
    assert b * k - a * k == (b - a) * k;
  }

  /** `int((i + 1) / n * 100)` over exact arithmetic. */
  function Progress(i: nat, n: nat): (p: int)
    requires i < n
    ensures 0 <= p <= 100
  {
    assert (i + 1) * 100 <= n * 100;
    DivBound((i + 1) * 100, n);
    (i + 1) * 100 / n
  }

  /** a / n <= 100 when a <= 100 n. */
  lemma DivBound(a: nat, n: nat)
    requires n > 0 && a <= n * 100
    ensures 0 <= a / n <= 100
  {
    var q := a / n;
    assert q * n <= a;
    if q > 100 {
      MulLeInt(101, q, n);
      assert false;
    }
  }

  /** Euclidean division by a positive number is monotone. */
  lemma DivMono(a: nat, b: nat, n: nat)
    requires n > 0 && a <= b
    ensures a / n <= b / n
  {
    var qa, qb := a / n, b / n;
    assert qa * n <= a && b < (qb + 1) * n;
    if qa > qb {
      MulLeInt(qb + 1, qa, n);
      assert false;
    }
  }

  /** Progress never decreases from one step to a later one. */
  lemma ProgressMonotone(i: nat, j: nat, n: nat)
    requires i <= j < n
    ensures Progress(i, n) <= Progress(j, n)
  {
    DivMono((i + 1) * 100, (j + 1) * 100, n);
  }

  /** The last step reports 100. */
  lemma ProgressFinal(n: nat)
    requires n > 0
    ensures Progress(n - 1, n) == 100
  {
    DivExact(n * 100, n, 100);
  }

  /** a / n == q when a == q n. */
  lemma DivExact(a: nat, n: nat, q: nat)
    requires n > 0 && a == q * n
    ensures a / n == q
  {
    var d := a / n;
    assert d * n <= a < (d + 1) * n;
    if d > q {
      MulLeInt(q + 1, d, n);
      assert false;
    } else if d < q {
      MulLeInt(d + 1, q, n);
      assert false;
    }
  }

  // ---------------------------------------------------------------------------
  // The pipeline object
  // ---------------------------------------------------------------------------

  /**
   A constructed pipeline: the project's files, the configuration, the
   reconstructor's settings when Open3D is available, and the content of
   frames.json.
   */
  datatype Pipeline = Pipeline(
    project: ProjectFiles,
    config: Value,
    reconstructor: Option<Params>,
    frames: seq<Frame>,
    cameraMetadata: map<string, Value>)

  /**
   `QuestReconstructionPipeline.__init__`: the reconstructor is built first
   (when Open3D is available), so a bad "reconstruction" section raises
   before a missing frames.json does.
   */
  function NewPipeline(project: ProjectFiles, config: Value, open3d: bool,
                       framesJson: Option<QuestAdapter.FramesDocument>): (r: Result<Pipeline, PipelineError>)
    ensures open3d && MakeParams(config).Failure? ==> r == Failure(ReconstructorInit(MakeParams(config).error))
    ensures r.Success? <==> framesJson.Some? && (open3d ==> MakeParams(config).Success?)
    ensures r.Success? ==>
              && r.value.frames == framesJson.value.frames
              && r.value.cameraMetadata == framesJson.value.cameraMetadata
              && (r.value.reconstructor.Some? <==> open3d)
              && (open3d ==> r.value.reconstructor.value == MakeParams(config).value)
  {
    var rec := if open3d then Some(MakeParams(config)) else None;
    if rec.Some? && rec.value.Failure? then Failure(ReconstructorInit(rec.value.error))
    else if framesJson.None? then Failure(FramesJsonNotFound)
    else
      var doc := framesJson.value;
      Success(Pipeline(project, config, if rec.Some? then Some(rec.value.value) else None,
                       doc.frames, doc.cameraMetadata))
  }

  // ---------------------------------------------------------------------------
  // The per-camera matrices computed before the frame loop
  // ---------------------------------------------------------------------------

  /** `{cam: self.get_camera_intrinsics(cam) for cam in cameras}`; the first failure propagates. */
  function IntrinsicsMap(metadata: map<string, Value>, cams: seq<string>): (r: Result<map<string, Matrix>, PipelineError>)
    ensures r.Success? <==> forall c :: c in cams ==> Intrinsics(metadata, c).Success?
    ensures r.Success? ==> forall c :: c in cams ==> c in r.value && Intrinsics(metadata, c) == Success(r.value[c])
    ensures r.Failure? ==> exists c :: c in cams && Intrinsics(metadata, c) == Failure(r.error)
    decreases |cams|
  {
    if |cams| == 0 then Success(map[])
    else
      match Intrinsics(metadata, cams[0])
      case Failure(e) => Failure(e)
      case Success(k) =>
        assert forall c :: c in cams <==> c == cams[0] || c in cams[1..];
        match IntrinsicsMap(metadata, cams[1..])
        case Failure(e) => Failure(e)
        case Success(m) => Success(m[cams[0] := k])
  }

  /** `{cam: self.get_camera_extrinsics(cam) for cam in cameras}`; the first failure propagates. */
  function ExtrinsicsMap(metadata: map<string, Value>, cams: seq<string>): (r: Result<map<string, Matrix>, PipelineError>)
    ensures r.Success? <==> forall c :: c in cams ==> Extrinsics(metadata, c).Success?
    ensures r.Success? ==> forall c :: c in cams ==> c in r.value && Extrinsics(metadata, c) == Success(r.value[c])
    ensures r.Failure? ==> exists c :: c in cams && Extrinsics(metadata, c) == Failure(r.error)
    decreases |cams|
  {
    if |cams| == 0 then Success(map[])
    else
      match Extrinsics(metadata, cams[0])
      case Failure(e) => Failure(e)
      case Success(h) =>
        assert forall c :: c in cams <==> c == cams[0] || c in cams[1..];
        match ExtrinsicsMap(metadata, cams[1..])
        case Failure(e) => Failure(e)
        case Success(m) => Success(m[cams[0] := h])
  }

  /** The cameras of a run with their intrinsics and head-to-camera transforms. */
  datatype CameraSetup = CameraSetup(cams: seq<string>, intrinsics: map<string, Matrix>, extrinsics: map<string, Matrix>)

  predicate SetupValid(s: CameraSetup) {
    forall c :: c in s.cams ==> c in s.intrinsics && c in s.extrinsics && IsMatrix(s.extrinsics[c], 4, 4)
  }

  /** All intrinsics first, then all extrinsics, as the two comprehensions run. */
  function PrepareCameras(metadata: map<string, Value>, camera: string): (r: Result<CameraSetup, PipelineError>)
    ensures r.Success? ==> SetupValid(r.value) && r.value.cams == CamerasToProcess(camera)
  {
    var cams := CamerasToProcess(camera);
    match IntrinsicsMap(metadata, cams)
    case Failure(e) => Failure(e)
    case Success(ks) =>
      match ExtrinsicsMap(metadata, cams)
      case Failure(e) => Failure(e)
      case Success(hs) => Success(CameraSetup(cams, ks, hs))
  }

  /**
   The preparation succeeds exactly when every camera's intrinsics and
   extrinsics can be computed, and then holds those very matrices; when some
   intrinsics fail, the error raised is one of theirs, as the intrinsics
   comprehension runs first.
   */
  lemma PrepareCamerasIff(metadata: map<string, Value>, camera: string)
    ensures var r := PrepareCameras(metadata, camera);
            && (r.Success? <==> forall c :: c in CamerasToProcess(camera) ==>
                                  Intrinsics(metadata, c).Success? && Extrinsics(metadata, c).Success?)
            && (r.Success? ==> forall c :: c in r.value.cams ==>
                                 && Success(r.value.intrinsics[c]) == Intrinsics(metadata, c)
                                 && Success(r.value.extrinsics[c]) == Extrinsics(metadata, c))
            && ((exists c :: c in CamerasToProcess(camera) && Intrinsics(metadata, c).Failure?) ==>
                  r.Failure? && exists c :: c in CamerasToProcess(camera) && Intrinsics(metadata, c) == Failure(r.error))
  {
  }

  // ---------------------------------------------------------------------------
  // The frame loop
  // ---------------------------------------------------------------------------

  /** The arguments of one `integrate_frame` call that returned normally. */
  datatype Integration = Integration(
    step: nat,
    camera: string,
    rgb: QuestImageProcessor.RgbImage,
    depth: QuestImageProcessor.DepthMap,
    intrinsics: Matrix,
    pose: Matrix)

  /**
   Everything one run depends on once the cameras are prepared: the strided
   frames, the images `process_quest_frame` gives for each (step, camera)
   pair, and the pairs whose `integrate_frame` call raises inside Open3D.
   */
  datatype Run = Run(
    project: ProjectFiles,
    setup: CameraSetup,
    frames: seq<Frame>,
    images: (nat, string) -> QuestImageProcessor.FrameImages,
    integrationFails: set<(nat, string)>)

  /** The run's images are what `process_quest_frame` makes of the project's files. */
  ghost predicate ImagesFromProject(run: Run) {
    forall j: nat, c :: j < |run.frames| ==>
      run.images(j, c) == QuestImageProcessor.ProcessQuestFrame(run.project, run.frames[j], c)
  }

  function HeadPose(f: Frame): Result<Matrix, PoseError> {
    BuildPoseMatrix(f.position, f.rotation)
  }

  /** The head poses of the first n frames can be built. */
  predicate PosesBuild(frames: seq<Frame>, n: nat)
    requires n <= |frames|
  {
    forall j :: 0 <= j < n ==> HeadPose(frames[j]).Success?
  }

  /**
   The body of the inner loop for camera `cam` of step j: nothing when
   process_quest_frame gave no colour or no depth image or when
   integrate_frame raised, and otherwise the integration with the camera's
   world pose `head_pose @ T_head_cam`.
   */
  function PairOutcome(run: Run, j: nat, cam: string): (r: Option<Integration>)
    requires SetupValid(run.setup) && j < |run.frames| && HeadPose(run.frames[j]).Success? && cam in run.setup.cams
    ensures r.Some? ==> r.value.step == j && r.value.camera == cam
  {
    var imgs := run.images(j, cam);
    if imgs.rgb.None? || imgs.depth.None? || (j, cam) in run.integrationFails then None
    else
      Some(Integration(j, cam, imgs.rgb.value, imgs.depth.value, run.setup.intrinsics[cam],
                       MatMul(HeadPose(run.frames[j]).value, run.setup.extrinsics[cam], 4, 4, 4)))
  }

  /** The outcome of every camera of step j, in camera order. */
  function StepOutcomes(run: Run, j: nat): (outs: seq<Option<Integration>>)
    requires SetupValid(run.setup) && j < |run.frames| && HeadPose(run.frames[j]).Success?
    ensures |outs| == |run.setup.cams|
  {
    seq(|run.setup.cams|, k requires 0 <= k < |run.setup.cams| => PairOutcome(run, j, run.setup.cams[k]))
  }

  /** The present outcomes, in order. */
  function Collect(outs: seq<Option<Integration>>): (r: seq<Integration>)
    ensures |r| <= |outs|
  {
    if |outs| == 0 then []
    else
      var last := outs[|outs| - 1];
      Collect(outs[..|outs| - 1]) + if last.Some? then [last.value] else []
  }

  /** An integration is collected exactly when it is one of the outcomes. */
  lemma {:induction false} CollectIff(outs: seq<Option<Integration>>, x: Integration)
    ensures x in Collect(outs) <==> Some(x) in outs
  {
    if |outs| > 0 {
      var init := outs[..|outs| - 1];
      CollectIff(init, x);
      assert outs == init + [outs[|outs| - 1]];
    }
  }

  /** The integrations of the first i steps, in loop order. */
  function Integrations(run: Run, i: nat): seq<Integration>
    requires SetupValid(run.setup) && i <= |run.frames| && PosesBuild(run.frames, i)
  {
    if i == 0 then [] else Integrations(run, i - 1) + Collect(StepOutcomes(run, i - 1))
  }

  /**
   Soundness of the loop: each integration comes from a step already taken
   and a processed camera, and is exactly what that pair produces.
   */
  lemma {:induction false} IntegrationsSound(run: Run, i: nat, x: Integration)
    requires SetupValid(run.setup) && i <= |run.frames| && PosesBuild(run.frames, i)
    requires x in Integrations(run, i)
    ensures x.step < i && x.camera in run.setup.cams && PairOutcome(run, x.step, x.camera) == Some(x)
  {
    var before, outs := Integrations(run, i - 1), StepOutcomes(run, i - 1);
    assert Integrations(run, i) == before + Collect(outs);
    if x in before {
      IntegrationsSound(run, i - 1, x);
    } else {
      CollectIff(outs, x);
      var k :| 0 <= k < |outs| && outs[k] == Some(x);
      assert PairOutcome(run, i - 1, run.setup.cams[k]) == Some(x);
    }
  }

  /** Integrations made by the first m steps stay among those of the first i steps. */
  lemma {:induction false} IntegrationsGrow(run: Run, m: nat, i: nat, x: Integration)
    requires SetupValid(run.setup) && m <= i <= |run.frames| && PosesBuild(run.frames, i)
    requires x in Integrations(run, m)
    ensures x in Integrations(run, i)
  {
    if m < i {
      IntegrationsGrow(run, m, i - 1, x);
      StepTaken(run, i - 1);
    }
  }

  /** Completeness of the loop: every pair of a step already taken that integrates has been integrated. */
  lemma IntegrationsComplete(run: Run, i: nat, j: nat, c: string)
    requires SetupValid(run.setup) && i <= |run.frames| && PosesBuild(run.frames, i)
    requires j < i && c in run.setup.cams && PairOutcome(run, j, c).Some?
    ensures PairOutcome(run, j, c).value in Integrations(run, i)
  {
    var x := PairOutcome(run, j, c).value;
    var outs := StepOutcomes(run, j);
    var k :| 0 <= k < |run.setup.cams| && run.setup.cams[k] == c;
    assert outs[k] == Some(x);
    CollectIff(outs, x);
    StepTaken(run, j);
    IntegrationsGrow(run, j + 1, i, x);
  }

  /**
   What a frame loop that went through every step delivers: one progress
   value per step, one count per (step, camera) pair, and as integrations
   exactly the pairs that integrate, each with its own images and pose.
   */
  predicate LoopResult(run: Run, progress: seq<int>, integrations: seq<Integration>, processed: nat, failed: nat)
    requires SetupValid(run.setup)
  {
    && PosesBuild(run.frames, |run.frames|)
    && |progress| == |run.frames|
    && (forall j :: 0 <= j < |progress| ==> progress[j] == Progress(j, |run.frames|))
    && processed == |integrations|
    && processed + failed == |run.frames| * |run.setup.cams|
    && (forall x :: x in integrations ==>
          x.step < |run.frames| && x.camera in run.setup.cams && PairOutcome(run, x.step, x.camera) == Some(x))
    && (forall j, c :: 0 <= j < |run.frames| && c in run.setup.cams && PairOutcome(run, j, c).Some? ==>
          PairOutcome(run, j, c).value in integrations)
  }

  /** Soundness and completeness of a loop that went through every step. */
  lemma CompletedLoop(run: Run, progress: seq<int>, processed: nat, failed: nat)
    requires SetupValid(run.setup) && PosesBuild(run.frames, |run.frames|)
    requires |progress| == |run.frames| && forall j :: 0 <= j < |progress| ==> progress[j] == Progress(j, |run.frames|)
    requires processed == |Integrations(run, |run.frames|)|
    requires processed + failed == |run.frames| * |run.setup.cams|
    ensures LoopResult(run, progress, Integrations(run, |run.frames|), processed, failed)
  {
    forall x | x in Integrations(run, |run.frames|)
      ensures x.step < |run.frames| && x.camera in run.setup.cams && PairOutcome(run, x.step, x.camera) == Some(x)
    {
      IntegrationsSound(run, |run.frames|, x);
    }
    forall j, c | 0 <= j < |run.frames| && c in run.setup.cams && PairOutcome(run, j, c).Some?
      ensures PairOutcome(run, j, c).value in Integrations(run, |run.frames|)
    {
      IntegrationsComplete(run, |run.frames|, j, c);
    }
  }

  /** How a run ends. `NoReconstructor` is the `None` returned without Open3D. */
  datatype RunOutcome =
    | NoReconstructor
    | Crashed(error: PipelineError)
    | Finished(mesh: Mesh, processed: nat, failed: nat)

  /**
   The part of `run_reconstruction` before the frame loop: the camera list,
   the intrinsics and extrinsics, and `frames[::frame_interval]`; the images
   of each pair are those `process_quest_frame` reads from the project.
   */
  function PrepareRun(p: Pipeline, camera: string, frameInterval: int, fails: set<(nat, string)>): (r: Result<Run, PipelineError>)
    ensures PrepareCameras(p.cameraMetadata, camera).Failure? ==>
              r == Failure(PrepareCameras(p.cameraMetadata, camera).error)
    ensures PrepareCameras(p.cameraMetadata, camera).Success? && frameInterval == 0 ==> r == Failure(ZeroStride)
    ensures r.Success? <==> PrepareCameras(p.cameraMetadata, camera).Success? && frameInterval != 0
    ensures r.Success? ==>
              && SetupValid(r.value.setup) && ImagesFromProject(r.value)
              && r.value.setup == PrepareCameras(p.cameraMetadata, camera).value
              && r.value.frames == Stride(p.frames, frameInterval).value
              && r.value.project == p.project && r.value.integrationFails == fails
  {
    match PrepareCameras(p.cameraMetadata, camera)
    case Failure(e) => Failure(e)
    case Success(setup) =>
      match Stride(p.frames, frameInterval)
      case Failure(e) => Failure(e)
      case Success(frames) =>
        var images := (j: nat, c: string) =>
          if j < |frames| then QuestImageProcessor.ProcessQuestFrame(p.project, frames[j], c)
          else QuestImageProcessor.FrameImages(None, None);
        Success(Run(p.project, setup, frames, images, fails))
  }

  /**
   The inner loop of `run_reconstruction` for step i: each camera in turn,
   counting a camera without colour or depth, or whose integration raises,
   as failed.
   */
  method IntegrateCameras(run: Run, i: nat, head: Matrix)
    returns (added: seq<Integration>, failed: nat)
    requires SetupValid(run.setup) && i < |run.frames| && HeadPose(run.frames[i]) == Success(head)
    ensures added == Collect(StepOutcomes(run, i))
    ensures |added| + failed == |run.setup.cams|
  {
    var cams := run.setup.cams;
    added, failed := [], 0;
    var k := 0;
    while k < |cams|
      invariant 0 <= k <= |cams|
      invariant added == Collect(StepOutcomes(run, i)[..k])
      invariant |added| + failed == k
    {
      assert StepOutcomes(run, i)[..k + 1][..k] == StepOutcomes(run, i)[..k];
      var cam := cams[k];
      var imgs := run.images(i, cam);
      if imgs.rgb.None? || imgs.depth.None? {
        failed := failed + 1;
      } else {
        var pose := MatMul(head, run.setup.extrinsics[cam], 4, 4, 4);
        if (i, cam) in run.integrationFails {
          failed := failed + 1;
        } else {
          added := added + [Integration(i, cam, imgs.rgb.value, imgs.depth.value, run.setup.intrinsics[cam], pose)];
        }
      }
      k := k + 1;
    }
    assert StepOutcomes(run, i)[..k] == StepOutcomes(run, i);
  }

  /** Taking step i extends the poses built and the integrations by that step's. */
  lemma StepTaken(run: Run, i: nat)
    requires SetupValid(run.setup) && i < |run.frames| && PosesBuild(run.frames, i) && HeadPose(run.frames[i]).Success?
    ensures PosesBuild(run.frames, i + 1)
    ensures Integrations(run, i + 1) == Integrations(run, i) + Collect(StepOutcomes(run, i))
    ensures Offset(i + 1, |run.setup.cams|) == Offset(i, |run.setup.cams|) + |run.setup.cams|
  {
  }

  /** `progress` holds the progress report of each step taken so far, in order. */
  predicate Ticks(progress: seq<int>, n: nat)
  {
    forall j :: 0 <= j < |progress| ==> j < n && progress[j] == Progress(j, n)
  }

  /** Reporting the progress of the next step keeps the reports in order. */
  lemma TickAppend(progress: seq<int>, n: nat)
    requires Ticks(progress, n) && |progress| < n
    ensures Ticks(progress + [Progress(|progress|, n)], n)
  {
    var longer := progress + [Progress(|progress|, n)];
    forall j | 0 <= j < |longer|
      ensures j < n && longer[j] == Progress(j, n)
    {
      if j < |progress| {
        assert longer[j] == progress[j];
      }
    }
  }

  /** One head pose that cannot be built means the loop can never complete. */
  lemma PoseBreaks(frames: seq<Frame>, i: nat)
    requires i < |frames| && HeadPose(frames[i]).Failure?
    ensures !PosesBuild(frames, |frames|)
  {
  }

  /** How the frame loop ends: a head pose that cannot be built, or every step taken. */
  datatype LoopEnd =
    | PoseFailed(step: nat, error: PoseError)
    | Completed(processed: nat, failed: nat)

  /**
   The frame loop of `run_reconstruction`: reports the progress of step i,
   builds the head pose (outside the try, so a malformed pose ends the
   run), then processes every camera.
   */
  method FrameLoop(run: Run) returns (progress: seq<int>, integrations: seq<Integration>, end: LoopEnd)
    requires SetupValid(run.setup)
    ensures end.PoseFailed? ==>
              && end.step < |run.frames|
              && HeadPose(run.frames[end.step]) == Failure(end.error)
              && PosesBuild(run.frames, end.step)
              && |progress| == end.step + 1
    ensures end.Completed? <==> PosesBuild(run.frames, |run.frames|)
    ensures end.Completed? ==>
              && |progress| == |run.frames|
              && integrations == Integrations(run, |run.frames|)
              && end.processed == |integrations|
              && end.processed + end.failed == |run.frames| * |run.setup.cams|
    ensures forall j :: 0 <= j < |progress| ==> j < |run.frames| && progress[j] == Progress(j, |run.frames|)
  {
    var frames, cams := run.frames, run.setup.cams;
    progress, integrations := [], [];
    var processed: nat, failed: nat := 0, 0;
    var i := 0;
    while i < |frames|
      invariant 0 <= i <= |frames|
      invariant PosesBuild(frames, i)
      invariant |progress| == i && Ticks(progress, |frames|)
      invariant integrations == Integrations(run, i)
      invariant processed == |integrations| && processed + failed == Offset(i, |cams|)
    {
      TickAppend(progress, |frames|);
      progress := progress + [Progress(i, |frames|)];
      var head := HeadPose(frames[i]);
      if head.Failure? {
        PoseBreaks(frames, i);
        return progress, integrations, PoseFailed(i, head.error);
      }
      var added, failedHere := IntegrateCameras(run, i, head.value);
      StepTaken(run, i);
      integrations := integrations + added;
      processed, failed := processed + |added|, failed + failedHere;
      i := i + 1;
    }
    OffsetIsProduct(i, |cams|);
    end := Completed(processed, failed);
  }

  /**
   Everything `run_reconstruction` does once the cameras are prepared and
   the frames strided: the frame loop, then the mesh extraction.
   */
  method ReconstructFrom(run: Run, config: Value, vertices: nat, triangles: nat)
    returns (outcome: RunOutcome, progress: seq<int>, integrations: seq<Integration>)
    requires SetupValid(run.setup)
    ensures outcome.Crashed? ==> outcome.error.MalformedPose? || outcome.error.MeshFailed?
    ensures outcome.Crashed? && outcome.error.MalformedPose? ==>
              && outcome.error.step < |run.frames|
              && HeadPose(run.frames[outcome.error.step]) == Failure(outcome.error.poseError)
              && PosesBuild(run.frames, outcome.error.step)
    ensures outcome.Crashed? && outcome.error.MeshFailed? ==>
              ExtractMesh(true, config, vertices, triangles) == Failure(outcome.error.meshError)
    ensures !outcome.NoReconstructor?
    ensures outcome.Finished? <==>
              PosesBuild(run.frames, |run.frames|) && ExtractMesh(true, config, vertices, triangles).Success?
    ensures outcome.Finished? ==>
              && outcome.mesh == ExtractMesh(true, config, vertices, triangles).value
              && LoopResult(run, progress, integrations, outcome.processed, outcome.failed)
  {
    var end;
    progress, integrations, end := FrameLoop(run);
    if end.PoseFailed? {
      return Crashed(MalformedPose(end.step, end.error)), progress, integrations;
    }
    match ExtractMesh(true, config, vertices, triangles)
    case Failure(e) =>
      return Crashed(MeshFailed(e)), progress, integrations;
    case Success(mesh) =>
      CompletedLoop(run, progress, end.processed, end.failed);
      outcome := Finished(mesh, end.processed, end.failed);
  }

  /**
   `run_reconstruction`.  Returns the outcome, the values passed to
   `on_progress`, and the `integrate_frame` calls that returned normally.
   The frame loop runs over `frames[::frame_interval]`; a head pose that
   cannot be built ends the run, a camera without colour or depth or whose
   integration raises counts as failed.  With `on_log` given (`withLog`),
   the export settings are read outside any try after the extraction: an
   "export" entry that is missing or not a dict raises AttributeError.  The
   save itself is caught by its own handler and does not change the outcome.
   */
  method RunReconstruction(p: Pipeline, camera: string, frameInterval: int, withLog: bool,
                           fails: set<(nat, string)>, vertices: nat, triangles: nat)
    returns (outcome: RunOutcome, progress: seq<int>, integrations: seq<Integration>)
    ensures p.reconstructor.None? ==> outcome == NoReconstructor && progress == [] && integrations == []
    ensures p.reconstructor.Some? && PrepareRun(p, camera, frameInterval, fails).Failure? ==>
              outcome == Crashed(PrepareRun(p, camera, frameInterval, fails).error) && progress == [] && integrations == []
    ensures p.reconstructor.Some? && PrepareRun(p, camera, frameInterval, fails).Success? ==>
              var run := PrepareRun(p, camera, frameInterval, fails).value;
              && (outcome.Crashed? ==>
                    outcome.error.MalformedPose? || outcome.error.MeshFailed? || outcome.error.ExportNotADict?)
              && (outcome.Crashed? && outcome.error.MalformedPose? ==>
                    && outcome.error.step < |run.frames|
                    && HeadPose(run.frames[outcome.error.step]) == Failure(outcome.error.poseError)
                    && PosesBuild(run.frames, outcome.error.step))
              && (outcome.Crashed? && outcome.error.MeshFailed? ==>
                    ExtractMesh(true, p.config, vertices, triangles) == Failure(outcome.error.meshError))
              && (outcome.Crashed? && outcome.error.ExportNotADict? ==>
                    && withLog && !GetPath(p.config, ["export"], Null).Dict?
                    && PosesBuild(run.frames, |run.frames|) && ExtractMesh(true, p.config, vertices, triangles).Success?)
              && !outcome.NoReconstructor?
              && (outcome.Finished? <==>
                    && PosesBuild(run.frames, |run.frames|) && ExtractMesh(true, p.config, vertices, triangles).Success?
                    && (withLog ==> GetPath(p.config, ["export"], Null).Dict?))
              && (outcome.Finished? ==>
                    && outcome.mesh == ExtractMesh(true, p.config, vertices, triangles).value
                    && LoopResult(run, progress, integrations, outcome.processed, outcome.failed))
  {
    progress, integrations := [], [];
    if p.reconstructor.None? {
      return NoReconstructor, progress, integrations;
    }
    var prepared := PrepareRun(p, camera, frameInterval, fails);
    if prepared.Failure? {
      return Crashed(prepared.error), progress, integrations;
    }
    outcome, progress, integrations := ReconstructFrom(prepared.value, p.config, vertices, triangles);
    if withLog && outcome.Finished? && !GetPath(p.config, ["export"], Null).Dict? {
      outcome := Crashed(ExportNotADict);
    }
  }

  /**
   The pose handed to Open3D for a camera with a pure-translation extrinsic
   [I | t]: the head's rotation, and the head position moved by the rotated
   offset R t.
   */
  lemma CameraWorldPose(run: Run, j: nat, cam: string, t: seq<real>)
    requires SetupValid(run.setup) && j < |run.frames| && HeadPose(run.frames[j]).Success? && cam in run.setup.cams
    requires |t| == 3 && run.setup.extrinsics[cam] == RigidTransform(Identity(3), t)
    requires PairOutcome(run, j, cam).Some?
    ensures var frame := run.frames[j];
            var rot := QuaternionToMatrix(frame.rotation).value;
            var pose := PairOutcome(run, j, cam).value.pose;
            && (forall a, b :: 0 <= a < 3 && 0 <= b < 3 ==> pose[a][b] == rot[a][b])
            && (forall a :: 0 <= a < 3 ==> pose[a][3] == Dot(rot[a], t) + frame.position[a])
            && pose[3] == [0.0, 0.0, 0.0, 1.0]
  {
    var frame := run.frames[j];
    var rot := QuaternionToMatrix(frame.rotation).value;
    assert HeadPose(frame).value == RigidTransform(rot, frame.position);
    ComposeWithTranslation(rot, frame.position, t);
  }
}
