/**
 The parameter logic of the TSDF reconstructor (modules/reconstruction.py,
 `QuestReconstructor`): the settings read from the "reconstruction" section,
 the voxel-block key of a point, the dummy mesh of a missing grid, and which
 Open3D post-processing steps run, in which order.  The fusion itself, mesh
 extraction and every mesh filter are Open3D's: the extracted mesh is known
 here only by its vertex and triangle counts, and post-processing by the list
 of operations applied to it.
 */
module Reconstruction {
  import opened Wrappers
  import opened ConfigTree

  // ---------------------------------------------------------------------------
  // Python's numeric conversions of parsed values
  // ---------------------------------------------------------------------------

  /** Numbers and booleans: what float(), int() and `> 0` accept. */
  predicate Numeric(v: Value) {
    v.Int? || v.Real? || v.Bool?
  }

  /** `float(v)`: None, lists and dicts raise TypeError. */
  function ToFloat(v: Value): (r: Option<real>)
    ensures r.Some? <==> Numeric(v)
    ensures v.Int? ==> r == Some(v.i as real)
    ensures v.Real? ==> r == Some(v.r)
  {
    match v
    case Int(i) => Some(i as real)
    case Real(x) => Some(x)
    case Bool(b) => Some(if b then 1.0 else 0.0)
    case _ => None
  }

  /** `int(x)` on a float: truncation toward zero. */
  function Trunc(x: real): (n: int)
    ensures 0.0 <= x ==> n as real <= x < n as real + 1.0
    ensures x < 0.0 ==> n as real - 1.0 < x <= n as real
  {
    if x >= 0.0 then x.Floor else -((-x).Floor)
  }

  /** `int(v)`: floats are truncated toward zero. */
  function ToInt(v: Value): (r: Option<int>)
    ensures r.Some? <==> Numeric(v)
    ensures v.Int? ==> r == Some(v.i)
    ensures v.Real? ==> r == Some(Trunc(v.r))
  {
    match v
    case Int(i) => Some(i)
    case Real(x) => Some(Trunc(x))
    case Bool(b) => Some(if b then 1 else 0)
    case _ => None
  }

  /** `v > 0`: numbers and booleans compare, anything else raises TypeError. */
  function Positive(v: Value): (r: Option<bool>)
    ensures r.Some? <==> Numeric(v)
    ensures r == Some(true) <==> Numeric(v) && ToFloat(v).value > 0.0
  {
    if Numeric(v) then Some(ToFloat(v).value > 0.0) else None
  }

  /** The range of a 32-bit C++ `int`. */
  predicate CInt(i: int) {
    -0x8000_0000 <= i < 0x8000_0000
  }

  /**
   An argument bound to a C++ `int` parameter: booleans and integers within
   the range of `int` pass; floats and integers that do not fit are refused
   with TypeError.
   */
  function IntArgument(v: Value): (r: Option<int>)
    ensures r.Some? <==> v.Bool? || (v.Int? && CInt(v.i))
    ensures r.Some? ==> CInt(r.value)
    ensures v.Int? && CInt(v.i) ==> r == Some(v.i)
  {
    match v
    case Int(i) => if CInt(i) then Some(i) else None
    case Bool(b) => Some(if b then 1 else 0)
    case _ => None
  }

  // ---------------------------------------------------------------------------
  // QuestReconstructor.__init__
  // ---------------------------------------------------------------------------

  datatype Params = Params(
    voxelSize: real,
    truncVoxelMultiplier: real,
    depthMax: real,
    sdfTrunc: real,
    blockResolution: int,
    blockCount: int)

  datatype ParamError =
    | SectionNotADict          // `.get` on a "reconstruction" value that is not a dict
    | NotConvertible(key: string)   // float() or int() raised on the setting

  /** `float(section.get(key, default))`. */
  function FloatSetting(section: map<string, Value>, key: string, default: real): Option<real> {
    if key in section then ToFloat(section[key]) else Some(default)
  }

  /** `int(section.get(key, default))`. */
  function IntSetting(section: map<string, Value>, key: string, default: int): Option<int> {
    if key in section then ToInt(section[key]) else Some(default)
  }

  /** `config_manager.get("reconstruction")`. */
  function ReconstructionSection(cfg: Value): Value {
    GetPath(cfg, ["reconstruction"], Null)
  }

  /**
   The settings of `QuestReconstructor.__init__`, read in source order; the
   first one that fails to convert is the error raised.
   */
  function MakeParams(cfg: Value): (r: Result<Params, ParamError>)
    ensures !ReconstructionSection(cfg).Dict? ==> r == Failure(SectionNotADict)
    ensures r.Success? <==>
              var sec := ReconstructionSection(cfg);
              && sec.Dict?
              && FloatSetting(sec.entries, "voxel_size", 0.01).Some?
              && FloatSetting(sec.entries, "trunc_voxel_multiplier", 8.0).Some?
              && FloatSetting(sec.entries, "depth_max", 3.0).Some?
              && IntSetting(sec.entries, "block_resolution", 16).Some?
              && IntSetting(sec.entries, "block_count", 50000).Some?
    ensures r.Success? ==> r.value.sdfTrunc == r.value.voxelSize * r.value.truncVoxelMultiplier
    ensures r.Success? ==>
              var sec := ReconstructionSection(cfg).entries;
              && r.value.voxelSize == FloatSetting(sec, "voxel_size", 0.01).value
              && r.value.truncVoxelMultiplier == FloatSetting(sec, "trunc_voxel_multiplier", 8.0).value
              && r.value.depthMax == FloatSetting(sec, "depth_max", 3.0).value
              && r.value.blockResolution == IntSetting(sec, "block_resolution", 16).value
              && r.value.blockCount == IntSetting(sec, "block_count", 50000).value
  {
    var sec := ReconstructionSection(cfg);
    if !sec.Dict? then Failure(SectionNotADict)
    else
      var e := sec.entries;
      match FloatSetting(e, "voxel_size", 0.01)
      case None => Failure(NotConvertible("voxel_size"))
      case Some(voxel) =>
        match FloatSetting(e, "trunc_voxel_multiplier", 8.0)
        case None => Failure(NotConvertible("trunc_voxel_multiplier"))
        case Some(mult) =>
          match FloatSetting(e, "depth_max", 3.0)
          case None => Failure(NotConvertible("depth_max"))
          case Some(depthMax) =>
            match IntSetting(e, "block_resolution", 16)
            case None => Failure(NotConvertible("block_resolution"))
            case Some(res) =>
              match IntSetting(e, "block_count", 50000)
              case None => Failure(NotConvertible("block_count"))
              case Some(count) => Success(Params(voxel, mult, depthMax, voxel * mult, res, count))
  }

  /** An empty "reconstruction" section gives the built-in defaults. */
  lemma EmptySectionDefaults(cfg: Value)
    requires ReconstructionSection(cfg) == Dict(map[])
    ensures MakeParams(cfg) == Success(Params(0.01, 8.0, 3.0, 0.08, 16, 50000))
  {
  }

  /**
   A setting stored as None is not replaced by its default (the section is
   read with dict.get), so float(None) raises.
   */
  lemma StoredNoneRejected(cfg: Value)
    requires ReconstructionSection(cfg).Dict?
    requires var sec := ReconstructionSection(cfg).entries;
             "voxel_size" in sec && sec["voxel_size"] == Null
    ensures MakeParams(cfg) == Failure(NotConvertible("voxel_size"))
  {
  }

  /**
   The default configuration: voxel 0.01, multiplier 8.0, depth_max 2.0
   (the file's value, not the built-in 3.0), sdf_trunc 0.08, block
   resolution 16, block count 50000.
   */
  lemma DefaultConfigParams()
    ensures MakeParams(DefaultConfig) == Success(Params(0.01, 8.0, 2.0, 0.08, 16, 50000))
  {
    DefaultSection();
    DefaultReconstructionEntries();
  }

  lemma DefaultSection()
    ensures ReconstructionSection(DefaultConfig) == Dict(ReconstructionDefaults)
    ensures GetPath(DefaultConfig, ["post_processing"], Null) == Dict(PostProcessingDefaults)
  {
    GetSingleSegmentPath(DefaultConfig, "reconstruction", Null);
    GetSingleSegmentPath(DefaultConfig, "post_processing", Null);
  }

  lemma DefaultReconstructionEntries()
    ensures FloatSetting(ReconstructionDefaults, "voxel_size", 0.01) == Some(0.01)
    ensures FloatSetting(ReconstructionDefaults, "trunc_voxel_multiplier", 8.0) == Some(8.0)
    ensures FloatSetting(ReconstructionDefaults, "depth_max", 3.0) == Some(2.0)
    ensures IntSetting(ReconstructionDefaults, "block_resolution", 16) == Some(16)
    ensures IntSetting(ReconstructionDefaults, "block_count", 50000) == Some(50000)
  {
  }

  // ---------------------------------------------------------------------------
  // The voxel-block key of a point (integrate_frame)
  // ---------------------------------------------------------------------------

  /** `floor(p / (voxel_size * block_resolution))` along one axis. */
  function BlockKey(p: real, voxelSize: real, blockResolution: int): (key: int)
    requires voxelSize * blockResolution as real != 0.0
  {
    (p / (voxelSize * blockResolution as real)).Floor
  }

  /** Multiplying by a positive number keeps the order. */
  lemma MulLe(a: real, c: real, b: real)
    requires b > 0.0
    ensures a <= c <==> a * b <= c * b
  {
    assert c * b - a * b == (c - a) * b;
  }

  /** Multiplying by a positive number keeps the strict order. */
  lemma MulLt(a: real, c: real, b: real)
    requires b > 0.0
    ensures a < c <==> a * b < c * b
  {
    assert c * b - a * b == (c - a) * b;
  }

  /** k * b <= p < (k + 1) * b from k <= p / b < k + 1, for b > 0. */
  lemma ScaleFloor(p: real, b: real, k: int)
    requires b > 0.0
    ensures k as real <= p / b <==> k as real * b <= p
    ensures p / b < k as real + 1.0 <==> p < (k as real + 1.0) * b
  {
    var q := p / b;
    var k1 := k as real + 1.0;
    assert q * b == p;
    MulLe(k as real, q, b);
    MulLt(q, k1, b);
    assert q < k1 <==> p < k1 * b;
  }

  /**
   With a positive block size bs, the key of p is the one integer k with
   k * bs <= p < (k + 1) * bs: the block whose extent holds p.
   */
  lemma BlockKeyIff(p: real, voxelSize: real, blockResolution: int, k: int)
    requires voxelSize * blockResolution as real > 0.0
    ensures var bs := voxelSize * blockResolution as real;
            BlockKey(p, voxelSize, blockResolution) == k <==>
              k as real * bs <= p < (k as real + 1.0) * bs
  {
    var bs := voxelSize * blockResolution as real;
    ScaleFloor(p, bs, k);
  }

  /** The block coordinates of a 3-D point, axis by axis. */
  function BlockCoords(point: seq<real>, params: Params): (keys: seq<int>)
    requires |point| == 3
    requires params.voxelSize * params.blockResolution as real != 0.0
    ensures |keys| == 3
  {
    [BlockKey(point[0], params.voxelSize, params.blockResolution),
     BlockKey(point[1], params.voxelSize, params.blockResolution),
     BlockKey(point[2], params.voxelSize, params.blockResolution)]
  }

  /** Each coordinate of a point lies within the extent of its block along that axis. */
  lemma BlockCoordsContain(point: seq<real>, params: Params)
    requires |point| == 3
    requires params.voxelSize * params.blockResolution as real > 0.0
    ensures var keys := BlockCoords(point, params);
            var bs := params.voxelSize * params.blockResolution as real;
            forall a :: 0 <= a < 3 ==> keys[a] as real * bs <= point[a] < (keys[a] as real + 1.0) * bs
  {
    var keys := BlockCoords(point, params);
    forall a | 0 <= a < 3
      ensures keys[a] as real * (params.voxelSize * params.blockResolution as real) <= point[a]
                < (keys[a] as real + 1.0) * (params.voxelSize * params.blockResolution as real)
    {
      BlockKeyIff(point[a], params.voxelSize, params.blockResolution, keys[a]);
    }
  }

  // ---------------------------------------------------------------------------
  // extract_mesh and post_process_mesh
  // ---------------------------------------------------------------------------

  /** One Open3D operation on the legacy mesh. */
  datatype MeshStep =
    | Smooth(iterations: int)              // filter_smooth_laplacian
    | Decimate(targetTriangles: int)       // simplify_quadric_decimation
    | RemoveDegenerateTriangles
    | RemoveDuplicatedTriangles
    | RemoveDuplicatedVertices
    | ComputeVertexNormals

  /**
   A mesh as the counts of what the grid extracted, followed by the
   operations applied to it since, in order.
   */
  datatype Mesh = Mesh(vertexCount: nat, triangleCount: nat, steps: seq<MeshStep>)

  /** The clean-up that ends every post-processing run. */
  const Cleanup: seq<MeshStep> :=
    [RemoveDegenerateTriangles, RemoveDuplicatedTriangles, RemoveDuplicatedVertices, ComputeVertexNormals]

  datatype MeshError =
    | PostProcessingNotADict        // `.get` on a truthy "post_processing" value that is not a dict
    | NotComparable(key: string)    // `setting > 0` raised TypeError
    | NotAnInteger(key: string)     // Open3D refused a non-integer argument

  /** `config.get("smoothing_iterations", 0) > 0`. */
  function SmoothingRequested(pp: map<string, Value>): Option<bool> {
    Positive(ChildOr(pp, "smoothing_iterations", Int(0)))
  }

  /**
   `target > 0 and len(mesh.triangles) > target` for
   `target = config.get("decimation_target_triangles", 0)`.
   */
  function DecimationRequested(pp: map<string, Value>, triangles: nat): Option<bool> {
    var target := ChildOr(pp, "decimation_target_triangles", Int(0));
    match Positive(target)
    case None => None
    case Some(positive) => Some(positive && triangles as real > ToFloat(target).value)
  }

  /** The exception post-processing raises, if any, in the order the statements run. */
  function PostProcessError(pp: map<string, Value>, triangles: nat): Option<MeshError> {
    var iterations := ChildOr(pp, "smoothing_iterations", Int(0));
    var target := ChildOr(pp, "decimation_target_triangles", Int(0));
    if SmoothingRequested(pp).None? then Some(NotComparable("smoothing_iterations"))
    else if SmoothingRequested(pp).value && IntArgument(iterations).None? then Some(NotAnInteger("smoothing_iterations"))
    else if DecimationRequested(pp, triangles).None? then Some(NotComparable("decimation_target_triangles"))
    else if DecimationRequested(pp, triangles).value && IntArgument(target).None? then Some(NotAnInteger("decimation_target_triangles"))
    else None
  }

  /** The smoothing call, when requested. */
  function SmoothingSteps(pp: map<string, Value>): seq<MeshStep> {
    var iterations := ChildOr(pp, "smoothing_iterations", Int(0));
    if SmoothingRequested(pp) == Some(true) && IntArgument(iterations).Some?
    then [Smooth(IntArgument(iterations).value)] else []
  }

  /** The decimation call, when requested. */
  function DecimationSteps(pp: map<string, Value>, triangles: nat): seq<MeshStep> {
    var target := ChildOr(pp, "decimation_target_triangles", Int(0));
    if DecimationRequested(pp, triangles) == Some(true) && IntArgument(target).Some?
    then [Decimate(IntArgument(target).value)] else []
  }

  /**
   `post_process_mesh`: nothing happens to a mesh without vertices;
   otherwise optional smoothing, then optional decimation, then the clean-up.
   Laplacian smoothing keeps the triangle count, so the decimation test sees
   the extracted count.
   */
  function PostProcessMesh(mesh: Mesh, pp: map<string, Value>): (r: Result<Mesh, MeshError>)
    ensures mesh.vertexCount == 0 ==> r == Success(mesh)
    ensures r.Success? ==>
              && r.value.vertexCount == mesh.vertexCount
              && r.value.triangleCount == mesh.triangleCount
              && |r.value.steps| >= |mesh.steps|
              && r.value.steps[..|mesh.steps|] == mesh.steps
    ensures mesh.vertexCount > 0 ==> (r.Failure? <==> PostProcessError(pp, mesh.triangleCount).Some?)
  {
    if mesh.vertexCount == 0 then Success(mesh)
    else
      match PostProcessError(pp, mesh.triangleCount)
      case Some(e) => Failure(e)
      case None =>
        var steps := mesh.steps + SmoothingSteps(pp) + DecimationSteps(pp, mesh.triangleCount) + Cleanup;
        assert steps[..|mesh.steps|] == mesh.steps;
        Success(Mesh(mesh.vertexCount, mesh.triangleCount, steps))
  }

  /** The operations a successful run added. */
  function Added(mesh: Mesh, r: Mesh): seq<MeshStep>
    requires |r.steps| >= |mesh.steps|
  {
    r.steps[|mesh.steps|..]
  }

  /** A successful run on a mesh with vertices always ends with the four clean-up steps, in order. */
  lemma CleanupLast(mesh: Mesh, pp: map<string, Value>)
    requires mesh.vertexCount > 0 && PostProcessMesh(mesh, pp).Success?
    ensures var added := Added(mesh, PostProcessMesh(mesh, pp).value);
            |added| >= 4 && added[|added| - 4..] == Cleanup
  {
    AddedSteps(mesh, pp);
  }

  /** What a successful run on a mesh with vertices adds: smoothing, decimation, clean-up. */
  lemma AddedSteps(mesh: Mesh, pp: map<string, Value>)
    requires mesh.vertexCount > 0 && PostProcessMesh(mesh, pp).Success?
    ensures Added(mesh, PostProcessMesh(mesh, pp).value) ==
              SmoothingSteps(pp) + DecimationSteps(pp, mesh.triangleCount) + Cleanup
  {
    var tail := SmoothingSteps(pp) + DecimationSteps(pp, mesh.triangleCount) + Cleanup;
    assert (mesh.steps + SmoothingSteps(pp) + DecimationSteps(pp, mesh.triangleCount) + Cleanup)
           == mesh.steps + tail;
  }

  /**
   Smoothing is applied exactly when smoothing_iterations > 0, as the first
   added step, with that many iterations.
   */
  lemma SmoothingIff(mesh: Mesh, pp: map<string, Value>)
    requires mesh.vertexCount > 0 && PostProcessMesh(mesh, pp).Success?
    ensures var added := Added(mesh, PostProcessMesh(mesh, pp).value);
            var iterations := ChildOr(pp, "smoothing_iterations", Int(0));
            && (added[0].Smooth? <==> Numeric(iterations) && ToFloat(iterations).value > 0.0)
            && (added[0].Smooth? ==> iterations.Int? || iterations.Bool?)
            && (iterations.Int? && iterations.i > 0 ==> added[0] == Smooth(iterations.i))
            && (forall k :: 1 <= k < |added| ==> !added[k].Smooth?)
  {
    var added := Added(mesh, PostProcessMesh(mesh, pp).value);
    AddedSteps(mesh, pp);
    SmoothingStepsIff(pp, mesh.triangleCount);
    DecimationStepsIff(pp, mesh.triangleCount);
    SmoothingOnlyFirst(SmoothingSteps(pp), DecimationSteps(pp, mesh.triangleCount), added);
  }

  /** The smoothing call is made exactly when smoothing_iterations > 0, with that iteration count. */
  lemma SmoothingStepsIff(pp: map<string, Value>, triangles: nat)
    requires PostProcessError(pp, triangles).None?
    ensures var iterations := ChildOr(pp, "smoothing_iterations", Int(0));
            && (SmoothingSteps(pp) != [] <==> Numeric(iterations) && ToFloat(iterations).value > 0.0)
            && (SmoothingSteps(pp) != [] ==>
                  (iterations.Int? || iterations.Bool?) && SmoothingSteps(pp) == [Smooth(IntArgument(iterations).value)])
  {
  }

  /** In smoothing + decimation + clean-up, a smoothing call can only come first. */
  lemma SmoothingOnlyFirst(smoothing: seq<MeshStep>, decimation: seq<MeshStep>, added: seq<MeshStep>)
    requires |smoothing| <= 1 && (smoothing != [] ==> smoothing[0].Smooth?)
    requires |decimation| <= 1 && (decimation != [] ==> decimation[0].Decimate?)
    requires added == smoothing + decimation + Cleanup
    ensures added[0].Smooth? <==> smoothing != []
    ensures smoothing != [] ==> added[0] == smoothing[0]
    ensures forall k :: 1 <= k < |added| ==> !added[k].Smooth?
  {
    var tail := decimation + Cleanup;
    assert added == smoothing + tail;
    assert forall k :: 0 <= k < |tail| ==> !tail[k].Smooth?;
    if smoothing != [] {
      assert forall k :: 1 <= k < |added| ==> added[k] == tail[k - 1];
    } else {
      assert added == tail;
    }
  }

  /** Whether some step of the list is a decimation. */
  predicate Decimated(steps: seq<MeshStep>) {
    exists k :: 0 <= k < |steps| && steps[k].Decimate?
  }

  /**
   Decimation is applied exactly when the target is positive and the mesh
   has more triangles than the target, and then right before the clean-up;
   a mesh already at or below the target is left alone.
   */
  lemma DecimationIff(mesh: Mesh, pp: map<string, Value>)
    requires mesh.vertexCount > 0 && PostProcessMesh(mesh, pp).Success?
    ensures var added := Added(mesh, PostProcessMesh(mesh, pp).value);
            var target := ChildOr(pp, "decimation_target_triangles", Int(0));
            && (Decimated(added) <==>
                  Numeric(target) && ToFloat(target).value > 0.0
                  && mesh.triangleCount as real > ToFloat(target).value)
            && (Decimated(added) ==> added[|added| - 5].Decimate?)
  {
    var added := Added(mesh, PostProcessMesh(mesh, pp).value);
    AddedSteps(mesh, pp);
    DecimationStepsIff(pp, mesh.triangleCount);
    NoDecimationOutside(SmoothingSteps(pp), DecimationSteps(pp, mesh.triangleCount), added);
  }

  /** In smoothing + decimation + clean-up, only the decimation part can decimate. */
  lemma NoDecimationOutside(smoothing: seq<MeshStep>, decimation: seq<MeshStep>, added: seq<MeshStep>)
    requires forall k :: 0 <= k < |smoothing| ==> smoothing[k].Smooth?
    requires |decimation| <= 1 && (decimation != [] ==> decimation[0].Decimate?)
    requires added == smoothing + decimation + Cleanup
    ensures Decimated(added) <==> decimation != []
    ensures decimation != [] ==> added[|added| - 5].Decimate?
  {
    if decimation != [] {
      assert added[|added| - 5] == decimation[0];
    } else {
      assert added == smoothing + Cleanup;
      assert forall k :: 0 <= k < |added| ==> !added[k].Decimate?;
    }
  }

  /** The decimation call is made exactly when the target is positive and below the triangle count. */
  lemma DecimationStepsIff(pp: map<string, Value>, triangles: nat)
    requires PostProcessError(pp, triangles).None?
    ensures var target := ChildOr(pp, "decimation_target_triangles", Int(0));
            DecimationSteps(pp, triangles) != [] <==>
              Numeric(target) && ToFloat(target).value > 0.0 && triangles as real > ToFloat(target).value
    ensures |DecimationSteps(pp, triangles)| <= 1
    ensures DecimationSteps(pp, triangles) != [] ==> DecimationSteps(pp, triangles)[0].Decimate?
  {
  }

  /** A setting that cannot be compared with 0 stops post-processing with TypeError. */
  lemma IncomparableSettingRaises(mesh: Mesh, pp: map<string, Value>)
    requires mesh.vertexCount > 0
    requires "smoothing_iterations" in pp && !Numeric(pp["smoothing_iterations"])
    ensures PostProcessMesh(mesh, pp) == Failure(NotComparable("smoothing_iterations"))
  {
  }

  /**
   `extract_mesh`: without a grid, a dummy mesh with no vertices; otherwise
   the extracted mesh, post-processed when the "post_processing" section is
   truthy and its "enable" entry (default False) is truthy.
   */
  function ExtractMesh(hasGrid: bool, cfg: Value, vertices: nat, triangles: nat): (r: Result<Mesh, MeshError>)
    ensures !hasGrid ==> r == Success(Mesh(0, 0, []))
    ensures hasGrid && r.Success? ==> r.value.vertexCount == vertices && r.value.triangleCount == triangles
    ensures hasGrid ==>
              var pp := GetPath(cfg, ["post_processing"], Null);
              && (Truthy(pp) && !pp.Dict? ==> r == Failure(PostProcessingNotADict))
              && (PostProcessingEnabled(cfg) ==> r == PostProcessMesh(Mesh(vertices, triangles, []), pp.entries))
              && (!(Truthy(pp) && !pp.Dict?) && !PostProcessingEnabled(cfg) ==> r == Success(Mesh(vertices, triangles, [])))
              && (r.Failure? <==>
                    || (Truthy(pp) && !pp.Dict?)
                    || (PostProcessingEnabled(cfg) && vertices > 0 && PostProcessError(pp.entries, triangles).Some?))
  {
    if !hasGrid then Success(Mesh(0, 0, []))
    else
      var mesh := Mesh(vertices, triangles, []);
      var pp := GetPath(cfg, ["post_processing"], Null);
      if !Truthy(pp) then Success(mesh)
      else if !pp.Dict? then Failure(PostProcessingNotADict)
      else if Truthy(ChildOr(pp.entries, "enable", Bool(false))) then PostProcessMesh(mesh, pp.entries)
      else Success(mesh)
  }

  /** Whether the configuration switches post-processing on. */
  predicate PostProcessingEnabled(cfg: Value) {
    var pp := GetPath(cfg, ["post_processing"], Null);
    pp.Dict? && "enable" in pp.entries && Truthy(pp.entries["enable"])
  }

  /**
   A grid mesh with vertices comes back with operations applied exactly when
   "post_processing.enable" is present and truthy; a missing "enable" counts
   as False.
   */
  lemma PostProcessingGate(cfg: Value, vertices: nat, triangles: nat)
    requires vertices > 0 && ExtractMesh(true, cfg, vertices, triangles).Success?
    ensures ExtractMesh(true, cfg, vertices, triangles).value.steps != [] <==> PostProcessingEnabled(cfg)
  {
    var pp := GetPath(cfg, ["post_processing"], Null);
    if PostProcessingEnabled(cfg) {
      CleanupLast(Mesh(vertices, triangles, []), pp.entries);
    }
  }

  /**
   The default configuration on a grid mesh: five smoothing iterations,
   decimation to 100000 triangles only above that count, then the clean-up.
   */
  lemma DefaultPostProcessing(vertices: nat, triangles: nat)
    requires vertices > 0
    ensures ExtractMesh(true, DefaultConfig, vertices, triangles) ==
              Success(Mesh(vertices, triangles,
                           [Smooth(5)] + (if triangles > 100000 then [Decimate(100000)] else []) + Cleanup))
  {
    DefaultSection();
    DefaultPostProcessingEntries();
    assert ExtractMesh(true, DefaultConfig, vertices, triangles)
           == PostProcessMesh(Mesh(vertices, triangles, []), PostProcessingDefaults);
    DefaultPostProcessingSteps(vertices, triangles);
  }

  lemma DefaultPostProcessingSteps(vertices: nat, triangles: nat)
    requires vertices > 0
    ensures PostProcessMesh(Mesh(vertices, triangles, []), PostProcessingDefaults) ==
              Success(Mesh(vertices, triangles,
                           [Smooth(5)] + (if triangles > 100000 then [Decimate(100000)] else []) + Cleanup))
  {
    DefaultPostProcessingEntries();
    assert SmoothingSteps(PostProcessingDefaults) == [Smooth(5)];
    assert DecimationSteps(PostProcessingDefaults, triangles) ==
           if triangles > 100000 then [Decimate(100000)] else [];
    assert PostProcessError(PostProcessingDefaults, triangles).None?;
    assert [] + [Smooth(5)] + DecimationSteps(PostProcessingDefaults, triangles) + Cleanup
           == [Smooth(5)] + (if triangles > 100000 then [Decimate(100000)] else []) + Cleanup;
  }

  lemma DefaultPostProcessingEntries()
    ensures ChildOr(PostProcessingDefaults, "enable", Bool(false)) == Bool(true)
    ensures ChildOr(PostProcessingDefaults, "smoothing_iterations", Int(0)) == Int(5)
    ensures ChildOr(PostProcessingDefaults, "decimation_target_triangles", Int(0)) == Int(100000)
  {
  }
}
