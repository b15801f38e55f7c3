/**
 Loading of one Quest camera frame: the YUV_420_888 colour buffer, the raw
 float32 depth buffer and the depth descriptor row nearest in time
 (modules/quest_image_processor.py).  File contents arrive as byte
 sequences; the YUV to RGB colour conversion and the chroma upsampling are
 not modelled, so the "RGB image" carries the three planes it is made from.
 */
module QuestImageProcessor {
  import opened Wrappers
  import opened ConfigTree
  import QuestAdapter

  newtype byte = x: int | 0 <= x < 256

  datatype FrameError =
    | YuvTooSmall(actual: int, expected: int)   // the explicit ValueError
    | BadShape                                  // numpy reshape / cv2.resize refusing the dimensions
    | DepthSizeMismatch(actual: int, expected: int)

  // ---------------------------------------------------------------------------
  // yuv420_to_rgb
  // ---------------------------------------------------------------------------

  /** Byte counts of the Y plane, of each chroma plane, and of the whole frame. */
  datatype YuvLayout = YuvLayout(ySize: int, uvSize: int, expectedSize: int)

  /**
   The plane sizes for a width x height frame.  Python's `//` floors; for the
   divisor 2 Dafny's Euclidean `/` agrees with it on every integer.
   */
  function Layout(width: int, height: int): (l: YuvLayout)
    ensures l.ySize == width * height
    ensures width >= 0 && height >= 0 ==>
              0 <= 4 * l.uvSize <= l.ySize && l.expectedSize <= l.ySize + l.ySize / 2
  {
    var ySize := width * height;
    var uvSize := (width / 2) * (height / 2);
    assert width >= 0 && height >= 0 ==> 0 <= 4 * uvSize <= ySize by {
      if width >= 0 && height >= 0 {
        HalfProduct(width, height);
      }
    }
    YuvLayout(ySize, uvSize, ySize + 2 * uvSize)
  }

  lemma HalfProduct(w: nat, h: nat)
    ensures 0 <= 4 * ((w / 2) * (h / 2)) <= w * h
  {
    var a, b := w / 2, h / 2;
    assert 2 * a <= w && 2 * b <= h;
    assert 4 * (a * b) == (2 * a) * (2 * b);
    MulMono(2 * a, w, 2 * b, h);
  }

  lemma MulMono(a: nat, b: nat, c: nat, d: nat)
    requires a <= b && c <= d
    ensures a * c <= b * d
  {
    assert a * c <= b * c;
    assert b * c <= b * d;
  }

  /** The three planes the colour image is converted from. */
  datatype Planes = Planes(y: seq<byte>, u: seq<byte>, v: seq<byte>)

  /** A decoded colour frame: its dimensions and the planes it came from. */
  datatype RgbImage = RgbImage(width: int, height: int, planes: Planes)

  /**
   `yuv420_to_rgb` on the file's bytes: a buffer shorter than the expected
   size is rejected, a longer one is cut to exactly that size and split into
   the Y, U and V planes.  Frames narrower or lower than two pixels fail in
   numpy/cv2 (an empty chroma plane cannot be resized).
   */
  function Yuv420ToRgb(data: seq<byte>, width: int, height: int): (r: Result<RgbImage, FrameError>)
    ensures var l := Layout(width, height);
            r == Failure(YuvTooSmall(|data|, l.expectedSize)) <==> |data| < l.expectedSize
    ensures r.Success? ==>
              var l := Layout(width, height);
              var p := r.value.planes;
              && width >= 2 && height >= 2
              && r.value.width == width && r.value.height == height
              && |p.y| == l.ySize && |p.u| == l.uvSize && |p.v| == l.uvSize
              && p.y + p.u + p.v == data[..l.expectedSize]
    ensures width >= 2 && height >= 2 && |data| >= Layout(width, height).expectedSize ==> r.Success?
  {
    var l := Layout(width, height);
    if |data| < l.expectedSize then Failure(YuvTooSmall(|data|, l.expectedSize))
    else if width < 2 || height < 2 then Failure(BadShape)
    else
      var yuv := data[..l.expectedSize];
      var y := yuv[..l.ySize];
      var u := yuv[l.ySize..l.ySize + l.uvSize];
      var v := yuv[l.ySize + l.uvSize..l.ySize + 2 * l.uvSize];
      assert y + u + v == yuv;
      Success(RgbImage(width, height, Planes(y, u, v)))
  }

  // ---------------------------------------------------------------------------
  // load_raw_depth
  // ---------------------------------------------------------------------------

  /**
   A depth map: `height` rows of `width` float32 samples, row-major, each
   sample kept as its four bytes (the value decoding is IEEE and not modelled).
   */
  datatype DepthMap = DepthMap(height: int, width: int, samples: seq<seq<byte>>)

  /** The buffer cut into consecutive four-byte samples. */
  function Chunk4(data: seq<byte>): (r: seq<seq<byte>>)
    requires |data| % 4 == 0
    ensures |r| == |data| / 4
    ensures forall k :: 0 <= k < |r| ==> |r[k]| == 4
    decreases |data|
  {
    if |data| == 0 then [] else [data[..4]] + Chunk4(data[4..])
  }

  /** The samples laid end to end. */
  function Flatten(samples: seq<seq<byte>>): seq<byte>
    decreases |samples|
  {
    if |samples| == 0 then [] else samples[0] + Flatten(samples[1..])
  }

  /** Reading the buffer as samples loses nothing: the samples are the buffer. */
  lemma {:induction false} FlattenChunk4(data: seq<byte>)
    requires |data| % 4 == 0
    ensures Flatten(Chunk4(data)) == data
    decreases |data|
  {
    if |data| > 0 {
      FlattenChunk4(data[4..]);
      assert Chunk4(data)[1..] == Chunk4(data[4..]);
      assert data == data[..4] + data[4..];
    }
  }

  /** `load_raw_depth`: accepted only when the byte length is exactly width * height * 4. */
  function LoadRawDepth(data: seq<byte>, width: int, height: int): (r: Result<DepthMap, FrameError>)
    ensures |data| != width * height * 4 ==>
              r == Failure(DepthSizeMismatch(|data|, width * height * 4))
    ensures r.Success? ==>
              && |data| == width * height * 4
              && r.value.height == height && r.value.width == width
              && |r.value.samples| == height * width
              && Flatten(r.value.samples) == data
    ensures width >= 0 && height >= 0 && |data| == width * height * 4 ==> r.Success?
  {
    if |data| != width * height * 4 then Failure(DepthSizeMismatch(|data|, width * height * 4))
    else if width < 0 || height < 0 then Failure(BadShape)
    else
      FlattenChunk4(data);
      Success(DepthMap(height, width, Chunk4(data)))
  }

  /**
   cv2.resize with nearest-neighbour sampling to `height` x `width`: target
   pixel (r, c) takes source pixel (r * h / height, c * w / width).  An empty
   source is refused, as cv2 does.
   */
  function ResizeNearest(d: DepthMap, width: int, height: int): (r: Result<DepthMap, FrameError>)
    requires |d.samples| == d.height * d.width
    ensures r.Success? <==> d.height > 0 && d.width > 0 && width > 0 && height > 0
    ensures r.Success? ==>
              && r.value.height == height && r.value.width == width
              && |r.value.samples| == height * width
    ensures r.Success? ==>
              forall k :: 0 <= k < height * width ==>
                r.value.samples[k] == d.samples[SourceIndex(d, width, height, k)]
  {
    if d.height <= 0 || d.width <= 0 || width <= 0 || height <= 0 then Failure(BadShape)
    else
      Success(DepthMap(height, width,
        seq(height * width, k requires 0 <= k < height * width => d.samples[SourceIndex(d, width, height, k)])))
  }

  /** The row-major source index nearest-neighbour sampling reads for target index k. */
  function SourceIndex(d: DepthMap, width: int, height: int, k: int): (s: int)
    requires d.height > 0 && d.width > 0 && width > 0 && height > 0
    requires |d.samples| == d.height * d.width
    requires 0 <= k < height * width
    ensures 0 <= s < |d.samples|
  {
    var row, col := k / width, k % width;
    RowBound(k, width, height);
    var sr, sc := row * d.height / height, col * d.width / width;
    ScaleBound(row, height, d.height);
    ScaleBound(col, width, d.width);
    RowMajorBound(sr, sc, d.height, d.width);
    sr * d.width + sc
  }

  lemma RowBound(k: int, width: int, height: int)
    requires width > 0 && height > 0 && 0 <= k < height * width
    ensures 0 <= k / width < height
  {
    assert (k / width) * width <= k;
    MulCancel(k / width, height, width);
  }

  /** Scaling an index below n by m / n stays below m. */
  lemma ScaleBound(i: int, n: int, m: int)
    requires 0 <= i < n && m > 0
    ensures 0 <= i * m / n < m
  {
    assert i * m < n * m;
    assert (i * m / n) * n <= i * m;
    MulCancel(i * m / n, m, n);
  }

  /** a * c < b * c with c positive gives a < b. */
  lemma MulCancel(a: int, b: int, c: int)
    requires c > 0 && a * c < b * c
    ensures a < b
  {
    assert (b - a) * c == b * c - a * c;
  }

  lemma RowMajorBound(r: int, c: int, h: int, w: int)
    requires 0 <= r < h && 0 <= c < w
    ensures 0 <= r * w + c < h * w
  {
    assert r * w <= (h - 1) * w;
  }

  // ---------------------------------------------------------------------------
  // load_depth_descriptor
  // ---------------------------------------------------------------------------

  /** One row of <camera>_depth_descriptors.csv, already parsed. */
  datatype DescriptorRow = DescriptorRow(
    timestampMs: int, width: int, height: int,
    nearZ: real, farZ: real,
    fovLeft: real, fovRight: real, fovTop: real, fovDown: real)

  function Abs(x: int): nat { if x < 0 then -x else x }

  /** Distance in milliseconds between a row and the requested timestamp. */
  function Diff(rows: seq<DescriptorRow>, ts: int, j: int): nat
    requires 0 <= j < |rows|
  {
    Abs(rows[j].timestampMs - ts)
  }

  /**
   `best` is what the selection loop holds after the first n rows: None when
   none of them is within 100 ms, else the first of those nearest in time.
   */
  ghost predicate NearestAmong(rows: seq<DescriptorRow>, ts: int, n: int, best: Option<nat>)
    requires 0 <= n <= |rows|
  {
    match best
    case None => forall j :: 0 <= j < n ==> Diff(rows, ts, j) >= 100
    case Some(k) =>
      && k < n
      && Diff(rows, ts, k) < 100
      && (forall j :: 0 <= j < n ==> Diff(rows, ts, k) <= Diff(rows, ts, j))
      && (forall j :: 0 <= j < k ==> Diff(rows, ts, k) < Diff(rows, ts, j))
  }

  /**
   The loop of `load_depth_descriptor` from row i on: a row replaces the
   current best when its difference is strictly below both the best
   difference so far (infinite initially) and 100.
   */
  function ScanNearest(rows: seq<DescriptorRow>, ts: int, i: nat, best: Option<nat>): (r: Option<nat>)
    requires i <= |rows|
    requires NearestAmong(rows, ts, i, best)
    ensures NearestAmong(rows, ts, |rows|, r)
    decreases |rows| - i
  {
    if i == |rows| then best
    else
      var d := Diff(rows, ts, i);
      if d < 100 && (best.None? || d < Diff(rows, ts, best.value)) then
        ScanNearest(rows, ts, i + 1, Some(i))
      else
        ScanNearest(rows, ts, i + 1, best)
  }

  /** `load_depth_descriptor`: the chosen row, if any. */
  function LoadDepthDescriptor(rows: seq<DescriptorRow>, ts: int): (r: Option<DescriptorRow>)
    ensures r.None? <==> forall j :: 0 <= j < |rows| ==> Diff(rows, ts, j) >= 100
    ensures r.Some? ==> exists k :: 0 <= k < |rows| && r.value == rows[k] && NearestAmong(rows, ts, |rows|, Some(k))
  {
    match ScanNearest(rows, ts, 0, None)
    case None => None
    case Some(k) => Some(rows[k])
  }

  /** The nearest row within 100 ms is unique: ties go to the earliest row. */
  lemma NearestUnique(rows: seq<DescriptorRow>, ts: int, k1: nat, k2: nat)
    requires NearestAmong(rows, ts, |rows|, Some(k1))
    requires NearestAmong(rows, ts, |rows|, Some(k2))
    ensures k1 == k2
  {
  }

  // ---------------------------------------------------------------------------
  // process_quest_frame
  // ---------------------------------------------------------------------------

  /** The files of a project directory `process_quest_frame` reads, already loaded. */
  datatype ProjectFiles = ProjectFiles(
    imageFormats: map<string, Value>,                  // camera -> parsed <camera>_camera_image_format.json
    files: map<string, seq<byte>>,                     // relative path -> contents of .yuv / .raw files
    depthDescriptors: map<string, seq<DescriptorRow>>) // camera -> rows of <camera>_depth_descriptors.csv

  /** `(rgb_image, depth_map)`, either possibly None. */
  datatype FrameImages = FrameImages(rgb: Option<RgbImage>, depth: Option<DepthMap>)

  /**
   `format_info.get(key, default)` used as an integer dimension: absent keys
   take the default; a value that is not an int makes the later arithmetic or
   slicing raise (a bool is an int in Python).
   */
  function FormatDimension(info: Value, key: string, default: int): Option<int>
    requires info.Dict?
  {
    if key !in info.entries then Some(default)
    else match info.entries[key]
      case Int(i) => Some(i)
      case Bool(b) => Some(if b then 1 else 0)
      case _ => None
  }

  /** `frame_info['cameras'][camera]`: only "left" and "right" exist. */
  function CameraEntry(frame: QuestAdapter.Frame, camera: string): Option<QuestAdapter.CameraFiles> {
    if camera == "left" then Some(frame.left)
    else if camera == "right" then Some(frame.right)
    else None
  }

  /**
   The depth dimensions: those of the nearest descriptor row, or 320 x 320
   when the descriptor file is missing or has no row within 100 ms.
   */
  function DepthDimensions(project: ProjectFiles, camera: string, ts: int): (dims: (int, int))
    ensures camera !in project.depthDescriptors ==> dims == (320, 320)
    ensures camera in project.depthDescriptors ==>
              var rows := project.depthDescriptors[camera];
              && ((forall j :: 0 <= j < |rows| ==> Diff(rows, ts, j) >= 100) ==> dims == (320, 320))
              && (forall k :: 0 <= k < |rows| && NearestAmong(rows, ts, |rows|, Some(k)) ==>
                    dims == (rows[k].width, rows[k].height))
  {
    var info := if camera in project.depthDescriptors
                then LoadDepthDescriptor(project.depthDescriptors[camera], ts) else None;
    assert camera in project.depthDescriptors ==>
             var rows := project.depthDescriptors[camera];
             forall k :: 0 <= k < |rows| && NearestAmong(rows, ts, |rows|, Some(k)) ==> info == Some(rows[k])
    by {
      if camera in project.depthDescriptors {
        var rows := project.depthDescriptors[camera];
        forall k | 0 <= k < |rows| && NearestAmong(rows, ts, |rows|, Some(k))
          ensures info == Some(rows[k])
        {
          var k' :| 0 <= k' < |rows| && info.value == rows[k'] && NearestAmong(rows, ts, |rows|, Some(k'));
          NearestUnique(rows, ts, k, k');
        }
      }
    }
    match info
    case Some(row) => (row.width, row.height)
    case None => (320, 320)
  }

  /** The "falsy" test `if not depth_path_rel`: None or the empty string. */
  predicate PathGiven(p: Option<string>) {
    p.Some? && |p.value| > 0
  }

  /**
   The colour half of `process_quest_frame`: the format file must exist and
   be a dict, its width and height (default 640 x 480) must be ints, the
   camera must be "left" or "right" with an image path whose file exists,
   and the YUV buffer must decode.  Any failure is None.
   */
  function LoadColour(project: ProjectFiles, frame: QuestAdapter.Frame, camera: string)
    : (r: Option<RgbImage>)
    ensures camera !in project.imageFormats ==> r.None?
    ensures camera != "left" && camera != "right" ==> r.None?
    ensures r.Some? ==>
              && camera in project.imageFormats && project.imageFormats[camera].Dict?
              && CameraEntry(frame, camera).Some?
              && CameraEntry(frame, camera).value.image.Some?
              && CameraEntry(frame, camera).value.image.value in project.files
    ensures r.Some? ==>
              var info := project.imageFormats[camera];
              var data := project.files[CameraEntry(frame, camera).value.image.value];
              && Some(r.value.width) == FormatDimension(info, "width", 640)
              && Some(r.value.height) == FormatDimension(info, "height", 480)
              && Yuv420ToRgb(data, r.value.width, r.value.height) == Success(r.value)
    ensures && camera in project.imageFormats && project.imageFormats[camera].Dict?
            && CameraEntry(frame, camera).Some?
            && CameraEntry(frame, camera).value.image.Some?
            && CameraEntry(frame, camera).value.image.value in project.files
            ==>
              var info := project.imageFormats[camera];
              var data := project.files[CameraEntry(frame, camera).value.image.value];
              var w, h := FormatDimension(info, "width", 640), FormatDimension(info, "height", 480);
              w.Some? && h.Some? && Yuv420ToRgb(data, w.value, h.value).Success? ==>
                r == Some(Yuv420ToRgb(data, w.value, h.value).value)
  {
    if camera !in project.imageFormats then None
    else
      var info := project.imageFormats[camera];
      if !info.Dict? then None   // format_info.get on a non-dict raises
      else
        var w := FormatDimension(info, "width", 640);
        var h := FormatDimension(info, "height", 480);
        var entry := CameraEntry(frame, camera);
        if w.None? || h.None? || entry.None? || entry.value.image.None? then None
        else if entry.value.image.value !in project.files then None
        else match Yuv420ToRgb(project.files[entry.value.image.value], w.value, h.value)
          case Failure(_) => None
          case Success(rgb) => Some(rgb)
  }

  /** What the depth half of `process_quest_frame` ends with. */
  datatype DepthOutcome =
    | NoDepth              // no depth entry or no depth file: (rgb, None)
    | DepthFailed          // an exception: (None, None)
    | DepthLoaded(map_: DepthMap)

  /**
   The depth half of `process_quest_frame` for a colour frame of
   width x height: read the raw buffer at the dimensions the descriptor gives
   (320 x 320 without one) and resize it to the colour frame when they differ.
   */
  function LoadDepth(project: ProjectFiles, camera: string, depthPath: Option<string>, ts: int,
                     width: int, height: int): (r: DepthOutcome)
    ensures r.NoDepth? <==> !PathGiven(depthPath) || depthPath.value !in project.files
    ensures r.DepthLoaded? ==> r.map_.height == height && r.map_.width == width
    ensures !r.NoDepth? ==>
              var dims := DepthDimensions(project, camera, ts);
              (r.DepthLoaded? ==> |project.files[depthPath.value]| == dims.0 * dims.1 * 4)
              && (|project.files[depthPath.value]| != dims.0 * dims.1 * 4 ==> r.DepthFailed?)
    ensures !r.NoDepth? ==>
              var dims := DepthDimensions(project, camera, ts);
              var raw := LoadRawDepth(project.files[depthPath.value], dims.0, dims.1);
              && (raw.Failure? ==> r.DepthFailed?)
              && (raw.Success? && dims == (width, height) ==> r == DepthLoaded(raw.value))
              && (raw.Success? && dims != (width, height) ==>
                    && (r.DepthLoaded? <==> dims.0 > 0 && dims.1 > 0 && width > 0 && height > 0)
                    && (r.DepthLoaded? ==> r.map_ == ResizeNearest(raw.value, width, height).value))
  {
    if !PathGiven(depthPath) || depthPath.value !in project.files then NoDepth
    else
      var dims := DepthDimensions(project, camera, ts);
      match LoadRawDepth(project.files[depthPath.value], dims.0, dims.1)
      case Failure(_) => DepthFailed
      case Success(depth) =>
        if depth.height == height && depth.width == width then DepthLoaded(depth)
        else match ResizeNearest(depth, width, height)
          case Failure(_) => DepthFailed
          case Success(resized) => DepthLoaded(resized)
  }

  /**
   `process_quest_frame`.  Any exception inside it is caught and turns into
   (None, None); a missing or empty depth entry, or a missing depth file,
   gives (rgb, None).
   */
  function ProcessQuestFrame(project: ProjectFiles, frame: QuestAdapter.Frame, camera: string): (r: FrameImages)
    ensures r.rgb.None? ==> r.depth.None?
    ensures camera !in project.imageFormats ==> r == FrameImages(None, None)
    ensures camera != "left" && camera != "right" ==> r == FrameImages(None, None)
    ensures r.rgb.Some? ==> LoadColour(project, frame, camera) == r.rgb
    ensures r.depth.Some? ==>
              && r.depth.value.height == r.rgb.value.height
              && r.depth.value.width == r.rgb.value.width
    ensures r.rgb.Some? ==>
              var entry := CameraEntry(frame, camera).value;
              r.depth.None? <==> !PathGiven(entry.depth) || entry.depth.value !in project.files
    ensures var c := LoadColour(project, frame, camera);
            && (c.None? ==> r == FrameImages(None, None))
            && (c.Some? ==>
                  var d := LoadDepth(project, camera, CameraEntry(frame, camera).value.depth,
                                     frame.timestamp, c.value.width, c.value.height);
                  && (d.NoDepth? ==> r == FrameImages(c, None))
                  && (d.DepthFailed? ==> r == FrameImages(None, None))
                  && (d.DepthLoaded? ==> r == FrameImages(c, Some(d.map_))))
  {
    match LoadColour(project, frame, camera)
    case None => FrameImages(None, None)
    case Some(rgb) =>
      var entry := CameraEntry(frame, camera).value;
      match LoadDepth(project, camera, entry.depth, frame.timestamp, rgb.width, rgb.height)
      case NoDepth => FrameImages(Some(rgb), None)
      case DepthFailed => FrameImages(None, None)
      case DepthLoaded(depth) => FrameImages(Some(rgb), Some(depth))
  }

  /**
   A colour frame that decodes is cut from the image file exactly at the
   expected YUV size; without width/height in the format file it is 640 x 480.
   */
  lemma ColourFrameFacts(project: ProjectFiles, frame: QuestAdapter.Frame, camera: string)
    requires ProcessQuestFrame(project, frame, camera).rgb.Some?
    ensures var rgb := ProcessQuestFrame(project, frame, camera).rgb.value;
            var info := project.imageFormats[camera];
            var img := CameraEntry(frame, camera).value.image.value;
            && img in project.files
            && rgb.planes.y + rgb.planes.u + rgb.planes.v
                 == project.files[img][..Layout(rgb.width, rgb.height).expectedSize]
            && ("width" !in info.entries ==> rgb.width == 640)
            && ("height" !in info.entries ==> rgb.height == 480)
  {
  }

  /**
   A frame whose colour image decodes and whose depth entry is empty or names
   a missing file comes back as (rgb, None).
   */
  lemma FrameWithoutDepth(project: ProjectFiles, frame: QuestAdapter.Frame, camera: string)
    requires camera == "left" || camera == "right"
    requires camera in project.imageFormats && project.imageFormats[camera].Dict?
    requires var info := project.imageFormats[camera];
             var entry := CameraEntry(frame, camera).value;
             && FormatDimension(info, "width", 640).Some? && FormatDimension(info, "height", 480).Some?
             && entry.image.Some? && entry.image.value in project.files
             && Yuv420ToRgb(project.files[entry.image.value],
                            FormatDimension(info, "width", 640).value,
                            FormatDimension(info, "height", 480).value).Success?
             && (!PathGiven(entry.depth) || entry.depth.value !in project.files)
    ensures var info := project.imageFormats[camera];
            var entry := CameraEntry(frame, camera).value;
            var rgb := Yuv420ToRgb(project.files[entry.image.value],
                                   FormatDimension(info, "width", 640).value,
                                   FormatDimension(info, "height", 480).value).value;
            ProcessQuestFrame(project, frame, camera) == FrameImages(Some(rgb), None)
  {
  }

  /**
   A frame whose colour image decodes and whose depth file holds exactly a
   map of the colour frame's size comes back as (rgb, depth) with the map as
   read.
   */
  lemma FrameWithDepth(project: ProjectFiles, frame: QuestAdapter.Frame, camera: string)
    requires camera == "left" || camera == "right"
    requires camera in project.imageFormats && project.imageFormats[camera].Dict?
    requires var info := project.imageFormats[camera];
             var entry := CameraEntry(frame, camera).value;
             var w, h := FormatDimension(info, "width", 640), FormatDimension(info, "height", 480);
             && w.Some? && h.Some?
             && entry.image.Some? && entry.image.value in project.files
             && Yuv420ToRgb(project.files[entry.image.value], w.value, h.value).Success?
             && PathGiven(entry.depth) && entry.depth.value in project.files
             && DepthDimensions(project, camera, frame.timestamp) == (w.value, h.value)
             && |project.files[entry.depth.value]| == w.value * h.value * 4
    ensures var info := project.imageFormats[camera];
            var entry := CameraEntry(frame, camera).value;
            var w, h := FormatDimension(info, "width", 640).value, FormatDimension(info, "height", 480).value;
            var r := ProcessQuestFrame(project, frame, camera);
            && r.rgb == Some(Yuv420ToRgb(project.files[entry.image.value], w, h).value)
            && r.depth.Some? && r.depth.value.width == w && r.depth.value.height == h
            && Flatten(r.depth.value.samples) == project.files[entry.depth.value]
  {
    var entry := CameraEntry(frame, camera).value;
    var info := project.imageFormats[camera];
    var w, h := FormatDimension(info, "width", 640).value, FormatDimension(info, "height", 480).value;
    var raw := LoadRawDepth(project.files[entry.depth.value], w, h);
    assert raw.Success?;
    var rgb := Yuv420ToRgb(project.files[entry.image.value], w, h).value;
    assert rgb.width == w && rgb.height == h;
  }

  /**
   A depth file whose size does not match its dimensions loses the colour
   frame as well: the ValueError is caught by the same handler as every other
   failure, which returns (None, None).
   */
  lemma DepthMismatchDropsBoth(project: ProjectFiles, frame: QuestAdapter.Frame, camera: string)
    requires LoadColour(project, frame, camera).Some?
    requires var entry := CameraEntry(frame, camera).value;
             var dims := DepthDimensions(project, camera, frame.timestamp);
             && PathGiven(entry.depth) && entry.depth.value in project.files
             && |project.files[entry.depth.value]| != dims.0 * dims.1 * 4
    ensures ProcessQuestFrame(project, frame, camera) == FrameImages(None, None)
  {
  }
}
