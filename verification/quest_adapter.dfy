/**
 Conversion of a Quest 3 export directory into the frame table of frames.json
 (modules/quest_adapter.py).  Reading the CSV, the JSON files and the
 directory listings is abstracted: the extraction arrives with the pose rows
 already parsed, the camera characteristics already parsed, and each
 directory as the list of entry names it holds (`None` when it is absent).
 */
module QuestAdapter {
  import opened Wrappers
  import opened ConfigTree

  // ---------------------------------------------------------------------------
  // File names: pathlib's suffix and Python's sorted()
  // ---------------------------------------------------------------------------

  /** `str.rfind(c)`: the last index holding `c`, or -1. */
  function LastIndexOf(s: string, c: char): (i: int)
    ensures -1 <= i < |s|
    ensures i >= 0 ==> s[i] == c
    ensures forall j :: i < j < |s| ==> s[j] != c
    decreases |s|
  {
    if |s| == 0 then -1
    else if s[|s| - 1] == c then |s| - 1
    else LastIndexOf(s[..|s| - 1], c)
  }

  /**
   `PurePath.suffix`: from the last '.' to the end, provided that dot is
   neither the first nor the last character of the name; otherwise "".
   */
  function Suffix(name: string): string {
    var i := LastIndexOf(name, '.');
    if 0 < i < |name| - 1 then name[i..] else ""
  }

  /**
   A name has the extension ".yuv" (or any '.' followed by dot-free text)
   exactly when it is longer than the extension and ends with it; a bare
   ".yuv" has no suffix.
   */
  lemma SuffixIff(name: string, ext: string)
    requires |ext| >= 2 && ext[0] == '.' && '.' !in ext[1..]
    ensures Suffix(name) == ext <==> |name| > |ext| && name[|name| - |ext|..] == ext
  {
    var i := LastIndexOf(name, '.');
    if |name| > |ext| && name[|name| - |ext|..] == ext {
      var k := |name| - |ext|;
      assert name[k] == '.' by { assert name[k..][0] == ext[0]; }
      forall j | k < j < |name|
        ensures name[j] != '.'
      {
        assert name[j] == ext[1..][j - k - 1] by { assert name[k..][j - k] == ext[j - k]; }
      }
      assert i == k;
    }
  }

  /** Python's string order: code point by code point, a proper prefix first. */
  predicate LexLe(a: string, b: string)
    decreases |a|
  {
    |a| == 0 || (|b| > 0 && (a[0] < b[0] || (a[0] == b[0] && LexLe(a[1..], b[1..]))))
  }

  lemma {:induction false} LexTotal(a: string, b: string)
    ensures LexLe(a, b) || LexLe(b, a)
    decreases |a|
  {
    if |a| > 0 && |b| > 0 && a[0] == b[0] {
      LexTotal(a[1..], b[1..]);
    }
  }

  /** Each name is at most the next one in Python's order. */
  predicate Sorted(s: seq<string>) {
    forall i :: 0 < i < |s| ==> LexLe(s[i - 1], s[i])
  }

  function Insert(x: string, s: seq<string>): (r: seq<string>)
    requires Sorted(s)
    ensures Sorted(r)
    ensures multiset(r) == multiset(s) + multiset{x}
    ensures |r| > 0 && (r[0] == x || (|s| > 0 && r[0] == s[0]))
    decreases |s|
  {
    if |s| == 0 || LexLe(x, s[0]) then [x] + s
    else
      LexTotal(x, s[0]);
      var rest := Insert(x, s[1..]);
      assert s == [s[0]] + s[1..];
      [s[0]] + rest
  }

  /** `sorted(names)`: the same names, in Python's order. */
  function Sort(s: seq<string>): (r: seq<string>)
    ensures Sorted(r)
    ensures multiset(r) == multiset(s)
    decreases |s|
  {
    if |s| == 0 then []
    else
      assert s == [s[0]] + s[1..];
      Insert(s[0], Sort(s[1..]))
  }

  /** The entries whose pathlib suffix is `ext`, in listing order. */
  function WithSuffix(names: seq<string>, ext: string): (r: seq<string>)
    ensures forall n :: n in r <==> n in names && Suffix(n) == ext
    decreases |names|
  {
    if |names| == 0 then []
    else
      assert names == [names[0]] + names[1..];
      var rest := WithSuffix(names[1..], ext);
      if Suffix(names[0]) == ext then [names[0]] + rest else rest
  }

  /** `sorted(f.name for f in dir.iterdir() if f.suffix == ext)`. */
  function ListSorted(names: seq<string>, ext: string): (r: seq<string>)
    ensures Sorted(r)
    ensures forall n :: n in r <==> n in names && Suffix(n) == ext
  {
    var r := Sort(WithSuffix(names, ext));
    assert forall n :: n in r <==> n in multiset(r);
    r
  }

  // ---------------------------------------------------------------------------
  // The frame table
  // ---------------------------------------------------------------------------

  /** One row of hmd_poses.csv, already parsed. */
  datatype PoseRow = PoseRow(
    unixTime: int,
    posX: real, posY: real, posZ: real,
    rotW: real, rotX: real, rotY: real, rotZ: real)

  /** The image and depth file of one camera, relative to the project directory. */
  datatype CameraFiles = CameraFiles(image: Option<string>, depth: Option<string>)

  /** One entry of the "frames" list of frames.json. */
  datatype Frame = Frame(
    frameId: int,
    timestamp: int,
    position: seq<real>,
    rotation: seq<real>,
    left: CameraFiles,
    right: CameraFiles)

  /** The document written to frames.json. */
  datatype FramesDocument = FramesDocument(
    version: string,
    source: string,
    cameraMetadata: map<string, Value>,
    frames: seq<Frame>)

  /** What the export directory holds, with its files already read. */
  datatype Extraction = Extraction(
    hmdPoses: Option<seq<PoseRow>>,
    leftCharacteristics: Option<Value>,
    rightCharacteristics: Option<Value>,
    leftCameraRaw: Option<seq<string>>,
    rightCameraRaw: Option<seq<string>>,
    leftDepth: Option<seq<string>>,
    rightDepth: Option<seq<string>>)

  datatype AdaptError =
    | PosesNotFound                    // FileNotFoundError("hmd_poses.csv not found")
    | DirectoryNotFound(name: string)  // iterdir() on a missing directory

  /** "dir/name" for the i-th name, or None past the end of the list. */
  function EntryAt(dir: string, names: seq<string>, i: nat): Option<string> {
    if i < |names| then Some(dir + "/" + names[i]) else None
  }

  /** Everything frames.json promises about frame `i`. */
  ghost predicate FrameFromRow(f: Frame, i: nat, poses: seq<PoseRow>,
                               leftImages: seq<string>, rightImages: seq<string>,
                               leftDepth: seq<string>, rightDepth: seq<string>)
    requires i < |poses| && i < |leftImages|
  {
    && f.frameId == i
    && f.timestamp == poses[i].unixTime
    && f.position == [poses[i].posX, poses[i].posY, poses[i].posZ]
    && f.rotation == [poses[i].rotW, poses[i].rotX, poses[i].rotY, poses[i].rotZ]
    && f.left.image == Some("left_camera_raw/" + leftImages[i])
    && (f.left.depth.None? <==> i >= |leftDepth|)
    && (f.left.depth.Some? ==> f.left.depth.value == "left_depth/" + leftDepth[i])
    && (f.right.image.None? <==> i >= |rightImages|)
    && (f.right.image.Some? ==> f.right.image.value == "right_camera_raw/" + rightImages[i])
    && (f.right.depth.None? <==> i >= |rightDepth|)
    && (f.right.depth.Some? ==> f.right.depth.value == "right_depth/" + rightDepth[i])
  }

  /** The loop of `adapt_quest_data` that zips the sorted lists with the pose rows. */
  method BuildFrames(poses: seq<PoseRow>, leftImages: seq<string>, rightImages: seq<string>,
                     leftDepth: seq<string>, rightDepth: seq<string>)
    returns (frames: seq<Frame>)
    ensures |frames| == if |leftImages| < |poses| then |leftImages| else |poses|
    ensures forall i :: 0 <= i < |frames| ==>
              FrameFromRow(frames[i], i, poses, leftImages, rightImages, leftDepth, rightDepth)
  {
    var n := if |leftImages| < |poses| then |leftImages| else |poses|;
    frames := [];
    var i := 0;
    while i < n
      invariant 0 <= i <= n
      invariant |frames| == i
      invariant forall j :: 0 <= j < i ==>
                  FrameFromRow(frames[j], j, poses, leftImages, rightImages, leftDepth, rightDepth)
    {
      var row := poses[i];
      var frame := Frame(
        i,
        row.unixTime,
        [row.posX, row.posY, row.posZ],
        [row.rotW, row.rotX, row.rotY, row.rotZ],
        CameraFiles(Some("left_camera_raw/" + leftImages[i]), EntryAt("left_depth", leftDepth, i)),
        CameraFiles(EntryAt("right_camera_raw", rightImages, i), EntryAt("right_depth", rightDepth, i)));
      frames := frames + [frame];
      i := i + 1;
    }
  }

  /** The characteristics of the cameras whose file exists. */
  function CameraMetadata(left: Option<Value>, right: Option<Value>): (m: map<string, Value>)
    ensures "left" in m <==> left.Some?
    ensures "right" in m <==> right.Some?
    ensures left.Some? ==> m["left"] == left.value
    ensures right.Some? ==> m["right"] == right.value
    ensures forall k :: k in m ==> k == "left" || k == "right"
  {
    var m := if left.Some? then map["left" := left.value] else map[];
    if right.Some? then m["right" := right.value] else m
  }

  /**
   `adapt_quest_data`: fails before building anything when hmd_poses.csv or
   one of the four data directories is missing; otherwise one frame per pose
   row that has a left image.
   */
  method AdaptQuestData(ex: Extraction) returns (r: Result<FramesDocument, AdaptError>)
    ensures ex.hmdPoses.None? ==> r == Failure(PosesNotFound)
    ensures r.Success? <==>
              ex.hmdPoses.Some? && ex.leftCameraRaw.Some? && ex.rightCameraRaw.Some?
              && ex.leftDepth.Some? && ex.rightDepth.Some?
    ensures r.Success? ==>
              var doc := r.value;
              var poses := ex.hmdPoses.value;
              var leftImages := ListSorted(ex.leftCameraRaw.value, ".yuv");
              var rightImages := ListSorted(ex.rightCameraRaw.value, ".yuv");
              var leftDepth := ListSorted(ex.leftDepth.value, ".raw");
              var rightDepth := ListSorted(ex.rightDepth.value, ".raw");
              && doc.version == "1.0"
              && doc.source == "Quest 3"
              && doc.cameraMetadata == CameraMetadata(ex.leftCharacteristics, ex.rightCharacteristics)
              && |doc.frames| == (if |leftImages| < |poses| then |leftImages| else |poses|)
              && forall i :: 0 <= i < |doc.frames| ==>
                   FrameFromRow(doc.frames[i], i, poses, leftImages, rightImages, leftDepth, rightDepth)
  {
    if ex.hmdPoses.None? {
      return Failure(PosesNotFound);
    }
    var cameras := CameraMetadata(ex.leftCharacteristics, ex.rightCharacteristics);
    if ex.leftCameraRaw.None? {
      return Failure(DirectoryNotFound("left_camera_raw"));
    }
    if ex.rightCameraRaw.None? {
      return Failure(DirectoryNotFound("right_camera_raw"));
    }
    if ex.leftDepth.None? {
      return Failure(DirectoryNotFound("left_depth"));
    }
    if ex.rightDepth.None? {
      return Failure(DirectoryNotFound("right_depth"));
    }
    var leftImages := ListSorted(ex.leftCameraRaw.value, ".yuv");
    var rightImages := ListSorted(ex.rightCameraRaw.value, ".yuv");
    var leftDepth := ListSorted(ex.leftDepth.value, ".raw");
    var rightDepth := ListSorted(ex.rightDepth.value, ".raw");
    var frames := BuildFrames(ex.hmdPoses.value, leftImages, rightImages, leftDepth, rightDepth);
    r := Success(FramesDocument("1.0", "Quest 3", cameras, frames));
  }
}
