/**
 The configuration store of the reconstruction tool: a YAML document held as a
 nested tree of values, read and written through dot-separated keys such as
 "reconstruction.voxel_size" (modules/config_manager.py).  The same value type
 also stands for the parsed JSON metadata the other modules read.
 */
module ConfigTree {
  import opened Wrappers

  /** A YAML/JSON value as Python holds it after parsing. */
  datatype Value =
    | Null
    | Bool(b: bool)
    | Int(i: int)
    | Real(r: real)
    | Str(s: string)
    | List(items: seq<Value>)
    | Dict(entries: map<string, Value>)

  /** Python truthiness: None, False, zero and empty containers are false. */
  predicate Truthy(v: Value) {
    match v
    case Null => false
    case Bool(b) => b
    case Int(i) => i != 0
    case Real(r) => r != 0.0
    case Str(s) => |s| > 0
    case List(items) => |items| > 0
    case Dict(entries) => |entries| > 0
  }

  /** `d.get(k)` on a dict: the stored value, or None when the key is absent. */
  function Child(entries: map<string, Value>, k: string): Value {
    if k in entries then entries[k] else Null
  }

  /** `d.get(k, default)` on a dict: a stored None is returned as it is. */
  function ChildOr(entries: map<string, Value>, k: string, default: Value): Value {
    if k in entries then entries[k] else default
  }

  // ---------------------------------------------------------------------------
  // Splitting a key on '.'
  // ---------------------------------------------------------------------------

  /** Joins the segments with the separator between consecutive ones. */
  function Join(parts: seq<string>, sep: char): string
    decreases |parts|
  {
    if |parts| == 0 then ""
    else if |parts| == 1 then parts[0]
    else parts[0] + [sep] + Join(parts[1..], sep)
  }

  /** Python's `str.split(sep)`: never empty, empty segments are kept. */
  function Split(s: string, sep: char): (parts: seq<string>)
    ensures |parts| >= 1
    ensures forall i :: 0 <= i < |parts| ==> sep !in parts[i]
    ensures Join(parts, sep) == s
    decreases |s|
  {
    if |s| == 0 then [""]
    else
      var rest := Split(s[1..], sep);
      if s[0] == sep then
        assert s == [sep] + s[1..];
        [""] + rest
      else
        var parts := [[s[0]] + rest[0]] + rest[1..];
        assert forall i :: 1 <= i < |parts| ==> parts[i] == rest[i];
        assert Join(parts, sep) == s by {
          if |rest| == 1 {
            assert s == [s[0]] + s[1..];
          } else {
            assert parts[1..] == rest[1..];
            assert s == [s[0]] + (rest[0] + [sep] + Join(rest[1..], sep));
          }
        }
        parts
  }

  /** Splitting a joined list of dot-free segments gives back the segments. */
  lemma {:induction false} SplitJoin(parts: seq<string>, sep: char)
    requires |parts| >= 1
    requires forall i :: 0 <= i < |parts| ==> sep !in parts[i]
    ensures Split(Join(parts, sep), sep) == parts
    decreases |parts|, |parts[0]|
  {
    var head := parts[0];
    if |head| == 0 {
      if |parts| == 1 {
        assert Join(parts, sep) == "";
      } else {
        var tail := parts[1..];
        SplitJoin(tail, sep);
        var s := Join(parts, sep);
        assert s == [sep] + Join(tail, sep);
        assert s[1..] == Join(tail, sep);
        assert parts == [""] + tail;
      }
    } else {
      var shorter := [head[1..]] + parts[1..];
      assert forall i :: 1 <= i < |shorter| ==> shorter[i] == parts[i];
      assert sep !in shorter[0] by {
        assert forall c :: c in head[1..] ==> c in head;
      }
      SplitJoin(shorter, sep);
      JoinHead(parts, sep);
      var s := Join(parts, sep);
      assert s[0] == head[0] && s[1..] == Join(shorter, sep);
      assert head[0] != sep by { assert head[0] in head; }
      assert [[head[0]] + shorter[0]] + shorter[1..] == parts by {
        assert [head[0]] + head[1..] == head;
        assert shorter[1..] == parts[1..];
      }
    }
  }

  /** A joined list starts with the first character of its first segment, when there is one. */
  lemma JoinHead(parts: seq<string>, sep: char)
    requires |parts| >= 1 && |parts[0]| > 0
    ensures Join(parts, sep) == [parts[0][0]] + Join([parts[0][1..]] + parts[1..], sep)
  {
    var head := parts[0];
    var shorter := [head[1..]] + parts[1..];
    assert head == [head[0]] + head[1..];
    if |parts| > 1 {
      assert shorter[1..] == parts[1..];
    }
  }

  // ---------------------------------------------------------------------------
  // ConfigManager.get
  // ---------------------------------------------------------------------------

  /**
   The value the lookup loop of `get` ends on: one step per segment through
   dicts (a missing key reads as None).  `None` means the loop met a value
   that is not a dict before the segments ran out and returned the default.
   */
  function Resolve(v: Value, path: seq<string>): Option<Value>
    decreases |path|
  {
    if |path| == 0 then Some(v)
    else if v.Dict? then Resolve(Child(v.entries, path[0]), path[1..])
    else None
  }

  /** The lookup on an already split key. */
  function GetPath(root: Value, path: seq<string>, default: Value): (r: Value)
    ensures r == default || Resolve(root, path) == Some(r)
    ensures r.Null? ==> r == default
  {
    match Resolve(root, path)
    case None => default
    case Some(x) => if x.Null? then default else x
  }

  /** `ConfigManager.get(key, default)`. */
  function Get(root: Value, key: string, default: Value): Value {
    GetPath(root, Split(key, '.'), default)
  }

  /** Resolving a concatenated path resolves the first part, then the second. */
  lemma {:induction false} ResolveAppend(v: Value, p: seq<string>, q: seq<string>)
    ensures Resolve(v, p + q) ==
              (match Resolve(v, p)
               case None => None
               case Some(w) => Resolve(w, q))
    decreases |p|
  {
    if |p| == 0 {
      assert p + q == q;
    } else if v.Dict? {
      assert (p + q)[1..] == p[1..] + q;
      ResolveAppend(Child(v.entries, p[0]), p[1..], q);
    }
  }

  /**
   `get` returns the stored value whenever the path leads to one that is not
   None, whatever the default, so falsy values (0, False, "") come back as
   they are.
   */
  lemma GetReturnsStored(root: Value, path: seq<string>, x: Value, default: Value)
    requires Resolve(root, path) == Some(x) && !x.Null?
    ensures GetPath(root, path, default) == x
  {
  }

  /**
   `get` returns the default when some proper prefix of the path holds a
   value that is not a dict, or when a dict on the way lacks the next segment.
   */
  lemma GetFallsBack(root: Value, path: seq<string>, j: nat, default: Value)
    requires j < |path|
    requires Resolve(root, path[..j]).Some?
    requires var w := Resolve(root, path[..j]).value;
             !w.Dict? || path[j] !in w.entries
    ensures GetPath(root, path, default) == default
  {
    var w := Resolve(root, path[..j]).value;
    assert path == path[..j] + path[j..];
    ResolveAppend(root, path[..j], path[j..]);
    if w.Dict? {
      assert path[j..][1..] == path[j+1..];
      assert Resolve(w, path[j..]) == Resolve(Null, path[j+1..]);
    }
  }

  /** A dotted key whose segments contain no '.' is looked up segment by segment. */
  lemma GetDottedKey(root: Value, segments: seq<string>, default: Value)
    requires |segments| >= 1
    requires forall i :: 0 <= i < |segments| ==> '.' !in segments[i]
    ensures Get(root, Join(segments, '.'), default) == GetPath(root, segments, default)
  {
    SplitJoin(segments, '.');
  }

  // ---------------------------------------------------------------------------
  // ConfigManager.set
  // ---------------------------------------------------------------------------

  /** The outcome of `set`: the tree as the statements that ran left it, and the error raised, if any. */
  datatype SetOutcome = SetOutcome(tree: Value, error: Option<SetError>)

  /** `setdefault` or item assignment was attempted on a value that is not a dict. */
  datatype SetError = NotADict(prefix: seq<string>)

  /**
   The `set` loop as Python runs it in place: for every segment but the last,
   `setdefault(k, {})` inserts a fresh dict when the key is absent and then
   descends into whatever the key holds; the last segment is assigned.  A
   value that is not a dict raises on the spot, with the tree as it stands.
   */
  function SetPath(v: Value, path: seq<string>, x: Value): SetOutcome
    requires |path| >= 1
    decreases |path|
  {
    if !v.Dict? then SetOutcome(v, Some(NotADict([])))
    else if |path| == 1 then SetOutcome(Dict(v.entries[path[0] := x]), None)
    else
      var child := if path[0] in v.entries then v.entries[path[0]] else Dict(map[]);
      var sub := SetPath(child, path[1..], x);
      var err := match sub.error
                 case None => None
                 case Some(NotADict(p)) => Some(NotADict([path[0]] + p));
      SetOutcome(Dict(v.entries[path[0] := sub.tree]), err)
  }

  /** `ConfigManager.set(key, value)` (the save to disk that follows is not modelled). */
  function Set(root: Value, key: string, x: Value): SetOutcome {
    SetPath(root, Split(key, '.'), x)
  }

  /** Every container the `set` loop meets on an existing part of the path is a dict. */
  predicate DictsAlong(v: Value, path: seq<string>)
    requires |path| >= 1
    decreases |path|
  {
    v.Dict? && (|path| == 1 || path[0] !in v.entries || DictsAlong(v.entries[path[0]], path[1..]))
  }

  /** `set` raises exactly when an existing prefix of the key holds something that is not a dict. */
  lemma {:induction false} SetRaisesIff(v: Value, path: seq<string>, x: Value)
    requires |path| >= 1
    ensures SetPath(v, path, x).error.None? <==> DictsAlong(v, path)
    decreases |path|
  {
    if v.Dict? && |path| > 1 {
      if path[0] in v.entries {
        SetRaisesIff(v.entries[path[0]], path[1..], x);
      } else {
        FreshDictNeverRaises(path[1..], x);
      }
    }
  }

  /** Descending into freshly created dicts never meets a non-dict. */
  lemma {:induction false} FreshDictNeverRaises(path: seq<string>, x: Value)
    requires |path| >= 1
    ensures SetPath(Dict(map[]), path, x).error.None?
    decreases |path|
  {
    if |path| > 1 {
      FreshDictNeverRaises(path[1..], x);
    }
  }

  /**
   A `set` that raises has mutated nothing: the failure can only happen on the
   existing part of the path, before any `setdefault` has inserted a dict.
   */
  lemma {:induction false} SetRaisedLeavesTree(v: Value, path: seq<string>, x: Value)
    requires |path| >= 1
    requires SetPath(v, path, x).error.Some?
    ensures SetPath(v, path, x).tree == v
    decreases |path|
  {
    if v.Dict? && |path| > 1 {
      if path[0] in v.entries {
        SetRaisedLeavesTree(v.entries[path[0]], path[1..], x);
        assert v.entries[path[0] := v.entries[path[0]]] == v.entries;
      } else {
        FreshDictNeverRaises(path[1..], x);
      }
    }
  }

  /** After a `set` that completes, the key resolves to the value just stored. */
  lemma {:induction false} SetThenResolve(v: Value, path: seq<string>, x: Value)
    requires |path| >= 1
    requires SetPath(v, path, x).error.None?
    ensures Resolve(SetPath(v, path, x).tree, path) == Some(x)
    decreases |path|
  {
    if |path| > 1 {
      var child := if path[0] in v.entries then v.entries[path[0]] else Dict(map[]);
      SetThenResolve(child, path[1..], x);
    }
  }

  /**
   After a `set(k, v)` that completes, `get(k, d)` returns v, or d when v is
   None.
   */
  lemma SetThenGet(v: Value, path: seq<string>, x: Value, default: Value)
    requires |path| >= 1
    requires SetPath(v, path, x).error.None?
    ensures GetPath(SetPath(v, path, x).tree, path, default) == (if x.Null? then default else x)
  {
    SetThenResolve(v, path, x);
  }

  /** The same round trip on dotted string keys. */
  lemma SetThenGetKey(root: Value, key: string, x: Value, default: Value)
    requires Set(root, key, x).error.None?
    ensures Get(Set(root, key, x).tree, key, default) == (if x.Null? then default else x)
  {
    SetThenGet(root, Split(key, '.'), x, default);
  }

  /** Paths extending the key look inside the stored value. */
  lemma {:induction false} SetThenResolveBelow(v: Value, path: seq<string>, x: Value, below: seq<string>)
    requires |path| >= 1
    requires SetPath(v, path, x).error.None?
    ensures Resolve(SetPath(v, path, x).tree, path + below) == Resolve(x, below)
  {
    SetThenResolve(v, path, x);
    ResolveAppend(SetPath(v, path, x).tree, path, below);
  }

  /** Neither path is a prefix of the other. */
  predicate Diverge(p: seq<string>, q: seq<string>) {
    exists j :: 0 <= j < |p| && j < |q| && p[j] != q[j]
  }

  /** Diverging paths that agree on the first segment diverge after it. */
  lemma DivergeTail(p: seq<string>, q: seq<string>)
    requires Diverge(p, q) && p[0] == q[0]
    ensures |p| >= 2 && Diverge(p[1..], q[1..])
  {
    var j :| 0 <= j < |p| && j < |q| && p[j] != q[j];
    assert p[1..][j-1] != q[1..][j-1];
  }

  /** Inside a freshly created dict every lookup of a path of length two or more misses. */
  lemma {:induction false} FreshDictLookup(path: seq<string>, x: Value, q: seq<string>, default: Value)
    requires |path| >= 1
    requires Diverge(path, q)
    ensures GetPath(SetPath(Dict(map[]), path, x).tree, q, default) == default
    decreases |path|
  {
    var t := SetPath(Dict(map[]), path, x).tree;
    if path[0] != q[0] {
      assert t.entries.Keys == {path[0]};
      assert q[..0] == [];
      GetFallsBack(t, q, 0, default);
    } else {
      DivergeTail(path, q);
      FreshDictLookup(path[1..], x, q[1..], default);
    }
  }

  /**
   `set` leaves the value at every path that neither extends the key nor is a
   prefix of it as `get` reads it: freshly created intermediate dicts read as
   missing keys did before.
   */
  lemma {:induction false} SetFrame(v: Value, path: seq<string>, x: Value, q: seq<string>, default: Value)
    requires |path| >= 1
    requires Diverge(path, q)
    ensures GetPath(SetPath(v, path, x).tree, q, default) == GetPath(v, q, default)
    decreases |path|
  {
    var out := SetPath(v, path, x);
    if v.Dict? {
      GetPathStep(v.entries, q, default);
      GetPathStep(out.tree.entries, q, default);
      if path[0] == q[0] {
        DivergeTail(path, q);
        var child := if path[0] in v.entries then v.entries[path[0]] else Dict(map[]);
        var sub := SetPath(child, path[1..], x);
        assert Child(out.tree.entries, q[0]) == sub.tree;
        if path[0] in v.entries {
          SetFrame(child, path[1..], x, q[1..], default);
        } else {
          FreshDictLookup(path[1..], x, q[1..], default);
          assert GetPath(Null, q[1..], default) == default;
        }
      }
    }
  }

  /** One step of the lookup loop through a dict. */
  lemma GetPathStep(e: map<string, Value>, q: seq<string>, default: Value)
    requires |q| >= 1
    ensures GetPath(Dict(e), q, default) == GetPath(Child(e, q[0]), q[1..], default)
  {
  }

  // ---------------------------------------------------------------------------
  // DEFAULT_CONFIG
  // ---------------------------------------------------------------------------

  /** The "reconstruction" section of the default configuration. */
  const ReconstructionDefaults: map<string, Value> := map[
    "voxel_size" := Real(0.01),
    "trunc_voxel_multiplier" := Real(8.0),
    "depth_max" := Real(2.0),
    "use_confidence_filtered_depth" := Bool(true),
    "confidence_threshold" := Real(0.05),
    "valid_count_threshold" := Int(4),
    "block_resolution" := Int(16),
    "block_count" := Int(50000),
    "frame_interval" := Int(5),
    "camera" := Str("left")
  ]

  /** The "post_processing" section of the default configuration. */
  const PostProcessingDefaults: map<string, Value> := map[
    "enable" := Bool(true),
    "smoothing_iterations" := Int(5),
    "decimation_target_triangles" := Int(100000),
    "remove_outliers" := Bool(true),
    "outlier_nb_neighbors" := Int(20),
    "outlier_std_ratio" := Real(2.0)
  ]

  /** The configuration written when no config.yml exists. */
  const DefaultConfig: Value := Dict(map[
    "reconstruction" := Dict(ReconstructionDefaults),
    "ingestion" := Dict(map["validation_checksum" := Bool(true)]),
    "post_processing" := Dict(PostProcessingDefaults),
    "export" := Dict(map[
      "format" := Str("obj"),
      "save_mesh" := Bool(true),
      "save_pointcloud" := Bool(false)
    ])
  ])

  /** A two-segment key path reads the named entry of the named section. */
  lemma GetTwoSegmentPath(root: Value, a: string, b: string, section: map<string, Value>, default: Value)
    requires root.Dict? && a in root.entries && root.entries[a] == Dict(section)
    requires b in section && !section[b].Null?
    ensures GetPath(root, [a, b], default) == section[b]
  {
    assert [a, b][1..] == [b];
    assert [b][1..] == [];
    assert Resolve(Dict(section), [b]) == Resolve(section[b], []);
    assert Resolve(root, [a, b]) == Resolve(Dict(section), [b]);
  }

  /** A one-segment path reads the top-level entry. */
  lemma GetSingleSegmentPath(root: Value, name: string, default: Value)
    ensures GetPath(root, [name], default) ==
              if root.Dict? && name in root.entries && !root.entries[name].Null?
              then root.entries[name] else default
  {
    assert [name][1..] == [];
    if root.Dict? {
      assert Resolve(root, [name]) == Resolve(Child(root.entries, name), []);
    }
  }

  /** A key without '.' is a single segment. */
  lemma GetSingleSegmentKey(root: Value, name: string, default: Value)
    requires '.' !in name
    ensures Get(root, name, default) == GetPath(root, [name], default)
  {
    assert Join([name], '.') == name;
    GetDottedKey(root, [name], default);
  }

  /** A two-segment dotted key is looked up segment by segment. */
  lemma GetTwoSegmentKey(root: Value, a: string, b: string, default: Value)
    requires '.' !in a && '.' !in b
    ensures Get(root, a + "." + b, default) == GetPath(root, [a, b], default)
  {
    assert a + "." + b == Join([a, b], '.');
    GetDottedKey(root, [a, b], default);
  }

  /**
   The documented defaults, read back along their key paths; `GetDottedKey`
   carries each to its dotted key ("reconstruction.voxel_size", ...).
   */
  lemma DefaultConfigValues(default: Value)
    ensures GetPath(DefaultConfig, ["reconstruction", "voxel_size"], default) == Real(0.01)
    ensures GetPath(DefaultConfig, ["reconstruction", "trunc_voxel_multiplier"], default) == Real(8.0)
    ensures GetPath(DefaultConfig, ["reconstruction", "block_resolution"], default) == Int(16)
    ensures GetPath(DefaultConfig, ["reconstruction", "block_count"], default) == Int(50000)
    ensures GetPath(DefaultConfig, ["reconstruction", "frame_interval"], default) == Int(5)
    ensures GetPath(DefaultConfig, ["reconstruction", "camera"], default) == Str("left")
    ensures GetPath(DefaultConfig, ["post_processing", "enable"], default) == Bool(true)
  {
    DefaultSections();
    DefaultReconstructionValues();
    GetTwoSegmentPath(DefaultConfig, "reconstruction", "voxel_size", ReconstructionDefaults, default);
    GetTwoSegmentPath(DefaultConfig, "reconstruction", "trunc_voxel_multiplier", ReconstructionDefaults, default);
    GetTwoSegmentPath(DefaultConfig, "reconstruction", "block_resolution", ReconstructionDefaults, default);
    GetTwoSegmentPath(DefaultConfig, "reconstruction", "block_count", ReconstructionDefaults, default);
    GetTwoSegmentPath(DefaultConfig, "reconstruction", "frame_interval", ReconstructionDefaults, default);
    GetTwoSegmentPath(DefaultConfig, "reconstruction", "camera", ReconstructionDefaults, default);
    GetTwoSegmentPath(DefaultConfig, "post_processing", "enable", PostProcessingDefaults, default);
  }

  /** The two sections the reconstructor reads. */
  lemma DefaultSections()
    ensures DefaultConfig.Dict?
    ensures "reconstruction" in DefaultConfig.entries
    ensures DefaultConfig.entries["reconstruction"] == Dict(ReconstructionDefaults)
    ensures "post_processing" in DefaultConfig.entries
    ensures DefaultConfig.entries["post_processing"] == Dict(PostProcessingDefaults)
    ensures "enable" in PostProcessingDefaults && PostProcessingDefaults["enable"] == Bool(true)
  {
  }

  lemma DefaultReconstructionValues()
    ensures "voxel_size" in ReconstructionDefaults && ReconstructionDefaults["voxel_size"] == Real(0.01)
    ensures "trunc_voxel_multiplier" in ReconstructionDefaults
            && ReconstructionDefaults["trunc_voxel_multiplier"] == Real(8.0)
    ensures "block_resolution" in ReconstructionDefaults && ReconstructionDefaults["block_resolution"] == Int(16)
    ensures "block_count" in ReconstructionDefaults && ReconstructionDefaults["block_count"] == Int(50000)
    ensures "frame_interval" in ReconstructionDefaults && ReconstructionDefaults["frame_interval"] == Int(5)
    ensures "camera" in ReconstructionDefaults && ReconstructionDefaults["camera"] == Str("left")
  {
  }
}
