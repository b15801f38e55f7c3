# QuestStream reconstruction core, modelled in Dafny

QuestStream turns a Meta Quest 3 capture (head poses, YUV colour frames, raw
float32 depth maps and camera characteristics) into a triangle mesh. It fuses
the frames into Open3D's voxel-block TSDF volume. This project models the
logic the repository writes around Open3D, and proves what that logic
promises:

- `ConfigTree` models the YAML configuration store (`ConfigManager`). A key
  such as `"reconstruction.voxel_size"` is split on '.', read through nested
  dicts by `get`, and written by `set`, which calls `setdefault` on each
  intermediate segment. `DEFAULT_CONFIG` is modelled too.
- `QuestAdapter` models `adapt_quest_data`, the conversion of the export
  directory into the frames.json document. The CSV rows, the JSON files and
  the directory listings are inputs. The `.yuv`/`.raw` filter, `sorted()`,
  the zip of poses with image names and the `None` entries are modelled.
- `QuestImageProcessor` models `process_quest_frame` and its helpers:
  - the YUV_420_888 plane layout, with the too-small check and the
    truncation;
  - the exact-size check of float32 depth buffers;
  - the nearest descriptor row within 100 ms, with ties going to the earliest
    row;
  - the nearest-neighbour resize;
  - the 640 x 480 and 320 x 320 defaults;
  - which failures give `(None, None)` and which give `(rgb, None)`.
- `Geometry` models the quaternion [w, x, y, z] to rotation matrix
  conversion, and proves that the matrix is orthogonal for a unit
  quaternion. It also models the 4 x 4 pose layout of `build_pose_matrix` and
  the product of a head pose with a head-to-camera translation.
- `Reconstruction` models the parameter logic of `QuestReconstructor`:
  - the settings read from the "reconstruction" section, and `sdf_trunc`;
  - the voxel-block key of a point;
  - the dummy mesh of a missing grid;
  - the enable gate of post-processing, and the order of the Open3D steps it
    runs over a mesh known only by its vertex and triangle counts.
- `QuestPipeline` models `QuestReconstructionPipeline`:
  - the constructor;
  - intrinsics and extrinsics with their defaults;
  - the camera list and the `frames[::frame_interval]` stride;
  - the progress percentages;
  - the live `run_reconstruction` loop. Every (frame, camera) pair becomes
    either one `integrate_frame` call or one failure, and every integrated
    pose is `head_pose @ T_head_cam`.

Values are exact: `real` stands for float64 and `int` for Python integers.
Python exceptions are `Failure` values of a `Result`.

## Model

| member | source | states |
|---|---|---|
| ConfigTree.Split | modules/config_manager.py:62 | `key.split(".")` always has at least one segment, no segment contains '.', and joining the segments with '.' gives back the key |
| ConfigTree.SplitJoin | modules/config_manager.py:62 | splitting the '.'-join of dot-free segments gives back exactly those segments |
| ConfigTree.GetPath | modules/config_manager.py:61-69 | `get` returns either the default or the value the key path leads to; it returns None only when the default is None |
| ConfigTree.ResolveAppend | modules/config_manager.py:63-68 | walking a path made of two parts is walking the first part, then the second from where the first ended |
| ConfigTree.GetReturnsStored | modules/config_manager.py:69 | when the path leads to a value other than None, `get` returns that value whatever the default, so 0, False and "" come back unchanged |
| ConfigTree.GetFallsBack | modules/config_manager.py:64-68 | `get` returns the default when a prefix of the path holds a non-dict, or when a dict on the way lacks the next segment |
| ConfigTree.GetDottedKey | modules/config_manager.py:61-69 | a dotted key made of dot-free segments is looked up segment by segment |
| ConfigTree.GetSingleSegmentPath | modules/config_manager.py:64-69 | a one-segment lookup returns the top-level entry when the root is a dict holding a non-None value under that name, and otherwise the default |
| ConfigTree.GetSingleSegmentKey | modules/config_manager.py:62 | a key without '.' is the single segment of its path |
| ConfigTree.GetTwoSegmentKey | modules/config_manager.py:62 | "a.b" with dot-free a and b is the two-segment path [a, b] |
| ConfigTree.SetRaisesIff | modules/config_manager.py:74-76 | `set` raises exactly when some existing container along the key is not a dict |
| ConfigTree.FreshDictNeverRaises | modules/config_manager.py:75 | descending through dicts that `setdefault` has just created never raises |
| ConfigTree.SetRaisedLeavesTree | modules/config_manager.py:74-76 | a `set` that raises leaves the whole tree as it was: nothing was inserted before the failure |
| ConfigTree.SetThenResolve | modules/config_manager.py:71-76 | after a `set` that completes, the key path leads to the value just stored |
| ConfigTree.SetThenGet | modules/config_manager.py:69-76 | after a `set(k, v)` that completes, `get(k, d)` returns v, or d when v is None |
| ConfigTree.SetThenGetKey | modules/config_manager.py:61-76 | the same round trip on dotted string keys |
| ConfigTree.SetThenResolveBelow | modules/config_manager.py:76 | after `set`, every path that extends the key reads inside the stored value |
| ConfigTree.FreshDictLookup | modules/config_manager.py:75 | inside the chain of dicts `set` creates, only the key path holds anything: every diverging path reads the default |
| ConfigTree.SetFrame | modules/config_manager.py:73-76 | `set` leaves `get` unchanged at every path that neither extends the key nor is a prefix of it, including where new intermediate dicts were created |
| ConfigTree.DefaultConfigValues | modules/config_manager.py:4-33 | the default configuration holds voxel_size 0.01, trunc_voxel_multiplier 8.0, block_resolution 16, block_count 50000, frame_interval 5, camera "left" and post_processing.enable True |
| QuestAdapter.SuffixIff | modules/quest_adapter.py:63-66 | `f.suffix == ext` holds exactly when the name is longer than the extension and ends with it, so a bare ".yuv" is not selected |
| QuestAdapter.Sort | modules/quest_adapter.py:63-66 | `sorted()` returns the same names, as a multiset, in Python's string order |
| QuestAdapter.WithSuffix | modules/quest_adapter.py:63-66 | the comprehension keeps exactly the listed names whose suffix is the extension |
| QuestAdapter.ListSorted | modules/quest_adapter.py:63-66 | each listing is sorted and holds exactly the directory's names with the wanted suffix |
| QuestAdapter.BuildFrames | modules/quest_adapter.py:69-89 | there are min(#left images, #poses) frames; frame i has id i, the timestamp, position and [w, x, y, z] rotation of pose row i, and the i-th left image; its left depth, right image and right depth are None exactly when i is past the end of the matching sorted list |
| QuestAdapter.CameraMetadata | modules/quest_adapter.py:53-60 | camera_metadata has an entry for a camera exactly when that camera's characteristics file exists, holding its parsed content, and has no other entries |
| QuestAdapter.AdaptQuestData | modules/quest_adapter.py:26-97 | a missing hmd_poses.csv raises FileNotFoundError before anything is built; a missing data directory raises as well; otherwise the document has version "1.0", source "Quest 3", the camera metadata, and the frame table described for BuildFrames |
| QuestImageProcessor.Layout | modules/quest_image_processor.py:38-40 | the Y plane has w·h bytes; each chroma plane has at most a quarter of that, so the expected size is at most 1.5·w·h |
| QuestImageProcessor.Yuv420ToRgb | modules/quest_image_processor.py:38-60 | a buffer shorter than w·h + 2·(w div 2)·(h div 2) is rejected with that size; otherwise the Y, U and V planes are consecutive and disjoint, have the plane sizes, and together are exactly the buffer cut to the expected size |
| QuestImageProcessor.FlattenChunk4 | modules/quest_image_processor.py:135-136 | reading the buffer as four-byte float32 samples loses nothing: the samples laid end to end are the buffer |
| QuestImageProcessor.LoadRawDepth | modules/quest_image_processor.py:130-138 | a depth buffer is accepted only at exactly w·h·4 bytes, and then gives an h x w map of h·w samples that are the buffer |
| QuestImageProcessor.ResizeNearest | modules/quest_image_processor.py:205-206 | nearest-neighbour resizing of a non-empty map to a non-empty size gives that size, and every target pixel copies one source pixel |
| QuestImageProcessor.ScanNearest | modules/quest_image_processor.py:88-109 | the selection loop, given a correct best row for the rows already seen, ends with the best row for all rows |
| QuestImageProcessor.LoadDepthDescriptor | modules/quest_image_processor.py:88-111 | the result is None exactly when no row is within 100 ms; otherwise it is a row within 100 ms whose distance is minimal and strictly below that of every earlier row |
| QuestImageProcessor.NearestUnique | modules/quest_image_processor.py:97-99 | because the comparison is strict, the selected row is unique: among equally near rows, the earliest wins |
| QuestImageProcessor.DepthDimensions | modules/quest_image_processor.py:184-196 | the depth size is that of the nearest descriptor row, or 320 x 320 when the descriptor file is missing or no row is within 100 ms |
| QuestImageProcessor.LoadColour | modules/quest_image_processor.py:157-172 | a colour frame exists if and only if the format file exists and is a dict, its width and height (default 640 x 480) are ints, the camera is "left" or "right", its image file exists and the YUV buffer decodes; it is then the YUV decoding of that file at the format's width and height |
| QuestImageProcessor.LoadDepth | modules/quest_image_processor.py:175-206 | there is no depth exactly when the depth entry is missing, empty, or names a missing file; a buffer of the wrong size for the descriptor's dimensions fails; a raw map already at the colour frame's size is returned as read; otherwise it loads exactly when both sizes are positive, as the nearest-neighbour resize of the raw map to the colour frame's size |
| QuestImageProcessor.ProcessQuestFrame | modules/quest_image_processor.py:141-216 | no colour frame gives (None, None); with one, no depth entry or file gives (rgb, None), a failing depth load gives (None, None), and a loaded depth map gives (rgb, depth) at the colour frame's size; a missing format file or an unknown camera gives (None, None) |
| QuestImageProcessor.FrameWithoutDepth | modules/quest_image_processor.py:157-181 | a decodable colour image with an empty depth entry or a missing depth file comes back as (rgb, None), rgb being the YUV decoding at the format's size |
| QuestImageProcessor.FrameWithDepth | modules/quest_image_processor.py:157-208 | a decodable colour image with a depth file of exactly the colour frame's size comes back as (rgb, depth), the depth map holding the file's samples unchanged |
| QuestImageProcessor.ColourFrameFacts | modules/quest_image_processor.py:164-172 | a returned colour frame is cut from the image file at exactly the expected YUV size, and is 640 x 480 when the format file gives no width or height |
| QuestImageProcessor.DepthMismatchDropsBoth | modules/quest_image_processor.py:198-216 | a depth file of the wrong size also loses the colour frame: the handler returns (None, None) |
| Geometry.QuaternionToMatrix | modules/quest_reconstruction_pipeline.py:76-82 | the quaternion must have four components, read as [w, x, y, z]; the result is the 3 x 3 matrix of those rows |
| Geometry.IdentityQuaternion | modules/quest_reconstruction_pipeline.py:76-82 | [1, 0, 0, 0] gives the 3 x 3 identity |
| Geometry.RotationOrthogonal | modules/quest_reconstruction_pipeline.py:66-82 | for a unit quaternion, any two rows of the matrix have dot product 1 when they are the same row and 0 otherwise, that is R·Rᵀ = I |
| Geometry.BuildPoseMatrix | modules/quest_reconstruction_pipeline.py:97-104 | the pose succeeds exactly for a 4-component rotation and a 3-component position; R fills the top-left 3 x 3 block, the position the last column, and [0, 0, 0, 1] the bottom row |
| Geometry.ComposeWithTranslation | modules/quest_reconstruction_pipeline.py:247-249 | [R \| p] @ [I \| t] keeps the rotation R and moves the origin to R·t + p |
| Reconstruction.ToFloat | modules/reconstruction.py:28-30 | `float(v)` succeeds exactly on numbers and booleans and keeps the value of ints and floats |
| Reconstruction.Trunc | modules/reconstruction.py:32-33 | `int(x)` on a float rounds toward zero: the floor for x ≥ 0 and the ceiling below 0 |
| Reconstruction.ToInt | modules/reconstruction.py:32-33 | `int(v)` succeeds exactly on numbers and booleans, keeps ints and truncates floats |
| Reconstruction.Positive | modules/reconstruction.py:259 | `v > 0` is defined exactly on numbers and booleans, and is true exactly when the value exceeds 0 |
| Reconstruction.IntArgument | modules/reconstruction.py:261 | an argument bound to an integer parameter of Open3D is accepted exactly when it is a bool or an int within the 32-bit C `int` range, and is then that integer |
| Reconstruction.MakeParams | modules/reconstruction.py:25-33 | the reconstructor is built exactly when the "reconstruction" section is a dict and the five settings convert; each setting is its stored value or its default (0.01, 8.0, 3.0, 16, 50000), and sdf_trunc is voxel_size · trunc_voxel_multiplier |
| Reconstruction.EmptySectionDefaults | modules/reconstruction.py:28-33 | an empty section gives voxel 0.01, multiplier 8.0, depth_max 3.0, sdf_trunc 0.08, block resolution 16 and block count 50000 |
| Reconstruction.StoredNoneRejected | modules/reconstruction.py:28 | a voxel_size stored as None is not replaced by its default, so the constructor raises |
| Reconstruction.DefaultConfigParams | modules/reconstruction.py:27-33 | the default configuration gives voxel 0.01, multiplier 8.0, depth_max 2.0 (the file's value), sdf_trunc 0.08, block resolution 16 and block count 50000 |
| Reconstruction.BlockKeyIff | modules/reconstruction.py:155-156 | with block size bs = voxel_size · block_resolution > 0, the key of p is the one integer k with k·bs ≤ p < (k+1)·bs |
| Reconstruction.BlockCoordsContain | modules/reconstruction.py:153-156 | each coordinate of a point lies inside the extent of its block along that axis |
| Reconstruction.PostProcessMesh | modules/reconstruction.py:237-276 | a mesh without vertices comes back unchanged; on a mesh with vertices it fails exactly when a setting cannot be compared or passed; otherwise it keeps the counts and only appends operations |
| Reconstruction.CleanupLast | modules/reconstruction.py:270-274 | every successful run ends with remove_degenerate_triangles, remove_duplicated_triangles, remove_duplicated_vertices and compute_vertex_normals, in that order |
| Reconstruction.SmoothingIff | modules/reconstruction.py:257-262 | smoothing is the first added operation exactly when smoothing_iterations > 0, with that iteration count, and it never appears later |
| Reconstruction.DecimationIff | modules/reconstruction.py:264-268 | decimation happens exactly when the target is positive and the mesh has more triangles than the target, and then just before the clean-up |
| Reconstruction.DecimationStepsIff | modules/reconstruction.py:265-267 | there is at most one decimation call, and it is made exactly when the target is positive and below the triangle count |
| Reconstruction.IncomparableSettingRaises | modules/reconstruction.py:258-259 | a smoothing_iterations value that cannot be compared with 0 stops post-processing with TypeError |
| Reconstruction.ExtractMesh | modules/reconstruction.py:211-235 | without a grid the result is the dummy mesh with no vertices; with a grid, a truthy "post_processing" entry that is not a dict raises, an enabled section gives exactly the post-processing result, and otherwise the extracted mesh comes back unchanged; extraction fails if and only if the section is a truthy non-dict or it is enabled and post-processing a mesh with vertices raises |
| Reconstruction.PostProcessingGate | modules/reconstruction.py:229-233 | a grid mesh with vertices is post-processed exactly when post_processing.enable is present and truthy; a missing "enable" counts as False |
| Reconstruction.DefaultPostProcessing | modules/reconstruction.py:229-274 | under the default configuration, a mesh with vertices gets five smoothing iterations, decimation to 100000 triangles only above that count, then the clean-up |
| QuestPipeline.Intrinsics | modules/quest_reconstruction_pipeline.py:46-62 | the intrinsics are [[fx, 0, cx], [0, fy, cy], [0, 0, 1]], read from the camera's "intrinsics" object with defaults 867 and 640; they exist exactly when both entries are dicts and the four values are numeric |
| QuestPipeline.DefaultIntrinsics | modules/quest_reconstruction_pipeline.py:46-62 | a camera without metadata gets fx = fy = 867 and cx = cy = 640 |
| QuestPipeline.StoredIntrinsics | modules/quest_reconstruction_pipeline.py:50-62 | numeric fx, fy, cx, cy in the metadata are used as they are |
| QuestPipeline.TranslationOf | modules/quest_reconstruction_pipeline.py:154-167 | an accepted translation always has three components; a number is broadcast to all three, a list of three floats is copied, and a value that is neither a number nor a list is refused |
| QuestPipeline.Extrinsics | modules/quest_reconstruction_pipeline.py:144-169 | the extrinsic is [I \| t], with t the metadata translation when present and [∓0.032, 0, 0] otherwise; it fails exactly when the camera entry is not a dict or its translation is malformed |
| QuestPipeline.DefaultExtrinsics | modules/quest_reconstruction_pipeline.py:144-169 | without a "translation" entry, the rotation block is the identity, the translation is [-0.032, 0, 0] for "left" and [0.032, 0, 0] for every other camera, and the bottom row is [0, 0, 0, 1] |
| QuestPipeline.CamerasToProcess | modules/quest_reconstruction_pipeline.py:200 | the camera list is ["left", "right"] for "both" and [camera] otherwise, with no camera twice |
| QuestPipeline.StrideForward | modules/quest_reconstruction_pipeline.py:216 | for k > 0, element j of `s[::k]` is s[j·k], and the stride stops at the first multiple of k past the end |
| QuestPipeline.Stride | modules/quest_reconstruction_pipeline.py:216 | `frames[::k]` raises exactly for k = 0; for k > 0 element j is frames[j·k]; for k < 0 it is frames[n-1-j·abs(k)]; for either sign the stride runs until the next step would pass the end |
| QuestPipeline.StrideVisitsMultiples | modules/quest_reconstruction_pipeline.py:216 | a positive stride visits every index m·k below the length, as its m-th element |
| QuestPipeline.StrideAt | modules/quest_reconstruction_pipeline.py:216 | the j-th frame of a positive stride is frames[j·k] |
| QuestPipeline.Progress | modules/quest_reconstruction_pipeline.py:217-219 | the progress of step i of n is ⌊(i+1)·100/n⌋ and lies between 0 and 100 |
| QuestPipeline.ProgressMonotone | modules/quest_reconstruction_pipeline.py:217-219 | progress never decreases from one step to a later one |
| QuestPipeline.ProgressFinal | modules/quest_reconstruction_pipeline.py:217-219 | the last step reports 100 |
| QuestPipeline.NewPipeline | modules/quest_reconstruction_pipeline.py:16-37 | with Open3D, a bad "reconstruction" section raises before a missing frames.json is noticed; the pipeline exists exactly when frames.json exists and, with Open3D, the reconstructor can be built; it holds the document's frames and camera metadata |
| QuestPipeline.IntrinsicsMap | modules/quest_reconstruction_pipeline.py:202 | the intrinsics map exists exactly when every listed camera's intrinsics do, and holds them; otherwise the error is one camera's error |
| QuestPipeline.ExtrinsicsMap | modules/quest_reconstruction_pipeline.py:203 | the extrinsics map exists exactly when every listed camera's extrinsics do, and holds them; otherwise the error is one camera's error |
| QuestPipeline.PrepareCameras | modules/quest_reconstruction_pipeline.py:200-203 | a prepared setup covers exactly the camera list, with intrinsics and a 4 x 4 extrinsic for each camera |
| QuestPipeline.PrepareCamerasIff | modules/quest_reconstruction_pipeline.py:200-203 | preparation succeeds exactly when every camera's intrinsics and extrinsics can be computed, and holds those matrices; a failing intrinsic is raised before any extrinsic |
| QuestPipeline.PrepareRun | modules/quest_reconstruction_pipeline.py:200-216 | before the loop, a camera error comes first and a zero frame_interval second; a prepared run holds the camera setup, `frames[::frame_interval]`, and for each pair the images `process_quest_frame` reads |
| QuestPipeline.IntegrationsSound | modules/quest_reconstruction_pipeline.py:216-258 | every integration of the first i steps belongs to a step already taken and a listed camera, and is exactly what that pair produces |
| QuestPipeline.IntegrationsComplete | modules/quest_reconstruction_pipeline.py:216-258 | every pair of a step already taken that has colour and depth and integrates without raising has been integrated |
| QuestPipeline.CompletedLoop | modules/quest_reconstruction_pipeline.py:213-263 | a loop that took every step has one progress value per step, processed + failed = steps · cameras, and as integrations exactly the pairs that integrate |
| QuestPipeline.IntegrateCameras | modules/quest_reconstruction_pipeline.py:231-263 | for one step, each camera gives either one integration or one failure; the integrations are the step's successful pairs, in camera order |
| QuestPipeline.FrameLoop | modules/quest_reconstruction_pipeline.py:213-263 | progress is reported before each step's pose is built, and a pose that cannot be built ends the loop at that step; the loop completes exactly when every head pose builds, and then processed + failed = steps · cameras |
| QuestPipeline.ReconstructFrom | modules/quest_reconstruction_pipeline.py:216-272 | after the loop, the run crashes only on a malformed pose or a failing mesh extraction; otherwise it finishes with the extracted mesh and the loop's full accounting |
| QuestPipeline.RunReconstruction | modules/quest_reconstruction_pipeline.py:171-315 | without a reconstructor the result is None and nothing is processed; a camera or stride error crashes the run before the loop, with no progress reported and nothing integrated; with `on_log` given, an "export" entry that is missing or not a dict crashes the run after a successful extraction; a finished run returns the mesh, the processed and failed counts, one progress value per step, and exactly the integrations of the pairs that have colour and depth |
| QuestPipeline.CameraWorldPose | modules/quest_reconstruction_pipeline.py:246-257 | with an extrinsic [I \| t], the pose passed to integrate_frame has the head's rotation, and its origin is the head position plus the head rotation applied to t |

## Left out

- Reading and writing files is not modelled: CSV, JSON and YAML parsing, `load_config`/`save_config`, the write of frames.json, and the `save_config` call inside `set`. Parsed contents and directory listings are inputs.
- Colour conversion is left out: the chroma upsampling (`cv2.resize` with INTER_LINEAR) and `cv2.cvtColor`. A decoded frame carries the three YUV planes it is made from.
- Float32 decoding of depth samples is left out, because it is IEEE. Each sample is kept as its four bytes.
- ResizeNearest: uses the exact integer index ⌊r·h/height⌋. OpenCV computes the scale in floating point, and the two may differ at rare boundaries.
- The near_z, far_z and fov fields of a descriptor row are read by the source but never used; the model carries them unused.
- Open3D is opaque:
  - VoxelBlockGrid creation and the CUDA probe in `QuestReconstructor.__init__`;
  - `integrate_frame`, except its block-key rule. Which pairs raise inside it is an input set;
  - `extract_triangle_mesh`. The vertex and triangle counts are inputs;
  - the smoothing, decimation and clean-up filters. Post-processing is the list of operations applied.
- PostProcessMesh: assumes Laplacian smoothing keeps the triangle count, which the decimation condition then reads.
- PostProcessMesh: the `remove_outliers` branch is a no-op (`pass`) in the source, so it adds no step.
- BlockKey: the cast of block coordinates to int32 is not modelled. A zero block size divides by zero in the source and is excluded by the precondition.
- Progress: computes ⌊(i+1)·100/n⌋ exactly. The source computes `int((i + 1) / n * 100)` in floating point, which can round one lower, for example 29/100 times 100.
- Intrinsics: treats None and numeric strings as not numeric (IntrinsicNotNumeric). NumPy would turn None into NaN and parse numeric strings.
- TranslationOf: accepts only a number, a one-element list or a three-element flat list of numbers. Numeric strings and nested arrays, which NumPy may broadcast, count as malformed. Its ensures spells out only the number case and the three-float case.
- ToFloat: numeric strings, which `float()` parses, are treated as not convertible.
- ToInt: numeric strings, which `int()` parses, are treated as not convertible.
- Logging is not modelled: every `on_log` message and its cadence, and the prints of the image processor and the reconstructor.
- The export after extraction is modelled only as far as it decides the outcome: with `on_log` given, reading the "export" settings (lines 279-280) raises AttributeError when the entry is missing or not a dict, outside any try. The mesh save and the thumbnail (lines 283-305) are not modelled; they sit inside their own try, and since `o3d` is not imported in the pipeline module the save raises NameError there and is caught, so they never change the outcome.
- The first `run_reconstruction` (line 106) is not modelled. The second definition at line 171 overrides it.
- `AsyncQuestReconstruction` (the background thread) and the GUI are not modelled.
- `extract_point_cloud` is not modelled, because the pipeline never calls it.
- frames.json records are typed here. A frame missing its "pose" or "cameras" keys, which would raise KeyError in the source, cannot be expressed.
- `ConfigManager` keeps `DEFAULT_CONFIG` itself as its live configuration when config.yml is missing, so a later `set` mutates the module constant. Values are immutable here, so this aliasing is not modelled.
- Run.images: the frame loop reads each pair's images through this field. PrepareRun ensures it equals `process_quest_frame` on the project's files (`ImagesFromProject`).
