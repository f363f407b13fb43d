# vrHouse conversion pipeline, modelled in Dafny

vrHouse turns an architectural 3D model file (IFC, FBX, OBJ, glTF/GLB,
Revit) into an encrypted "VR scene" package. A conversion run goes through
a fixed sequence of stages. Each stage is announced to an optional progress
callback before it runs:

1. validate the source path against the importer registry;
2. import the file as a scene graph: a map from node id to attribute map,
   holding a single `"root"` node;
3. geometry optimisation: mark the root `geometry_optimized="true"`;
4. optionally, AI material enhancement: give every non-root node a default
   `material`, and mark a `metadata` node `materials="generated"`;
5. optionally, physics inference;
6. scene assembly;
7. export: write the package `<project>.vrpkg`, encrypted under the
   supplied key, or under a generated key that is then written to
   `<project>.key`.

The project models this core in seven modules, one per source file plus a
small `Wrappers` module (Option, Result, Outcome):

- `Core` models `core.py`: the specification, asset and scene records with
  their defaults, and one `Failure` type for every error a run can end with.
  Only `PipelineError` is declared in `core.py`. `ImporterError` comes from
  `multi_importer.py`, `FileNotFoundError` is Python's built-in exception,
  and `InvalidKeyError` stands for the `ValueError` that Fernet raises on a
  malformed key.
- `MultiImporter` models `multi_importer.py`:
  - suffix extraction and ASCII lower-casing;
  - the stub importers;
  - the ordered registry and its listing;
  - first-match selection, written both as a value function `Select` and as
    the `MultiFormatImporter` class, whose `SelectImporter` loop is proved
    equal to `Select`.
- `GeometryOptimizer` models `geometry_optimizer.py`, as a pure function on
  graph values.
- `MaterialEnhancer` models `material_enhancer.py`:
  - node attribute maps are heap objects (`Node`), because the source's copy
    is shallow and the stage updates the caller's node maps in place;
  - the `Enhance` method is proved against the value function `Enhanced`
    when no node object appears under two ids;
  - its effect on arbitrarily aliased graphs is stated node by node.
- `SceneBuilder` models `vr_scene_builder.py`:
  - key resolution;
  - `build`;
  - `export_package` over a `Disk` value (a directory set and a map from
    file path to bytes);
  - UTF-8 coding, JSON serialisation and the Fernet cipher are opaque
    functions of a `Primitives` value.
- `Runner` models `runner.py`:
  - `RunConversion` runs the stages in order and appends each announced
    `Stage` to a trace;
  - it is proved equal to the value-level `Conversion`;
  - its trace is proved to be the prefix of the planned stages that the
    outcome reached;
  - lemmas prove properties of the plan: the order of progress values, the
    two gates, where each failure stops, and the fields of the result.

Points of the code's behaviour worth noting:

- The unsupported-extension message lists the suffixes in registration
  order (`.ifc, .fbx, .obj, .gltf, .glb, .rvt`), not sorted.
- That message always lists the global registry, even for a custom importer
  list.
- The runner itself never emits a negative-progress event. The GUI worker
  does that (`src/vrhouse/ui/app.py:144`), and it is not part of this model.
- The final report is `(100, "Conversão concluída")`.
- `_ensure_key_bytes` is modelled as `SceneBuilder.EnsureKeyBytes`, but
  `export_package` does not call it. It pairs the key text with its UTF-8
  encoding inline (`vr_scene_builder.py:56`), and `ExportOutcome` does the
  same.
- The runner builds its exporter without a key factory, so a key it
  generates comes from `Fernet.generate_key`, which the cipher always
  accepts. The model takes that acceptance as a hypothesis
  (`Runner.GeneratedKeyRunSucceeds`), not as a property of the primitives.

## Model

| member | source | states |
|---|---|---|
| Core.SpecificationDefaults | src/vrhouse/core.py:18-29 | A specification built from project name and source file alone has no assets, the platforms `meta-quest, htc-vive, pimax`, physics and AI realism on, and no notes or key |
| Core.MetadataDefaults | src/vrhouse/core.py:9-39 | An asset reference and a VR scene built without metadata carry the empty map |
| GeometryOptimizer.Optimize | src/vrhouse/pipeline/processors/geometry_optimizer.py:12-19 | Fails with PipelineError "Scene graph missing root node" exactly when there is no root; otherwise same ids, non-root nodes unchanged, root gains `geometry_optimized="true"` (overwriting) and keeps every other attribute |
| GeometryOptimizer.OptimizeIdempotent | src/vrhouse/pipeline/processors/geometry_optimizer.py:17-18 | On a graph with a root, optimizing the optimized graph gives the same graph |
| MultiImporter.LastIndexOf | src/vrhouse/pipeline/importers/multi_importer.py:96 | Returns the last position of the character, or -1 when it does not occur, and no later position holds it |
| MultiImporter.TrimTrailingSeparators | src/vrhouse/pipeline/importers/multi_importer.py:96 | The result is a prefix of the path that does not end in '/', and everything removed is '/' |
| MultiImporter.FileName | src/vrhouse/pipeline/importers/multi_importer.py:96 | The final path component contains no separator |
| MultiImporter.FileNameIsLastComponent | src/vrhouse/pipeline/importers/multi_importer.py:96 | The final component is the end of the trimmed path, preceded by '/' unless it is the whole trimmed path |
| MultiImporter.FileNameOfPath | src/vrhouse/pipeline/importers/multi_importer.py:96 | A non-empty name without '/' is its own final component, alone or behind any directory |
| MultiImporter.Suffix | src/vrhouse/pipeline/importers/multi_importer.py:96 | The suffix is empty, or a dot followed by at least one character, with no further dot or separator |
| MultiImporter.SuffixOfFileName | src/vrhouse/pipeline/importers/multi_importer.py:96 | A non-empty stem followed by a dotted extension has exactly that extension as its suffix |
| MultiImporter.LastDotOfExtension | src/vrhouse/pipeline/importers/multi_importer.py:96 | The dot opening a dotted extension is the last dot of stem and extension together |
| MultiImporter.SuffixOfPath | src/vrhouse/pipeline/importers/multi_importer.py:96 | The same file name behind any directory `dir + "/"` has the same extension as suffix |
| MultiImporter.NoSuffix | src/vrhouse/pipeline/importers/multi_importer.py:96 | A final component without a dot ("house"), with only a leading dot (".obj") or ending in a dot ("house.") has the empty suffix, alone or behind a directory |
| MultiImporter.LowerChar | src/vrhouse/pipeline/importers/multi_importer.py:96 | An ASCII capital becomes its lower-case letter (code point plus 32), the result is never a capital, and any other character is kept |
| MultiImporter.Lower | src/vrhouse/pipeline/importers/multi_importer.py:96 | Lower-casing keeps the length and lower-cases each character in place |
| MultiImporter.LowerIdempotent | src/vrhouse/pipeline/importers/multi_importer.py:96 | Lower-casing twice is lower-casing once |
| MultiImporter.AssetsForSuffix | src/vrhouse/pipeline/importers/multi_importer.py:47-59 | The if-chain agrees with the fixed suffix-to-assets table, with `["generic-assets"]` for any other suffix |
| MultiImporter.RequiredAssetsFromTable | src/vrhouse/pipeline/importers/multi_importer.py:44-59 | `_infer_required_assets` (StubImporter.InferRequiredAssets): the table entry of the lower-cased suffix, or `["generic-assets"]` when the suffix is not in the table |
| MultiImporter.UpperCaseSuffixAssets | src/vrhouse/pipeline/importers/multi_importer.py:47-48 | A path whose suffix is ".GLTF" needs the lower-case entry `["gltf-binary", "pbr-textures"]` |
| MultiImporter.StubImporter.RootNode | src/vrhouse/pipeline/importers/multi_importer.py:36-41 | The root has exactly four attributes: `type="scene"`, `origin_file`, `format` and the `required_assets` list |
| MultiImporter.StubImporter.Load | src/vrhouse/pipeline/importers/multi_importer.py:31-42 | Fails with FileNotFoundError "Source file not found: …" exactly when the file is missing; otherwise a graph whose only id is "root", holding that root node with the inferred assets |
| MultiImporter.IterSupportedSuffixes | src/vrhouse/pipeline/importers/multi_importer.py:77-79 | The loop yields the registry's suffixes importer by importer: `.ifc, .fbx, .obj, .gltf, .glb, .rvt` |
| MultiImporter.RegistrySuffixes | src/vrhouse/pipeline/importers/multi_importer.py:62-74 | The registry's suffixes, in registration order, are `.ifc, .fbx, .obj, .gltf, .glb, .rvt` |
| MultiImporter.FirstMatch | src/vrhouse/pipeline/importers/multi_importer.py:100-102 | Returns the earliest importer index accepting the suffix; when it returns none, no importer accepts it |
| MultiImporter.Select | src/vrhouse/pipeline/importers/multi_importer.py:95-105 | An empty lower-cased suffix gives the no-extension ImporterError; a success is the earliest importer accepting the lower-cased suffix; any other failure means no importer accepts it and carries the unsupported-type message |
| MultiImporter.LoadWith | src/vrhouse/pipeline/importers/multi_importer.py:88-90 | A selection error is passed on; loading succeeds exactly when an importer is selected and the file exists; a missing file gives FileNotFoundError; a loaded graph has only the id "root" |
| MultiImporter.MultiFormatImporter.constructor | src/vrhouse/pipeline/importers/multi_importer.py:85-86 | A missing or empty importer list falls back to the global registry; any other list is used as given |
| MultiImporter.MultiFormatImporter.Load | src/vrhouse/pipeline/importers/multi_importer.py:88-90 | Loading is selection over the object's list followed by the selected importer's load |
| MultiImporter.MultiFormatImporter.ValidateSourcePath | src/vrhouse/pipeline/importers/multi_importer.py:92-93 | Validation passes exactly when selection succeeds, and otherwise fails with the selection's error |
| MultiImporter.MultiFormatImporter.SelectImporter | src/vrhouse/pipeline/importers/multi_importer.py:95-105 | The early-return loop over the importer field gives what `Select` specifies |
| MultiImporter.UnsupportedMessage | src/vrhouse/pipeline/importers/multi_importer.py:104-105 | The unsupported-type message names the suffix and lists `.ifc, .fbx, .obj, .gltf, .glb, .rvt` joined by ", ", in registration order |
| MultiImporter.RegistrySuffixesUnique | src/vrhouse/pipeline/importers/multi_importer.py:62-74 | No suffix of the global registry belongs to two importers |
| MultiImporter.RegistryAccepts | src/vrhouse/pipeline/importers/multi_importer.py:95-105 | The global registry accepts a path exactly when its lower-cased suffix is one of the listed suffixes |
| MultiImporter.GltfSuffixesShareImporter | src/vrhouse/pipeline/importers/multi_importer.py:65-74 | `.gltf` and `.glb`, in any case, both select the one importer whose format is "gltf" |
| MultiImporter.SelectFirstMatch | src/vrhouse/pipeline/importers/multi_importer.py:100-102 | The earliest importer of any list that accepts the suffix is the one selected |
| MultiImporter.ObjSuffixSelectsObj | src/vrhouse/pipeline/importers/multi_importer.py:96 | A path whose suffix is ".obj", such as "house.obj", selects the OBJ importer |
| MultiImporter.UpperCaseSuffixSelectsObj | src/vrhouse/pipeline/importers/multi_importer.py:96 | A path whose suffix is ".OBJ" selects the OBJ importer |
| MultiImporter.SelectUnsupported | src/vrhouse/pipeline/importers/multi_importer.py:104-105 | A non-empty suffix that no importer of the list accepts fails with the unsupported-type message |
| MultiImporter.CustomListReportsGlobalRegistry | src/vrhouse/pipeline/importers/multi_importer.py:104 | A custom list holding only the OBJ importer rejects ".ifc" with the message listing the global registry |
| MultiImporter.ValidateSourcePath | src/vrhouse/pipeline/importers/multi_importer.py:108-111 | Module-level validation passes exactly when the global registry selects an importer, and otherwise reports that selection's error |
| MaterialEnhancer.Node.constructor | src/vrhouse/pipeline/processors/material_enhancer.py:10 | A node object holds the attribute map it was made with |
| MaterialEnhancer.WithDefaultMaterial | src/vrhouse/pipeline/processors/material_enhancer.py:16 | `setdefault("material", "ai-generated")`: adds the key only when missing and keeps every existing value |
| MaterialEnhancer.Enhanced | src/vrhouse/pipeline/processors/material_enhancer.py:9-19 | The ids become the input ids plus "metadata": root unchanged; every other node default-filled; an existing metadata node filled then marked `materials="generated"`; a missing one created holding only the marker |
| MaterialEnhancer.EnhancedKeepsMaterials | src/vrhouse/pipeline/processors/material_enhancer.py:16 | A material a node already declares is kept |
| MaterialEnhancer.EnhancedFillsMaterials | src/vrhouse/pipeline/processors/material_enhancer.py:13-16 | Every non-root node ends with a material, "ai-generated" when it had none |
| MaterialEnhancer.EnhancedMarksMetadata | src/vrhouse/pipeline/processors/material_enhancer.py:17-18 | The metadata node carries the marker and keeps its other attributes; a newly created metadata node has no material |
| MaterialEnhancer.EnhancedIdempotentWithMetadata | src/vrhouse/pipeline/processors/material_enhancer.py:13-18 | With a metadata node already present, a second run changes nothing |
| MaterialEnhancer.EnhancedTwiceWithoutMetadata | src/vrhouse/pipeline/processors/material_enhancer.py:13-18 | Without one, a second run only adds the default material to the metadata node created by the first |
| MaterialEnhancer.FillMaterials | src/vrhouse/pipeline/processors/material_enhancer.py:13-16 | The loop default-fills, in place, exactly the node objects held under non-root ids |
| MaterialEnhancer.MarkMetadata | src/vrhouse/pipeline/processors/material_enhancer.py:17-18 | Adds "metadata" to the ids: an existing metadata object gets the marker in place, otherwise a fresh node holding only the marker is added; other objects are untouched |
| MaterialEnhancer.Enhance | src/vrhouse/pipeline/processors/material_enhancer.py:9-19 | The result holds the caller's node objects under the same ids, and the caller's maps are updated in place; with distinct node objects, the result's contents are `Enhanced` of the caller's old contents |
| MaterialEnhancer.EnhanceOwned | src/vrhouse/pipeline/processors/material_enhancer.py:9-19 | The stage run on node objects nobody else holds returns `Enhanced` of its input |
| SceneBuilder.Disk.Mkdir | src/vrhouse/pipeline/exporters/vr_scene_builder.py:50 | Adds the directory (no error when it exists) and leaves the files alone |
| SceneBuilder.Disk.Write | src/vrhouse/pipeline/exporters/vr_scene_builder.py:69 | Creates or overwrites one file and changes nothing else |
| SceneBuilder.EnsureKeyBytes | src/vrhouse/pipeline/exporters/vr_scene_builder.py:13-16 | Text gives (text, its encoding); bytes give (their decoding, the bytes) |
| SceneBuilder.EnsureKeyBytesAgree | src/vrhouse/pipeline/exporters/vr_scene_builder.py:13-16 | When decoding undoes encoding, and bytes given are well-formed, each half of the pair is the other's encoding or decoding |
| SceneBuilder.Build | src/vrhouse/pipeline/exporters/vr_scene_builder.py:25-45 | The specification, graph and profile are passed through unchanged; the metadata is exactly `{exporter: "vr-scene-builder", project: <project name>}` |
| SceneBuilder.BuiltPayload | src/vrhouse/pipeline/exporters/vr_scene_builder.py:59-64 | A built scene's payload holds exactly the project name, the graph, the profile and the exporter metadata |
| SceneBuilder.PackageAndKeyPathsDiffer | src/vrhouse/pipeline/exporters/vr_scene_builder.py:68-73 | The package path and the key path never coincide |
| SceneBuilder.SealedPayloadOnly | src/vrhouse/pipeline/exporters/vr_scene_builder.py:59-66 | The package bytes (`Sealed`) depend on the scene only through project name, graph, profile and metadata: scenes agreeing on those seal to the same bytes under the same key |
| SceneBuilder.ExportOutcome | src/vrhouse/pipeline/exporters/vr_scene_builder.py:47-75 | The directory is always created. A key the cipher rejects fails with InvalidKeyError and writes no file. Otherwise: returns (package path, key); the package holds the encrypted payload; the key file holds the key only when the key was generated; all other files are kept |
| SceneBuilder.ResolvedKey | src/vrhouse/pipeline/exporters/vr_scene_builder.py:52-54 | The supplied key when there is one, otherwise the decoded output of the key factory |
| SceneBuilder.VRSceneBuilder.constructor | src/vrhouse/pipeline/exporters/vr_scene_builder.py:22-23 | Keeps a supplied key factory, otherwise the cipher's key generator |
| SceneBuilder.VRSceneBuilder.ExportPackage | src/vrhouse/pipeline/exporters/vr_scene_builder.py:47-75 | The step-by-step export gives the result and disk of `ExportOutcome` under the resolved key |
| SceneBuilder.SuppliedKeyIgnoresFactory | src/vrhouse/pipeline/exporters/vr_scene_builder.py:52-54 | A supplied key is used verbatim, whatever the key factory |
| Runner.PlanEntries | src/vrhouse/pipeline/runner.py:33-57 | The plan is validation, import, geometry, [materials], [physics], composition, export, completion, with its length and each position |
| Runner.EventsReached | src/vrhouse/pipeline/runner.py:33-57 | The number of reports made is the plan's length exactly when the run succeeds, and less on a failure |
| Runner.SuccessReportsWholePlan | src/vrhouse/pipeline/runner.py:33-57 | A successful run with a callback observes exactly the planned reports, with strictly rising progress, ending with the completion report (100, "Conversão concluída") |
| Runner.EmitNext | src/vrhouse/pipeline/runner.py:23-25 | Emitting the next planned stage extends the observed prefix by one (nothing is observed without a callback) |
| Runner.ProfileFor | src/vrhouse/pipeline/runner.py:46-49 | The profile is the empty map when physics is off and the model's prediction when it is on |
| Runner.Refined | src/vrhouse/pipeline/runner.py:39-44 | Fails with the missing-root PipelineError exactly when there is no root; otherwise the ids gain "metadata" only with AI realism on, the root is marked optimized, and the metadata node carries the marker |
| Runner.StagedGraph | src/vrhouse/pipeline/runner.py:33-44 | The first stages succeed exactly when the registry accepts the extension and the file exists; their failures are ImporterError or FileNotFoundError |
| Runner.Finished | src/vrhouse/pipeline/runner.py:46-62 | The last stages succeed exactly when the cipher accepts the resolved key (else InvalidKeyError), returning the built scene with the gated profile, the package path and the key; the output directory is created either way |
| Runner.Conversion | src/vrhouse/pipeline/runner.py:33-62 | After the first stages succeed, the run succeeds exactly when the cipher accepts the resolved key; an earlier failure is passed on with the disk untouched |
| Runner.ImportSource | src/vrhouse/pipeline/runner.py:33-37 | Validation then load against the global registry: the result is `LoadWith`, fails only with ImporterError or FileNotFoundError, and reports one stage when validation fails, else two |
| Runner.RefineScene | src/vrhouse/pipeline/runner.py:39-44 | Geometry then the gated material stage: the result is `Refined`, fails only with PipelineError, and the material stage is reported only when it runs |
| Runner.FinishScene | src/vrhouse/pipeline/runner.py:46-62 | Physics (gated), build and export: the result and disk are `Finished`, and the trace is the plan up to where the outcome stopped |
| Runner.RunConversion | src/vrhouse/pipeline/runner.py:16-62 | The run's result and disk are `Conversion` of the staged graph; the callback sees the prefix of the plan the outcome reached, and nothing without a callback |
| Runner.ValidationFailure | src/vrhouse/pipeline/runner.py:33-37 | A path the registry rejects makes the import fail with the registry's ImporterError |
| Runner.PlanRanksIncrease | src/vrhouse/pipeline/runner.py:33-57 | Every plan lists stages in strictly increasing stage order |
| Runner.PlanEnds | src/vrhouse/pipeline/runner.py:33-57 | A full run opens with (5, "Validando arquivo de origem") and ends with (100, "Conversão concluída") |
| Runner.ProgressFollowsRank | src/vrhouse/pipeline/runner.py:33-57 | A later stage reports more progress |
| Runner.PlanProgressIncreases | src/vrhouse/pipeline/runner.py:33-57 | The progress values of a full run rise strictly |
| Runner.ReportProgress | src/vrhouse/pipeline/runner.py:33-57 | Every report's progress is one of 5, 20, 35, 50, 65, 80, 95, 100; only the material stage reports 50, and only physics 65 |
| Runner.PlanGates | src/vrhouse/pipeline/runner.py:42-49 | The material stage is planned exactly when AI realism is on, the physics stage exactly when physics is on |
| Runner.FailureNeverCompletes | src/vrhouse/pipeline/runner.py:54-57 | A failed run never makes the completion report |
| Runner.EarlyFailureReportsLittle | src/vrhouse/pipeline/runner.py:33-44 | A run that stops in validation, import or geometry reports no progress of 50 or more |
| Runner.ConversionResultFields | src/vrhouse/pipeline/runner.py:46-62 | A successful result holds the built scene (with the predicted profile when physics is on, otherwise the empty map), the package path and the resolved key |
| Runner.PhysicsProfileKeys | src/vrhouse/pipeline/ai/physics_model.py:15-19 | With a physics model predicting `gravity_scale`, `friction_coefficient` and `mass_distribution`, a successful run's profile has exactly those keys when physics is on and none when it is off |
| Runner.GeneratedKeyRunSucceeds | src/vrhouse/pipeline/runner.py:31-62 | With no key supplied and a generated key the cipher accepts, a run whose first stages succeed completes; it adds exactly the package and the key file to the disk, and the key file holds the returned key |
| Runner.GeneratedKeyRunOnEmptyDisk | src/vrhouse/pipeline/exporters/vr_scene_builder.py:50-75 | From an empty disk, such a run leaves only the target directory, the package and the key file |
| Runner.HouseObjSelectsObj | src/vrhouse/pipeline/importers/multi_importer.py:96 | "house.obj" selects the OBJ importer of the global registry |
| Runner.DemoImportSucceeds | src/vrhouse/pipeline/runner.py:33-44 | The first stages of the "demo" run on an existing "house.obj" succeed |
| Runner.DemoRunWritesPackageAndKey | src/vrhouse/pipeline/runner.py:27-62 | The default "demo" run on "house.obj" into "out" from an empty disk, with an accepted generated key, succeeds and writes exactly "out/demo.vrpkg" and "out/demo.key" |
| Runner.InvalidKeyStopsAtExport | src/vrhouse/pipeline/runner.py:54-57 | A rejected key fails after the export report, with the directory created and no file written |
| Runner.UnsupportedExtensionStopsAtValidation | src/vrhouse/pipeline/runner.py:33-37 | An unsupported extension fails with only the validation report made, so nothing is loaded |
| Runner.MissingSourceStopsAtImport | src/vrhouse/pipeline/runner.py:36-37 | A missing source file fails with FileNotFoundError after the import report |
| Runner.RefinedShape | src/vrhouse/pipeline/runner.py:39-44 | An imported root-only graph becomes the optimized root plus, with AI realism on, a metadata node holding only the marker |
| Runner.RefinedHasNoMaterial | src/vrhouse/pipeline/runner.py:39-44 | After those stages, no node of such a graph has a material unless the root had one |
| Runner.ImportedRootHasNoMaterial | src/vrhouse/pipeline/importers/multi_importer.py:35-42 | An imported root node has no `material` attribute |
| Runner.StagedGraphHasNoMaterial | src/vrhouse/pipeline/runner.py:36-44 | In a real run no node of the staged graph has a material: the stage skips the root and creates the metadata node after its loop |

## Left out

- The desktop GUI (`ui/app.py`), the command line (`cli.py`) and the package re-exports are not part of this model. The GUI also owns the negative-progress error event.
- The physics model (`physics_model.py`) is a placeholder returning three constants. It enters the runner as the `predict` parameter.
- Fernet encryption, Fernet key generation, JSON serialisation and UTF-8 coding are library calls. They are opaque functions of `SceneBuilder.Primitives` (plus the `generateKey` parameter). Decryption is not modelled, so no model round trip through the cipher is stated. Encryption is a function, so its random nonce is not modelled.
- The key factory is a deterministic function: two calls give the same bytes.
- SceneBuilder.EnsureKeyBytes: a UnicodeDecodeError on malformed bytes is not modelled, because decoding is an opaque total function.
- MultiImporter.Lower: lower-cases only the ASCII letters A-Z, not the full Unicode case mapping of Python's `str.lower`.
- MultiImporter.Suffix: follows the classic pathlib rule on the last path component, after trailing '/' are trimmed. Paths are plain text: no normalisation, no drive letters and no `\` separators. `SceneBuilder.Child` joins with "/".
- The filesystem is a `Disk` value:
  - file existence is the `sourceExists` predicate;
  - there are no I/O or permission errors;
  - mkdir's creation of parent directories is not modelled;
  - a project name that contains "/" is not treated specially.
- The `FormatImporter` protocol is modelled only through `StubImporter`: a custom importer list holds stub importers, not arbitrary objects or coroutines.
- MultiImporter.MultiFormatImporter.constructor: the argument is an optional sequence. Truthiness of arbitrary iterables, e.g. a generator, is not modelled.
- MaterialEnhancer.Enhance: visits the ids in an arbitrary order, not dict insertion order. The result does not depend on the order.
- Runner.RunConversion: runs the material stage through `EnhanceOwned` on fresh node objects, since the runner keeps no other reference to its graph. Sharing with the importer's dicts is therefore not observable in the model.
- Runner.RunConversion: progress is integer hundredths, not a float.
- Runner.RunConversion: the trace records the announced `Stage`s; `Runner.Report` gives the (progress, message) pair the callback receives.
- Runner.RunConversion: the callback is reduced to whether one was given (`hasCallback`). A callback that raises is not modelled.
- MultiImporter.StubImporter.Load: `origin_file` and the missing-file message hold the path text as given, not pathlib's normalised `str(Path)` ("./h.obj" is not turned into "h.obj", trailing '/' are kept).
- SceneBuilder.PackagePath and SceneBuilder.KeyPath: `Child` always joins with "/", so an empty or "." directory gives "/demo.vrpkg" or "./demo.vrpkg" where pathlib gives "demo.vrpkg", and a directory ending in '/' gets a doubled separator.
- The geometry stage's promise not to modify its input holds by construction: it works on values.
