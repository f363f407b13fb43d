/**
 * The conversion run: validation, import, geometry, the optional material
 * and physics stages, assembly and export, in that order, reporting
 * progress before each stage. The first stage that fails ends the run.
 */
module Runner {
  import opened Wrappers
  import opened Core
  import MultiImporter
  import GeometryOptimizer
  import MaterialEnhancer
  import SceneBuilder

  /** One progress report: the progress in hundredths, and the message shown with it. */
  datatype Event = Event(progress: nat, message: string)

  /** What a successful run returns. */
  datatype ConversionResult = ConversionResult(scene: VRScene, packagePath: string, encryptionKey: string)

  /** The stages a run announces, in the order it reaches them. */
  datatype Stage = Validation | Import | Geometry | Materials | Physics | Composition | Export | Completion

  /** The progress a stage's report carries, in hundredths. */
  function Progress(stage: Stage): nat
  {
    match stage
    case Validation => 5
    case Import => 20
    case Geometry => 35
    case Materials => 50
    case Physics => 65
    case Composition => 80
    case Export => 95
    case Completion => 100
  }

  /** The message a stage's report carries. */
  function Message(stage: Stage): string
  {
    match stage
    case Validation => "Validando arquivo de origem"
    case Import => "Carregando geometria base"
    case Geometry => "Otimizando geometria e malhas"
    case Materials => "Aplicando IA para realismo de materiais"
    case Physics => "Gerando perfil de física"
    case Composition => "Compondo cena VR criptografada"
    case Export => "Exportando pacote protegido"
    case Completion => "Conversão concluída"
  }

  /** The report announcing a stage, as the callback receives it. */
  function Report(stage: Stage): Event
  {
    Event(Progress(stage), Message(stage))
  }

  /** The stages a run announces when none fails, in order. */
  function PlannedStages(enableAiRealism: bool, enablePhysics: bool): seq<Stage>
  {
    [Validation, Import, Geometry]
      + (if enableAiRealism then [Materials] else [])
      + (if enablePhysics then [Physics] else [])
      + [Composition, Export, Completion]
  }

  /** The plan, entry by entry. */
  lemma PlanEntries(enableAiRealism: bool, enablePhysics: bool)
    ensures var plan := PlannedStages(enableAiRealism, enablePhysics);
      var ai := if enableAiRealism then 1 else 0;
      var physics := if enablePhysics then 1 else 0;
      && |plan| == 6 + ai + physics
      && plan[0] == Validation && plan[1] == Import && plan[2] == Geometry
      && (enableAiRealism ==> plan[3] == Materials)
      && (enablePhysics ==> plan[3 + ai] == Physics)
      && plan[3 + ai + physics] == Composition
      && plan[4 + ai + physics] == Export
      && plan[5 + ai + physics] == Completion
  {
  }

  /** How many of the planned reports a run with this outcome has made. */
  function EventsReached(plan: seq<Stage>, r: Result<ConversionResult, Failure>): (count: nat)
    requires |plan| >= 6
    ensures count <= |plan|
    ensures r.Success? <==> count == |plan|
  {
    match r
    case Success(_) => |plan|
    case Failure(ImporterError(_)) => 1
    case Failure(FileNotFoundError(_)) => 2
    case Failure(PipelineError(_)) => 3
    case Failure(InvalidKeyError) => |plan| - 1
  }

  /** The reports a caller sees: a prefix of the plan, or none without a callback. */
  function Observed(hasCallback: bool, plan: seq<Stage>, count: nat): seq<Stage>
    requires count <= |plan|
  {
    if hasCallback then plan[..count] else []
  }

  /** `emit`: hand a report to the callback, if there is one. */
  function Emit(events: seq<Stage>, hasCallback: bool, stage: Stage): seq<Stage>
  {
    if hasCallback then events + [stage] else events
  }

  /** Emitting the next planned report extends the observed prefix by one. */
  lemma EmitNext(events: seq<Stage>, hasCallback: bool, plan: seq<Stage>, count: nat, stage: Stage)
    requires count < |plan| && plan[count] == stage
    requires events == Observed(hasCallback, plan, count)
    ensures Emit(events, hasCallback, stage) == Observed(hasCallback, plan, count + 1)
  {
    if hasCallback {
      assert plan[..count + 1] == plan[..count] + [plan[count]];
    }
  }

  /** The parameters the physics model predicts. */
  const PhysicsParameters: set<string> := {"gravity_scale", "friction_coefficient", "mass_distribution"}

  /** The physics profile of a run: the model's prediction, or empty when physics is off. */
  function ProfileFor(specification: SceneSpecification, predict: SceneSpecification -> PhysicsProfile): (profile: PhysicsProfile)
    ensures !specification.enablePhysics ==> profile == map[]
    ensures specification.enablePhysics ==> profile == predict(specification)
  {
    if specification.enablePhysics then predict(specification) else map[]
  }

  /**
   * The scene graph after geometry and, when enabled, materials: it fails
   * exactly when there is no root; otherwise the root is marked optimized
   * and, with AI realism on, a marked metadata node is added.
   */
  function Refined(specification: SceneSpecification, loaded: SceneGraph): (r: Result<SceneGraph, Failure>)
    ensures r.Failure? <==> RootId !in loaded
    ensures r.Failure? ==> r.error == PipelineError(GeometryOptimizer.MissingRootMessage)
    ensures r.Success? ==>
      r.value.Keys == loaded.Keys + (if specification.enableAiRealism then {MaterialEnhancer.MetadataId} else {})
    ensures r.Success? ==> r.value[RootId] == loaded[RootId][GeometryOptimizer.OptimizedFlag := Str("true")]
    ensures r.Success? && specification.enableAiRealism ==>
      && MaterialEnhancer.MaterialsKey in r.value[MaterialEnhancer.MetadataId]
      && r.value[MaterialEnhancer.MetadataId][MaterialEnhancer.MaterialsKey] == Str(MaterialEnhancer.GeneratedMarker)
  {
    match GeometryOptimizer.Optimize(loaded)
    case Failure(e) => Failure(e)
    case Success(optimized) =>
      Success(if specification.enableAiRealism then MaterialEnhancer.Enhanced(optimized) else optimized)
  }

  /**
   * The scene graph after import, geometry and (when enabled) materials.
   * It exists exactly when the registry accepts the extension and the file
   * exists: geometry never fails on an imported graph, and the failures are
   * those of the import.
   */
  function StagedGraph(specification: SceneSpecification, sourceExists: string -> bool): (r: Result<SceneGraph, Failure>)
    ensures r.Success? <==>
      MultiImporter.Select(MultiImporter.SupportedImporters, specification.sourceFile).Success?
      && sourceExists(specification.sourceFile)
    ensures r.Failure? ==> r.error.ImporterError? || r.error.FileNotFoundError?
  {
    match MultiImporter.LoadWith(MultiImporter.SupportedImporters, specification, sourceExists)
    case Failure(e) => Failure(e)
    case Success(loaded) => assert RootId in loaded; Refined(specification, loaded)
  }

  /**
   * The outcome of the last stages (physics, assembly, export) and the disk
   * afterwards: it succeeds exactly when the cipher accepts the resolved
   * key, and then returns the built scene, the package path and the key.
   */
  function Finished(
    specification: SceneSpecification, sceneGraph: SceneGraph, outputDirectory: string,
    predict: SceneSpecification -> PhysicsProfile, generateKey: () -> seq<byte>,
    prims: SceneBuilder.Primitives, disk: SceneBuilder.Disk)
    : (outcome: (Result<ConversionResult, Failure>, SceneBuilder.Disk))
    ensures var key := SceneBuilder.ResolvedKey(specification.outputEncryptionKey, generateKey, prims);
      outcome.0.Success? <==> prims.validKey(prims.encodeUtf8(key))
    ensures outcome.0.Failure? ==> outcome.0.error == InvalidKeyError
    ensures outcome.0.Success? ==> outcome.0.value == ConversionResult(
      SceneBuilder.Build(specification, sceneGraph, ProfileFor(specification, predict)),
      SceneBuilder.PackagePath(outputDirectory, specification.projectName),
      SceneBuilder.ResolvedKey(specification.outputEncryptionKey, generateKey, prims))
    ensures outcome.1.directories == disk.directories + {outputDirectory}
  {
    var scene := SceneBuilder.Build(specification, sceneGraph, ProfileFor(specification, predict));
    var key := SceneBuilder.ResolvedKey(specification.outputEncryptionKey, generateKey, prims);
    var exported := SceneBuilder.ExportOutcome(scene, outputDirectory, key, prims, disk);
    (if exported.0.Success? then Success(ConversionResult(scene, exported.0.value.0, exported.0.value.1))
     else Failure(exported.0.error),
     exported.1)
  }

  /**
   * The outcome of a run and the disk afterwards, as values, given what
   * the first stages produced (`StagedGraph`). Once the first stages
   * succeed, the run succeeds exactly when the cipher accepts the resolved
   * key; a failure of the first stages is passed on with the disk untouched.
   */
  function Conversion(
    specification: SceneSpecification, staged: Result<SceneGraph, Failure>, outputDirectory: string,
    predict: SceneSpecification -> PhysicsProfile, generateKey: () -> seq<byte>,
    prims: SceneBuilder.Primitives, disk: SceneBuilder.Disk)
    : (outcome: (Result<ConversionResult, Failure>, SceneBuilder.Disk))
    ensures var key := SceneBuilder.ResolvedKey(specification.outputEncryptionKey, generateKey, prims);
      outcome.0.Success? <==> staged.Success? && prims.validKey(prims.encodeUtf8(key))
    ensures staged.Failure? ==> outcome == (Failure(staged.error), disk)
    ensures staged.Success? && outcome.0.Failure? ==> outcome.0.error == InvalidKeyError
  {
    if staged.Failure? then (Failure(staged.error), disk)
    else Finished(specification, staged.value, outputDirectory, predict, generateKey, prims, disk)
  }

  /** How many reports validation and import make, given what import produces. */
  function ImportCount(loaded: Result<SceneGraph, Failure>): nat
  {
    if loaded.Failure? && loaded.error.ImporterError? then 1 else 2
  }

  /**
   * The first two stages of `run_conversion`: the path is validated
   * against the registry, then the graph is loaded, each announced first.
   */
  method ImportSource(specification: SceneSpecification, hasCallback: bool, sourceExists: string -> bool)
    returns (events: seq<Stage>, loaded: Result<SceneGraph, Failure>)
    ensures loaded == MultiImporter.LoadWith(MultiImporter.SupportedImporters, specification, sourceExists)
    ensures loaded.Failure? ==> loaded.error.ImporterError? || loaded.error.FileNotFoundError?
    ensures events == Observed(hasCallback, PlannedStages(specification.enableAiRealism, specification.enablePhysics),
      ImportCount(loaded))
  {
    ghost var plan := PlannedStages(specification.enableAiRealism, specification.enablePhysics);
    PlanEntries(specification.enableAiRealism, specification.enablePhysics);
    var importer := new MultiImporter.MultiFormatImporter(None);
    events := [];

    EmitNext(events, hasCallback, plan, 0, Validation);
    events := Emit(events, hasCallback, Validation);
    var validation := MultiImporter.ValidateSourcePath(specification.sourceFile);
    if validation.Fail? {
      loaded := Failure(validation.error);
      ValidationFailure(specification, sourceExists);
      return;
    }

    EmitNext(events, hasCallback, plan, 1, Import);
    events := Emit(events, hasCallback, Import);
    loaded := importer.Load(specification, sourceExists);
  }

  /**
   * The geometry stage and, when enabled, the material stage, each
   * announced before it runs. The material stage works on node objects of
   * its own, so no other graph sees its changes.
   */
  method RefineScene(specification: SceneSpecification, hasCallback: bool, events: seq<Stage>, loaded: SceneGraph)
    returns (events': seq<Stage>, refined: Result<SceneGraph, Failure>)
    requires events == Observed(hasCallback, PlannedStages(specification.enableAiRealism, specification.enablePhysics), 2)
    ensures refined == Refined(specification, loaded)
    ensures refined.Failure? ==> refined.error.PipelineError?
    ensures events' == Observed(hasCallback, PlannedStages(specification.enableAiRealism, specification.enablePhysics),
      if refined.Success? && specification.enableAiRealism then 4 else 3)
  {
    ghost var plan := PlannedStages(specification.enableAiRealism, specification.enablePhysics);
    PlanEntries(specification.enableAiRealism, specification.enablePhysics);
    EmitNext(events, hasCallback, plan, 2, Geometry);
    events' := Emit(events, hasCallback, Geometry);
    var optimized := GeometryOptimizer.Optimize(loaded);
    if optimized.Failure? {
      refined := Failure(optimized.error);
      return;
    }
    var sceneGraph := optimized.value;
    if specification.enableAiRealism {
      EmitNext(events', hasCallback, plan, 3, Materials);
      events' := Emit(events', hasCallback, Materials);
      sceneGraph := MaterialEnhancer.EnhanceOwned(sceneGraph);
    }
    refined := Success(sceneGraph);
  }

  /**
   * The last stages: the physics profile when enabled, assembly, and
   * export, each announced before it runs, and the final report once the
   * export has returned.
   */
  method FinishScene(
    specification: SceneSpecification, sceneGraph: SceneGraph, hasCallback: bool, events: seq<Stage>,
    outputDirectory: string, predict: SceneSpecification -> PhysicsProfile,
    generateKey: () -> seq<byte>, prims: SceneBuilder.Primitives, disk: SceneBuilder.Disk)
    returns (events': seq<Stage>, r: Result<ConversionResult, Failure>, disk': SceneBuilder.Disk)
    requires events == Observed(hasCallback, PlannedStages(specification.enableAiRealism, specification.enablePhysics),
      if specification.enableAiRealism then 4 else 3)
    ensures (r, disk') == Finished(specification, sceneGraph, outputDirectory, predict, generateKey, prims, disk)
    ensures var plan := PlannedStages(specification.enableAiRealism, specification.enablePhysics);
      events' == Observed(hasCallback, plan, EventsReached(plan, r))
  {
    ghost var plan := PlannedStages(specification.enableAiRealism, specification.enablePhysics);
    ghost var ai := if specification.enableAiRealism then 1 else 0;
    ghost var physics := if specification.enablePhysics then 1 else 0;
    PlanEntries(specification.enableAiRealism, specification.enablePhysics);
    var exporter := new SceneBuilder.VRSceneBuilder(None, generateKey);
    assert exporter.keyFactory == generateKey;
    ghost var key := SceneBuilder.ResolvedKey(specification.outputEncryptionKey, generateKey, prims);
    events' := events;

    var physicsProfile: PhysicsProfile := map[];
    if specification.enablePhysics {
      EmitNext(events', hasCallback, plan, 3 + ai, Physics);
      events' := Emit(events', hasCallback, Physics);
      physicsProfile := predict(specification);
    }

    EmitNext(events', hasCallback, plan, 3 + ai + physics, Composition);
    events' := Emit(events', hasCallback, Composition);
    var scene := SceneBuilder.Build(specification, sceneGraph, physicsProfile);
    assert physicsProfile == ProfileFor(specification, predict);

    EmitNext(events', hasCallback, plan, 4 + ai + physics, Export);
    events' := Emit(events', hasCallback, Export);
    var exported;
    exported, disk' := exporter.ExportPackage(scene, outputDirectory, prims, disk);
    assert (exported, disk') == SceneBuilder.ExportOutcome(scene, outputDirectory, key, prims, disk);
    if exported.Failure? {
      r := Failure(exported.error);
      return;
    }

    EmitNext(events', hasCallback, plan, 5 + ai + physics, Completion);
    events' := Emit(events', hasCallback, Completion);
    r := Success(ConversionResult(scene, exported.value.0, exported.value.1));
  }

  /**
   * `run_conversion`: returns the stages announced to the callback (none
   * when there is no callback), the outcome, and the disk afterwards.
   */
  method RunConversion(
    specification: SceneSpecification, outputDirectory: string, hasCallback: bool,
    sourceExists: string -> bool, predict: SceneSpecification -> PhysicsProfile,
    generateKey: () -> seq<byte>, prims: SceneBuilder.Primitives, disk: SceneBuilder.Disk)
    returns (events: seq<Stage>, r: Result<ConversionResult, Failure>, disk': SceneBuilder.Disk)
    ensures (r, disk') == Conversion(specification, StagedGraph(specification, sourceExists),
      outputDirectory, predict, generateKey, prims, disk)
    ensures var plan := PlannedStages(specification.enableAiRealism, specification.enablePhysics);
      events == Observed(hasCallback, plan, EventsReached(plan, r))
  {
    disk' := disk;
    var loaded;
    events, loaded := ImportSource(specification, hasCallback, sourceExists);
    if loaded.Failure? {
      r := Failure(loaded.error);
      return;
    }
    var refined;
    events, refined := RefineScene(specification, hasCallback, events, loaded.value);
    // An imported graph always has a root, so the geometry stage cannot fail here.
    events, r, disk' := FinishScene(specification, refined.value, hasCallback, events,
      outputDirectory, predict, generateKey, prims, disk);
  }

  /** A path the registry rejects fails the import with the registry's error, before anything is loaded. */
  lemma ValidationFailure(specification: SceneSpecification, sourceExists: string -> bool)
    requires MultiImporter.Select(MultiImporter.SupportedImporters, specification.sourceFile).Failure?
    ensures MultiImporter.LoadWith(MultiImporter.SupportedImporters, specification, sourceExists)
      == Failure(MultiImporter.Select(MultiImporter.SupportedImporters, specification.sourceFile).error)
    ensures MultiImporter.Select(MultiImporter.SupportedImporters, specification.sourceFile).error.ImporterError?
  {
  }

  /** The rank of a stage in the order a run reaches the stages. */
  function Rank(stage: Stage): nat
  {
    match stage
    case Validation => 0
    case Import => 1
    case Geometry => 2
    case Materials => 3
    case Physics => 4
    case Composition => 5
    case Export => 6
    case Completion => 7
  }

  /** Every plan lists stages by strictly increasing rank. */
  lemma PlanRanksIncrease(enableAiRealism: bool, enablePhysics: bool, i: nat, j: nat)
    requires i < j < |PlannedStages(enableAiRealism, enablePhysics)|
    ensures Rank(PlannedStages(enableAiRealism, enablePhysics)[i]) < Rank(PlannedStages(enableAiRealism, enablePhysics)[j])
  {
    var plan := PlannedStages(enableAiRealism, enablePhysics);
    PlanEntries(enableAiRealism, enablePhysics);
    var ai := if enableAiRealism then 1 else 0;
    var physics := if enablePhysics then 1 else 0;
    assert forall k :: 0 <= k < |plan| ==> Rank(plan[k]) >= k && Rank(plan[k]) <= k + 2 - ai - physics by {
      forall k | 0 <= k < |plan|
        ensures Rank(plan[k]) >= k && Rank(plan[k]) <= k + 2 - ai - physics
      {
        if k >= 3 + ai + physics {
          assert plan[k] == [Composition, Export, Completion][k - 3 - ai - physics];
        }
      }
    }
    if j >= 3 + ai + physics {
      assert plan[j] == [Composition, Export, Completion][j - 3 - ai - physics];
      assert Rank(plan[j]) == j + 2 - ai - physics;
    } else if j == 3 + ai {
      assert plan[j] == Physics;
    }
  }

  /** A full run opens with the validation report and closes with the completion report at 100. */
  lemma PlanEnds(enableAiRealism: bool, enablePhysics: bool)
    ensures var plan := PlannedStages(enableAiRealism, enablePhysics);
      && Report(plan[0]) == Event(5, "Validando arquivo de origem")
      && Report(plan[|plan| - 1]) == Event(100, "Conversão concluída")
  {
    PlanEntries(enableAiRealism, enablePhysics);
  }

  /** Progress rises with rank. */
  lemma ProgressFollowsRank(a: Stage, b: Stage)
    requires Rank(a) < Rank(b)
    ensures Progress(a) < Progress(b)
  {
  }

  /** The progress values of a full run rise strictly. */
  lemma PlanProgressIncreases(enableAiRealism: bool, enablePhysics: bool)
    ensures var plan := PlannedStages(enableAiRealism, enablePhysics);
      forall i, j :: 0 <= i < j < |plan| ==> Progress(plan[i]) < Progress(plan[j])
  {
    var plan := PlannedStages(enableAiRealism, enablePhysics);
    forall i, j | 0 <= i < j < |plan|
      ensures Progress(plan[i]) < Progress(plan[j])
    {
      PlanRanksIncrease(enableAiRealism, enablePhysics, i, j);
      ProgressFollowsRank(plan[i], plan[j]);
    }
  }

  /** Each report's progress is one of the eight fixed values, and only the material (physics) stage reports 50 (65). */
  lemma ReportProgress(stage: Stage)
    ensures Report(stage).progress == Progress(stage)
    ensures Progress(stage) in {5, 20, 35, 50, 65, 80, 95, 100}
    ensures Progress(stage) == 50 <==> stage == Materials
    ensures Progress(stage) == 65 <==> stage == Physics
  {
  }

  /** The material stage is announced exactly when AI realism is on, the physics stage exactly when physics is on. */
  lemma PlanGates(enableAiRealism: bool, enablePhysics: bool)
    ensures Materials in PlannedStages(enableAiRealism, enablePhysics) <==> enableAiRealism
    ensures Physics in PlannedStages(enableAiRealism, enablePhysics) <==> enablePhysics
  {
    var plan := PlannedStages(enableAiRealism, enablePhysics);
    PlanEntries(enableAiRealism, enablePhysics);
    if !enableAiRealism {
      forall k | 0 <= k < |plan| ensures plan[k] != Materials {
        if k > 2 {
          PlanRanksIncrease(enableAiRealism, enablePhysics, 2, k);
        }
      }
    }
  }

  /** A run that fails never makes the completion report. */
  lemma FailureNeverCompletes(enableAiRealism: bool, enablePhysics: bool, hasCallback: bool, r: Result<ConversionResult, Failure>)
    requires r.Failure?
    ensures var plan := PlannedStages(enableAiRealism, enablePhysics);
      Completion !in Observed(hasCallback, plan, EventsReached(plan, r))
  {
    var plan := PlannedStages(enableAiRealism, enablePhysics);
    var events := Observed(hasCallback, plan, EventsReached(plan, r));
    PlanEntries(enableAiRealism, enablePhysics);
    forall k | 0 <= k < |events| ensures events[k] != Completion {
      PlanRanksIncrease(enableAiRealism, enablePhysics, k, |plan| - 1);
    }
  }

  /**
   * A successful run with a callback observes exactly the planned reports:
   * their progress rises strictly, and the last is the completion report
   * at 100.
   */
  lemma SuccessReportsWholePlan(enableAiRealism: bool, enablePhysics: bool, r: Result<ConversionResult, Failure>)
    requires r.Success?
    ensures var plan := PlannedStages(enableAiRealism, enablePhysics);
      var events := Observed(true, plan, EventsReached(plan, r));
      && events == plan
      && (forall i, j :: 0 <= i < j < |events| ==> Progress(events[i]) < Progress(events[j]))
      && events[|events| - 1] == Completion
      && Report(events[|events| - 1]) == Event(100, "Conversão concluída")
  {
    var plan := PlannedStages(enableAiRealism, enablePhysics);
    PlanEntries(enableAiRealism, enablePhysics);
    assert Observed(true, plan, EventsReached(plan, r)) == plan;
    PlanProgressIncreases(enableAiRealism, enablePhysics);
    PlanEnds(enableAiRealism, enablePhysics);
  }

  /** A run that stops in validation, import or geometry reports no progress of 50 or more. */
  lemma EarlyFailureReportsLittle(enableAiRealism: bool, enablePhysics: bool, hasCallback: bool, r: Result<ConversionResult, Failure>)
    requires r.Failure? && !r.error.InvalidKeyError?
    ensures var plan := PlannedStages(enableAiRealism, enablePhysics);
      forall stage :: stage in Observed(hasCallback, plan, EventsReached(plan, r)) ==> Progress(stage) < 50
  {
    PlanEntries(enableAiRealism, enablePhysics);
  }

  /**
   * A successful run returns the built scene, with the predicted physics
   * profile only when physics is on, and the exporter's package path and key.
   */
  lemma ConversionResultFields(
    specification: SceneSpecification, staged: Result<SceneGraph, Failure>, outputDirectory: string,
    predict: SceneSpecification -> PhysicsProfile, generateKey: () -> seq<byte>,
    prims: SceneBuilder.Primitives, disk: SceneBuilder.Disk)
    requires Conversion(specification, staged, outputDirectory, predict, generateKey, prims, disk).0.Success?
    ensures var result := Conversion(specification, staged, outputDirectory, predict, generateKey, prims, disk).0.value;
      && staged.Success?
      && result.scene == SceneBuilder.Build(specification, staged.value, ProfileFor(specification, predict))
      && result.scene.physicsProfile == (if specification.enablePhysics then predict(specification) else map[])
      && result.packagePath == SceneBuilder.PackagePath(outputDirectory, specification.projectName)
      && result.encryptionKey == SceneBuilder.ResolvedKey(specification.outputEncryptionKey, generateKey, prims)
  {
  }

  /**
   * With a physics model that predicts the three parameters, a successful
   * run's profile holds exactly those parameters when physics is on, and
   * none when it is off.
   */
  lemma PhysicsProfileKeys(
    specification: SceneSpecification, staged: Result<SceneGraph, Failure>, outputDirectory: string,
    predict: SceneSpecification -> PhysicsProfile, generateKey: () -> seq<byte>,
    prims: SceneBuilder.Primitives, disk: SceneBuilder.Disk)
    requires forall s :: predict(s).Keys == PhysicsParameters
    requires Conversion(specification, staged, outputDirectory, predict, generateKey, prims, disk).0.Success?
    ensures var result := Conversion(specification, staged, outputDirectory, predict, generateKey, prims, disk).0.value;
      result.scene.physicsProfile.Keys == if specification.enablePhysics then PhysicsParameters else {}
  {
  }

  /**
   * A key the cipher rejects ends the run after the export report: the
   * target directory exists, but no file was written.
   */
  lemma InvalidKeyStopsAtExport(
    specification: SceneSpecification, staged: Result<SceneGraph, Failure>, outputDirectory: string,
    predict: SceneSpecification -> PhysicsProfile, generateKey: () -> seq<byte>,
    prims: SceneBuilder.Primitives, disk: SceneBuilder.Disk)
    requires staged.Success?
    requires !prims.validKey(prims.encodeUtf8(SceneBuilder.ResolvedKey(specification.outputEncryptionKey, generateKey, prims)))
    ensures var outcome := Conversion(specification, staged, outputDirectory, predict, generateKey, prims, disk);
      var plan := PlannedStages(specification.enableAiRealism, specification.enablePhysics);
      && outcome.0 == Failure(InvalidKeyError)
      && outcome.1 == SceneBuilder.Disk(disk.directories + {outputDirectory}, disk.files)
      && Observed(true, plan, EventsReached(plan, outcome.0)) == plan[..|plan| - 1]
      && plan[|plan| - 2] == Export
  {
    PlanEntries(specification.enableAiRealism, specification.enablePhysics);
  }

  /**
   * With no key supplied, the exporter generates one; when the cipher
   * accepts the generated key, a run whose first stages succeed completes,
   * writes exactly the package and the key file next to what was on disk,
   * and the key file holds the returned key.
   */
  lemma GeneratedKeyRunSucceeds(
    specification: SceneSpecification, staged: Result<SceneGraph, Failure>, outputDirectory: string,
    predict: SceneSpecification -> PhysicsProfile, generateKey: () -> seq<byte>,
    prims: SceneBuilder.Primitives, disk: SceneBuilder.Disk)
    requires specification.outputEncryptionKey.None? && staged.Success?
    requires prims.validKey(prims.encodeUtf8(prims.decodeUtf8(generateKey())))
    ensures var outcome := Conversion(specification, staged, outputDirectory, predict, generateKey, prims, disk);
      var package := SceneBuilder.PackagePath(outputDirectory, specification.projectName);
      var keyFile := SceneBuilder.KeyPath(outputDirectory, specification.projectName);
      && outcome.0.Success?
      && outcome.0.value.encryptionKey == prims.decodeUtf8(generateKey())
      && outcome.1.files.Keys == disk.files.Keys + {package, keyFile}
      && keyFile in outcome.1.files
      && outcome.1.files[keyFile] == prims.encodeUtf8(outcome.0.value.encryptionKey)
  {
    var key := SceneBuilder.ResolvedKey(specification.outputEncryptionKey, generateKey, prims);
    assert key == prims.decodeUtf8(generateKey());
    var scene := SceneBuilder.Build(specification, staged.value, ProfileFor(specification, predict));
    var exported := SceneBuilder.ExportOutcome(scene, outputDirectory, key, prims, disk);
    assert Conversion(specification, staged, outputDirectory, predict, generateKey, prims, disk).1 == exported.1;
  }

  lemma HouseObjParts()
    ensures "house" + ".obj" == "house.obj"
    ensures '.' !in ".obj"[1..] && '/' !in "house" && '/' !in ".obj"
  {
  }

  /** "house.obj" selects the OBJ importer of the global registry. */
  lemma HouseObjSelectsObj()
    ensures MultiImporter.Select(MultiImporter.SupportedImporters, "house.obj") == Success(MultiImporter.OBJImporter)
  {
    HouseObjParts();
    MultiImporter.SuffixOfFileName("house", ".obj");
    MultiImporter.ObjSuffixSelectsObj("house.obj");
  }

  lemma DemoPaths()
    ensures SceneBuilder.PackagePath("out", "demo") == "out/demo.vrpkg"
    ensures SceneBuilder.KeyPath("out", "demo") == "out/demo.key"
  {
  }

  /** The generated-key run from an empty disk: the directory and the two files are all there is. */
  lemma GeneratedKeyRunOnEmptyDisk(
    specification: SceneSpecification, staged: Result<SceneGraph, Failure>, outputDirectory: string,
    predict: SceneSpecification -> PhysicsProfile, generateKey: () -> seq<byte>,
    prims: SceneBuilder.Primitives, disk: SceneBuilder.Disk, package: string, keyFile: string)
    requires specification.outputEncryptionKey.None? && staged.Success?
    requires prims.validKey(prims.encodeUtf8(prims.decodeUtf8(generateKey())))
    requires disk == SceneBuilder.Disk({}, map[])
    requires package == SceneBuilder.PackagePath(outputDirectory, specification.projectName)
    requires keyFile == SceneBuilder.KeyPath(outputDirectory, specification.projectName)
    ensures var outcome := Conversion(specification, staged, outputDirectory, predict, generateKey, prims, disk);
      && outcome.0.Success?
      && outcome.1.directories == {outputDirectory}
      && outcome.1.files.Keys == {package, keyFile}
  {
    GeneratedKeyRunSucceeds(specification, staged, outputDirectory, predict, generateKey, prims, disk);
  }

  /** The first stages of the "demo" run on "house.obj" succeed when the file exists. */
  lemma DemoImportSucceeds(sourceExists: string -> bool)
    requires sourceExists("house.obj")
    ensures StagedGraph(SceneSpecification("demo", "house.obj"), sourceExists).Success?
  {
    HouseObjSelectsObj();
  }

  /**
   * The default "demo" run on "house.obj", from an empty disk into "out",
   * with a generated key the cipher accepts: it succeeds and leaves exactly
   * "out/demo.vrpkg" and "out/demo.key" in the one directory "out".
   */
  lemma DemoRunWritesPackageAndKey(
    sourceExists: string -> bool, predict: SceneSpecification -> PhysicsProfile,
    generateKey: () -> seq<byte>, prims: SceneBuilder.Primitives)
    requires sourceExists("house.obj")
    requires prims.validKey(prims.encodeUtf8(prims.decodeUtf8(generateKey())))
    ensures var specification := SceneSpecification("demo", "house.obj");
      var outcome := Conversion(specification, StagedGraph(specification, sourceExists), "out",
        predict, generateKey, prims, SceneBuilder.Disk({}, map[]));
      && outcome.0.Success?
      && outcome.1.directories == {"out"}
      && outcome.1.files.Keys == {"out/demo.vrpkg", "out/demo.key"}
  {
    var specification := SceneSpecification("demo", "house.obj");
    DemoImportSucceeds(sourceExists);
    DemoPaths();
    GeneratedKeyRunOnEmptyDisk(specification, StagedGraph(specification, sourceExists), "out", predict, generateKey, prims,
      SceneBuilder.Disk({}, map[]), "out/demo.vrpkg", "out/demo.key");
  }

  /** An extension the registry rejects ends the run after the validation report, with the disk untouched. */
  lemma UnsupportedExtensionStopsAtValidation(specification: SceneSpecification, sourceExists: string -> bool)
    requires MultiImporter.Select(MultiImporter.SupportedImporters, specification.sourceFile).Failure?
    ensures var staged := StagedGraph(specification, sourceExists);
      var plan := PlannedStages(specification.enableAiRealism, specification.enablePhysics);
      && staged == Failure(MultiImporter.Select(MultiImporter.SupportedImporters, specification.sourceFile).error)
      && Observed(true, plan, EventsReached(plan, Failure(staged.error))) == [Validation]
  {
    ValidationFailure(specification, sourceExists);
    PlanEntries(specification.enableAiRealism, specification.enablePhysics);
  }

  /** A missing source file ends the run after the import report. */
  lemma MissingSourceStopsAtImport(specification: SceneSpecification, sourceExists: string -> bool)
    requires MultiImporter.Select(MultiImporter.SupportedImporters, specification.sourceFile).Success?
    requires !sourceExists(specification.sourceFile)
    ensures var staged := StagedGraph(specification, sourceExists);
      var plan := PlannedStages(specification.enableAiRealism, specification.enablePhysics);
      && staged == Failure(FileNotFoundError("Source file not found: " + specification.sourceFile))
      && Observed(true, plan, EventsReached(plan, Failure(staged.error))) == [Validation, Import]
  {
    var message := "Source file not found: " + specification.sourceFile;
    assert MultiImporter.LoadWith(MultiImporter.SupportedImporters, specification, sourceExists)
      == Failure(FileNotFoundError(message));
    PlanEntries(specification.enableAiRealism, specification.enablePhysics);
  }

  /**
   * The first stages on an imported graph (only a root): the root, marked
   * optimized, plus, with AI realism on, a metadata node carrying only the
   * marker.
   */
  lemma RefinedShape(specification: SceneSpecification, loaded: SceneGraph)
    requires loaded.Keys == {RootId}
    ensures Refined(specification, loaded).Success?
    ensures var g := Refined(specification, loaded).value;
      && g.Keys == (if specification.enableAiRealism then {RootId, MaterialEnhancer.MetadataId} else {RootId})
      && g[RootId] == loaded[RootId][GeometryOptimizer.OptimizedFlag := Str("true")]
      && (specification.enableAiRealism ==>
           g[MaterialEnhancer.MetadataId] == map[MaterialEnhancer.MaterialsKey := Str(MaterialEnhancer.GeneratedMarker)])
  {
    assert |MaterialEnhancer.MetadataId| != |RootId|;
  }

  /**
   * As the material stage skips the root and creates the metadata node
   * after its loop, no node of a refined root-only graph has a material
   * unless the root had one.
   */
  lemma RefinedHasNoMaterial(specification: SceneSpecification, loaded: SceneGraph)
    requires loaded.Keys == {RootId} && MaterialEnhancer.MaterialKey !in loaded[RootId]
    ensures Refined(specification, loaded).Success?
    ensures var g := Refined(specification, loaded).value;
      forall id :: id in g ==> MaterialEnhancer.MaterialKey !in g[id]
  {
    RefinedShape(specification, loaded);
    assert |GeometryOptimizer.OptimizedFlag| != |MaterialEnhancer.MaterialKey|;
    assert |MaterialEnhancer.MaterialsKey| != |MaterialEnhancer.MaterialKey|;
  }

  /** An imported root node has no material attribute. */
  lemma ImportedRootHasNoMaterial(importer: MultiImporter.StubImporter, source: string, requiredAssets: seq<string>)
    ensures MaterialEnhancer.MaterialKey !in importer.RootNode(source, requiredAssets)
  {
    var root := importer.RootNode(source, requiredAssets);
    assert root.Keys == {"type", "origin_file", "format", "required_assets"};
    assert |MaterialEnhancer.MaterialKey| == 8;
  }

  /** So a whole run never attaches a material: its graph has none anywhere. */
  lemma StagedGraphHasNoMaterial(specification: SceneSpecification, sourceExists: string -> bool)
    requires StagedGraph(specification, sourceExists).Success?
    ensures var g := StagedGraph(specification, sourceExists).value;
      forall id :: id in g ==> MaterialEnhancer.MaterialKey !in g[id]
  {
    var importer := MultiImporter.Select(MultiImporter.SupportedImporters, specification.sourceFile).value;
    var source := specification.sourceFile;
    var loaded := MultiImporter.LoadWith(MultiImporter.SupportedImporters, specification, sourceExists).value;
    ImportedRootHasNoMaterial(importer, source, importer.InferRequiredAssets(source));
    RefinedHasNoMaterial(specification, loaded);
  }
}
