/**
 * The records shared by every stage of the conversion pipeline, with the
 * default values their dataclass declarations give them, and the kinds of
 * error the stages raise.
 */
module Core {
  import opened Wrappers

  /** One octet, as written to and read from files. */
  newtype byte = b: int | 0 <= b < 256

  /** A node attribute: plain text, or a list of texts (`required_assets`). */
  datatype AttrValue = Str(text: string) | StrList(items: seq<string>)

  /** The attributes of one scene-graph node. */
  type Attributes = map<string, AttrValue>

  /** Node identifier to node attributes; the value passed between stages. */
  type SceneGraph = map<string, Attributes>

  /** Physics parameter name to its (floating-point) value. */
  type PhysicsProfile = map<string, real>

  const RootId: string := "root"

  /** The platforms a specification targets when the caller names none. */
  const DefaultTargetPlatforms: seq<string> := ["meta-quest", "htc-vive", "pimax"]

  /** An asset used in the VR experience; `metadata` defaults to the empty map. */
  datatype AssetReference = AssetReference(
    name: string,
    path: string,
    metadata: map<string, string> := map[])

  /**
   * One conversion request. Only `projectName` and `sourceFile` have no
   * default. As a value, each instance has its own platform list: the
   * default cannot be shared between two specifications.
   */
  datatype SceneSpecification = SceneSpecification(
    projectName: string,
    sourceFile: string,
    assets: seq<AssetReference> := [],
    targetPlatforms: seq<string> := DefaultTargetPlatforms,
    enablePhysics: bool := true,
    enableAiRealism: bool := true,
    notes: Option<string> := None,
    outputEncryptionKey: Option<string> := None)

  /** The fully assembled scene; `aiMetadata` defaults to the empty map. */
  datatype VRScene = VRScene(
    specification: SceneSpecification,
    sceneGraph: SceneGraph,
    physicsProfile: PhysicsProfile,
    aiMetadata: map<string, string> := map[])

  /**
   * The exceptions the pipeline raises: `PipelineError` (a stage failure),
   * `ImporterError` (no importer for the file), `FileNotFoundError` (the
   * source file is missing) and the cipher's rejection of a malformed key.
   */
  datatype Failure =
    | PipelineError(message: string)
    | ImporterError(message: string)
    | FileNotFoundError(message: string)
    | InvalidKeyError

  /** A new specification built from its two required fields has every documented default. */
  lemma SpecificationDefaults(projectName: string, sourceFile: string)
    ensures var s := SceneSpecification(projectName, sourceFile);
      && s.assets == []
      && s.targetPlatforms == ["meta-quest", "htc-vive", "pimax"]
      && s.enablePhysics && s.enableAiRealism
      && s.notes == None && s.outputEncryptionKey == None
  {
  }

  /** An asset reference and a scene built without metadata carry the empty map. */
  lemma MetadataDefaults(name: string, path: string, spec: SceneSpecification, g: SceneGraph, p: PhysicsProfile)
    ensures AssetReference(name, path).metadata == map[]
    ensures VRScene(spec, g, p).aiMetadata == map[]
  {
  }
}
