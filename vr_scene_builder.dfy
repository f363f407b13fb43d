/**
 * The exporter: assembles the final scene and writes the encrypted package
 * (and, for a generated key, the key file) into the target directory.
 * UTF-8 coding, JSON serialisation and the symmetric cipher are library
 * calls; they enter the model as the functions of a `Primitives` value.
 */
module SceneBuilder {
  import opened Wrappers
  import opened Core

  /** A key as `_ensure_key_bytes` accepts it: text, or raw bytes. */
  datatype KeyMaterial = KeyText(text: string) | KeyBytes(bytes: seq<byte>)

  /** The library calls the exporter relies on, taken as given. */
  datatype Primitives = Primitives(
    encodeUtf8: string -> seq<byte>,
    decodeUtf8: seq<byte> -> string,
    /** `json.dumps(payload, indent=2)` */
    serialize: Payload -> string,
    /** whether the cipher accepts the bytes as a key (it raises otherwise) */
    validKey: seq<byte> -> bool,
    /** the cipher's encryption of data under a key */
    encrypt: (seq<byte>, seq<byte>) -> seq<byte>)

  /** What is serialised and encrypted: exactly these four fields. */
  datatype Payload = Payload(
    project: string,
    sceneGraph: SceneGraph,
    physicsProfile: PhysicsProfile,
    aiMetadata: map<string, string>)

  /** The files and directories the exporter sees, by path. */
  datatype Disk = Disk(directories: set<string>, files: map<string, seq<byte>>)
  {
    /** Create a directory; one that exists already is no error. */
    function Mkdir(dir: string): (d: Disk)
      ensures d.directories == directories + {dir} && d.files == files
    {
      Disk(directories + {dir}, files)
    }

    /** Create or overwrite one file. */
    function Write(path: string, content: seq<byte>): (d: Disk)
      ensures d.directories == directories && d.files == files[path := content]
    {
      Disk(directories, files[path := content])
    }
  }

  /** A key as text together with its UTF-8 bytes, whichever of the two was given. */
  function EnsureKeyBytes(key: KeyMaterial, prims: Primitives): (pair: (string, seq<byte>))
    ensures key.KeyText? ==> pair.0 == key.text && pair.1 == prims.encodeUtf8(key.text)
    ensures key.KeyBytes? ==> pair.1 == key.bytes && pair.0 == prims.decodeUtf8(key.bytes)
  {
    match key
    case KeyBytes(bytes) => (prims.decodeUtf8(bytes), bytes)
    case KeyText(text) => (text, prims.encodeUtf8(text))
  }

  /**
   * When UTF-8 decoding undoes encoding, and given bytes are well-formed
   * UTF-8, the two halves of the pair are each other's encoding.
   */
  lemma EnsureKeyBytesAgree(key: KeyMaterial, prims: Primitives)
    requires forall s :: prims.decodeUtf8(prims.encodeUtf8(s)) == s
    requires key.KeyBytes? ==> prims.encodeUtf8(prims.decodeUtf8(key.bytes)) == key.bytes
    ensures prims.encodeUtf8(EnsureKeyBytes(key, prims).0) == EnsureKeyBytes(key, prims).1
    ensures prims.decodeUtf8(EnsureKeyBytes(key, prims).1) == EnsureKeyBytes(key, prims).0
  {
  }

  /** The scene the exporter assembles: inputs passed through, plus the exporter's own metadata. */
  function Build(specification: SceneSpecification, sceneGraph: SceneGraph, physicsProfile: PhysicsProfile): (scene: VRScene)
    ensures scene.specification == specification
    ensures scene.sceneGraph == sceneGraph && scene.physicsProfile == physicsProfile
    ensures scene.aiMetadata.Keys == {"exporter", "project"}
    ensures scene.aiMetadata["exporter"] == "vr-scene-builder"
    ensures scene.aiMetadata["project"] == specification.projectName
  {
    VRScene(specification, sceneGraph, physicsProfile,
      map["exporter" := "vr-scene-builder", "project" := specification.projectName])
  }

  /** The payload of a scene, before it is serialised. */
  function PayloadOf(scene: VRScene): Payload
  {
    Payload(scene.specification.projectName, scene.sceneGraph, scene.physicsProfile, scene.aiMetadata)
  }

  /** A built scene's payload carries what was handed to the builder. */
  lemma BuiltPayload(specification: SceneSpecification, sceneGraph: SceneGraph, physicsProfile: PhysicsProfile)
    ensures var p := PayloadOf(Build(specification, sceneGraph, physicsProfile));
      && p.project == specification.projectName
      && p.sceneGraph == sceneGraph && p.physicsProfile == physicsProfile
      && p.aiMetadata == map["exporter" := "vr-scene-builder", "project" := specification.projectName]
  {
  }

  /** `directory / name` */
  function Child(directory: string, name: string): string
  {
    directory + "/" + name
  }

  function PackagePath(directory: string, project: string): string
  {
    Child(directory, project + ".vrpkg")
  }

  function KeyPath(directory: string, project: string): string
  {
    Child(directory, project + ".key")
  }

  /** The package and the key file never overwrite each other. */
  lemma PackageAndKeyPathsDiffer(directory: string, project: string)
    ensures PackagePath(directory, project) != KeyPath(directory, project)
  {
    assert |PackagePath(directory, project)| == |KeyPath(directory, project)| + 2;
  }

  /** The bytes of the package file: the serialised payload, encrypted under the key. */
  function Sealed(scene: VRScene, key: string, prims: Primitives): seq<byte>
  {
    prims.encrypt(prims.encodeUtf8(key), prims.encodeUtf8(prims.serialize(PayloadOf(scene))))
  }

  /**
   * The package depends on the scene only through the four payload fields:
   * two scenes that agree on project name, graph, profile and metadata seal
   * to the same bytes under the same key, whatever else their
   * specifications hold.
   */
  lemma SealedPayloadOnly(a: VRScene, b: VRScene, key: string, prims: Primitives)
    requires a.specification.projectName == b.specification.projectName
    requires a.sceneGraph == b.sceneGraph && a.physicsProfile == b.physicsProfile && a.aiMetadata == b.aiMetadata
    ensures Sealed(a, key, prims) == Sealed(b, key, prims)
  {
  }

  /**
   * The effect of exporting a scene under a resolved key: the result and
   * the disk afterwards.
   */
  function ExportOutcome(scene: VRScene, directory: string, key: string, prims: Primitives, disk: Disk)
    : (outcome: (Result<(string, string), Failure>, Disk))
    ensures outcome.1.directories == disk.directories + {directory}
    ensures outcome.0.Failure? <==> !prims.validKey(prims.encodeUtf8(key))
    ensures outcome.0.Failure? ==> outcome.0.error == InvalidKeyError && outcome.1.files == disk.files
    ensures outcome.0.Success? ==>
      outcome.0.value == (PackagePath(directory, scene.specification.projectName), key)
    ensures outcome.0.Success? ==>
      var package := PackagePath(directory, scene.specification.projectName);
      package in outcome.1.files && outcome.1.files[package] == Sealed(scene, key, prims)
    ensures outcome.0.Success? ==>
      var keyFile := KeyPath(directory, scene.specification.projectName);
      var generated := scene.specification.outputEncryptionKey.None?;
      && (generated ==> keyFile in outcome.1.files && outcome.1.files[keyFile] == prims.encodeUtf8(key))
      && (!generated ==> (keyFile in outcome.1.files <==> keyFile in disk.files))
    ensures outcome.0.Success? ==>
      forall path :: path in disk.files && path != PackagePath(directory, scene.specification.projectName)
        && (path != KeyPath(directory, scene.specification.projectName) || scene.specification.outputEncryptionKey.Some?)
        ==> path in outcome.1.files && outcome.1.files[path] == disk.files[path]
    ensures outcome.0.Success? ==>
      outcome.1.files.Keys == disk.files.Keys + {PackagePath(directory, scene.specification.projectName)}
        + (if scene.specification.outputEncryptionKey.None? then {KeyPath(directory, scene.specification.projectName)} else {})
  {
    PackageAndKeyPathsDiffer(directory, scene.specification.projectName);
    var created := disk.Mkdir(directory);
    var keyBytes := prims.encodeUtf8(key);
    if !prims.validKey(keyBytes) then
      (Failure(InvalidKeyError), created)
    else
      var package := PackagePath(directory, scene.specification.projectName);
      var written := created.Write(package, Sealed(scene, key, prims));
      var final := if scene.specification.outputEncryptionKey.None? then
          written.Write(KeyPath(directory, scene.specification.projectName), keyBytes)
        else written;
      (Success((package, key)), final)
  }

  /** The key a package is encrypted under: the one supplied, or a fresh one from the key factory. */
  function ResolvedKey(supplied: Option<string>, keyFactory: () -> seq<byte>, prims: Primitives): (key: string)
    ensures supplied.Some? ==> key == supplied.value
    ensures supplied.None? ==> key == prims.decodeUtf8(keyFactory())
  {
    if supplied.Some? then supplied.value else prims.decodeUtf8(keyFactory())
  }

  /** Assembles scenes and writes them out as encrypted packages. */
  class VRSceneBuilder {
    /** Produces the bytes of a new key when the specification supplies none. */
    const keyFactory: () -> seq<byte>

    /** Uses the given key factory, or the cipher's own key generator when there is none. */
    constructor (keyFactory: Option<() -> seq<byte>>, generateKey: () -> seq<byte>)
      ensures keyFactory.Some? ==> this.keyFactory == keyFactory.value
      ensures keyFactory.None? ==> this.keyFactory == generateKey
    {
      if keyFactory.Some? {
        this.keyFactory := keyFactory.value;
      } else {
        this.keyFactory := generateKey;
      }
    }

    /**
     * Creates the target directory, resolves the key, writes the package and,
     * when the key was generated here, the key file; returns the package
     * path and the key.
     */
    method ExportPackage(scene: VRScene, targetDirectory: string, prims: Primitives, disk: Disk)
      returns (r: Result<(string, string), Failure>, disk': Disk)
      ensures (r, disk') == ExportOutcome(scene, targetDirectory,
        ResolvedKey(scene.specification.outputEncryptionKey, keyFactory, prims), prims, disk)
    {
      var specification := scene.specification;
      disk' := disk.Mkdir(targetDirectory);
      var key: string;
      if specification.outputEncryptionKey.Some? {
        key := specification.outputEncryptionKey.value;
      } else {
        key := prims.decodeUtf8(keyFactory());
      }
      var keyBytes := prims.encodeUtf8(key);
      if !prims.validKey(keyBytes) {
        r := Failure(InvalidKeyError);
        return;
      }
      var encrypted := prims.encrypt(keyBytes, prims.encodeUtf8(prims.serialize(PayloadOf(scene))));
      var outputFile := PackagePath(targetDirectory, specification.projectName);
      disk' := disk'.Write(outputFile, encrypted);
      var keyFile := KeyPath(targetDirectory, specification.projectName);
      if specification.outputEncryptionKey.None? {
        disk' := disk'.Write(keyFile, keyBytes);
      }
      r := Success((outputFile, key));
    }
  }

  /** A supplied key is used as given: the key factory plays no part in the export. */
  lemma SuppliedKeyIgnoresFactory(key: string, factory1: () -> seq<byte>, factory2: () -> seq<byte>, prims: Primitives)
    ensures ResolvedKey(Some(key), factory1, prims) == ResolvedKey(Some(key), factory2, prims) == key
  {
  }
}
