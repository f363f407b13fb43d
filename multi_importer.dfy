/**
 * Format import dispatch: the file suffix picks an importer from an ordered
 * registry, and the importer turns the specification into a single-node
 * scene graph.
 */
module MultiImporter {
  import opened Wrappers
  import opened Core

  // ---------------------------------------------------------------------
  // Paths

  /** The last position of `c` in `s`, or -1 when `c` does not occur. */
  function LastIndexOf(s: string, c: char): (r: int)
    ensures -1 <= r < |s|
    ensures r >= 0 ==> s[r] == c
    ensures forall j :: r < j < |s| ==> s[j] != c
  {
    if |s| == 0 then -1
    else if s[|s| - 1] == c then |s| - 1
    else LastIndexOf(s[..|s| - 1], c)
  }

  /** The path without the separators it ends with: only trailing '/' are removed. */
  function TrimTrailingSeparators(path: string): (p: string)
    ensures p <= path
    ensures p == [] || p[|p| - 1] != '/'
    ensures forall k :: |p| <= k < |path| ==> path[k] == '/'
  {
    if |path| > 0 && path[|path| - 1] == '/' then TrimTrailingSeparators(path[..|path| - 1]) else path
  }

  /** The final component of a path: what follows the last separator of the trimmed path. */
  function FileName(path: string): (name: string)
    ensures '/' !in name
  {
    var p := TrimTrailingSeparators(path);
    p[LastIndexOf(p, '/') + 1..]
  }

  /**
   * The final component is the end of the trimmed path, preceded by a
   * separator unless it is the whole trimmed path.
   */
  lemma FileNameIsLastComponent(path: string)
    ensures var p, name := TrimTrailingSeparators(path), FileName(path);
      && |name| <= |p| && name == p[|p| - |name|..]
      && (|name| == |p| || p[|p| - |name| - 1] == '/')
  {
    var p := TrimTrailingSeparators(path);
    var i := LastIndexOf(p, '/');
    var name := p[i + 1..];
    assert FileName(path) == name;
    assert |p| - |name| == i + 1;
  }

  /** A non-empty name without separators is its own final component, also behind a directory. */
  lemma FileNameOfPath(dir: string, name: string)
    requires name != [] && '/' !in name
    ensures FileName(name) == name
    ensures FileName(dir + "/" + name) == name
  {
    assert TrimTrailingSeparators(name) == name;
    assert LastIndexOf(name, '/') == -1;
    var path := dir + "/" + name;
    assert path[|path| - 1] == name[|name| - 1];
    assert TrimTrailingSeparators(path) == path;
    assert path[|dir|] == '/';
    assert forall j :: |dir| < j < |path| ==> path[j] != '/' by {
      forall j | |dir| < j < |path| ensures path[j] != '/' {
        assert path[j] == name[j - |dir| - 1];
      }
    }
    assert LastIndexOf(path, '/') == |dir|;
    assert path[|dir| + 1..] == name;
  }

  /**
   * The suffix of a path: the final component from its last dot on, or ""
   * when the dot is missing, is the component's first character, or is its
   * last character.
   */
  function Suffix(path: string): (suffix: string)
    ensures suffix == "" || (|suffix| >= 2 && suffix[0] == '.' && '.' !in suffix[1..] && '/' !in suffix)
  {
    var name := FileName(path);
    var i := LastIndexOf(name, '.');
    if 0 < i < |name| - 1 then name[i..] else ""
  }

  /** The dot that opens a dotted extension is the last dot of stem and extension together. */
  lemma {:induction false} LastDotOfExtension(stem: string, ext: string)
    requires |ext| >= 1 && ext[0] == '.' && '.' !in ext[1..]
    requires '/' !in stem && '/' !in ext
    ensures LastIndexOf(stem + ext, '.') == |stem|
    ensures '/' !in stem + ext
  {
    var name := stem + ext;
    assert '/' !in name by {
      forall k | 0 <= k < |name| ensures name[k] != '/' {
        if k < |stem| { assert name[k] == stem[k]; } else { assert name[k] == ext[k - |stem|]; }
      }
    }
    assert name[|stem|] == '.';
    assert forall k :: |stem| < k < |name| ==> name[k] != '.' by {
      forall k | |stem| < k < |name| ensures name[k] != '.' {
        assert name[k] == ext[1..][k - |stem| - 1];
      }
    }
  }

  /** A file name made of a non-empty stem and a dotted extension has that extension as suffix. */
  lemma {:induction false} SuffixOfFileName(stem: string, ext: string)
    requires stem != [] && |ext| >= 2 && ext[0] == '.' && '.' !in ext[1..]
    requires '/' !in stem && '/' !in ext
    ensures Suffix(stem + ext) == ext
  {
    LastDotOfExtension(stem, ext);
    FileNameOfPath("", stem + ext);
    SuffixFromName(stem + ext, stem, ext);
  }

  /** The same file name behind any directory has the same suffix. */
  lemma {:induction false} SuffixOfPath(dir: string, stem: string, ext: string)
    requires stem != [] && |ext| >= 2 && ext[0] == '.' && '.' !in ext[1..]
    requires '/' !in stem && '/' !in ext
    ensures Suffix(dir + "/" + (stem + ext)) == ext
  {
    SuffixOfFileName(stem, ext);
    LastDotOfExtension(stem, ext);
    FileNameOfPath(dir, stem + ext);
    SameFileNameSameSuffix(dir + "/" + (stem + ext), stem + ext);
  }

  /** The suffix is a function of the final component. */
  lemma SameFileNameSameSuffix(a: string, b: string)
    requires FileName(a) == FileName(b)
    ensures Suffix(a) == Suffix(b)
  {
  }

  /** A path whose final component has its last dot after a non-empty stem has the suffix from that dot on. */
  lemma SuffixFromName(path: string, stem: string, ext: string)
    requires FileName(path) == stem + ext && LastIndexOf(stem + ext, '.') == |stem|
    requires stem != [] && |ext| >= 2
    ensures Suffix(path) == ext
  {
    assert (stem + ext)[|stem|..] == ext;
  }

  /**
   * A final component has no suffix when it holds no dot ("house"), when
   * its only dot is its first character (".obj"), or when it ends in a dot
   * ("house.").
   */
  lemma NoSuffix(dir: string, name: string)
    requires name != [] && '/' !in name
    requires '.' !in name || (name[0] == '.' && '.' !in name[1..]) || name[|name| - 1] == '.'
    ensures Suffix(name) == ""
    ensures Suffix(dir + "/" + name) == ""
  {
    FileNameOfPath(dir, name);
    SameFileNameSameSuffix(dir + "/" + name, name);
    var i := LastIndexOf(name, '.');
    if '.' !in name {
      assert i == -1;
    } else if name[0] == '.' && '.' !in name[1..] {
      assert i == 0;
    } else {
      assert i == |name| - 1;
    }
  }

  /** One character lower-cased: only the ASCII capitals change. */
  function LowerChar(c: char): (r: char)
    ensures 'A' <= c <= 'Z' ==> 'a' <= r <= 'z' && r as int == c as int + 32
    ensures !('A' <= r <= 'Z')
    ensures !('A' <= c <= 'Z') ==> r == c
  {
    if 'A' <= c <= 'Z' then (c as int + 32) as char else c
  }

  /** Lower-casing of the ASCII letters; every other character is kept. */
  function Lower(s: string): (r: string)
    ensures |r| == |s|
    ensures forall i :: 0 <= i < |s| ==> r[i] == LowerChar(s[i])
  {
    if s == [] then [] else [LowerChar(s[0])] + Lower(s[1..])
  }

  /** Lower-casing twice is lower-casing once. */
  lemma LowerIdempotent(s: string)
    ensures Lower(Lower(s)) == Lower(s)
  {
    var once := Lower(s);
    forall i | 0 <= i < |once| ensures Lower(once)[i] == once[i] {
      assert once[i] == LowerChar(s[i]);
    }
  }

  // ---------------------------------------------------------------------
  // Importers

  /** The placeholder asset list of each known suffix, in lower case. */
  const AssetsBySuffix: map<string, seq<string>> := map[
    ".gltf" := ["gltf-binary", "pbr-textures"],
    ".glb" := ["embedded-binary", "compressed-textures"],
    ".fbx" := ["fbx-materials", "animation-curves"],
    ".obj" := ["mtl-materials", "uv-coordinates"],
    ".ifc" := ["ifc-structure", "bim-properties"],
    ".rvt" := ["revit-metadata", "autodesk-materials"]]

  const GenericAssets: seq<string> := ["generic-assets"]

  /** The chain of suffix tests of the asset inference, on a lower-cased suffix. */
  function AssetsForSuffix(s: string): (assets: seq<string>)
    ensures assets == if s in AssetsBySuffix then AssetsBySuffix[s] else GenericAssets
  {
    if s == ".gltf" then ["gltf-binary", "pbr-textures"]
    else if s == ".glb" then ["embedded-binary", "compressed-textures"]
    else if s == ".fbx" then ["fbx-materials", "animation-curves"]
    else if s == ".obj" then ["mtl-materials", "uv-coordinates"]
    else if s == ".ifc" then ["ifc-structure", "bim-properties"]
    else if s == ".rvt" then ["revit-metadata", "autodesk-materials"]
    else ["generic-assets"]
  }

  /** An importer: the suffixes it accepts and the format name it records. */
  datatype StubImporter = StubImporter(supportedSuffixes: seq<string>, formatName: string)
  {
    /**
     * The assets a source file needs, chosen by its lower-cased suffix
     * (every comparison of the source's chain uses the same lower-cased
     * suffix).
     */
    function InferRequiredAssets(source: string): seq<string>
    {
      AssetsForSuffix(Lower(Suffix(source)))
    }

    /** The attributes of the root node that describes a source file. */
    function RootNode(source: string, requiredAssets: seq<string>): (root: Attributes)
      ensures "type" in root && root["type"] == Str("scene")
      ensures "origin_file" in root && root["origin_file"] == Str(source)
      ensures "format" in root && root["format"] == Str(formatName)
      ensures "required_assets" in root && root["required_assets"] == StrList(requiredAssets)
      ensures |root| == 4
    {
      map[
        "type" := Str("scene"),
        "origin_file" := Str(source),
        "format" := Str(formatName),
        "required_assets" := StrList(requiredAssets)]
    }

    /**
     * The scene graph of a source file: a lone "root" node describing it,
     * or FileNotFoundError when the file does not exist.
     */
    function Load(spec: SceneSpecification, sourceExists: string -> bool): (r: Result<SceneGraph, Failure>)
      ensures r.Failure? <==> !sourceExists(spec.sourceFile)
      ensures r.Failure? ==> r.error == FileNotFoundError("Source file not found: " + spec.sourceFile)
      ensures r.Success? ==> r.value.Keys == {RootId} && r.value[RootId] == RootNode(spec.sourceFile, InferRequiredAssets(spec.sourceFile))
    {
      if !sourceExists(spec.sourceFile) then
        Failure(FileNotFoundError("Source file not found: " + spec.sourceFile))
      else
        Success(map[RootId := RootNode(spec.sourceFile, InferRequiredAssets(spec.sourceFile))])
    }
  }

  /** The assets of a source file are the table entry of its lower-cased suffix, or the generic list. */
  lemma RequiredAssetsFromTable(importer: StubImporter, source: string)
    ensures var suffix := Lower(Suffix(source));
      importer.InferRequiredAssets(source) == if suffix in AssetsBySuffix then AssetsBySuffix[suffix] else GenericAssets
  {
  }

  /** An upper-case suffix gets the entry of its lower-case form: "model.GLTF" needs the glTF assets. */
  lemma UpperCaseSuffixAssets(importer: StubImporter, path: string)
    requires Suffix(path) == ".GLTF"
    ensures importer.InferRequiredAssets(path) == ["gltf-binary", "pbr-textures"]
  {
    assert Lower(".GLTF") == ".gltf";
  }

  const IFCImporter: StubImporter := StubImporter([".ifc"], "ifc")
  const FBXImporter: StubImporter := StubImporter([".fbx"], "fbx")
  const OBJImporter: StubImporter := StubImporter([".obj"], "obj")
  const GLTFImporter: StubImporter := StubImporter([".gltf", ".glb"], "gltf")
  const RVTImporter: StubImporter := StubImporter([".rvt"], "revit")

  /** The global registry, in registration order. */
  const SupportedImporters: seq<StubImporter> :=
    [IFCImporter, FBXImporter, OBJImporter, GLTFImporter, RVTImporter]

  /** The suffixes of a list of importers, importer by importer, in order. */
  function AllSuffixes(importers: seq<StubImporter>): seq<string>
  {
    if importers == [] then []
    else AllSuffixes(importers[..|importers| - 1]) + importers[|importers| - 1].supportedSuffixes
  }

  lemma {:induction false} InAllSuffixes(importers: seq<StubImporter>, s: string)
    ensures s in AllSuffixes(importers) <==> exists i :: 0 <= i < |importers| && s in importers[i].supportedSuffixes
  {
    if importers != [] {
      var init := importers[..|importers| - 1];
      InAllSuffixes(init, s);
      if s in AllSuffixes(importers) && s !in importers[|importers| - 1].supportedSuffixes {
        var i :| 0 <= i < |init| && s in init[i].supportedSuffixes;
        assert importers[i] == init[i];
      }
      if exists i :: 0 <= i < |importers| && s in importers[i].supportedSuffixes {
        var i :| 0 <= i < |importers| && s in importers[i].supportedSuffixes;
        if i < |init| { assert init[i] == importers[i]; }
      }
    }
  }

  /** Every suffix of the global registry, in registration order. */
  method IterSupportedSuffixes() returns (suffixes: seq<string>)
    ensures suffixes == AllSuffixes(SupportedImporters)
    ensures suffixes == [".ifc", ".fbx", ".obj", ".gltf", ".glb", ".rvt"]
  {
    RegistrySuffixes();
    suffixes := [];
    for i := 0 to |SupportedImporters|
      invariant suffixes == AllSuffixes(SupportedImporters[..i])
    {
      assert SupportedImporters[..i + 1][..i] == SupportedImporters[..i];
      suffixes := suffixes + SupportedImporters[i].supportedSuffixes;
    }
    assert SupportedImporters[..|SupportedImporters|] == SupportedImporters;
  }

  /** The global registry's suffixes, spelled out. */
  lemma RegistrySuffixes()
    ensures AllSuffixes(SupportedImporters) == [".ifc", ".fbx", ".obj", ".gltf", ".glb", ".rvt"]
  {
    var r := SupportedImporters;
    assert r[..0] == [];
    assert r[..1][..0] == r[..0];
    assert AllSuffixes(r[..1]) == [".ifc"];
    assert r[..2][..1] == r[..1];
    assert AllSuffixes(r[..2]) == [".ifc", ".fbx"];
    assert r[..3][..2] == r[..2];
    assert AllSuffixes(r[..3]) == [".ifc", ".fbx", ".obj"];
    assert r[..4][..3] == r[..3];
    assert AllSuffixes(r[..4]) == [".ifc", ".fbx", ".obj", ".gltf", ".glb"];
    assert r[..5][..4] == r[..4];
    assert r[..5] == r;
  }

  /** Python's `sep.join(parts)`. */
  function Join(sep: string, parts: seq<string>): string
  {
    if parts == [] then ""
    else if |parts| == 1 then parts[0]
    else parts[0] + sep + Join(sep, parts[1..])
  }

  const NoExtensionMessage: string := "Source file must have an extension identifying its format"

  /** The unsupported-type message: it always lists the global registry. */
  function UnsupportedMessage(suffix: string): (message: string)
    ensures message == "Unsupported file type: " + suffix + ". Supported extensions: "
      + Join(", ", [".ifc", ".fbx", ".obj", ".gltf", ".glb", ".rvt"])
  {
    RegistrySuffixes();
    "Unsupported file type: " + suffix + ". Supported extensions: " + Join(", ", AllSuffixes(SupportedImporters))
  }

  /** `i` is the earliest importer of the list that accepts `suffix`. */
  ghost predicate IsFirstMatch(importers: seq<StubImporter>, suffix: string, i: int)
  {
    && 0 <= i < |importers|
    && suffix in importers[i].supportedSuffixes
    && forall j :: 0 <= j < i ==> suffix !in importers[j].supportedSuffixes
  }

  /** The index of the earliest importer accepting `suffix`, if any. */
  function FirstMatch(importers: seq<StubImporter>, suffix: string): (r: Option<nat>)
    ensures r.Some? ==> IsFirstMatch(importers, suffix, r.value)
    ensures r.None? ==> forall j :: 0 <= j < |importers| ==> suffix !in importers[j].supportedSuffixes
  {
    if importers == [] then None
    else if suffix in importers[0].supportedSuffixes then Some(0)
    else match FirstMatch(importers[1..], suffix)
      case None => None
      case Some(i) => Some(i + 1)
  }

  /**
   * Importer selection: an empty suffix is refused before any importer is
   * consulted; otherwise the earliest importer accepting the lower-cased
   * suffix is chosen, and when none does the error lists the global registry.
   */
  function Select(importers: seq<StubImporter>, path: string): (r: Result<StubImporter, Failure>)
    ensures Lower(Suffix(path)) == "" ==> r == Failure(ImporterError(NoExtensionMessage))
    ensures r.Success? ==> exists i :: IsFirstMatch(importers, Lower(Suffix(path)), i) && r.value == importers[i]
    ensures r.Failure? && Lower(Suffix(path)) != "" ==>
      && (forall j :: 0 <= j < |importers| ==> Lower(Suffix(path)) !in importers[j].supportedSuffixes)
      && r.error == ImporterError(UnsupportedMessage(Lower(Suffix(path))))
  {
    var suffix := Lower(Suffix(path));
    if suffix == "" then Failure(ImporterError(NoExtensionMessage))
    else match FirstMatch(importers, suffix)
      case Some(i) => Success(importers[i])
      case None => Failure(ImporterError(UnsupportedMessage(suffix)))
  }

  /** Loading through a list of importers: select one, then let it load. */
  function LoadWith(importers: seq<StubImporter>, spec: SceneSpecification, sourceExists: string -> bool): (r: Result<SceneGraph, Failure>)
    ensures Select(importers, spec.sourceFile).Failure? ==> r == Failure(Select(importers, spec.sourceFile).error)
    ensures r.Success? <==> Select(importers, spec.sourceFile).Success? && sourceExists(spec.sourceFile)
    ensures Select(importers, spec.sourceFile).Success? && !sourceExists(spec.sourceFile) ==>
      r == Failure(FileNotFoundError("Source file not found: " + spec.sourceFile))
    ensures r.Success? ==> r.value.Keys == {RootId}
  {
    match Select(importers, spec.sourceFile)
    case Failure(e) => Failure(e)
    case Success(importer) => importer.Load(spec, sourceExists)
  }

  /** Dispatcher over a list of importers fixed when it is created. */
  class MultiFormatImporter {
    var importers: seq<StubImporter>

    /** A missing or empty list falls back to the global registry. */
    constructor (importers: Option<seq<StubImporter>>)
      ensures this.importers == if importers.Some? && importers.value != [] then importers.value else SupportedImporters
    {
      this.importers := if importers.Some? && importers.value != [] then importers.value else SupportedImporters;
    }

    method Load(spec: SceneSpecification, sourceExists: string -> bool) returns (r: Result<SceneGraph, Failure>)
      ensures r == LoadWith(importers, spec, sourceExists)
    {
      var selected := SelectImporter(spec.sourceFile);
      match selected
      case Failure(e) => r := Failure(e);
      case Success(importer) => r := importer.Load(spec, sourceExists);
    }

    method ValidateSourcePath(path: string) returns (r: Outcome<Failure>)
      ensures r.Pass? <==> Select(importers, path).Success?
      ensures r.Fail? ==> r.error == Select(importers, path).error
    {
      var selected := SelectImporter(path);
      r := if selected.Success? then Pass else Fail(selected.error);
    }

    method SelectImporter(path: string) returns (r: Result<StubImporter, Failure>)
      ensures r == Select(importers, path)
    {
      var suffix := Lower(Suffix(path));
      if suffix == "" {
        return Failure(ImporterError(NoExtensionMessage));
      }
      for i := 0 to |importers|
        invariant forall j :: 0 <= j < i ==> suffix !in importers[j].supportedSuffixes
      {
        if suffix in importers[i].supportedSuffixes {
          return Success(importers[i]);
        }
      }
      var supported := IterSupportedSuffixes();
      return Failure(ImporterError("Unsupported file type: " + suffix + ". Supported extensions: " + Join(", ", supported)));
    }
  }

  // ---------------------------------------------------------------------
  // Properties of the global registry

  /** In the global registry each suffix belongs to exactly one importer. */
  lemma RegistrySuffixesUnique(i: int, j: int, s: string)
    requires 0 <= i < |SupportedImporters| && 0 <= j < |SupportedImporters|
    requires s in SupportedImporters[i].supportedSuffixes && s in SupportedImporters[j].supportedSuffixes
    ensures i == j
  {
    assert ".gltf"[1] == 'g' && ".glb"[1] == 'g' && ".ifc"[1] == 'i' && ".fbx"[1] == 'f' && ".obj"[1] == 'o' && ".rvt"[1] == 'r';
    assert |".gltf"| == 5 && |".glb"| == 4;
  }

  /** The global registry accepts a path exactly when its lower-cased suffix is one of the listed ones. */
  lemma {:induction false} RegistryAccepts(path: string)
    ensures Select(SupportedImporters, path).Success? <==> Lower(Suffix(path)) in AllSuffixes(SupportedImporters)
  {
    var s := Lower(Suffix(path));
    InAllSuffixes(SupportedImporters, s);
    RegistrySuffixes();
  }

  /** Both glTF suffixes, in any case, select the one importer whose format is "gltf". */
  lemma GltfSuffixesShareImporter(path: string)
    requires Lower(Suffix(path)) == ".gltf" || Lower(Suffix(path)) == ".glb"
    ensures Select(SupportedImporters, path) == Success(GLTFImporter)
    ensures GLTFImporter.formatName == "gltf"
  {
    var s := Lower(Suffix(path));
    var r := Select(SupportedImporters, path);
    assert s in SupportedImporters[3].supportedSuffixes;
    assert r.Success? by {
      assert FirstMatch(SupportedImporters, s).Some?;
    }
    var i :| IsFirstMatch(SupportedImporters, s, i) && r.value == SupportedImporters[i];
    RegistrySuffixesUnique(i, 3, s);
  }

  /** The earliest importer of a list accepting the lower-cased suffix is the one selected. */
  lemma SelectFirstMatch(importers: seq<StubImporter>, path: string, i: int)
    requires Lower(Suffix(path)) != "" && IsFirstMatch(importers, Lower(Suffix(path)), i)
    ensures Select(importers, path) == Success(importers[i])
  {
  }

  lemma SuffixCases()
    ensures Lower(".OBJ") == ".obj" && ".ifc" != ".obj"
  {
  }

  lemma ObjCases()
    ensures Lower(".obj") == ".obj"
    ensures IsFirstMatch(SupportedImporters, ".obj", 2)
  {
  }

  /** A path ending in ".obj" (such as "house.obj") selects the OBJ importer. */
  lemma ObjSuffixSelectsObj(path: string)
    requires Suffix(path) == ".obj"
    ensures Select(SupportedImporters, path) == Success(OBJImporter)
  {
    ObjCases();
    SelectFirstMatch(SupportedImporters, path, 2);
  }

  /** Selection lower-cases the suffix: a path ending in ".OBJ" (such as "house.OBJ") selects the OBJ importer. */
  lemma UpperCaseSuffixSelectsObj(path: string)
    requires Suffix(path) == ".OBJ"
    ensures Select(SupportedImporters, path) == Success(OBJImporter)
  {
    SuffixCases();
    assert IsFirstMatch(SupportedImporters, ".obj", 2);
    SelectFirstMatch(SupportedImporters, path, 2);
  }

  /** A non-empty suffix that no importer of the list accepts is reported with the global listing. */
  lemma SelectUnsupported(importers: seq<StubImporter>, path: string)
    requires Lower(Suffix(path)) != ""
    requires forall j :: 0 <= j < |importers| ==> Lower(Suffix(path)) !in importers[j].supportedSuffixes
    ensures Select(importers, path) == Failure(ImporterError(UnsupportedMessage(Lower(Suffix(path)))))
  {
  }

  /**
   * A custom importer list that lacks the suffix still reports the global
   * registry in its error, listed as UnsupportedMessage states.
   */
  lemma CustomListReportsGlobalRegistry(path: string)
    requires Lower(Suffix(path)) == ".ifc"
    ensures Select([OBJImporter], path) == Failure(ImporterError(UnsupportedMessage(".ifc")))
  {
    SuffixCases();
    SelectUnsupported([OBJImporter], path);
  }

  /** Validation against the global registry, as the command line and the runner use it. */
  method ValidateSourcePath(path: string) returns (r: Outcome<Failure>)
    ensures r.Pass? <==> Select(SupportedImporters, path).Success?
    ensures r.Fail? ==> r.error == Select(SupportedImporters, path).error
  {
    var importer := new MultiFormatImporter(None);
    r := importer.ValidateSourcePath(path);
  }
}
