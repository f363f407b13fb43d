/**
 * The material stage. It copies the outer graph but not the node maps, so
 * the default materials it fills in land in the very node objects the
 * caller's graph holds. Node maps are therefore objects here.
 */
module MaterialEnhancer {
  import opened Core

  const MaterialKey: string := "material"
  const DefaultMaterial: string := "ai-generated"
  const MetadataId: string := "metadata"
  const MaterialsKey: string := "materials"
  const GeneratedMarker: string := "generated"

  /** The attribute map of one node: a mutable object that several graphs may share. */
  class Node {
    var attrs: Attributes

    constructor (attrs: Attributes)
      ensures this.attrs == attrs
    {
      this.attrs := attrs;
    }
  }

  /** A scene graph whose node maps are objects. */
  type NodeGraph = map<string, Node>

  /** The attribute values the graph's nodes hold now. */
  function Snapshot(g: NodeGraph): (s: SceneGraph)
    reads g.Values
    ensures s.Keys == g.Keys
  {
    map id | id in g :: g[id].attrs
  }

  /** No node object is held under two identifiers. */
  ghost predicate DistinctNodes(g: NodeGraph)
  {
    forall i, j :: i in g && j in g && i != j ==> g[i] != g[j]
  }

  /** `setdefault("material", "ai-generated")` on one attribute map. */
  function WithDefaultMaterial(attrs: Attributes): (r: Attributes)
    ensures r.Keys == attrs.Keys + {MaterialKey}
    ensures r[MaterialKey] == if MaterialKey in attrs then attrs[MaterialKey] else Str(DefaultMaterial)
    ensures forall a :: a in attrs ==> r[a] == attrs[a]
  {
    if MaterialKey in attrs then attrs else attrs[MaterialKey := Str(DefaultMaterial)]
  }

  /**
   * The stage on scene-graph values: every node but the root gets a
   * material unless it has one, and the "metadata" node (created empty
   * when missing, after the other nodes are filled) gets
   * `materials="generated"`.
   */
  function Enhanced(sceneGraph: SceneGraph): (r: SceneGraph)
    ensures r.Keys == sceneGraph.Keys + {MetadataId}
    ensures RootId in sceneGraph ==> r[RootId] == sceneGraph[RootId]
    ensures forall id :: id in sceneGraph && id != RootId && id != MetadataId ==> r[id] == WithDefaultMaterial(sceneGraph[id])
    ensures MetadataId in sceneGraph ==> r[MetadataId] == WithDefaultMaterial(sceneGraph[MetadataId])[MaterialsKey := Str(GeneratedMarker)]
    ensures MetadataId !in sceneGraph ==> r[MetadataId] == map[MaterialsKey := Str(GeneratedMarker)]
  {
    var filled := map id | id in sceneGraph :: if id == RootId then sceneGraph[id] else WithDefaultMaterial(sceneGraph[id]);
    var metadata := if MetadataId in filled then filled[MetadataId] else map[];
    filled[MetadataId := metadata[MaterialsKey := Str(GeneratedMarker)]]
  }

  /** A material a node already declares is never replaced. */
  lemma EnhancedKeepsMaterials(sceneGraph: SceneGraph, id: string)
    requires id in sceneGraph && MaterialKey in sceneGraph[id]
    ensures MaterialKey in Enhanced(sceneGraph)[id]
    ensures Enhanced(sceneGraph)[id][MaterialKey] == sceneGraph[id][MaterialKey]
  {
  }

  /** Every node except the root ends up with a material; a node that lacked one gets "ai-generated". */
  lemma EnhancedFillsMaterials(sceneGraph: SceneGraph, id: string)
    requires id in sceneGraph && id != RootId
    ensures MaterialKey in Enhanced(sceneGraph)[id]
    ensures MaterialKey !in sceneGraph[id] ==> Enhanced(sceneGraph)[id][MaterialKey] == Str(DefaultMaterial)
  {
  }

  /** The metadata node carries the marker and keeps the attributes it had. */
  lemma EnhancedMarksMetadata(sceneGraph: SceneGraph)
    ensures MetadataId in Enhanced(sceneGraph)
    ensures Enhanced(sceneGraph)[MetadataId][MaterialsKey] == Str(GeneratedMarker)
    ensures MetadataId in sceneGraph ==> forall a :: a in sceneGraph[MetadataId] && a != MaterialsKey ==>
      Enhanced(sceneGraph)[MetadataId][a] == sceneGraph[MetadataId][a]
    ensures MetadataId !in sceneGraph ==> MaterialKey !in Enhanced(sceneGraph)[MetadataId]
  {
  }

  /** When the graph already has a metadata node, running the stage twice gives what running it once gives. */
  lemma EnhancedIdempotentWithMetadata(sceneGraph: SceneGraph)
    requires MetadataId in sceneGraph
    ensures Enhanced(Enhanced(sceneGraph)) == Enhanced(sceneGraph)
  {
    var once := Enhanced(sceneGraph);
    forall id | id in once
      ensures Enhanced(once)[id] == once[id]
    {
      if id == MetadataId {
        assert MaterialKey in once[MetadataId];
        assert once[MetadataId][MaterialsKey := Str(GeneratedMarker)] == once[MetadataId];
      }
    }
  }

  /**
   * A metadata node the stage creates gets no material, since it is
   * created after the loop; a second run fills one in and changes nothing
   * else.
   */
  lemma EnhancedTwiceWithoutMetadata(sceneGraph: SceneGraph)
    requires MetadataId !in sceneGraph
    ensures var once := Enhanced(sceneGraph);
      Enhanced(once) == once[MetadataId := once[MetadataId][MaterialKey := Str(DefaultMaterial)]]
  {
    var once := Enhanced(sceneGraph);
    var expected := once[MetadataId := once[MetadataId][MaterialKey := Str(DefaultMaterial)]];
    forall id | id in once
      ensures Enhanced(once)[id] == expected[id]
    {
      if id == MetadataId {
        assert MaterialKey !in once[MetadataId];
        assert WithDefaultMaterial(once[MetadataId])[MaterialsKey := Str(GeneratedMarker)] == expected[MetadataId];
      }
    }
  }

  /** The objects held under identifiers other than the root: the ones the loop fills. */
  ghost function FilledNodes(g: NodeGraph, ids: set<string>): set<Node>
  {
    set id | id in ids && id in g && id != RootId :: g[id]
  }

  /**
   * What one node object holds after the stage, from what it held before:
   * filled if some non-root identifier holds it, and marked if it is the
   * metadata node.
   */
  ghost function NodeAfter(g: NodeGraph, before: Attributes, node: Node): Attributes
  {
    var filled := if node in FilledNodes(g, g.Keys) then WithDefaultMaterial(before) else before;
    if MetadataId in g && node == g[MetadataId] then filled[MaterialsKey := Str(GeneratedMarker)] else filled
  }

  /**
   * The loop of the stage: each node object held under an identifier other
   * than the root gets a default material, in place.
   */
  method FillMaterials(g: NodeGraph)
    modifies g.Values
    ensures forall id :: id in g ==>
      g[id].attrs == if g[id] in FilledNodes(g, g.Keys) then WithDefaultMaterial(old(g[id].attrs)) else old(g[id].attrs)
  {
    var pending := g.Keys;
    ghost var visited: set<string> := {};
    while pending != {}
      invariant pending + visited == g.Keys && pending !! visited
      invariant forall id :: id in g ==>
        g[id].attrs == if g[id] in FilledNodes(g, visited) then WithDefaultMaterial(old(g[id].attrs)) else old(g[id].attrs)
      decreases pending
    {
      var id :| id in pending;
      if id != RootId {
        var node := g[id];
        node.attrs := WithDefaultMaterial(node.attrs);
      }
      pending := pending - {id};
      visited := visited + {id};
    }
    assert visited == g.Keys;
  }

  /**
   * The last step of the stage: the metadata node, created empty when the
   * graph has none, gets the marker in place.
   */
  method MarkMetadata(g: NodeGraph) returns (marked: NodeGraph)
    modifies g.Values
    ensures marked.Keys == g.Keys + {MetadataId}
    ensures forall id :: id in g ==> marked[id] == g[id]
    ensures MetadataId !in g ==>
      fresh(marked[MetadataId]) && marked[MetadataId].attrs == map[MaterialsKey := Str(GeneratedMarker)]
    ensures forall id :: id in g ==>
      g[id].attrs == if MetadataId in g && g[id] == g[MetadataId] then old(g[id].attrs)[MaterialsKey := Str(GeneratedMarker)] else old(g[id].attrs)
  {
    marked := g;
    if MetadataId !in marked {
      var created := new Node(map[]);
      marked := marked[MetadataId := created];
    }
    var metadata := marked[MetadataId];
    metadata.attrs := metadata.attrs[MaterialsKey := Str(GeneratedMarker)];
  }

  /** The per-object effect of the stage, read off the node values before and after. */
  ghost predicate StageEffect(g: NodeGraph, enhanced: NodeGraph, before: SceneGraph, after: SceneGraph)
  {
    && before.Keys == g.Keys
    && after.Keys == enhanced.Keys == g.Keys + {MetadataId}
    && (forall id :: id in g ==> enhanced[id] == g[id])
    && (MetadataId !in g ==> after[MetadataId] == map[MaterialsKey := Str(GeneratedMarker)])
    && (forall id :: id in g ==> after[id] == NodeAfter(g, before[id], g[id]))
  }

  /** With no shared node objects, the per-object description of the stage is the value-level one. */
  lemma StageEffectDistinct(g: NodeGraph, enhanced: NodeGraph, before: SceneGraph, after: SceneGraph)
    requires StageEffect(g, enhanced, before, after) && DistinctNodes(g)
    ensures after == Enhanced(before)
  {
    forall id | id in g
      ensures after[id] == Enhanced(before)[id]
    {
      assert g[id] in FilledNodes(g, g.Keys) <==> id != RootId;
    }
  }

  /**
   * The stage as the source runs it: a shallow copy of the graph, whose
   * node objects are updated in place, so the caller's graph sees every
   * change made to a node it already held. Only a metadata node the stage
   * creates is new.
   */
  method Enhance(sceneGraph: NodeGraph) returns (enhanced: NodeGraph)
    modifies sceneGraph.Values
    ensures enhanced.Keys == sceneGraph.Keys + {MetadataId}
    ensures forall id :: id in sceneGraph ==> enhanced[id] == sceneGraph[id]
    ensures MetadataId !in sceneGraph ==>
      fresh(enhanced[MetadataId]) && enhanced[MetadataId].attrs == map[MaterialsKey := Str(GeneratedMarker)]
    ensures forall id :: id in sceneGraph ==>
      sceneGraph[id].attrs == NodeAfter(sceneGraph, old(sceneGraph[id].attrs), sceneGraph[id])
    ensures DistinctNodes(sceneGraph) ==> Snapshot(enhanced) == Enhanced(old(Snapshot(sceneGraph)))
  {
    ghost var before := Snapshot(sceneGraph);
    FillMaterials(sceneGraph);
    enhanced := MarkMetadata(sceneGraph);
    assert StageEffect(sceneGraph, enhanced, before, Snapshot(enhanced));
    if DistinctNodes(sceneGraph) {
      StageEffectDistinct(sceneGraph, enhanced, before, Snapshot(enhanced));
    }
  }

  /** Fresh, distinct node objects holding the attribute maps of a scene graph. */
  method NodesOf(sceneGraph: SceneGraph) returns (g: NodeGraph)
    ensures g.Keys == sceneGraph.Keys
    ensures forall id :: id in g ==> fresh(g[id])
    ensures DistinctNodes(g)
    ensures Snapshot(g) == sceneGraph
  {
    g := map[];
    var pending := sceneGraph.Keys;
    while pending != {}
      invariant pending !! g.Keys && pending + g.Keys == sceneGraph.Keys
      invariant forall id :: id in g ==> fresh(g[id])
      invariant DistinctNodes(g)
      invariant forall id :: id in g ==> g[id].attrs == sceneGraph[id]
      decreases pending
    {
      var id :| id in pending;
      var node := new Node(sceneGraph[id]);
      g := g[id := node];
      pending := pending - {id};
    }
  }

  /**
   * The stage applied to a graph whose node objects no one else holds, as
   * the runner does: the graph it returns is `Enhanced` of the one given.
   */
  method EnhanceOwned(sceneGraph: SceneGraph) returns (enhanced: SceneGraph)
    ensures enhanced == Enhanced(sceneGraph)
  {
    var nodes := NodesOf(sceneGraph);
    var result := Enhance(nodes);
    enhanced := Snapshot(result);
  }
}
