/**
 * The geometry stage: marks the root node as optimized. It builds a new
 * graph and a new root node, so as a value-level function it cannot disturb
 * the graph it is given.
 */
module GeometryOptimizer {
  import opened Wrappers
  import opened Core

  const OptimizedFlag: string := "geometry_optimized"
  const MissingRootMessage: string := "Scene graph missing root node"

  /**
   * The optimized graph: the same nodes, the root with
   * `geometry_optimized="true"` (replacing any earlier value); a graph
   * without a root is a PipelineError.
   */
  function Optimize(sceneGraph: SceneGraph): (r: Result<SceneGraph, Failure>)
    ensures r.Failure? <==> RootId !in sceneGraph
    ensures r.Failure? ==> r.error == PipelineError(MissingRootMessage)
    ensures r.Success? ==> r.value.Keys == sceneGraph.Keys
    ensures r.Success? ==> forall id :: id in sceneGraph && id != RootId ==> r.value[id] == sceneGraph[id]
    ensures r.Success? ==> var root, old_root := r.value[RootId], sceneGraph[RootId];
      && root.Keys == old_root.Keys + {OptimizedFlag}
      && root[OptimizedFlag] == Str("true")
      && forall a :: a in old_root && a != OptimizedFlag ==> root[a] == old_root[a]
  {
    if RootId !in sceneGraph then
      Failure(PipelineError(MissingRootMessage))
    else
      Success(sceneGraph[RootId := sceneGraph[RootId][OptimizedFlag := Str("true")]])
  }

  /** Running the stage on its own output changes nothing. */
  lemma OptimizeIdempotent(sceneGraph: SceneGraph)
    requires RootId in sceneGraph
    ensures Optimize(sceneGraph).Success?
    ensures Optimize(Optimize(sceneGraph).value) == Optimize(sceneGraph)
  {
    var once := Optimize(sceneGraph).value;
    var root := once[RootId];
    assert root[OptimizedFlag := Str("true")] == root;
    assert once[RootId := root] == once;
  }
}
