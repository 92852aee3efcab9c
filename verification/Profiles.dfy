/** The workflow profiles: graphs with one chain of stages for each asset, and the order in which they run. */
module Profiles {
  import opened Wrappers
  import opened Arithmetic
  import opened DagKahn
  import opened Dag

  /** Ids are carried as their canonical text. */
  datatype WorkflowStartCommon = WorkflowStartCommon(tenantId: string, documentId: Option<string>)

  datatype FullRagIndexInput = FullRagIndexInput(common: WorkflowStartCommon, assetIds: seq<string>)

  datatype IngestOnlyInput = IngestOnlyInput(common: WorkflowStartCommon, assetIds: seq<string>)

  datatype ProfileError = NoAssets | MissingDocumentId | Other(error: DagError)

  // ----- chains of stages -----

  datatype Stage = Stage(prefix: string, kind: TaskKind, caption: string)

  const FULL: seq<Stage> := [
    Stage("extract:", Parse, "extract"), Stage("normalize:", Normalize, "normalize"), Stage("chunk:", Chunk, "chunk"),
    Stage("embed:", Embed, "embed"), Stage("index:", Index, "index")]

  const INGEST: seq<Stage> := [
    Stage("extract:", Parse, "extract"), Stage("normalize:", Normalize, "normalize"), Stage("chunk:", Chunk, "chunk")]

  ghost function ChainNodes(stages: seq<Stage>, asset: string): seq<DagNode> {
    seq(|stages|, s requires 0 <= s < |stages| =>
      DagNode(stages[s].prefix + asset, stages[s].kind, Some(stages[s].caption)))
  }

  ghost function ChainEdges(stages: seq<Stage>, asset: string): seq<DagEdge>
    requires stages != []
  {
    seq(|stages| - 1, s requires 0 <= s < |stages| - 1 =>
      DagEdge(stages[s].prefix + asset, stages[s + 1].prefix + asset))
  }

  ghost function AllNodes(stages: seq<Stage>, assets: seq<string>): seq<DagNode> {
    if assets == [] then []
    else AllNodes(stages, assets[..|assets| - 1]) + ChainNodes(stages, assets[|assets| - 1])
  }

  ghost function AllEdges(stages: seq<Stage>, assets: seq<string>): seq<DagEdge>
    requires stages != []
  {
    if assets == [] then []
    else AllEdges(stages, assets[..|assets| - 1]) + ChainEdges(stages, assets[|assets| - 1])
  }

  /** Stage by stage, each in asset order. */
  ghost function StageByStage(stages: seq<Stage>, assets: seq<string>): seq<string> {
    Flat(seq(|stages|, s requires 0 <= s < |stages| => KeyRow(stages[s], assets)))
  }

  ghost function KeyRow(stage: Stage, assets: seq<string>): seq<string> {
    seq(|assets|, a requires 0 <= a < |assets| => stage.prefix + assets[a])
  }

  ghost predicate PairwiseDistinct(assets: seq<string>) {
    forall i, j :: 0 <= i < j < |assets| ==> assets[i] != assets[j]
  }

  /** Asset i is the first that repeats an earlier one. */
  ghost predicate FirstRepeat(assets: seq<string>, i: nat) {
    i < |assets| && assets[i] in assets[..i] && PairwiseDistinct(assets[..i])
  }

  /** No assets; else no document id; else a repeated asset, whose first stage repeats a key. */
  ghost predicate IsProfileError(common: WorkflowStartCommon, assets: seq<string>, e: ProfileError) {
    match e
    case NoAssets => assets == []
    case MissingDocumentId => assets != [] && common.documentId.None?
    case Other(e) =>
      && assets != [] && common.documentId.Some?
      && exists i: nat :: FirstRepeat(assets, i) && e == DuplicateNodeKey("extract:" + assets[i])
  }

  // ----- the builders -----

  method ValidateAssets(assets: seq<string>) returns (error: Option<ProfileError>)
    ensures error == if assets == [] then Some(NoAssets) else None
  {
    if assets == [] {
      return Some(NoAssets);
    }
    return None;
  }

  method AppendChain(asset: string, nodes: seq<DagNode>, edges: seq<DagEdge>) returns (nodes': seq<DagNode>, edges': seq<DagEdge>)
    ensures nodes' == nodes + [
              DagNode("extract:" + asset, Parse, Some("extract")), DagNode("normalize:" + asset, Normalize, Some("normalize")),
              DagNode("chunk:" + asset, Chunk, Some("chunk")), DagNode("embed:" + asset, Embed, Some("embed")),
              DagNode("index:" + asset, Index, Some("index"))]
    ensures edges' == edges + [
              DagEdge("extract:" + asset, "normalize:" + asset), DagEdge("normalize:" + asset, "chunk:" + asset),
              DagEdge("chunk:" + asset, "embed:" + asset), DagEdge("embed:" + asset, "index:" + asset)]
  {
    var extractKey := "extract:" + asset;
    var normalizeKey := "normalize:" + asset;
    var chunkKey := "chunk:" + asset;
    var embedKey := "embed:" + asset;
    var indexKey := "index:" + asset;
    nodes' := nodes + [DagNode(extractKey, Parse, Some("extract"))];
    nodes' := nodes' + [DagNode(normalizeKey, Normalize, Some("normalize"))];
    nodes' := nodes' + [DagNode(chunkKey, Chunk, Some("chunk"))];
    nodes' := nodes' + [DagNode(embedKey, Embed, Some("embed"))];
    nodes' := nodes' + [DagNode(indexKey, Index, Some("index"))];
    edges' := edges + [DagEdge(extractKey, normalizeKey)];
    edges' := edges' + [DagEdge(normalizeKey, chunkKey)];
    edges' := edges' + [DagEdge(chunkKey, embedKey)];
    edges' := edges' + [DagEdge(embedKey, indexKey)];
  }

  method AppendLinearChain(asset: string, nodes: seq<DagNode>, edges: seq<DagEdge>)
    returns (nodes': seq<DagNode>, edges': seq<DagEdge>)
    ensures nodes' == nodes + [
              DagNode("extract:" + asset, Parse, Some("extract")), DagNode("normalize:" + asset, Normalize, Some("normalize")),
              DagNode("chunk:" + asset, Chunk, Some("chunk"))]
    ensures edges' == edges + [
              DagEdge("extract:" + asset, "normalize:" + asset), DagEdge("normalize:" + asset, "chunk:" + asset)]
  {
    var extractKey := "extract:" + asset;
    var normalizeKey := "normalize:" + asset;
    var chunkKey := "chunk:" + asset;
    nodes' := nodes + [DagNode(extractKey, Parse, Some("extract"))];
    nodes' := nodes' + [DagNode(normalizeKey, Normalize, Some("normalize"))];
    nodes' := nodes' + [DagNode(chunkKey, Chunk, Some("chunk"))];
    edges' := edges + [DagEdge(extractKey, normalizeKey)];
    edges' := edges' + [DagEdge(normalizeKey, chunkKey)];
  }

  /** The graph, if it is valid. */
  method Validated(dag: Graph, ghost stages: seq<Stage>, ghost first: string, ghost assets: seq<string>) returns (r: Result<Graph, ProfileError>)
    requires StagesApart(stages) && assets != [] && stages[0].prefix == first
    requires dag.nodes == AllNodes(stages, assets) && dag.edges == AllEdges(stages, assets)
    ensures r.Ok? <==> PairwiseDistinct(assets)
    ensures r.Ok? ==> r.value == dag && IsValid(dag.nodes, dag.edges) && dag.Topological() == StageByStage(stages, assets)
    ensures r.Err? ==> r.error.Other? && exists i: nat :: FirstRepeat(assets, i) && r.error.error == DuplicateNodeKey(first + assets[i])
  {
    hide AllNodes, AllEdges, StageByStage, IsValid, IsErrorOf, PairwiseDistinct, FirstRepeat,
      UniqueKeys, AllKnown, KeyCycle, IndexEdges, KeysAt;
    var error := dag.Validate();
    Verdict(dag, stages, assets, error);
    if error.Some? {
      return Err(Other(error.value));
    }
    return Ok(dag);
  }

  /** The chains of all assets. */
  method AppendChains(assets: seq<string>) returns (nodes: seq<DagNode>, edges: seq<DagEdge>)
    ensures nodes == AllNodes(FULL, assets) && edges == AllEdges(FULL, assets)
  {
    hide AllNodes, AllEdges, ChainNodes, ChainEdges;
    NoChains(FULL);
    nodes, edges := [], [];
    for i := 0 to |assets|
      invariant nodes == AllNodes(FULL, assets[..i]) && edges == AllEdges(FULL, assets[..i])
    {
      OneMoreChain(FULL, assets, i);
      FullChain(assets[i]);
      nodes, edges := AppendChain(assets[i], nodes, edges);
    }
    assert assets[..|assets|] == assets;
  }

  method AppendLinearChains(assets: seq<string>) returns (nodes: seq<DagNode>, edges: seq<DagEdge>)
    ensures nodes == AllNodes(INGEST, assets) && edges == AllEdges(INGEST, assets)
  {
    hide AllNodes, AllEdges, ChainNodes, ChainEdges;
    NoChains(INGEST);
    nodes, edges := [], [];
    for i := 0 to |assets|
      invariant nodes == AllNodes(INGEST, assets[..i]) && edges == AllEdges(INGEST, assets[..i])
    {
      OneMoreChain(INGEST, assets, i);
      IngestChain(assets[i]);
      nodes, edges := AppendLinearChain(assets[i], nodes, edges);
    }
    assert assets[..|assets|] == assets;
  }

  method BuildFullRagIndex(input: FullRagIndexInput) returns (r: Result<Graph, ProfileError>)
    ensures r.Ok? <==> input.assetIds != [] && PairwiseDistinct(input.assetIds) && input.common.documentId.Some?
    ensures r.Ok? ==>
              var g, assets, m := r.value, input.assetIds, |input.assetIds|;
              IsValid(g.nodes, g.edges) && var nodes, edges, keys := g.nodes, g.edges, g.Topological();
              && g.name == "full_rag_index" && g.version == 1
              && |nodes| == 5 * m && |edges| == 4 * m && |keys| == 5 * m
              && (forall a :: 0 <= a < m ==>
                    && nodes[5 * a] == DagNode("extract:" + assets[a], Parse, Some("extract"))
                    && nodes[5 * a + 1] == DagNode("normalize:" + assets[a], Normalize, Some("normalize"))
                    && nodes[5 * a + 2] == DagNode("chunk:" + assets[a], Chunk, Some("chunk"))
                    && nodes[5 * a + 3] == DagNode("embed:" + assets[a], Embed, Some("embed"))
                    && nodes[5 * a + 4] == DagNode("index:" + assets[a], Index, Some("index")))
              && (forall a :: 0 <= a < m ==>
                    && edges[4 * a] == DagEdge("extract:" + assets[a], "normalize:" + assets[a])
                    && edges[4 * a + 1] == DagEdge("normalize:" + assets[a], "chunk:" + assets[a])
                    && edges[4 * a + 2] == DagEdge("chunk:" + assets[a], "embed:" + assets[a])
                    && edges[4 * a + 3] == DagEdge("embed:" + assets[a], "index:" + assets[a]))
              && (forall a :: 0 <= a < m ==>
                    && keys[a] == "extract:" + assets[a]
                    && keys[m + a] == "normalize:" + assets[a]
                    && keys[2 * m + a] == "chunk:" + assets[a]
                    && keys[3 * m + a] == "embed:" + assets[a]
                    && keys[4 * m + a] == "index:" + assets[a])
    ensures r.Err? ==> IsProfileError(input.common, input.assetIds, r.error)
  {
    FullApart();
    hide AllNodes, AllEdges, ChainNodes, ChainEdges, StageByStage, IsValid, PairwiseDistinct, FirstRepeat, StagesApart,
      UniqueKeys, AllKnown, KeyCycle, IndexEdges, KeysAt, FULL;
    var noAssets := ValidateAssets(input.assetIds);
    if noAssets.Some? {
      return Err(noAssets.value);
    }
    if input.common.documentId.None? {
      return Err(MissingDocumentId);
    }
    var nodes, edges := AppendChains(input.assetIds);
    r := Validated(Graph("full_rag_index", 1, nodes, edges), FULL, "extract:", input.assetIds);
    if r.Ok? {
      FullGraph(r.value, input.assetIds);
    }
  }

  method BuildIngestOnly(input: IngestOnlyInput) returns (r: Result<Graph, ProfileError>)
    ensures r.Ok? <==> input.assetIds != [] && PairwiseDistinct(input.assetIds) && input.common.documentId.Some?
    ensures r.Ok? ==>
              var g, assets, m := r.value, input.assetIds, |input.assetIds|;
              IsValid(g.nodes, g.edges) && var nodes, edges, keys := g.nodes, g.edges, g.Topological();
              && g.name == "ingest_only" && g.version == 1
              && |nodes| == 3 * m && |edges| == 2 * m && |keys| == 3 * m
              && (forall a :: 0 <= a < m ==>
                    && nodes[3 * a] == DagNode("extract:" + assets[a], Parse, Some("extract"))
                    && nodes[3 * a + 1] == DagNode("normalize:" + assets[a], Normalize, Some("normalize"))
                    && nodes[3 * a + 2] == DagNode("chunk:" + assets[a], Chunk, Some("chunk")))
              && (forall a :: 0 <= a < m ==>
                    && edges[2 * a] == DagEdge("extract:" + assets[a], "normalize:" + assets[a])
                    && edges[2 * a + 1] == DagEdge("normalize:" + assets[a], "chunk:" + assets[a]))
              && (forall a :: 0 <= a < m ==>
                    && keys[a] == "extract:" + assets[a]
                    && keys[m + a] == "normalize:" + assets[a]
                    && keys[2 * m + a] == "chunk:" + assets[a])
    ensures r.Err? ==> IsProfileError(input.common, input.assetIds, r.error)
  {
    IngestApart();
    hide AllNodes, AllEdges, ChainNodes, ChainEdges, StageByStage, IsValid, PairwiseDistinct, FirstRepeat, StagesApart,
      UniqueKeys, AllKnown, KeyCycle, IndexEdges, KeysAt, INGEST;
    var noAssets := ValidateAssets(input.assetIds);
    if noAssets.Some? {
      return Err(noAssets.value);
    }
    if input.common.documentId.None? {
      return Err(MissingDocumentId);
    }
    var nodes, edges := AppendLinearChains(input.assetIds);
    r := Validated(Graph("ingest_only", 1, nodes, edges), INGEST, "extract:", input.assetIds);
    if r.Ok? {
      IngestParts(input.assetIds);
    }
  }

  // ----- the stages of each profile, one by one -----

  lemma NoChains(stages: seq<Stage>)
    requires stages != []
    ensures AllNodes(stages, []) == [] && AllEdges(stages, []) == []
  {
  }

  lemma OneMoreChain(stages: seq<Stage>, assets: seq<string>, i: nat)
    requires stages != [] && i < |assets|
    ensures AllNodes(stages, assets[..i + 1]) == AllNodes(stages, assets[..i]) + ChainNodes(stages, assets[i])
    ensures AllEdges(stages, assets[..i + 1]) == AllEdges(stages, assets[..i]) + ChainEdges(stages, assets[i])
  {
    assert assets[..i + 1][..i] == assets[..i];
  }

  lemma FullChain(asset: string)
    ensures ChainNodes(FULL, asset) == [
              DagNode("extract:" + asset, Parse, Some("extract")), DagNode("normalize:" + asset, Normalize, Some("normalize")),
              DagNode("chunk:" + asset, Chunk, Some("chunk")), DagNode("embed:" + asset, Embed, Some("embed")),
              DagNode("index:" + asset, Index, Some("index"))]
    ensures ChainEdges(FULL, asset) == [
              DagEdge("extract:" + asset, "normalize:" + asset), DagEdge("normalize:" + asset, "chunk:" + asset),
              DagEdge("chunk:" + asset, "embed:" + asset), DagEdge("embed:" + asset, "index:" + asset)]
  {
  }

  lemma IngestChain(asset: string)
    ensures ChainNodes(INGEST, asset) == [
              DagNode("extract:" + asset, Parse, Some("extract")), DagNode("normalize:" + asset, Normalize, Some("normalize")),
              DagNode("chunk:" + asset, Chunk, Some("chunk"))]
    ensures ChainEdges(INGEST, asset) == [
              DagEdge("extract:" + asset, "normalize:" + asset), DagEdge("normalize:" + asset, "chunk:" + asset)]
  {
  }

  /** Where the chain of asset a stands. */
  lemma ChainAt(stages: seq<Stage>, n: nat, assets: seq<string>, a: nat)
    requires stages != [] && |stages| == n && a < |assets|
    ensures |AllNodes(stages, assets)| == n * |assets| && |AllEdges(stages, assets)| == (n - 1) * |assets|
    ensures n * a + n <= n * |assets| && (n - 1) * a + (n - 1) <= (n - 1) * |assets|
    ensures AllNodes(stages, assets)[n * a..n * a + n] == ChainNodes(stages, assets[a])
    ensures AllEdges(stages, assets)[(n - 1) * a..(n - 1) * a + (n - 1)] == ChainEdges(stages, assets[a])
  {
    hide AllNodes, AllEdges, ChainNodes, ChainEdges;
    Lengths(stages, n, assets);
    NodesOfChain(stages, n, assets, a);
    EdgesOfChain(stages, n - 1, assets, a);
  }

  lemma {:induction false} NodesOfChain(stages: seq<Stage>, n: nat, assets: seq<string>, a: nat)
    requires stages != [] && |stages| == n && a < |assets|
    ensures n * a + n <= |AllNodes(stages, assets)|
    ensures AllNodes(stages, assets)[n * a..n * a + n] == ChainNodes(stages, assets[a])
  {
    hide ChainNodes;
    var front, last := assets[..|assets| - 1], assets[|assets| - 1];
    ChainLengths(stages, last);
    if a < |front| {
      NodesOfChain(stages, n, front, a);
      SliceOfFront(AllNodes(stages, front), ChainNodes(stages, last), n * a, n * a + n);
    } else {
      Lengths(stages, n, front);
      SliceOfBack(AllNodes(stages, front), ChainNodes(stages, last));
    }
  }

  lemma {:induction false} EdgesOfChain(stages: seq<Stage>, n: nat, assets: seq<string>, a: nat)
    requires stages != [] && |stages| == n + 1 && a < |assets|
    ensures n * a + n <= |AllEdges(stages, assets)|
    ensures AllEdges(stages, assets)[n * a..n * a + n] == ChainEdges(stages, assets[a])
  {
    hide ChainEdges;
    var front, last := assets[..|assets| - 1], assets[|assets| - 1];
    ChainLengths(stages, last);
    if a < |front| {
      EdgesOfChain(stages, n, front, a);
      SliceOfFront(AllEdges(stages, front), ChainEdges(stages, last), n * a, n * a + n);
    } else {
      Lengths(stages, n + 1, front);
      SliceOfBack(AllEdges(stages, front), ChainEdges(stages, last));
    }
  }

  lemma ChainLengths(stages: seq<Stage>, asset: string)
    requires stages != []
    ensures |ChainNodes(stages, asset)| == |stages| && |ChainEdges(stages, asset)| == |stages| - 1
  {
  }

  lemma SliceOfFront<T>(a: seq<T>, b: seq<T>, i: nat, j: nat)
    requires i <= j <= |a|
    ensures (a + b)[i..j] == a[i..j]
  {
  }

  lemma SliceOfBack<T>(a: seq<T>, b: seq<T>)
    ensures (a + b)[|a|..|a| + |b|] == b
  {
  }

  lemma Distribute(n: nat, a: nat)
    ensures n * (a + 1) == n * a + n
  {
  }

  lemma {:induction false} Lengths(stages: seq<Stage>, n: nat, assets: seq<string>)
    requires stages != [] && |stages| == n
    ensures |AllNodes(stages, assets)| == n * |assets| && |AllEdges(stages, assets)| == (n - 1) * |assets|
  {
    if assets != [] {
      var front := assets[..|assets| - 1];
      Lengths(stages, n, front);
      Distribute(n, |front|);
      Distribute(n - 1, |front|);
    }
  }

  /** The graph of the five-stage profile, part by part. */
  lemma FullGraph(g: Graph, assets: seq<string>)
    requires g.nodes == AllNodes(FULL, assets) && g.edges == AllEdges(FULL, assets) && IsValid(g.nodes, g.edges)
    requires g.Topological() == StageByStage(FULL, assets)
    ensures var m := |assets|; var nodes, edges, keys := g.nodes, g.edges, g.Topological();
            && |nodes| == 5 * m && |edges| == 4 * m && |keys| == 5 * m
            && (forall a :: 0 <= a < m ==>
                  && nodes[5 * a] == DagNode("extract:" + assets[a], Parse, Some("extract"))
                  && nodes[5 * a + 1] == DagNode("normalize:" + assets[a], Normalize, Some("normalize"))
                  && nodes[5 * a + 2] == DagNode("chunk:" + assets[a], Chunk, Some("chunk"))
                  && nodes[5 * a + 3] == DagNode("embed:" + assets[a], Embed, Some("embed"))
                  && nodes[5 * a + 4] == DagNode("index:" + assets[a], Index, Some("index")))
            && (forall a :: 0 <= a < m ==>
                  && edges[4 * a] == DagEdge("extract:" + assets[a], "normalize:" + assets[a])
                  && edges[4 * a + 1] == DagEdge("normalize:" + assets[a], "chunk:" + assets[a])
                  && edges[4 * a + 2] == DagEdge("chunk:" + assets[a], "embed:" + assets[a])
                  && edges[4 * a + 3] == DagEdge("embed:" + assets[a], "index:" + assets[a]))
            && (forall a :: 0 <= a < m ==>
                  && keys[a] == "extract:" + assets[a]
                  && keys[m + a] == "normalize:" + assets[a]
                  && keys[2 * m + a] == "chunk:" + assets[a]
                  && keys[3 * m + a] == "embed:" + assets[a]
                  && keys[4 * m + a] == "index:" + assets[a])
  {
    hide AllNodes, AllEdges, StageByStage, FULL, UniqueKeys, AllKnown, KeyCycle, IndexEdges, KeysAt;
    FullNodes(assets, g.nodes);
    FullEdges(assets, g.edges);
    FullKeys(assets);
  }

  lemma FullNodes(assets: seq<string>, nodes: seq<DagNode>)
    requires nodes == AllNodes(FULL, assets)
    ensures |nodes| == 5 * |assets|
    ensures forall a :: 0 <= a < |assets| ==>
              && nodes[5 * a] == DagNode("extract:" + assets[a], Parse, Some("extract"))
              && nodes[5 * a + 1] == DagNode("normalize:" + assets[a], Normalize, Some("normalize"))
              && nodes[5 * a + 2] == DagNode("chunk:" + assets[a], Chunk, Some("chunk"))
              && nodes[5 * a + 3] == DagNode("embed:" + assets[a], Embed, Some("embed"))
              && nodes[5 * a + 4] == DagNode("index:" + assets[a], Index, Some("index"))
  {
    FullLengths(assets);
    hide AllNodes, AllEdges, FULL;
    forall a | 0 <= a < |assets| {
      FullChainAt(assets, a);
    }
  }

  lemma FullLengths(assets: seq<string>)
    ensures |AllNodes(FULL, assets)| == 5 * |assets| && |AllEdges(FULL, assets)| == 4 * |assets|
  {
    Lengths(FULL, 5, assets);
  }

  lemma IngestLengths(assets: seq<string>)
    ensures |AllNodes(INGEST, assets)| == 3 * |assets| && |AllEdges(INGEST, assets)| == 2 * |assets|
  {
    Lengths(INGEST, 3, assets);
  }

  lemma FullEdges(assets: seq<string>, edges: seq<DagEdge>)
    requires edges == AllEdges(FULL, assets)
    ensures |edges| == 4 * |assets|
    ensures forall a :: 0 <= a < |assets| ==>
              && edges[4 * a] == DagEdge("extract:" + assets[a], "normalize:" + assets[a])
              && edges[4 * a + 1] == DagEdge("normalize:" + assets[a], "chunk:" + assets[a])
              && edges[4 * a + 2] == DagEdge("chunk:" + assets[a], "embed:" + assets[a])
              && edges[4 * a + 3] == DagEdge("embed:" + assets[a], "index:" + assets[a])
  {
    hide AllNodes, AllEdges;
    FullLengths(assets);
    forall a | 0 <= a < |assets|
      ensures && edges[4 * a] == DagEdge("extract:" + assets[a], "normalize:" + assets[a])
              && edges[4 * a + 1] == DagEdge("normalize:" + assets[a], "chunk:" + assets[a])
              && edges[4 * a + 2] == DagEdge("chunk:" + assets[a], "embed:" + assets[a])
              && edges[4 * a + 3] == DagEdge("embed:" + assets[a], "index:" + assets[a])
    {
      FullChainAt(assets, a);
    }
  }

  /** The chain of asset a. */
  lemma FullChainAt(assets: seq<string>, a: nat)
    requires a < |assets|
    ensures var nodes, edges := AllNodes(FULL, assets), AllEdges(FULL, assets);
            && 5 * a + 5 <= |nodes| && 4 * a + 4 <= |edges|
            && nodes[5 * a] == DagNode("extract:" + assets[a], Parse, Some("extract"))
            && nodes[5 * a + 1] == DagNode("normalize:" + assets[a], Normalize, Some("normalize"))
            && nodes[5 * a + 2] == DagNode("chunk:" + assets[a], Chunk, Some("chunk"))
            && nodes[5 * a + 3] == DagNode("embed:" + assets[a], Embed, Some("embed"))
            && nodes[5 * a + 4] == DagNode("index:" + assets[a], Index, Some("index"))
            && edges[4 * a] == DagEdge("extract:" + assets[a], "normalize:" + assets[a])
            && edges[4 * a + 1] == DagEdge("normalize:" + assets[a], "chunk:" + assets[a])
            && edges[4 * a + 2] == DagEdge("chunk:" + assets[a], "embed:" + assets[a])
            && edges[4 * a + 3] == DagEdge("embed:" + assets[a], "index:" + assets[a])
  {
    hide AllNodes, AllEdges, ChainNodes, ChainEdges;
    ChainAt(FULL, 5, assets, a);
    FullChain(assets[a]);
    FiveAt(AllNodes(FULL, assets), 5 * a, ChainNodes(FULL, assets[a]));
    FourAt(AllEdges(FULL, assets), 4 * a, ChainEdges(FULL, assets[a]));
  }

  lemma FiveAt<T>(s: seq<T>, i: nat, part: seq<T>)
    requires |part| == 5 && i + 5 <= |s| && s[i..i + 5] == part
    ensures s[i] == part[0] && s[i + 1] == part[1] && s[i + 2] == part[2] && s[i + 3] == part[3] && s[i + 4] == part[4]
  {
  }

  lemma FourAt<T>(s: seq<T>, i: nat, part: seq<T>)
    requires |part| == 4 && i + 4 <= |s| && s[i..i + 4] == part
    ensures s[i] == part[0] && s[i + 1] == part[1] && s[i + 2] == part[2] && s[i + 3] == part[3]
  {
  }

  lemma ThreeAt<T>(s: seq<T>, i: nat, part: seq<T>)
    requires |part| == 3 && i + 3 <= |s| && s[i..i + 3] == part
    ensures s[i] == part[0] && s[i + 1] == part[1] && s[i + 2] == part[2]
  {
  }

  lemma TwoAt<T>(s: seq<T>, i: nat, part: seq<T>)
    requires |part| == 2 && i + 2 <= |s| && s[i..i + 2] == part
    ensures s[i] == part[0] && s[i + 1] == part[1]
  {
  }

  lemma FullKeys(assets: seq<string>)
    ensures var m, keys := |assets|, StageByStage(FULL, assets);
            && |keys| == 5 * m
            && forall a :: 0 <= a < m ==>
                 && keys[a] == "extract:" + assets[a] && keys[m + a] == "normalize:" + assets[a]
                 && keys[2 * m + a] == "chunk:" + assets[a] && keys[3 * m + a] == "embed:" + assets[a]
                 && keys[4 * m + a] == "index:" + assets[a]
  {
    var rows := seq(|FULL|, s requires 0 <= s < |FULL| => KeyRow(FULL[s], assets));
    assert rows == [KeyRow(FULL[0], assets), KeyRow(FULL[1], assets), KeyRow(FULL[2], assets), KeyRow(FULL[3], assets),
                    KeyRow(FULL[4], assets)];
    FlatFive(rows);
    var keys, m := StageByStage(FULL, assets), |assets|;
    assert keys == rows[0] + rows[1] + rows[2] + rows[3] + rows[4];
    hide StageByStage, Flat, FULL;
    assert |keys| == 5 * m;
    forall a | 0 <= a < m
      ensures keys[a] == rows[0][a] && keys[m + a] == rows[1][a] && keys[2 * m + a] == rows[2][a]
              && keys[3 * m + a] == rows[3][a] && keys[4 * m + a] == rows[4][a]
    {
      FiveBlocks(rows[0], rows[1], rows[2], rows[3], rows[4], m, a);
    }
    FullPrefixes(assets);
  }

  lemma FullPrefixes(assets: seq<string>)
    ensures forall a :: 0 <= a < |assets| ==>
              && KeyRow(FULL[0], assets)[a] == "extract:" + assets[a] && KeyRow(FULL[1], assets)[a] == "normalize:" + assets[a]
              && KeyRow(FULL[2], assets)[a] == "chunk:" + assets[a] && KeyRow(FULL[3], assets)[a] == "embed:" + assets[a]
              && KeyRow(FULL[4], assets)[a] == "index:" + assets[a]
  {
  }

  lemma FlatFive(rows: seq<seq<string>>)
    requires |rows| == 5
    ensures Flat(rows) == rows[0] + rows[1] + rows[2] + rows[3] + rows[4]
  {
    hide Flat;
    FlatSnoc(rows, 0);
    FlatSnoc(rows, 1);
    FlatSnoc(rows, 2);
    FlatSnoc(rows, 3);
    FlatSnoc(rows, 4);
    assert rows[..5] == rows && rows[..0] == [];
    EmptyFlat<string>();
  }

  lemma FiveBlocks(r0: seq<string>, r1: seq<string>, r2: seq<string>, r3: seq<string>, r4: seq<string>, m: nat, a: nat)
    requires |r0| == m && |r1| == m && |r2| == m && |r3| == m && |r4| == m && a < m
    ensures var all := r0 + r1 + r2 + r3 + r4;
            && |all| == 5 * m && all[a] == r0[a] && all[m + a] == r1[a] && all[2 * m + a] == r2[a]
            && all[3 * m + a] == r3[a] && all[4 * m + a] == r4[a]
  {
  }

  lemma IngestParts(assets: seq<string>)
    requires assets != []
    ensures var m := |assets|; var nodes, edges, keys := AllNodes(INGEST, assets), AllEdges(INGEST, assets), StageByStage(INGEST, assets);
            && |nodes| == 3 * m && |edges| == 2 * m && |keys| == 3 * m
            && (forall a :: 0 <= a < m ==>
                  && nodes[3 * a] == DagNode("extract:" + assets[a], Parse, Some("extract"))
                  && nodes[3 * a + 1] == DagNode("normalize:" + assets[a], Normalize, Some("normalize"))
                  && nodes[3 * a + 2] == DagNode("chunk:" + assets[a], Chunk, Some("chunk")))
            && (forall a :: 0 <= a < m ==>
                  && edges[2 * a] == DagEdge("extract:" + assets[a], "normalize:" + assets[a])
                  && edges[2 * a + 1] == DagEdge("normalize:" + assets[a], "chunk:" + assets[a]))
            && (forall a :: 0 <= a < m ==>
                  && keys[a] == "extract:" + assets[a] && keys[m + a] == "normalize:" + assets[a]
                  && keys[2 * m + a] == "chunk:" + assets[a])
  {
    hide AllNodes, AllEdges;
    IngestLengths(assets);
    var nodes, edges := AllNodes(INGEST, assets), AllEdges(INGEST, assets);
    forall a | 0 <= a < |assets|
      ensures && nodes[3 * a] == DagNode("extract:" + assets[a], Parse, Some("extract"))
              && nodes[3 * a + 1] == DagNode("normalize:" + assets[a], Normalize, Some("normalize"))
              && nodes[3 * a + 2] == DagNode("chunk:" + assets[a], Chunk, Some("chunk"))
    {
      IngestChainAt(assets, a);
    }
    forall a | 0 <= a < |assets|
      ensures && edges[2 * a] == DagEdge("extract:" + assets[a], "normalize:" + assets[a])
              && edges[2 * a + 1] == DagEdge("normalize:" + assets[a], "chunk:" + assets[a])
    {
      IngestChainAt(assets, a);
    }
    IngestKeys(assets);
    hide StageByStage;
  }

  lemma IngestChainAt(assets: seq<string>, a: nat)
    requires a < |assets|
    ensures var nodes, edges := AllNodes(INGEST, assets), AllEdges(INGEST, assets);
            && 3 * a + 3 <= |nodes| && 2 * a + 2 <= |edges|
            && nodes[3 * a] == DagNode("extract:" + assets[a], Parse, Some("extract"))
            && nodes[3 * a + 1] == DagNode("normalize:" + assets[a], Normalize, Some("normalize"))
            && nodes[3 * a + 2] == DagNode("chunk:" + assets[a], Chunk, Some("chunk"))
            && edges[2 * a] == DagEdge("extract:" + assets[a], "normalize:" + assets[a])
            && edges[2 * a + 1] == DagEdge("normalize:" + assets[a], "chunk:" + assets[a])
  {
    hide AllNodes, AllEdges, ChainNodes, ChainEdges;
    ChainAt(INGEST, 3, assets, a);
    IngestChain(assets[a]);
    ThreeAt(AllNodes(INGEST, assets), 3 * a, ChainNodes(INGEST, assets[a]));
    TwoAt(AllEdges(INGEST, assets), 2 * a, ChainEdges(INGEST, assets[a]));
  }

  lemma IngestKeys(assets: seq<string>)
    ensures var m, keys := |assets|, StageByStage(INGEST, assets);
            && |keys| == 3 * m
            && forall a :: 0 <= a < m ==>
                 && keys[a] == "extract:" + assets[a] && keys[m + a] == "normalize:" + assets[a]
                 && keys[2 * m + a] == "chunk:" + assets[a]
  {
    var rows := seq(|INGEST|, s requires 0 <= s < |INGEST| => KeyRow(INGEST[s], assets));
    assert rows == [KeyRow(INGEST[0], assets), KeyRow(INGEST[1], assets), KeyRow(INGEST[2], assets)];
    FlatThree(rows);
    var keys, m := StageByStage(INGEST, assets), |assets|;
    assert keys == rows[0] + rows[1] + rows[2];
    hide StageByStage, Flat, INGEST;
    forall a | 0 <= a < m ensures keys[a] == rows[0][a] && keys[m + a] == rows[1][a] && keys[2 * m + a] == rows[2][a] {
      ThreeBlocks(rows[0], rows[1], rows[2], m, a);
    }
    IngestPrefixes(assets);
  }

  lemma IngestPrefixes(assets: seq<string>)
    ensures forall a :: 0 <= a < |assets| ==>
              && KeyRow(INGEST[0], assets)[a] == "extract:" + assets[a] && KeyRow(INGEST[1], assets)[a] == "normalize:" + assets[a]
              && KeyRow(INGEST[2], assets)[a] == "chunk:" + assets[a]
  {
  }

  lemma ThreeBlocks(r0: seq<string>, r1: seq<string>, r2: seq<string>, m: nat, a: nat)
    requires |r0| == m && |r1| == m && |r2| == m && a < m
    ensures var all := r0 + r1 + r2; |all| == 3 * m && all[a] == r0[a] && all[m + a] == r1[a] && all[2 * m + a] == r2[a]
  {
  }

  lemma FlatThree(rows: seq<seq<string>>)
    requires |rows| == 3
    ensures Flat(rows) == rows[0] + rows[1] + rows[2]
  {
    hide Flat;
    FlatSnoc(rows, 0);
    FlatSnoc(rows, 1);
    FlatSnoc(rows, 2);
    assert rows[..3] == rows && rows[..0] == [];
    EmptyFlat<string>();
  }

  // ----- keys -----

  /** p and q disagree somewhere, so nothing appended to them makes them equal. */
  ghost predicate Apart(p: string, q: string) {
    exists i :: 0 <= i < |p| && i < |q| && p[i] != q[i]
  }

  ghost predicate StagesApart(stages: seq<Stage>) {
    stages != [] && forall s, t :: 0 <= s < t < |stages| ==> Apart(stages[s].prefix, stages[t].prefix)
  }

  lemma FullApart()
    ensures StagesApart(FULL) && FULL[0].prefix == "extract:"
  {
    forall s, t | 0 <= s < t < |FULL| ensures Apart(FULL[s].prefix, FULL[t].prefix) {
      var i := if s == 0 && t == 3 then 1 else 0;
      assert FULL[s].prefix[i] != FULL[t].prefix[i];
    }
  }

  lemma IngestApart()
    ensures StagesApart(INGEST) && INGEST[0].prefix == "extract:"
  {
    forall s, t | 0 <= s < t < |INGEST| ensures Apart(INGEST[s].prefix, INGEST[t].prefix) {
      assert INGEST[s].prefix[0] != INGEST[t].prefix[0];
    }
  }

  lemma ApartKeys(p: string, q: string, a: string, b: string)
    ensures Apart(p, q) ==> p + a != q + b
    ensures p + a == p + b ==> a == b
  {
    if Apart(p, q) {
      var i :| 0 <= i < |p| && i < |q| && p[i] != q[i];
      assert (p + a)[i] != (q + b)[i];
    }
    if p + a == p + b {
      assert a == (p + a)[|p|..];
      assert b == (p + b)[|p|..];
    }
  }

  /** A key tells its stage and its asset. */
  lemma KeyTells(stages: seq<Stage>, s: nat, t: nat, a: string, b: string)
    requires StagesApart(stages) && s < |stages| && t < |stages|
    requires stages[s].prefix + a == stages[t].prefix + b
    ensures s == t && a == b
  {
    ApartKeys(stages[s].prefix, stages[t].prefix, a, b);
    ApartKeys(stages[t].prefix, stages[s].prefix, b, a);
  }

  // ----- where things are -----

  /** Number of nodes of the first a chains. */
  ghost function Base(stages: seq<Stage>, a: nat): nat {
    if a == 0 then 0 else Base(stages, a - 1) + |stages|
  }

  lemma {:induction false} BaseGrows(stages: seq<Stage>, a: nat, b: nat)
    requires a < b
    ensures Base(stages, a) + |stages| <= Base(stages, b)
    decreases b
  {
    if a < b - 1 {
      BaseGrows(stages, a, b - 1);
    }
  }

  /** Each node index is a stage of a chain. */
  lemma {:induction false} Locate(stages: seq<Stage>, m: nat, u: nat) returns (a: nat, s: nat)
    requires u < Base(stages, m)
    ensures a < m && s < |stages| && u == Base(stages, a) + s
  {
    if u < Base(stages, m - 1) {
      a, s := Locate(stages, m - 1, u);
    } else {
      a, s := m - 1, u - Base(stages, m - 1);
    }
  }

  lemma {:induction false} NodeAt(stages: seq<Stage>, assets: seq<string>, a: nat, s: nat)
    requires a < |assets| && s < |stages|
    ensures |AllNodes(stages, assets)| == Base(stages, |assets|) && Base(stages, a) + s < Base(stages, |assets|)
    ensures AllNodes(stages, assets)[Base(stages, a) + s] == DagNode(stages[s].prefix + assets[a], stages[s].kind, Some(stages[s].caption))
  {
    var front := assets[..|assets| - 1];
    NodeCount(stages, front);
    if a < |assets| - 1 {
      NodeAt(stages, front, a, s);
    }
  }

  lemma {:induction false} NodeCount(stages: seq<Stage>, assets: seq<string>)
    ensures |AllNodes(stages, assets)| == Base(stages, |assets|)
  {
    if assets != [] {
      NodeCount(stages, assets[..|assets| - 1]);
    }
  }

  /** The edges are the steps from one stage of an asset to the next. */
  lemma {:induction false} EdgeIsStep(stages: seq<Stage>, assets: seq<string>, e: DagEdge)
    requires stages != []
    ensures e in AllEdges(stages, assets)
            <==> exists a, s :: 0 <= a < |assets| && 0 <= s < |stages| - 1 && e == StepEdge(stages, assets[a], s)
  {
    hide ChainEdges, StepEdge;
    if assets != [] {
      var front, last := assets[..|assets| - 1], assets[|assets| - 1];
      EdgeIsStep(stages, front, e);
      ChainEdgeIsStep(stages, last, e);
      if e in ChainEdges(stages, last) {
        var s :| 0 <= s < |stages| - 1 && e == StepEdge(stages, last, s);
        assert e == StepEdge(stages, assets[|assets| - 1], s);
      } else if e in AllEdges(stages, front) {
        var a, s :| 0 <= a < |front| && 0 <= s < |stages| - 1 && e == StepEdge(stages, front[a], s);
        assert e == StepEdge(stages, assets[a], s);
      }
      if a, s :| 0 <= a < |assets| && 0 <= s < |stages| - 1 && e == StepEdge(stages, assets[a], s) {
        assert if a < |front| then e == StepEdge(stages, front[a], s) else e == StepEdge(stages, last, s);
      }
    }
  }

  lemma ChainEdgeIsStep(stages: seq<Stage>, asset: string, e: DagEdge)
    requires stages != []
    ensures e in ChainEdges(stages, asset) <==> exists s :: 0 <= s < |stages| - 1 && e == StepEdge(stages, asset, s)
  {
    var chain := ChainEdges(stages, asset);
    assert forall s :: 0 <= s < |stages| - 1 ==> chain[s] == StepEdge(stages, asset, s);
  }

  ghost function StepEdge(stages: seq<Stage>, asset: string, s: nat): DagEdge
    requires s < |stages| - 1
  {
    DagEdge(stages[s].prefix + asset, stages[s + 1].prefix + asset)
  }

  // ----- verdicts -----

  lemma Located(stages: seq<Stage>, assets: seq<string>, u: nat) returns (a: nat, s: nat)
    requires u < |AllNodes(stages, assets)|
    ensures a < |assets| && s < |stages| && u == Base(stages, a) + s
    ensures AllNodes(stages, assets)[u].key == stages[s].prefix + assets[a]
  {
    NodeCount(stages, assets);
    a, s := Locate(stages, |assets|, u);
    NodeAt(stages, assets, a, s);
  }

  lemma SameCell(stages: seq<Stage>, a: nat, s: nat, b: nat, t: nat)
    requires s < |stages| && t < |stages| && Base(stages, a) + s == Base(stages, b) + t
    ensures a == b && s == t
  {
    if a < b {
      BaseGrows(stages, a, b);
    } else if b < a {
      BaseGrows(stages, b, a);
    }
  }

  lemma KeysUnique(stages: seq<Stage>, assets: seq<string>)
    requires StagesApart(stages) && PairwiseDistinct(assets)
    ensures UniqueKeys(AllNodes(stages, assets))
  {
    var nodes := AllNodes(stages, assets);
    forall u, v | 0 <= u < v < |nodes| ensures nodes[u].key != nodes[v].key {
      var a, s := Located(stages, assets, u);
      var b, t := Located(stages, assets, v);
      if nodes[u].key == nodes[v].key {
        KeyTells(stages, s, t, assets[a], assets[b]);
      }
    }
  }

  lemma StepEdgeIsKnown(stages: seq<Stage>, assets: seq<string>, a: nat, s: nat)
    requires a < |assets| && s + 1 < |stages|
    ensures EndpointsKnown(AllNodes(stages, assets), StepEdge(stages, assets[a], s))
  {
    hide AllNodes, Base;
    NodeAt(stages, assets, a, s);
    NodeAt(stages, assets, a, s + 1);
  }

  lemma EndpointsExist(stages: seq<Stage>, assets: seq<string>)
    requires StagesApart(stages)
    ensures AllKnown(AllNodes(stages, assets), AllEdges(stages, assets))
  {
    hide AllNodes, AllEdges, EndpointsKnown, StepEdge;
    forall e | e in AllEdges(stages, assets) ensures EndpointsKnown(AllNodes(stages, assets), e) {
      EdgeIsStep(stages, assets, e);
      var a, s :| 0 <= a < |assets| && 0 <= s < |stages| - 1 && e == StepEdge(stages, assets[a], s);
      StepEdgeIsKnown(stages, assets, a, s);
    }
  }

  ghost function Row(stages: seq<Stage>, s: nat, m: nat): seq<nat> {
    seq(m, a requires 0 <= a < m => Base(stages, a) + s)
  }

  ghost function Rows(stages: seq<Stage>, m: nat): (rows: seq<seq<nat>>)
    ensures |rows| == |stages|
  {
    seq(|stages|, s requires 0 <= s < |stages| => Row(stages, s, m))
  }

  lemma LinkIsStep(g: Graph, stages: seq<Stage>, assets: seq<string>, x: nat, y: nat)
    requires StagesApart(stages) && PairwiseDistinct(assets)
    requires g.nodes == AllNodes(stages, assets) && g.edges == AllEdges(stages, assets) && g.Linkable()
    requires (x, y) in g.Links()
    ensures IsStep(Rows(stages, |assets|), x, y)
  {
    hide IndexEdges, PairwiseDistinct, AllKnown, AllNodes, AllEdges;
    IndexEdgesInRange(g.nodes, g.edges);
    SameEdges(g.nodes, g.edges, x, y);
    var e := DagEdge(g.nodes[x].key, g.nodes[y].key);
    EdgeIsStep(stages, assets, e);
    var a, s :| 0 <= a < |assets| && 0 <= s < |stages| - 1 && e == StepEdge(stages, assets[a], s);
    NodeAt(stages, assets, a, s);
    NodeAt(stages, assets, a, s + 1);
    assert IsCell(Rows(stages, |assets|), x, s, a) && IsCell(Rows(stages, |assets|), y, s + 1, a);
  }

  lemma StepIsLink(g: Graph, stages: seq<Stage>, assets: seq<string>, x: nat, y: nat)
    requires StagesApart(stages) && PairwiseDistinct(assets)
    requires g.nodes == AllNodes(stages, assets) && g.edges == AllEdges(stages, assets) && g.Linkable()
    requires IsStep(Rows(stages, |assets|), x, y)
    ensures (x, y) in g.Links()
  {
    hide IndexEdges, PairwiseDistinct, AllKnown, UniqueKeys, AllNodes, AllEdges;
    var s: nat, a: nat :| IsCell(Rows(stages, |assets|), x, s, a) && IsCell(Rows(stages, |assets|), y, s + 1, a);
    NodeAt(stages, assets, a, s);
    NodeAt(stages, assets, a, s + 1);
    EdgeIsStep(stages, assets, StepEdge(stages, assets[a], s));
    SameEdges(g.nodes, g.edges, x, y);
  }

  lemma {:induction false} ChainsAreColumns(g: Graph, stages: seq<Stage>, assets: seq<string>)
    requires StagesApart(stages) && PairwiseDistinct(assets)
    requires g.nodes == AllNodes(stages, assets) && g.edges == AllEdges(stages, assets) && g.Linkable()
    ensures Columns(|g.nodes|, g.Links(), Rows(stages, |assets|), |assets|)
  {
    hide IndexEdges, PairwiseDistinct, UniqueKeys, AllKnown;
    var n, m, links, rows := |g.nodes|, |assets|, g.Links(), Rows(stages, |assets|);
    IndexEdgesInRange(g.nodes, g.edges);
    NodeCount(stages, assets);
    forall i, j | 0 <= i < j < m ensures rows[0][i] < rows[0][j] {
      BaseGrows(stages, i, j);
    }
    forall v: nat ensures v < n <==> InTable(rows, v) {
      if v < n {
        var a, s := Locate(stages, m, v);
        assert IsCell(rows, v, s, a);
      }
      if InTable(rows, v) {
        var s: nat, a: nat :| IsCell(rows, v, s, a);
        NodeAt(stages, assets, a, s);
      }
    }
    forall v: nat, s: nat, a: nat, t: nat, b: nat | IsCell(rows, v, s, a) && IsCell(rows, v, t, b) ensures s == t && a == b {
      SameCell(stages, a, s, b, t);
    }
    forall x: nat, y: nat ensures (x, y) in links <==> IsStep(rows, x, y) {
      if (x, y) in links {
        LinkIsStep(g, stages, assets, x, y);
      } else if IsStep(rows, x, y) {
        StepIsLink(g, stages, assets, x, y);
      }
    }
  }

  lemma {:induction false} KeysOfFlat(nodes: seq<DagNode>, rows: seq<seq<nat>>, keys: seq<seq<string>>)
    requires |rows| == |keys|
    requires forall s :: 0 <= s < |rows| ==> KeysAt(nodes, rows[s]) == keys[s]
    ensures KeysAt(nodes, Flat(rows)) == Flat(keys)
  {
    if rows != [] {
      var last := |rows| - 1;
      KeysOfFlat(nodes, rows[..last], keys[..last]);
      KeysAtConcat(nodes, Flat(rows[..last]), rows[last]);
    }
  }

  lemma {:induction false} KeysAtConcat(nodes: seq<DagNode>, a: seq<nat>, b: seq<nat>)
    ensures KeysAt(nodes, a + b) == KeysAt(nodes, a) + KeysAt(nodes, b)
  {
    if b == [] {
      assert a + b == a;
    } else {
      assert (a + b)[..|a + b| - 1] == a + b[..|b| - 1];
      KeysAtConcat(nodes, a, b[..|b| - 1]);
    }
  }

  lemma KeyOfCell(stages: seq<Stage>, assets: seq<string>, s: nat, a: nat)
    requires s < |stages| && a < |assets|
    ensures |KeysAt(AllNodes(stages, assets), Row(stages, s, |assets|))| == |KeyRow(stages[s], assets)| == |assets|
    ensures KeysAt(AllNodes(stages, assets), Row(stages, s, |assets|))[a] == KeyRow(stages[s], assets)[a]
  {
    hide AllNodes, Base;
    NodeAt(stages, assets, a, s);
    assert Row(stages, s, |assets|)[a] == Base(stages, a) + s;
  }

  lemma KeysOfRow(stages: seq<Stage>, assets: seq<string>, s: nat)
    requires s < |stages|
    ensures KeysAt(AllNodes(stages, assets), Row(stages, s, |assets|)) == KeyRow(stages[s], assets)
  {
    var left, right := KeysAt(AllNodes(stages, assets), Row(stages, s, |assets|)), KeyRow(stages[s], assets);
    assert |left| == |right| == |assets|;
    hide AllNodes, Row, KeyRow, KeysAt;
    forall a | 0 <= a < |assets| ensures left[a] == right[a] {
      KeyOfCell(stages, assets, s, a);
    }
  }

  lemma RowKeys(stages: seq<Stage>, assets: seq<string>)
    requires stages != []
    ensures KeysAt(AllNodes(stages, assets), Flat(Rows(stages, |assets|))) == StageByStage(stages, assets)
  {
    hide AllNodes, KeysAt, Row, KeyRow;
    forall s | 0 <= s < |stages|
      ensures KeysAt(AllNodes(stages, assets), Rows(stages, |assets|)[s]) == KeyRow(stages[s], assets)
    {
      KeysOfRow(stages, assets, s);
    }
    KeysOfFlat(AllNodes(stages, assets), Rows(stages, |assets|),
               seq(|stages|, s requires 0 <= s < |stages| => KeyRow(stages[s], assets)));
  }

  lemma DistinctAssetsAreValid(g: Graph, stages: seq<Stage>, assets: seq<string>)
    requires StagesApart(stages) && PairwiseDistinct(assets) && assets != []
    requires g.nodes == AllNodes(stages, assets) && g.edges == AllEdges(stages, assets)
    ensures IsValid(g.nodes, g.edges) && g.Topological() == StageByStage(stages, assets)
  {
    hide UniqueKeys, AllKnown, Columns, IndexEdges, KeyCycle, HasCycle, PairwiseDistinct, AllNodes, AllEdges, KeysAt, Flat,
      StageByStage, InRange, Rows, Enqueued;
    KeysUnique(stages, assets);
    EndpointsExist(stages, assets);
    ChainsAreColumns(g, stages, assets);
    ColumnsInRows(|g.nodes|, g.Links(), Rows(stages, |assets|), |assets|);
    IndexEdgesInRange(g.nodes, g.edges);
    CompleteIffAcyclic(|g.nodes|, g.Links());
    CycleOfKeys(g.nodes, g.edges);
    RowKeys(stages, assets);
    NodeAt(stages, assets, 0, 0);
  }

  lemma {:induction false} FirstRepeatExists(assets: seq<string>) returns (i: nat)
    requires !PairwiseDistinct(assets)
    ensures FirstRepeat(assets, i)
  {
    var last := |assets| - 1;
    if PairwiseDistinct(assets[..last]) {
      i := last;
    } else {
      i := FirstRepeatExists(assets[..last]);
      assert assets[..last][..i] == assets[..i];
    }
  }

  lemma RepeatedAssetIsError(g: Graph, stages: seq<Stage>, assets: seq<string>, i: nat)
    requires StagesApart(stages) && FirstRepeat(assets, i)
    requires g.nodes == AllNodes(stages, assets)
    ensures IsErrorOf(g.nodes, g.edges, DuplicateNodeKey(stages[0].prefix + assets[i]))
  {
    var k: nat :| k < i && assets[k] == assets[i];
    NodeAt(stages, assets, i, 0);
    NodeAt(stages, assets, k, 0);
    BaseGrows(stages, k, i);
    var u := Base(stages, i);
    assert g.nodes[Base(stages, k)].key == g.nodes[u].key;
    assert Repeats(g.nodes, u) && g.nodes[u].key == stages[0].prefix + assets[i];
    forall j: nat | j < u ensures !Repeats(g.nodes, j) {
      EarlierDistinct(stages, assets, i, j);
    }
  }

  lemma EarlierDistinct(stages: seq<Stage>, assets: seq<string>, i: nat, j: nat)
    requires StagesApart(stages) && i < |assets| && PairwiseDistinct(assets[..i])
    requires j < Base(stages, i) < |AllNodes(stages, assets)|
    ensures !Repeats(AllNodes(stages, assets), j)
  {
    var nodes := AllNodes(stages, assets);
    forall h: nat | h < j ensures nodes[h].key != nodes[j].key {
      var a, s := Located(stages, assets, h);
      var b, t := Located(stages, assets, j);
      if b > i {
        BaseGrows(stages, i, b);
      }
      if a > b {
        BaseGrows(stages, b, a);
      }
      assert assets[..i][a] == assets[a] && assets[..i][b] == assets[b];
      if nodes[h].key == nodes[j].key {
        KeyTells(stages, s, t, assets[a], assets[b]);
      }
    }
  }

  /** What validation says of a profile's graph. */
  lemma Verdict(g: Graph, stages: seq<Stage>, assets: seq<string>, error: Option<DagError>)
    requires StagesApart(stages) && assets != []
    requires g.nodes == AllNodes(stages, assets) && g.edges == AllEdges(stages, assets)
    requires error.None? ==> IsValid(g.nodes, g.edges)
    requires error.Some? ==> IsErrorOf(g.nodes, g.edges, error.value)
    ensures error.None? ==> PairwiseDistinct(assets) && IsValid(g.nodes, g.edges) && g.Topological() == StageByStage(stages, assets)
    ensures error.Some? ==> !PairwiseDistinct(assets)
                            && exists i: nat :: FirstRepeat(assets, i) && error.value == DuplicateNodeKey(stages[0].prefix + assets[i])
  {
    hide IsValid, IsErrorOf, PairwiseDistinct;
    if PairwiseDistinct(assets) {
      DistinctAssetsAreValid(g, stages, assets);
      if error.Some? {
        OneVerdict(g.nodes, g.edges, error.value, error.value);
      }
    } else {
      var i := FirstRepeatExists(assets);
      var e := DuplicateNodeKey(stages[0].prefix + assets[i]);
      RepeatedAssetIsError(g, stages, assets, i);
      OneVerdict(g.nodes, g.edges, e, if error.Some? then error.value else e);
    }
  }
}
