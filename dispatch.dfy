/** The offset bookkeeping of draw in src/main.cpp: one indexed draw per
    node, with running index and vertex offsets. */
module Dispatch {
  import opened Types
  import opened Geometry

  /** One SDL_DrawGPUIndexedPrimitives call, with the atlas texture bound to
      fragment sampler slot 0 just before it. */
  datatype DrawCall = DrawCall(
    texture: Texture,
    numIndices: nat,
    numInstances: nat,
    firstIndex: nat,
    vertexOffset: nat,
    firstInstance: nat)

  /** The draw loop. `swapchainAcquired` says whether
      SDL_WaitAndAcquireGPUSwapchainTexture gave a texture; without one there
      is no render pass and no draw. `indexOffset` and `vertexOffset` are the
      running sums when the loop ends. */
  method Draw(list: seq<DrawSequence>, swapchainAcquired: bool)
    returns (calls: seq<DrawCall>, indexOffset: nat, vertexOffset: nat)
    ensures !swapchainAcquired ==> calls == []
    ensures swapchainAcquired ==> |calls| == |list|
    ensures swapchainAcquired ==> forall k {:trigger calls[k]} :: 0 <= k < |list| ==>
      calls[k] == DrawCall(list[k].atlasTexture, list[k].NumIndices(), 1,
                           TotalIndices(list[..k]), TotalVertices(list[..k]), 0)
    ensures swapchainAcquired ==> indexOffset == TotalIndices(list) && vertexOffset == TotalVertices(list)
  {
    calls, indexOffset, vertexOffset := [], 0, 0;
    if swapchainAcquired {
      var k := 0;
      while k < |list|
        invariant 0 <= k <= |list| && |calls| == k
        invariant indexOffset == TotalIndices(list[..k]) && vertexOffset == TotalVertices(list[..k])
        invariant forall m {:trigger calls[m]} :: 0 <= m < k ==>
          calls[m] == DrawCall(list[m].atlasTexture, list[m].NumIndices(), 1,
                               TotalIndices(list[..m]), TotalVertices(list[..m]), 0)
      {
        var s := list[k];
        calls := calls + [DrawCall(s.atlasTexture, s.NumIndices(), 1, indexOffset, vertexOffset, 0)];
        assert list[..k + 1][..k] == list[..k];
        indexOffset := indexOffset + s.NumIndices();
        vertexOffset := vertexOffset + s.NumVertices();
        k := k + 1;
      }
      assert list[..k] == list;
    }
  }

  /** What the GPU reads for slot j of node k's draw: the index at
      firstIndex + j of the flattened indices, which is the node's own index
      j, and then the vertex at vertexOffset + that index, which is the
      node's own vertex it names. So the node-relative indices resolve to the
      node's vertices without being rewritten. */
  lemma DrawFetchesNodeVertex(list: seq<DrawSequence>, colour: Colour, k: nat, j: nat)
    requires AllValid(list) && k < |list| && j < list[k].NumIndices()
    requires list[k].IndicesLocal()
    ensures TotalIndices(list[..k]) + j < TotalIndices(list)
    ensures FlatIndices(list)[TotalIndices(list[..k]) + j] == list[k].indices[j]
    ensures TotalVertices(list[..k]) + list[k].indices[j] as int < TotalVertices(list)
    ensures FlatVertices(list, colour)[TotalVertices(list[..k]) + list[k].indices[j] as int]
         == NodeVertices(list[k], colour)[list[k].indices[j]]
  {
    FlatIndicesAt(list, k, j);
    FlatVerticesAt(list, colour, k, list[k].indices[j] as nat);
  }
}
