/** One iteration of the frame loop of src/main.cpp, from the draw-sequence
    list SDL_ttf returns to the reset of the geometry counts. */
module Frame {
  import opened Types
  import opened Layout
  import opened Memory
  import opened Encoding
  import opened Geometry
  import opened Staging
  import opened Dispatch

  /** queue_text, set_geometry_data, transfer_data, draw, then the reset of
      both counts. The frame starts with an empty geometry buffer (counts are
      zero at start-up and after every reset). `indexOffset` and
      `vertexOffset` are where the draw loop's running offsets end. */
  method RunFrame(ctx: Context, g: GeometryData, list: seq<DrawSequence>, colour: Colour,
                  swapchainAcquired: bool)
    returns (calls: seq<DrawCall>, indexOffset: nat, vertexOffset: nat)
    requires ctx.Valid() && g.Valid() && g.vertexCount == 0 && g.indexCount == 0
    requires AllValid(list) && g.Model().FitsAll(list)
    modifies g, g.vertices, g.indices, ctx.transferBuffer, ctx.vertexBuffer, ctx.indexBuffer
    ensures g.Valid() && g.vertexCount == 0 && g.indexCount == 0
    ensures DecodeVertices(ctx.vertexBuffer[..VERTEX_SIZE * TotalVertices(list)]) == FlatVertices(list, colour)
    ensures DecodeWords(ctx.indexBuffer[..INDEX_SIZE * TotalIndices(list)]) == FlatIndices(list)
    ensures g.vertices[..] == Overwrite(old(g.vertices[..]), 0, FlatVertices(list, colour))
    ensures g.indices[..] == Overwrite(old(g.indices[..]), 0, FlatIndices(list))
    ensures ctx.transferBuffer[..] ==
      Overwrite(Overwrite(old(ctx.transferBuffer[..]), 0, EncodeVertices(FlatVertices(list, colour))),
                INDEX_STAGING_OFFSET, EncodeWords(FlatIndices(list)))
    ensures ctx.vertexBuffer[..] == Overwrite(old(ctx.vertexBuffer[..]), 0, EncodeVertices(FlatVertices(list, colour)))
    ensures ctx.indexBuffer[..] == Overwrite(old(ctx.indexBuffer[..]), 0, EncodeWords(FlatIndices(list)))
    ensures !swapchainAcquired ==> calls == []
    ensures swapchainAcquired ==> |calls| == |list|
    ensures swapchainAcquired ==> forall k {:trigger calls[k]} :: 0 <= k < |list| ==>
      calls[k] == DrawCall(list[k].atlasTexture, list[k].NumIndices(), 1,
                           TotalIndices(list[..k]), TotalVertices(list[..k]), 0)
    // The draw loop ends where the flattener stopped.
    ensures swapchainAcquired ==> indexOffset == TotalIndices(list) && vertexOffset == TotalVertices(list)
  {
    ghost var empty := g.Model();
    QueuedIntoEmpty(empty, list, colour);
    g.QueueText(list, colour);
    ghost var vs, xs := FlatVertices(list, colour), FlatIndices(list);
    assert g.vertices[..g.vertexCount] == vs && g.indices[..g.indexCount] == xs;
    ctx.Upload(g);

    calls, indexOffset, vertexOffset := Draw(list, swapchainAcquired);
    g.Reset();
  }

  /** Two nodes, 4 vertices and 6 indices on atlas 1, then 6 vertices and 9
      indices on atlas 2. */
  function TwoNodes(): (list: seq<DrawSequence>)
    ensures AllValid(list) && |list| == 2
    ensures list[0].atlasTexture == 1 && list[0].NumIndices() == 6
    ensures list[1].atlasTexture == 2 && list[1].NumIndices() == 9
    ensures TotalVertices(list[..0]) == 0 && TotalIndices(list[..0]) == 0
    ensures TotalVertices(list[..1]) == 4 && TotalIndices(list[..1]) == 6
    ensures TotalVertices(list) == 10 && TotalIndices(list) == 15
  {
    var p := Vec2(ZERO, ZERO);
    var a := DrawSequence(1, [p, p, p, p], [p, p, p, p], [0, 1, 2, 0, 2, 3]);
    var b := DrawSequence(2, [p, p, p, p, p, p], [p, p, p, p, p, p], [0, 1, 2, 0, 2, 3, 3, 4, 5]);
    var list := [a, b];
    assert a.NumVertices() == 4 && a.NumIndices() == 6 && b.NumVertices() == 6 && b.NumIndices() == 9;
    assert list[..1] == [a] && list[..0] == [] && [a][..0] == [];
    assert TotalVertices([]) == 0 && TotalIndices([]) == 0;
    assert TotalVertices([a]) == 4 && TotalIndices([a]) == 6;
    list
  }

  /** The draws `Draw` promises for the two-node list, written out. */
  lemma TwoNodeDraws(calls: seq<DrawCall>)
    requires |calls| == |TwoNodes()|
    requires forall k {:trigger calls[k]} :: 0 <= k < |TwoNodes()| ==>
      calls[k] == DrawCall(TwoNodes()[k].atlasTexture, TwoNodes()[k].NumIndices(), 1,
                           TotalIndices(TwoNodes()[..k]), TotalVertices(TwoNodes()[..k]), 0)
    ensures calls == [DrawCall(1, 6, 1, 0, 0, 0), DrawCall(2, 9, 1, 6, 4, 0)]
  {
  }

  /** The two-node frame fills the buffer to 10 vertices and 15 indices, and
      the draws are (atlas 1, 6 indices from 0, base 0) and (atlas 2, 9
      indices from 6, base 4). */
  method TwoNodeFrame(colour: Colour) {
    var list := TwoNodes();
    var ctx := new Context();
    var g := new GeometryData();
    var calls, indexOffset, vertexOffset := RunFrame(ctx, g, list, colour, true);
    TwoNodeDraws(calls);
    assert calls == [DrawCall(1, 6, 1, 0, 0, 0), DrawCall(2, 9, 1, 6, 4, 0)];
    assert indexOffset == 15 && vertexOffset == 10;
  }

  /** An empty list: no draw, and the counts stay at zero. */
  method EmptyFrame(colour: Colour) {
    var ctx := new Context();
    var g := new GeometryData();
    var calls, _, _ := RunFrame(ctx, g, [], colour, true);
    assert calls == [] && g.vertexCount == 0 && g.indexCount == 0;
  }
}
