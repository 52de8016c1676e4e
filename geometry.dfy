/** The host-side geometry buffer of src/main.cpp (GeometryData) and the
    flattener that appends draw sequences to it (queue_text_sequence,
    queue_text), with the frame-end reset of its counts. */
module Geometry {
  import opened Types
  import opened Layout
  import opened Memory

  /** The vertices queue_text_sequence builds for one node: position (x, y, 0),
      the tint, and the node's texture coordinate. */
  function NodeVertices(s: DrawSequence, colour: Colour): (r: seq<Vertex>)
    requires s.Valid()
    ensures |r| == s.NumVertices()
  {
    seq(|s.xy|, i requires 0 <= i < |s.xy| => Vertex(Vec3(s.xy[i].x, s.xy[i].y, ZERO), colour, s.uv[i]))
  }

  /** Sum of num_vertices over the list. */
  function TotalVertices(list: seq<DrawSequence>): (n: nat) {
    if list == [] then 0 else TotalVertices(list[..|list| - 1]) + list[|list| - 1].NumVertices()
  }

  /** Sum of num_indices over the list. */
  function TotalIndices(list: seq<DrawSequence>): (n: nat) {
    if list == [] then 0 else TotalIndices(list[..|list| - 1]) + list[|list| - 1].NumIndices()
  }

  /** The nodes' vertex blocks, one after the other in list order. */
  function FlatVertices(list: seq<DrawSequence>, colour: Colour): (r: seq<Vertex>)
    requires AllValid(list)
    ensures |r| == TotalVertices(list)
  {
    if list == [] then []
    else FlatVertices(list[..|list| - 1], colour) + NodeVertices(list[|list| - 1], colour)
  }

  /** The nodes' index blocks, one after the other in list order, unchanged. */
  function FlatIndices(list: seq<DrawSequence>): (r: seq<Int32>)
    ensures |r| == TotalIndices(list)
  {
    if list == [] then [] else FlatIndices(list[..|list| - 1]) + list[|list| - 1].indices
  }

  /** A prefix of the list contributes no more than the whole list. */
  lemma {:induction false} TotalsOfPrefix(list: seq<DrawSequence>, k: nat)
    requires k <= |list|
    ensures TotalVertices(list[..k]) <= TotalVertices(list)
    ensures TotalIndices(list[..k]) <= TotalIndices(list)
  {
    if k < |list| {
      var init := list[..|list| - 1];
      assert init[..k] == list[..k];
      TotalsOfPrefix(init, k);
    } else {
      assert list[..k] == list;
    }
  }

  /** Vertex i of node k sits in the flattened vertices after the blocks of
      nodes 0..k-1. */
  lemma {:induction false} FlatVerticesAt(list: seq<DrawSequence>, colour: Colour, k: nat, i: nat)
    requires AllValid(list) && k < |list| && i < list[k].NumVertices()
    ensures TotalVertices(list[..k]) + i < TotalVertices(list)
    ensures FlatVertices(list, colour)[TotalVertices(list[..k]) + i] == NodeVertices(list[k], colour)[i]
  {
    var init := list[..|list| - 1];
    if k == |list| - 1 {
      assert list[..k] == init;
    } else {
      assert init[..k] == list[..k];
      FlatVerticesAt(init, colour, k, i);
    }
  }

  /** Index j of node k sits in the flattened indices after the blocks of
      nodes 0..k-1. */
  lemma {:induction false} FlatIndicesAt(list: seq<DrawSequence>, k: nat, j: nat)
    requires k < |list| && j < list[k].NumIndices()
    ensures TotalIndices(list[..k]) + j < TotalIndices(list)
    ensures FlatIndices(list)[TotalIndices(list[..k]) + j] == list[k].indices[j]
  {
    var init := list[..|list| - 1];
    if k == |list| - 1 {
      assert list[..k] == init;
    } else {
      assert init[..k] == list[..k];
      FlatIndicesAt(init, k, j);
    }
  }

  /** The state of a GeometryData: both host arrays and both counts. */
  datatype Geometry = Geometry(vertices: seq<Vertex>, vertexCount: nat, indices: seq<Int32>, indexCount: nat)
  {
    /** The arrays have their allocated sizes and the counts stay within them. */
    predicate Valid() {
      && |vertices| == MAX_VERTEX_COUNT && |indices| == MAX_INDEX_COUNT
      && vertexCount <= MAX_VERTEX_COUNT && indexCount <= MAX_INDEX_COUNT
    }

    /** There is room for the node's vertices and indices. */
    predicate Fits(s: DrawSequence) {
      vertexCount + s.NumVertices() <= MAX_VERTEX_COUNT && indexCount + s.NumIndices() <= MAX_INDEX_COUNT
    }

    /** There is room for every node of the list. */
    predicate FitsAll(list: seq<DrawSequence>) {
      vertexCount + TotalVertices(list) <= MAX_VERTEX_COUNT && indexCount + TotalIndices(list) <= MAX_INDEX_COUNT
    }
  }

  /** The geometry after queue_text_sequence appends one node. */
  function QueuedSequence(g: Geometry, s: DrawSequence, colour: Colour): (r: Geometry)
    requires g.Valid() && s.Valid() && g.Fits(s)
    ensures r.Valid()
    ensures r.vertexCount == g.vertexCount + s.NumVertices()
    ensures r.indexCount == g.indexCount + s.NumIndices()
    ensures forall i :: 0 <= i < s.NumVertices() ==>
      r.vertices[g.vertexCount + i] == Vertex(Vec3(s.xy[i].x, s.xy[i].y, ZERO), colour, s.uv[i])
    ensures forall j :: 0 <= j < s.NumIndices() ==> r.indices[g.indexCount + j] == s.indices[j]
    ensures forall k :: 0 <= k < MAX_VERTEX_COUNT && !(g.vertexCount <= k < r.vertexCount) ==>
      r.vertices[k] == g.vertices[k]
    ensures forall k :: 0 <= k < MAX_INDEX_COUNT && !(g.indexCount <= k < r.indexCount) ==>
      r.indices[k] == g.indices[k]
  {
    Geometry(
      Overwrite(g.vertices, g.vertexCount, NodeVertices(s, colour)), g.vertexCount + s.NumVertices(),
      Overwrite(g.indices, g.indexCount, s.indices), g.indexCount + s.NumIndices())
  }

  /** The geometry after queue_text appends every node of the list, in order. */
  function QueuedText(g: Geometry, list: seq<DrawSequence>, colour: Colour): (r: Geometry)
    requires g.Valid() && AllValid(list) && g.FitsAll(list)
    ensures r.Valid()
    ensures r.vertexCount == g.vertexCount + TotalVertices(list)
    ensures r.indexCount == g.indexCount + TotalIndices(list)
    ensures r.vertices == Overwrite(g.vertices, g.vertexCount, FlatVertices(list, colour))
    ensures r.indices == Overwrite(g.indices, g.indexCount, FlatIndices(list))
    ensures list == [] ==> r == g
  {
    if list == [] then
      assert g.vertices == Overwrite(g.vertices, g.vertexCount, []);
      assert g.indices == Overwrite(g.indices, g.indexCount, []);
      g
    else
      var init, last := list[..|list| - 1], list[|list| - 1];
      var before := QueuedText(g, init, colour);
      OverwriteTwice(g.vertices, g.vertexCount, FlatVertices(init, colour), NodeVertices(last, colour));
      OverwriteTwice(g.indices, g.indexCount, FlatIndices(init), last.indices);
      QueuedSequence(before, last, colour)
  }

  /** Flattening into an empty buffer puts the nodes' blocks, in list order,
      at the front of both arrays. */
  lemma QueuedIntoEmpty(g: Geometry, list: seq<DrawSequence>, colour: Colour)
    requires g.Valid() && g.vertexCount == 0 && g.indexCount == 0
    requires AllValid(list) && g.FitsAll(list)
    ensures QueuedText(g, list, colour).vertices[..TotalVertices(list)] == FlatVertices(list, colour)
    ensures QueuedText(g, list, colour).indices[..TotalIndices(list)] == FlatIndices(list)
  {
  }

  /** The geometry after the frame-end reset: empty, contents left as they are. */
  function Cleared(g: Geometry): (r: Geometry)
    ensures r.vertexCount == 0 && r.indexCount == 0
    ensures r.vertices == g.vertices && r.indices == g.indices
  {
    g.(vertexCount := 0, indexCount := 0)
  }

  /** Resetting twice is resetting once. */
  lemma ClearedIdempotent(g: Geometry)
    ensures Cleared(Cleared(g)) == Cleared(g)
    ensures g.Valid() ==> Cleared(g).Valid()
  {
  }

  /** GeometryData: two fixed-capacity host arrays and their fill counts. */
  class GeometryData {
    const vertices: array<Vertex>
    var vertexCount: nat
    const indices: array<Int32>
    var indexCount: nat

    ghost function Model(): Geometry
      reads this, vertices, indices
    {
      Geometry(vertices[..], vertexCount, indices[..], indexCount)
    }

    ghost predicate Valid()
      reads this, vertices, indices
    {
      Model().Valid()
    }

    /** The zero-initialised buffer of main: SDL_calloc for both arrays, counts 0. */
    constructor ()
      ensures Valid() && fresh(vertices) && fresh(indices)
      ensures Model() == Geometry(seq(MAX_VERTEX_COUNT, _ => ZERO_VERTEX), 0, seq(MAX_INDEX_COUNT, _ => 0), 0)
    {
      vertices := new Vertex[MAX_VERTEX_COUNT](_ => ZERO_VERTEX);
      indices := new Int32[MAX_INDEX_COUNT](_ => 0);
      vertexCount, indexCount := 0, 0;
    }

    /** queue_text_sequence: append one node's vertices, tinted, and its
        indices, unchanged. The source does not check the capacity. */
    method QueueTextSequence(s: DrawSequence, colour: Colour)
      requires Valid() && s.Valid() && Model().Fits(s)
      modifies this, vertices, indices
      ensures Valid()
      ensures Model() == QueuedSequence(old(Model()), s, colour)
    {
      var i := 0;
      while i < s.NumVertices()
        invariant 0 <= i <= s.NumVertices()
        invariant vertexCount == old(vertexCount) && indexCount == old(indexCount)
        invariant indices[..] == old(indices[..])
        invariant vertices[..] == Overwrite(old(vertices[..]), vertexCount, NodeVertices(s, colour)[..i])
      {
        var pos := s.xy[i];
        var v := Vertex(Vec3(pos.x, pos.y, ZERO), colour, s.uv[i]);
        assert NodeVertices(s, colour)[..i + 1] == NodeVertices(s, colour)[..i] + [v];
        OverwriteExtend(old(vertices[..]), vertexCount, NodeVertices(s, colour)[..i], v);
        vertices[vertexCount + i] := v;
        i := i + 1;
      }
      assert NodeVertices(s, colour)[..i] == NodeVertices(s, colour);
      CopyInto(indices, indexCount, s.indices);
      vertexCount := vertexCount + s.NumVertices();
      indexCount := indexCount + s.NumIndices();
    }

    /** queue_text: walk the list in order, appending every node. */
    method QueueText(list: seq<DrawSequence>, colour: Colour)
      requires Valid() && AllValid(list) && Model().FitsAll(list)
      modifies this, vertices, indices
      ensures Valid()
      ensures Model() == QueuedText(old(Model()), list, colour)
    {
      var k := 0;
      while k < |list|
        invariant 0 <= k <= |list|
        invariant Valid()
        invariant old(Model()).FitsAll(list[..k])
        invariant Model() == QueuedText(old(Model()), list[..k], colour)
      {
        assert list[..k + 1][..k] == list[..k];
        TotalsOfPrefix(list, k + 1);
        QueueTextSequence(list[k], colour);
        k := k + 1;
      }
      assert list[..k] == list;
    }

    /** The frame-end reset: both counts back to zero. */
    method Reset()
      modifies this
      ensures Model() == Cleared(old(Model()))
    {
      vertexCount := 0;
      indexCount := 0;
    }
  }
}
