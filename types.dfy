/** The value types of src/main.cpp (Vec3, Vertex) and of the SDL/SDL_ttf
    structures the batching code reads (SDL_FPoint, SDL_FColor,
    TTF_GPUAtlasDrawSequence). */
module Types {

  /** A 32-bit IEEE-754 float, kept as its bit pattern: the batching code only
      copies floats, it never computes with them. */
  type Float = bv32

  /** 0.0f, whose bit pattern is all zeroes. */
  const ZERO: Float := 0

  /** A C `int` of the index arrays, kept as its two's complement bit
      pattern: the host only copies it and the GPU reads it as a 32-bit
      unsigned index (SDL_GPU_INDEXELEMENTSIZE_32BIT). */
  type Int32 = bv32

  /** SDL_FPoint, also used for texture coordinates. */
  datatype Vec2 = Vec2(x: Float, y: Float)

  datatype Vec3 = Vec3(x: Float, y: Float, z: Float)

  /** SDL_FColor (RGBA). */
  datatype Colour = Colour(r: Float, g: Float, b: Float, a: Float)

  datatype Vertex = Vertex(pos: Vec3, colour: Colour, uv: Vec2)

  /** The all-zero vertex that SDL_calloc leaves in the host array. */
  const ZERO_VERTEX: Vertex :=
    Vertex(Vec3(ZERO, ZERO, ZERO), Colour(ZERO, ZERO, ZERO, ZERO), Vec2(ZERO, ZERO))

  /** An SDL_GPUTexture handle: only passed on to the sampler binding. */
  type Texture = nat

  /** One node of the TTF_GPUAtlasDrawSequence list. `num_vertices` is the
      length of `xy`, `num_indices` the length of `indices`; the `next`
      pointer is the node's position in the list that holds it. */
  datatype DrawSequence = DrawSequence(
    atlasTexture: Texture,
    xy: seq<Vec2>,
    uv: seq<Vec2>,
    indices: seq<Int32>)
  {
    function NumVertices(): nat { |xy| }

    function NumIndices(): nat { |indices| }

    /** SDL_ttf gives one texture coordinate per position. */
    predicate Valid() { |uv| == |xy| }

    /** Every index names one of this node's own vertices. */
    predicate IndicesLocal() {
      forall j :: 0 <= j < |indices| ==> 0 <= indices[j] as int < |xy|
    }
  }

  predicate AllValid(list: seq<DrawSequence>) {
    forall k :: 0 <= k < |list| ==> list[k].Valid()
  }
}
