/** The object representation memcpy sees: a Vertex is its nine floats in
    declaration order (pos, colour, uv), a float or an int is four bytes,
    least significant first (the little-endian targets SDL_GPU runs on). */
module Encoding {
  import opened Types
  import opened Layout

  type byte = bv8

  function WordBytes(w: bv32): (r: seq<byte>)
    ensures |r| == 4 && WordOf(r) == w
  {
    [(w & 0xFF) as byte, ((w >> 8) & 0xFF) as byte,
     ((w >> 16) & 0xFF) as byte, ((w >> 24) & 0xFF) as byte]
  }

  function WordOf(bs: seq<byte>): (w: bv32)
    requires |bs| == 4
  {
    (bs[0] as bv32) | ((bs[1] as bv32) << 8) | ((bs[2] as bv32) << 16) | ((bs[3] as bv32) << 24)
  }

  /** The bytes of an array of floats or ints. */
  function EncodeWords(ws: seq<bv32>): (r: seq<byte>)
    ensures |r| == 4 * |ws| && |r| % 4 == 0
  {
    if ws == [] then [] else WordBytes(ws[0]) + EncodeWords(ws[1..])
  }

  function DecodeWords(bs: seq<byte>): (r: seq<bv32>)
    requires |bs| % 4 == 0
    ensures 4 * |r| == |bs|
  {
    if bs == [] then [] else [WordOf(bs[..4])] + DecodeWords(bs[4..])
  }

  lemma {:induction false} WordsRoundTrip(fs: seq<bv32>)
    ensures DecodeWords(EncodeWords(fs)) == fs
  {
    if fs != [] {
      var bs := EncodeWords(fs);
      assert bs[..4] == WordBytes(fs[0]);
      assert bs[4..] == EncodeWords(fs[1..]);
      WordsRoundTrip(fs[1..]);
    }
  }

  /** The nine floats of a vertex, in field order. */
  function VertexFloats(v: Vertex): (fs: seq<Float>)
    ensures |fs| * 4 == VERTEX_SIZE
  {
    [v.pos.x, v.pos.y, v.pos.z, v.colour.r, v.colour.g, v.colour.b, v.colour.a, v.uv.x, v.uv.y]
  }

  function VertexOfFloats(fs: seq<Float>): (v: Vertex)
    requires |fs| == 9
    ensures VertexFloats(v) == fs
  {
    Vertex(Vec3(fs[0], fs[1], fs[2]), Colour(fs[3], fs[4], fs[5], fs[6]), Vec2(fs[7], fs[8]))
  }

  function EncodeVertex(v: Vertex): (r: seq<byte>)
    ensures |r| == VERTEX_SIZE && DecodeVertex(r) == v
  {
    WordsRoundTrip(VertexFloats(v));
    EncodeWords(VertexFloats(v))
  }

  function DecodeVertex(bs: seq<byte>): (v: Vertex)
    requires |bs| == VERTEX_SIZE
  {
    VertexOfFloats(DecodeWords(bs))
  }

  /** The bytes of a Vertex array of |vs| elements. */
  function EncodeVertices(vs: seq<Vertex>): (r: seq<byte>)
    ensures |r| == VERTEX_SIZE * |vs| && |r| % VERTEX_SIZE == 0
  {
    if vs == [] then [] else EncodeVertex(vs[0]) + EncodeVertices(vs[1..])
  }

  function DecodeVertices(bs: seq<byte>): (r: seq<Vertex>)
    requires |bs| % VERTEX_SIZE == 0
    ensures VERTEX_SIZE * |r| == |bs|
  {
    if bs == [] then [] else [DecodeVertex(bs[..VERTEX_SIZE])] + DecodeVertices(bs[VERTEX_SIZE..])
  }

  lemma {:induction false} VerticesRoundTrip(vs: seq<Vertex>)
    ensures DecodeVertices(EncodeVertices(vs)) == vs
  {
    if vs != [] {
      var bs := EncodeVertices(vs);
      assert bs[..VERTEX_SIZE] == EncodeVertex(vs[0]);
      assert bs[VERTEX_SIZE..] == EncodeVertices(vs[1..]);
      VerticesRoundTrip(vs[1..]);
    }
  }
}
