/** The capacities of src/main.cpp and the byte layout of the transfer
    (staging) buffer and of the two device buffers. */
module Layout {

  const MAX_VERTEX_COUNT: nat := 4000
  const MAX_INDEX_COUNT: nat := 6000

  /** sizeof(Vertex): 3 + 4 + 2 floats of 4 bytes, without padding. */
  const VERTEX_SIZE: nat := 36
  /** sizeof(int). */
  const INDEX_SIZE: nat := 4

  const VERTEX_BUFFER_SIZE: nat := VERTEX_SIZE * MAX_VERTEX_COUNT
  const INDEX_BUFFER_SIZE: nat := INDEX_SIZE * MAX_INDEX_COUNT

  /** Where the indices start in the transfer buffer: `transfer_data + MAX_VERTEX_COUNT`
      in units of Vertex. */
  const INDEX_STAGING_OFFSET: nat := VERTEX_SIZE * MAX_VERTEX_COUNT

  const TRANSFER_BUFFER_SIZE: nat := VERTEX_SIZE * MAX_VERTEX_COUNT + INDEX_SIZE * MAX_INDEX_COUNT

  /** A byte range [offset, offset + size) of some buffer. */
  datatype Region = Region(offset: nat, size: nat) {
    function End(): (e: nat) { offset + size }

    predicate Within(capacity: nat) { End() <= capacity }
  }

  /** No byte lies in both regions. */
  predicate Disjoint(a: Region, b: Region) {
    a.size == 0 || b.size == 0 || a.End() <= b.offset || b.End() <= a.offset
  }

  /** The bytes the vertex memcpy of set_geometry_data writes. */
  function VertexStagingRegion(vertexCount: nat): (r: Region)
    ensures r.offset == 0
    ensures r.Within(TRANSFER_BUFFER_SIZE) <== vertexCount <= MAX_VERTEX_COUNT
    ensures r.Within(INDEX_STAGING_OFFSET) <==> vertexCount <= MAX_VERTEX_COUNT
  {
    Region(0, VERTEX_SIZE * vertexCount)
  }

  /** The bytes the index memcpy of set_geometry_data writes. */
  function IndexStagingRegion(indexCount: nat): (r: Region)
    ensures r.offset == VertexStagingRegion(MAX_VERTEX_COUNT).End()
    ensures r.Within(TRANSFER_BUFFER_SIZE) <==> indexCount <= MAX_INDEX_COUNT
  {
    Region(INDEX_STAGING_OFFSET, INDEX_SIZE * indexCount)
  }

  /** One SDL_UploadToGPUBuffer: the source offset in the transfer buffer and
      the destination region of a device buffer; the byte count is the
      destination's size. */
  datatype Upload = Upload(source: nat, destination: Region) {
    function SourceRegion(): Region { Region(source, destination.size) }
  }

  /** The vertex upload of transfer_data. */
  function VertexUpload(vertexCount: nat): (u: Upload)
    ensures u.SourceRegion() == VertexStagingRegion(vertexCount)
    ensures u.destination.offset == 0
    ensures u.destination.Within(VERTEX_BUFFER_SIZE) <==> vertexCount <= MAX_VERTEX_COUNT
  {
    Upload(0, Region(0, VERTEX_SIZE * vertexCount))
  }

  /** The index upload of transfer_data. */
  function IndexUpload(indexCount: nat): (u: Upload)
    ensures u.SourceRegion() == IndexStagingRegion(indexCount)
    ensures u.destination.offset == 0
    ensures u.destination.Within(INDEX_BUFFER_SIZE) <==> indexCount <= MAX_INDEX_COUNT
  {
    Upload(INDEX_STAGING_OFFSET, Region(0, INDEX_SIZE * indexCount))
  }

  /** The two staged regions overlap only when the vertices spill past their
      capacity while there are indices to stage. */
  lemma StagingRegionsDisjoint(vertexCount: nat, indexCount: nat)
    ensures Disjoint(VertexStagingRegion(vertexCount), IndexStagingRegion(indexCount))
        <==> vertexCount <= MAX_VERTEX_COUNT || indexCount == 0
  {
  }
}
