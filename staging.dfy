/** The transfer (staging) buffer and the two device buffers of the Context
    in src/main.cpp, with set_geometry_data (host -> transfer buffer) and
    transfer_data (transfer buffer -> device buffers). GPU commands run in
    submission order, so an upload is modelled as the copy it performs. */
module Staging {
  import opened Types
  import opened Layout
  import opened Memory
  import opened Encoding
  import opened Geometry

  /** The transfer buffer holds the filled vertices of `host` as bytes at
      the start and its filled indices at INDEX_STAGING_OFFSET. */
  predicate Staged(transfer: seq<byte>, host: Geometry)
    requires |transfer| == TRANSFER_BUFFER_SIZE && host.Valid()
  {
    var vr, ir := VertexStagingRegion(host.vertexCount), IndexStagingRegion(host.indexCount);
    && transfer[vr.offset..vr.End()] == EncodeVertices(host.vertices[..host.vertexCount])
    && transfer[ir.offset..ir.End()] == EncodeWords(host.indices[..host.indexCount])
  }

  /** The round trip of one frame's geometry: the bytes set_geometry_data
      staged, once transfer_data has copied them to offset 0 of the device
      buffers, read back as the host's filled vertices and indices. */
  lemma UploadRoundTrip(host: Geometry, vertexBuffer: seq<byte>, indexBuffer: seq<byte>)
    requires host.Valid()
    requires |vertexBuffer| == VERTEX_BUFFER_SIZE && |indexBuffer| == INDEX_BUFFER_SIZE
    ensures var vs := host.vertices[..host.vertexCount]; var bytes := EncodeVertices(vs);
      DecodeVertices(Overwrite(vertexBuffer, 0, bytes)[..|bytes|]) == vs
    ensures var xs := host.indices[..host.indexCount]; var bytes := EncodeWords(xs);
      DecodeWords(Overwrite(indexBuffer, 0, bytes)[..|bytes|]) == xs
  {
    var vs, xs := host.vertices[..host.vertexCount], host.indices[..host.indexCount];
    OverwriteReadBack(vertexBuffer, 0, EncodeVertices(vs));
    OverwriteReadBack(indexBuffer, 0, EncodeWords(xs));
    VerticesRoundTrip(vs);
    WordsRoundTrip(xs);
  }

  /** SDL_UploadToGPUBuffer: copy the upload's bytes from `source` into its
      destination region of `destination`. */
  method UploadToBuffer(source: array<byte>, u: Upload, destination: array<byte>)
    requires u.SourceRegion().Within(source.Length) && u.destination.Within(destination.Length)
    requires source != destination
    modifies destination
    ensures destination[..] == Overwrite(old(destination[..]), u.destination.offset,
                                         source[u.source..u.source + u.destination.size])
  {
    CopyInto(destination, u.destination.offset, source[u.source..u.source + u.destination.size]);
  }

  /** The GPU objects the batching code writes to. */
  class Context {
    const transferBuffer: array<byte>
    const vertexBuffer: array<byte>
    const indexBuffer: array<byte>

    ghost predicate Valid()
      reads this
    {
      && transferBuffer.Length == TRANSFER_BUFFER_SIZE
      && vertexBuffer.Length == VERTEX_BUFFER_SIZE
      && indexBuffer.Length == INDEX_BUFFER_SIZE
      && transferBuffer != vertexBuffer && transferBuffer != indexBuffer && vertexBuffer != indexBuffer
    }

    /** The three buffers with the sizes main creates them with. */
    constructor ()
      ensures Valid() && fresh(transferBuffer) && fresh(vertexBuffer) && fresh(indexBuffer)
    {
      transferBuffer := new byte[TRANSFER_BUFFER_SIZE];
      vertexBuffer := new byte[VERTEX_BUFFER_SIZE];
      indexBuffer := new byte[INDEX_BUFFER_SIZE];
    }

    /** set_geometry_data: memcpy the filled vertices to offset 0 of the
        transfer buffer and the filled indices to INDEX_STAGING_OFFSET. */
    method SetGeometryData(g: GeometryData)
      requires Valid() && g.Valid()
      modifies transferBuffer
      ensures transferBuffer[..] ==
        Overwrite(Overwrite(old(transferBuffer[..]), 0, EncodeVertices(g.vertices[..g.vertexCount])),
                  INDEX_STAGING_OFFSET, EncodeWords(g.indices[..g.indexCount]))
      ensures Staged(transferBuffer[..], g.Model())
      ensures g.Model() == old(g.Model())
    {
      var vertexBytes := EncodeVertices(g.vertices[..g.vertexCount]);
      var indexBytes := EncodeWords(g.indices[..g.indexCount]);
      CopyInto(transferBuffer, 0, vertexBytes);
      CopyInto(transferBuffer, INDEX_STAGING_OFFSET, indexBytes);
      var t := transferBuffer[..];
      assert t[0..|vertexBytes|] == vertexBytes;
      assert t[INDEX_STAGING_OFFSET..INDEX_STAGING_OFFSET + |indexBytes|] == indexBytes;
    }

    /** transfer_data: one upload per device buffer, each from its staged
        region to offset 0, sized by the counts. */
    method TransferData(g: GeometryData)
      requires Valid() && g.Valid()
      modifies vertexBuffer, indexBuffer
      ensures vertexBuffer[..] == Overwrite(old(vertexBuffer[..]), 0,
        transferBuffer[VertexStagingRegion(g.vertexCount).offset..VertexStagingRegion(g.vertexCount).End()])
      ensures indexBuffer[..] == Overwrite(old(indexBuffer[..]), 0,
        transferBuffer[IndexStagingRegion(g.indexCount).offset..IndexStagingRegion(g.indexCount).End()])
      ensures transferBuffer[..] == old(transferBuffer[..]) && g.Model() == old(g.Model())
    {
      UploadToBuffer(transferBuffer, VertexUpload(g.vertexCount), vertexBuffer);
      UploadToBuffer(transferBuffer, IndexUpload(g.indexCount), indexBuffer);
    }

    /** set_geometry_data followed by transfer_data, as the frame loop runs
        them: the transfer buffer holds the staged bytes, the device buffers
        begin with the host's filled vertices and indices, byte for byte, and
        every device byte past them is as it was. */
    method Upload(g: GeometryData)
      requires Valid() && g.Valid()
      modifies transferBuffer, vertexBuffer, indexBuffer
      ensures g.Model() == old(g.Model())
      ensures DecodeVertices(vertexBuffer[..VERTEX_SIZE * g.vertexCount]) == g.vertices[..g.vertexCount]
      ensures DecodeWords(indexBuffer[..INDEX_SIZE * g.indexCount]) == g.indices[..g.indexCount]
      ensures transferBuffer[..] ==
        Overwrite(Overwrite(old(transferBuffer[..]), 0, EncodeVertices(g.vertices[..g.vertexCount])),
                  INDEX_STAGING_OFFSET, EncodeWords(g.indices[..g.indexCount]))
      ensures Staged(transferBuffer[..], g.Model())
      ensures vertexBuffer[..] == Overwrite(old(vertexBuffer[..]), 0, EncodeVertices(g.vertices[..g.vertexCount]))
      ensures indexBuffer[..] == Overwrite(old(indexBuffer[..]), 0, EncodeWords(g.indices[..g.indexCount]))
    {
      ghost var host := g.Model();
      ghost var vs, xs := host.vertices[..host.vertexCount], host.indices[..host.indexCount];
      assert vs == g.vertices[..g.vertexCount] && xs == g.indices[..g.indexCount];
      ghost var vr, ir := VertexStagingRegion(g.vertexCount), IndexStagingRegion(g.indexCount);
      SetGeometryData(g);
      ghost var transfer, vertexBefore, indexBefore := transferBuffer[..], vertexBuffer[..], indexBuffer[..];
      assert transfer[vr.offset..vr.End()] == EncodeVertices(vs) && transfer[ir.offset..ir.End()] == EncodeWords(xs);
      TransferData(g);
      UploadRoundTrip(host, vertexBefore, indexBefore);
      assert transferBuffer[..] == transfer;
    }
  }
}
