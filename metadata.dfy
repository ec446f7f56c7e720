/** The metadata dictionary stored beside each chunk. Every key is optional,
    as in the dictionary the source passes around; ingestion fills `source`,
    `chunk_id`, `total_chunks` and `file_path`, and the answer formatter also
    reads `page`. */
module Metadata {
  import opened Base

  datatype ChunkMeta = ChunkMeta(
    source: Option<string>,
    page: Option<int>,
    chunkId: Option<int>,
    totalChunks: Option<int>,
    filePath: Option<string>)

  /** `metadata.get('source', 'Unknown')`. */
  function SourceLabel(m: ChunkMeta): string
  {
    m.source.GetOr("Unknown")
  }
}
