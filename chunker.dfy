/**
 * The PDF processor's bookkeeping: every chunk produced by the text splitter
 * becomes a record carrying the chunk and its metadata (`chunk_index`,
 * `total_chunks`, then the caller's keys, which win on a clash), and a PDF gets
 * the metadata `source` and `file_path` before it is chunked.
 *
 * The splitter (a recursive character splitter with fixed size and overlap) and
 * the PDF text extraction are opaque: the first is a function parameter, the
 * second an input.
 */
module Chunker {
  import opened Wrappers
  import opened Values

  datatype Chunk = Chunk(text: string, metadata: Dict)

  /** `{"chunk_index": idx, "total_chunks": n, **metadata}` */
  function Annotated(idx: nat, n: nat, metadata: Dict): (m: Dict)
    ensures m.Keys == {"chunk_index", "total_chunks"} + metadata.Keys
    ensures forall k :: k in metadata ==> m[k] == metadata[k]
    ensures "chunk_index" !in metadata ==> m["chunk_index"] == VInt(idx)
    ensures "total_chunks" !in metadata ==> m["total_chunks"] == VInt(n)
  {
    map["chunk_index" := VInt(idx), "total_chunks" := VInt(n)] + metadata
  }

  /**
   * `chunk_text(text, metadata)`: one record per chunk of `split(text)`, in
   * order. An absent metadata argument and an empty one both merge nothing, so
   * both are the empty map here.
   */
  method ChunkText(text: string, metadata: Dict, split: string -> seq<string>) returns (docs: seq<Chunk>)
    ensures |docs| == |split(text)|
    ensures forall i :: 0 <= i < |docs| ==> docs[i].text == split(text)[i]
    ensures forall i :: 0 <= i < |docs| ==> docs[i].metadata == Annotated(i, |docs|, metadata)
  {
    var chunks := split(text);
    docs := [];
    var idx := 0;
    while idx < |chunks|
      invariant idx <= |chunks| && |docs| == idx
      invariant forall i :: 0 <= i < idx ==> docs[i] == Chunk(chunks[i], Annotated(i, |chunks|, metadata))
    {
      docs := docs + [Chunk(chunks[idx], Annotated(idx, |chunks|, metadata))];
      idx := idx + 1;
    }
  }

  /**
   * Without caller keys of the same names, the records are numbered 0..n-1, so
   * the indices strictly increase, and all of them carry n.
   */
  lemma ChunkNumbering(docs: seq<Chunk>, metadata: Dict)
    requires "chunk_index" !in metadata && "total_chunks" !in metadata
    requires forall i :: 0 <= i < |docs| ==> docs[i].metadata == Annotated(i, |docs|, metadata)
    ensures forall i :: 0 <= i < |docs| ==>
      && "chunk_index" in docs[i].metadata && docs[i].metadata["chunk_index"] == VInt(i)
      && "total_chunks" in docs[i].metadata && docs[i].metadata["total_chunks"] == VInt(|docs|)
  {
    forall i | 0 <= i < |docs|
      ensures "chunk_index" in docs[i].metadata && docs[i].metadata["chunk_index"] == VInt(i)
      ensures "total_chunks" in docs[i].metadata && docs[i].metadata["total_chunks"] == VInt(|docs|)
    {
      assert docs[i].metadata == Annotated(i, |docs|, metadata);
    }
  }

  /** `os.path.basename(path)`: the part after the last "/". */
  function Basename(path: string): (name: string)
    ensures |name| <= |path| && name == path[|path| - |name|..]
    ensures '/' !in name
    ensures |name| < |path| ==> path[|path| - |name| - 1] == '/'
    decreases |path|
  {
    if path == [] then []
    else if path[|path| - 1] == '/' then []
    else
      var front := Basename(path[..|path| - 1]);
      assert path[..|path| - 1][|path| - 1 - |front|..] == path[|path| - 1 - |front|..|path| - 1];
      front + [path[|path| - 1]]
  }

  /** The metadata `process_pdf` attaches: `source_name or basename(path)`, and the path itself. */
  function SourceMetadata(path: string, sourceName: Option<string>): (m: Dict)
    ensures m.Keys == {"source", "file_path"}
    ensures m["file_path"] == VStr(path)
    ensures sourceName.Some? && sourceName.value != "" ==> m["source"] == VStr(sourceName.value)
    ensures sourceName.None? || sourceName.value == "" ==> m["source"] == VStr(Basename(path))
  {
    var source := if sourceName.Some? && sourceName.value != "" then sourceName.value else Basename(path);
    map["source" := VStr(source), "file_path" := VStr(path)]
  }

  /**
   * `process_pdf(path, source_name)` once the text has been extracted from the
   * file: every record carries its index, the total, the source and the path.
   */
  method ProcessPdf(path: string, sourceName: Option<string>, extracted: string, split: string -> seq<string>)
    returns (docs: seq<Chunk>)
    ensures |docs| == |split(extracted)|
    ensures forall i :: 0 <= i < |docs| ==> docs[i].text == split(extracted)[i]
    ensures forall i :: 0 <= i < |docs| ==>
      && docs[i].metadata.Keys == {"chunk_index", "total_chunks", "source", "file_path"}
      && docs[i].metadata["chunk_index"] == VInt(i)
      && docs[i].metadata["total_chunks"] == VInt(|docs|)
      && docs[i].metadata["source"] == SourceMetadata(path, sourceName)["source"]
      && docs[i].metadata["file_path"] == VStr(path)
  {
    var metadata := SourceMetadata(path, sourceName);
    docs := ChunkText(extracted, metadata, split);
    ChunkNumbering(docs, metadata);
  }
}
