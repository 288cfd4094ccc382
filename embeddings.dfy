/**
 * What both chunkers' `_process_page` do with a page's chunk texts: clean
 * each, embed the cleaned texts in one call, and store the raw texts with
 * the embeddings, paired by `zip`.
 */
module Embeddings {
  import opened GraphDataClasses

  /** `[clean(t) for t in texts]` */
  function MapAll(texts: seq<string>, clean: string -> string): (r: seq<string>)
    ensures |r| == |texts|
    ensures forall i :: 0 <= i < |texts| ==> r[i] == clean(texts[i])
  {
    if texts == [] then [] else [clean(texts[0])] + MapAll(texts[1..], clean)
  }

  /** `[Chunk(content=t, embedding=e) for t, e in zip(texts, embeddings)]`:
      `zip` stops at the shorter of the two. */
  function Zip(texts: seq<string>, embeddings: seq<Embedding>): (r: seq<Chunk>)
    ensures |r| == (if |texts| <= |embeddings| then |texts| else |embeddings|)
    ensures forall i :: 0 <= i < |r| ==> r[i] == Chunk(texts[i], embeddings[i])
  {
    if texts == [] || embeddings == [] then []
    else [Chunk(texts[0], embeddings[0])] + Zip(texts[1..], embeddings[1..])
  }

  /** The page `_process_page` leaves: its chunks are the raw chunk texts,
      each with the embedding the service returned for its cleaned text. */
  function Embedded(page: GraphPage, chunks: seq<string>, clean: string -> string,
                    embed: seq<string> -> seq<Embedding>): GraphPage
  {
    page.(chunks := Zip(chunks, embed(MapAll(chunks, clean))))
  }

  /** Only the chunks change; chunk `i` holds the raw text `i` and the `i`th
      embedding of the cleaned texts, for as many as the service returned. */
  lemma EmbeddedChunks(page: GraphPage, chunks: seq<string>, clean: string -> string,
                       embed: seq<string> -> seq<Embedding>)
    ensures Embedded(page, chunks, clean, embed).(chunks := page.chunks) == page
    ensures |Embedded(page, chunks, clean, embed).chunks| <= |chunks|
    ensures |embed(MapAll(chunks, clean))| >= |chunks| ==> |Embedded(page, chunks, clean, embed).chunks| == |chunks|
    ensures forall i :: 0 <= i < |Embedded(page, chunks, clean, embed).chunks| ==>
      Embedded(page, chunks, clean, embed).chunks[i] == Chunk(chunks[i], embed(MapAll(chunks, clean))[i])
  {
  }
}
