/**
 * The pieces of the retrieval library that the handler builds and writes:
 * documents, text nodes with metadata and a PREVIOUS relationship, and an
 * index that records what was inserted.
 */
module LlamaIndex {
  import opened Wrappers

  /** `Document(text=...)`. */
  datatype Document = Document(text: string)

  /**
   * `TextNode(text=..., id_=..., metadata=...)`; `previous` is the node id
   * held under the PREVIOUS relationship, if any.
   */
  datatype TextNode = TextNode(id: string, text: string, metadata: map<string, string>, previous: Option<string>)

  /**
   * The vector index, seen only through what has been inserted into it.
   * Embedding, storage and retrieval happen inside the library and are not
   * modelled.
   */
  class VectorIndex<T> {
    var nodes: seq<T>

    constructor ()
      ensures nodes == []
    {
      nodes := [];
    }

    /** `index.insert(x)` */
    method Insert(x: T)
      modifies this
      ensures nodes == old(nodes) + [x]
    {
      nodes := nodes + [x];
    }

    /** `index.insert_nodes(xs)` */
    method InsertNodes(xs: seq<T>)
      modifies this
      ensures nodes == old(nodes) + xs
    {
      nodes := nodes + xs;
    }
  }
}
