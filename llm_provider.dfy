/** What every provider is given and what its `stream_chat` produces. */
module LlmProvider {
  import opened Wrappers

  /** A chat message as a Python dict: either key may be missing. */
  datatype ChatDict = ChatDict(role: Option<string>, content: Option<string>)

  /**
   * The outcome of iterating a provider's async generator: the chunks it
   * yielded, in order, and the text of the exception it raised after them, if any.
   */
  datatype ChunkStream = ChunkStream(chunks: seq<string>, raised: Option<string>)

  /** `"".join(chunks)`: the text a stream accumulates. */
  function Concat(chunks: seq<string>): string
  {
    if chunks == [] then "" else Concat(chunks[..|chunks| - 1]) + chunks[|chunks| - 1]
  }
}
