/** The configuration values the core reads (rag_system/config.py). */
module Config {

  /** Number of documents a search returns when the caller gives no `top_k`. */
  const TopK: int := 3

  /** Name of the prompt template `generate` uses when the caller names none. */
  const DefaultTemplate: string := "text"
}
