/** The configuration defaults the core reads (src/config.py), taken as constants. */
module Config {
  /** Most completion rounds one tool-node run makes. */
  const MaxToolHops: nat := 3
  /** Iteration ceiling above which the router forces finalize. */
  const MaxNodeIterations: int := 10
  /** Characters per chunk. */
  const ChunkSize: int := 500
  /** Characters shared by consecutive chunks. */
  const ChunkOverlap: int := 50
  /** Chunks requested from the retriever. */
  const TopK: nat := 5
}
