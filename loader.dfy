/**
 * The backend interface every asset registry talks to: a loader accepts
 * requests for a path and later reports, one per `poll`, what happened to
 * one of them.
 */
module Loader {

  /** Raw file contents. */
  type Bytes = seq<bv8>

  /** `LoaderEvent`: the bytes of a path, or the news that the path could not be read. */
  datatype LoaderEvent = Load(path: string, data: Bytes) | LoadFailed(path: string)
}
