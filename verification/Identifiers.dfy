/** Identifiers and points in time of the rows that several components share. */
module Identifiers {
  type SourceId = nat
  type VersionId = nat
  type RunId = nat
  type Time = int

  const SYNC_JOB_TYPE := "knowledge_source_sync"
}
