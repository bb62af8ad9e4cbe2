// The pure checks that the service runs on commands and on every snapshot Drive returns.
module Validation {
  import opened Domain
  import opened Ids

  function ValidateContentMetadata(contentType: string, schemaVersion: string): Result<()> {
    Need(|contentType| <= 255 && |schemaVersion| <= 32, Error.Validation)
  }

  predicate SnapshotValid(s: Snapshot) {
    && !IsBlank(s.spaceId) && !IsBlank(s.nodeId) && !IsBlank(s.uri) && !IsBlank(s.versionId)
    && !IsBlank(s.contentType) && !IsBlank(s.schemaVersion)
    && s.versionNo >= 1
    && |s.contentType| <= 255 && |s.schemaVersion| <= 32
    && s.content.isObject
    && s.uri == DriveUri(s.spaceId, s.nodeId)
  }

  predicate MatchesRefs(s: Snapshot, spaceId: string, nodeId: string, uri: string) {
    s.spaceId == spaceId && s.nodeId == nodeId && s.uri == uri
  }

  predicate MatchesVersion(s: Snapshot, versionId: string, versionNo: int) {
    s.versionId == versionId && s.versionNo == versionNo
  }

  predicate MatchesMetadata(s: Snapshot, contentType: string, schemaVersion: string) {
    s.contentType == contentType && s.schemaVersion == schemaVersion
  }

  predicate Advances(s: Snapshot, versionId: string, versionNo: int) {
    s.versionId != versionId && s.versionNo > versionNo
  }
}
