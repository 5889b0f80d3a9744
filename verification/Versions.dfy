/** File contents, the versions that name them, and the per-path sync record of the local store. */
module Versions {
  import opened Wrappers

  newtype byte = x: int | 0 <= x < 256

  type Bytes = seq<byte>

  type Path = string

  datatype Kind = DirKind | FileKind

  /**
   * A version names one content.  A SHA-256 digest depends on the content only; a token (a backend's
   * version id or etag) may differ between two writes of the same content.  Both are taken to be free
   * of collisions, so a version determines its content.
   */
  datatype Version = Sha256(content: Bytes) | Token(content: Bytes, tag: nat)

  datatype PublicState = Ready | Conflict

  datatype PathRecord = PathRecord(
    kind: Kind,
    publicState: PublicState,
    localPresent: bool,
    dirtyLocal: bool,
    dirtyRemote: bool,
    stale: bool,
    lastLocal: Option<Version>,
    baseRemote: Option<Version>,
    currentRemote: Option<Version>)

  function ReadyRecord(kind: Kind, local: Option<Version>, remote: Option<Version>, present: bool): PathRecord {
    PathRecord(kind, Ready, present, false, false, false, local, remote, remote)
  }
}
