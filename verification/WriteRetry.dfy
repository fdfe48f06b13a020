/** The graph writer's retry rule: which write errors a later attempt converges on, and how
    many attempts each kind gets. */
module WriteRetry {

  datatype ErrorKind = RevisionConflict | Unavailable | CommitUnknown | BugShaped

  const REVISION_ATTEMPTS: nat := 3
  const TRANSPORT_ATTEMPTS: nat := 4

  function AttemptBound(kind: ErrorKind): nat {
    if kind.RevisionConflict? then REVISION_ATTEMPTS else TRANSPORT_ATTEMPTS
  }

  /** A lost revision race and a request nobody took leave the store as it was. */
  predicate MayHaveLanded(kind: ErrorKind) {
    !kind.RevisionConflict? && !kind.Unavailable?
  }

  predicate RetriesWrite(kind: ErrorKind, request: nat) {
    request < AttemptBound(kind) && !kind.BugShaped?
  }
}
