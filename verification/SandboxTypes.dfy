/** Entities shared by the sandbox control service, the sandbox workload and
    the composition of the two. */
module SandboxTypes {

  datatype Option<+T> = None | Some(value: T)

  type AttemptId = string

  /** Time the control service adds to every deadline for cleanup. */
  const CLEANUP_MARGIN_MS: int := 180_000

  /** How long after its expiry the executor still accepts a bundle. */
  const BUNDLE_SKEW_MS: int := 5_000

  /** Longest retention a cancel command may ask for. */
  const MAX_RETENTION_MS: int := 30 * 24 * 60 * 60_000

  /** A candidate bundle.  Its hash is content-addressed, so wherever the program
      compares bundle hashes the model compares bundles. */
  datatype Bundle = Bundle(attemptId: AttemptId, slug: string, expiresAt: int, maxRunMs: nat, content: string)

  function AppId(prefix: string, slug: string): string {
    prefix + "-" + slug
  }

  predicate SafeIdTail(c: char) {
    'A' <= c <= 'Z' || 'a' <= c <= 'z' || '0' <= c <= '9' || c in {'_', '.', ':', '-'}
  }

  /** The identifier shape every durable file name must have. */
  predicate SafeId(s: string) {
    && 1 <= |s| <= 256
    && ('A' <= s[0] <= 'Z' || 'a' <= s[0] <= 'z' || '0' <= s[0] <= '9')
    && forall i :: 1 <= i < |s| ==> SafeIdTail(s[i])
  }

  function Max(x: int, y: int): int {
    if x < y then y else x
  }
}
