/** Identity tokens and Admission Grants: their issue and their verification.  Signatures are
    ideal: only an issued token decodes, and it decodes to what was signed. */
module Credentials {
  import opened Basics
  import opened Clock

  const LEEWAY: int := 60 * TICKS
  const JTI_SIZE: nat := 32
  const GRANT_VERSION: int := 1
  const GRANT_MAX_WINDOW: int := 600
  const INT64_MAX: nat := 0x7FFF_FFFF_FFFF_FFFF

  type Jti = seq<char>

  predicate ValidJti(s: Jti) {
    |s| == JTI_SIZE && forall i :: 0 <= i < |s| ==> '0' <= s[i] <= '9' || 'a' <= s[i] <= 'f'
  }

  function Min(a: int, b: int): int { if a <= b then a else b }

  /** `grantWindow` is in seconds. */
  datatype GrantPolicy = GrantPolicy(issuer: seq<char>, deploymentId: seq<char>, grantWindow: int)

  predicate ValidPolicy(p: GrantPolicy) { 0 < p.grantWindow <= GRANT_MAX_WINDOW }

  /** A decoded identity token; its times are whole seconds, in ticks. */
  datatype IdentityClaims = IdentityClaims(jti: Jti, accountId: nat, issuedAt: int, expiresAt: int)

  predicate AcceptsIdentity(identity: IdentityClaims, now: int) {
    now <= identity.expiresAt + LEEWAY && now + LEEWAY >= identity.issuedAt
  }

  datatype GrantIssue = GrantIssue(grantJti: Jti, identityJti: Jti, queueNumber: nat, releasedAt: int, issuedAt: int,
                                   identityExpiresAt: int)

  /** The signed payload; its times are in seconds. */
  datatype GrantToken = GrantToken(version: int, issuer: seq<char>, grantJti: Jti, identityJti: Jti, queueNumber: nat,
                                   deploymentId: seq<char>, releasedAt: int, issuedAt: int, expiresAt: int)

  datatype GrantClaims = GrantClaims(grantJti: Jti, identityJti: Jti, queueNumber: nat, releasedAt: int, issuedAt: int, expiresAt: int)

  /** `None` where the program throws. */
  function IssueGrant(p: GrantPolicy, i: GrantIssue): Option<GrantToken> {
    var expires := Min(i.identityExpiresAt, i.releasedAt + p.grantWindow * TICKS);
    if !ValidJti(i.grantJti) || !ValidJti(i.identityJti) || i.queueNumber == 0 || i.queueNumber > INT64_MAX
       || i.issuedAt < i.releasedAt || expires < i.issuedAt then None
    else Some(GrantToken(GRANT_VERSION, p.issuer, i.grantJti, i.identityJti, i.queueNumber, p.deploymentId,
                         Seconds(i.releasedAt), Seconds(i.issuedAt), Seconds(expires)))
  }

  function ValidateGrant(p: GrantPolicy, t: GrantToken, expectedIdentity: Jti, identityExpiresAt: int, now: int): Option<GrantClaims> {
    var released, issued, expires := t.releasedAt * TICKS, t.issuedAt * TICKS, t.expiresAt * TICKS;
    if !ValidJti(expectedIdentity) || t.version != GRANT_VERSION || t.issuer != p.issuer || t.identityJti != expectedIdentity
       || !ValidJti(t.grantJti) || t.queueNumber == 0 || t.deploymentId != p.deploymentId then None
    else if issued < released || expires < issued || expires > released + p.grantWindow * TICKS
            || expires > identityExpiresAt || now > expires + LEEWAY || now + LEEWAY < issued then None
    else Some(GrantClaims(t.grantJti, t.identityJti, t.queueNumber, released, issued, expires))
  }
}
