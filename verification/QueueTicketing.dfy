/** The credential chain: identity token, queue number, Admission Grant.  A number's grant is the
    same on every query, never outlives what it was issued from, and is accepted by a gateway
    with the same policy exactly while it should be. */
module QueueTicketing {
  import opened Basics
  import opened Clock
  import opened Credentials
  import opened QueueLedger

  const NUMBER_VERSION: int := 2

  datatype NumberIssue = NumberIssue(identityJti: Jti, number: nat, issuedAt: int, identityExpiresAt: int)
  /** The signed payload; its times are in seconds. */
  datatype NumberToken = NumberToken(version: int, identityJti: Jti, number: nat, issuedAt: int, expiresAt: int)
  datatype NumberClaims = NumberClaims(identityJti: Jti, number: nat, issuedAt: int, expiresAt: int)

  /** `ttl` is in seconds; `None` where the program throws. */
  function IssueNumber(ttl: int, i: NumberIssue): Option<NumberToken> {
    if !ValidJti(i.identityJti) || i.number == 0 || i.number > INT64_MAX || i.identityExpiresAt < i.issuedAt then None
    else Some(NumberToken(NUMBER_VERSION, i.identityJti, i.number, Seconds(i.issuedAt),
                          Seconds(Min(i.identityExpiresAt, i.issuedAt + ttl * TICKS))))
  }

  function ValidateNumber(ttl: int, t: NumberToken, now: int): Option<NumberClaims> {
    var issued, expires := t.issuedAt * TICKS, t.expiresAt * TICKS;
    if t.version != NUMBER_VERSION || !ValidJti(t.identityJti) || t.number == 0 || t.number > INT64_MAX then None
    else if expires < issued || expires > issued + ttl * TICKS || now > expires + LEEWAY || now + LEEWAY < issued then None
    else Some(NumberClaims(t.identityJti, t.number, issued, expires))
  }

  datatype Query = InvalidNumber | Waiting(position: nat) | ReleaseOver | Admitted(grant: GrantToken, secondsLeft: nat) | Thrown

  /** `grantJti` is the keyed digest that names a grant after its number and release. */
  function GrantInput(c: NumberClaims, releasedAt: int, grantJti: (Jti, nat, int) -> Jti): GrantIssue {
    GrantIssue(grantJti(c.identityJti, c.number, releasedAt), c.identityJti, c.number, releasedAt, releasedAt, c.expiresAt)
  }

  function AnswerQuery(l: Ledger, p: GrantPolicy, ttl: int, t: NumberToken, now: int, grantJti: (Jti, nat, int) -> Jti): Query {
    var claims := ValidateNumber(ttl, t, now);
    if claims.None? then InvalidNumber
    else
      var e := EligibilityOf(l, p.grantWindow, claims.value.number, now);
      if e.status == NotReleased then
        if claims.value.number >= l.released then Waiting(claims.value.number - l.released) else Thrown
      else if e.status == Expired || e.releasedAt.None? || claims.value.expiresAt < e.releasedAt.value then ReleaseOver
      else
        var issued := IssueGrant(p, GrantInput(claims.value, e.releasedAt.value, grantJti));
        if issued.None? then Thrown
        else
          var left := Seconds(Min(claims.value.expiresAt, e.releasedAt.value + p.grantWindow * TICKS) - now);
          Admitted(issued.value, if left > 0 then left else 0)
  }

  ghost predicate NamesGrants(grantJti: (Jti, nat, int) -> Jti) {
    forall j: Jti, n: nat, r: int :: ValidJti(grantJti(j, n, r))
  }

  /** Truncation toward zero never makes a span of whole seconds longer. */
  lemma TruncatedSpan(t: int, seconds: int)
    requires seconds >= 0
    ensures Seconds(t + seconds * TICKS) <= Seconds(t) + seconds
  {
    if t < 0 && t + seconds * TICKS >= 0 {
      assert (t + seconds * TICKS) / TICKS == t / TICKS + seconds by { Divided(t, seconds); }
    } else {
      Divided(t, seconds);
      Divided(-t, -seconds);
    }
  }

  lemma Divided(t: int, n: int)
    ensures (t + n * TICKS) / TICKS == t / TICKS + n
  {
  }

  /** A query never throws; it admits exactly a released number whose window and token are still
      good. */
  lemma QueryNeverThrows(l: Ledger, p: GrantPolicy, ttl: int, t: NumberToken, now: int, grantJti: (Jti, nat, int) -> Jti)
    requires ValidPolicy(p) && NamesGrants(grantJti)
    ensures var q := AnswerQuery(l, p, ttl, t, now, grantJti);
            && !q.Thrown?
            && (q.Admitted? <==>
                  ValidateNumber(ttl, t, now).Some?
                  && (var e := EligibilityOf(l, p.grantWindow, t.number, now);
                      e.status == Eligible && e.releasedAt.value <= t.expiresAt * TICKS))
  {
    var claims := ValidateNumber(ttl, t, now);
    if claims.Some? {
      var e := EligibilityOf(l, p.grantWindow, t.number, now);
      if e.status == Eligible {
        assert ValidJti(grantJti(claims.value.identityJti, claims.value.number, e.releasedAt.value));
      }
    }
  }

  /** Whatever happens to the ledger between two queries that both admit a number, as long as
      its release time stands, they hand out the same grant. */
  lemma SameGrantEveryTime(l1: Ledger, l2: Ledger, p: GrantPolicy, ttl: int, t: NumberToken, n1: int, n2: int,
                           grantJti: (Jti, nat, int) -> Jti)
    requires AnswerQuery(l1, p, ttl, t, n1, grantJti).Admitted? && AnswerQuery(l2, p, ttl, t, n2, grantJti).Admitted?
    requires EligibilityOf(l1, p.grantWindow, t.number, n1).releasedAt == EligibilityOf(l2, p.grantWindow, t.number, n2).releasedAt
    ensures AnswerQuery(l1, p, ttl, t, n1, grantJti).grant == AnswerQuery(l2, p, ttl, t, n2, grantJti).grant
  {
  }

  /** The chain never lengthens: grant within number within identity. */
  lemma NothingOutlivesItsSource(p: GrantPolicy, ttl: int, i: NumberIssue, l: Ledger, now: int, grantJti: (Jti, nat, int) -> Jti)
    requires ValidPolicy(p) && IssueNumber(ttl, i).Some? && Normalized(i.identityExpiresAt) == i.identityExpiresAt
    requires AnswerQuery(l, p, ttl, IssueNumber(ttl, i).value, now, grantJti).Admitted?
    ensures var number := IssueNumber(ttl, i).value;
            var grant := AnswerQuery(l, p, ttl, number, now, grantJti).grant;
            grant.expiresAt <= number.expiresAt && number.expiresAt * TICKS <= i.identityExpiresAt
  {
    var number := IssueNumber(ttl, i).value;
    SecondsMonotone(Min(i.identityExpiresAt, i.issuedAt + ttl * TICKS), i.identityExpiresAt);
    SecondsOfWhole(number.expiresAt);
    var e := EligibilityOf(l, p.grantWindow, number.number, now);
    SecondsMonotone(Min(number.expiresAt * TICKS, e.releasedAt.value + p.grantWindow * TICKS), number.expiresAt * TICKS);
  }

  /** A gateway with the same policy accepts the grant of an admitted number exactly from its
      release, less the leeway, to its expiry, plus the leeway. */
  lemma GrantAcceptedExactly(p: GrantPolicy, ttl: int, i: NumberIssue, l: Ledger, now: int, grantJti: (Jti, nat, int) -> Jti, t: int)
    requires ValidPolicy(p) && NamesGrants(grantJti)
    requires IssueNumber(ttl, i).Some? && Normalized(i.identityExpiresAt) == i.identityExpiresAt
    requires AnswerQuery(l, p, ttl, IssueNumber(ttl, i).value, now, grantJti).Admitted?
    ensures var number := IssueNumber(ttl, i).value;
            var grant := AnswerQuery(l, p, ttl, number, now, grantJti).grant;
            var released := EligibilityOf(l, p.grantWindow, number.number, now).releasedAt.value;
            ValidateGrant(p, grant, i.identityJti, i.identityExpiresAt, t).Some? <==>
              Normalized(released) - LEEWAY <= t <= grant.expiresAt * TICKS + LEEWAY
  {
    var number := IssueNumber(ttl, i).value;
    var released := EligibilityOf(l, p.grantWindow, number.number, now).releasedAt.value;
    NothingOutlivesItsSource(p, ttl, i, l, now, grantJti);
    assert ValidJti(grantJti(number.identityJti, number.number, released));
    var expires := Min(number.expiresAt * TICKS, released + p.grantWindow * TICKS);
    SecondsMonotone(released, expires);
    SecondsMonotone(expires, released + p.grantWindow * TICKS);
    TruncatedSpan(released, p.grantWindow);
  }
}
