/** A gateway's use of the store: reserve for accepted credentials, then one commit or one
    release through a handle that works once. */
module GatewayAdmission {
  import opened Basics
  import opened Credentials
  import opened AdmissionRecords
  import opened AdmissionStores

  datatype StartStatus = StartReserved | InvalidCredentials | StartInProgress | StartConsumed | StartUnavailable
  datatype TransitionStatus = Pending | TransitionApplied | TransitionLost | StoreUnavailable
  datatype TransportResult = Accepted | Full | Stopped

  function TransitionOf(answer: Answer): TransitionStatus {
    match answer
    case Applied => TransitionApplied
    case Lost => TransitionLost
    case _ => StoreUnavailable
  }

  function StartOf(answer: Answer): StartStatus {
    match answer
    case Granted(_) => StartReserved
    case InProgress => StartInProgress
    case AlreadyConsumed => StartConsumed
    case _ => StartUnavailable
  }

  /** A throw of the store passes through. */
  function Told<S>(answer: Option<Answer>, meaning: Answer -> S): Option<S> {
    if answer.Some? then Some(meaning(answer.value)) else None
  }

  /** `mutations` records the commits and releases made with the handle. */
  class Handle {
    const accountId: nat
    const reservation: Reservation
    var terminal: bool
    ghost var mutations: seq<Call>

    constructor (accountId: nat, reservation: Reservation)
      ensures this.accountId == accountId && this.reservation == reservation && !terminal && mutations == []
    {
      this.accountId, this.reservation, terminal := accountId, reservation, false;
      mutations := [];
    }

    /** Used at most once, and then for its own reservation. */
    ghost predicate Valid()
      reads this
    {
      && |mutations| == (if terminal then 1 else 0)
      && forall call :: call in mutations ==> !call.CallReserve? && call.reservation == reservation
    }
  }

  /** The store keeps a credential for exactly as long as some verifier could accept it. */
  function ConsumeUntil(identity: IdentityClaims, grant: GrantClaims): int {
    Min(identity.expiresAt, grant.expiresAt) + LEEWAY
  }

  lemma WindowIsTight(p: GrantPolicy, identity: IdentityClaims, token: GrantToken, now: int)
    requires ValidateGrant(p, token, identity.jti, identity.expiresAt, now).Some?
    requires AcceptsIdentity(identity, now)
    ensures var grant := ValidateGrant(p, token, identity.jti, identity.expiresAt, now).value;
            forall t :: t > now ==>
              (t <= ConsumeUntil(identity, grant) <==>
                 AcceptsIdentity(identity, t) && ValidateGrant(p, token, identity.jti, identity.expiresAt, t).Some?)
  {
  }

  class GatewayAdmission {
    const store: InMemoryStore
    const policy: GrantPolicy

    constructor (store: InMemoryStore, policy: GrantPolicy)
      ensures this.store == store && this.policy == policy
    {
      this.store, this.policy := store, policy;
    }

    /** A token that does not decode is `None`; so is the status when the store throws. */
    method Reserve(identity: Option<IdentityClaims>, token: Option<GrantToken>, owner: Owner, now: int)
      returns (status: Option<StartStatus>, handle: Option<Handle>)
      modifies store
      ensures status == Some(InvalidCredentials) <==>
                || identity.None? || !AcceptsIdentity(identity.value, now) || token.None?
                || ValidateGrant(policy, token.value, identity.value.jti, identity.value.expiresAt, now).None?
      ensures status == Some(InvalidCredentials) ==> unchanged(store)
      ensures handle.Some? <==> status == Some(StartReserved)
      ensures status != Some(InvalidCredentials) ==>
                var grant := ValidateGrant(policy, token.value, identity.value.jti, identity.value.expiresAt, now).value;
                var call := CallReserve(ReserveRequest(identity.value.jti, grant.grantJti, owner, now, ConsumeUntil(identity.value, grant)));
                exists answer :: store.Stepped(call, answer) && status == Told(answer, StartOf)
                                 && (handle.Some? ==> answer == Some(Granted(handle.value.reservation)))
      ensures handle.Some? ==>
                && fresh(handle.value) && handle.value.Valid() && !handle.value.terminal
                && handle.value.accountId == identity.value.accountId
    {
      handle := None;
      if identity.None? || !AcceptsIdentity(identity.value, now) || token.None? {
        return Some(InvalidCredentials), None;
      }
      var grant := ValidateGrant(policy, token.value, identity.value.jti, identity.value.expiresAt, now);
      if grant.None? {
        return Some(InvalidCredentials), None;
      }
      var request := ReserveRequest(identity.value.jti, grant.value.grantJti, owner, now, ConsumeUntil(identity.value, grant.value));
      var answer := store.Reserve(request);
      assert store.Stepped(CallReserve(request), answer);
      if answer.Some? && answer.value.Granted? {
        var made := new Handle(identity.value.accountId, answer.value.reservation);
        handle := Some(made);
      }
      status := Told(answer, StartOf);
    }

    /** Full leaves everything as it was; the first other result spends the handle on exactly
        one store call, a release for Stopped and a commit for Accepted. */
    method OnAcceptResult(handle: Handle, result: TransportResult, now: int) returns (status: Option<TransitionStatus>)
      requires handle.Valid()
      modifies handle, store
      ensures handle.Valid()
      ensures old(handle.terminal) || result == Full ==>
                && unchanged(handle) && unchanged(store)
                && status == Some(if old(handle.terminal) then TransitionLost else Pending)
      ensures !old(handle.terminal) && result != Full ==>
                var call := if result == Stopped then CallRelease(handle.reservation, now) else CallCommit(handle.reservation, now);
                && handle.terminal && handle.mutations == [call]
                && exists answer :: store.Stepped(call, answer) && status == Told(answer, TransitionOf)
    {
      if handle.terminal {
        return Some(TransitionLost);
      }
      if result == Full {
        return Some(Pending);
      }
      handle.terminal := true;
      if result == Stopped {
        handle.mutations := handle.mutations + [CallRelease(handle.reservation, now)];
        var released := store.Release(handle.reservation, now);
        assert store.Stepped(CallRelease(handle.reservation, now), released);
        return Told(released, TransitionOf);
      }
      handle.mutations := handle.mutations + [CallCommit(handle.reservation, now)];
      var committed := store.Commit(handle.reservation, now);
      assert store.Stepped(CallCommit(handle.reservation, now), committed);
      status := Told(committed, TransitionOf);
    }

    method Abandon(handle: Handle, now: int) returns (status: Option<TransitionStatus>)
      requires handle.Valid()
      modifies handle, store
      ensures handle.Valid() && handle.terminal
      ensures old(handle.terminal) ==> unchanged(handle) && unchanged(store) && status == Some(TransitionLost)
      ensures !old(handle.terminal) ==>
                && handle.mutations == [CallRelease(handle.reservation, now)]
                && exists answer :: store.Stepped(CallRelease(handle.reservation, now), answer) && status == Told(answer, TransitionOf)
    {
      if handle.terminal {
        return Some(TransitionLost);
      }
      handle.terminal := true;
      handle.mutations := handle.mutations + [CallRelease(handle.reservation, now)];
      var released := store.Release(handle.reservation, now);
      assert store.Stepped(CallRelease(handle.reservation, now), released);
      status := Told(released, TransitionOf);
    }
  }
}
