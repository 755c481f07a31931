/** Many gateways over one etcd: every call is a run of load, lease-grant and compare-and-put
    rounds, any response may be lost before or after its request took effect, every gateway reads
    its own clock, and etcd drops a key once its lease has run out on a clock of its own.

    `log` (each time a commit took effect), `expired` (identities whose key etcd has dropped) and
    `gone` (when it did, on the gateways' clocks) are history variables. */
module AdmissionCluster {
  import opened Basics
  import opened Clock
  import opened Credentials
  import opened AdmissionRecords

  const CAS_ATTEMPTS: nat := 8

  // ---------------------------------------------------------------------------------------
  // One call as the etcd client runs it

  datatype Loaded = Absent | Found(record: Record, modRevision: nat, lease: nat)

  datatype Phase = Loading(attempt: nat, granted: Option<nat>)
    | Leasing(attempt: nat, loaded: Loaded, replacement: Record, answer: Answer)
    | Putting(attempt: nat, loaded: Loaded, replacement: Record, answer: Answer, lease: nat)
    | Done(answer: Answer)

  /** `NoReply` stands for a timeout and for any reply the client cannot use. */
  datatype Response = NoReply | Range(loaded: Loaded) | LeaseId(id: nat) | Txn(succeeded: bool)

  const START := Loading(0, None)

  function RecordOf(l: Loaded): Option<Record> { if l.Found? then Some(l.record) else None }

  function Next(ttl: int, call: Call, phase: Phase, response: Response): Phase {
    match (phase, response)
    case (Loading(attempt, lease), Range(loaded)) =>
      (match Decide(ttl, RecordOf(loaded), call)
       case Say(answer) => Done(answer)
       case Write(replacement, answer) =>
         if !call.CallReserve? then
           if loaded.Found? then Putting(attempt, loaded, replacement, answer, loaded.lease) else Done(Unavailable)
         else if lease.Some? then Putting(attempt, loaded, replacement, answer, lease.value)
         else if RetentionTtl(call.request.now, call.request.consumeUntil).None? then Done(Unavailable)
         else Leasing(attempt, loaded, replacement, answer))
    case (Leasing(attempt, loaded, replacement, answer), LeaseId(id)) =>
      if id == 0 then Done(Unavailable) else Putting(attempt, loaded, replacement, answer, id)
    case (Putting(attempt, _, _, answer, lease), Txn(succeeded)) =>
      if succeeded then Done(answer)
      else if attempt + 1 < CAS_ATTEMPTS then Loading(attempt + 1, if call.CallReserve? then Some(lease) else None)
      else Done(Unavailable)
    case _ => Done(Unavailable)
  }

  // ---------------------------------------------------------------------------------------
  // The cluster

  /** One token per identifier, as ideal signatures give. */
  datatype Config = Config(ttl: int, policy: GrantPolicy, identities: Jti -> IdentityClaims, grants: Jti -> GrantToken)

  datatype Entry = Entry(record: Record, modRevision: nat, lease: nat)

  /** One login attempt: one reserve, and after a granted one at most one commit or release. */
  datatype Attempt = Attempt(gateway: nat, request: ReserveRequest, mutation: Option<Call>, phase: Phase)

  /** A compare-and-put its caller has given up on: it may still land. */
  datatype Put = Put(call: Call, loaded: Loaded, replacement: Record, lease: nat)

  /** When a lease runs out on etcd's clock, and how far ahead of that clock the reading was that
      its length was computed from. */
  datatype Lease = Lease(deadline: int, lead: int)

  datatype Expiry = Expiry(identity: Jti, clocks: seq<int>)

  datatype Consumption = Consumption(identity: Jti, grant: Jti, fencing: nat, owner: Owner)

  /** `time` is etcd's clock, counted from the start of the run. */
  datatype System = System(kv: map<Jti, Entry>, revision: nat, clocks: seq<int>, attempts: map<Owner, Attempt>,
                           floating: set<Put>, time: int, leases: map<nat, Lease>,
                           log: seq<Consumption>, expired: set<Jti>, gone: seq<Expiry>)

  function Initial(clocks: seq<int>): System { System(map[], 0, clocks, map[], {}, 0, map[], [], {}, []) }

  /** Both verifiers accept the pair on this clock reading. */
  predicate Accepts(c: Config, identity: Jti, grant: Jti, now: int) {
    && c.identities(identity).jti == identity && AcceptsIdentity(c.identities(identity), now)
    && c.grants(grant).grantJti == grant
    && ValidateGrant(c.policy, c.grants(grant), identity, c.identities(identity).expiresAt, now).Some?
  }

  /** When the pair can no longer be accepted anywhere. */
  function Window(c: Config, identity: Jti, grant: Jti): int {
    Min(c.identities(identity).expiresAt, c.grants(grant).expiresAt * TICKS) + LEEWAY
  }

  function Until(c: Config, identity: Jti, grant: Jti): int { Normalized(Window(c, identity, grant)) }

  function RequestOf(c: Config, identity: Jti, grant: Jti, owner: Owner, now: int): ReserveRequest {
    ReserveRequest(identity, grant, owner, now, Window(c, identity, grant))
  }

  function CurrentCall(a: Attempt): Call { if a.mutation.Some? then a.mutation.value else CallReserve(a.request) }

  predicate Compare(kv: map<Jti, Entry>, key: Jti, loaded: Loaded) {
    if loaded.Absent? then key !in kv else key in kv && kv[key].modRevision == loaded.modRevision
  }

  /** The transaction at the moment etcd runs it. */
  function Landed(s: System, p: Put): System {
    var key := IdentityOf(p.call);
    if !Compare(s.kv, key, p.loaded) then s
    else s.(kv := s.kv[key := Entry(p.replacement, s.revision + 1, p.lease)], revision := s.revision + 1,
            log := if p.call.CallCommit?
                   then s.log + [Consumption(key, p.replacement.grant, p.replacement.fencing, p.replacement.owner)]
                   else s.log)
  }

  datatype Event = Tick(gateway: nat, now: int) | Pass(now: int) | Begin(gateway: nat, owner: Owner, identity: Jti, grant: Jti)
    | Mutate(owner: Owner, commit: bool) | Reply(owner: Owner, id: nat) | Silence(owner: Owner)
    | Land(put: Put) | Expire(identity: Jti)

  function MutationOf(s: System, owner: Owner, commit: bool): Call
    requires owner in s.attempts && s.attempts[owner].phase.Done? && s.attempts[owner].phase.answer.Granted?
    requires s.attempts[owner].gateway < |s.clocks|
  {
    var a := s.attempts[owner];
    if commit then CallCommit(a.phase.answer.reservation, s.clocks[a.gateway])
    else CallRelease(a.phase.answer.reservation, s.clocks[a.gateway])
  }

  predicate Past(clocks: seq<int>, until: int) { forall g :: 0 <= g < |clocks| ==> Normalized(clocks[g]) > until }

  /** Clocks only move forward; attempts and leases are never reused; etcd drops a key once its
      lease has run out. */
  predicate Enabled(c: Config, s: System, e: Event) {
    match e
    case Tick(g, now) => g < |s.clocks| && now >= s.clocks[g]
    case Pass(now) => now >= s.time
    case Begin(g, owner, identity, grant) =>
      && g < |s.clocks| && owner !in s.attempts && Accepts(c, identity, grant, s.clocks[g])
      && ValidCall(CallReserve(RequestOf(c, identity, grant, owner, s.clocks[g])))
    case Mutate(owner, commit) =>
      && owner in s.attempts && s.attempts[owner].mutation.None? && s.attempts[owner].phase.Done?
      && s.attempts[owner].phase.answer.Granted? && s.attempts[owner].gateway < |s.clocks|
      && ValidCall(MutationOf(s, owner, commit))
    case Reply(owner, id) =>
      owner in s.attempts && !s.attempts[owner].phase.Done? && (s.attempts[owner].phase.Leasing? ==> id !in s.leases)
    case Silence(owner) => owner in s.attempts && !s.attempts[owner].phase.Done?
    case Land(put) => put in s.floating
    case Expire(identity) =>
      identity in s.kv && s.kv[identity].lease in s.leases && s.leases[s.kv[identity].lease].deadline <= s.time
  }

  function PutOf(a: Attempt): Put
    requires a.phase.Putting?
  {
    Put(CurrentCall(a), a.phase.loaded, a.phase.replacement, a.phase.lease)
  }

  function WithPhase(s: System, owner: Owner, phase: Phase): System
    requires owner in s.attempts
  {
    s.(attempts := s.attempts[owner := s.attempts[owner].(phase := phase)])
  }

  /** A lease of as many seconds as the caller asks for; 0 is a refusal. */
  function Leased(s: System, call: Call, id: nat): System {
    var ttl := if call.CallReserve? then RetentionTtl(call.request.now, call.request.consumeUntil) else None;
    if id == 0 || ttl.None? then s
    else s.(leases := s.leases[id := Lease(s.time + ttl.value * TICKS, Normalized(call.request.now) - s.time)])
  }

  /** The store's truthful answer to what the attempt is waiting for. */
  function Answered(c: Config, s: System, owner: Owner, id: nat): System
    requires owner in s.attempts
  {
    var a := s.attempts[owner];
    var call := CurrentCall(a);
    var key := IdentityOf(call);
    match a.phase
    case Loading(_, _) =>
      var loaded := if key in s.kv then Found(s.kv[key].record, s.kv[key].modRevision, s.kv[key].lease) else Absent;
      WithPhase(s, owner, Next(c.ttl, call, a.phase, Range(loaded)))
    case Leasing(_, _, _, _) => WithPhase(Leased(s, call, id), owner, Next(c.ttl, call, a.phase, LeaseId(id)))
    case Putting(_, loaded, _, _, _) =>
      WithPhase(Landed(s, PutOf(a)), owner, Next(c.ttl, call, a.phase, Txn(Compare(s.kv, key, loaded))))
    case Done(_) => s
  }

  function Step(c: Config, s: System, e: Event): System {
    if !Enabled(c, s, e) then s
    else match e
      case Tick(g, now) => s.(clocks := s.clocks[g := now])
      case Pass(now) => s.(time := now)
      case Begin(g, owner, identity, grant) =>
        s.(attempts := s.attempts[owner := Attempt(g, RequestOf(c, identity, grant, owner, s.clocks[g]), None, START)])
      case Mutate(owner, commit) =>
        s.(attempts := s.attempts[owner := s.attempts[owner].(mutation := Some(MutationOf(s, owner, commit)), phase := START)])
      case Reply(owner, id) => Answered(c, s, owner, id)
      case Silence(owner) =>
        var a := s.attempts[owner];
        var s1 := if a.phase.Putting? then s.(floating := s.floating + {PutOf(a)}) else s;
        WithPhase(s1, owner, Next(c.ttl, CurrentCall(a), a.phase, NoReply))
      case Land(put) => Landed(s, put).(floating := s.floating - {put})
      case Expire(identity) =>
        s.(kv := s.kv - {identity}, expired := s.expired + {identity}, gone := s.gone + [Expiry(identity, s.clocks)])
  }

  function Run(c: Config, clocks: seq<int>, es: seq<Event>): System {
    if es == [] then Initial(clocks) else Step(c, Run(c, clocks, es[..|es| - 1]), es[|es| - 1])
  }
}
