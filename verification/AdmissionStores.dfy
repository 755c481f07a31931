/** The two stores as the program writes them: one map updated in place, and a loop of load,
    decide and compare-and-put over a client that may fail at any point. */
module AdmissionStores {
  import opened Basics
  import opened Clock
  import opened Credentials
  import opened AdmissionRecords
  import opened AdmissionCluster

  function Lookup(records: map<Jti, Record>, key: Jti): Option<Record> {
    if key in records then Some(records[key]) else None
  }

  function Store(records: map<Jti, Record>, key: Jti, r: Option<Record>): map<Jti, Record> {
    if r.Some? then records[key := r.value] else records
  }

  class InMemoryStore {
    const ttl: int
    var records: map<Jti, Record>
    var available: bool

    constructor (ttl: int)
      requires ValidTtl(ttl)
      ensures this.ttl == ttl && records == map[] && available
    {
      this.ttl := ttl;
      records, available := map[], true;
    }

    /** A malformed call throws (`None`) and changes nothing.  Any other is exactly the atomic
        step, on this identity alone; a fencing value that cannot be raised makes the whole store
        unavailable. */
    twostate predicate Stepped(call: Call, new answer: Option<Answer>)
      reads this
    {
      var before := Lookup(old(records), IdentityOf(call));
      if !ValidCall(call) then records == old(records) && available == old(available) && answer == None
      else if !old(available) then records == old(records) && !available && answer == Some(Unavailable)
      else
        && records == Store(old(records), IdentityOf(call), Atomic(ttl, before, call).0)
        && answer == Some(Atomic(ttl, before, call).1)
        && available == (answer != Some(Unavailable))
    }

    method Reserve(q: ReserveRequest) returns (answer: Option<Answer>)
      modifies this
      ensures Stepped(CallReserve(q), answer)
    {
      if !ValidCall(CallReserve(q)) {
        return None;
      }
      if !available {
        return Some(Unavailable);
      }
      var now := Normalized(q.now);
      if q.identity in records {
        var record := records[q.identity];
        if record.state.Consumed? && now <= record.consumeUntil {
          return Some(AlreadyConsumed);
        }
        if record.state.Reserved? && now < record.leaseExpiresAt {
          if record.owner == q.owner && record.grant == q.grant {
            return Some(Granted(ReservationFrom(q, record)));
          }
          return Some(InProgress);
        }
        if record.fencing >= FENCING_MAX {
          available := false;
          return Some(Unavailable);
        }
        record := record.(fencing := record.fencing + 1, state := Reserved, grant := q.grant, owner := q.owner,
                          leaseExpiresAt := now + ttl * TICKS, consumeUntil := Normalized(q.consumeUntil));
        records := records[q.identity := record];
        return Some(Granted(ReservationFrom(q, record)));
      }
      var record := Record(Reserved, q.grant, q.owner, 1, now + ttl * TICKS, Normalized(q.consumeUntil));
      records := records[q.identity := record];
      answer := Some(Granted(ReservationFrom(q, record)));
    }

    method Commit(v: Reservation, now: int) returns (answer: Option<Answer>)
      modifies this
      ensures Stepped(CallCommit(v, now), answer)
    {
      if !ValidCall(CallCommit(v, now)) {
        return None;
      }
      if !available {
        return Some(Unavailable);
      }
      if v.identity !in records {
        return Some(Lost);
      }
      var record := records[v.identity];
      if record.state.Consumed? {
        return Some(if record.fencing == v.fencing && record.grant == v.grant then Applied else Lost);
      }
      var current := Normalized(now);
      if !Matches(record, v) || current >= record.leaseExpiresAt || current > record.consumeUntil {
        return Some(Lost);
      }
      records := records[v.identity := record.(state := Consumed, consumeUntil := Normalized(v.consumeUntil))];
      answer := Some(Applied);
    }

    method Release(v: Reservation, now: int) returns (answer: Option<Answer>)
      modifies this
      ensures Stepped(CallRelease(v, now), answer)
    {
      if !ValidCall(CallRelease(v, now)) {
        return None;
      }
      if !available {
        return Some(Unavailable);
      }
      if v.identity !in records || records[v.identity].state != Reserved || !Matches(records[v.identity], v) {
        return Some(Lost);
      }
      records := records[v.identity := records[v.identity].(leaseExpiresAt := Normalized(now))];
      answer := Some(Applied);
    }
  }

  // ---------------------------------------------------------------------------------------
  // The etcd loop

  /** The phase after the first `n` responses. */
  function Drive(ttl: int, call: Call, replies: nat -> Response, n: nat): Phase {
    if n == 0 then START else Next(ttl, call, Drive(ttl, call, replies, n - 1), replies(n - 1))
  }

  /** The puts posted before the first `n` responses came back. */
  function Posted(ttl: int, call: Call, replies: nat -> Response, n: nat): seq<Put> {
    if n == 0 then []
    else
      var phase := Drive(ttl, call, replies, n - 1);
      Posted(ttl, call, replies, n - 1)
      + (if phase.Putting? then [Put(call, phase.loaded, phase.replacement, phase.lease)] else [])
  }

  lemma DriveOn(ttl: int, call: Call, replies: nat -> Response, n: nat)
    ensures Drive(ttl, call, replies, n + 1) == Next(ttl, call, Drive(ttl, call, replies, n), replies(n))
    ensures var phase := Drive(ttl, call, replies, n);
            Posted(ttl, call, replies, n + 1) == Posted(ttl, call, replies, n)
              + (if phase.Putting? then [Put(call, phase.loaded, phase.replacement, phase.lease)] else [])
  {
  }

  /** The first phase of a reserve's round. */
  lemma ReserveRound(ttl: int, q: ReserveRequest, attempt: nat, lease: Option<nat>, loaded: Loaded)
    ensures var verdict := DecideReserve(ttl, RecordOf(loaded), q);
            Next(ttl, CallReserve(q), Loading(attempt, lease), Range(loaded)) ==
              if verdict.Say? then Done(verdict.answer)
              else if lease.Some? then Putting(attempt, loaded, verdict.replacement, verdict.answer, lease.value)
              else if RetentionTtl(q.now, q.consumeUntil).None? then Done(Unavailable)
              else Leasing(attempt, loaded, verdict.replacement, verdict.answer)
  {
  }

  /** The other phases of a round, and what ends it. */
  lemma LaterPhases(ttl: int, q: ReserveRequest, phase: Phase, reply: Response)
    ensures phase.Loading? && !reply.Range? ==> Next(ttl, CallReserve(q), phase, reply) == Done(Unavailable)
    ensures phase.Leasing? ==>
              Next(ttl, CallReserve(q), phase, reply) ==
                if !reply.LeaseId? || reply.id == 0 then Done(Unavailable)
                else Putting(phase.attempt, phase.loaded, phase.replacement, phase.answer, reply.id)
    ensures phase.Putting? ==>
              Next(ttl, CallReserve(q), phase, reply) ==
                if !reply.Txn? then Done(Unavailable) else if reply.succeeded then Done(phase.answer)
                else if phase.attempt + 1 < CAS_ATTEMPTS then Loading(phase.attempt + 1, Some(phase.lease)) else Done(Unavailable)
  {
  }

  class EtcdStore {
    const ttl: int
    var available: bool

    constructor (ttl: int)
      requires ValidTtl(ttl)
      ensures this.ttl == ttl && available
    {
      this.ttl := ttl;
      available := true;
    }

    /** What the loaded record means for a reserve. */
    method Judge(q: ReserveRequest, loaded: Loaded) returns (verdict: Decision)
      ensures verdict == DecideReserve(ttl, RecordOf(loaded), q)
      ensures verdict.Write? ==> verdict.answer.Granted?
    {
      var now := Normalized(q.now);
      var fencing := 1;
      if loaded.Found? {
        var current := loaded.record;
        if current.state.Consumed? && now <= current.consumeUntil {
          return Say(AlreadyConsumed);
        }
        if current.state.Reserved? && now < current.leaseExpiresAt {
          if current.owner == q.owner && current.grant == q.grant {
            return Say(Granted(ReservationFrom(q, current)));
          }
          return Say(InProgress);
        }
        if current.fencing >= FENCING_MAX {
          return Say(Unavailable);
        }
        fencing := current.fencing + 1;
      }
      var replacement := Record(Reserved, q.grant, q.owner, fencing, now + ttl * TICKS, Normalized(q.consumeUntil));
      verdict := Write(replacement, Granted(ReservationFrom(q, replacement)));
    }

    /** One round of the loop: load, lease if there is none yet, compare and put.  `None` means
        the comparison failed and another round is due. */
    method Round(q: ReserveRequest, replies: nat -> Response, attempt: nat, granted: Option<nat>, from: nat)
      returns (answer: Option<Answer>, lease: Option<nat>, used: nat, posted: seq<Put>)
      requires Drive(ttl, CallReserve(q), replies, from) == Loading(attempt, granted) && attempt < CAS_ATTEMPTS
      modifies this
      ensures Posted(ttl, CallReserve(q), replies, used) == Posted(ttl, CallReserve(q), replies, from) + posted && |posted| <= 1
      ensures Drive(ttl, CallReserve(q), replies, used) ==
                if answer.Some? then Done(answer.value)
                else if attempt + 1 < CAS_ATTEMPTS then Loading(attempt + 1, lease) else Done(Unavailable)
      ensures answer.Some? ==> available == (answer.value != Unavailable)
    {
      hide DecideReserve, RetentionTtl, Drive, Posted, Next;
      ghost var call := CallReserve(q);
      lease, posted, used := granted, [], from + 1;
      var reply := replies(from);
      DriveOn(ttl, call, replies, from);
      LaterPhases(ttl, q, Loading(attempt, granted), reply);
      if !reply.Range? {
        available := false;
        return Some(Unavailable), lease, used, posted;
      }
      ReserveRound(ttl, q, attempt, granted, reply.loaded);
      var verdict := Judge(q, reply.loaded);
      if verdict.Say? {
        available := verdict.answer != Unavailable;
        return Some(verdict.answer), lease, used, posted;
      }
      if lease.None? {
        if RetentionTtl(q.now, q.consumeUntil).None? {
          available := false;
          return Some(Unavailable), lease, used, posted;
        }
        var id := replies(used);
        DriveOn(ttl, call, replies, used);
        LaterPhases(ttl, q, Leasing(attempt, reply.loaded, verdict.replacement, verdict.answer), id);
        used := used + 1;
        if !id.LeaseId? || id.id == 0 {
          available := false;
          return Some(Unavailable), lease, used, posted;
        }
        lease := Some(id.id);
      }
      posted := [Put(CallReserve(q), reply.loaded, verdict.replacement, lease.value)];
      var written := replies(used);
      DriveOn(ttl, call, replies, used);
      LaterPhases(ttl, q, Putting(attempt, reply.loaded, verdict.replacement, verdict.answer, lease.value), written);
      used := used + 1;
      if !written.Txn? {
        available := false;
        return Some(Unavailable), lease, used, posted;
      }
      if written.succeeded {
        available := true;
        return Some(verdict.answer), lease, used, posted;
      }
      answer := None;
    }

    /** `replies` is what the cluster answers, request by request; the call ends as the phases
        say, having posted exactly their puts. */
    method Reserve(q: ReserveRequest, replies: nat -> Response) returns (answer: Option<Answer>, used: nat, posted: seq<Put>)
      modifies this
      ensures answer.Some? <==> ValidCall(CallReserve(q))
      ensures answer.None? ==> unchanged(this) && used == 0 && posted == []
      ensures answer.Some? ==>
                && Drive(ttl, CallReserve(q), replies, used) == Done(answer.value)
                && posted == Posted(ttl, CallReserve(q), replies, used) && |posted| <= CAS_ATTEMPTS
                && available == (answer.value != Unavailable)
    {
      used, posted := 0, [];
      if !ValidCall(CallReserve(q)) {
        return None, 0, [];
      }
      hide ValidCall;
      var lease: Option<nat> := None;
      var attempt := 0;
      while attempt < CAS_ATTEMPTS
        invariant attempt <= CAS_ATTEMPTS && |posted| <= attempt
        invariant Drive(ttl, CallReserve(q), replies, used) ==
                    if attempt < CAS_ATTEMPTS then Loading(attempt, lease) else Done(Unavailable)
        invariant posted == Posted(ttl, CallReserve(q), replies, used)
      {
        var round, leased, read, put := Round(q, replies, attempt, lease, used);
        lease, used, posted := leased, read, posted + put;
        if round.Some? {
          return round, used, posted;
        }
        attempt := attempt + 1;
      }
      available := false;
      answer := Some(Unavailable);
    }

    method Mutate(v: Reservation, now: int, commit: bool, replies: nat -> Response)
      returns (answer: Option<Answer>, used: nat, posted: seq<Put>)
      modifies this
      ensures var call := if commit then CallCommit(v, now) else CallRelease(v, now);
              && (answer.Some? <==> ValidCall(call))
              && (answer.None? ==> unchanged(this) && used == 0 && posted == [])
              && (answer.Some? ==>
                    && Drive(ttl, call, replies, used) == Done(answer.value)
                    && posted == Posted(ttl, call, replies, used) && |posted| <= CAS_ATTEMPTS
                    && available == (answer.value != Unavailable))
    {
      var call := if commit then CallCommit(v, now) else CallRelease(v, now);
      if !ValidCall(call) {
        return None, 0, [];
      }
      var current := Normalized(now);
      var attempt := 0;
      used, posted := 0, [];
      while attempt < CAS_ATTEMPTS
        invariant attempt <= CAS_ATTEMPTS && |posted| <= attempt
        invariant Drive(ttl, call, replies, used) == if attempt < CAS_ATTEMPTS then Loading(attempt, None) else Done(Unavailable)
        invariant posted == Posted(ttl, call, replies, used)
      {
        var reply := replies(used);
        used := used + 1;
        if !reply.Range? {
          available := false;
          return Some(Unavailable), used, posted;
        }
        if reply.loaded.Absent? {
          available := true;
          return Some(Lost), used, posted;
        }
        var replacement := reply.loaded.record;
        if replacement.state.Consumed? {
          available := true;
          answer := Some(if commit && replacement.fencing == v.fencing && replacement.grant == v.grant then Applied else Lost);
          return;
        }
        if !Matches(replacement, v) {
          available := true;
          return Some(Lost), used, posted;
        }
        if commit && (current >= replacement.leaseExpiresAt || current > replacement.consumeUntil) {
          available := true;
          return Some(Lost), used, posted;
        }
        if commit {
          replacement := replacement.(state := Consumed, consumeUntil := Normalized(v.consumeUntil));
        } else {
          replacement := replacement.(leaseExpiresAt := current);
        }
        assert Drive(ttl, call, replies, used) == Putting(attempt, reply.loaded, replacement, Applied, reply.loaded.lease);
        posted := posted + [Put(call, reply.loaded, replacement, reply.loaded.lease)];
        var written := replies(used);
        used := used + 1;
        if !written.Txn? {
          available := false;
          return Some(Unavailable), used, posted;
        }
        if written.succeeded {
          available := true;
          return Some(Applied), used, posted;
        }
        attempt := attempt + 1;
      }
      available := false;
      answer := Some(Unavailable);
    }
  }
}
