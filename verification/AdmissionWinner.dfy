/** As long as an identity's key does not go before the pair's own window is over, fencing values
    belong to one attempt each for that pair, so a single attempt is ever told that its commit
    was applied. */
module AdmissionWinner {
  import opened Basics
  import opened Clock
  import opened Credentials
  import opened AdmissionRecords
  import opened AdmissionCluster
  import opened AdmissionSafety

  /** The reservation an attempt was granted. */
  function HeldBy(a: Attempt): Option<Reservation> {
    if a.mutation.Some? then if a.mutation.value.CallReserve? then None else Some(a.mutation.value.reservation)
    else if a.phase.Done? && a.phase.answer.Granted? then Some(a.phase.answer.reservation)
    else None
  }

  /** A granted fencing value is not above the record's, and if equal the record is the attempt's. */
  ghost predicate Ranked(s: System, owner: Owner) {
    owner in s.attempts && HeldBy(s.attempts[owner]).Some? ==>
      var v := HeldBy(s.attempts[owner]).value;
      v.identity !in s.expired ==>
        && v.identity in s.kv && v.fencing <= s.kv[v.identity].record.fencing
        && (v.fencing == s.kv[v.identity].record.fencing ==> s.kv[v.identity].record.owner == owner)
  }

  ghost predicate ConsumedBy(s: System, identity: Jti, grant: Jti, fencing: nat, owner: Owner) {
    exists n :: 0 <= n < |s.log| && s.log[n] == Consumption(identity, grant, fencing, owner)
  }

  ghost predicate RecordWon(s: System, key: Jti) {
    key in s.kv && s.kv[key].record.state.Consumed? ==>
      ConsumedBy(s, key, s.kv[key].record.grant, s.kv[key].record.fencing, s.kv[key].record.owner)
  }

  ghost predicate AppliedWon(s: System, owner: Owner) {
    owner in s.attempts && s.attempts[owner].phase == Done(Applied) && CurrentCall(s.attempts[owner]).CallCommit? ==>
      var v := s.attempts[owner].mutation.value.reservation;
      v.identity !in s.expired ==> ConsumedBy(s, v.identity, v.grant, v.fencing, owner)
  }

  ghost predicate Won(s: System) {
    && (forall owner :: Ranked(s, owner)) && (forall key :: RecordWon(s, key)) && (forall owner :: AppliedWon(s, owner))
  }

  lemma ConsumedByStays(s: System, s': System, identity: Jti, grant: Jti, fencing: nat, owner: Owner)
    requires ConsumedBy(s, identity, grant, fencing, owner) && s.log <= s'.log
    ensures ConsumedBy(s', identity, grant, fencing, owner)
  {
    var n :| 0 <= n < |s.log| && s.log[n] == Consumption(identity, grant, fencing, owner);
    assert s'.log[n] == s.log[n];
  }

  /** Steps that change no record, or only let one go. */
  lemma WonOnlyAttempt(s: System, s': System, o: Owner)
    requires Won(s) && s'.log == s.log && s.expired <= s'.expired
    requires forall key :: key in s'.kv ==> key in s.kv && s'.kv[key] == s.kv[key]
    requires forall key :: key in s.kv && key !in s'.kv ==> key in s'.expired
    requires forall owner :: owner in s'.attempts && owner != o ==> owner in s.attempts && s'.attempts[owner] == s.attempts[owner]
    requires Ranked(s', o) && AppliedWon(s', o)
    ensures Won(s')
  {
    forall owner
      ensures Ranked(s', owner) && AppliedWon(s', owner)
    {
      assert Ranked(s, owner) && AppliedWon(s, owner);
      if owner != o && owner in s'.attempts && s'.attempts[owner].phase == Done(Applied) && CurrentCall(s'.attempts[owner]).CallCommit? {
        var v := s'.attempts[owner].mutation.value.reservation;
        if v.identity !in s'.expired {
          ConsumedByStays(s, s', v.identity, v.grant, v.fencing, owner);
        }
      }
    }
    forall key
      ensures RecordWon(s', key)
    {
      assert RecordWon(s, key);
      if key in s'.kv && s'.kv[key].record.state.Consumed? {
        ConsumedByStays(s, s', key, s.kv[key].record.grant, s.kv[key].record.fencing, s.kv[key].record.owner);
      }
    }
  }

  /** A landing reserve takes the next fencing value; a landing commit or release keeps it. */
  lemma FencingLands(c: Config, s: System, p: Put)
    requires Landable(c, s, p)
    ensures p.replacement.owner == OwnerOf(p.call)
    ensures IdentityOf(p.call) in s.kv ==>
              var r := s.kv[IdentityOf(p.call)].record;
              p.replacement.fencing == r.fencing + (if p.call.CallReserve? then 1 else 0)
              && (!p.call.CallReserve? ==> r.owner == p.replacement.owner)
    ensures IdentityOf(p.call) !in s.kv ==> p.call.CallReserve?
    ensures !p.call.CallCommit? ==> p.replacement.state.Reserved?
  {
    var answer :| WriteOk(c, s, p.call, p.loaded, p.replacement, answer);
  }

  lemma WonLanded(c: Config, s: System, p: Put)
    requires Won(s) && Landable(c, s, p)
    ensures Won(Landed(s, p)) && Ranked(Landed(s, p), OwnerOf(p.call))
    ensures p.call.CallCommit? ==>
              ConsumedBy(Landed(s, p), IdentityOf(p.call), p.replacement.grant, p.replacement.fencing, p.replacement.owner)
  {
    hide WriteOk;
    FencingLands(c, s, p);
    var s' := Landed(s, p);
    if p.call.CallCommit? {
      assert s'.log[|s.log|] == Consumption(IdentityOf(p.call), p.replacement.grant, p.replacement.fencing, p.replacement.owner);
    }
    forall owner
      ensures Ranked(s', owner) && AppliedWon(s', owner)
    {
      assert Ranked(s, owner) && AppliedWon(s, owner);
      if owner in s'.attempts && s'.attempts[owner].phase == Done(Applied) && CurrentCall(s'.attempts[owner]).CallCommit? {
        var v := s'.attempts[owner].mutation.value.reservation;
        if v.identity !in s'.expired {
          ConsumedByStays(s, s', v.identity, v.grant, v.fencing, owner);
        }
      }
    }
    forall key
      ensures RecordWon(s', key)
    {
      assert RecordWon(s, key);
      if key in s.kv && s.kv[key].record.state.Consumed? {
        ConsumedByStays(s, s', key, s.kv[key].record.grant, s.kv[key].record.fencing, s.kv[key].record.owner);
      }
    }
  }

  /** An answer said of the current record: a grant repeats a holding, an `Applied` a consumption. */
  lemma WonLoad(c: Config, s: System, e: Event)
    requires Inv(c, s) && Won(s) && e.Reply? && Enabled(c, s, e) && s.attempts[e.owner].phase.Loading?
    ensures Won(Step(c, s, e))
  {
    var s' := Step(c, s, e);
    var a := s.attempts[e.owner];
    var key := IdentityOf(CurrentCall(a));
    assert AttemptOk(c, s, e.owner) && EntryOk(c, s, key);
    hide Inv, RetentionTtl;
    assert Ranked(s, e.owner) && RecordWon(s, key);
    if s'.attempts[e.owner].phase == Done(Applied) && CurrentCall(a).CallCommit? {
      assert ConsumedBy(s, key, s.kv[key].record.grant, s.kv[key].record.fencing, s.kv[key].record.owner);
    }
    WonOnlyAttempt(s, s', e.owner);
  }

  lemma WonPut(c: Config, s: System, e: Event)
    requires Inv(c, s) && Won(s) && e.Reply? && Enabled(c, s, e) && s.attempts[e.owner].phase.Putting?
    ensures Won(Step(c, s, e))
  {
    var s' := Step(c, s, e);
    var a := s.attempts[e.owner];
    var p := PutOf(a);
    var s1 := Landed(s, p);
    assert AttemptOk(c, s, e.owner) && EntryOk(c, s, IdentityOf(p.call)) && Ranked(s, e.owner);
    assert s1.attempts == s.attempts && s1.clocks == s.clocks && s1.expired == s.expired
           && (Compare(s.kv, IdentityOf(p.call), p.loaded) || s1 == s);
    hide Inv, Decide, Landed, Won, ConsumedBy;
    assert WriteOk(c, s, p.call, p.loaded, p.replacement, a.phase.answer);
    if Compare(s.kv, IdentityOf(p.call), p.loaded) {
      assert Landable(c, s, p);
      WonLanded(c, s, p);
      WonAnswer(c, s, p, a.phase.answer, s');
    }
    WonOnlyAttempt(s1, s', e.owner);
  }

  lemma WonAnswer(c: Config, s: System, p: Put, answer: Answer, s': System)
    requires Landable(c, s, p) && WriteOk(c, s, p.call, p.loaded, p.replacement, answer) && Won(s)
    requires s' == WithPhase(Landed(s, p), OwnerOf(p.call), Done(answer))
    ensures Ranked(s', OwnerOf(p.call)) && AppliedWon(s', OwnerOf(p.call))
  {
    hide ConsumedBy;
    WonLanded(c, s, p);
    assert Ranked(Landed(s, p), OwnerOf(p.call));
    var key := IdentityOf(p.call);
    if p.call.CallCommit? {
      ConsumedByStays(Landed(s, p), s', key, p.replacement.grant, p.replacement.fencing, p.replacement.owner);
    }
  }

  lemma WonReply(c: Config, s: System, e: Event)
    requires Inv(c, s) && Won(s) && e.Reply? && Enabled(c, s, e)
    ensures Won(Step(c, s, e))
  {
    var phase := s.attempts[e.owner].phase;
    if phase.Loading? {
      hide Inv, Won, Landed, Next, Answered;
      WonLoad(c, s, e);
    } else if phase.Putting? {
      hide Inv, Won, Landed, Next, Answered;
      WonPut(c, s, e);
    } else {
      var s' := Step(c, s, e);
      assert Ranked(s, e.owner);
      hide Inv, Won, Landed;
      assert Ranked(s', e.owner) && AppliedWon(s', e.owner);
      WonOnlyAttempt(s, s', e.owner);
    }
  }

  lemma WonLand(c: Config, s: System, p: Put)
    requires Inv(c, s) && Won(s) && p in s.floating
    ensures Won(Step(c, s, Land(p)))
  {
    assert FloatingOk(c, s, p) && AttemptOk(c, s, OwnerOf(p.call)) && EntryOk(c, s, IdentityOf(p.call));
    assert Compare(s.kv, IdentityOf(p.call), p.loaded) || Landed(s, p) == s;
    hide Inv, Won, Landed;
    if Compare(s.kv, IdentityOf(p.call), p.loaded) {
      WonLanded(c, s, p);
    }
    WonSame(Landed(s, p), Step(c, s, Land(p)));
  }

  lemma WonStep(c: Config, s: System, e: Event)
    requires Inv(c, s) && Won(s) && Timely(c, s, e)
    ensures Won(Step(c, s, e))
  {
    assert e.Mutate? || e.Silence? ==> Ranked(s, e.owner);
    hide Inv, Won, Landed, Accepts, Answered;
    if Enabled(c, s, e) {
      var s' := Step(c, s, e);
      match e
      case Reply(owner, _) => WonReply(c, s, e);
      case Land(p) => WonLand(c, s, p);
      case Begin(_, owner, _, _) => WonOnlyAttempt(s, s', owner);
      case Mutate(owner, _) => WonOnlyAttempt(s, s', owner);
      case Silence(owner) =>
        assert Ranked(s', owner) && AppliedWon(s', owner);
        WonOnlyAttempt(s, s', owner);
      case Tick(_, _) => WonSame(s, s');
      case Pass(_) => WonSame(s, s');
      case Expire(identity) =>
        WonSame(s, s');
    }
  }

  lemma WonSame(s: System, s': System)
    requires Won(s) && s'.log == s.log && s'.attempts == s.attempts && s.expired <= s'.expired
    requires forall key :: key in s'.kv ==> key in s.kv && s'.kv[key] == s.kv[key]
    requires forall key :: key in s.kv && key !in s'.kv ==> key in s'.expired
    ensures Won(s')
  {
    var o: Owner := [];
    assert Ranked(s, o) && AppliedWon(s, o);
    if o in s.attempts && s.attempts[o].phase == Done(Applied) && CurrentCall(s.attempts[o]).CallCommit? {
      var v := s.attempts[o].mutation.value.reservation;
      if v.identity !in s'.expired {
        ConsumedByStays(s, s', v.identity, v.grant, v.fencing, o);
      }
    }
    WonOnlyAttempt(s, s', o);
  }

  lemma {:induction false} WonReachable(c: Config, clocks: seq<int>, es: seq<Event>)
    requires ValidTtl(c.ttl) && AllTimely(c, clocks, es)
    ensures Won(Run(c, clocks, es))
  {
    if es == [] {
    } else {
      hide Inv, Won, Step, Timely;
      TimelyPrefix(c, clocks, es);
      Reachable(c, clocks, es[..|es| - 1]);
      WonReachable(c, clocks, es[..|es| - 1]);
      WonStep(c, Run(c, clocks, es[..|es| - 1]), es[|es| - 1]);
    }
  }

  // ---------------------------------------------------------------------------------------
  // After the key has gone

  /** Whenever the identity's key went, no gateway could accept the pair any more. */
  ghost predicate NeverEarly(c: Config, s: System, identity: Jti, grant: Jti) {
    forall i :: 0 <= i < |s.gone| && s.gone[i].identity == identity ==> Past(s.gone[i].clocks, Until(c, identity, grant))
  }

  /** Then the pair is shut: reserved at most, by an attempt whose commit comes too late. */
  ghost predicate Shut(c: Config, s: System, key: Jti, grant: Jti) {
    key in s.expired && NeverEarly(c, s, key, grant) ==>
      && Past(s.clocks, Until(c, key, grant))
      && (key in s.kv && s.kv[key].record.grant == grant ==>
            && s.kv[key].record.state.Reserved?
            && (s.kv[key].record.owner in s.attempts ==>
                  var m := s.attempts[s.kv[key].record.owner].mutation;
                  m.Some? && m.value.CallCommit? ==> Normalized(m.value.now) > Until(c, key, grant)))
  }

  ghost predicate AppliedTrue(c: Config, s: System, owner: Owner) {
    owner in s.attempts && s.attempts[owner].phase == Done(Applied) && CurrentCall(s.attempts[owner]).CallCommit? ==>
      var v := s.attempts[owner].mutation.value.reservation;
      NeverEarly(c, s, v.identity, v.grant) ==> ConsumedBy(s, v.identity, v.grant, v.fencing, owner)
  }

  ghost predicate Single(c: Config, s: System) {
    (forall key, grant :: Shut(c, s, key, grant)) && forall owner :: AppliedTrue(c, s, owner)
  }

  /** One attempt moves; a commit it makes is made now. */
  lemma SingleOnlyAttempt(c: Config, s: System, s': System, o: Owner)
    requires Single(c, s) && OnlyAttempt(s, s', o) && AppliedTrue(c, s', o) && s'.gone == s.gone && s'.expired == s.expired
    requires forall key :: EntryOk(c, s, key)
    requires o in s.attempts ==>
               || s'.attempts[o].mutation == s.attempts[o].mutation
               || (s.attempts[o].gateway < |s.clocks| && s'.attempts[o].mutation.Some?
                   && (s'.attempts[o].mutation.value.CallCommit? ==>
                         s'.attempts[o].mutation.value.now == s.clocks[s.attempts[o].gateway]))
    ensures Single(c, s')
  {
    forall key, grant
      ensures Shut(c, s', key, grant)
    {
      assert Shut(c, s, key, grant) && EntryOk(c, s, key);
      assert NeverEarly(c, s', key, grant) == NeverEarly(c, s, key, grant);
    }
    forall owner
      ensures AppliedTrue(c, s', owner)
    {
      assert AppliedTrue(c, s, owner);
      if owner != o && owner in s'.attempts && s'.attempts[owner].phase == Done(Applied) && CurrentCall(s'.attempts[owner]).CallCommit? {
        var v := s'.attempts[owner].mutation.value.reservation;
        assert NeverEarly(c, s', v.identity, v.grant) == NeverEarly(c, s, v.identity, v.grant);
        if NeverEarly(c, s, v.identity, v.grant) {
          ConsumedByStays(s, s', v.identity, v.grant, v.fencing, owner);
        }
      }
    }
  }

  lemma SingleLanded(c: Config, s: System, p: Put)
    requires Single(c, s) && Landable(c, s, p) && ValidTtl(c.ttl)
    ensures Single(c, Landed(s, p))
  {
    hide Normalized, Window, WriteOk;
    ReplacementFacts(c, s, p);
    var s' := Landed(s, p);
    forall key, grant
      ensures Shut(c, s', key, grant)
    {
      assert Shut(c, s, key, grant);
      assert NeverEarly(c, s', key, grant) == NeverEarly(c, s, key, grant);
    }
    forall owner
      ensures AppliedTrue(c, s', owner)
    {
      assert AppliedTrue(c, s, owner);
      if owner in s.attempts && s.attempts[owner].phase == Done(Applied) && CurrentCall(s.attempts[owner]).CallCommit? {
        var v := s.attempts[owner].mutation.value.reservation;
        assert NeverEarly(c, s', v.identity, v.grant) == NeverEarly(c, s, v.identity, v.grant);
        if NeverEarly(c, s, v.identity, v.grant) {
          ConsumedByStays(s, s', v.identity, v.grant, v.fencing, owner);
        }
      }
    }
  }

  lemma NeverEarlyBefore(c: Config, s: System, s': System, identity: Jti, grant: Jti)
    requires s.gone <= s'.gone && NeverEarly(c, s', identity, grant)
    ensures NeverEarly(c, s, identity, grant)
  {
    forall i | 0 <= i < |s.gone| && s.gone[i].identity == identity
      ensures Past(s.gone[i].clocks, Until(c, identity, grant))
    {
      assert s'.gone[i] == s.gone[i];
    }
  }

  /** Time passes, a put is forgotten, or a key goes. */
  lemma SingleLater(c: Config, s: System, s': System)
    requires Single(c, s) && Later(s, s') && s'.attempts == s.attempts && s'.log == s.log && s.gone <= s'.gone && s.expired <= s'.expired
    requires forall key :: key in s'.kv ==> key in s.kv && s'.kv[key] == s.kv[key]
    requires forall key :: key in s'.expired && key !in s.expired ==>
               key !in s'.kv && exists i :: 0 <= i < |s'.gone| && s'.gone[i] == Expiry(key, s'.clocks)
    ensures Single(c, s')
  {
    forall key, grant
      ensures Shut(c, s', key, grant)
    {
      assert Shut(c, s, key, grant);
      if key in s'.expired && NeverEarly(c, s', key, grant) {
        NeverEarlyBefore(c, s, s', key, grant);
        if key in s.expired {
          PastLater(s, s', Until(c, key, grant));
        }
      }
    }
    forall owner
      ensures AppliedTrue(c, s', owner)
    {
      assert AppliedTrue(c, s, owner);
      if owner in s.attempts && s.attempts[owner].phase == Done(Applied) && CurrentCall(s.attempts[owner]).CallCommit? {
        var v := s.attempts[owner].mutation.value.reservation;
        if NeverEarly(c, s', v.identity, v.grant) {
          NeverEarlyBefore(c, s, s', v.identity, v.grant);
          ConsumedByStays(s, s', v.identity, v.grant, v.fencing, owner);
        }
      }
    }
  }

  lemma SingleLoad(c: Config, s: System, e: Event)
    requires Inv(c, s) && Won(s) && Single(c, s) && e.Reply? && Enabled(c, s, e) && s.attempts[e.owner].phase.Loading?
    ensures Single(c, Step(c, s, e))
  {
    var s' := Step(c, s, e);
    var a := s.attempts[e.owner];
    var key := IdentityOf(CurrentCall(a));
    assert AttemptOk(c, s, e.owner) && forall k :: EntryOk(c, s, k);
    WonLoad(c, s, e);
    assert AppliedWon(s', e.owner);
    hide Inv, Won, RetentionTtl;
    if s'.attempts[e.owner].phase == Done(Applied) && CurrentCall(a).CallCommit? {
      assert Shut(c, s, key, s.kv[key].record.grant);
      assert NeverEarly(c, s', key, s.kv[key].record.grant) == NeverEarly(c, s, key, s.kv[key].record.grant);
    }
    SingleOnlyAttempt(c, s, s', e.owner);
  }

  lemma SinglePut(c: Config, s: System, e: Event)
    requires Inv(c, s) && Won(s) && Single(c, s) && e.Reply? && Enabled(c, s, e) && s.attempts[e.owner].phase.Putting?
    ensures Single(c, Step(c, s, e))
  {
    var s' := Step(c, s, e);
    var a := s.attempts[e.owner];
    var p := PutOf(a);
    var s1 := Landed(s, p);
    assert AttemptOk(c, s, e.owner) && EntryOk(c, s, IdentityOf(p.call)) && forall k :: EntryOk(c, s, k);
    assert s1.attempts == s.attempts && s1.clocks == s.clocks && s1.gone == s.gone && s1.expired == s.expired
           && (Compare(s.kv, IdentityOf(p.call), p.loaded) || s1 == s);
    hide Inv, Decide, Landed, Won, Single, Ops;
    assert WriteOk(c, s, p.call, p.loaded, p.replacement, a.phase.answer);
    if Compare(s.kv, IdentityOf(p.call), p.loaded) {
      assert Landable(c, s, p);
      SingleLanded(c, s, p);
      WonLanded(c, s, p);
      CommitIsOwn(c, s, p, a.phase.answer, s');
      EntriesLanded(c, s, p);
    }
    SingleOnlyAttempt(c, s1, s', e.owner);
  }

  lemma EntriesLanded(c: Config, s: System, p: Put)
    requires Inv(c, s) && Landable(c, s, p)
    ensures forall key :: EntryOk(c, Landed(s, p), key)
  {
    LandedOps(c, s, p);
  }

  /** A commit that lands is recorded as its owner's. */
  lemma CommitIsOwn(c: Config, s: System, p: Put, answer: Answer, s': System)
    requires Landable(c, s, p) && WriteOk(c, s, p.call, p.loaded, p.replacement, answer) && Won(s)
    requires s' == WithPhase(Landed(s, p), OwnerOf(p.call), Done(answer))
    ensures AppliedTrue(c, s', OwnerOf(p.call))
  {
    hide ConsumedBy, Won;
    WonLanded(c, s, p);
    if p.call.CallCommit? {
      ConsumedByStays(Landed(s, p), s', IdentityOf(p.call), p.replacement.grant, p.replacement.fencing, p.replacement.owner);
    }
  }

  /** Steps of one attempt that neither load nor put. */
  lemma SingleMoves(c: Config, s: System, e: Event)
    requires Inv(c, s) && Single(c, s) && Enabled(c, s, e)
    requires e.Begin? || e.Mutate? || e.Silence? || (e.Reply? && s.attempts[e.owner].phase.Leasing?)
    ensures Single(c, Step(c, s, e))
  {
    assert forall k :: EntryOk(c, s, k);
    hide Inv, Accepts, Decide, Single, EntryOk, ValidCall;
    SingleOnlyAttempt(c, s, Step(c, s, e), e.owner);
  }

  lemma SingleTime(c: Config, s: System, e: Event)
    requires Single(c, s) && Enabled(c, s, e) && (e.Tick? || e.Pass? || e.Expire?)
    ensures Single(c, Step(c, s, e))
  {
    hide Single;
    var s' := Step(c, s, e);
    if e.Expire? {
      assert s'.gone[|s.gone|] == Expiry(e.identity, s'.clocks);
    }
    SingleLater(c, s, s');
  }

  lemma SingleStep(c: Config, s: System, e: Event)
    requires Inv(c, s) && Won(s) && Single(c, s) && Timely(c, s, e)
    ensures Single(c, Step(c, s, e))
  {
    hide Inv, Won, Single, Timely;
    if Enabled(c, s, e) {
      if e.Tick? || e.Pass? || e.Expire? {
        SingleTime(c, s, e);
      } else if e.Land? {
        SingleLand(c, s, e.put);
      } else if e.Reply? && s.attempts[e.owner].phase.Loading? {
        SingleLoad(c, s, e);
      } else if e.Reply? && s.attempts[e.owner].phase.Putting? {
        SinglePut(c, s, e);
      } else {
        SingleMoves(c, s, e);
      }
    }
  }

  lemma SingleLand(c: Config, s: System, p: Put)
    requires Inv(c, s) && Single(c, s) && p in s.floating
    ensures Single(c, Step(c, s, Land(p)))
  {
    assert FloatingOk(c, s, p) && AttemptOk(c, s, OwnerOf(p.call)) && EntryOk(c, s, IdentityOf(p.call));
    var s1 := Landed(s, p);
    assert Compare(s.kv, IdentityOf(p.call), p.loaded) || s1 == s;
    assert Step(c, s, Land(p)) == s1.(floating := s.floating - {p});
    hide Inv, Landed, Single, Step;
    if Compare(s.kv, IdentityOf(p.call), p.loaded) {
      InvTtl(c, s);
      SingleLanded(c, s, p);
    }
    SingleLater(c, s1, Step(c, s, Land(p)));
  }

  lemma InvTtl(c: Config, s: System)
    requires Inv(c, s)
    ensures ValidTtl(c.ttl)
  {
  }

  lemma {:induction false} SingleReachable(c: Config, clocks: seq<int>, es: seq<Event>)
    requires ValidTtl(c.ttl) && AllTimely(c, clocks, es)
    ensures Single(c, Run(c, clocks, es))
  {
    if es == [] {
    } else {
      hide Inv, Won, Step, Timely, Single;
      TimelyPrefix(c, clocks, es);
      Reachable(c, clocks, es[..|es| - 1]);
      WonReachable(c, clocks, es[..|es| - 1]);
      SingleReachable(c, clocks, es[..|es| - 1]);
      SingleStep(c, Run(c, clocks, es[..|es| - 1]), es[|es| - 1]);
    }
  }

  /** Unless the key has gone while some gateway could still accept the pair, `Applied` is told
      to one attempt per pair at most, and only to the one whose own commit consumed it. */
  lemma OneWinner(c: Config, clocks: seq<int>, es: seq<Event>, a: Owner, b: Owner, identity: Jti, grant: Jti, f: nat, g: nat)
    requires ValidTtl(c.ttl) && AllTimely(c, clocks, es) && NeverEarly(c, Run(c, clocks, es), identity, grant)
    requires Admitted(Run(c, clocks, es), a, identity, grant, f) && Admitted(Run(c, clocks, es), b, identity, grant, g)
    ensures a == b && ConsumedBy(Run(c, clocks, es), identity, grant, f, a)
  {
    hide Run, Inv;
    var s := Run(c, clocks, es);
    SingleReachable(c, clocks, es);
    assert AppliedTrue(c, s, a) && AppliedTrue(c, s, b);
    var m :| 0 <= m < |s.log| && s.log[m] == Consumption(identity, grant, f, a);
    var n :| 0 <= n < |s.log| && s.log[n] == Consumption(identity, grant, g, b);
    ConsumedAtMostOnce(c, clocks, es, m, n);
  }
}
