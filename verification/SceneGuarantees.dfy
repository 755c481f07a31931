/** The scene store's guarantees, for every run of every mix of callers. */
module SceneGuarantees {
  import opened Basics
  import opened SceneRecords
  import opened SceneDb
  import opened SceneSystem
  import opened SceneSafety

  /** Per character the writes that took effect are numbered 1, 2, 3, ... without a gap or a
      repeat, the stored document always reads back, and it shows the last of them. */
  lemma WritesOnceInOrder(owned: set<CharacterKey>, es: seq<Event>, key: CharacterKey)
    requires key in Run(owned, es).db.scenes
    ensures var s := Run(owned, es);
            var l := LogOf(s.log, key);
            && Readable(key, s.db.scenes[key].value) && |l| == SeqOf(StateOf(s.db, key))
            && (forall i :: 0 <= i < |l| ==> l[i].command.seqNo == i + 1)
            && (l != [] ==> StateOf(s.db, key).lastResult == Some(ResultOf(l[|l| - 1])))
  {
    hide Run, Readable;
    Reachable(owned, es);
    assert Logged(Run(owned, es), key);
  }

  /** A caller told `Committed` or `Replayed`, or one that resolves an unknown outcome from any
      read-back, is told the truth: that very write took effect. */
  lemma ToldTheTruth(owned: set<CharacterKey>, es: seq<Event>, id: nat, w: SceneWrite)
    ensures var s := Run(owned, es);
            && (id in s.ops && s.ops[id].call == CommitScene(w) && s.ops[id].phase.Done? && s.ops[id].phase.result.WriteResult?
                && (s.ops[id].phase.result.outcome == Committed || s.ops[id].phase.result.outcome == Replayed) ==>
                  TookEffect(s.log, w))
            && (w.character in s.db.scenes && ResolvedCommitted(w, Some(StateOf(s.db, w.character))) ==> TookEffect(s.log, w))
  {
    hide Run, TookEffect, Fences, ResolvedCommitted, CheckTransition;
    var s := Run(owned, es);
    Reachable(owned, es);
    if id in s.ops {
      assert OpOk(s, s.ops[id]);
    }
    if w.character in s.db.scenes {
      ReplayIsLogged(s, w);
    }
  }

  /** A write is decided on one read and lands on another; whenever its short filter matches,
      the two are the same record, and once it has missed it can never be accepted again. */
  lemma DecisionStands(owned: set<CharacterKey>, es: seq<Event>, id: nat, w: SceneWrite)
    requires id in Run(owned, es).ops && Run(owned, es).ops[id].call == CommitScene(w)
    ensures var s := Run(owned, es);
            match s.ops[id].phase
            case Writing(read) =>
              SceneMatches(s.db, w) ==> StateOf(s.db, w.character) == read && CheckTransition(read, w) == Committed
            case SceneTxn(read, snapshot) =>
              SceneMatches(s.db, w) ==> StateOf(s.db, w.character) == read && CheckTransition(read, w) == Committed
            case Rereading(_) => w.character in s.db.scenes && CheckTransition(StateOf(s.db, w.character), w) != Committed
            case _ => true
  {
    hide Run, Fences, CheckTransition, Since;
    var s := Run(owned, es);
    Reachable(owned, es);
    assert OpOk(s, s.ops[id]);
    match s.ops[id].phase
    case Rereading(read) => RereadRefuses(s, w, read);
    case Writing(read) =>
      if SceneMatches(s.db, w) {
        assert Readable(w.character, s.db.scenes[w.character].value);
        MatchedIsRead(s.db, w, read);
      }
    case SceneTxn(read, _) =>
      if SceneMatches(s.db, w) {
        assert Readable(w.character, s.db.scenes[w.character].value);
        MatchedIsRead(s.db, w, read);
      }
    case _ =>
  }

  /** The writes of one character among those that landed. */
  function Landed(trace: seq<Landing>, key: CharacterKey): seq<SceneWrite> {
    if trace == [] then []
    else
      var w := trace[|trace| - 1].write;
      Landed(trace[..|trace| - 1], key) + (if w.character == key then [w] else [])
  }

  /** `trace` leaves no write out: every character's log is its part of it. */
  lemma {:induction false} EveryWriteTraced(owned: set<CharacterKey>, es: seq<Event>, key: CharacterKey)
    ensures Landed(Run(owned, es).trace, key) == LogOf(Run(owned, es).log, key)
  {
    if es != [] {
      EveryWriteTraced(owned, es[..|es| - 1], key);
      TraceStep(owned, Run(owned, es[..|es| - 1]), es[|es| - 1], key);
    }
  }

  lemma TraceStep(owned: set<CharacterKey>, s: System, e: Event, key: CharacterKey)
    requires Landed(s.trace, key) == LogOf(s.log, key)
    ensures Landed(Step(owned, s, e).trace, key) == LogOf(Step(owned, s, e).log, key)
  {
    hide ProceedScene, ProceedShard, ProceedInstance, ProceedRevoke, Upserted, Landed;
    if e.Proceed? && e.id in s.ops {
      if s.ops[e.id].call.CommitScene? {
        SceneTraceStep(s, e.id, s.ops[e.id].call.write, owned, key);
      } else {
        OthersTraceNothing(s, e.id, owned);
      }
    }
  }

  lemma SceneTraceStep(s: System, id: nat, w: SceneWrite, owned: set<CharacterKey>, key: CharacterKey)
    requires id in s.ops && Landed(s.trace, key) == LogOf(s.log, key)
    ensures Landed(ProceedScene(s, id, w, owned).trace, key) == LogOf(ProceedScene(s, id, w, owned).log, key)
  {
    hide SceneBody, MayCommit, Apply, CheckTransition, Upserted, NextState, SceneMatches, Decided, Written, Landed, LogOf;
    forall d ensures Landed(Written(s, w, d).trace, key) == LogOf(Written(s, w, d).log, key) { WrittenTrace(s, w, d, key); }
  }

  lemma WrittenTrace(s: System, w: SceneWrite, d: Db, key: CharacterKey)
    requires Landed(s.trace, key) == LogOf(s.log, key)
    ensures Landed(Written(s, w, d).trace, key) == LogOf(Written(s, w, d).log, key)
  {
    assert (s.trace + [LandingOf(s.db, w)])[..|s.trace|] == s.trace;
  }

  lemma OthersTraceNothing(s: System, id: nat, owned: set<CharacterKey>)
    requires id in s.ops && !s.ops[id].call.CommitScene?
    ensures var s' := Step(owned, s, Proceed(id)); s'.trace == s.trace && s'.log == s.log
  {
    hide ShardBody, InstanceBody, MayCommit, Apply, Upserted;
  }

  /** A scene write that takes effect is fenced if and only if it carries a shard version. */
  lemma FencedIffVersioned(owned: set<CharacterKey>, es: seq<Event>, i: nat)
    requires i < |Run(owned, es).trace|
    ensures Fenced(Run(owned, es).trace[i]) <==> Run(owned, es).trace[i].write.owner.shardVersion != 0
  {
    hide Run, Characters;
    Reachable(owned, es);
    assert TraceOk(Run(owned, es), i);
  }

  /** Fencing: the writes with a version that take effect on a shard carry versions that never go
      down, each by the owner that version has, and none brings a character into a shard that is
      draining at that moment. */
  lemma VersionsFence(owned: set<CharacterKey>, es: seq<Event>, i: nat, j: nat)
    requires i <= j < |Run(owned, es).trace|
    requires TargetShard(Run(owned, es).trace[i].write) == TargetShard(Run(owned, es).trace[j].write)
    requires Run(owned, es).trace[i].write.owner.shardVersion != 0 && Run(owned, es).trace[j].write.owner.shardVersion != 0
    ensures var s := Run(owned, es);
            var a, b := s.trace[i].write.owner, s.trace[j].write.owner;
            var k := TargetShard(s.trace[j].write);
            && a.shardVersion <= b.shardVersion && k in s.db.shards && b.shardVersion <= s.db.shards[k].value.version
            && (a.shardVersion == b.shardVersion ==> ShardOwnerOf(a) == ShardOwnerOf(b))
            && s.trace[j].record.Some? && s.trace[j].record.value.version == b.shardVersion
            && !(s.trace[j].record.value.draining && !s.trace[j].write.command.kind.Move?)
  {
    hide Run, Characters;
    var s := Run(owned, es);
    Reachable(owned, es);
    assert TraceOk(s, i) && TraceOk(s, j) && InOrder(s, i, j);
  }

  /** One owner per version for ever: the current record names the last of its shard's owners. */
  lemma CurrentOwner(owned: set<CharacterKey>, es: seq<Event>, k: ShardKey)
    requires k in Run(owned, es).db.shards
    ensures var s := Run(owned, es);
            && |OwnersOf(s.owners, k)| == s.db.shards[k].value.version > 0
            && OwnersOf(s.owners, k)[s.db.shards[k].value.version - 1] == s.db.shards[k].value.owner
  {
    hide Run, Characters;
    Reachable(owned, es);
    assert OwnersOk(Run(owned, es), k);
  }

  ghost predicate OwnersKept(a: System, b: System) {
    forall k :: OwnersOf(a.owners, k) <= OwnersOf(b.owners, k)
  }

  /** No later event ever rewrites the owner of a version. */
  lemma {:induction false} OwnersNeverRewritten(owned: set<CharacterKey>, es: seq<Event>, more: seq<Event>)
    ensures OwnersKept(Run(owned, es), Run(owned, es + more))
  {
    if more == [] {
      assert es + more == es;
    } else {
      var all := es + more;
      assert all[..|all| - 1] == es + more[..|more| - 1];
      OwnersNeverRewritten(owned, es, more[..|more| - 1]);
      OwnersStep(owned, Run(owned, all[..|all| - 1]), all[|all| - 1]);
    }
  }

  lemma OwnersStep(owned: set<CharacterKey>, s: System, e: Event)
    ensures OwnersKept(s, Step(owned, s, e))
  {
    hide SceneBody, ShardBody, InstanceBody, MayCommit, Apply, CheckTransition;
  }

  /** While an instance drains, every shard it carries under its incarnation drains. */
  lemma DrainReachesEveryShard(owned: set<CharacterKey>, es: seq<Event>, id: Text, k: ShardKey)
    ensures DrainsTogether(Run(owned, es).db, id, k)
  {
    hide Run, Characters;
    Reachable(owned, es);
  }
}
