/** What holds of the scene store in every run: each character's writes take effect once each
    and in order, documents stay readable, and versions fence shards and drains. */
module SceneSafety {
  import opened Basics
  import opened SceneRecords
  import opened SceneDb
  import opened SceneSystem

  // ---------------------------------------------------------------------------------------
  // The invariant

  ghost predicate ShardOk(k: ShardKey, r: ShardRecord) {
    r.key == k && 1 <= r.version <= COUNTER_MAX && (r.owner.None? ==> !r.draining)
  }

  /** While an instance drains, every shard it carries drains. */
  ghost predicate DrainsTogether(d: Db, id: Text, k: ShardKey) {
    (id in d.instances && d.instances[id].value.draining && k in d.shards
     && d.shards[k].value.owner == Some(ShardOwner(id, d.instances[id].value.incarnation))) ==> d.shards[k].value.draining
  }

  function ResultOf(w: SceneWrite): StoredResult { StoredResult(w.command, w.location, EpochAfter(w), w.owner) }

  ghost predicate Numbered(key: CharacterKey, l: seq<SceneWrite>) {
    forall i :: 0 <= i < |l| ==> l[i].command.seqNo == i + 1 && l[i].character == key
  }

  /** The log of a character numbers its writes 1, 2, 3, ..., and the document shows the last. */
  ghost predicate Logged(s: System, key: CharacterKey) {
    var l := LogOf(s.log, key);
    && Numbered(key, l)
    && if key !in s.db.scenes then l == []
       else
         var state := s.db.scenes[key].value.state;
         |l| == SeqOf(state) && (l != [] ==> state.lastResult == Some(ResultOf(l[|l| - 1])))
  }

  ghost predicate OwnersOk(s: System, k: ShardKey) {
    var o := OwnersOf(s.owners, k);
    if k !in s.db.shards then o == []
    else |o| == s.db.shards[k].value.version > 0 && o[|o| - 1] == s.db.shards[k].value.owner
  }

  /** A write that carries a version was made under its shard's version of that moment, by that
      version's owner; one that carries version 0 was not fenced at all. */
  ghost predicate TraceOk(s: System, i: nat)
    requires i < |s.trace|
  {
    var k, owner := TargetShard(s.trace[i].write), s.trace[i].write.owner;
    && (Fenced(s.trace[i]) <==> owner.shardVersion != 0)
    && (owner.shardVersion != 0 ==>
          && k in s.db.shards && owner.shardVersion <= s.db.shards[k].value.version
          && owner.shardVersion <= |OwnersOf(s.owners, k)|
          && OwnersOf(s.owners, k)[owner.shardVersion - 1] == Some(ShardOwnerOf(owner)))
  }

  ghost predicate InOrder(s: System, i: nat, j: nat)
    requires i < |s.trace| && j < |s.trace|
  {
    i <= j && TargetShard(s.trace[i].write) == TargetShard(s.trace[j].write) && s.trace[j].write.owner.shardVersion != 0 ==>
      s.trace[i].write.owner.shardVersion <= s.trace[j].write.owner.shardVersion
  }

  ghost predicate Characters(s: System) {
    && (forall key :: key in s.db.scenes ==> Readable(key, s.db.scenes[key].value))
    && (forall key :: Logged(s, key))
  }

  ghost predicate Fences(s: System) {
    && (forall k :: k in s.db.shards ==> ShardOk(k, s.db.shards[k].value))
    && (forall id :: id in s.db.instances ==> s.db.instances[id].value.instanceId == id)
    && (forall id, k :: DrainsTogether(s.db, id, k))
    && (forall k :: OwnersOk(s, k))
    && (forall i :: 0 <= i < |s.trace| ==> TraceOk(s, i))
    && (forall i, j :: 0 <= i < |s.trace| && 0 <= j < |s.trace| ==> InOrder(s, i, j))
  }

  ghost predicate Store(s: System) { Stamped(s.db) && Characters(s) && Fences(s) }

  function StateOf(d: Db, key: CharacterKey): SceneState
    requires key in d.scenes
  {
    d.scenes[key].value.state
  }

  predicate SamePair(a: SceneState, b: SceneState) { a.bindingEpoch == b.bindingEpoch && SeqOf(a) == SeqOf(b) }

  /** An accepted write that has not run yet. */
  ghost predicate Accepted(d: Db, w: SceneWrite, read: SceneState) {
    && ValidWrite(w) && read.character == w.character && CheckTransition(read, w) == Committed
    && w.character in d.scenes && Before(read, StateOf(d, w.character))
  }

  ghost predicate ScenePast(d: Db, key: CharacterKey, snapshot: Db)
    requires key in d.scenes && key in snapshot.scenes
  {
    Readable(key, snapshot.scenes[key].value) && Before(StateOf(snapshot, key), StateOf(d, key))
  }

  ghost predicate TookEffect(log: map<CharacterKey, seq<SceneWrite>>, w: SceneWrite) {
    exists i :: 0 <= i < |LogOf(log, w.character)| && ResultOf(LogOf(log, w.character)[i]) == ResultOf(w)
  }

  ghost predicate OpOk(s: System, op: Op) {
    match (op.call, op.phase)
    case (CommitScene(w), Initializing) => ValidWrite(w)
    case (CommitScene(w), Writing(read)) => Accepted(s.db, w, read)
    case (CommitScene(w), SceneTxn(read, snapshot)) =>
      Since(snapshot, s.db) && Accepted(snapshot, w, read) && Accepted(s.db, w, read) && ScenePast(s.db, w.character, snapshot)
    case (CommitScene(w), Rereading(read)) => Accepted(s.db, w, read) && !SamePair(read, StateOf(s.db, w.character))
    case (CommitScene(w), Done(WriteResult(outcome, _))) => outcome == Committed || outcome == Replayed ==> TookEffect(s.log, w)
    case (CommitScene(_), Txn(_)) => false
    case (ShardCas(expected, desired), Txn(snapshot)) => Since(snapshot, s.db) && ValidShardCas(expected, desired)
    case (InstanceCas(expected, desired), Txn(snapshot)) => Since(snapshot, s.db) && ValidInstanceCas(expected, desired)
    case _ => true
  }

  ghost predicate Inv(s: System) { Store(s) && forall id :: id in s.ops ==> OpOk(s, s.ops[id]) }

  // ---------------------------------------------------------------------------------------
  // How the database moves

  ghost predicate ScenesAdvance(d: Db, d': Db) {
    forall key :: key in d.scenes ==> key in d'.scenes && Before(StateOf(d, key), StateOf(d', key))
  }

  ghost predicate LogGrows(a: map<CharacterKey, seq<SceneWrite>>, b: map<CharacterKey, seq<SceneWrite>>) {
    forall key :: LogOf(a, key) <= LogOf(b, key)
  }

  lemma OpLater(s: System, s': System, op: Op, w: Writes)
    requires OpOk(s, op) && ScenesAdvance(s.db, s'.db) && LogGrows(s.log, s'.log)
    requires s'.db == s.db || (s'.db == Apply(s.db, w) && StampsAssignments(s.db, w))
    ensures OpOk(s', op)
  {
    hide Since, CheckTransition, Apply, StampsAssignments;
    match (op.call, op.phase)
    case (CommitScene(v), SceneTxn(_, snapshot)) => SinceLater(snapshot, s.db, s'.db, w);
    case (ShardCas(_, _), Txn(snapshot)) => SinceLater(snapshot, s.db, s'.db, w);
    case (InstanceCas(_, _), Txn(snapshot)) => SinceLater(snapshot, s.db, s'.db, w);
    case (CommitScene(v), Done(WriteResult(outcome, _))) =>
      if outcome == Committed || outcome == Replayed {
        var i :| 0 <= i < |LogOf(s.log, v.character)| && ResultOf(LogOf(s.log, v.character)[i]) == ResultOf(v);
        assert LogOf(s'.log, v.character)[i] == LogOf(s.log, v.character)[i];
      }
    case _ =>
  }

  lemma SinceLater(snapshot: Db, d: Db, d': Db, w: Writes)
    requires Since(snapshot, d) && (d' == d || (d' == Apply(d, w) && StampsAssignments(d, w)))
    ensures Since(snapshot, d')
  {
    hide Since, Apply;
    if d' != d {
      SinceApply(snapshot, d, w);
    }
  }

  /** The others' view of a step that moves one call. */
  lemma OthersLater(s: System, s': System, id: nat, w: Writes)
    requires Inv(s) && Store(s') && ScenesAdvance(s.db, s'.db) && LogGrows(s.log, s'.log)
    requires s'.db == s.db || (s'.db == Apply(s.db, w) && StampsAssignments(s.db, w))
    requires id in s'.ops && s'.ops == s.ops[id := s'.ops[id]] && OpOk(s', s'.ops[id])
    ensures Inv(s')
  {
    hide Store, OpOk;
    forall other | other in s'.ops
      ensures OpOk(s', s'.ops[other])
    {
      if other != id {
        OpLater(s, s', s.ops[other], w);
      }
    }
  }

  /** The same documents, perhaps under newer stamps. */
  ghost predicate SameValues<K(!new), T(!new)>(a: map<K, Doc<T>>, b: map<K, Doc<T>>) {
    a.Keys == b.Keys && forall k :: k in a ==> b[k].value == a[k].value
  }

  lemma FencesFrame(s: System, s': System)
    requires Fences(s) && SameValues(s.db.shards, s'.db.shards) && SameValues(s.db.instances, s'.db.instances)
    requires s'.owners == s.owners && s'.trace == s.trace
    ensures Fences(s')
  {
    forall id, k
      ensures DrainsTogether(s'.db, id, k)
    {
      assert DrainsTogether(s.db, id, k);
    }
    forall k
      ensures OwnersOk(s', k)
    {
      assert OwnersOk(s, k);
    }
    forall i | 0 <= i < |s'.trace|
      ensures TraceOk(s', i)
    {
      assert TraceOk(s, i);
    }
    forall i, j | 0 <= i < |s'.trace| && 0 <= j < |s'.trace|
      ensures InOrder(s', i, j)
    {
      assert InOrder(s, i, j);
    }
  }

  lemma CharactersFrame(s: System, s': System)
    requires Characters(s) && SameValues(s.db.scenes, s'.db.scenes) && s'.log == s.log
    ensures Characters(s') && ScenesAdvance(s.db, s'.db)
  {
    forall key
      ensures Logged(s', key)
    {
      assert Logged(s, key);
    }
  }

  /** A transaction that only stamps. */
  lemma StampsLater(s: System, s': System, id: nat, w: Writes)
    requires Inv(s) && OnlyStamps(s.db, w) && s'.db == Apply(s.db, w)
    requires s'.log == s.log && s'.owners == s.owners && s'.trace == s.trace
    requires id in s'.ops && s'.ops == s.ops[id := s'.ops[id]]
    requires Characters(s') && ScenesAdvance(s.db, s'.db) ==> OpOk(s', s'.ops[id])
    ensures Inv(s')
  {
    hide Characters, Fences, OpOk, Since;
    StampedApply(s.db, w);
    FencesFrame(s, s');
    CharactersFrame(s, s');
    OthersLater(s, s', id, w);
  }

  // ---------------------------------------------------------------------------------------
  // Writes to one character

  /** The update's short filter stands for the whole record, so the decision still holds. */
  lemma MatchedIsRead(d: Db, w: SceneWrite, read: SceneState)
    requires Accepted(d, w, read) && SceneMatches(d, w) && Readable(w.character, d.scenes[w.character].value)
    ensures d.scenes[w.character].value == FieldsOf(read) && Readable(w.character, FieldsOf(NextState(w)))
    ensures Before(read, NextState(w)) && SeqOf(NextState(w)) == w.command.seqNo == SeqOf(read) + 1
  {
    hide CheckTransition, Before;
    FilterIsFullComparison(read, d.scenes[w.character].value, w);
    WriteReadable(read, w);
  }

  lemma LogAppended(s: System, s': System, w: SceneWrite)
    requires s'.log == s.log[w.character := LogOf(s.log, w.character) + [w]]
    ensures LogGrows(s.log, s'.log) && TookEffect(s'.log, w)
    ensures LogOf(s'.log, w.character) == LogOf(s.log, w.character) + [w]
    ensures forall key :: key != w.character ==> LogOf(s'.log, key) == LogOf(s.log, key)
  {
    var l := LogOf(s'.log, w.character);
    assert ResultOf(l[|l| - 1]) == ResultOf(w);
  }

  /** A write that takes effect: the document is still the one read, and the log gets one longer. */
  lemma CharacterWritten(s: System, s': System, w: SceneWrite, read: SceneState)
    requires Characters(s) && Accepted(s.db, w, read) && SceneMatches(s.db, w)
    requires s'.db.scenes.Keys == s.db.scenes.Keys && s'.db.scenes[w.character].value == FieldsOf(NextState(w))
    requires forall key :: key in s.db.scenes && key != w.character ==> s'.db.scenes[key].value == s.db.scenes[key].value
    requires s'.log == s.log[w.character := LogOf(s.log, w.character) + [w]]
    ensures Characters(s') && ScenesAdvance(s.db, s'.db) && LogGrows(s.log, s'.log) && TookEffect(s'.log, w)
  {
    hide CheckTransition, SceneFilter, Readable, LogGrows, TookEffect, LogOf;
    MatchedIsRead(s.db, w, read);
    LogAppended(s, s', w);
    forall key
      ensures Logged(s', key)
    {
      assert Logged(s, key);
    }
  }

  lemma CharacterCreated(s: System, s': System, key: CharacterKey)
    requires Characters(s) && key !in s.db.scenes && s'.log == s.log
    requires s'.db.scenes.Keys == s.db.scenes.Keys + {key} && s'.db.scenes[key].value == FieldsOf(FirstState(key))
    requires forall other :: other in s.db.scenes ==> s'.db.scenes[other].value == s.db.scenes[other].value
    ensures Characters(s') && ScenesAdvance(s.db, s'.db)
  {
    forall other
      ensures Logged(s', other)
    {
      assert Logged(s, other);
    }
  }

  lemma CharacterRevoked(s: System, s': System, key: CharacterKey, epoch: nat, owner: Owner)
    requires Characters(s) && RevokeMatches(s.db, key, epoch, owner) && epoch < COUNTER_MAX && s'.log == s.log
    requires s'.db.scenes.Keys == s.db.scenes.Keys && s'.db.scenes[key].value == Revoked(s.db.scenes[key].value)
    requires forall other :: other in s.db.scenes && other != key ==> s'.db.scenes[other].value == s.db.scenes[other].value
    ensures Characters(s') && ScenesAdvance(s.db, s'.db)
  {
    assert Readable(key, s.db.scenes[key].value);
    forall other
      ensures Logged(s', other)
    {
      assert Logged(s, other);
    }
  }

  /** A miss is final: the document has moved past what was read. */
  lemma MissedMoved(d: Db, w: SceneWrite, read: SceneState)
    requires Accepted(d, w, read) && !SceneMatches(d, w) && Readable(w.character, d.scenes[w.character].value)
    ensures !SamePair(read, StateOf(d, w.character))
  {
  }

  // ---------------------------------------------------------------------------------------
  // Writes to shards and instances

  /** One more write lands: its guard held on the shard as it is at commit, or it has none. */
  lemma FencesTraced(s: System, s': System, w: SceneWrite)
    requires Fences(s) && SameValues(s.db.shards, s'.db.shards) && SameValues(s.db.instances, s'.db.instances)
    requires w.owner.shardVersion != 0 ==> GuardMatches(s.db, TargetShard(w), w.owner, !w.command.kind.Move?)
    requires s'.owners == s.owners && s'.trace == s.trace + [LandingOf(s.db, w)]
    ensures Fences(s')
  {
    FencesFrame(s, s'.(trace := s.trace));
    assert OwnersOk(s, TargetShard(w));
    forall k
      ensures OwnersOk(s', k)
    {
      assert OwnersOk(s, k);
    }
    forall i | 0 <= i < |s'.trace|
      ensures TraceOk(s', i)
    {
      if i < |s.trace| {
        assert TraceOk(s, i) && s'.trace[i] == s.trace[i];
      }
    }
    forall i, j | 0 <= i < |s'.trace| && 0 <= j < |s'.trace|
      ensures InOrder(s', i, j)
    {
      if i < |s.trace| {
        assert TraceOk(s, i) && s'.trace[i] == s.trace[i];
        if j < |s.trace| {
          assert InOrder(s, i, j) && s'.trace[j] == s.trace[j];
        }
      }
    }
  }

  ghost predicate ShardWritten(s: System, s': System, expected: Option<ShardRecord>, desired: ShardRecord) {
    && s'.db.shards.Keys == s.db.shards.Keys + {desired.key} && s'.db.shards[desired.key].value == desired
    && (forall k :: k in s.db.shards && k != desired.key ==> s'.db.shards[k].value == s.db.shards[k].value)
    && SameValues(s.db.instances, s'.db.instances) && s'.trace == s.trace
    && s'.owners == if expected.None? || expected.value.owner != desired.owner
                    then s.owners[desired.key := OwnersOf(s.owners, desired.key) + [desired.owner]] else s.owners
  }

  /** The version rises by one exactly when the owner changes. */
  lemma ShardMatched(d: Db, expected: Option<ShardRecord>, desired: ShardRecord)
    requires ValidShardCas(expected, desired) && ShardBody(d, expected, desired).Some? && ShardBody(d, expected, desired).value.1
    ensures ShardOk(desired.key, desired)
    ensures if expected.None? then desired.key !in d.shards && desired.version == 1
            else
              && desired.key in d.shards && d.shards[desired.key].value == expected.value
              && desired.version == expected.value.version + (if expected.value.owner != desired.owner then 1 else 0)
    ensures if Assigns(expected, desired) then Ready(d, desired.owner.value)
            else expected.Some? && (desired.owner == expected.value.owner && expected.value.draining ==> desired.draining)
  {
  }

  lemma ShardDrains(s: System, s': System, expected: Option<ShardRecord>, desired: ShardRecord)
    requires Fences(s) && ValidShardCas(expected, desired) && ShardWritten(s, s', expected, desired)
    requires ShardBody(s.db, expected, desired).Some? && ShardBody(s.db, expected, desired).value.1
    ensures forall id, k :: DrainsTogether(s'.db, id, k)
  {
    hide ShardBody, ValidShardCas;
    ShardMatched(s.db, expected, desired);
    forall id, k
      ensures DrainsTogether(s'.db, id, k)
    {
      assert DrainsTogether(s.db, id, k);
    }
  }

  lemma FencesShard(s: System, s': System, expected: Option<ShardRecord>, desired: ShardRecord)
    requires Fences(s) && ValidShardCas(expected, desired) && ShardWritten(s, s', expected, desired)
    requires ShardBody(s.db, expected, desired).Some? && ShardBody(s.db, expected, desired).value.1
    ensures Fences(s')
  {
    hide ShardBody, ValidShardCas, DrainsTogether;
    ShardMatched(s.db, expected, desired);
    ShardDrains(s, s', expected, desired);
    assert OwnersOk(s, desired.key);
    forall k
      ensures OwnersOk(s', k)
    {
      assert OwnersOk(s, k);
    }
    forall i | 0 <= i < |s'.trace|
      ensures TraceOk(s', i)
    {
      assert TraceOk(s, i);
    }
    forall i, j | 0 <= i < |s'.trace| && 0 <= j < |s'.trace|
      ensures InOrder(s', i, j)
    {
      assert InOrder(s, i, j);
    }
  }

  ghost predicate InstanceWritten(s: System, s': System, desired: InstanceState) {
    && s'.db.instances.Keys == s.db.instances.Keys + {desired.instanceId} && s'.db.instances[desired.instanceId].value == desired
    && (forall id :: id in s.db.instances && id != desired.instanceId ==> s'.db.instances[id].value == s.db.instances[id].value)
    && s'.db.shards.Keys == s.db.shards.Keys
    && (forall k :: k in s.db.shards ==>
          s'.db.shards[k].value == if desired.draining && k in Drained(s.db, desired) then Drained(s.db, desired)[k] else s.db.shards[k].value)
    && s'.owners == s.owners && s'.trace == s.trace
  }

  lemma FencesInstance(s: System, s': System, desired: InstanceState)
    requires Fences(s) && InstanceWritten(s, s', desired)
    ensures Fences(s')
  {
    forall id, k
      ensures DrainsTogether(s'.db, id, k)
    {
      assert DrainsTogether(s.db, id, k);
    }
    forall k
      ensures OwnersOk(s', k)
    {
      assert OwnersOk(s, k);
    }
    forall i | 0 <= i < |s'.trace|
      ensures TraceOk(s', i)
    {
      assert TraceOk(s, i);
    }
    forall i, j | 0 <= i < |s'.trace| && 0 <= j < |s'.trace|
      ensures InOrder(s', i, j)
    {
      assert InOrder(s, i, j);
    }
  }

  // ---------------------------------------------------------------------------------------
  // Every event

  lemma Unmoved(s: System, s': System, id: nat)
    requires Inv(s) && s'.db == s.db && s'.log == s.log && s'.owners == s.owners && s'.trace == s.trace
    requires id in s'.ops && s'.ops == s.ops[id := s'.ops[id]] && OpOk(s', s'.ops[id])
    ensures Inv(s')
  {
    hide OpOk;
    CharactersFrame(s, s');
    FencesFrame(s, s');
    OthersLater(s, s', id, NO_WRITES);
  }

  /** What a read decides: a replay is only reported of a write that the log shows last. */
  lemma DecidedOk(s: System, w: SceneWrite)
    requires Characters(s) && ValidWrite(w) && w.character in s.db.scenes
    ensures OpOk(s, Op(CommitScene(w), Decided(w, StateOf(s.db, w.character)), false))
    ensures OpOk(s, Op(CommitScene(w), Decided(w, StateOf(s.db, w.character)), true))
  {
    var read := StateOf(s.db, w.character);
    ReplayIsLogged(s, w);
    hide CheckTransition;
  }

  lemma ReplayIsLogged(s: System, w: SceneWrite)
    requires Characters(s) && w.character in s.db.scenes
    ensures Readable(w.character, s.db.scenes[w.character].value)
    ensures ResolvedCommitted(w, Some(StateOf(s.db, w.character))) ==> TookEffect(s.log, w)
    ensures CheckTransition(StateOf(s.db, w.character), w) == Replayed ==> TookEffect(s.log, w)
  {
    assert Logged(s, w.character);
    var l := LogOf(s.log, w.character);
    if ResolvedCommitted(w, Some(StateOf(s.db, w.character))) {
      assert ResultOf(l[|l| - 1]) == ResultOf(w);
    }
  }

  lemma UpsertedOk(s: System, s': System, id: nat, key: CharacterKey)
    requires Inv(s) && s'.db == Upserted(s.db, key) && s'.log == s.log && s'.owners == s.owners && s'.trace == s.trace
    requires id in s'.ops && s'.ops == s.ops[id := s'.ops[id]]
    requires Characters(s') ==> OpOk(s', s'.ops[id])
    ensures Inv(s')
  {
    hide Characters, Fences, OpOk, Since;
    if key in s.db.scenes {
      CharactersFrame(s, s');
      Unmoved(s, s', id);
    } else {
      var w := NO_WRITES.(scenes := map[key := FieldsOf(FirstState(key))]);
      StampedApply(s.db, w);
      CharacterCreated(s, s', key);
      FencesFrame(s, s');
      OthersLater(s, s', id, w);
    }
  }

  lemma InvSceneStarted(s: System, id: nat, w: SceneWrite, owned: set<CharacterKey>)
    requires Inv(s) && id in s.ops && s.ops[id].call == CommitScene(w) && (s.ops[id].phase.Started? || s.ops[id].phase.Initializing?)
    ensures Inv(ProceedScene(s, id, w, owned))
  {
    hide Characters, Fences, Since, CheckTransition, Decided;
    var s' := ProceedScene(s, id, w, owned);
    if s.ops[id].phase.Started? {
      if ValidWrite(w) && w.character in s.db.scenes {
        DecidedOk(s, w);
        assert s'.ops[id].uncertain == s.ops[id].uncertain;
      }
      Unmoved(s, s', id);
    } else {
      assert OpOk(s, s.ops[id]);
      if Characters(s') {
        DecidedOk(s', w);
      }
      UpsertedOk(s, s', id, w.character);
    }
  }

  lemma InvSceneStatic(s: System, id: nat, w: SceneWrite, owned: set<CharacterKey>)
    requires Inv(s) && id in s.ops && s.ops[id].call == CommitScene(w) && s.ops[id].phase.Writing?
    ensures Inv(ProceedScene(s, id, w, owned))
  {
    assert w.character in s.db.scenes ==> Readable(w.character, s.db.scenes[w.character].value);
    hide Characters, Fences, Since, CheckTransition, SceneMatches;
    var s' := ProceedScene(s, id, w, owned);
    var read := s.ops[id].phase.read;
    assert OpOk(s, s.ops[id]);
    if w.owner.shardVersion != 0 {
      Unmoved(s, s', id);
    } else if !SceneMatches(s.db, w) {
      MissedMoved(s.db, w, read);
      Unmoved(s, s', id);
    } else {
      StaticHits(s, s', id, w, read);
    }
  }

  lemma StaticHits(s: System, s': System, id: nat, w: SceneWrite, read: SceneState)
    requires Inv(s) && id in s.ops && s.ops[id].call == CommitScene(w) && Accepted(s.db, w, read) && SceneMatches(s.db, w)
    requires s'.db == Apply(s.db, NO_WRITES.(scenes := map[w.character := FieldsOf(NextState(w))]))
    requires s'.log == s.log[w.character := LogOf(s.log, w.character) + [w]] && s'.owners == s.owners
    requires w.owner.shardVersion == 0 && s'.trace == s.trace + [LandingOf(s.db, w)]
    requires s'.ops == s.ops[id := s.ops[id].(phase := Done(WriteResult(Committed, Some(NextState(w)))))]
    ensures Inv(s')
  {
    var writes := NO_WRITES.(scenes := map[w.character := FieldsOf(NextState(w))]);
    hide Characters, Fences, Since, Accepted, SceneMatches, ScenesAdvance, LogGrows;
    StaticChanges(s.db, w);
    StampedApply(s.db, writes);
    CharacterWritten(s, s', w, read);
    FencesTraced(s, s', w);
    OthersLater(s, s', id, writes);
  }

  lemma StaticChanges(d: Db, w: SceneWrite)
    requires SceneMatches(d, w)
    ensures OnlySceneChanged(d, Apply(d, NO_WRITES.(scenes := map[w.character := FieldsOf(NextState(w))])), w)
  {
    hide NextState, SceneFilter;
  }

  lemma InvSceneTxn(s: System, id: nat, w: SceneWrite, owned: set<CharacterKey>)
    requires Inv(s) && id in s.ops && s.ops[id].call == CommitScene(w) && s.ops[id].phase.SceneTxn?
    ensures Inv(ProceedScene(s, id, w, owned))
  {
    hide Characters, Fences, Since, CheckTransition, SceneBody, MayCommit, Apply, Accepted, ScenesAdvance, OnlyStamps, Before;
    var s' := ProceedScene(s, id, w, owned);
    var read, snapshot := s.ops[id].phase.read, s.ops[id].phase.snapshot;
    assert OpOk(s, s.ops[id]);
    var (writes, outcome) := SceneBody(snapshot, w, SourceShard(w, read));
    if !MayCommit(snapshot, s.db, writes) {
      Unmoved(s, s', id);
    } else if outcome.SceneHit? {
      SceneCommitIsSerial(snapshot, s.db, w, SourceShard(w, read));
      SceneHits(s, s', id, w, read);
    } else {
      SceneOtherwiseStamps(snapshot, s.db, w, SourceShard(w, read));
      if outcome.SceneMiss? && Characters(s') && ScenesAdvance(s.db, s'.db) {
        MissedInSnapshot(s, s', w, read, snapshot);
      }
      StampsLater(s, s', id, writes);
    }
  }

  ghost predicate OnlySceneChanged(d: Db, d': Db, w: SceneWrite) {
    && SameValues(d.shards, d'.shards) && SameValues(d.instances, d'.instances)
    && w.character in d.scenes && d'.scenes.Keys == d.scenes.Keys && d'.scenes[w.character].value == FieldsOf(NextState(w))
    && forall key :: key in d.scenes && key != w.character ==> d'.scenes[key].value == d.scenes[key].value
  }

  lemma HitApplied(d: Db, w: SceneWrite, source: ShardKey)
    requires SceneBody(d, w, source).1.SceneHit?
    ensures var writes := SceneBody(d, w, source).0;
            && GuardMatches(d, TargetShard(w), w.owner, !w.command.kind.Move?) && TargetShard(w) in d.shards && SceneMatches(d, w)
            && OnlySceneChanged(d, Apply(d, writes), w) && StampsAssignments(d, writes)
  {
    hide NextState, SceneFilter;
  }

  lemma SceneHits(s: System, s': System, id: nat, w: SceneWrite, read: SceneState)
    requires Inv(s) && id in s.ops && s.ops[id].call == CommitScene(w) && Accepted(s.db, w, read)
    requires SceneBody(s.db, w, SourceShard(w, read)).1.SceneHit?
    requires s'.db == Apply(s.db, SceneBody(s.db, w, SourceShard(w, read)).0)
    requires s'.log == s.log[w.character := LogOf(s.log, w.character) + [w]] && s'.owners == s.owners
    requires s'.trace == s.trace + [LandingOf(s.db, w)]
    requires s'.ops == s.ops[id := s.ops[id].(phase := Done(WriteResult(Committed, Some(NextState(w)))))]
    ensures Inv(s')
  {
    hide Characters, Fences, Since, SceneBody, Apply, Accepted, SceneMatches, GuardMatches, StampsAssignments, ScenesAdvance, LogGrows;
    var writes := SceneBody(s.db, w, SourceShard(w, read)).0;
    HitApplied(s.db, w, SourceShard(w, read));
    StampedApply(s.db, writes);
    CharacterWritten(s, s', w, read);
    FencesTraced(s, s', w);
    OthersLater(s, s', id, writes);
  }

  /** Missing in the snapshot is final too: the snapshot is later than the read. */
  lemma MissedInSnapshot(s: System, s': System, w: SceneWrite, read: SceneState, snapshot: Db)
    requires Accepted(snapshot, w, read) && Accepted(s.db, w, read) && ScenePast(s.db, w.character, snapshot)
    requires var (writes, outcome) := SceneBody(snapshot, w, SourceShard(w, read)); outcome.SceneMiss?
    requires ScenesAdvance(s.db, s'.db)
    ensures Accepted(s'.db, w, read) && !SamePair(read, StateOf(s'.db, w.character))
  {
    MissedMoved(snapshot, w, read);
  }

  lemma ShardApplied(s: System, s': System, expected: Option<ShardRecord>, desired: ShardRecord)
    requires Fences(s) && ShardBody(s.db, expected, desired).Some? && ShardBody(s.db, expected, desired).value.1
    requires s'.db == Apply(s.db, ShardBody(s.db, expected, desired).value.0) && s'.trace == s.trace
    requires s'.owners == if expected.None? || expected.value.owner != desired.owner
                          then s.owners[desired.key := OwnersOf(s.owners, desired.key) + [desired.owner]] else s.owners
    ensures ShardWritten(s, s', expected, desired) && SameValues(s.db.scenes, s'.db.scenes)
    ensures StampsAssignments(s.db, ShardBody(s.db, expected, desired).value.0)
  {
  }

  lemma LogStays(log: map<CharacterKey, seq<SceneWrite>>)
    ensures LogGrows(log, log)
  {
  }

  lemma InvShard(s: System, id: nat, expected: Option<ShardRecord>, desired: ShardRecord)
    requires Inv(s) && id in s.ops && s.ops[id].call == ShardCas(expected, desired)
    ensures Inv(ProceedShard(s, id, expected, desired))
  {
    hide Characters, Fences, Since, ShardBody, MayCommit, Apply, StampsAssignments, ScenesAdvance, LogGrows, ValidShardCas;
    var s' := ProceedShard(s, id, expected, desired);
    assert OpOk(s, s.ops[id]);
    match s.ops[id].phase
    case Started => Unmoved(s, s', id);
    case Txn(snapshot) =>
      var body := ShardBody(snapshot, expected, desired);
      if body.None? || !MayCommit(snapshot, s.db, body.value.0) {
        Unmoved(s, s', id);
      } else if body.value.1 {
        ShardCommitIsSerial(snapshot, s.db, expected, desired);
        ShardApplied(s, s', expected, desired);
        FencesShard(s, s', expected, desired);
        CharactersFrame(s, s');
        StampedApply(s.db, body.value.0);
        LogStays(s.log);
        OthersLater(s, s', id, body.value.0);
      } else {
        ShardOtherwiseStamps(snapshot, s.db, expected, desired);
        StampsLater(s, s', id, body.value.0);
      }
    case _ => Unmoved(s, s', id);
  }

  lemma InstanceApplied(s: System, s': System, expected: Option<InstanceState>, desired: InstanceState)
    requires InstanceBody(s.db, expected, desired).Some? && InstanceBody(s.db, expected, desired).value.1
    requires s'.db == Apply(s.db, InstanceBody(s.db, expected, desired).value.0) && s'.trace == s.trace && s'.owners == s.owners
    ensures InstanceWritten(s, s', desired) && SameValues(s.db.scenes, s'.db.scenes)
    ensures StampsAssignments(s.db, InstanceBody(s.db, expected, desired).value.0)
  {
  }

  lemma InstanceOtherwiseStamps(s: Db, d: Db, expected: Option<InstanceState>, desired: InstanceState)
    requires InstanceBody(s, expected, desired).Some? && !InstanceBody(s, expected, desired).value.1
    ensures OnlyStamps(d, InstanceBody(s, expected, desired).value.0)
  {
  }

  lemma InvInstance(s: System, id: nat, expected: Option<InstanceState>, desired: InstanceState)
    requires Inv(s) && id in s.ops && s.ops[id].call == InstanceCas(expected, desired)
    ensures Inv(ProceedInstance(s, id, expected, desired))
  {
    hide Characters, Fences, Since, InstanceBody, MayCommit, Apply, StampsAssignments, ScenesAdvance, LogGrows, ValidInstanceCas;
    var s' := ProceedInstance(s, id, expected, desired);
    assert OpOk(s, s.ops[id]);
    match s.ops[id].phase
    case Started => Unmoved(s, s', id);
    case Txn(snapshot) =>
      var body := InstanceBody(snapshot, expected, desired);
      if body.None? || !MayCommit(snapshot, s.db, body.value.0) {
        Unmoved(s, s', id);
      } else if body.value.1 {
        InstanceCommitIsSerial(snapshot, s.db, expected, desired);
        InstanceApplied(s, s', expected, desired);
        FencesInstance(s, s', desired);
        CharactersFrame(s, s');
        StampedApply(s.db, body.value.0);
        LogStays(s.log);
        OthersLater(s, s', id, body.value.0);
      } else {
        InstanceOtherwiseStamps(snapshot, s.db, expected, desired);
        StampsLater(s, s', id, body.value.0);
      }
    case _ => Unmoved(s, s', id);
  }

  lemma InvRevoke(s: System, id: nat, key: CharacterKey, epoch: nat, owner: Owner, owned: set<CharacterKey>)
    requires Inv(s) && id in s.ops && s.ops[id].call == RevokeScene(key, epoch, owner)
    ensures Inv(ProceedRevoke(s, id, key, epoch, owner, owned))
  {
    hide ScenesAdvance, Revoked;
    hide Characters, Fences, Since;
    var s' := ProceedRevoke(s, id, key, epoch, owner, owned);
    if epoch == 0 || epoch >= COUNTER_MAX || !ValidOwner(owner) || key !in owned || !RevokeMatches(s.db, key, epoch, owner) {
      Unmoved(s, s', id);
    } else {
      var w := NO_WRITES.(scenes := map[key := Revoked(s.db.scenes[key].value)]);
      StampedApply(s.db, w);
      CharacterRevoked(s, s', key, epoch, owner);
      FencesFrame(s, s');
      OthersLater(s, s', id, w);
    }
  }

  lemma InvScene(s: System, id: nat, w: SceneWrite, owned: set<CharacterKey>)
    requires Inv(s) && id in s.ops && s.ops[id].call == CommitScene(w) && !s.ops[id].phase.Done?
    ensures Inv(ProceedScene(s, id, w, owned))
  {
    assert OpOk(s, s.ops[id]);
    assert !s.ops[id].phase.Txn?;
    hide Inv, ProceedScene;
    match s.ops[id].phase
    case Started => InvSceneStarted(s, id, w, owned);
    case Initializing => InvSceneStarted(s, id, w, owned);
    case Writing(_) => InvSceneStatic(s, id, w, owned);
    case SceneTxn(_, _) => InvSceneTxn(s, id, w, owned);
    case Rereading(_) => InvSceneReread(s, id, w, owned);
    case _ => assert false;
  }

  lemma InvSceneReread(s: System, id: nat, w: SceneWrite, owned: set<CharacterKey>)
    requires Inv(s) && id in s.ops && s.ops[id].call == CommitScene(w) && s.ops[id].phase.Rereading?
    ensures Inv(ProceedScene(s, id, w, owned))
  {
    hide Characters, Fences, Since, CheckTransition;
    assert OpOk(s, s.ops[id]);
    ReplayIsLogged(s, w);
    RereadRefuses(s, w, s.ops[id].phase.read);
    Unmoved(s, ProceedScene(s, id, w, owned), id);
  }

  /** After a miss the read-back never passes the check again. */
  lemma RereadRefuses(s: System, w: SceneWrite, read: SceneState)
    requires Accepted(s.db, w, read) && !SamePair(read, StateOf(s.db, w.character))
    ensures CheckTransition(StateOf(s.db, w.character), w) != Committed
  {
  }

  lemma InvStep(owned: set<CharacterKey>, s: System, e: Event)
    requires Inv(s)
    ensures Inv(Step(owned, s, e))
  {
    assert e.GiveUp? && e.id in s.ops ==> OpOk(s, s.ops[e.id]) && Store(s);
    hide Inv, ProceedScene, ProceedRevoke, ProceedShard, ProceedInstance, Upserted;
    var s' := Step(owned, s, e);
    match e
    case Begin(id, call) =>
      if id !in s.ops {
        BegunOk(s, s', id, call);
      }
    case GiveUp(id) =>
      if id in s.ops {
        assert OpOk(s', s'.ops[id]);
        Unmoved(s, s', id);
      }
    case Proceed(id) =>
      if id in s.ops && !s.ops[id].phase.Done? {
        match s.ops[id].call
        case CommitScene(w) => InvScene(s, id, w, owned);
        case RevokeScene(key, epoch, owner) => InvRevoke(s, id, key, epoch, owner, owned);
        case InitializeScene(key) =>
          if key in owned {
            UpsertedOk(s, s', id, key);
          } else {
            Unmoved(s, s', id);
          }
        case ShardCas(expected, desired) => InvShard(s, id, expected, desired);
        case InstanceCas(expected, desired) => InvInstance(s, id, expected, desired);
      }
  }

  lemma BegunOk(s: System, s': System, id: nat, call: Call)
    requires Inv(s) && id !in s.ops && s' == s.(ops := s.ops[id := Op(call, Started, false)])
    ensures Inv(s')
  {
    Unmoved(s, s', id);
  }

  lemma {:induction false} Reachable(owned: set<CharacterKey>, es: seq<Event>)
    ensures Inv(Run(owned, es))
  {
    if es == [] {
    } else {
      hide Inv, Step;
      Reachable(owned, es[..|es| - 1]);
      InvStep(owned, Run(owned, es[..|es| - 1]), es[|es| - 1]);
    }
  }
}
