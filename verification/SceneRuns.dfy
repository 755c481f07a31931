/** Runs in which a scene write carries no shard version, and so is not fenced: it lands on
    whatever its shard has become. */
module SceneRuns {
  import opened Basics
  import opened SceneRecords
  import opened SceneDb
  import opened SceneSystem
  import opened SceneSafety

  /** One call, undisturbed: a read or a snapshot, then the write. */
  function Alone(id: nat, call: Call): seq<Event> { [Begin(id, call), Proceed(id), Proceed(id)] }

  lemma AloneSteps(owned: set<CharacterKey>, es: seq<Event>, id: nat, call: Call)
    ensures Run(owned, es + Alone(id, call))
         == Step(owned, Step(owned, Step(owned, Run(owned, es), Begin(id, call)), Proceed(id)), Proceed(id))
  {
    hide Run, Step;
    RunOne(owned, es, Begin(id, call));
    RunOne(owned, es + [Begin(id, call)], Proceed(id));
    RunOne(owned, es + [Begin(id, call)] + [Proceed(id)], Proceed(id));
    assert es + Alone(id, call) == es + [Begin(id, call)] + [Proceed(id)] + [Proceed(id)];
  }

  lemma RunOne(owned: set<CharacterKey>, es: seq<Event>, e: Event)
    ensures Run(owned, es + [e]) == Step(owned, Run(owned, es), e)
  {
    hide Step;
    assert (es + [e])[..|es|] == es;
  }

  lemma AtOnce(d: Db, w: Writes)
    ensures MayCommit(d, d, w)
  {
  }

  function Finished(s: System, id: nat, call: Call, result: Result): map<nat, Op> { s.ops[id := Op(call, Done(result), false)] }

  lemma ShardAlone(owned: set<CharacterKey>, es: seq<Event>, id: nat, expected: Option<ShardRecord>, desired: ShardRecord)
    requires id !in Run(owned, es).ops && ValidShardCas(expected, desired)
    requires var body := ShardBody(Run(owned, es).db, expected, desired); body.Some? && body.value.1
    ensures var s, call := Run(owned, es), ShardCas(expected, desired);
            var s' := Run(owned, es + Alone(id, call));
            && s'.db == Apply(s.db, ShardBody(s.db, expected, desired).value.0)
            && s'.ops == Finished(s, id, call, CasResult(true)) && s'.log == s.log && s'.trace == s.trace
  {
    hide Run, ValidShardCas, ShardBody, MayCommit, Apply;
    var s, call := Run(owned, es), ShardCas(expected, desired);
    AloneSteps(owned, es, id, call);
    AtOnce(s.db, ShardBody(s.db, expected, desired).value.0);
    var s2 := Step(owned, Step(owned, s, Begin(id, call)), Proceed(id));
    assert s2.db == s.db && s2.ops == s.ops[id := Op(call, Txn(s.db), false)];
    assert s2.ops[id := Op(call, Done(CasResult(true)), false)] == Finished(s, id, call, CasResult(true));
  }

  lemma InstanceAlone(owned: set<CharacterKey>, es: seq<Event>, id: nat, expected: Option<InstanceState>, desired: InstanceState)
    requires id !in Run(owned, es).ops && ValidInstanceCas(expected, desired)
    requires var body := InstanceBody(Run(owned, es).db, expected, desired); body.Some? && body.value.1
    ensures var s, call := Run(owned, es), InstanceCas(expected, desired);
            var s' := Run(owned, es + Alone(id, call));
            && s'.db == Apply(s.db, InstanceBody(s.db, expected, desired).value.0)
            && s'.ops == Finished(s, id, call, CasResult(true)) && s'.log == s.log && s'.trace == s.trace
  {
    hide Run, ValidInstanceCas, InstanceBody, MayCommit, Apply;
    var s, call := Run(owned, es), InstanceCas(expected, desired);
    AloneSteps(owned, es, id, call);
    AtOnce(s.db, InstanceBody(s.db, expected, desired).value.0);
    var s2 := Step(owned, Step(owned, s, Begin(id, call)), Proceed(id));
    assert s2.db == s.db && s2.ops == s.ops[id := Op(call, Txn(s.db), false)];
    assert s2.ops[id := Op(call, Done(CasResult(true)), false)] == Finished(s, id, call, CasResult(true));
  }

  /** In every reachable state, any acceptable write with shard version 0 takes effect and is
      answered `Committed`, whatever its shard's record says. */
  lemma VersionlessLands(owned: set<CharacterKey>, es: seq<Event>, id: nat, w: SceneWrite)
    requires var s := Run(owned, es);
             && id !in s.ops && w.character in owned && w.character in s.db.scenes
             && ValidWrite(w) && w.owner.shardVersion == 0 && CheckTransition(StateOf(s.db, w.character), w) == Committed
    ensures var s, s' := Run(owned, es), Run(owned, es + Alone(id, CommitScene(w)));
            && s'.ops == Finished(s, id, CommitScene(w), WriteResult(Committed, Some(NextState(w))))
            && s'.trace == s.trace + [LandingOf(s.db, w)] && !Fenced(LandingOf(s.db, w))
            && LogOf(s'.log, w.character) == LogOf(s.log, w.character) + [w]
  {
    hide Run, CheckTransition, NextState, LandingOf, Apply;
    var s, read := Run(owned, es), StateOf(Run(owned, es).db, w.character);
    AloneSteps(owned, es, id, CommitScene(w));
    var s1 := Step(owned, s, Begin(id, CommitScene(w)));
    var s2 := Step(owned, s1, Proceed(id));
    assert s2 == s.(ops := s.ops[id := Op(CommitScene(w), Writing(read), false)]);
    ReadMatches(owned, es, w);
    NotFenced(owned, es, w);
    assert s1.ops[id := Op(CommitScene(w), Writing(read), false)] == s2.ops;
  }

  lemma ReadMatches(owned: set<CharacterKey>, es: seq<Event>, w: SceneWrite)
    requires var s := Run(owned, es);
             w.character in s.db.scenes && ValidWrite(w) && CheckTransition(StateOf(s.db, w.character), w) == Committed
    ensures SceneMatches(Run(owned, es).db, w)
  {
    var s := Run(owned, es);
    hide Run, Fences;
    Reachable(owned, es);
    assert Readable(w.character, s.db.scenes[w.character].value);
    WriteReadable(StateOf(s.db, w.character), w);
  }

  lemma NotFenced(owned: set<CharacterKey>, es: seq<Event>, w: SceneWrite)
    requires w.owner.shardVersion == 0
    ensures !Fenced(LandingOf(Run(owned, es).db, w))
  {
    hide Run, Characters;
    Reachable(owned, es);
  }

  /** A shard is made, given to an instance and set draining, and a new character comes in. */
  function DrainThenEnter(w: SceneWrite, owner: ShardOwner): seq<Event> {
    var r := ShardRecord(TargetShard(w), 1, Some(owner), false);
    Alone(1, InstanceCas(None, InstanceState(owner.instanceId, owner.incarnation, false)))
    + Alone(2, ShardCas(None, r)) + Alone(3, ShardCas(Some(r), r.(draining := true)))
    + Alone(4, InitializeScene(w.character)) + Alone(5, CommitScene(w))
  }

  lemma Drain(owned: set<CharacterKey>, w: SceneWrite, owner: ShardOwner)
    requires ValidText(owner.instanceId) && ValidText(owner.incarnation) && w.character.realmId != 0
    ensures var r := ShardRecord(TargetShard(w), 1, Some(owner), false);
            var s := Run(owned, Alone(1, InstanceCas(None, InstanceState(owner.instanceId, owner.incarnation, false)))
                                + Alone(2, ShardCas(None, r)) + Alone(3, ShardCas(Some(r), r.(draining := true))));
            && TargetShard(w) in s.db.shards && s.db.shards[TargetShard(w)].value == r.(draining := true)
            && s.db.scenes == map[] && s.ops.Keys == {1, 2, 3} && s.log == map[] && s.trace == []
  {
    var r := ShardRecord(TargetShard(w), 1, Some(owner), false);
    var i := InstanceState(owner.instanceId, owner.incarnation, false);
    var a, b, c := Alone(1, InstanceCas(None, i)), Alone(2, ShardCas(None, r)), Alone(3, ShardCas(Some(r), r.(draining := true)));
    assert Run(owned, []) == EMPTY && [] + a == a;
    hide Run, ValidText, Alone;
    InstanceAlone(owned, [], 1, None, i);
    var s1 := Run(owned, a);
    assert s1.db.instances.Keys == {owner.instanceId} && s1.db.instances[owner.instanceId].value == i;
    assert s1.db.shards == map[] && s1.db.scenes == map[];
    Shards(owned, w, owner, a);
  }

  lemma Shards(owned: set<CharacterKey>, w: SceneWrite, owner: ShardOwner, es: seq<Event>)
    requires ValidText(owner.instanceId) && ValidText(owner.incarnation) && w.character.realmId != 0
    requires var s := Run(owned, es);
             && Ready(s.db, owner) && s.db.shards == map[] && s.db.scenes == map[]
             && s.ops.Keys == {1} && s.log == map[] && s.trace == []
    ensures var r := ShardRecord(TargetShard(w), 1, Some(owner), false);
            var s := Run(owned, es + Alone(2, ShardCas(None, r)) + Alone(3, ShardCas(Some(r), r.(draining := true))));
            && TargetShard(w) in s.db.shards && s.db.shards[TargetShard(w)].value == r.(draining := true)
            && s.db.scenes == map[] && s.ops.Keys == {1, 2, 3} && s.log == map[] && s.trace == []
  {
    hide Run, ValidText, Alone;
    var r := ShardRecord(TargetShard(w), 1, Some(owner), false);
    var b := Alone(2, ShardCas(None, r));
    ShardAlone(owned, es, 2, None, r);
    var s2 := Run(owned, es + b);
    assert TargetShard(w) in s2.db.shards && s2.db.shards[TargetShard(w)].value == r && s2.db.scenes == map[];
    ShardAlone(owned, es + b, 3, Some(r), r.(draining := true));
  }

  /** Versions fence nothing that has none: the character is in the draining shard. */
  lemma DrainingShardEntered(owned: set<CharacterKey>, w: SceneWrite, owner: ShardOwner)
    requires ValidText(owner.instanceId) && ValidText(owner.incarnation) && w.character.realmId != 0 && w.character in owned
    requires ValidWrite(w) && w.owner.shardVersion == 0 && w.expectedEpoch == 0 && w.expectedOwner == None
    requires w.command.kind.Enter? && w.command.seqNo == 1
    ensures var s := Run(owned, DrainThenEnter(w, owner));
            && 5 in s.ops && s.ops[5] == Op(CommitScene(w), Done(WriteResult(Committed, Some(NextState(w)))), false)
            && s.trace == [Landing(w, Some(ShardRecord(TargetShard(w), 1, Some(owner), true)))]
            && LogOf(s.log, w.character) == [w]
  {
    var r := ShardRecord(TargetShard(w), 1, Some(owner), false);
    var i := InstanceState(owner.instanceId, owner.incarnation, false);
    var es := Alone(1, InstanceCas(None, i)) + Alone(2, ShardCas(None, r)) + Alone(3, ShardCas(Some(r), r.(draining := true)));
    hide Run, Alone, ValidWrite, ValidText, TargetShard;
    Drain(owned, w, owner);
    var s := Run(owned, es);
    AloneSteps(owned, es, 4, InitializeScene(w.character));
    var s' := Run(owned, es + Alone(4, InitializeScene(w.character)));
    assert s'.db.scenes[w.character].value == FieldsOf(FirstState(w.character));
    VersionlessLands(owned, es + Alone(4, InitializeScene(w.character)), 5, w);
  }
}
