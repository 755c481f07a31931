/** Concurrent callers of the scene store: reads, single-document updates and transactions of
    different calls interleave freely, transactions retry on conflict, and a caller that has
    given up may still see its write land.

    `log` (the scene writes that took effect, per character), `owners` (the owner of each
    version of each shard) and `trace` (all scene writes that took effect, in order) are history
    variables. */
module SceneSystem {
  import opened Basics
  import opened SceneRecords
  import opened SceneDb

  datatype Call = CommitScene(write: SceneWrite) | RevokeScene(key: CharacterKey, epoch: nat, owner: Owner)
    | InitializeScene(key: CharacterKey) | ShardCas(expected: Option<ShardRecord>, desired: ShardRecord)
    | InstanceCas(instance: Option<InstanceState>, next: InstanceState)

  datatype Result = Refused | WriteResult(outcome: Outcome, state: Option<SceneState>) | StateResult(state: Option<SceneState>)
    | CasResult(matched: bool)

  datatype Phase = Started | Initializing | Writing(read: SceneState) | SceneTxn(read: SceneState, snapshot: Db)
    | Rereading(read: SceneState) | Txn(snapshot: Db) | Done(result: Result)

  /** `uncertain`: the caller was told that the outcome is unknown; the call may still go on. */
  datatype Op = Op(call: Call, phase: Phase, uncertain: bool)

  /** A scene write that took effect, and the record of its shard as it stood at that moment. */
  datatype Landing = Landing(write: SceneWrite, record: Option<ShardRecord>)

  function LandingOf(d: Db, w: SceneWrite): Landing {
    Landing(w, if TargetShard(w) in d.shards then Some(d.shards[TargetShard(w)].value) else None)
  }

  function ShardOwnerOf(o: Owner): ShardOwner { ShardOwner(o.instanceId, o.incarnation) }

  /** The write named its shard's version and owner of that moment, and a character came in only
      if the shard was not draining. */
  predicate Fenced(l: Landing) {
    && l.record.Some? && l.record.value.version == l.write.owner.shardVersion
    && l.record.value.owner == Some(ShardOwnerOf(l.write.owner))
    && (!l.write.command.kind.Move? ==> !l.record.value.draining)
  }

  datatype System = System(db: Db, ops: map<nat, Op>, log: map<CharacterKey, seq<SceneWrite>>,
                           owners: map<ShardKey, seq<Option<ShardOwner>>>, trace: seq<Landing>)

  const EMPTY := System(Db(map[], map[], map[], 0), map[], map[], map[], [])

  datatype Event = Begin(id: nat, call: Call) | Proceed(id: nat) | GiveUp(id: nat)

  function LogOf(log: map<CharacterKey, seq<SceneWrite>>, key: CharacterKey): seq<SceneWrite> {
    if key in log then log[key] else []
  }

  function OwnersOf(owners: map<ShardKey, seq<Option<ShardOwner>>>, key: ShardKey): seq<Option<ShardOwner>> {
    if key in owners then owners[key] else []
  }

  function WithPhase(s: System, id: nat, phase: Phase): System
    requires id in s.ops
  {
    s.(ops := s.ops[id := s.ops[id].(phase := phase)])
  }

  /** What a read leads a scene write to. */
  function Decided(w: SceneWrite, read: SceneState): Phase {
    var outcome := CheckTransition(read, w);
    if outcome.Committed? then Writing(read) else Done(WriteResult(outcome, Some(read)))
  }

  /** `find_one_and_update` with upsert: the stored document wins. */
  function Upserted(d: Db, key: CharacterKey): Db {
    if key in d.scenes then d else Apply(d, NO_WRITES.(scenes := map[key := FieldsOf(FirstState(key))]))
  }

  function SourceShard(w: SceneWrite, read: SceneState): ShardKey {
    ShardKey(w.character.realmId, if read.location.Some? then read.location.value.shardId else 0)
  }

  function Written(s: System, w: SceneWrite, d: Db): System {
    s.(db := d, log := s.log[w.character := LogOf(s.log, w.character) + [w]], trace := s.trace + [LandingOf(s.db, w)])
  }

  function ProceedScene(s: System, id: nat, w: SceneWrite, owned: set<CharacterKey>): System
    requires id in s.ops
  {
    var key := w.character;
    match s.ops[id].phase
    case Started =>
      if !ValidWrite(w) then WithPhase(s, id, Done(Refused))
      else if key !in owned then WithPhase(s, id, Done(WriteResult(NotOwned, None)))
      else if key !in s.db.scenes then WithPhase(s, id, Initializing)
      else WithPhase(s, id, Decided(w, s.db.scenes[key].value.state))
    case Initializing =>
      var d := Upserted(s.db, key);
      WithPhase(s.(db := d), id, Decided(w, d.scenes[key].value.state))
    case Writing(read) =>
      if w.owner.shardVersion != 0 then WithPhase(s, id, SceneTxn(read, s.db))
      else if !SceneMatches(s.db, w) then WithPhase(s, id, Rereading(read))
      else WithPhase(Written(s, w, Apply(s.db, NO_WRITES.(scenes := map[key := FieldsOf(NextState(w))]))), id,
                     Done(WriteResult(Committed, Some(NextState(w)))))
    case SceneTxn(read, snapshot) =>
      var (writes, outcome) := SceneBody(snapshot, w, SourceShard(w, read));
      if !MayCommit(snapshot, s.db, writes) then WithPhase(s, id, Writing(read))
      else if outcome.SceneHit? then
        WithPhase(Written(s, w, Apply(s.db, writes)), id, Done(WriteResult(Committed, Some(NextState(w)))))
      else
        WithPhase(s.(db := Apply(s.db, writes)), id,
                  if outcome.SceneStale? then Done(WriteResult(StaleBinding, Some(read))) else Rereading(read))
    case Rereading(read) =>
      if key !in s.db.scenes then WithPhase(s, id, Done(WriteResult(NotOwned, None)))
      else
        var now := s.db.scenes[key].value.state;
        var conflict := CheckTransition(now, w);
        WithPhase(s, id, Done(WriteResult(if conflict.Committed? then StaleBinding else conflict, Some(now))))
    case _ => s
  }

  predicate RevokeMatches(d: Db, key: CharacterKey, epoch: nat, owner: Owner) {
    key in d.scenes && d.scenes[key].value.state.bindingEpoch == epoch && d.scenes[key].value.state.owner == Some(owner)
  }

  function Revoked(f: SceneFields): SceneFields {
    f.(state := f.state.(owner := None, bindingEpoch := f.state.bindingEpoch + 1))
  }

  function ProceedRevoke(s: System, id: nat, key: CharacterKey, epoch: nat, owner: Owner, owned: set<CharacterKey>): System
    requires id in s.ops
  {
    if epoch == 0 || epoch >= COUNTER_MAX || !ValidOwner(owner) then WithPhase(s, id, Done(Refused))
    else if key !in owned || !RevokeMatches(s.db, key, epoch, owner) then WithPhase(s, id, Done(CasResult(false)))
    else WithPhase(s.(db := Apply(s.db, NO_WRITES.(scenes := map[key := Revoked(s.db.scenes[key].value)]))), id, Done(CasResult(true)))
  }

  function ProceedShard(s: System, id: nat, expected: Option<ShardRecord>, desired: ShardRecord): System
    requires id in s.ops
  {
    match s.ops[id].phase
    case Started => if ValidShardCas(expected, desired) then WithPhase(s, id, Txn(s.db)) else WithPhase(s, id, Done(Refused))
    case Txn(snapshot) =>
      var body := ShardBody(snapshot, expected, desired);
      if body.None? then WithPhase(s, id, Done(CasResult(false)))
      else if !MayCommit(snapshot, s.db, body.value.0) then WithPhase(s, id, Started)
      else
        var changed := body.value.1 && (expected.None? || expected.value.owner != desired.owner);
        WithPhase(s.(db := Apply(s.db, body.value.0),
                     owners := if changed then s.owners[desired.key := OwnersOf(s.owners, desired.key) + [desired.owner]] else s.owners),
                  id, Done(CasResult(body.value.1)))
    case _ => s
  }

  function ProceedInstance(s: System, id: nat, expected: Option<InstanceState>, desired: InstanceState): System
    requires id in s.ops
  {
    match s.ops[id].phase
    case Started => if ValidInstanceCas(expected, desired) then WithPhase(s, id, Txn(s.db)) else WithPhase(s, id, Done(Refused))
    case Txn(snapshot) =>
      var body := InstanceBody(snapshot, expected, desired);
      if body.None? then WithPhase(s, id, Done(CasResult(false)))
      else if !MayCommit(snapshot, s.db, body.value.0) then WithPhase(s, id, Started)
      else WithPhase(s.(db := Apply(s.db, body.value.0)), id, Done(CasResult(body.value.1)))
    case _ => s
  }

  function Step(owned: set<CharacterKey>, s: System, e: Event): System {
    match e
    case Begin(id, call) => if id in s.ops then s else s.(ops := s.ops[id := Op(call, Started, false)])
    case GiveUp(id) => if id in s.ops then s.(ops := s.ops[id := s.ops[id].(uncertain := true)]) else s
    case Proceed(id) =>
      if id !in s.ops || s.ops[id].phase.Done? then s
      else match s.ops[id].call
        case CommitScene(w) => ProceedScene(s, id, w, owned)
        case RevokeScene(key, epoch, owner) => ProceedRevoke(s, id, key, epoch, owner, owned)
        case InitializeScene(key) =>
          if key !in owned then WithPhase(s, id, Done(StateResult(None)))
          else
            var d := Upserted(s.db, key);
            WithPhase(s.(db := d), id, Done(StateResult(Some(d.scenes[key].value.state))))
        case ShardCas(expected, desired) => ProceedShard(s, id, expected, desired)
        case InstanceCas(expected, desired) => ProceedInstance(s, id, expected, desired)
  }

  function Run(owned: set<CharacterKey>, es: seq<Event>): System {
    if es == [] then EMPTY else Step(owned, Run(owned, es[..|es| - 1]), es[|es| - 1])
  }
}
