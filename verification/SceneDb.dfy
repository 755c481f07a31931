/** The documents, and the three multi-document transactions as their bodies compute them from
    the snapshot they run on.  The database commits a transaction only if no document it wrote
    has changed since its snapshot (snapshot isolation, first committer wins). */
module SceneDb {
  import opened Basics
  import opened SceneRecords

  /** Every write stamps the document with the database's new revision; the guard counters the
      transactions increment exist only to make such a stamp. */
  datatype Doc<T> = Doc(value: T, rev: nat)

  datatype Db = Db(scenes: map<CharacterKey, Doc<SceneFields>>, shards: map<ShardKey, Doc<ShardRecord>>,
                   instances: map<Text, Doc<InstanceState>>, rev: nat)

  datatype Writes = Writes(scenes: map<CharacterKey, SceneFields>, shards: map<ShardKey, ShardRecord>,
                           instances: map<Text, InstanceState>)

  const NO_WRITES := Writes(map[], map[], map[])

  function Stamp<K, T>(docs: map<K, Doc<T>>, writes: map<K, T>, rev: nat): map<K, Doc<T>> {
    map k | k in docs.Keys + writes.Keys :: if k in writes then Doc(writes[k], rev) else docs[k]
  }

  function Apply(d: Db, w: Writes): Db {
    Db(Stamp(d.scenes, w.scenes, d.rev + 1), Stamp(d.shards, w.shards, d.rev + 1), Stamp(d.instances, w.instances, d.rev + 1), d.rev + 1)
  }

  predicate Untouched<K, T>(snapshot: map<K, Doc<T>>, current: map<K, Doc<T>>, written: set<K>) {
    forall k :: k in written ==>
      if k in snapshot then k in current && current[k].rev == snapshot[k].rev else k !in current
  }

  /** First committer wins. */
  predicate MayCommit(snapshot: Db, current: Db, w: Writes) {
    && Untouched(snapshot.scenes, current.scenes, w.scenes.Keys)
    && Untouched(snapshot.shards, current.shards, w.shards.Keys)
    && Untouched(snapshot.instances, current.instances, w.instances.Keys)
  }

  // ---------------------------------------------------------------------------------------
  // The transactions

  predicate GuardMatches(d: Db, key: ShardKey, owner: Owner, admitting: bool) {
    && key in d.shards
    && var r := d.shards[key].value;
       && r.version == owner.shardVersion && r.owner == Some(ShardOwner(owner.instanceId, owner.incarnation))
       && (admitting ==> !r.draining)
  }

  /** Match and increment the guard: the record stays as it is, and is written. */
  function Guarded(d: Db, key: ShardKey): map<ShardKey, ShardRecord>
    requires key in d.shards
  {
    map[key := d.shards[key].value]
  }

  function TargetShard(w: SceneWrite): ShardKey { ShardKey(w.character.realmId, w.location.shardId) }

  predicate LeavesGuardedShard(w: SceneWrite) {
    w.command.kind.Transfer? && w.expectedOwner.Some? && w.expectedOwner.value.shardVersion != 0
  }

  datatype SceneTx = SceneStale | SceneMiss | SceneHit

  /** The update alone, on the document as it is. */
  predicate SceneMatches(d: Db, w: SceneWrite) {
    w.character in d.scenes && SceneFilter(d.scenes[w.character].value, w)
  }

  /** The guarded scene write; `source` is the shard the character was read to be on. */
  function SceneBody(d: Db, w: SceneWrite, source: ShardKey): (Writes, SceneTx) {
    var admitting := !w.command.kind.Move?;
    if !GuardMatches(d, TargetShard(w), w.owner, admitting) then (NO_WRITES, SceneStale)
    else
      var first := Guarded(d, TargetShard(w));
      if LeavesGuardedShard(w) && !GuardMatches(d, source, w.expectedOwner.value, false) then
        (Writes(map[], first, map[]), SceneStale)
      else
        var guards := if LeavesGuardedShard(w) then first + Guarded(d, source) else first;
        if !SceneMatches(d, w) then (Writes(map[], guards, map[]), SceneMiss)
        else (Writes(map[w.character := FieldsOf(NextState(w))], guards, map[]), SceneHit)
  }

  predicate Assigns(expected: Option<ShardRecord>, desired: ShardRecord) {
    desired.owner.Some? && (expected.None? || expected.value.owner != desired.owner)
  }

  predicate Ready(d: Db, o: ShardOwner) {
    o.instanceId in d.instances && d.instances[o.instanceId].value == InstanceState(o.instanceId, o.incarnation, false)
  }

  /** `None` when the insert finds the shard there already: the transaction aborts. */
  function ShardBody(d: Db, expected: Option<ShardRecord>, desired: ShardRecord): Option<(Writes, bool)> {
    if Assigns(expected, desired) && !Ready(d, desired.owner.value) then Some((NO_WRITES, false))
    else
      var guard := if Assigns(expected, desired)
                   then map[desired.owner.value.instanceId := d.instances[desired.owner.value.instanceId].value] else map[];
      var matched := if expected.None? then desired.key !in d.shards
                     else desired.key in d.shards && d.shards[desired.key].value == expected.value;
      if matched then Some((Writes(map[], map[desired.key := desired], guard), true))
      else if expected.None? then None
      else Some((Writes(map[], map[], guard), false))
  }

  /** Every shard the instance carries, marked draining. */
  function Drained(d: Db, i: InstanceState): map<ShardKey, ShardRecord> {
    map k | k in d.shards && d.shards[k].value.owner == Some(ShardOwner(i.instanceId, i.incarnation)) ::
      d.shards[k].value.(draining := true)
  }

  function InstanceBody(d: Db, expected: Option<InstanceState>, desired: InstanceState): Option<(Writes, bool)> {
    var matched := if expected.None? then desired.instanceId !in d.instances
                   else desired.instanceId in d.instances && d.instances[desired.instanceId].value == expected.value;
    if matched then
      Some((Writes(map[], if desired.draining then Drained(d, desired) else map[], map[desired.instanceId := desired]), true))
    else if expected.None? then None
    else Some((NO_WRITES, false))
  }

  // ---------------------------------------------------------------------------------------
  // What can have happened since a snapshot

  ghost predicate DocsSince<K(!new), T(!new)>(s: map<K, Doc<T>>, d: map<K, Doc<T>>, rev: nat) {
    && (forall k :: k in s ==> k in d && s[k].rev <= rev && (d[k] == s[k] || d[k].rev > rev))
    && (forall k :: k in d && k !in s ==> d[k].rev > rev)
  }

  /** A shard given to an instance since the snapshot has stamped that instance since. */
  ghost predicate AssignedSince(s: Db, d: Db, k: ShardKey) {
    k in d.shards && d.shards[k].value.owner.Some? && (k in s.shards ==> s.shards[k].value.owner != d.shards[k].value.owner) ==>
      var id := d.shards[k].value.owner.value.instanceId;
      id in d.instances && d.instances[id].rev > s.rev
  }

  ghost predicate Since(s: Db, d: Db) {
    && s.rev <= d.rev
    && DocsSince(s.scenes, d.scenes, s.rev) && DocsSince(s.shards, d.shards, s.rev) && DocsSince(s.instances, d.instances, s.rev)
    && forall k :: AssignedSince(s, d, k)
  }

  ghost predicate Stamped(d: Db) { Since(d, d) }

  /** Guards turn the snapshot into the present: a scene write that commits is the one its body
      computes on the database as it stands at commit. */
  lemma SceneCommitIsSerial(s: Db, d: Db, w: SceneWrite, source: ShardKey)
    requires Since(s, d)
    requires var (writes, outcome) := SceneBody(s, w, source); outcome.SceneHit? && MayCommit(s, d, writes)
    ensures SceneBody(d, w, source) == SceneBody(s, w, source)
  {
    var (writes, _) := SceneBody(s, w, source);
    assert TargetShard(w) in writes.shards && w.character in writes.scenes;
    assert LeavesGuardedShard(w) ==> source in writes.shards;
  }

  lemma ShardCommitIsSerial(s: Db, d: Db, expected: Option<ShardRecord>, desired: ShardRecord)
    requires Since(s, d)
    requires var b := ShardBody(s, expected, desired); b.Some? && b.value.1 && MayCommit(s, d, b.value.0)
    ensures ShardBody(d, expected, desired) == ShardBody(s, expected, desired)
  {
    var writes := ShardBody(s, expected, desired).value.0;
    assert desired.key in writes.shards;
    assert Assigns(expected, desired) ==> desired.owner.value.instanceId in writes.instances;
  }

  /** The set of shards to drain is the present one too: a shard assigned since would have
      stamped the instance and stopped the commit. */
  lemma InstanceCommitIsSerial(s: Db, d: Db, expected: Option<InstanceState>, desired: InstanceState)
    requires Since(s, d)
    requires var b := InstanceBody(s, expected, desired); b.Some? && b.value.1 && MayCommit(s, d, b.value.0)
    ensures InstanceBody(d, expected, desired) == InstanceBody(s, expected, desired)
  {
    var writes := InstanceBody(s, expected, desired).value.0;
    assert desired.instanceId in writes.instances;
    if desired.draining {
      var owner := Some(ShardOwner(desired.instanceId, desired.incarnation));
      forall k | k in Drained(s, desired)
        ensures k in Drained(d, desired) && Drained(d, desired)[k] == Drained(s, desired)[k]
      {
        assert k in writes.shards;
      }
      forall k | k in Drained(d, desired)
        ensures k in Drained(s, desired)
      {
        assert AssignedSince(s, d, k);
      }
      assert Drained(d, desired) == Drained(s, desired);
    }
  }

  /** What a body writes without deciding anything leaves every document's value alone. */
  ghost predicate OnlyStamps(d: Db, w: Writes) {
    && w.scenes == map[]
    && (forall k :: k in w.shards ==> k in d.shards && d.shards[k].value == w.shards[k])
    && (forall k :: k in w.instances ==> k in d.instances && d.instances[k].value == w.instances[k])
  }

  lemma SceneOtherwiseStamps(s: Db, d: Db, w: SceneWrite, source: ShardKey)
    requires Since(s, d)
    requires var (writes, outcome) := SceneBody(s, w, source); !outcome.SceneHit? && MayCommit(s, d, writes)
    ensures OnlyStamps(d, SceneBody(s, w, source).0)
  {
  }

  lemma ShardOtherwiseStamps(s: Db, d: Db, expected: Option<ShardRecord>, desired: ShardRecord)
    requires Since(s, d)
    requires var b := ShardBody(s, expected, desired); b.Some? && !b.value.1 && MayCommit(s, d, b.value.0)
    ensures OnlyStamps(d, ShardBody(s, expected, desired).value.0)
  {
  }

  lemma DocsSinceStamp<K(!new), T(!new)>(s: map<K, Doc<T>>, d: map<K, Doc<T>>, w: map<K, T>, rev: nat, now: nat)
    requires DocsSince(s, d, rev) && now > rev
    ensures DocsSince(s, Stamp(d, w, now), rev)
  {
  }

  ghost predicate StampsAssignment(d: Db, w: Writes, k: ShardKey) {
    k in w.shards && w.shards[k].owner.Some? && (k in d.shards ==> d.shards[k].value.owner != w.shards[k].owner) ==>
      w.shards[k].owner.value.instanceId in w.instances
  }

  /** A shard is given to an instance only together with a stamp on the instance. */
  ghost predicate StampsAssignments(d: Db, w: Writes) { forall k :: StampsAssignment(d, w, k) }

  lemma AssignedApply(s: Db, d: Db, w: Writes, k: ShardKey)
    requires AssignedSince(s, d, k) && StampsAssignment(d, w, k) && s.rev <= d.rev
    ensures AssignedSince(s, Apply(d, w), k)
  {
  }

  /** No commit makes a snapshot's account of the past untrue. */
  lemma SinceApply(s: Db, d: Db, w: Writes)
    requires Since(s, d) && StampsAssignments(d, w)
    ensures Since(s, Apply(d, w))
  {
    hide DocsSince, AssignedSince, StampsAssignment, Stamp;
    DocsSinceStamp(s.scenes, d.scenes, w.scenes, s.rev, d.rev + 1);
    DocsSinceStamp(s.shards, d.shards, w.shards, s.rev, d.rev + 1);
    DocsSinceStamp(s.instances, d.instances, w.instances, s.rev, d.rev + 1);
    forall k
      ensures AssignedSince(s, Apply(d, w), k)
    {
      AssignedApply(s, d, w, k);
    }
  }

  lemma StampedApply(d: Db, w: Writes)
    requires Stamped(d)
    ensures Stamped(Apply(d, w))
  {
  }

  /** Why the guards are written and not only read: once the shard has changed hands the guarded
      transaction can no longer commit, while the same scene write without its guards could. */
  lemma ReadsAloneDoNotFence(s: Db, w: SceneWrite, source: ShardKey, changed: ShardRecord)
    requires Stamped(s) && SceneBody(s, w, source).1.SceneHit? && changed.version > s.shards[TargetShard(w)].value.version
    ensures var writes := SceneBody(s, w, source).0;
            var d := Apply(s, NO_WRITES.(shards := map[TargetShard(w) := changed]));
            && !GuardMatches(d, TargetShard(w), w.owner, false)
            && !MayCommit(s, d, writes) && MayCommit(s, d, writes.(shards := map[]))
  {
    var writes := SceneBody(s, w, source).0;
    assert TargetShard(w) in writes.shards;
  }
}
