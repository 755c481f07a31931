/** Scene state of a character, the writes made to it, and the shard and instance records that
    fence them: who may change what into what.  Command digests are ideal and are left out. */
module SceneRecords {
  import opened Basics

  const COORDINATE_MAX: int := 10_000
  const COUNTER_MAX: nat := 0x7FFF_FFFF_FFFF_FFFF
  const TEXT_MAX: nat := 128

  type Text = seq<char>

  datatype CharacterKey = CharacterKey(accountId: nat, realmId: nat, characterId: nat)
  datatype Location = Location(shardId: nat, x: int, y: int)
  /** Shard version 0 is for static shards only. */
  datatype Owner = Owner(realmIncarnation: Text, sessionBinding: nat, instanceId: Text, incarnation: Text, shardVersion: nat)
  datatype CommandType = Enter | Move | Transfer
  datatype Command = Command(kind: CommandType, seqNo: nat, x: int, y: int, targetShardId: nat)
  datatype StoredResult = StoredResult(command: Command, location: Location, bindingEpoch: nat, owner: Owner)
  datatype SceneState = SceneState(character: CharacterKey, bindingEpoch: nat, owner: Option<Owner>,
                                   location: Option<Location>, lastResult: Option<StoredResult>)
  datatype SceneWrite = SceneWrite(character: CharacterKey, expectedEpoch: nat, expectedOwner: Option<Owner>,
                                   owner: Owner, command: Command, location: Location)

  datatype ShardKey = ShardKey(realmId: nat, shardId: nat)
  datatype ShardOwner = ShardOwner(instanceId: Text, incarnation: Text)
  datatype InstanceState = InstanceState(instanceId: Text, incarnation: Text, draining: bool)
  datatype ShardRecord = ShardRecord(key: ShardKey, version: nat, owner: Option<ShardOwner>, draining: bool)

  datatype Outcome = Committed | Replayed | NotOwned | StaleBinding | InvalidSequence | InvalidCommand
    | EpochExhausted

  predicate ValidText(t: Text) { t != [] && |t| <= TEXT_MAX && forall i :: 0 <= i < |t| ==> '!' <= t[i] <= '~' }

  predicate ValidOwner(o: Owner) {
    && ValidText(o.realmIncarnation) && o.sessionBinding != 0 && ValidText(o.instanceId) && ValidText(o.incarnation)
    && o.shardVersion <= COUNTER_MAX
  }

  predicate ValidLocation(l: Location) { l.shardId != 0 && 0 <= l.x <= COORDINATE_MAX && 0 <= l.y <= COORDINATE_MAX }

  predicate ValidCommand(c: Command) {
    && c.seqNo != 0 && c.seqNo <= COUNTER_MAX
    && match c.kind
       case Enter => c.x == 0 && c.y == 0 && c.targetShardId == 0
       case Move => c.targetShardId == 0 && 0 <= c.x <= COORDINATE_MAX && 0 <= c.y <= COORDINATE_MAX
       case Transfer => c.x == 0 && c.y == 0 && c.targetShardId != 0
  }

  predicate ValidWrite(w: SceneWrite) {
    && ValidOwner(w.owner) && (w.expectedOwner.Some? ==> ValidOwner(w.expectedOwner.value))
    && ValidLocation(w.location) && ValidCommand(w.command) && w.expectedEpoch <= COUNTER_MAX
  }

  function SeqOf(s: SceneState): nat { if s.lastResult.Some? then s.lastResult.value.command.seqNo else 0 }

  function EpochAfter(w: SceneWrite): nat { w.expectedEpoch + (if w.command.kind.Move? then 0 else 1) }

  /** A read-back proves a write committed only if it shows that very result. */
  predicate ResolvedCommitted(w: SceneWrite, observed: Option<SceneState>) {
    && observed.Some? && observed.value.character == w.character && observed.value.lastResult.Some?
    && w.expectedEpoch <= COUNTER_MAX && w.command.seqNo != 0
    && (w.command.kind.Move? || w.expectedEpoch != COUNTER_MAX)
    && observed.value.lastResult.value == StoredResult(w.command, w.location, EpochAfter(w), w.owner)
  }

  function CheckTransition(s: SceneState, w: SceneWrite): Outcome {
    if ResolvedCommitted(w, Some(s)) && s.owner == Some(w.owner) && s.bindingEpoch == s.lastResult.value.bindingEpoch then Replayed
    else if s.bindingEpoch != w.expectedEpoch || s.owner != w.expectedOwner then StaleBinding
    else if SeqOf(s) == COUNTER_MAX || w.command.seqNo != SeqOf(s) + 1 then InvalidSequence
    else if w.command.kind.Enter? && s.location.Some? && s.location.value != w.location then InvalidCommand
    else if !w.command.kind.Enter? && (s.owner.None? || s.location.None?) then StaleBinding
    else if w.command.kind.Move? && (w.owner != s.owner.value || w.location.shardId != s.location.value.shardId
                                     || w.location.x != w.command.x || w.location.y != w.command.y) then InvalidCommand
    else if w.command.kind.Transfer? && (w.owner.realmIncarnation != s.owner.value.realmIncarnation
                                         || w.owner.sessionBinding != s.owner.value.sessionBinding
                                         || w.location.shardId != w.command.targetShardId
                                         || w.location.shardId == s.location.value.shardId) then InvalidCommand
    else if !w.command.kind.Move? && s.bindingEpoch == COUNTER_MAX then EpochExhausted
    else Committed
  }

  function NextState(w: SceneWrite): SceneState {
    SceneState(w.character, EpochAfter(w), Some(w.owner), Some(w.location),
               Some(StoredResult(w.command, w.location, EpochAfter(w), w.owner)))
  }

  function FirstState(key: CharacterKey): SceneState { SceneState(key, 0, None, None, None) }

  /** A stored scene document: the state and the sequence number the update filter compares. */
  datatype SceneFields = SceneFields(state: SceneState, lastSeq: nat)

  function FieldsOf(s: SceneState): SceneFields { SceneFields(s, SeqOf(s)) }

  /** What reading a document back demands of it; any other document is refused as corrupt. */
  predicate Readable(key: CharacterKey, f: SceneFields) {
    var s := f.state;
    && s.character == key && s.bindingEpoch <= COUNTER_MAX
    && (s.owner.Some? ==> ValidOwner(s.owner.value)) && (s.location.Some? ==> ValidLocation(s.location.value))
    && (s.lastResult.Some? ==>
          var r := s.lastResult.value;
          && ValidCommand(r.command) && ValidLocation(r.location) && ValidOwner(r.owner)
          && 0 < r.bindingEpoch <= s.bindingEpoch)
    && f.lastSeq == SeqOf(s)
    && s.location.Some? == s.lastResult.Some?
    && (s.lastResult.Some? ==> s.location.value == s.lastResult.value.location)
    && (s.owner.Some? ==>
          s.lastResult.Some? && s.bindingEpoch == s.lastResult.value.bindingEpoch && s.owner.value == s.lastResult.value.owner)
    && (s.bindingEpoch == 0 ==> s.lastResult.None?)
  }

  /** The filter of the scene update: binding epoch, owner and last sequence number. */
  predicate SceneFilter(f: SceneFields, w: SceneWrite) {
    f.state.bindingEpoch == w.expectedEpoch && f.state.owner == w.expectedOwner && f.lastSeq == w.command.seqNo - 1
  }

  // ---------------------------------------------------------------------------------------
  // Order of states

  /** The pair (epoch, sequence) never goes back, and it determines the whole state. */
  ghost predicate Before(a: SceneState, b: SceneState) {
    && a.character == b.character && a.bindingEpoch <= b.bindingEpoch && SeqOf(a) <= SeqOf(b)
    && (a.bindingEpoch == b.bindingEpoch && SeqOf(a) == SeqOf(b) ==> a == b)
  }

  /** An accepted write makes a readable document out of a readable one. */
  lemma WriteReadable(s: SceneState, w: SceneWrite)
    requires Readable(s.character, FieldsOf(s)) && ValidWrite(w) && s.character == w.character
    requires CheckTransition(s, w) == Committed
    ensures Readable(w.character, FieldsOf(NextState(w)))
    ensures SceneFilter(FieldsOf(s), w) && Before(s, NextState(w)) && SeqOf(NextState(w)) == w.command.seqNo == SeqOf(s) + 1
  {
  }

  /** The short filter is as strong as comparing the whole record: a document that passes it
      for an accepted write is the very state the acceptance was decided on. */
  lemma FilterIsFullComparison(read: SceneState, f: SceneFields, w: SceneWrite)
    requires CheckTransition(read, w) == Committed && Before(read, f.state) && f.lastSeq == SeqOf(f.state)
    ensures SceneFilter(f, w) <==> f.state == read && SceneFilter(FieldsOf(read), w)
    ensures SceneFilter(f, w) ==> CheckTransition(f.state, w) == Committed
  {
  }

  /** Once the filter has missed, no later read can make the write acceptable. */
  lemma MissIsFinal(read: SceneState, f: SceneFields, later: SceneState, w: SceneWrite)
    requires CheckTransition(read, w) == Committed && ValidWrite(w) && Before(read, f.state) && f.lastSeq == SeqOf(f.state)
    requires !SceneFilter(f, w) && Before(f.state, later)
    ensures CheckTransition(later, w) != Committed
  {
  }

  // ---------------------------------------------------------------------------------------
  // Shards and instances

  predicate ValidShardCas(expected: Option<ShardRecord>, desired: ShardRecord) {
    && desired.key.realmId != 0 && desired.version != 0 && desired.version <= COUNTER_MAX
    && !(desired.owner.None? && desired.draining)
    && (desired.owner.Some? ==> ValidText(desired.owner.value.instanceId) && ValidText(desired.owner.value.incarnation))
    && if expected.None? then desired.version == 1 && desired.owner.Some? && !desired.draining
       else
         var changed := expected.value.owner != desired.owner;
         && expected.value.key == desired.key && expected.value.version != 0
         && !(changed && expected.value.version == COUNTER_MAX)
         && desired.version == expected.value.version + (if changed then 1 else 0)
         && !(!changed && expected.value.draining && !desired.draining)
         && !(changed && desired.draining)
         && !(changed && desired.owner.None? && !expected.value.draining)
  }

  predicate ValidInstanceCas(expected: Option<InstanceState>, desired: InstanceState) {
    && ValidText(desired.instanceId) && ValidText(desired.incarnation)
    && !(expected.None? && desired.draining)
    && (expected.Some? ==>
          && expected.value.instanceId == desired.instanceId
          && !(expected.value.incarnation == desired.incarnation && expected.value.draining && !desired.draining))
  }
}
