# Verification of the login and game path

A Dafny model of the protocol state machines between login and play, and proofs of what they
keep over whole runs. `dafny verify dfyconfig.toml` checks the project.

What is modelled, and the main result of each part:

- **Chat sequencer and chat client** (`Chat*`, `Filters`, `WireRealmSession`). In every run of the
  server, a stay that joined at watermark w is sent w+1, w+2, … once each and in order, up to where
  it has got or has left; every reply and push it builds is legal; all its counters, quotas and
  budgets are exact. A client session that is new to a stay shows its user exactly that stream,
  with no gap, as long as it is open, and only an overflow of its budget closes it; with an older
  stay still active it does so if and only if the new stay's state arrives before its first message
  (`ChatOlderStay`). Server and client are put together in `ChatEndToEnd`.
- **Admission consumption** (`Admission*`, `GatewayAdmission`, `Clock`, `Credentials`). Every
  interleaving of gateways over the shared store, with retries and with writes that land after
  their answer was lost, is a sequence of atomic reserve, commit and release steps on the record.
  Leases are counted in seconds by the gateway that asks for them and run out on etcd's clock. An
  (identity, grant) pair is consumed at most once, whatever leases run out, if no gateway's clock is
  then behind the reading its lease was asked for with (`AdmissionLeases`); `AdmissionRuns` has the
  runs that go wrong otherwise.
- **Scene ownership** (`Scene*`). Scene writes of a character take effect as 1, 2, 3, … once each,
  whatever is retried or unknown; a version of a shard has one owner for ever and never comes back
  after a later one has written; a draining shard admits nobody; all this of exactly the writes that
  carry a shard version. The guard increments are what makes this true, and the model shows the run
  that goes wrong without them.
- **Gateway login pipeline** (`Login*`, `GatewayLoginPipeline`). Over all frames and faults, every
  admission handle is settled once, a session passes the pending stage only on an applied commit,
  and budgets and the attempt index are exact.
- **Queue** (`Queue*`). The release ledger, the credential chain, and the service over its store:
  through lost answers, requests that land late, lapsed leases and restarts, releases stand if and
  only if no request lands behind what was shown, and the count of numbers is kept if and only if
  every issue and every late landing keeps it.
- **Startup topology** (`ServiceGraph`, `StartupOrder`, `StartupTopology`) and the **flat JSON
  codec** (`JsonCodec`, `JsonParser`).

Layout: code that updates objects is a class or a method with loops (`ChatChannels`,
`WireRealmSession`, `AdmissionStores`, `GatewayAdmission`, `GatewayLoginPipeline`, `QueueCore`,
`QueueService`, `StartupOrder`, `StartupTopology`, `JsonParser`), proved equal to a specification
function; the properties are proved of that function. What runs concurrently over a shared store
(`AdmissionCluster`, `SceneSystem`, `QueueSystem`) is a step function over the calls in flight.
Wall-clock times are integers in nanosecond ticks, with the program's rounding to whole seconds;
bucket contents are reals. Capacities and policies are parameters, and so is every wire size.
Signatures, digests and keyed names are ideal.

Where a property fails, the model keeps the code as it is and says exactly when it holds:

- A lease that runs out outlives its record if and only if no gateway is then behind the reading it
  was asked for with (`AdmissionLeases.OutlivesExactly`). A gateway that is behind, by one second
  already, can consume the pair a second time (`AdmissionRuns.SkewHappens`,
  `AdmissionRuns.SkewedGateway`).
- A consumed record that another grant took over and gave back is granted to the first grant again
  if and only if it was given back on a reading that is not past the asking one, which takes a clock
  that steps back (`AdmissionSafety.ClockStepsBack`).
- One record serves all grants of an identity, so its key can go, on clocks that are all in step,
  while an earlier grant of the same identity is still open. Fencing values then restart, and two
  reservations of one pair are both told Applied (`AdmissionRuns.TwoWinnersHappen`,
  `AdmissionRuns.TwoWinnersRun`). One winner is certain if the key never goes while the pair's own
  window is open (`AdmissionWinner.OneWinner`); once it has gone so, two winners are possible
  whenever an old reservation can still be used (`AdmissionRuns.TwoWinnersPossible`).
- A client that still has an older stay active in the same channel kind, and hears of the new stay
  by a message first, loses that message and reports a gap that is none at the next
  (`ChatOlderStay.OlderStayMakesAGap`); `ChatOlderStay.DeliveredIffStateFirst` is the condition.
- A scene write that carries shard version 0, which the store takes for a static shard, is not
  fenced: it takes effect whatever the shard's record says (`SceneRuns.VersionlessLands`), also on a
  draining shard (`SceneRuns.DrainingShardEntered`). A write is fenced if and only if its version is
  not 0 (`SceneGuarantees.FencedIffVersioned`).
- The queue's snapshot is put without a compare, and the issue transaction compares only the
  identity's own key. A save that lands late moves a release that was shown
  (`QueueSystem.LateSaveRetimes`); `QueueSystem.LevelExactly` gives the condition on the run. An
  issue that lands late gives a number twice (`QueueSystem.LateIssueTwice`).
- A queue number issued while the clock is more than the leeway behind the last release is
  committed, the restore that follows throws, and the next identity is given the same number
  (`QueueSystem.TwoIdentitiesOneNumber`). `QueueSystem.NumberedExactly` gives the condition for this
  and for an issue that lands late, both ways; under it numbers are unique (`QueueSystem.EveryNumberOnce`), as
  `docs/adr/0006-stateless-queue-number.md` asks, and a count once lost gives a number out again
  (`QueueSystem.LostCountRepeats`).

## Model

| member | source | states |
|---|---|---|
| ChatSafety.Reachable | game/chat/src/chat_channels.cpp:88-324 | in every state any run of opens, closes, submits, rounds and drains reaches: one established link that carries the current link generation and owns every member, distinct live generations, exact pending and byte counts within their limits, all join quotas, legal queued traffic, ordered streams, paced senders |
| ChatSafety.InvStep | game/chat/src/chat_channels.cpp:88-187 | no single operation breaks any of that, from any state that has it |
| ChatSafety.GapFreeDelivery | game/chat/src/chat_channels.cpp:172-184 | in every run, a live member with join watermark w has been handed w+1 … w+d in order, and what waits for it is exactly w+d+1 … the channel's sequence |
| ChatStays.StayHandedInOrder | game/chat/src/chat_channels.cpp:172-184 | in every run, whatever a stay that was live at any point has been handed by the end, whether it lives still or has left, is w+1 … w+d in order from the watermark it joined at |
| ChatStays.HandedOnlyToStays | game/chat/src/chat_channels.cpp:172-184 | nothing is ever handed to anything else |
| ChatStays.RepliesNameTheStay | game/chat/src/chat_channels.cpp:227-268 | in every run, each JOIN or STATE reply to a stay, whenever it is made, tells the stay's own generation, epoch and join watermark |
| ChatStays.HoldsStep | game/chat/src/chat_channels.cpp:88-187 | no operation changes the watermark of a stay, lets one that is over begin again, or, drains apart, hands anything out |
| ChatSafety.DrainOnlyToMembers | game/chat/src/chat_channels.cpp:172-184 | a drain hands out at most a round's worth, only pushes that were queued, and none to a membership that has left or been replaced; earlier deliveries stand |
| ChatSafety.SamePlaceSameMessage | game/chat/src/chat_channels.cpp:293-324 | two recipients that were sent the same place of a channel were sent the same author and text |
| ChatSafety.AcceptancesNumberedAndPaced | game/chat/src/chat_channels.cpp:270-324 | in every run, the accepted messages of one stay are numbered 1, 2, 3, … and any stretch of them numbers at most burst + rate × elapsed |
| ChatSafety.SendAnswer | game/chat/src/chat_channels.cpp:270-325 | an accepted answer names the place where the log holds this stay's message with this counter and this text; a repeat changes nothing, a new one takes the next counters, a rejection leaves log and pushes |
| ChatSafety.AcceptedMeansLogged | game/chat/src/chat_channels.cpp:270-325 | the same of every send in every reachable state |
| ChatLegal.HandleLegal | game/chat/src/chat_channels.cpp:193-268 | the reply built for any legal request, in any sound state, passes the protocol's own reply validator, one of the two checks encoding makes |
| ChatLegal.SendLegal | game/common/src/chat_protocol.cpp:42-86 | every send result satisfies the result validator, including that a receipt lies at least the client counter beyond the watermark |
| ChatLegal.JoinLegal | game/chat/src/chat_channels.cpp:227-257 | every join reply satisfies the reply validator |
| ChatLegal.RefuseLegal | game/chat/src/chat_channels.cpp:51-57 | a refusal of a legal request with any error status is a legal reply |
| ChatLegal.WireServe | game/common/src/chat_protocol.cpp:119-142 | serving a request keeps every queued request and reply legal |
| ChatRoster.MembersLinked | game/chat/src/chat_channels.cpp:298 | every live member's connection has an established link, so the dereference in a send's fan-out is safe |
| ChatRoster.RosterHandle | game/chat/src/chat_channels.cpp:193-257 | handling a request keeps one link, its members, and distinct generations |
| ChatAccounting.AccountingHandle | game/chat/src/chat_channels.cpp:94-111 | handling a request, with the connections it closes, keeps the pending count equal to all queues and replies and the byte count equal to the queued pushes, within their limits |
| ChatAccounting.QuotasHandle | game/chat/src/chat_channels.cpp:227-257 | handling a request keeps every capacity of channels, characters and qualifications |
| ChatStreams.PushesLegal | game/chat/src/chat_channels.cpp:293-311 | every push built for a send passes the push validator, also when the budget then refuses the send |
| ChatStreams.StreamsHandle | game/chat/src/chat_channels.cpp:193-324 | handling a request keeps every live stay's delivered and waiting pushes consecutive, and every push a quotation of the channel log |
| ChatPace.PaceHandle | game/chat/src/chat_channels.cpp:270-292 | handling a request keeps every stay's acceptances within its bucket |
| ChatText.ValidIsUtf8 | game/common/src/chat_protocol.cpp:169-192 | the scan accepts a text if and only if it is non-empty, within the size limit and the UTF-8 of some sequence of allowed scalar values: no overlong form, no surrogate, no control character |
| ChatText.CheckChatText | game/common/src/chat_protocol.cpp:169-192 | the loop over bytes decides exactly that |
| ChatChannels.ChatChannels.constructor | game/chat/src/chat_channels.cpp:58-83 | starts empty and sound |
| ChatChannels.ChatChannels.Open | game/chat/src/chat_channels.cpp:88-93 | the transport limit and the duplicate check, as specified; sound afterwards |
| ChatChannels.ChatChannels.Close | game/chat/src/chat_channels.cpp:94-111 | removes the connection's queue, replies, pushes and members, and nothing else |
| ChatChannels.ChatChannels.Enqueue | game/chat/src/chat_channels.cpp:112-135 | which requests are taken, refused or thrown out as malformed, and that a refusal changes nothing |
| ChatChannels.ChatChannels.RunRound | game/chat/src/chat_channels.cpp:136-166 | a round as specified: turns over the connections, at most one send per membership, expired requests answered unavailable |
| ChatChannels.ChatChannels.ServeOne | game/chat/src/chat_channels.cpp:145-164 | one request served and its reply queued, the books still exact |
| ChatChannels.ChatChannels.TakeReply | game/chat/src/chat_channels.cpp:167-171 | the oldest reply, if any, leaves the queue and the count |
| ChatChannels.ChatChannels.DrainPushes | game/chat/src/chat_channels.cpp:172-184 | what is handed out is exactly what the delivery history grew by, each to a live membership |
| ChatChannels.ChatChannels.TakeClosedPeers | game/chat/src/chat_channels.cpp:185-187 | hands over the connections closed since |
| ChatChannels.ChatChannels.Handle | game/chat/src/chat_channels.cpp:193-268 | the answer and the new state of every operation, as specified |
| ChatChannels.ChatChannels.Hello | game/chat/src/chat_channels.cpp:199-209 | a new link replaces every other, with the next link generation |
| ChatChannels.ChatChannels.Leave | game/chat/src/chat_channels.cpp:221-226 | removes at most the named membership, and blocks its generation |
| ChatChannels.ChatChannels.Join | game/chat/src/chat_channels.cpp:227-257 | installs the membership at the current sequence, or refuses it |
| ChatChannels.ChatChannels.Busy | game/chat/src/chat_channels.cpp:235-247 | the capacity tests of a join |
| ChatChannels.ChatChannels.SendMessage | game/chat/src/chat_channels.cpp:270-325 | a send: repeat, conflict, limits, or acceptance with its fan-out |
| ChatChannels.ChatChannels.Accept | game/chat/src/chat_channels.cpp:293-324 | reserve the whole fan-out within the budget or reject, then count, log and queue |
| ChatClientSafety.ClientBooks | game/client/src/wire_login_transport.cpp:273-293 | in every run the client's byte counter equals the encoded size of its two buffers, within the limits |
| ChatClientSafety.StayDeliveredInFull | game/client/src/wire_login_transport.cpp:557-638 | a client with nothing of a stay, fed its messages in order among any other traffic and state replies, never reports a loss of that channel kind and has shown, queued or still buffers exactly what arrived |
| ChatClientSafety.OnlyOverflowCloses | game/client/src/wire_login_transport.cpp:540-556 | such a client closes on a message if and only if the budget has no room for it |
| ChatOlderStay.DeliveredIffStateFirst | game/client/src/wire_login_transport.cpp:557-638 | over any list of events that leaves the session open, a stay that begins while another is active in its channel kind is delivered whole, in order and with no loss reported if and only if its own active state comes before its first message |
| ChatOlderStay.OlderStayMakesAGap | game/client/src/wire_login_transport.cpp:557-594 | otherwise the next message after the state, though numbered without a gap, is reported as a gap |
| ChatOlderStay.KeptStep | game/client/src/wire_login_transport.cpp:483-638 | no step shows, queues and buffers more of a stay than arrives in it, so what was dropped stays missing |
| ChatClientSafety.SoundResume | game/client/src/wire_login_transport.cpp:595-638 | taking the buffered messages out to put them back always leaves room for all of them |
| ChatClientSafety.CarriesReceiveAll | game/client/src/wire_login_transport.cpp:620-638 | putting them back one by one neither closes the session nor loses or reorders one |
| ChatEndToEnd.EndToEnd | game/client/src/wire_login_transport.cpp:557-638 | whatever part of the pushes handed out to a stay, live or over, has reached a client new to it, together with any of the server's own state replies to it, the user is shown an initial part of it, from watermark + 1 on without a gap, each message as the server's log holds it, and no loss is reported |
| ChatEndToEnd.RelayedFits | game/chat/src/chat_channels.cpp:227-268 | each state reply the server makes to a stay, in any run, is one the client takes for that very stay |
| WireRealmSession.WireRealmSession.CloseSession | game/client/src/wire_login_transport.cpp:372-387 | clears all chat state and counters |
| WireRealmSession.WireRealmSession.DiscardChat | game/client/src/wire_login_transport.cpp:518-540 | removes exactly the kind's buffered messages and notices and their bytes |
| WireRealmSession.WireRealmSession.QueueChat | game/client/src/wire_login_transport.cpp:542-555 | queues within the budget or closes |
| WireRealmSession.WireRealmSession.ReceiveChat | game/client/src/wire_login_transport.cpp:556-594 | keeps, buffers, ignores or reports a gap, as specified, the books exact |
| WireRealmSession.WireRealmSession.ApplyChatState | game/client/src/wire_login_transport.cpp:595-638 | installs a state, drops what it outdates, replays what waited |
| WireRealmSession.WireRealmSession.AcceptNotice | game/client/src/wire_login_transport.cpp:483-517 | which frames are chat, and their effect |
| WireRealmSession.WireRealmSession.TakeNotice | game/client/src/wire_login_transport.cpp:283-292 | the oldest notice leaves with its bytes |
| WireRealmSession.WireRealmSession.PollChat | game/client/src/wire_login_transport.cpp:273-293 | reads frames only while nothing is queued, and stops exactly on a notice, a close, an unknown frame or the deadline |
| AdmissionRecords.DecideIsAtomic | game/gateway/src/admission_consumption_store.cpp:522-585 | a decision on a loaded record, with the write it asks for, is the atomic step of the in-memory store on that record |
| AdmissionRecords.RetentionCoversWindow | game/gateway/src/admission_consumption_store.cpp:252-264 | on the clock of the gateway that asks for it, the lease ends only after the last whole second at which the pair could still be accepted |
| AdmissionSafety.EveryStepIsAtomic | game/gateway/src/admission_consumption_store.cpp:522-765 | every step of every interleaving leaves each record or changes it by one atomic in-memory call that is in flight, and a call that ends with an answer ends with that atomic step's answer |
| AdmissionSafety.LandedAtomic | game/gateway/src/admission_consumption_store.cpp:657-695 | a put whose compare holds, answered or not, is the atomic step on the record as it is then |
| AdmissionSafety.Reachable | game/gateway/src/admission_consumption_store.cpp:522-765 | every run keeps records well formed, windows aligned and the ledger of commits true |
| AdmissionSafety.ConsumedAtMostOnce | game/gateway/src/admission_consumption_store.cpp:418-447 | over any run, with lost answers, late writes and deleted keys, a pair is committed at most once, as long as every key that goes is past its window on every gateway's clock |
| AdmissionSafety.OneFencingApplied | game/gateway/src/gateway_admission.cpp:33-119 | in such a run at most one fencing value of a pair is ever told Applied, and it is the consumed one |
| AdmissionLeases.OutlivesExactly | game/gateway/src/admission_consumption_store.cpp:252-264 | a lease that runs out while no gateway is behind the reading it was asked for with, both measured against etcd's clock, leaves every gateway past the window; at the moment it runs out this is if and only if |
| AdmissionLeases.InStepIsTimely | game/gateway/src/admission_consumption_store.cpp:566-575 | in every run whose leases run out so, no key goes before its window is over on every gateway's clock, through retries, takeovers and puts that land late under an old lease |
| AdmissionLeases.ConsumedOnceInStep | game/gateway/src/admission_consumption_store.cpp:418-447 | in every such run a pair is committed at most once |
| AdmissionRuns.AgainIfAccepted | game/gateway/src/admission_consumption_store.cpp:522-585 | the converse: from any state, once its key has gone a consumed pair that some gateway still accepts can be committed again |
| AdmissionRuns.SkewedGateway | game/gateway/src/admission_consumption_store.cpp:252-264 | for any two gateways of which the second still accepts the pair when the first one's lease runs out, the whole run that commits it twice |
| AdmissionRuns.SkewHappens | game/gateway/src/admission_consumption_store.cpp:252-264 | such a deployment, with the clocks a single second apart |
| AdmissionWinner.OneWinner | game/gateway/src/admission_consumption_store.cpp:362-468 | unless its key goes while some gateway could still accept the pair, all that are told Applied for a pair are one and the same reservation, the one that consumed it |
| AdmissionRuns.TwoWinnersPossible | game/gateway/src/admission_consumption_store.cpp:391-447 | from any state in which the key has gone, a gateway still accepts the pair and an old reservation of it can still be committed, whatever its fencing value, there is a run after which two owners have both been told Applied |
| AdmissionRuns.TwoWinnersRun | game/gateway/src/admission_consumption_store.cpp:522-765 | such a run from the start, for two grants of one identity, on clocks in step all along |
| AdmissionRuns.TwoWinnersHappen | game/gateway/src/admission_consumption_store.cpp:522-765 | a deployment that has it |
| AdmissionSafety.AcceptedInWindow | game/gateway/src/gateway_admission.cpp:38-57 | credentials that both verifiers accept are inside the store's consumption window |
| AdmissionSafety.ClockStepsBack | game/gateway/src/admission_consumption_store.cpp:370-401 | for all readings: a consumed record that another grant reserved past its window and gave back is granted to the first grant again, and can then be committed again, if and only if the reading of the giving back is not past the one of the asking; never on clocks that do not step back |
| AdmissionStores.InMemoryStore.Reserve | game/gateway/src/admission_consumption_store.cpp:362-418 | one atomic reserve on the record, or nothing and an exception on a malformed call |
| AdmissionStores.InMemoryStore.Commit | game/gateway/src/admission_consumption_store.cpp:420-448 | one atomic commit |
| AdmissionStores.InMemoryStore.Release | game/gateway/src/admission_consumption_store.cpp:450-468 | one atomic release |
| AdmissionStores.EtcdStore.Judge | game/gateway/src/admission_consumption_store.cpp:533-562 | what a loaded record means for a reserve |
| AdmissionStores.EtcdStore.Round | game/gateway/src/admission_consumption_store.cpp:531-583 | one load, lease and compare-and-put, whatever the responses, is that many steps of the protocol |
| AdmissionStores.EtcdStore.Reserve | game/gateway/src/admission_consumption_store.cpp:522-585 | the retry loop answers what the protocol answers on the same responses, posts the same writes, at most one an attempt, and keeps the availability flag |
| AdmissionStores.EtcdStore.Mutate | game/gateway/src/admission_consumption_store.cpp:712-765 | the same of commit and release |
| GatewayAdmission.WindowIsTight | game/gateway/src/gateway_admission.cpp:38-57 | from acceptance on, a time is within consume_until if and only if both verifiers still accept |
| GatewayAdmission.GatewayAdmission.Reserve | game/gateway/src/gateway_admission.cpp:33-76 | invalid credentials touch nothing; otherwise exactly one store reserve with the computed window, and a fresh handle if and only if it was granted |
| GatewayAdmission.GatewayAdmission.OnAcceptResult | game/gateway/src/gateway_admission.cpp:95-111 | a full transport leaves handle and store; otherwise one commit or release, once per handle |
| GatewayAdmission.GatewayAdmission.Abandon | game/gateway/src/gateway_admission.cpp:113-119 | releases an unused handle and leaves a used one |
| SceneRecords.WriteReadable | game/common/src/player_data_store.cpp:467-579 | an accepted write turns a document the reader accepts into one it accepts, with the next sequence number |
| SceneRecords.FilterIsFullComparison | game/common/src/player_data_store.cpp:523-536 | the update's filter on epoch, owner and sequence matches if and only if the whole record is the one that was read |
| SceneRecords.MissIsFinal | game/common/src/player_data_store.cpp:1303-1312 | once the filter has missed, no later state of the record makes the write acceptable |
| SceneDb.SceneCommitIsSerial | game/common/src/player_data_store.cpp:1185-1283 | a scene transaction that commits on a snapshot does what it would do on the database as it is at commit |
| SceneDb.ShardCommitIsSerial | game/common/src/player_data_store.cpp:1120-1184 | the same of a shard exchange |
| SceneDb.InstanceCommitIsSerial | game/common/src/player_data_store.cpp:1039-1106 | the same of an instance exchange, over all its shards |
| SceneDb.SinceApply | game/common/src/player_data_store.cpp:1120-1210 | no commit makes a running transaction's account of its snapshot untrue |
| SceneDb.ReadsAloneDoNotFence | game/common/src/player_data_store.cpp:1199-1209 | without the guard increment a write commits after its shard has moved to a later version: the increment is needed |
| SceneSafety.Reachable | game/common/src/player_data_store.cpp:979-1340 | every run of concurrent initialize, commit, revoke and exchanges, with lost answers and retried transactions, keeps characters, logs and fences in order |
| SceneSafety.InvStep | game/common/src/player_data_store.cpp:979-1340 | so does every single step |
| SceneSafety.CharacterWritten | game/common/src/player_data_store.cpp:1211-1313 | a write that hits replaces the record that was read and extends its log by one |
| SceneSafety.ShardMatched | game/common/src/player_data_store.cpp:631-655 | an accepted exchange raises the version by one exactly when the owner changes, gives a shard only to a ready instance and never un-drains under one owner |
| SceneGuarantees.WritesOnceInOrder | game/common/src/player_data_store.cpp:1211-1313 | in every run a character's effective writes are 1, 2, 3, … once each, the stored sequence counts them, the stored result is the last one's, and the record is readable |
| SceneGuarantees.ToldTheTruth | game/common/src/scene_store.cpp:33-51 | Committed, Replayed and a read-back resolved as committed are told only of a write that took effect |
| SceneGuarantees.DecisionStands | game/common/src/player_data_store.cpp:538-579 | while a write waits for its update, a match means the record is still the one its check was made on; after a miss the re-read never passes the check |
| SceneGuarantees.FencedIffVersioned | game/common/src/player_data_store.cpp:1185-1283 | of all scene writes that take effect, exactly those with a non-zero shard version name their shard's version and owner of that moment and find it not draining if they bring a character in |
| SceneGuarantees.EveryWriteTraced | game/common/src/player_data_store.cpp:1211-1313 | these are all the writes there are: each character's log is its part of them, in order |
| SceneGuarantees.VersionsFence | game/common/src/player_data_store.cpp:1185-1283 | the writes with a version that take effect on a shard carry non-decreasing versions, one owner a version, and none enters a draining shard |
| SceneRuns.VersionlessLands | game/common/src/player_data_store.cpp:1252-1283 | in every reachable state an acceptable write with version 0 takes effect unfenced and is answered Committed, whatever its shard's record says |
| SceneRuns.DrainingShardEntered | game/common/src/player_data_store.cpp:323-329 | the run, from an empty store, in which a character enters a draining shard so |
| SceneGuarantees.CurrentOwner | game/common/src/player_data_store.cpp:1120-1184 | a shard's version counts the owners it has had, and its record names the last |
| SceneGuarantees.OwnersNeverRewritten | game/common/src/player_data_store.cpp:1120-1184 | no continuation of a run changes the owner of a version |
| SceneGuarantees.DrainReachesEveryShard | game/common/src/player_data_store.cpp:1039-1106 | while an instance drains, so do all shards it holds under its incarnation |
| LoginSafety.Reachable | game/gateway/src/gateway_login_pipeline.cpp:139-777 | every run of frames, with any events, completions, refusals and failures, keeps budgets, index, handles and sessions in order |
| LoginSafety.AdvanceOk | game/gateway/src/gateway_login_pipeline.cpp:139-159 | so does every frame |
| LoginSafety.DroppedOk | game/gateway/src/gateway_login_pipeline.cpp:742-764 | releasing a session leaves it holding nothing and returns each resource once |
| LoginSafety.EndingOk | game/gateway/src/gateway_login_pipeline.cpp:695-740 | so does scheduling a decline or a close, from the middle of any phase |
| LoginSafety.UnhealthyOk | game/gateway/src/gateway_login_pipeline.cpp:766-777 | stopping settles every outstanding handle and leaves no attempt |
| LoginSafety.HandlesSettledOnce | game/gateway/src/gateway_login_pipeline.cpp:545-777 | over every run a granted handle has at most one store mutation, none exactly while a session holds it, and one once the pipeline has stopped |
| LoginSafety.DestructionSettlesAll | game/gateway/src/gateway_login_pipeline.cpp:129-137 | whenever the pipeline is destroyed, after any run, every handle it was ever granted has had exactly one mutation |
| LoginSafety.BeyondPendingMeansCommitted | game/gateway/src/gateway_login_pipeline.cpp:545-671 | a session is fetching or handed off only if its handle's commit was applied |
| LoginSafety.BudgetsExact | game/gateway/src/gateway_login_pipeline.cpp:858-864 | fetch_used is the number of sessions holding a reservation, neither free budget underflows, the attempt map is the inverse of the active attempts, and a closing session holds nothing |
| GatewayLoginPipeline.GatewayLoginPipeline.AdvanceFrame | game/gateway/src/gateway_login_pipeline.cpp:139-159 | a frame as specified, and free budgets that count sessions and reservations |
| GatewayLoginPipeline.GatewayLoginPipeline.PreapplyLifecycle | game/gateway/src/gateway_login_pipeline.cpp:162-186 | opens and closes, as specified |
| GatewayLoginPipeline.GatewayLoginPipeline.ProcessMessages | game/gateway/src/gateway_login_pipeline.cpp:188-258 | messages in order, as specified |
| GatewayLoginPipeline.GatewayLoginPipeline.HandleMessage | game/gateway/src/gateway_login_pipeline.cpp:260-338 | an attach takes handle, fetch reservation and accept intent together, or is declined and holds none of them |
| GatewayLoginPipeline.GatewayLoginPipeline.ApplyHandoffExpiry | game/gateway/src/gateway_login_pipeline.cpp:340-358 | overdue hand-offs close |
| GatewayLoginPipeline.GatewayLoginPipeline.DrainFetchCompletions | game/gateway/src/gateway_login_pipeline.cpp:360-425 | completions, stale ones ignored through the attempt map |
| GatewayLoginPipeline.GatewayLoginPipeline.RecordFetchFailure | game/gateway/src/gateway_login_pipeline.cpp:446-488 | back off and try again, or decline |
| GatewayLoginPipeline.GatewayLoginPipeline.ApplyFetchTimeouts | game/gateway/src/gateway_login_pipeline.cpp:429-444 | overdue attempts are cancelled and count as failures |
| GatewayLoginPipeline.GatewayLoginPipeline.DriveFetchSubmissions | game/gateway/src/gateway_login_pipeline.cpp:490-514 | due fetches are submitted under fresh attempt numbers, and a stopped port stops the pipeline |
| GatewayLoginPipeline.GatewayLoginPipeline.FlushIntents | game/gateway/src/gateway_login_pipeline.cpp:516-543 | intents by priority, ended at once by a stop |
| GatewayLoginPipeline.GatewayLoginPipeline.FlushIntent | game/gateway/src/gateway_login_pipeline.cpp:545-650 | one intent; an accept always has its reservation |
| GatewayLoginPipeline.GatewayLoginPipeline.AcceptIntent | game/gateway/src/gateway_login_pipeline.cpp:545-671 | commit after the transport took the accept, go on only if it was applied |
| GatewayLoginPipeline.GatewayLoginPipeline.End | game/gateway/src/gateway_login_pipeline.cpp:695-740 | schedule a decline or a close and return what is held |
| GatewayLoginPipeline.GatewayLoginPipeline.Drop | game/gateway/src/gateway_login_pipeline.cpp:742-764 | return what is held |
| GatewayLoginPipeline.GatewayLoginPipeline.StopPipeline | game/gateway/src/gateway_login_pipeline.cpp:766-777 | stop, releasing every handle |
| GatewayLoginPipeline.GatewayLoginPipeline.Mutate | game/gateway/src/gateway_admission.cpp:95-119 | a handle's one use, guarded by its terminal flag |
| QueueLedger.EachNumberOnce | game/queue/src/queue_core.cpp:12-34 | in a valid ledger each number above the pruned ones and up to the watermark is in exactly one batch, and no other number is in any |
| QueueLedger.PruneKeepsEligibility | game/queue/src/queue_core.cpp:173-182 | pruning leaves every number's status at all later times, and the release time of what is eligible |
| QueueLedger.ReleaseAddsTheNext | game/queue/src/queue_core.cpp:87-117 | a release makes exactly the next numbers eligible, for exactly one window, and changes no other number's standing |
| QueueLedger.RollbackNeverThrows | game/queue/src/queue_service.cpp:147-173 | the ledger before any release that succeeded can be restored |
| QueueLedger.FrameKeepsPromises | game/queue/src/queue_service.cpp:147-173 | a frame fails if and only if the clock went back across batches, before changing anything; one that releases or saves nothing changes no number's standing |
| QueueCore.Validate | game/queue/src/queue_core.cpp:12-34 | the loop accepts exactly the ledgers that tile (pruned, released] in time order with released below next |
| QueueCore.QueueCore.ReleaseBatch | game/queue/src/queue_core.cpp:87-117 | a release of the smallest of budgets, step and waiting numbers, or a refusal that changes nothing; the ledger stays valid |
| QueueCore.QueueCore.ReleaseEligibility | game/queue/src/queue_core.cpp:119-141 | the scan finds the number's standing |
| QueueCore.QueueCore.Restore | game/queue/src/queue_core.cpp:143-159 | takes exactly valid snapshots without future releases, and otherwise changes nothing |
| QueueCore.QueueCore.Snapshot | game/queue/src/queue_core.cpp:161-171 | the whole ledger |
| QueueCore.QueueCore.PruneReleaseBatches | game/queue/src/queue_core.cpp:173-182 | drops the batches whose window and leeway are over, and no other |
| QueueSystem.WholeStep | game/queue/src/queue_service.cpp:80-179 | whatever lands and when, the service's ledger, the stored one and all in flight stay valid |
| QueueSystem.LevelExactly | game/queue/src/queue_store.cpp:695-709 | over any run of issues, recoveries, release frames with lost, failed or late saves, lapsed leases and restarts: at every point the store shows each release at the time the service showed it and is not behind, if and only if no request lands that lacks a release shown since or has it at another second |
| QueueSystem.ReleasesStand | game/queue/src/queue_service.cpp:86-179 | in every run without such a landing, whatever was ever shown as released stands: same release time, same end, to the service and to every later restart |
| QueueSystem.LateSaveRetimes | game/queue/src/queue_store.cpp:695-709 | the run with such a landing after which a restart shows a released number at another time |
| QueueSystem.SameGrantAlways | game/queue/src/queue_ticketing.cpp:99-153 | in every run without such a landing, any two queries that admit a number hand out the same grant, on any two clock readings |
| QueueSystem.NumberedExactly | game/queue/src/queue_store.cpp:482-612 | over any run: at every point service and store agree on the next number, and the numbers given are 1, 2, 3, …, if and only if every fresh issue is made on a clock not behind the last release by more than the leeway, every late save carries the stored counter, and every late issue carries the next number while no service would give it out |
| QueueSystem.EveryNumberOnce | game/queue/src/queue_store.cpp:482-612 | in every such run no number is ever given twice |
| QueueSystem.LostCountRepeats | game/queue/src/queue_store.cpp:482-560 | in any state in which the service's count is behind the store's, the next fresh issue gives a number out again |
| QueueSystem.LateIssueTwice | game/queue/src/queue_store.cpp:482-560 | the runs in which an issue that was given up lands, before or after another identity is given the same number |
| QueueSystem.CountKeptExactly | game/queue/src/queue_ticketing.cpp:68-97 | a fresh issue leaves service and store at one count if and only if its clock is not behind the last release by more than the leeway |
| QueueSystem.TwoIdentitiesOneNumber | game/queue/src/queue_ticketing.cpp:80 | otherwise the restore throws after the commit and the next identity is given the same number |
| QueueSystem.AnswersAreStored | game/queue/src/queue_store.cpp:482-612 | an answer is given only of a stored mapping, and asking again while it stands gives the same answer and no new number |
| QueueSystem.RestartStarts | game/queue/src/queue_store.cpp:662-693 | the startup checks of snapshot and mappings never refuse what such runs have stored |
| QueueService.QueueService.IssueOrRecover | game/queue/src/queue_store.cpp:482-612 | the transaction, its answer, the read-back of a lost one, and the flag that ends issuing when neither is known |
| QueueService.QueueService.Issue | game/queue/src/queue_ticketing.cpp:68-97 | an issue is that step of the queue system |
| QueueService.QueueService.ReleaseFrame | game/queue/src/queue_service.cpp:147-179 | publish once saved, roll back otherwise; which exception leaves it, and when |
| QueueService.QueueService.CheckMappings | game/queue/src/queue_store.cpp:393-458 | the scan accepts exactly distinct positive numbers below the snapshot's counter with ordered times |
| QueueService.QueueService.Start | game/queue/src/queue_service.cpp:80-101 | a restart from snapshot and mappings, or none |
| QueueTicketing.QueryNeverThrows | game/queue/src/queue_ticketing.cpp:99-153 | a query never throws, and admits if and only if the number is valid and its release still eligible within the token's life |
| QueueTicketing.SameGrantEveryTime | game/queue/src/queue_ticketing.cpp:127-135 | as long as the release time stands, a number's grant is one and the same |
| QueueTicketing.NothingOutlivesItsSource | game/common/src/queue_number_v2.cpp:85-110 | grant expiry ≤ number expiry ≤ identity expiry |
| QueueTicketing.GrantAcceptedExactly | game/common/src/admission_grant.cpp:133-196 | a gateway with the same policy accepts an admitted number's grant exactly from its release less the leeway to its expiry plus the leeway |
| QueueTicketing.TruncatedSpan | game/common/src/admission_grant.cpp:73-109 | truncation to seconds never lengthens a span of whole seconds, also before the epoch |
| ServiceGraph.RankedIsAcyclic | framework/service_host/src/startup_topology.cpp:88-92 | a rank that falls along every dependency rules out cycles |
| ServiceGraph.StuckMeansCycle | framework/service_host/src/startup_topology.cpp:81-83 | services that all wait for one another contain a cycle |
| StartupOrder.Validate | framework/service_host/src/startup_topology.cpp:15-37 | the two scans accept exactly distinct names with known dependencies, none on an entry service |
| StartupOrder.IndexNames | framework/service_host/src/startup_topology.cpp:46-50 | each name's index |
| StartupOrder.ReverseEdges | framework/service_host/src/startup_topology.cpp:52-61 | each service's dependents, once per edge |
| StartupOrder.Kahn | framework/service_host/src/startup_topology.cpp:63-83 | the queue takes out services after all they depend on, and takes out all of them unless there is a cycle |
| StartupOrder.Take | framework/service_host/src/startup_topology.cpp:69-79 | one service taken out: its dependents' counters fall and those at zero are queued |
| StartupOrder.Tell | framework/service_host/src/startup_topology.cpp:72-78 | one dependent told |
| StartupOrder.Depths | framework/service_host/src/startup_topology.cpp:85-92 | each service one deeper than its deepest dependency |
| StartupOrder.LayersRank | framework/service_host/src/startup_topology.cpp:85-92 | such depths fall along every dependency |
| StartupTopology.Build | framework/service_host/src/startup_topology.cpp:41-113 | the constructor succeeds if and only if the names are valid and the dependency graph is acyclic |
| StartupTopology.Assemble | framework/service_host/src/startup_topology.cpp:94-113 | the waves of the depths, entry services last |
| StartupTopology.WavesPartition | framework/service_host/src/startup_topology.cpp:94-113 | every service is in exactly one wave, once, and nothing else is in any |
| StartupTopology.WavesRespectDependencies | framework/service_host/src/startup_topology.cpp:85-113 | a dependency is in a strictly earlier wave, a service in the earliest wave that allows it, entry services in the last |
| StartupTopology.NoEmptyWave | framework/service_host/src/startup_topology.cpp:94-113 | no wave is empty |
| StartupTopology.ShutdownOrder | framework/service_host/src/startup_topology.cpp:120-130 | the waves backwards |
| StartupTopology.EachStopsOnce | framework/service_host/src/startup_topology.cpp:120-130 | the shutdown list holds every service exactly once and nothing else |
| StartupTopology.DependentsStopFirst | framework/service_host/src/startup_topology.cpp:120-130 | shutting down stops every service before anything it depends on |
| JsonCodec.RoundTrip | game/common/src/json.cpp:286-354 | decoding what was encoded gives back every flat object of byte strings, 64-bit integers and booleans within the size limit |
| JsonCodec.OneListing | game/common/src/json.cpp:286-301 | an object has one listing of its members in key order, so one text |
| JsonCodec.DecodeEncode | game/common/src/json.cpp:303-354 | the same, entry by entry |
| JsonCodec.ObjectOfEntries | game/common/src/json.cpp:321-348 | distinct members make the object that has exactly them |
| JsonCodec.StringRead | game/common/src/json.cpp:101-123 | a written string of any bytes is read back and reading stops after its quote |
| JsonCodec.NumberReadIffItFits | game/common/src/json.cpp:219-260 | decimal digits are read if and only if their value fits 64 bits, and then exactly |
| JsonCodec.DigitsFacts | game/common/src/json.cpp:66-74 | the written digits have the number's value and no leading zero |
| JsonParser.AppendString | game/common/src/json.cpp:47-64 | the loop over bytes writes the quoted, escaped string |
| JsonParser.EncodeObject | game/common/src/json.cpp:286-301 | the loop over members writes the object |
| JsonParser.DecodeObject | game/common/src/json.cpp:303-354 | the parser accepts and reads exactly what the grammar functions do |
| JsonParser.Parser.SkipWhitespace | game/common/src/json.cpp:81-87 | stops at the first other byte |
| JsonParser.Parser.ReadString | game/common/src/json.cpp:101-123 | as the grammar, and never past the end |
| JsonParser.Parser.ReadEscape | game/common/src/json.cpp:173-188 | as the grammar |
| JsonParser.Parser.ReadUnicodeEscape | game/common/src/json.cpp:190-217 | four hexadecimal digits give the UTF-8 of their value, a surrogate is refused |
| JsonParser.Parser.Magnitude | game/common/src/json.cpp:236-252 | the digit loop in 64-bit arithmetic gives the value if it is within the limit and fails otherwise, with no overflow on the way |
| JsonParser.Parser.ReadNumber | game/common/src/json.cpp:219-260 | as the grammar |
| JsonParser.Parser.ReadValue | game/common/src/json.cpp:125-151 | as the grammar |
| JsonParser.Parser.ReadMember | game/common/src/json.cpp:322-337 | as the grammar |
| JsonParser.Parser.ReadMembers | game/common/src/json.cpp:321-348 | as the grammar; a repeated key is refused |

## Left out

- Sockets, TLS, QUIC, HTTP, etcd and MongoDB client calls, threads: stores are atomic steps, transactions run on a snapshot and commit first come first served, and responses may be lost.
- Cryptography, token encodings, base64 and protobuf: signatures, digests and keyed names are ideal, messages are datatypes and their sizes parameters.
- Lua configuration, logging, metrics, service wiring, command-line tools and scripts.
- ChatLegal.HandleLegal: the 64 KiB envelope limit, the other check of encoding, because wire sizes are parameters here.
- Chat: metrics and the reply's measured duration; enumerations are closed, so range checks of unknown values are trivially true; an absent nested message is an all-zero one.
- Chat client: scene notices and the rewriting of an unknown send outcome; on the chat side such frames appear only as frames that are not chat.
- Admission: key rings, the record's JSON encoding (a record that does not decode is one of the responses), probing and availability refresh beyond the flag each call sets. Reservation owners are never reused; the program's owner strings start again with the gateway process.
- AdmissionSafety.ConsumedAtMostOnce: no clock of a gateway or of etcd steps back in a run; AdmissionSafety.ClockStepsBack says what one that does can do.
- Scene: modelled as steps over values because calls of many processes interleave; document codecs and accounts are left out, the set of owned characters is fixed.
- Login: rate limiting is a verdict in the frame, payloads and tickets carry no content, the retry delay is a parameter, and the order of a hash map is any listing of its keys.
- Queue: measured release rate, wait estimates, budget polling and the queue's lease cache. The lease an issue was made under is not checked when it lands.
- QueueSystem.NumberedExactly: assumes one active queue service over its store, as the design does.
- JSON: the typed member lookups, which add nothing to the codec.
- Session tickets, replay guard, connection table, base64url and CIDR matching: simpler than what is here.
