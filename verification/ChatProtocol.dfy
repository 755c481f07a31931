/** The chat wire messages and the validators that every encoded or decoded message must pass.

    A nested message that a validator always requires (a link, an epoch's channel, a push's
    message) is a plain field: an absent one reads as the all-zero message, which the same
    validator rejects.  A nested message whose absence some validator demands is an `Option`. */
module ChatProtocol {
  import opened Basics
  import opened ChatText

  const COUNTER_MAX: nat := 0x7FFF_FFFF_FFFF_FFFF
  const RETRY_AFTER_MS_MAX: nat := 1000
  const IDENTITY_MAX: nat := 128

  type Name = seq<char>

  datatype ChannelKind = KindUnspecified | KindScene | KindRealm
  datatype Channel = Channel(realmId: nat, kind: ChannelKind, shardId: nat)
  datatype Epoch = Epoch(channel: Channel, chatIncarnation: Name)
  datatype Membership = Membership(channel: Channel, characterId: nat, realmIncarnation: Name,
                                   sessionBinding: nat, generation: nat, sceneBindingEpoch: nat)
  datatype Receipt = Receipt(epoch: Epoch, channelSeq: nat, clientSendSeq: nat)
  datatype Link = Link(realmId: nat, realmInstanceId: Name, realmIncarnation: Name,
                       chatInstanceId: Name, chatIncarnation: Name, linkGeneration: nat)

  datatype Phase = PhaseUnspecified | PhaseUnavailable | PhaseActive
  datatype Outcome = OutcomeUnspecified | OutcomeAccepted | OutcomeRejected | OutcomeUnknown
  datatype Reason = ReasonNone | ReasonNotConfigured | ReasonUnavailable | ReasonNotMember
    | ReasonStaleMembership | ReasonWrongEpoch | ReasonInvalidText | ReasonRateLimited
    | ReasonBusy | ReasonDeadline | ReasonOutcomeLost | ReasonInvalidSequence
    | ReasonSequenceConflict | ReasonGap | ReasonResourceLimit | ReasonCounterExhausted
  datatype Operation = OpUnspecified | OpHello | OpJoin | OpLeave | OpSend | OpState
  datatype Status = StatusUnspecified | StatusOk | StatusInvalid | StatusStaleLink
    | StatusStaleMembership | StatusForbidden | StatusBusy | StatusUnavailable

  datatype ChatState = ChatState(kind: ChannelKind, phase: Phase, generation: nat,
                                 epoch: Option<Epoch>, joinWatermark: nat, lastClientSendSeq: nat,
                                 lastReceipt: Option<Receipt>, reason: Reason)
  datatype SendChat = SendChat(kind: ChannelKind, generation: nat, expectedEpoch: Epoch,
                               clientSendSeq: nat, text: Text)
  datatype SendResult = SendResult(kind: ChannelKind, generation: nat, epoch: Epoch,
                                   clientSendSeq: nat, outcome: Outcome, reason: Reason,
                                   receipt: Option<Receipt>, retryAfterMs: nat)
  datatype ChatMessage = ChatMessage(generation: nat, epoch: Epoch, channelSeq: nat,
                                     senderCharacterId: nat, text: Text)
  datatype ChatUnavailable = ChatUnavailable(kind: ChannelKind, reason: Reason, rejoinRequired: bool)
  datatype Request = Request(link: Link, operation: Operation, membership: Option<Membership>,
                             send: Option<SendChat>)
  datatype Reply = Reply(link: Link, operation: Operation, status: Status,
                         membership: Option<Membership>, state: Option<ChatState>,
                         result: Option<SendResult>)
  datatype Push = Push(link: Link, membership: Membership, message: ChatMessage)

  predicate IsCounter(value: nat) { value != 0 && value <= COUNTER_MAX }

  predicate IsKind(kind: ChannelKind) { kind.KindScene? || kind.KindRealm? }

  predicate IsIdentity(name: Name) {
    name != [] && |name| <= IDENTITY_MAX && forall i :: 0 <= i < |name| ==> '!' <= name[i] <= '~'
  }

  predicate ValidChannel(m: Channel) {
    && m.realmId != 0 && IsKind(m.kind)
    && (if m.kind.KindScene? then m.shardId == 1 || m.shardId == 2 else m.shardId == 0)
  }

  predicate ValidEpoch(m: Epoch) { ValidChannel(m.channel) && IsIdentity(m.chatIncarnation) }

  predicate ValidMembership(m: Membership) {
    && ValidChannel(m.channel) && m.characterId != 0
    && IsIdentity(m.realmIncarnation) && m.sessionBinding != 0 && IsCounter(m.generation)
    && (if m.channel.kind.KindScene? then IsCounter(m.sceneBindingEpoch) else m.sceneBindingEpoch == 0)
  }

  predicate ValidReceipt(m: Receipt) {
    && ValidEpoch(m.epoch) && IsCounter(m.channelSeq) && IsCounter(m.clientSendSeq)
    && m.channelSeq >= m.clientSendSeq
  }

  predicate ValidSend(m: SendChat, id: nat) {
    && id != 0 && IsKind(m.kind) && IsCounter(m.generation)
    && ValidEpoch(m.expectedEpoch)
    && m.expectedEpoch.channel.kind == m.kind && IsCounter(m.clientSendSeq) && ValidChatText(m.text)
  }

  predicate ValidState(m: ChatState, id: nat) {
    && id != 0 && IsKind(m.kind)
    && if m.phase.PhaseUnavailable? then
         && m.reason != ReasonNone && m.generation == 0
         && m.epoch.None? && m.joinWatermark == 0 && m.lastClientSendSeq == 0 && m.lastReceipt.None?
       else
         && m.phase.PhaseActive? && m.reason == ReasonNone
         && IsCounter(m.generation) && m.epoch.Some? && ValidEpoch(m.epoch.value)
         && m.epoch.value.channel.kind == m.kind && m.joinWatermark <= COUNTER_MAX
         && m.lastClientSendSeq <= COUNTER_MAX
         && if m.lastClientSendSeq == 0 then m.lastReceipt.None?
            else
              && m.lastReceipt.Some? && ValidReceipt(m.lastReceipt.value)
              && m.lastReceipt.value.clientSendSeq == m.lastClientSendSeq
              && m.lastReceipt.value.epoch == m.epoch.value
              && m.lastReceipt.value.channelSeq > m.joinWatermark
              && m.lastReceipt.value.channelSeq - m.joinWatermark >= m.lastClientSendSeq
  }

  predicate ValidResult(m: SendResult, id: nat) {
    && id != 0 && IsKind(m.kind) && IsCounter(m.generation)
    && ValidEpoch(m.epoch) && m.epoch.channel.kind == m.kind
    && IsCounter(m.clientSendSeq)
    && if m.outcome.OutcomeAccepted? then
         && m.reason == ReasonNone && m.retryAfterMs == 0 && m.receipt.Some?
         && ValidReceipt(m.receipt.value) && m.receipt.value.epoch == m.epoch
         && m.receipt.value.clientSendSeq == m.clientSendSeq
       else
         && m.receipt.None?
         && if m.outcome.OutcomeUnknown? then
              && m.retryAfterMs == 0
              && (m.reason == ReasonDeadline || m.reason == ReasonOutcomeLost || m.reason == ReasonUnavailable)
            else
              && m.outcome.OutcomeRejected? && m.reason != ReasonNone
              && m.reason != ReasonOutcomeLost && m.reason != ReasonGap
              && if m.reason == ReasonRateLimited || m.reason == ReasonBusy || m.reason == ReasonResourceLimit
                 then m.retryAfterMs != 0 && m.retryAfterMs <= RETRY_AFTER_MS_MAX
                 else m.retryAfterMs == 0
  }

  predicate ValidMessage(m: ChatMessage, id: nat) {
    && id == 0 && IsCounter(m.generation) && ValidEpoch(m.epoch)
    && IsCounter(m.channelSeq) && m.senderCharacterId != 0 && ValidChatText(m.text)
  }

  predicate ValidLink(m: Link, hello: bool) {
    && m.realmId != 0 && IsIdentity(m.realmInstanceId) && IsIdentity(m.realmIncarnation)
    && IsIdentity(m.chatInstanceId)
    && if hello then m.chatIncarnation == [] && m.linkGeneration == 0
       else IsIdentity(m.chatIncarnation) && IsCounter(m.linkGeneration)
  }

  predicate MatchesLink(m: Membership, l: Link) {
    ValidMembership(m) && m.channel.realmId == l.realmId && m.realmIncarnation == l.realmIncarnation
  }

  predicate MatchesEpoch(e: Epoch, m: Membership, l: Link) {
    e.channel == m.channel && e.chatIncarnation == l.chatIncarnation
  }

  predicate ValidRequest(m: Request, id: nat) {
    && id != 0 && m.operation != OpUnspecified
    && ValidLink(m.link, m.operation == OpHello)
    && if m.operation == OpHello then m.membership.None? && m.send.None?
       else
         && m.membership.Some? && MatchesLink(m.membership.value, m.link)
         && if m.operation != OpSend then m.send.None?
            else
              && m.send.Some? && ValidSend(m.send.value, id)
              && m.send.value.generation == m.membership.value.generation
              && MatchesEpoch(m.send.value.expectedEpoch, m.membership.value, m.link)
  }

  predicate ValidReply(m: Reply, id: nat) {
    && id != 0 && m.operation != OpUnspecified && m.status != StatusUnspecified
    && ValidLink(m.link, m.operation == OpHello && m.status != StatusOk)
    && if m.status != StatusOk || m.operation == OpHello then
         m.membership.None? && m.state.None? && m.result.None?
       else
         && m.membership.Some? && MatchesLink(m.membership.value, m.link)
         && if m.operation == OpLeave then m.state.None? && m.result.None?
            else if m.operation == OpSend then
              && m.state.None? && m.result.Some? && ValidResult(m.result.value, id)
              && m.result.value.generation == m.membership.value.generation
              && MatchesEpoch(m.result.value.epoch, m.membership.value, m.link)
            else
              && m.result.None? && m.state.Some? && ValidState(m.state.value, id)
              && m.state.value.phase.PhaseActive?
              && m.state.value.generation == m.membership.value.generation
              && MatchesEpoch(m.state.value.epoch.value, m.membership.value, m.link)
  }

  predicate ValidPush(m: Push, id: nat) {
    && id == 0 && ValidLink(m.link, false)
    && MatchesLink(m.membership, m.link) && ValidMessage(m.message, 0)
    && m.message.generation == m.membership.generation
    && MatchesEpoch(m.message.epoch, m.membership, m.link)
  }
}
