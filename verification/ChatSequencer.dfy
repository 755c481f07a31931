/** What the chat sequencer does, as functions from state to state.

    `State` holds the sequencer's own fields and two history variables that the program does
    not have: `delivered`, every push ever handed to the transport, and `log`, every message
    ever accepted in a channel.  Time is counted in clock ticks, tokens in reals. */
module ChatSequencer {
  import opened Basics
  import opened ChatProtocol
  import opened ChatText

  const PEER_MAX: nat := 0xFFFF_FFFF_FFFF_FFFF
  const TRANSPORT_CONNECTIONS_MAX: nat := 16
  const CHARACTERS_MAX: nat := 64
  const MEMBERSHIPS_PER_CHARACTER_MAX: nat := 2
  const SCENE_MEMBERS_MAX: nat := 16
  const REALM_MEMBERS_MAX: nat := 64
  const REQUESTS_PER_ROUND_MAX: nat := 64
  const PUSHES_PER_ROUND_MAX: nat := 64
  const SEND_BURST: real := 10.0
  const SEND_RATE: real := 5.0
  const TICKS_PER_SECOND: real := 1000000000.0

  /** `payloadSize` stands for the encoded size of a push. */
  datatype Config = Config(realmId: nat, realmInstanceId: Name, instanceId: Name, incarnation: Name,
                           shards: set<nat>, pendingRequests: nat, queuedPerLink: nat,
                           pendingPushes: nat, pendingPushBytes: nat, operationTimeout: nat,
                           payloadSize: Push -> nat)

  datatype Pending = Pending(request: Request, id: nat, deadline: int)
  datatype LinkState = LinkState(link: Option<Link>, highestGeneration: nat, requests: seq<Pending>)
  datatype Member = Member(peer: nat, membership: Membership, state: ChatState, lastText: Text,
                           tokens: real, refill: int)
  datatype ChannelState = ChannelState(epoch: Epoch, sequence: nat, members: map<nat, Member>)
  datatype QueuedReply = QueuedReply(peer: nat, requestId: nat, message: Reply)
  datatype PendingPush = PendingPush(peer: nat, membership: Membership, push: Push)

  /** One stay of one membership: the connection and the established link it joined over. */
  datatype Key = Key(peer: nat, link: Link, membership: Membership)
  datatype Post = Post(author: Key, clientSendSeq: nat, text: Text, acceptedAt: int)

  datatype State = State(channels: map<nat, ChannelState>, links: map<nat, LinkState>,
                         replies: seq<QueuedReply>, pushes: seq<PendingPush>, closedPeers: seq<nat>,
                         pending: int, pushBytes: int, linkGeneration: nat, nextPeer: nat,
                         delivered: seq<PendingPush>, log: map<nat, seq<Post>>)

  predicate ValidConfig(c: Config) {
    && c.realmId != 0 && IsIdentity(c.realmInstanceId) && IsIdentity(c.instanceId) && IsIdentity(c.incarnation)
    && c.shards != {} && c.shards <= {0, 1, 2}
    && 0 < c.pendingRequests <= 64 && 0 < c.queuedPerLink <= 8
    && 0 < c.pendingPushes <= 1024 && 0 < c.pendingPushBytes <= 4 * 1024 * 1024
    && 0 < c.operationTimeout
  }

  function EpochOf(c: Config, shard: nat): Epoch {
    Epoch(Channel(c.realmId, if shard == 0 then KindRealm else KindScene, shard), c.incarnation)
  }

  function Initial(c: Config): State {
    State(map shard | shard in c.shards :: ChannelState(EpochOf(c, shard), 0, map[]), map[],
          [], [], [], 0, 0, 0, 0, [], map shard | shard in c.shards :: [])
  }

  // ---------------------------------------------------------------------------------------
  // Connections

  function Opened(s: State, peer: nat): (State, bool) {
    if peer == 0 || peer in s.links || |s.links| + |s.closedPeers| >= TRANSPORT_CONNECTIONS_MAX then (s, false)
    else (s.(links := s.links[peer := LinkState(None, 0, [])]), true)
  }

  function WithoutReplies(rs: seq<QueuedReply>, peer: nat): seq<QueuedReply> {
    if rs == [] then []
    else WithoutReplies(rs[..|rs| - 1], peer) + (if rs[|rs| - 1].peer == peer then [] else [rs[|rs| - 1]])
  }

  function WithoutPushes(ps: seq<PendingPush>, peer: nat): seq<PendingPush> {
    if ps == [] then []
    else WithoutPushes(ps[..|ps| - 1], peer) + (if ps[|ps| - 1].peer == peer then [] else [ps[|ps| - 1]])
  }

  function WithoutMembers(channels: map<nat, ChannelState>, peer: nat): map<nat, ChannelState> {
    map shard | shard in channels ::
      channels[shard].(members := map id | id in channels[shard].members && channels[shard].members[id].peer != peer
                                    :: channels[shard].members[id])
  }

  function Bytes(c: Config, ps: seq<PendingPush>): nat {
    if ps == [] then 0 else Bytes(c, ps[..|ps| - 1]) + c.payloadSize(ps[|ps| - 1].push)
  }

  function Closed(c: Config, s: State, peer: nat): State {
    var queued := if peer in s.links then |s.links[peer].requests| else 0;
    var replies := WithoutReplies(s.replies, peer);
    var pushes := WithoutPushes(s.pushes, peer);
    s.(links := s.links - {peer},
       replies := replies,
       pending := s.pending - queued - (|s.replies| - |replies|),
       pushes := pushes,
       pushBytes := s.pushBytes - (Bytes(c, s.pushes) - Bytes(c, pushes)),
       channels := WithoutMembers(s.channels, peer))
  }

  // ---------------------------------------------------------------------------------------
  // Admission of requests

  datatype SubmitOutcome = SubmitRefused | SubmitInvalid | SubmitQueued

  /** An absent nested message reads as the all-zero message. */
  function MembershipOf(r: Request): Membership {
    if r.membership.Some? then r.membership.value
    else Membership(Channel(0, KindUnspecified, 0), 0, [], 0, 0, 0)
  }

  function SendOf(r: Request): SendChat {
    if r.send.Some? then r.send.value
    else SendChat(KindUnspecified, 0, Epoch(Channel(0, KindUnspecified, 0), []), 0, [])
  }

  predicate SameSend(queued: Request, request: Request) {
    && queued.operation == OpSend && request.operation == OpSend
    && MembershipOf(queued).generation == MembershipOf(request).generation
  }

  predicate ReplyOfSameSend(reply: QueuedReply, peer: nat, request: Request) {
    && reply.peer == peer && reply.message.operation == OpSend && request.operation == OpSend
    && reply.message.membership.Some?
    && reply.message.membership.value.generation == MembershipOf(request).generation
  }

  predicate SendInFlight(s: State, peer: nat, request: Request)
    requires peer in s.links
  {
    || (exists i :: 0 <= i < |s.links[peer].requests| && SameSend(s.links[peer].requests[i].request, request))
    || (exists i :: 0 <= i < |s.replies| && ReplyOfSameSend(s.replies[i], peer, request))
  }

  function Submit(c: Config, s: State, peer: nat, request: Request, id: nat, now: int): (State, SubmitOutcome) {
    if peer !in s.links then (s, SubmitRefused)
    else
      var link := s.links[peer];
      if SendInFlight(s, peer, request) || s.pending >= c.pendingRequests || |link.requests| >= c.queuedPerLink then
        (s, SubmitRefused)
      else if !ValidRequest(request, id) then (s, SubmitInvalid)
      else
        var queue := link.requests + [Pending(request, id, now + c.operationTimeout)];
        (s.(links := s.links[peer := link.(requests := queue)], pending := s.pending + 1), SubmitQueued)
  }

  // ---------------------------------------------------------------------------------------
  // Handling one request

  function Refuse(r: Request, status: Status): Reply {
    Reply(r.link, r.operation, status, None, None, None)
  }

  function Established(links: map<nat, LinkState>): set<nat> {
    set peer | peer in links && links[peer].link.Some?
  }

  /** HELLO closes every other established link and remembers it for the transport. */
  function Replace(c: Config, s: State, peers: seq<nat>): State {
    if peers == [] then s
    else
      var rest := Replace(c, s, peers[..|peers| - 1]);
      var closed := Closed(c, rest, peers[|peers| - 1]);
      closed.(closedPeers := closed.closedPeers + [peers[|peers| - 1]])
  }

  function Hello(c: Config, s: State, peer: nat, r: Request): (State, Reply)
    requires peer in s.links
  {
    if s.links[peer].link.Some? || s.linkGeneration >= COUNTER_MAX then (s, Refuse(r, StatusInvalid))
    else
      var replaced := Replace(c, s, Ascending(Established(s.links) - {peer}));
      var generation := s.linkGeneration + 1;
      var installed := r.link.(linkGeneration := generation, chatIncarnation := c.incarnation);
      (replaced.(linkGeneration := generation,
                 links := replaced.links[peer := s.links[peer].(link := Some(installed))]),
       Refuse(r, StatusOk).(link := installed))
  }

  predicate Live(channels: map<nat, ChannelState>, shard: nat, id: nat) {
    shard in channels && id in channels[shard].members
  }

  predicate IsMember(channels: map<nat, ChannelState>, peer: nat, m: Membership) {
    && Live(channels, m.channel.shardId, m.characterId)
    && channels[m.channel.shardId].members[m.characterId].peer == peer
    && channels[m.channel.shardId].members[m.characterId].membership == m
  }

  function Characters(channels: map<nat, ChannelState>): set<nat> {
    set shard, id | shard in channels && id in channels[shard].members :: id
  }

  function Qualifications(channels: map<nat, ChannelState>, id: nat): set<nat> {
    set shard | shard in channels && id in channels[shard].members
  }

  function Capacity(kind: ChannelKind): nat {
    if kind.KindScene? then SCENE_MEMBERS_MAX else REALM_MEMBERS_MAX
  }

  function FreshMember(channel: ChannelState, peer: nat, m: Membership, now: int): Member {
    Member(peer, m, ChatState(channel.epoch.channel.kind, PhaseActive, m.generation, Some(channel.epoch),
                              channel.sequence, 0, None, ReasonNone), [], SEND_BURST, now)
  }

  predicate JoinBusy(channels: map<nat, ChannelState>, shard: nat, id: nat)
    requires shard in channels
  {
    var members := channels[shard].members;
    || (id !in members && |members| >= Capacity(channels[shard].epoch.channel.kind))
    || (id !in Characters(channels) && |Characters(channels)| >= CHARACTERS_MAX)
    || (id !in members && |Qualifications(channels, id)| >= MEMBERSHIPS_PER_CHARACTER_MAX)
  }

  function WithMember(channels: map<nat, ChannelState>, shard: nat, id: nat, member: Member): map<nat, ChannelState>
    requires shard in channels
  {
    channels[shard := channels[shard].(members := channels[shard].members[id := member])]
  }

  function Join(s: State, peer: nat, r: Request, now: int): (State, Reply)
    requires peer in s.links && MembershipOf(r).channel.shardId in s.channels
  {
    var m := MembershipOf(r);
    var shard := m.channel.shardId;
    var ok := Refuse(r, StatusOk).(membership := Some(m));
    if IsMember(s.channels, peer, m) then
      (s, ok.(state := Some(s.channels[shard].members[m.characterId].state)))
    else if m.generation <= s.links[peer].highestGeneration then (s, Refuse(r, StatusStaleMembership))
    else if JoinBusy(s.channels, shard, m.characterId) then (s, Refuse(r, StatusBusy))
    else
      var joined := FreshMember(s.channels[shard], peer, m, now);
      (s.(links := s.links[peer := s.links[peer].(highestGeneration := m.generation)],
          channels := WithMember(s.channels, shard, m.characterId, joined)),
       ok.(state := Some(joined.state)))
  }

  function Leave(s: State, peer: nat, r: Request): (State, Reply)
    requires peer in s.links && MembershipOf(r).channel.shardId in s.channels
  {
    var m := MembershipOf(r);
    var shard := m.channel.shardId;
    var link := s.links[peer];
    var highest := if link.highestGeneration < m.generation then m.generation else link.highestGeneration;
    var channel := s.channels[shard];
    var channels := if IsMember(s.channels, peer, m) then
                      s.channels[shard := channel.(members := channel.members - {m.characterId})]
                    else s.channels;
    (s.(links := s.links[peer := link.(highestGeneration := highest)], channels := channels),
     Refuse(r, StatusOk).(membership := Some(m)))
  }

  // ---------------------------------------------------------------------------------------
  // Sending

  function Rejected(result: SendResult, reason: Reason): SendResult {
    result.(outcome := OutcomeRejected, reason := reason,
            retryAfterMs := if reason == ReasonRateLimited || reason == ReasonResourceLimit
                            then RETRY_AFTER_MS_MAX else result.retryAfterMs)
  }

  function Earned(elapsed: int): real { elapsed as real / TICKS_PER_SECOND * SEND_RATE }

  function Refilled(member: Member, now: int): Member {
    if now > member.refill then
      var tokens := member.tokens + Earned(now - member.refill);
      member.(tokens := if tokens < SEND_BURST then tokens else SEND_BURST, refill := now)
    else member
  }

  const NO_LINK := Link(0, [], [], [], [], 0)

  function LinkOf(links: map<nat, LinkState>, peer: nat): Link {
    if peer in links && links[peer].link.Some? then links[peer].link.value else NO_LINK
  }

  function KeyOf(links: map<nat, LinkState>, member: Member): Key {
    Key(member.peer, LinkOf(links, member.peer), member.membership)
  }

  function PushTo(links: map<nat, LinkState>, recipient: Member, epoch: Epoch, channelSeq: nat,
                  sender: nat, text: Text): PendingPush {
    PendingPush(recipient.peer, recipient.membership,
                Push(LinkOf(links, recipient.peer), recipient.membership,
                     ChatMessage(recipient.membership.generation, epoch, channelSeq, sender, text)))
  }

  /** One push for each listed member, in the order listed. */
  function Fanout(links: map<nat, LinkState>, channel: ChannelState, ids: seq<nat>, channelSeq: nat,
                  sender: nat, text: Text): seq<PendingPush>
    requires forall i :: 0 <= i < |ids| ==> ids[i] in channel.members
  {
    if ids == [] then []
    else Fanout(links, channel, ids[..|ids| - 1], channelSeq, sender, text)
         + [PushTo(links, channel.members[ids[|ids| - 1]], channel.epoch, channelSeq, sender, text)]
  }

  /** One push for each member, in ascending order of character. */
  function Reserved(links: map<nat, LinkState>, channel: ChannelState, channelSeq: nat, sender: nat, text: Text): seq<PendingPush> {
    AscendingSorted(channel.members.Keys);
    Fanout(links, channel, Ascending(channel.members.Keys), channelSeq, sender, text)
  }

  predicate BudgetAllows(usedCount: int, usedBytes: int, count: int, bytes: int, countLimit: int, bytesLimit: int) {
    && usedCount <= countLimit && usedBytes <= bytesLimit
    && count <= countLimit - usedCount && bytes <= bytesLimit - usedBytes
  }

  function Send(c: Config, s: State, shard: nat, id: nat, request: SendChat, result: SendResult, now: int): (State, SendResult)
    requires Live(s.channels, shard, id)
  {
    var channel := s.channels[shard];
    var member := channel.members[id];
    var last := member.state.lastClientSendSeq;
    if request.expectedEpoch.chatIncarnation != c.incarnation then (s, Rejected(result, ReasonWrongEpoch))
    else if request.clientSendSeq == last && last != 0 then
      if member.lastText != request.text then (s, Rejected(result, ReasonSequenceConflict))
      else (s, result.(outcome := OutcomeAccepted, receipt := member.state.lastReceipt))
    else if last >= COUNTER_MAX || channel.sequence >= COUNTER_MAX then (s, Rejected(result, ReasonCounterExhausted))
    else if request.clientSendSeq != last + 1 then (s, Rejected(result, ReasonInvalidSequence))
    else
      var refilled := Refilled(member, now);
      var s1 := s.(channels := WithMember(s.channels, shard, id, refilled));
      if refilled.tokens < 1.0 then (s1, Rejected(result, ReasonRateLimited))
      else Post1(c, s1, shard, id, request, result)
  }

  /** The last part of a send: reserve every push, then accept or refuse all at once. */
  function Post1(c: Config, s: State, shard: nat, id: nat, request: SendChat, result: SendResult): (State, SendResult)
    requires Live(s.channels, shard, id)
  {
    var channel := s.channels[shard];
    var member := channel.members[id];
    var next := channel.sequence + 1;
    var reserved := Reserved(s.links, channel, next, member.membership.characterId, request.text);
    if !BudgetAllows(|s.pushes|, s.pushBytes, |reserved|, Bytes(c, reserved), c.pendingPushes, c.pendingPushBytes) then
      (s, Rejected(result, ReasonResourceLimit))
    else
      var receipt := Receipt(channel.epoch, next, request.clientSendSeq);
      var sent := member.(state := member.state.(lastReceipt := Some(receipt), lastClientSendSeq := request.clientSendSeq),
                          lastText := request.text, tokens := member.tokens - 1.0);
      var post := Post(KeyOf(s.links, member), request.clientSendSeq, request.text, member.refill);
      (s.(channels := s.channels[shard := channel.(sequence := next, members := channel.members[id := sent])],
          pushes := s.pushes + reserved, pushBytes := s.pushBytes + Bytes(c, reserved),
          log := if shard in s.log then s.log[shard := s.log[shard] + [post]] else s.log),
       result.(outcome := OutcomeAccepted, receipt := Some(receipt)))
  }

  function BlankResult(send: SendChat): SendResult {
    SendResult(send.kind, send.generation, send.expectedEpoch, send.clientSendSeq,
               OutcomeUnspecified, ReasonNone, None, 0)
  }

  /** State and send need the membership to be live on this very connection. */
  function SendOrState(c: Config, s: State, peer: nat, r: Request, now: int): (State, Reply) {
    var m := MembershipOf(r);
    var shard := m.channel.shardId;
    var ok := Refuse(r, StatusOk).(membership := Some(m));
    if !IsMember(s.channels, peer, m) then (s, Refuse(r, StatusStaleMembership))
    else if r.operation == OpSend then
      var (s', result) := Send(c, s, shard, m.characterId, SendOf(r), BlankResult(SendOf(r)), now);
      (s', ok.(result := Some(result)))
    else (s, ok.(state := Some(s.channels[shard].members[m.characterId].state)))
  }

  function Handle(c: Config, s: State, peer: nat, r: Request, now: int): (State, Reply)
    requires peer in s.links
  {
    var shard := MembershipOf(r).channel.shardId;
    if r.link.realmId != c.realmId || r.link.realmInstanceId != c.realmInstanceId || r.link.chatInstanceId != c.instanceId then
      (s, Refuse(r, StatusForbidden))
    else if r.operation == OpHello then Hello(c, s, peer, r)
    else if s.links[peer].link != Some(r.link) then (s, Refuse(r, StatusStaleLink))
    else if shard !in s.channels || s.channels[shard].epoch.channel != MembershipOf(r).channel then
      (s, Refuse(r, StatusForbidden))
    else if r.operation == OpLeave then Leave(s, peer, r)
    else if r.operation == OpJoin then Join(s, peer, r, now)
    else SendOrState(c, s, peer, r, now)
  }

  // ---------------------------------------------------------------------------------------
  // Rounds

  /** The least connection at or after the cursor, wrapping to the least one. */
  function NextPeer(peers: set<nat>, cursor: nat): (peer: nat)
    requires peers != {}
    ensures peer in peers
  {
    var after := set p | p in peers && p >= cursor;
    if after != {} then Least(after) else Least(peers)
  }

  predicate Servable(p: Pending, peer: nat, served: set<(nat, nat)>, now: int) {
    || p.deadline <= now || p.request.operation != OpSend
    || (peer, MembershipOf(p.request).generation) !in served
  }

  /** Index of the first request that may be served now, or the queue length. */
  function FirstServable(queue: seq<Pending>, from: nat, peer: nat, served: set<(nat, nat)>, now: int): (i: nat)
    requires from <= |queue|
    ensures from <= i <= |queue|
    ensures i < |queue| ==> Servable(queue[i], peer, served, now)
    decreases |queue| - from
  {
    if from == |queue| || Servable(queue[from], peer, served, now) then from
    else FirstServable(queue, from + 1, peer, served, now)
  }

  /** Take request `i` of `peer` off its queue, answer it, and queue the answer. */
  function Serve(c: Config, s: State, peer: nat, i: nat, now: int): State
    requires peer in s.links && i < |s.links[peer].requests|
  {
    var queue := s.links[peer].requests;
    var p := queue[i];
    var s1 := s.(links := s.links[peer := s.links[peer].(requests := queue[..i] + queue[i + 1..])]);
    var (s2, reply) := if p.deadline <= now then (s1, Refuse(p.request, StatusUnavailable))
                       else Handle(c, s1, peer, p.request, now);
    s2.(replies := s2.replies + [QueuedReply(peer, p.id, reply)])
  }

  function Advance(s: State, peer: nat): State {
    s.(nextPeer := if peer >= PEER_MAX then 0 else peer + 1)
  }

  function Served(served: set<(nat, nat)>, peer: nat, p: Pending, now: int): set<(nat, nat)> {
    if p.deadline > now && p.request.operation == OpSend
    then served + {(peer, MembershipOf(p.request).generation)} else served
  }

  function Rounds(c: Config, s: State, served: set<(nat, nat)>, attempt: nat, processed: nat, now: int): State
    decreases REQUESTS_PER_ROUND_MAX * TRANSPORT_CONNECTIONS_MAX - attempt
  {
    if attempt >= REQUESTS_PER_ROUND_MAX * TRANSPORT_CONNECTIONS_MAX || processed >= REQUESTS_PER_ROUND_MAX
       || s.links.Keys == {} then s
    else
      var peer := NextPeer(s.links.Keys, s.nextPeer);
      var s1 := Advance(s, peer);
      var queue := s.links[peer].requests;
      var i := FirstServable(queue, 0, peer, served, now);
      if i == |queue| then Rounds(c, s1, served, attempt + 1, processed, now)
      else Rounds(c, Serve(c, s1, peer, i, now), Served(served, peer, queue[i], now), attempt + 1, processed + 1, now)
  }

  function RunRound(c: Config, s: State, now: int): State {
    Rounds(c, s, {}, 0, 0, now)
  }

  // ---------------------------------------------------------------------------------------
  // Output

  function TakeReply(s: State): (State, Option<QueuedReply>) {
    if s.replies == [] then (s, None)
    else (s.(replies := s.replies[1..], pending := s.pending - 1), Some(s.replies[0]))
  }

  function DrainOne(c: Config, s: State): State
    requires s.pushes != []
  {
    var e := s.pushes[0];
    s.(pushes := s.pushes[1..], pushBytes := s.pushBytes - c.payloadSize(e.push),
       delivered := if IsMember(s.channels, e.peer, e.membership) then s.delivered + [e] else s.delivered)
  }

  function Drain(c: Config, s: State, consumed: nat): State
    decreases PUSHES_PER_ROUND_MAX - consumed
  {
    if consumed >= PUSHES_PER_ROUND_MAX || s.pushes == [] then s
    else Drain(c, DrainOne(c, s), consumed + 1)
  }

  function TakeClosedPeers(s: State): (State, seq<nat>) {
    (s.(closedPeers := []), s.closedPeers)
  }

  // ---------------------------------------------------------------------------------------
  // Runs

  datatype Event = EvOpened(peer: nat) | EvClosed(peer: nat)
    | EvSubmit(peer: nat, request: Request, id: nat, now: int) | EvRound(now: int)
    | EvTakeReply | EvDrain | EvTakeClosed

  function Step(c: Config, s: State, e: Event): State {
    match e
    case EvOpened(peer) => Opened(s, peer).0
    case EvClosed(peer) => Closed(c, s, peer)
    case EvSubmit(peer, request, id, now) => Submit(c, s, peer, request, id, now).0
    case EvRound(now) => RunRound(c, s, now)
    case EvTakeReply => TakeReply(s).0
    case EvDrain => Drain(c, s, 0)
    case EvTakeClosed => TakeClosedPeers(s).0
  }

  function Run(c: Config, events: seq<Event>): State {
    if events == [] then Initial(c)
    else Step(c, Run(c, events[..|events| - 1]), events[|events| - 1])
  }
}
