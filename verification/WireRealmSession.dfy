/** The chat part of the client session as the program keeps it: fields changed in place, each
    method proved to do what `ChatClient` says.  The byte counter never goes below zero. */
module WireRealmSession {
  import opened Basics
  import opened Filters
  import opened ChatProtocol
  import opened ChatClient
  import opened ChatClientSafety

  lemma SoundCounts(z: Sizes, c: Client)
    requires Sound(z, c)
    ensures Counted(z, c)
  {
  }

  lemma KeptNothing<T>(p: T -> bool, size: T -> nat)
    ensures Filter(p, []) == [] && Total(size, []) == 0
  {
  }

  lemma KeptWithin<T>(p: T -> bool, size: T -> nat, s: seq<T>, i: nat)
    requires i <= |s|
    ensures Total(size, Filter(p, s[..i])) <= Total(size, s)
  {
    hide Filter, Total;
    Split(p, size, s[..i]);
    TotalConcat(size, s[..i], s[i..]);
    assert s[..i] + s[i..] == s;
  }

  /** One more element looked at. */
  lemma KeptNext<T>(p: T -> bool, size: T -> nat, s: seq<T>, i: nat)
    requires i < |s|
    ensures Filter(p, s[..i + 1]) == Filter(p, s[..i]) + (if p(s[i]) then [s[i]] else [])
    ensures Total(size, Filter(p, s[..i + 1])) == Total(size, Filter(p, s[..i])) + (if p(s[i]) then size(s[i]) else 0)
  {
    var next := if p(s[i]) then [s[i]] else [];
    assert next[..0] == [];
    assert Total(size, next) == if p(s[i]) then size(s[i]) else 0;
    assert s[..i + 1][..i] == s[..i] && |s[..i + 1]| == i + 1;
    hide Total;
    TotalConcat(size, Filter(p, s[..i]), next);
  }

  class WireRealmSession {
    const sizes: Sizes
    var notices: seq<Notice>
    var buffered: seq<ChatMessage>
    var bytes: nat
    var states: Slots<Option<ChatState>>
    var watermarks: Slots<nat>
    var open: bool
    ghost var exposed: seq<Notice>

    ghost function View(): Client
      reads this
    {
      Client(notices, buffered, bytes, states, watermarks, open, exposed)
    }

    ghost predicate Valid()
      reads this
    {
      Sound(sizes, View())
    }

    constructor (sizes: Sizes)
      ensures this.sizes == sizes && View() == START && Valid()
    {
      this.sizes := sizes;
      notices, buffered, bytes := [], [], 0;
      states, watermarks, open := Slots(None, None), Slots(0, 0), true;
      exposed := [];
    }

    predicate Room(size: nat)
      reads this
    {
      ChatSequencer.BudgetAllows(|notices| + |buffered|, bytes, 1, size, NOTIFICATIONS_MAX, NOTIFICATION_BYTES_MAX)
    }

    method CloseSession()
      modifies this
      ensures View() == Close(old(View())) && Valid()
    {
      notices, buffered, bytes := [], [], 0;
      states, watermarks, open := Slots(None, None), Slots(0, 0), false;
    }

    /** Erase the buffered messages of a channel kind and hand them back in order. */
    method EraseBuffered(kind: ChannelKind) returns (erased: seq<ChatMessage>)
      requires Total(sizes.message, buffered) <= bytes
      modifies this`buffered, this`bytes
      ensures erased == Filter(OfKind(kind), old(buffered))
      ensures buffered == Filter(Not(OfKind(kind)), old(buffered))
      ensures bytes == old(bytes) - Total(sizes.message, erased)
    {
      hide Filter, Total, OfKind;
      var picked := OfKind(kind);
      KeptNothing(picked, sizes.message);
      assert buffered[..0] == [];
      erased := [];
      var kept: seq<ChatMessage> := [];
      var i := 0;
      while i < |buffered|
        invariant i <= |buffered| && buffered == old(buffered)
        invariant erased == Filter(picked, buffered[..i]) && kept == Filter(Not(picked), buffered[..i])
        invariant bytes == old(bytes) - Total(sizes.message, erased)
      {
        var m := buffered[i];
        KeptNext(picked, sizes.message, buffered, i);
        KeptNext(Not(picked), sizes.message, buffered, i);
        if picked(m) {
          KeptWithin(picked, sizes.message, buffered, i + 1);
          bytes := bytes - sizes.message(m);
          erased := erased + [m];
        } else {
          kept := kept + [m];
        }
        i := i + 1;
      }
      assert buffered[..i] == buffered;
      buffered := kept;
    }

    /** Erase the queued notices that `drop` picks. */
    method EraseNotices(drop: Notice -> bool)
      requires Total(SizeOf(sizes), notices) <= bytes
      modifies this`notices, this`bytes
      ensures notices == Filter(Not(drop), old(notices))
      ensures bytes == old(bytes) - Total(SizeOf(sizes), Filter(drop, old(notices)))
    {
      ghost var erased: seq<Notice> := [];
      var kept: seq<Notice> := [];
      var i := 0;
      while i < |notices|
        invariant i <= |notices| && notices == old(notices)
        invariant erased == Filter(drop, notices[..i]) && kept == Filter(Not(drop), notices[..i])
        invariant bytes == old(bytes) - Total(SizeOf(sizes), erased)
      {
        var n := notices[i];
        KeptNext(drop, SizeOf(sizes), notices, i);
        KeptNext(Not(drop), SizeOf(sizes), notices, i);
        if drop(n) {
          KeptWithin(drop, SizeOf(sizes), notices, i + 1);
          bytes := bytes - NoticeSize(sizes, n);
          erased := erased + [n];
        } else {
          kept := kept + [n];
        }
        i := i + 1;
      }
      assert notices[..i] == notices;
      notices := kept;
    }

    method DiscardChat(kind: ChannelKind)
      requires Counted(sizes, View())
      modifies this`notices, this`buffered, this`bytes
      ensures View() == Discard(sizes, old(View()), kind)
    {
      hide Filter, Total;
      Split(OfKind(kind), sizes.message, buffered);
      var _ := EraseBuffered(kind);
      EraseNotices(About(kind));
    }

    method QueueChat(n: Notice)
      modifies this
      ensures View() == Queue(sizes, old(View()), n)
    {
      var size := NoticeSize(sizes, n);
      if Room(size) {
        bytes := bytes + size;
        notices := notices + [n];
      } else {
        CloseSession();
      }
    }

    method ReceiveChat(m: ChatMessage)
      requires Valid() && open && IsKind(m.epoch.channel.kind)
      modifies this
      ensures View() == Receive(sizes, old(View()), m) && Valid()
    {
      SoundReceive(sizes, View(), m);
      var kind := m.epoch.channel.kind;
      var slot := states.Of(kind);
      if slot.None? || !slot.value.phase.PhaseActive? {
        var size := sizes.message(m);
        if !Room(size) {
          CloseSession();
          return;
        }
        bytes := bytes + size;
        buffered := buffered + [m];
        return;
      }
      if slot.value.generation != m.generation || StateEpoch(slot.value) != m.epoch {
        return;
      }
      if m.channelSeq <= watermarks.Of(kind) {
        return;
      }
      if m.channelSeq != watermarks.Of(kind) + 1 {
        states := states.Put(kind, Some(NO_STATE));
        DiscardChat(kind);
        QueueChat(Lost(ChatUnavailable(kind, ReasonGap, true)));
        return;
      }
      watermarks := watermarks.Put(kind, m.channelSeq);
      QueueChat(Said(m));
    }

    method ApplyChatState(state: ChatState)
      requires Valid() && open && IsKind(state.kind)
      modifies this
      ensures View() == Apply(sizes, old(View()), state) && Valid()
    {
      hide Filter, Total, ReceiveAll, Sound;
      if !state.phase.PhaseActive? {
        return;
      }
      SoundCounts(sizes, View());
      ghost var resumed := Resume(sizes, View(), state);
      SoundApply(sizes, View(), state);
      SoundResume(sizes, View(), state);
      InstallCounted(sizes, View(), state);
      var previous := states.Of(state.kind);
      var changed := previous.None? || previous.value.generation != state.generation
                     || StateEpoch(previous.value) != StateEpoch(state);
      states := states.Put(state.kind, Some(state));
      if changed {
        watermarks := watermarks.Put(state.kind, state.joinWatermark);
        EraseNotices(Stale(state));
      }
      assert View() == Install(sizes, old(View()), state);
      Split(OfKind(state.kind), sizes.message, buffered);
      var waiting := EraseBuffered(state.kind);
      assert View() == resumed;
      assert forall m :: m in waiting ==> OfKind(state.kind)(m);
      PutBack(waiting);
    }

    method PutBack(waiting: seq<ChatMessage>)
      requires Valid() && forall m :: m in waiting ==> IsKind(m.epoch.channel.kind)
      modifies this
      ensures View() == ReceiveAll(sizes, old(View()), waiting) && Valid()
    {
      hide Receive;
      var i := 0;
      while i < |waiting| && open
        invariant i <= |waiting| && Valid()
        invariant ReceiveAll(sizes, View(), waiting[i..]) == ReceiveAll(sizes, old(View()), waiting)
      {
        assert waiting[i..][0] == waiting[i] && waiting[i..][1..] == waiting[i + 1..];
        ReceiveChat(waiting[i]);
        i := i + 1;
      }
    }

    method AcceptNotice(f: Frame) returns (known: bool)
      requires Valid() && open && Decoded(EvFrame(f)) && !f.Displaced?
      modifies this
      ensures View() == Accept(sizes, old(View()), f) && Valid()
      ensures known == !f.Unknown?
    {
      SoundStep(sizes, View(), EvFrame(f));
      known := true;
      match f
      case Message(m) => ReceiveChat(m);
      case Unavailable(u) =>
        states := states.Put(u.kind, None);
        DiscardChat(u.kind);
        QueueChat(Lost(u));
      case SceneNotice(overflow) =>
        if overflow {
          CloseSession();
        }
      case _ => known := false;
    }

    method TakeNotice() returns (value: Option<Notice>)
      requires Valid()
      modifies this
      ensures View() == Take(sizes, old(View())).0 && value == Take(sizes, old(View())).1 && Valid()
    {
      SoundTake(sizes, View());
      if notices == [] {
        return None;
      }
      var n := notices[0];
      value := Some(n);
      notices := notices[1..];
      bytes := bytes - NoticeSize(sizes, n);
      exposed := exposed + [n];
    }

    /** `frames` are what arrives before the deadline; the first `used` of them are read. */
    method PollChat(frames: seq<Frame>) returns (value: Option<Notice>, used: nat)
      requires Valid() && forall i :: 0 <= i < |frames| ==> Decoded(EvFrame(frames[i]))
      modifies this
      ensures used <= |frames| && Valid()
      ensures View() == Take(sizes, AcceptAll(sizes, old(View()), frames[..used])).0
      ensures value == Take(sizes, AcceptAll(sizes, old(View()), frames[..used])).1
      ensures old(notices) != [] || !old(open) ==> used == 0
      ensures value.None? ==> used == |frames| || !open || (used > 0 && frames[used - 1].Unknown?)
    {
      used := 0;
      while notices == [] && open
        invariant used <= |frames| && Valid() && View() == AcceptAll(sizes, old(View()), frames[..used])
        invariant used == 0 || (old(notices) == [] && old(open))
        decreases |frames| - used
      {
        if used == |frames| {
          assert Take(sizes, View()) == (View(), None);
          return None, used;
        }
        var f := frames[used];
        assert frames[..used + 1][..used] == frames[..used];
        used := used + 1;
        if f.Displaced? {
          CloseSession();
          return None, used;
        }
        var known := AcceptNotice(f);
        if !known {
          return None, used;
        }
      }
      value := TakeNotice();
    }
  }
}
