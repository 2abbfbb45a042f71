/**
 What arrives over whole sessions: the inbox of a live channel, followed by the messages in flight on its
 id, is what the peer sent on its channel of that key since its Open.
 */
module Deliveries {
  import opened Wrappers
  import opened Compact
  import opened Handshake
  import opened Messages
  import opened Channels
  import opened ProtocolModel
  import opened ChannelTheorems
  import opened Views
  import opened Peers
  import E = EventTheorems
  import S = Sessions
  import F = FrameSessions

  //
  // What was sent on an id
  //

  /** The last Open or Close on an id among the first `n` messages. */
  function Opener(sent: seq<ChannelMessage>, n: nat, j: nat): Option<Message>
    requires n <= |sent|
  {
    if n == 0 then None
    else if sent[n - 1].channel == j && sent[n - 1].message.IsControl() then Some(sent[n - 1].message)
    else Opener(sent, n - 1, j)
  }

  /** The other messages on that id since then, in order. */
  function SinceOpen(sent: seq<ChannelMessage>, n: nat, j: nat): seq<Message>
    requires n <= |sent|
  {
    if n == 0 then []
    else
      var m := sent[n - 1];
      if m.channel != j then SinceOpen(sent, n - 1, j)
      else if m.message.IsControl() then []
      else SinceOpen(sent, n - 1, j) + [m.message]
  }

  /** All of them were sent on a channel of the given key. */
  predicate TaggedSince(sent: seq<ChannelMessage>, tags: seq<Key>, n: nat, j: nat, dk: Key)
    requires n <= |sent| == |tags|
  {
    n == 0 || (sent[n - 1].channel == j && sent[n - 1].message.IsControl())
    || ((sent[n - 1].channel == j ==> tags[n - 1] == dk) && TaggedSince(sent, tags, n - 1, j, dk))
  }

  predicate IsOpenFor(m: Option<Message>, dk: Key) {
    m.Some? && m.value.Open? && m.value.open.discoveryKey == dk
  }

  /** What is sent later changes nothing of it. */
  lemma {:induction false} SentLater(sent: seq<ChannelMessage>, tags: seq<Key>, more: seq<ChannelMessage>, others: seq<Key>,
                                     n: nat, j: nat, dk: Key)
    requires n <= |sent| == |tags| && |more| == |others|
    ensures Opener(sent + more, n, j) == Opener(sent, n, j) && SinceOpen(sent + more, n, j) == SinceOpen(sent, n, j)
    ensures TaggedSince(sent + more, tags + others, n, j, dk) == TaggedSince(sent, tags, n, j, dk)
    decreases n
  {
    if n == 0 {
    } else {
      assert (sent + more)[n - 1] == sent[n - 1] && (tags + others)[n - 1] == tags[n - 1];
      SentLater(sent, tags, more, others, n - 1, j, dk);
    }
  }

  //
  // Complete inboxes
  //

  /**
   The peer opened the key under its remote id, and the inbox of the key holds everything the peer sent on
   that id since; before the key is connected there is nothing yet.
   */
  predicate KeyComplete(t: Table, sent: seq<ChannelMessage>, tags: seq<Key>, n: nat, dk: Key)
    requires n <= |sent| == |tags| && RemotelyAttached(t, dk)
  {
    var h := t.channels[dk];
    var j := h.remote.value.remoteId;
    && IsOpenFor(Opener(sent, n, j), dk) && TaggedSince(sent, tags, n, j, dk)
    && if h.IsConnected() then
         h.inbox.Some? && h.inbox.value < |t.inboxes|
         && (t.inboxes[h.inbox.value].receiving ==> t.inboxes[h.inbox.value].messages == SinceOpen(sent, n, j))
       else SinceOpen(sent, n, j) == []
  }

  ghost predicate Complete(t: Table, sent: seq<ChannelMessage>, tags: seq<Key>, n: nat) {
    && n <= |sent| == |tags|
    && forall dk | RemotelyAttached(t, dk) :: KeyComplete(t, sent, tags, n, dk)
  }

  /** A key whose handle and inbox are the same as before, and on whose id nothing came in. */
  lemma KeyStays(t: Table, r: Table, sent: seq<ChannelMessage>, tags: seq<Key>, n: nat, k: nat, dk: Key)
    requires RemotelyAttached(t, dk) && n <= |sent| == |tags| && KeyComplete(t, sent, tags, n, dk)
    requires dk in r.channels && r.channels[dk] == t.channels[dk]
    requires k == n || (k == n + 1 && k <= |sent| && sent[n].channel != t.channels[dk].remote.value.remoteId)
    requires t.channels[dk].inbox.Some? && t.channels[dk].inbox.value < |t.inboxes| ==>
               var x := t.channels[dk].inbox.value;
               x < |r.inboxes| && (r.inboxes[x].receiving ==> r.inboxes[x] == t.inboxes[x])
    ensures KeyComplete(r, sent, tags, k, dk)
  {
  }

  lemma MoreSent(t: Table, sent: seq<ChannelMessage>, tags: seq<Key>, more: seq<ChannelMessage>, others: seq<Key>, n: nat)
    requires Complete(t, sent, tags, n) && |more| == |others|
    ensures Complete(t, sent + more, tags + others, n)
  {
    forall dk | RemotelyAttached(t, dk) ensures KeyComplete(t, sent + more, tags + others, n, dk) {
      SentLater(sent, tags, more, others, n, t.channels[dk].remote.value.remoteId, dk);
    }
  }

  /** Another key keeps its id when a message comes in, or nothing comes in. */
  ghost predicate Elsewhere(t: Table, sent: seq<ChannelMessage>, n: nat, k: nat, d: Key) {
    k == n
    || (k == n + 1 && k <= |sent|
        && forall dk | RemotelyAttached(t, dk) && dk != d :: t.channels[dk].remote.value.remoteId != sent[n].channel)
  }

  /** A key gets a half it did not have: if that connects it, it gets an empty inbox. */
  lemma AttachComplete(t: Table, u: Table, sent: seq<ChannelMessage>, tags: seq<Key>, n: nat, k: nat, d: Key)
    requires Complete(t, sent, tags, n) && Elsewhere(t, sent, n, k, d) && k <= |sent|
    requires Sound(u) && d in u.channels && u.inboxes == t.inboxes
    requires forall dk | dk in u.channels && dk != d :: dk in t.channels && u.channels[dk] == t.channels[dk]
    requires RemotelyAttached(u, d) ==>
               var j := u.channels[d].remote.value.remoteId;
               IsOpenFor(Opener(sent, k, j), d) && TaggedSince(sent, tags, k, j, d) && SinceOpen(sent, k, j) == []
    ensures Complete(Settle(u, d), sent, tags, k)
  {
    hide Sound, Opener, SinceOpen, TaggedSince;
    var r := Settle(u, d);
    forall dk | RemotelyAttached(r, dk) ensures KeyComplete(r, sent, tags, k, dk) {
      if dk != d {
        assert RemotelyAttached(t, dk);
        KeyStays(t, r, sent, tags, n, k, dk);
      }
    }
  }

  /** A key is removed. */
  lemma RemoveComplete(t: Table, u: Table, sent: seq<ChannelMessage>, tags: seq<Key>, n: nat, k: nat, d: Key)
    requires Complete(t, sent, tags, n) && Elsewhere(t, sent, n, k, d) && k <= |sent|
    requires Sound(t) && Sound(u) && u == t.(inboxes := u.inboxes) && |u.inboxes| == |t.inboxes|
    requires forall x | 0 <= x < |t.inboxes| && t.inboxes[x].owner != d :: u.inboxes[x] == t.inboxes[x]
    ensures Complete(Remove(u, d), sent, tags, k)
  {
    hide InTable;
    var r := Remove(u, d);
    forall dk | RemotelyAttached(r, dk) ensures KeyComplete(r, sent, tags, k, dk) {
      assert HandleSound(t, dk);
      hide HandleSound, Opener, SinceOpen, TaggedSince;
      KeyStays(t, r, sent, tags, n, k, dk);
    }
  }

  //
  // Acts of the receiving side
  //

  lemma OpenTable(q: Peer, hash: Bytes, key: Key)
    requires PeerOk(q, hash) && Allowed(q, OpenAct(key))
    ensures q.p.Good() && !LocallyAttached(q.p.table, q.p.crypto.discovery(key))
    ensures var d := q.p.crypto.discovery(key);
            Perform(q, OpenAct(key)).peer.p.table == Settle(AttachLocal(q.p.table, d, key), d)
  {
    hide PeerOk, Sound, CommandOpen, OpenInbox, AttachLocal, ViewOf, OpenMessage;
    PeerGood(q, hash);
    OpenStep(q, hash, key);
    CommandOpenOutcome(q.p, key);
  }

  lemma LocalHalf(t: Table, d: Key, key: Key)
    requires Sound(t)
    ensures var u := AttachLocal(t, d, key);
            && u.inboxes == t.inboxes && d in u.channels
            && (forall dk | dk in u.channels && dk != d :: dk in t.channels && u.channels[dk] == t.channels[dk])
            && u.channels[d].remote == (if d in t.channels then t.channels[d].remote else None)
  {
    hide FreeSlot, Assign, HandleSound, InTable;
  }

  lemma OpenComplete(q: Peer, hash: Bytes, sent: seq<ChannelMessage>, tags: seq<Key>, n: nat, key: Key)
    requires PeerOk(q, hash) && Allowed(q, OpenAct(key)) && Complete(q.p.table, sent, tags, n)
    ensures Complete(Perform(q, OpenAct(key)).peer.p.table, sent, tags, n)
  {
    hide PeerOk, Sound, Allowed, Perform, AttachLocal, Settle, Opener, SinceOpen, TaggedSince;
    OpenTable(q, hash, key);
    var t, d := q.p.table, q.p.crypto.discovery(key);
    LocalHalf(t, d, key);
    var u := AttachLocal(t, d, key);
    if RemotelyAttached(u, d) {
      assert RemotelyAttached(t, d) && KeyComplete(t, sent, tags, n, d);
    }
    hide KeyComplete;
    AttachComplete(t, u, sent, tags, n, n, d);
  }

  lemma PeerGood(q: Peer, hash: Bytes)
    requires PeerOk(q, hash)
    ensures q.p.Good() && Exact(q.p.table)
  {
  }

  lemma FlushComplete(q: Peer, hash: Bytes, sent: seq<ChannelMessage>, tags: seq<Key>, n: nat)
    requires PeerOk(q, hash) && Complete(q.p.table, sent, tags, n)
    ensures Complete(Perform(q, FlushAct).peer.p.table, sent, tags, n)
  {
    hide Sound, Exact, HandlesOk, ChannelsOk, OutboxOk, KeyComplete, Remove, OnBatch, Kept;
    if q.pending != [] {
      var b := q.pending[0];
      assert BatchOk(q.p.table, b);
      if IsLoneClose(b.messages) {
        LoneClose(q.p, b.messages);
        var found := GetLocal(q.p.table, b.messages[0].channel);
        if found.Some? {
          RemoveComplete(q.p.table, q.p.table, sent, tags, n, n, found.value.discoveryKey);
        }
      } else {
        QuietBatch(q.p, b.messages);
      }
    }
  }

  lemma CloseOrDropComplete(q: Peer, sent: seq<ChannelMessage>, tags: seq<Key>, n: nat, act: Act)
    requires q.p.Good() && Complete(q.p.table, sent, tags, n) && (act.CloseAct? || act.DropAct?)
    ensures Complete(Perform(q, act).peer.p.table, sent, tags, n)
  {
    hide Sound, Opener, SinceOpen, TaggedSince;
    var t, r := q.p.table, Perform(q, act).peer.p.table;
    forall dk | RemotelyAttached(r, dk) ensures KeyComplete(r, sent, tags, n, dk) {
      KeyStays(t, r, sent, tags, n, n, dk);
    }
  }

  /** Whatever a side does, its inboxes stay complete. */
  lemma ActComplete(q: Peer, hash: Bytes, sent: seq<ChannelMessage>, tags: seq<Key>, n: nat, act: Act)
    requires PeerOk(q, hash) && Complete(q.p.table, sent, tags, n) && !act.ReceiveAct? && Allowed(q, act)
    ensures q.p.Good() && Complete(Perform(q, act).peer.p.table, sent, tags, n)
  {
    PeerGood(q, hash);
    match act {
      case OpenAct(key) =>
        hide *;
        OpenComplete(q, hash, sent, tags, n, key);
      case FlushAct =>
        hide *;
        FlushComplete(q, hash, sent, tags, n);
      case SendAct(c, ms) =>
        hide PeerOk, Complete, Sound;
      case CloseAct(_) =>
        hide *;
        CloseOrDropComplete(q, sent, tags, n, act);
      case DropAct(_) =>
        hide *;
        CloseOrDropComplete(q, sent, tags, n, act);
      case EventAct(step) =>
        EventStep(q, hash, step);
        hide PeerOk, Complete, Sound, Take;
    }
  }

  //
  // Receiving
  //

  lemma ReceivedOpenTable(q: Peer, m: ChannelMessage)
    requires q.p.Good() && m.message.Open? && |m.message.open.discoveryKey| == 32
    requires Perform(q, ReceiveAct(m)).problem.None?
    ensures var d: Key := m.message.open.discoveryKey;
            Perform(q, ReceiveAct(m)).peer.p.table == Settle(AttachRemote(q.p.table, d, m.channel, m.message.open.capability), d)
  {
    hide Sound, OnOpen, OpenInbox, AttachRemote;
    OnOpenOutcome(q.p, m);
  }

  lemma RemoteHalf(t: Table, d: Key, id: nat, capability: Option<Bytes>)
    requires Sound(t)
    ensures var u := AttachRemote(t, d, id, capability);
            && u.inboxes == t.inboxes && d in u.channels
            && (forall dk | dk in u.channels && dk != d :: dk in t.channels && u.channels[dk] == t.channels[dk])
            && u.channels[d].remote == Some(RemoteState(id, capability))
  {
    hide Assign, HandleSound, InTable;
  }

  lemma JustOpened(sent: seq<ChannelMessage>, tags: seq<Key>, n: nat, d: Key)
    requires n < |sent| == |tags| && sent[n].message.Open? && sent[n].message.open.discoveryKey == d
    ensures var j := sent[n].channel;
            && IsOpenFor(Opener(sent, n + 1, j), d) && SinceOpen(sent, n + 1, j) == [] && TaggedSince(sent, tags, n + 1, j, d)
  {
  }

  lemma ReceiveOpenComplete(q: Peer, hash: Bytes, sent: seq<ChannelMessage>, tags: seq<Key>, n: nat)
    requires PeerOk(q, hash) && Complete(q.p.table, sent, tags, n) && n < |sent|
    requires sent[n].message.Open? && |sent[n].message.open.discoveryKey| == 32
    requires Perform(q, ReceiveAct(sent[n])).problem.None? && Fits(ViewOf(q.p.table), SignalOf(sent[n], tags[n]))
    ensures Complete(Perform(q, ReceiveAct(sent[n])).peer.p.table, sent, tags, n + 1)
  {
    hide PeerOk, Sound, Exact, Perform, AttachRemote, Settle, Opener, SinceOpen, TaggedSince, KeyComplete, ViewOf;
    PeerGood(q, hash);
    var t, m := q.p.table, sent[n];
    var d: Key := m.message.open.discoveryKey;
    FreshId(t, m.channel);
    JustOpened(sent, tags, n, d);
    ReceivedOpenTable(q, m);
    RemoteHalf(t, d, m.channel, m.message.open.capability);
    AttachComplete(t, AttachRemote(t, d, m.channel, m.message.open.capability), sent, tags, n, n + 1, d);
  }

  /** No handle has a remote id that is free in the view. */
  lemma FreshId(t: Table, id: nat)
    requires Sound(t) && Exact(t) && id !in ViewOf(t).r
    ensures forall dk | RemotelyAttached(t, dk) :: t.channels[dk].remote.value.remoteId != id
  {
  }

  lemma ClosedTable(q: Peer, m: ChannelMessage)
    requires q.p.Good() && m.message.Close?
    ensures var t, found := q.p.table, GetRemote(q.p.table, m.channel);
            Perform(q, ReceiveAct(m)).peer.p.table ==
              if found.Some? then Remove(ForwardTolerant(t, m.channel, m.message), found.value.discoveryKey) else t
  {
    hide Sound, Remove, ForwardTolerant;
  }

  /** Nothing has the id of the message that comes in. */
  lemma NobodysComplete(t: Table, sent: seq<ChannelMessage>, tags: seq<Key>, n: nat)
    requires Sound(t) && Exact(t) && Complete(t, sent, tags, n) && n < |sent| && GetRemote(t, sent[n].channel).None?
    ensures Complete(t, sent, tags, n + 1)
  {
    RemoteInView(t, sent[n].channel);
    FreshId(t, sent[n].channel);
    hide Sound, Exact, Opener, SinceOpen, TaggedSince, ViewOf;
    forall dk | RemotelyAttached(t, dk) ensures KeyComplete(t, sent, tags, n + 1, dk) {
      KeyStays(t, t, sent, tags, n, n + 1, dk);
    }
  }

  lemma ReceiveCloseComplete(q: Peer, hash: Bytes, sent: seq<ChannelMessage>, tags: seq<Key>, n: nat)
    requires PeerOk(q, hash) && Complete(q.p.table, sent, tags, n) && n < |sent| && sent[n].message.Close?
    ensures q.p.Good() && Complete(Perform(q, ReceiveAct(sent[n])).peer.p.table, sent, tags, n + 1)
  {
    hide PeerOk, Sound, Exact, Perform, ForwardTolerant, Remove, KeyComplete, GetRemote;
    PeerGood(q, hash);
    var t, m := q.p.table, sent[n];
    ClosedTable(q, m);
    var found := GetRemote(t, m.channel);
    if found.Some? {
      var d := found.value.discoveryKey;
      IdOfOne(t, m.channel, d);
      OwnPush(t, m.channel, m.message, d);
      RemoveComplete(t, ForwardTolerant(t, m.channel, m.message), sent, tags, n, n + 1, d);
    } else {
      NobodysComplete(t, sent, tags, n);
    }
  }

  lemma IdOfOne(t: Table, id: nat, d: Key)
    requires Sound(t) && Exact(t) && GetRemote(t, id).Some? && GetRemote(t, id).value.discoveryKey == d
    ensures forall dk | RemotelyAttached(t, dk) && dk != d :: t.channels[dk].remote.value.remoteId != id
  {
    OwnKey(t, id);
  }

  /** A message forwarded to a handle goes to its inbox alone. */
  lemma OwnPush(t: Table, id: nat, m: Message, d: Key)
    requires Sound(t) && GetRemote(t, id).Some? && GetRemote(t, id).value.discoveryKey == d
    ensures var u := ForwardTolerant(t, id, m);
            && u == t.(inboxes := u.inboxes) && |u.inboxes| == |t.inboxes|
            && forall x | 0 <= x < |t.inboxes| && t.inboxes[x].owner != d :: u.inboxes[x] == t.inboxes[x]
  {
    OwnKey(t, id);
    assert HandleSound(t, d);
  }

  lemma ForwardedTable(q: Peer, m: ChannelMessage)
    requires q.p.Good() && !m.message.IsControl()
    ensures Perform(q, ReceiveAct(m)).peer.p.table == ForwardTolerant(q.p.table, m.channel, m.message)
  {
    hide Sound;
  }

  /** The key whose id a message has: the message is put last into its inbox, unless its receiver has been dropped. */
  lemma OwnKeyComplete(t: Table, sent: seq<ChannelMessage>, tags: seq<Key>, n: nat, d: Key)
    requires Sound(t) && RemotelyAttached(t, d) && n < |sent| == |tags| && KeyComplete(t, sent, tags, n, d)
    requires !sent[n].message.IsControl() && tags[n] == d && t.channels[d].IsConnected()
    requires t.channels[d].HasRemote(sent[n].channel) && GetRemote(t, sent[n].channel) == Some(t.channels[d])
    ensures var r := ForwardTolerant(t, sent[n].channel, sent[n].message);
            RemotelyAttached(r, d) && KeyComplete(r, sent, tags, n + 1, d)
  {
    hide Sound;
    var j, x := sent[n].channel, t.channels[d].inbox.value;
    assert TaggedSince(sent, tags, n + 1, j, d);
    assert Opener(sent, n + 1, j) == Opener(sent, n, j);
    assert SinceOpen(sent, n + 1, j) == SinceOpen(sent, n, j) + [sent[n].message];
  }

  lemma ReceiveOtherComplete(q: Peer, hash: Bytes, sent: seq<ChannelMessage>, tags: seq<Key>, n: nat)
    requires PeerOk(q, hash) && Complete(q.p.table, sent, tags, n) && n < |sent| && !sent[n].message.IsControl()
    requires Fits(ViewOf(q.p.table), SignalOf(sent[n], tags[n]))
    ensures q.p.Good() && Complete(Perform(q, ReceiveAct(sent[n])).peer.p.table, sent, tags, n + 1)
  {
    hide PeerOk, Sound, Exact, Perform, ForwardTolerant, KeyComplete, GetRemote, ViewOf;
    PeerGood(q, hash);
    var t, m := q.p.table, sent[n];
    ForwardedTable(q, m);
    if GetRemote(t, m.channel).None? {
      ForwardNothing(t, m);
      NobodysComplete(t, sent, tags, n);
    } else {
      var d := GetRemote(t, m.channel).value.discoveryKey;
      OwnIs(t, m.channel, tags[n]);
      IdOfOne(t, m.channel, d);
      OwnPush(t, m.channel, m.message, d);
      var r := ForwardTolerant(t, m.channel, m.message);
      forall dk | RemotelyAttached(r, dk) ensures KeyComplete(r, sent, tags, n + 1, dk) {
        if dk == d {
          OwnKeyComplete(t, sent, tags, n, d);
        } else {
          OwnerIs(t, dk);
          KeyStays(t, r, sent, tags, n, n + 1, dk);
        }
      }
    }
  }

  lemma ForwardNothing(t: Table, m: ChannelMessage)
    requires Sound(t) && GetRemote(t, m.channel).None?
    ensures ForwardTolerant(t, m.channel, m.message) == t
  {
  }

  lemma OwnerIs(t: Table, dk: Key)
    requires Sound(t) && dk in t.channels
    ensures var x := t.channels[dk].inbox; x.Some? ==> x.value < |t.inboxes| && t.inboxes[x.value].owner == dk
  {
    assert HandleSound(t, dk);
  }

  /** A message that fits was sent on a channel of the key its id leads to, and that key is connected. */
  lemma OwnIs(t: Table, id: nat, tag: Key)
    requires Sound(t) && Exact(t) && GetRemote(t, id).Some? && Fits(ViewOf(t), Traffic(id, tag))
    ensures GetRemote(t, id).value.discoveryKey == tag && tag in t.channels && GetRemote(t, id) == Some(t.channels[tag])
    ensures t.channels[tag].IsConnected() && t.channels[tag].HasRemote(id)
  {
    RemoteInView(t, id);
    OwnKey(t, id);
    ViewValues(t, tag);
  }

  lemma ReceiveComplete(ss: S.Session, hash: Bytes)
    requires S.SessionOk(ss, hash) && ss.heardByA < |ss.b.p.outbox|
    requires Complete(ss.a.p.table, ss.b.p.outbox, ss.b.tags, ss.heardByA)
    ensures ss.a.p.Good() && ss.b.p.Good()
    ensures var r := Perform(ss.a, ReceiveAct(ss.b.p.outbox[ss.heardByA])).peer;
            Complete(r.p.table, ss.b.p.outbox, ss.b.tags, ss.heardByA + 1)
  {
    hide S.SessionOk, PeerOk, Sound, Perform, Complete, ViewOf, Fits, Proves;
    S.SessionGood(ss, hash);
    F.NextFits(ss, hash);
    var sent, tags, n := ss.b.p.outbox, ss.b.tags, ss.heardByA;
    var m := sent[n];
    if m.message.Open? {
      ReceiveOpenStep(ss.a, hash, m, tags[n]);
      ReceiveOpenComplete(ss.a, hash, sent, tags, n);
    } else if m.message.Close? {
      ReceiveCloseComplete(ss.a, hash, sent, tags, n);
    } else {
      ReceiveOtherComplete(ss.a, hash, sent, tags, n);
    }
  }

  //
  // Sessions
  //

  ghost predicate BothComplete(s: S.Session) {
    && Complete(s.a.p.table, s.b.p.outbox, s.b.tags, s.heardByA)
    && Complete(s.b.p.table, s.a.p.outbox, s.a.tags, s.heardByB)
  }

  /** Whatever a side does, it only adds to what it sends. */
  lemma ActGrows(q: Peer, hash: Bytes, act: Act) returns (more: seq<ChannelMessage>, others: seq<Key>)
    requires PeerOk(q, hash) && Allowed(q, act) && !act.ReceiveAct?
    ensures q.p.Good() && |more| == |others|
    ensures var r := Perform(q, act).peer; r.p.outbox == q.p.outbox + more && r.tags == q.tags + others
  {
    PeerGood(q, hash);
    more, others := [], [];
    match act {
      case OpenAct(key) =>
        OpenStep(q, hash, key);
        var d := q.p.crypto.discovery(key);
        more, others := [OpenMessage(q.p, NextLocalId(q.p.table), d, key)], [d];
      case FlushAct =>
        if q.pending != [] {
          more, others := Kept(q.pending[0].messages), seq(|Kept(q.pending[0].messages)|, _ => q.pending[0].dk);
          E.BatchSendsNothing(q.p, q.pending[0].messages);
        }
      case SendAct(c, ms) => SendStep(q, hash, c, ms);
      case CloseAct(c) => CloseStep(q, hash, c);
      case DropAct(inbox) => DropStep(q, hash, inbox);
      case EventAct(step) => EventStep(q, hash, step);
    }
  }

  lemma SwapComplete(s: S.Session)
    ensures BothComplete(s) <==> BothComplete(s.Swap())
  {
    hide Complete;
  }

  lemma ActKeepsComplete(s: S.Session, hash: Bytes, act: Act)
    requires S.SessionOk(s, hash) && BothComplete(s) && !act.ReceiveAct? && Allowed(s.a, act)
    ensures s.a.p.Good() && s.b.p.Good() && BothComplete(S.ActByA(s, act).0)
  {
    hide S.SessionOk, PeerOk, Sound, Perform, Complete, Allowed;
    S.SessionGood(s, hash);
    SessionPeers(s, hash);
    ActComplete(s.a, hash, s.b.p.outbox, s.b.tags, s.heardByA, act);
    var more, others := ActGrows(s.a, hash, act);
    MoreSent(s.b.p.table, s.a.p.outbox, s.a.tags, more, others, s.heardByB);
  }

  lemma SessionPeers(s: S.Session, hash: Bytes)
    requires S.SessionOk(s, hash)
    ensures PeerOk(s.a, hash) && PeerOk(s.b, hash)
  {
  }

  lemma ReceiveKeepsComplete(s: S.Session, hash: Bytes)
    requires S.SessionOk(s, hash) && BothComplete(s) && s.heardByA < |s.b.p.outbox|
    ensures s.a.p.Good() && s.b.p.Good() && BothComplete(S.ReceiveByA(s).0)
  {
    hide S.SessionOk, Sound, Perform, Complete;
    S.SessionGood(s, hash);
    ReceiveComplete(s, hash);
    SameSent(s, hash);
  }

  lemma SameSent(s: S.Session, hash: Bytes)
    requires S.SessionOk(s, hash) && s.heardByA < |s.b.p.outbox|
    ensures s.a.p.Good()
    ensures var r := Perform(s.a, ReceiveAct(s.b.p.outbox[s.heardByA])).peer; r.p.outbox == s.a.p.outbox && r.tags == s.a.tags
  {
    hide S.SessionOk, PeerOk, Sound, Perform, ViewOf, Fits, Proves, OnlyOwnInbox, Hear, SignalOf;
    S.SessionGood(s, hash);
    F.NextFits(s, hash);
    S.ReceiveStep(s.a, hash, s.b.p.outbox[s.heardByA], s.b.tags[s.heardByA]);
  }

  lemma MoveByAKeepsComplete(s: S.Session, hash: Bytes, m: S.Move)
    requires S.SessionOk(s, hash) && BothComplete(s)
    requires m.Own? ==> !m.act.ReceiveAct? && Allowed(s.a, m.act)
    ensures s.a.p.Good() && s.b.p.Good() && BothComplete(S.MoveByA(s, m).0)
  {
    hide S.SessionOk, Sound, Complete, Allowed, Perform;
    S.SessionGood(s, hash);
    if m.Own? {
      hide S.ActByA;
      ActKeepsComplete(s, hash, m.act);
    } else if s.heardByA < |s.b.p.outbox| {
      ReceiveKeepsComplete(s, hash);
    }
  }

  lemma MoveKeepsComplete(s: S.Session, hash: Bytes, m: S.Move)
    requires S.SessionOk(s, hash) && BothComplete(s) && s.a.p.Good() && s.b.p.Good() && S.Permitted(s, m)
    ensures BothComplete(S.MakeMove(s, m).0)
  {
    hide S.SessionOk, Sound, BothComplete, Allowed, S.MoveByA;
    if m.byA {
      MoveByAKeepsComplete(s, hash, m);
    } else {
      S.SwapOk(s, hash);
      SwapComplete(s);
      MoveByAKeepsComplete(s.Swap(), hash, m);
      SwapComplete(S.MoveByA(s.Swap(), m).0);
    }
  }

  /** Inboxes stay complete in every session. */
  lemma {:induction false} SessionComplete(s: S.Session, hash: Bytes, moves: seq<S.Move>)
    requires S.SessionOk(s, hash) && s.a.p.Good() && s.b.p.Good() && BothComplete(s) && S.AllPermitted(s, moves)
    ensures BothComplete(S.Play(s, moves))
    decreases |moves|
  {
    hide S.SessionOk, Sound, BothComplete, S.MakeMove, S.Permitted;
    if moves == [] {
    } else {
      var n := |moves| - 1;
      SessionComplete(s, hash, moves[..n]);
      S.SessionSafety(s, hash, moves[..n]);
      MoveKeepsComplete(S.Play(s, moves[..n]), hash, moves[n]);
    }
  }

  //
  // What is still to come
  //

  /** The next Open or Close on an id from position `n` on, or the end. */
  function NextControl(sent: seq<ChannelMessage>, n: nat, j: nat): (e: nat)
    requires n <= |sent|
    ensures n <= e <= |sent|
    ensures forall i | n <= i < e :: sent[i].channel == j ==> !sent[i].message.IsControl()
    ensures e < |sent| ==> sent[e].channel == j && sent[e].message.IsControl()
    decreases |sent| - n
  {
    if n == |sent| || (sent[n].channel == j && sent[n].message.IsControl()) then n else NextControl(sent, n + 1, j)
  }

  /** The messages on an id in a list. */
  function OnId(ms: seq<ChannelMessage>, j: nat): seq<Message> {
    if ms == [] then []
    else OnId(ms[..|ms| - 1], j) + if ms[|ms| - 1].channel == j then [ms[|ms| - 1].message] else []
  }

  lemma {:induction false} SinceSplit(sent: seq<ChannelMessage>, n: nat, e: nat, j: nat)
    requires n <= e <= |sent|
    requires forall i | n <= i < e :: sent[i].channel == j ==> !sent[i].message.IsControl()
    ensures SinceOpen(sent, e, j) == SinceOpen(sent, n, j) + OnId(sent[n..e], j)
    ensures Opener(sent, e, j) == Opener(sent, n, j)
    decreases e
  {
    var before := SinceOpen(sent, n, j);
    if e == n {
      assert sent[n..e] == [];
      assert before + [] == before;
    } else {
      SinceSplit(sent, n, e - 1, j);
      assert sent[n..e][..|sent[n..e]| - 1] == sent[n..e - 1] && sent[n..e][|sent[n..e]| - 1] == sent[e - 1];
      var last := if sent[e - 1].channel == j then [sent[e - 1].message] else [];
      assert (before + OnId(sent[n..e - 1], j)) + last == before + (OnId(sent[n..e - 1], j) + last);
    }
  }

  /**
   The inbox of a key, followed by the messages in flight on its id up to the end of that id, is what the
   peer has sent since its Open for the key; and all of it was sent on a channel of the key.
   */
  predicate Delivers(t: Table, sent: seq<ChannelMessage>, tags: seq<Key>, n: nat, dk: Key)
    requires n <= |sent| == |tags| && dk in t.channels && t.channels[dk].IsConnected()
  {
    var h := t.channels[dk];
    var j := h.remote.value.remoteId;
    var e := NextControl(sent, n, j);
    && h.inbox.Some? && h.inbox.value < |t.inboxes|
    && IsOpenFor(Opener(sent, e, j), dk) && TaggedSince(sent, tags, e, j, dk)
    && (t.inboxes[h.inbox.value].receiving ==>
          t.inboxes[h.inbox.value].messages + OnId(sent[n..e], j) == SinceOpen(sent, e, j))
  }

  ghost predicate AllDelivered(t: Table, sent: seq<ChannelMessage>, tags: seq<Key>, n: nat) {
    && n <= |sent| == |tags|
    && forall dk | dk in t.channels && t.channels[dk].IsConnected() :: Delivers(t, sent, tags, n, dk)
  }

  /** Traffic on the id of a connected key, before the end of that id, carries that key. */
  lemma {:induction false} TrafficIsOwn(v: View, link: seq<Signal>, i: nat, j: nat, dk: Key, k: nat)
    requires Proper(v) && AllFit(v, link) && i in v.l && v.l[i] == dk && j in v.r && v.r[j] == dk
    requires k < |link| && Ended(j) !in link[..k] && link[k].Traffic? && link[k].id == j
    ensures link[k].dk == dk
    decreases |link|
  {
    if k == 0 {
    } else {
      var s := link[0];
      assert s == link[..k][0];
      HearProper(v, s);
      KeepsKey(v, s, i, j, dk);
      assert link[1..][..k - 1] == link[..k][1..];
      TrafficIsOwn(Hear(v, s), link[1..], i, j, dk, k - 1);
    }
  }

  lemma {:induction false} TaggedAhead(sent: seq<ChannelMessage>, tags: seq<Key>, n: nat, e: nat, j: nat, dk: Key)
    requires n <= e <= |sent| == |tags| && TaggedSince(sent, tags, n, j, dk)
    requires forall i | n <= i < e :: sent[i].channel == j ==> tags[i] == dk
    ensures TaggedSince(sent, tags, e, j, dk)
    decreases e
  {
    if e == n {
    } else {
      TaggedAhead(sent, tags, n, e - 1, j, dk);
    }
  }

  lemma AheadIsOwn(s: S.Session, hash: Bytes, dk: Key, k: nat)
    requires S.SessionOk(s, hash) && dk in s.a.p.table.channels && s.a.p.table.channels[dk].IsConnected()
    requires var j := s.a.p.table.channels[dk].remote.value.remoteId;
             && s.heardByA <= |s.b.p.outbox| && s.heardByA <= k < NextControl(s.b.p.outbox, s.heardByA, j)
             && s.b.p.outbox[k].channel == j
    ensures k < |s.b.tags| && s.b.tags[k] == dk
  {
    hide S.SessionOk, Sound, ViewOf, AllFit, SignalOf, S.Link, NextControl;
    SessionViews(s, hash, dk);
    var h, n, link := s.a.p.table.channels[dk], s.heardByA, S.Link(s.b, s.heardByA);
    var j, i := h.remote.value.remoteId, h.local.value.localId;
    assert |link| == |s.b.p.outbox| - n by { LinkLength(s.b, n); }
    forall x | 0 <= x < k - n ensures link[x] != Ended(j) {
      LinkAt(s.b, n, x, j);
    }
    LinkAt(s.b, n, k - n, j);
    TrafficIsOwn(ViewOf(s.a.p.table), link, i, j, dk, k - n);
  }

  lemma LinkLength(q: Peer, n: nat)
    requires n <= |q.p.outbox| == |q.tags|
    ensures |S.Link(q, n)| == |q.p.outbox| - n
  {
  }

  lemma LinkAt(q: Peer, n: nat, x: nat, j: nat)
    requires n + x < |q.p.outbox| == |q.tags| && (q.p.outbox[n + x].channel == j ==> !q.p.outbox[n + x].message.IsControl())
    ensures x < |S.Link(q, n)| && S.Link(q, n)[x] != Ended(j)
    ensures q.p.outbox[n + x].channel == j ==> S.Link(q, n)[x] == Traffic(j, q.tags[n + x])
  {
    assert S.Link(q, n)[x] == SignalOf(q.p.outbox[n + x], q.tags[n + x]);
  }

  lemma SessionViews(s: S.Session, hash: Bytes, dk: Key)
    requires S.SessionOk(s, hash) && dk in s.a.p.table.channels && s.a.p.table.channels[dk].IsConnected()
    ensures |s.b.tags| == |s.b.p.outbox| && s.heardByA <= |s.b.p.outbox|
    ensures var v, h := ViewOf(s.a.p.table), s.a.p.table.channels[dk];
            var i, j := h.local.value.localId, h.remote.value.remoteId;
            && Proper(v) && AllFit(v, S.Link(s.b, s.heardByA))
            && i in v.l && v.l[i] == dk && j in v.r && v.r[j] == dk
  {
    hide AllFit, HandlesOk, ChannelsOk, PendingOk, OutboxOk;
    assert HandleSound(s.a.p.table, dk);
  }

  lemma CompleteDelivers(s: S.Session, hash: Bytes)
    requires S.SessionOk(s, hash) && Complete(s.a.p.table, s.b.p.outbox, s.b.tags, s.heardByA)
    ensures AllDelivered(s.a.p.table, s.b.p.outbox, s.b.tags, s.heardByA)
  {
    hide S.SessionOk, Opener, SinceOpen, TaggedSince, NextControl, OnId;
    var t, sent, tags, n := s.a.p.table, s.b.p.outbox, s.b.tags, s.heardByA;
    forall dk | dk in t.channels && t.channels[dk].IsConnected() ensures Delivers(t, sent, tags, n, dk) {
      assert RemotelyAttached(t, dk) && KeyComplete(t, sent, tags, n, dk);
      var j := t.channels[dk].remote.value.remoteId;
      var e := NextControl(sent, n, j);
      SinceSplit(sent, n, e, j);
      forall k | n <= k < e && sent[k].channel == j ensures tags[k] == dk {
        AheadIsOwn(s, hash, dk, k);
      }
      TaggedAhead(sent, tags, n, e, j, dk);
    }
  }

  lemma FreshComplete(crypto: Crypto, hash: Bytes, keyOfA: Key, keyOfB: Key)
    ensures BothComplete(S.Connect(crypto, hash, keyOfA, keyOfB))
  {
  }

  /**
   Delivery over whole sessions. At any time of any session on a fresh connection, for every connected key
   of either side whose receiver has not been dropped: its inbox, followed by the messages in flight on its
   id, is everything the peer sent on its channel of that key since its Open, in order.
   */
  lemma SessionDelivery(crypto: Crypto, hash: Bytes, keyOfA: Key, keyOfB: Key, moves: seq<S.Move>)
    requires crypto.Injective() && S.AllPermitted(S.Connect(crypto, hash, keyOfA, keyOfB), moves)
    ensures var s := S.Play(S.Connect(crypto, hash, keyOfA, keyOfB), moves);
            && AllDelivered(s.a.p.table, s.b.p.outbox, s.b.tags, s.heardByA)
            && AllDelivered(s.b.p.table, s.a.p.outbox, s.a.tags, s.heardByB)
  {
    hide S.AllPermitted, S.Play, S.SessionOk, S.Connect, Complete, AllDelivered, Sound;
    var s0 := S.Connect(crypto, hash, keyOfA, keyOfB);
    S.ConnectOk(crypto, hash, keyOfA, keyOfB);
    FreshComplete(crypto, hash, keyOfA, keyOfB);
    S.SessionSafety(s0, hash, moves);
    SessionComplete(s0, hash, moves);
    var s := S.Play(s0, moves);
    CompleteDelivers(s, hash);
    S.SwapOk(s, hash);
    CompleteDelivers(s.Swap(), hash);
  }
}
