/** One side of a connection between two well-behaved users, and what each of its actions does to its table. */
module Peers {
  import opened Wrappers
  import opened Compact
  import opened Handshake
  import opened Messages
  import opened Channels
  import opened ProtocolModel
  import opened ChannelTheorems
  import E = EventTheorems
  import opened Views
  import W = WireSchema

  /** A batch sent on a channel, with the discovery key of that channel. */
  datatype Batch = Batch(dk: Key, messages: seq<ChannelMessage>)

  /**
   The protocol, the batches its channels have sent but it has not handled yet, and for every message
   in its outbox the discovery key of the channel it was sent on or for.
   */
  datatype Peer = Peer(p: Proto, pending: seq<Batch>, tags: seq<Key>)

  /** What a user, or the connection, makes a peer do. */
  datatype Act =
    | OpenAct(key: Key)
    | SendAct(channel: Channel, messages: seq<Message>)
    | CloseAct(channel: Channel)
    | FlushAct                                 // handle the oldest pending batch
    | ReceiveAct(message: ChannelMessage)
    | EventAct(step: Step)                     // return an event or queue a local signal
    | DropAct(inbox: nat)                      // drop a receiver

  datatype Acted = Acted(peer: Peer, problem: Option<Problem>)

  function CloseBatch(c: Channel): seq<ChannelMessage> {
    [ChannelMessage(c.localId, Close(W.Close(c.localId)))]
  }

  /** What an act does; channels that this side never announced are ignored. */
  function Perform(q: Peer, act: Act): (r: Acted)
    requires q.p.Good()
    ensures r.peer.p.Good()
  {
    match act
    case OpenAct(key) =>
      var d := Take(q.p, Execute(OpenKey(key)));
      var tags := if d.problem.None? then q.tags + [q.p.crypto.discovery(key)] else q.tags;
      Acted(q.(p := d.p, tags := tags), d.problem)
    case SendAct(c, ms) =>
      if c.cell >= |q.p.table.cells| then Acted(q, None)
      else
        var sent := SendOn(q.p.table, c, ms);
        Acted(if sent.Success? then q.(pending := q.pending + [Batch(c.discoveryKey, sent.value)]) else q, None)
    case CloseAct(c) =>
      if c.cell >= |q.p.table.cells| || q.p.table.cells[c.cell].closed then Acted(q, None)
      else
        var batch := Batch(c.discoveryKey, CloseBatch(c));
        Acted(q.(p := Take(q.p, ShutFlag(c.cell)).p, pending := q.pending + [batch]), None)
    case FlushAct =>
      if q.pending == [] then Acted(q, None)
      else
        var batch := q.pending[0];
        var tags := q.tags + seq(|Kept(batch.messages)|, _ => batch.dk);
        Acted(Peer(Take(q.p, Outbound(batch.messages)).p, q.pending[1..], tags), None)
    case ReceiveAct(m) =>
      var d := Take(q.p, Inbound(m));
      Acted(q.(p := d.p), d.problem)
    case EventAct(step) =>
      var d := Take(q.p, step);
      Acted(q.(p := d.p), d.problem)
    case DropAct(inbox) => Acted(q.(p := Take(q.p, DropQueue(inbox)).p), None)
  }

  //
  // Tables as views
  //

  function Index(ids: seq<Option<Key>>): map<nat, Key> {
    map i: nat | i < |ids| && ids[i].Some? :: ids[i].value
  }

  function ViewOf(t: Table): View { View(Index(t.localIds), Index(t.remoteIds)) }

  lemma ViewProper(t: Table)
    requires Sound(t) && Exact(t)
    ensures Proper(ViewOf(t))
  {
  }

  lemma ViewValues(t: Table, dk: Key)
    requires Sound(t) && Exact(t)
    ensures dk in ViewOf(t).l.Values <==> LocallyAttached(t, dk)
    ensures dk in ViewOf(t).r.Values <==> RemotelyAttached(t, dk)
  {
    if LocallyAttached(t, dk) {
      assert HandleSound(t, dk);
      assert ViewOf(t).l[t.channels[dk].local.value.localId] == dk;
    }
    if RemotelyAttached(t, dk) {
      assert ViewOf(t).r[t.channels[dk].remote.value.remoteId] == dk;
    }
  }

  lemma AssignIndex(ids: seq<Option<Key>>, i: nat, dk: Key)
    ensures Index(Assign(ids, i, dk)) == Index(ids)[i := dk]
  {
  }

  lemma ClearIndex(ids: seq<Option<Key>>, i: nat)
    requires i < |ids|
    ensures Index(ids[i := None]) == Index(ids) - {i}
  {
  }

  lemma ViewAttachLocal(t: Table, dk: Key, key: Key)
    requires Sound(t) && Exact(t) && !LocallyAttached(t, dk)
    ensures var v, id := ViewOf(t), NextLocalId(t);
            ViewOf(AttachLocal(t, dk, key)) == v.(l := v.l[id := dk]) && id !in v.l && dk !in v.l.Values
  {
    AssignIndex(t.localIds, NextLocalId(t), dk);
    ViewValues(t, dk);
  }

  lemma ViewAttachRemote(t: Table, dk: Key, id: nat, capability: Option<Bytes>)
    requires Sound(t) && Exact(t) && id !in ViewOf(t).r && dk !in ViewOf(t).r.Values
    ensures RemoteIdFits(t, dk, id)
    ensures ViewOf(AttachRemote(t, dk, id, capability)) == Hear(ViewOf(t), Opened(id, dk))
  {
    AssignIndex(t.remoteIds, id, dk);
    ViewValues(t, dk);
  }

  /** Removing a handle removes its key from both sides of the view. */
  lemma ViewRemove(t: Table, dk: Key)
    requires Sound(t) && Exact(t) && dk in t.channels
    ensures ViewOf(Remove(t, dk)) == Drop(ViewOf(t), dk)
  {
    hide Index, Without;
    var h, v := t.channels[dk], ViewOf(t);
    assert HandleSound(t, dk);
    ViewProper(t);
    ViewValues(t, dk);
    if h.local.Some? {
      IndexAt(t.localIds, h.local.value.localId);
      ClearIndex(t.localIds, h.local.value.localId);
      WithoutIsRemove(v.l, h.local.value.localId);
    } else {
      AbsentKey(v.l, dk);
    }
    if h.remote.Some? {
      IndexAt(t.remoteIds, h.remote.value.remoteId);
      ClearIndex(t.remoteIds, h.remote.value.remoteId);
      WithoutIsRemove(v.r, h.remote.value.remoteId);
    } else {
      AbsentKey(v.r, dk);
    }
  }

  lemma IndexAt(ids: seq<Option<Key>>, i: nat)
    ensures i in Index(ids) <==> i < |ids| && ids[i].Some?
    ensures i in Index(ids) ==> Index(ids)[i] == ids[i].value
  {
  }

  //
  // A well-kept peer
  //

  /** A capability that shows knowledge of the key behind a discovery key. */
  ghost predicate Proves(crypto: Crypto, role: bool, hash: Bytes, dk: Key, capability: Option<Bytes>) {
    exists key :: crypto.discovery(key) == dk && capability == Some(crypto.capability(role, key, hash))
  }

  ghost predicate HandleOk(p: Proto, hash: Bytes, dk: Key)
    requires dk in p.table.channels
  {
    var h := p.table.channels[dk];
    && (h.local.Some? ==> p.crypto.discovery(h.local.value.key) == dk)
    && (h.remote.Some? ==> Proves(p.crypto, !p.initiator, hash, dk, h.remote.value.capability))
    && (h.IsConnected() ==> h.inbox.Some?)
  }

  /** A channel that is not closed belongs to a connected handle with its local id. */
  predicate ChannelOk(t: Table, c: Channel) {
    && c.cell < |t.cells|
    && (!t.cells[c.cell].closed ==>
          && c.discoveryKey in t.channels
          && t.channels[c.discoveryKey].cell == c.cell
          && t.channels[c.discoveryKey].IsConnected()
          && t.channels[c.discoveryKey].HasLocal(c.localId))
  }

  /** The local id is free, or it is the id of the given key and that key is connected. */
  predicate Usable(t: Table, id: nat, dk: Key) {
    id < |t.localIds| && t.localIds[id].Some? ==>
      t.localIds[id] == Some(dk) && dk in t.channels && t.channels[dk].IsConnected()
  }

  /** What a channel sends: one Close, or messages that are neither Open nor Close. */
  predicate BatchOk(t: Table, b: Batch) {
    && (forall i | 0 <= i < |b.messages| :: Usable(t, b.messages[i].channel, b.dk))
    && (IsLoneClose(b.messages) || NoControl(b.messages))
  }

  predicate IsLoneClose(batch: seq<ChannelMessage>) {
    |batch| == 1 && batch[0].message.Close?
  }

  predicate NoControl(batch: seq<ChannelMessage>) {
    forall i | 0 <= i < |batch| :: !batch[i].message.IsControl()
  }

  ghost predicate OpenOk(p: Proto, hash: Bytes, m: ChannelMessage) {
    m.message.Open? ==>
      && |m.message.open.discoveryKey| == 32
      && Proves(p.crypto, p.initiator, hash, m.message.open.discoveryKey, m.message.open.capability)
  }

  ghost predicate HandlesOk(p: Proto, hash: Bytes) {
    forall dk | dk in p.table.channels :: HandleOk(p, hash, dk)
  }

  ghost predicate ChannelsOk(p: Proto) {
    forall c | Established(c) in p.History() :: ChannelOk(p.table, c)
  }

  predicate PendingOk(t: Table, pending: seq<Batch>) {
    forall i | 0 <= i < |pending| :: BatchOk(t, pending[i])
  }

  ghost predicate OutboxOk(p: Proto, hash: Bytes) {
    forall i | 0 <= i < |p.outbox| :: OpenOk(p, hash, p.outbox[i])
  }

  ghost predicate PeerOk(q: Peer, hash: Bytes) {
    && q.p.Good() && Exact(q.p.table)
    && q.p.crypto.Injective()
    && q.p.hash == Some(hash) && q.p.remoteKey.Some?
    && HandlesOk(q.p, hash)
    && ChannelsOk(q.p)
    && PendingOk(q.p.table, q.pending)
    && OutboxOk(q.p, hash)
    && |q.tags| == |q.p.outbox|
  }

  /**
   What well-behaved users do: open a key only when it is not open, and not while a batch for the id it
   would get is pending; use channels only to send ordinary messages and to close. They drop receivers as
   they like.
   */
  ghost predicate Allowed(q: Peer, act: Act)
    requires q.p.Good()
  {
    match act
    case OpenAct(key) =>
      && !LocallyAttached(q.p.table, q.p.crypto.discovery(key))
      && (forall i, j | 0 <= i < |q.pending| && 0 <= j < |q.pending[i].messages| ::
            q.pending[i].messages[j].channel != NextLocalId(q.p.table))
    case SendAct(c, ms) => Established(c) in q.p.History() && forall i | 0 <= i < |ms| :: !ms[i].IsControl()
    case CloseAct(c) => Established(c) in q.p.History()
    case FlushAct => true
    case ReceiveAct(_) => true
    case EventAct(step) => step.Pop? || step.EmitHandshake? || (step.Execute? && step.command.SignalLocal?)
    case DropAct(_) => true
  }

  //
  // Opening
  //

  /** A proof by the opposite role is accepted. */
  lemma ProofAccepted(p: Proto, hash: Bytes, h: Handle, dk: Key)
    requires p.crypto.Injective() && p.hash == Some(hash) && p.remoteKey.Some?
    requires h.IsConnected() && p.crypto.discovery(h.local.value.key) == dk
    requires Proves(p.crypto, !p.initiator, hash, dk, h.remote.value.capability)
    ensures Verdict(p, h).None?
  {
    var key :| p.crypto.discovery(key) == dk && h.remote.value.capability == Some(p.crypto.capability(!p.initiator, key, hash));
    assert key == h.local.value.key;
  }

  /** The table after a key got its second half: a connected handle also gets an inbox. */
  function Settle(t: Table, dk: Key): (r: Table)
    requires Sound(t) && dk in t.channels
    ensures Sound(r)
  {
    if t.channels[dk].IsConnected() then OpenInbox(t, dk).0 else t
  }

  lemma SettleExact(t: Table, dk: Key)
    requires Sound(t) && Exact(t) && dk in t.channels
    ensures Exact(Settle(t, dk)) && ViewOf(Settle(t, dk)) == ViewOf(t)
    ensures Settle(t, dk).cells == t.cells && Settle(t, dk).localIds == t.localIds
  {
    if t.channels[dk].IsConnected() {
      OpenInboxExact(t, dk);
    }
  }

  /** Handles stay in order when one key gets a half it did not have. */
  lemma HandlesAfterAttach(p: Proto, hash: Bytes, t: Table, dk: Key)
    requires p.Good() && HandlesOk(p, hash) && Sound(t) && dk in t.channels
    requires t.inboxes == p.table.inboxes
    requires forall d | d in t.channels && d != dk :: d in p.table.channels && t.channels[d] == p.table.channels[d]
    requires t.channels[dk].local.Some? ==> p.crypto.discovery(t.channels[dk].local.value.key) == dk
    requires t.channels[dk].remote.Some? ==> Proves(p.crypto, !p.initiator, hash, dk, t.channels[dk].remote.value.capability)
    ensures HandlesOk(p.(table := Settle(t, dk)), hash)
  {
    hide Sound, Proves;
    var q := p.(table := Settle(t, dk));
    forall d | d in q.table.channels ensures HandleOk(q, hash, d) {
      if d != dk {
        assert HandleOk(p, hash, d);
      }
    }
  }

  /** Channels announced before stay in order: those of the key that is attached now were closed. */
  lemma ChannelsAfterAttach(p: Proto, t: Table, dk: Key, c: Channel)
    requires p.Good() && Sound(t) && dk in t.channels && ChannelOk(p.table, c)
    requires |p.table.cells| <= |t.cells| && p.table.cells == t.cells[..|p.table.cells|]
    requires forall d | d in p.table.channels && d != dk :: d in t.channels && t.channels[d] == p.table.channels[d]
    requires dk in p.table.channels ==> !p.table.channels[dk].IsConnected()
    ensures ChannelOk(Settle(t, dk), c)
  {
    hide Sound;
    assert t.cells[c.cell] == p.table.cells[c.cell];
  }

  /** The channel just announced is in order. */
  lemma NewChannelOk(t: Table, dk: Key)
    requires Sound(t) && dk in t.channels && t.channels[dk].IsConnected()
    ensures ChannelOk(OpenInbox(t, dk).0, OpenInbox(t, dk).1)
  {
    assert HandleSound(t, dk);
  }

  lemma PendingAfterAttach(p: Proto, t: Table, dk: Key, b: Batch)
    requires p.Good() && Exact(p.table) && Sound(t) && Exact(t) && dk in t.channels && BatchOk(p.table, b)
    requires forall d | d in p.table.channels && d != dk :: d in t.channels && t.channels[d] == p.table.channels[d]
    requires dk in p.table.channels && p.table.channels[dk].IsConnected() ==> t.channels[dk].IsConnected()
    requires forall j | 0 <= j < |b.messages| && b.messages[j].channel < |t.localIds| && t.localIds[b.messages[j].channel].Some? ::
               b.messages[j].channel < |p.table.localIds|
               && p.table.localIds[b.messages[j].channel] == t.localIds[b.messages[j].channel]
    ensures BatchOk(Settle(t, dk), b)
  {
    hide Sound;
    SettleExact(t, dk);
    forall j | 0 <= j < |b.messages| ensures Usable(Settle(t, dk), b.messages[j].channel, b.dk) {
      assert Usable(p.table, b.messages[j].channel, b.dk);
    }
  }

  lemma OutboxAppend(p: Proto, hash: Bytes, m: ChannelMessage)
    requires OutboxOk(p, hash) && OpenOk(p, hash, m)
    ensures OutboxOk(p.Send(m), hash)
  {
    hide Proves;
    forall i | 0 <= i < |p.Send(m).outbox| ensures OpenOk(p.Send(m), hash, p.Send(m).outbox[i]) {
      if i < |p.outbox| {
        assert OpenOk(p, hash, p.outbox[i]);
      }
    }
  }

  /** Attaching a half that a key did not have keeps the peer in order. */
  lemma AfterAttach(q: Peer, hash: Bytes, t: Table, dk: Key, r: Proto, tags: seq<Key>)
    requires PeerOk(q, hash) && E.SamePeer(q.p, r) && Sound(t) && Exact(t) && dk in t.channels
    requires r.table == Settle(t, dk) && t.inboxes == q.p.table.inboxes
    requires |q.p.table.cells| <= |t.cells| && q.p.table.cells == t.cells[..|q.p.table.cells|]
    requires forall d | d in t.channels && d != dk :: d in q.p.table.channels
    requires forall d | d in q.p.table.channels && d != dk :: d in t.channels && t.channels[d] == q.p.table.channels[d]
    requires dk in q.p.table.channels ==> !q.p.table.channels[dk].IsConnected()
    requires t.channels[dk].local.Some? ==> q.p.crypto.discovery(t.channels[dk].local.value.key) == dk
    requires t.channels[dk].remote.Some? ==> Proves(q.p.crypto, !q.p.initiator, hash, dk, t.channels[dk].remote.value.capability)
    requires forall i, j | 0 <= i < |q.pending| && 0 <= j < |q.pending[i].messages| ::
               var id := q.pending[i].messages[j].channel;
               id < |t.localIds| && t.localIds[id].Some? ==>
                 id < |q.p.table.localIds| && q.p.table.localIds[id] == t.localIds[id]
    requires forall c | Established(c) in r.History() && Established(c) !in q.p.History() ::
               t.channels[dk].IsConnected() && c == OpenInbox(t, dk).1
    requires OutboxOk(r, hash) && |tags| == |r.outbox|
    ensures PeerOk(Peer(r, q.pending, tags), hash) && ViewOf(r.table) == ViewOf(t)
  {
    hide Sound, Exact, HandleOk, ChannelOk, BatchOk, OutboxOk, Proves, Settle;
    SettleExact(t, dk);
    HandlesAfterAttach(q.p, hash, t, dk);
    assert HandlesOk(r, hash) by { SameHandles(q.p.(table := r.table), r, hash); }
    forall c | Established(c) in r.History() ensures ChannelOk(r.table, c) {
      if Established(c) in q.p.History() {
        ChannelsAfterAttach(q.p, t, dk, c);
      } else {
        NewChannelOk(t, dk);
        Settled(t, dk);
      }
    }
    forall i | 0 <= i < |q.pending| ensures BatchOk(r.table, q.pending[i]) {
      PendingAfterAttach(q.p, t, dk, q.pending[i]);
    }
  }

  lemma Settled(t: Table, dk: Key)
    requires Sound(t) && dk in t.channels && t.channels[dk].IsConnected()
    ensures Settle(t, dk) == OpenInbox(t, dk).0
  {
  }

  lemma SameHandles(p: Proto, r: Proto, hash: Bytes)
    requires HandlesOk(p, hash) && r.table == p.table && r.crypto == p.crypto && r.initiator == p.initiator
    ensures HandlesOk(r, hash)
  {
    hide Proves;
    forall dk | dk in r.table.channels ensures HandleOk(r, hash, dk) {
      assert HandleOk(p, hash, dk);
    }
  }

  lemma SameOutbox(p: Proto, r: Proto, hash: Bytes)
    requires OutboxOk(p, hash) && r.outbox == p.outbox && r.crypto == p.crypto && r.initiator == p.initiator
    ensures OutboxOk(r, hash)
  {
    hide Proves;
    forall i | 0 <= i < |r.outbox| ensures OpenOk(r, hash, r.outbox[i]) {
      assert OpenOk(p, hash, p.outbox[i]);
    }
  }

  /** What a message, sent on a channel of the given key, means to the receiver's table. */
  function SignalOf(m: ChannelMessage, dk: Key): Signal {
    match m.message
    case Open(o) => if |o.discoveryKey| == 32 then Opened(m.channel, o.discoveryKey) else Traffic(m.channel, dk)
    case Close(_) => Ended(m.channel)
    case _ => Traffic(m.channel, dk)
  }

  lemma OpenStep(q: Peer, hash: Bytes, key: Key)
    requires PeerOk(q, hash) && Allowed(q, OpenAct(key))
    ensures var r := Perform(q, OpenAct(key));
            var dk, id, v := q.p.crypto.discovery(key), NextLocalId(q.p.table), ViewOf(q.p.table);
            && r.problem.None? && PeerOk(r.peer, hash) && E.SamePeer(q.p, r.peer.p)
            && id !in v.l && dk !in v.l.Values
            && ViewOf(r.peer.p.table) == v.(l := v.l[id := dk])
            && r.peer.p.outbox == q.p.outbox + [OpenMessage(q.p, id, dk, key)]
            && r.peer.tags == q.tags + [dk]
            && SignalOf(OpenMessage(q.p, id, dk, key), dk) == Opened(id, dk)
  {
    hide Sound, Exact, HandlesOk, ChannelsOk, BatchOk, OutboxOk, AcceptChannel, CommandOpen, OpenInbox;
    var dk, id := q.p.crypto.discovery(key), NextLocalId(q.p.table);
    var t, r := AttachLocal(q.p.table, dk, key), Perform(q, OpenAct(key)).peer.p;
    CommandOpenOutcome(q.p, key);
    OpenCommand(q.p, key);
    AttachLocalExact(q.p.table, dk, key);
    ViewAttachLocal(q.p.table, dk, key);
    RemoteHalf(q.p, hash, dk);
    if t.channels[dk].IsConnected() {
      ProofAccepted(q.p, hash, t.channels[dk], dk);
    }
    var m := OpenMessage(q.p, id, dk, key);
    assert OutboxOk(r, hash) by {
      OwnProof(q.p, hash, key);
      OutboxAppend(q.p, hash, m);
      SameOutbox(q.p.Send(m), r, hash);
    }
    AfterAttach(q, hash, t, dk, r, q.tags + [dk]);
  }

  lemma RemoteHalf(p: Proto, hash: Bytes, dk: Key)
    requires HandlesOk(p, hash)
    ensures dk in p.table.channels ==> HandleOk(p, hash, dk)
  {
  }

  /** A peer's own Open proves that it knows the key. */
  lemma OwnProof(p: Proto, hash: Bytes, key: Key)
    requires p.hash == Some(hash) && p.remoteKey.Some?
    ensures forall id :: OpenOk(p, hash, OpenMessage(p, id, p.crypto.discovery(key), key))
  {
    var dk := p.crypto.discovery(key);
    assert p.Capability(key) == Some(p.crypto.capability(p.initiator, key, hash));
    assert Proves(p.crypto, p.initiator, hash, dk, p.Capability(key));
  }

  lemma ReceiveOpenStep(q: Peer, hash: Bytes, m: ChannelMessage, tag: Key)
    requires PeerOk(q, hash) && m.message.Open? && |m.message.open.discoveryKey| == 32
    requires Proves(q.p.crypto, !q.p.initiator, hash, m.message.open.discoveryKey, m.message.open.capability)
    requires Fits(ViewOf(q.p.table), SignalOf(m, tag))
    ensures var r := Perform(q, ReceiveAct(m));
            && r.problem.None? && PeerOk(r.peer, hash) && E.SamePeer(q.p, r.peer.p)
            && ViewOf(r.peer.p.table) == Hear(ViewOf(q.p.table), SignalOf(m, tag))
            && r.peer.p.outbox == q.p.outbox && r.peer.tags == q.tags
  {
    hide Sound, Exact, HandlesOk, ChannelsOk, BatchOk, OutboxOk, AcceptChannel, OnOpen, OpenInbox, Proves;
    var o := m.message.open;
    var dk: Key := o.discoveryKey;
    var t, r := AttachRemote(q.p.table, dk, m.channel, o.capability), Perform(q, ReceiveAct(m)).peer.p;
    OnOpenOutcome(q.p, m);
    ViewAttachRemote(q.p.table, dk, m.channel, o.capability);
    AttachRemoteExact(q.p.table, dk, m.channel, o.capability);
    ViewValues(q.p.table, dk);
    RemoteHalf(q.p, hash, dk);
    if t.channels[dk].IsConnected() {
      ProofAccepted(q.p, hash, t.channels[dk], dk);
    }
    SameOutbox(q.p, r, hash);
    AfterAttach(q, hash, t, dk, r, q.tags);
  }

  //
  // Closing
  //

  /** Removing a key keeps the peer in order: its channels report closed and its ids are free. */
  lemma AfterRemove(q: Peer, hash: Bytes, t: Table, dk: Key, r: Proto, pending: seq<Batch>, tags: seq<Key>)
    requires PeerOk(q, hash) && E.SamePeer(q.p, r) && Sound(t) && dk in t.channels
    requires t == q.p.table.(inboxes := t.inboxes) && |t.inboxes| == |q.p.table.inboxes|
    requires r.table == Remove(t, dk)
    requires forall c | Established(c) in r.History() :: Established(c) in q.p.History()
    requires forall i | 0 <= i < |pending| :: pending[i] in q.pending
    requires OutboxOk(r, hash) && |tags| == |r.outbox|
    ensures PeerOk(Peer(r, pending, tags), hash) && ViewOf(r.table) == Drop(ViewOf(q.p.table), dk)
  {
    hide HandleOk, ChannelOk, BatchOk, OutboxOk, Proves;
    assert Exact(t);
    RemoveExact(t, dk);
    ViewRemove(t, dk);
    forall d | d in r.table.channels ensures HandleOk(r, hash, d) {
      assert HandleOk(q.p, hash, d);
      SameHandle(q.p, r, hash, d);
    }
    forall c | Established(c) in r.History() ensures ChannelOk(r.table, c) {
      assert ChannelOk(q.p.table, c);
      RemovedChannel(q.p.table, t, dk, c);
    }
    forall i | 0 <= i < |pending| ensures BatchOk(r.table, pending[i]) {
      assert BatchOk(q.p.table, pending[i]);
      RemovedBatch(q.p.table, t, dk, pending[i]);
    }
  }

  lemma SameHandle(p: Proto, r: Proto, hash: Bytes, dk: Key)
    requires dk in p.table.channels && dk in r.table.channels && HandleOk(p, hash, dk)
    requires r.table.channels[dk] == p.table.channels[dk] && r.crypto == p.crypto && r.initiator == p.initiator
    ensures HandleOk(r, hash, dk)
  {
    hide Proves;
  }

  lemma RemovedChannel(s: Table, t: Table, dk: Key, c: Channel)
    requires Sound(t) && t == s.(inboxes := t.inboxes) && dk in t.channels && ChannelOk(s, c)
    ensures ChannelOk(Remove(t, dk), c)
  {
    assert HandleSound(t, dk);
  }

  lemma RemovedBatch(s: Table, t: Table, dk: Key, b: Batch)
    requires Sound(t) && Exact(t) && t == s.(inboxes := t.inboxes) && dk in t.channels && BatchOk(s, b)
    ensures BatchOk(Remove(t, dk), b)
  {
    var r := Remove(t, dk);
    assert HandleSound(t, dk);
    forall j | 0 <= j < |b.messages| ensures Usable(r, b.messages[j].channel, b.dk) {
      assert Usable(s, b.messages[j].channel, b.dk);
    }
  }

  lemma ReceiveCloseStep(q: Peer, hash: Bytes, m: ChannelMessage, tag: Key)
    requires PeerOk(q, hash) && m.message.Close?
    ensures var r := Perform(q, ReceiveAct(m));
            && r.problem.None? && PeerOk(r.peer, hash) && E.SamePeer(q.p, r.peer.p)
            && ViewOf(r.peer.p.table) == Hear(ViewOf(q.p.table), SignalOf(m, tag))
            && r.peer.p.outbox == q.p.outbox && r.peer.tags == q.tags
  {
    hide Exact, HandlesOk, ChannelsOk, BatchOk, OutboxOk, Remove, HandleSound, InTable;
    var t, id := q.p.table, m.channel;
    var v := ViewOf(t);
    var found := GetRemote(t, id);
    RemoteInView(t, id);
    if found.Some? {
      var dk := found.value.discoveryKey;
      OwnKey(t, id);
      var u := ForwardTolerant(t, id, m.message);
      ForwardEffect(t, id, m.message);
      var r := OnClose(q.p, id, m.message);
      SameOutbox(q.p, r, hash);
      AfterRemove(q, hash, u, dk, r, q.pending, q.tags);
      assert Drop(v, dk) == Hear(v, Ended(id)) by { DropIsHear(t, id); }
    }
  }

  lemma RemoteInView(t: Table, id: nat)
    requires Sound(t) && Exact(t)
    ensures GetRemote(t, id).Some? <==> id in ViewOf(t).r
    ensures GetRemote(t, id).Some? ==> ViewOf(t).r[id] == GetRemote(t, id).value.discoveryKey
  {
    OwnKey(t, id);
  }

  lemma LocalInView(t: Table, id: nat)
    requires Sound(t) && Exact(t)
    ensures GetLocal(t, id).Some? <==> id in ViewOf(t).l
    ensures GetLocal(t, id).Some? ==> ViewOf(t).l[id] == GetLocal(t, id).value.discoveryKey
  {
    OwnKey(t, id);
  }

  lemma DropIsHear(t: Table, id: nat)
    requires Sound(t) && Exact(t) && id in ViewOf(t).r
    ensures Drop(ViewOf(t), ViewOf(t).r[id]) == Hear(ViewOf(t), Ended(id))
  {
    ViewProper(t);
    WithoutIsRemove(ViewOf(t).r, id);
  }

  //
  // Traffic
  //

  /** A peer whose table did not change, except for its inboxes. */
  lemma AfterTraffic(q: Peer, hash: Bytes, r: Proto, pending: seq<Batch>, tags: seq<Key>)
    requires PeerOk(q, hash) && E.SamePeer(q.p, r) && Sound(r.table)
    requires r.table == q.p.table.(inboxes := r.table.inboxes) && |r.table.inboxes| == |q.p.table.inboxes|
    requires forall c | Established(c) in r.History() :: Established(c) in q.p.History()
    requires forall i | 0 <= i < |pending| :: pending[i] in q.pending || BatchOk(q.p.table, pending[i])
    requires OutboxOk(r, hash) && |tags| == |r.outbox|
    ensures PeerOk(Peer(r, pending, tags), hash) && ViewOf(r.table) == ViewOf(q.p.table)
  {
    hide HandleOk, OutboxOk, Proves, Sound;
    assert Exact(r.table);
    forall d | d in r.table.channels ensures HandleOk(r, hash, d) {
      assert HandleOk(q.p, hash, d);
      SameHandle(q.p, r, hash, d);
    }
    forall i | 0 <= i < |pending| ensures BatchOk(r.table, pending[i]) {
      assert BatchOk(q.p.table, pending[i]);
    }
  }

  /** The only inboxes a received message can reach are those of channels with its own key. */
  predicate OnlyOwnInbox(t: Table, r: Table, m: Message, tag: Key) {
    |r.inboxes| == |t.inboxes|
    && forall x | 0 <= x < |t.inboxes| && r.inboxes[x] != t.inboxes[x] ::
         t.inboxes[x].owner == tag && r.inboxes[x] == t.inboxes[x].(messages := t.inboxes[x].messages + [m])
  }

  /** The message would go to an inbox whose receiver has been dropped. */
  predicate Deaf(t: Table, m: ChannelMessage) {
    && !m.message.IsControl()
    && var found := GetRemote(t, m.channel);
       && found.Some? && found.value.inbox.Some?
       && found.value.inbox.value < |t.inboxes| && !t.inboxes[found.value.inbox.value].receiving
  }

  /** How receiving a message that fits ends: it is refused if and only if its receiver has been dropped. */
  function Reception(t: Table, m: ChannelMessage): Option<Problem> {
    if Deaf(t, m) then Some(TableProblem(ReceiverGone)) else None
  }

  /** A message that fits is forwarded to the inbox of its own key, ignored, or refused. */
  lemma FitsForward(q: Peer, hash: Bytes, m: ChannelMessage, tag: Key)
    requires PeerOk(q, hash) && !m.message.IsControl() && Fits(ViewOf(q.p.table), SignalOf(m, tag))
    ensures var f := Forward(q.p.table, m.channel, m.message);
            if Deaf(q.p.table, m) then f == Failure(ReceiverGone)
            else f.Success? && OnlyOwnInbox(q.p.table, f.value, m.message, tag)
  {
    hide Exact, ChannelsOk, BatchOk, OutboxOk, HandleSound, InTable, Proves, ViewOf;
    var t, id := q.p.table, m.channel;
    RemoteInView(t, id);
    if id in ViewOf(t).r {
      ViewValues(t, tag);
      OwnKey(t, id);
      assert HandleOk(q.p, hash, tag);
      OwnInbox(t, tag);
    }
  }

  lemma ReceiveOtherStep(q: Peer, hash: Bytes, m: ChannelMessage, tag: Key)
    requires PeerOk(q, hash) && !m.message.IsControl() && Fits(ViewOf(q.p.table), SignalOf(m, tag))
    ensures var r := Perform(q, ReceiveAct(m));
            && r.problem == Reception(q.p.table, m) && (r.problem.Some? ==> r.peer == q)
            && PeerOk(r.peer, hash) && E.SamePeer(q.p, r.peer.p)
            && ViewOf(r.peer.p.table) == Hear(ViewOf(q.p.table), SignalOf(m, tag))
            && r.peer.p.outbox == q.p.outbox && r.peer.tags == q.tags
            && OnlyOwnInbox(q.p.table, r.peer.p.table, m.message, tag)
  {
    hide Exact, HandlesOk, ChannelsOk, BatchOk, OutboxOk, Sound, Forward, ViewOf, Deaf;
    FitsForward(q, hash, m, tag);
    var t, id := q.p.table, m.channel;
    if !Deaf(t, m) {
      hide OnlyOwnInbox;
      var r := OnInboundMessage(q.p, m).p;
      ForwardEffect(t, id, m.message);
      SameOutbox(q.p, r, hash);
      AfterTraffic(q, hash, r, q.pending, q.tags);
    }
  }

  lemma OwnInbox(t: Table, dk: Key)
    requires Sound(t) && dk in t.channels && t.channels[dk].inbox.Some?
    ensures t.channels[dk].inbox.value < |t.inboxes| && t.inboxes[t.channels[dk].inbox.value].owner == dk
  {
    assert HandleSound(t, dk);
  }

  /** Messages that are neither Open nor Close change no table on their way out. */
  lemma {:induction false} QuietBatch(p: Proto, ms: seq<ChannelMessage>)
    requires p.Good() && NoControl(ms)
    ensures var r := OnBatch(p, ms);
            r == p.(events := r.events) && forall c | Established(c) in r.History() :: Established(c) in p.History()
  {
    BatchNarrows(p, ms);
    if ms == [] {
    } else {
      QuietBatch(p, ms[..|ms| - 1]);
    }
  }

  lemma FlushTrafficStep(q: Peer, hash: Bytes)
    requires PeerOk(q, hash) && q.pending != [] && NoControl(q.pending[0].messages)
    ensures var r, b := Perform(q, FlushAct).peer, q.pending[0];
            && PeerOk(r, hash) && E.SamePeer(q.p, r.p) && ViewOf(r.p.table) == ViewOf(q.p.table)
            && r.p.outbox == q.p.outbox + Kept(b.messages)
            && r.tags == q.tags + seq(|Kept(b.messages)|, _ => b.dk)
  {
    hide Exact, HandlesOk, ChannelsOk, BatchOk, Sound, OnBatch, Kept, Proves;
    var ms := q.pending[0].messages;
    QuietBatch(q.p, ms);
    var r := OnOutbound(q.p, ms);
    forall i | 0 <= i < |r.outbox| ensures OpenOk(r, hash, r.outbox[i]) {
      if i < |q.p.outbox| {
        assert OpenOk(q.p, hash, q.p.outbox[i]);
      } else {
        assert r.outbox[i] == Kept(ms)[i - |q.p.outbox|];
      }
    }
    AfterTraffic(q, hash, r, q.pending[1..], Perform(q, FlushAct).peer.tags);
  }

  lemma FlushCloseStep(q: Peer, hash: Bytes)
    requires PeerOk(q, hash) && q.pending != [] && IsLoneClose(q.pending[0].messages)
    ensures var r, v, m := Perform(q, FlushAct).peer, ViewOf(q.p.table), q.pending[0].messages[0];
            && PeerOk(r, hash) && E.SamePeer(q.p, r.p)
            && ViewOf(r.p.table) == (if m.channel in v.l then Drop(v, v.l[m.channel]) else v)
            && (m.channel in v.l ==> v.l[m.channel] in v.r.Values)
            && r.p.outbox == q.p.outbox + [m] && r.tags == q.tags + [q.pending[0].dk]
  {
    hide Exact, HandlesOk, ChannelsOk, Sound, Remove, Proves, OutboxOk;
    var b, t := q.pending[0], q.p.table;
    var m := b.messages[0];
    assert BatchOk(t, b) && Usable(t, m.channel, b.dk);
    LoneClose(q.p, b.messages);
    var r, tags := OnOutbound(q.p, b.messages), q.tags + [b.dk];
    assert |Kept(b.messages)| == 1;
    assert Perform(q, FlushAct).peer == Peer(r, q.pending[1..], tags);
    assert OutboxOk(r, hash) by {
      assert OpenOk(q.p, hash, m);
      OutboxAppend(q.p, hash, m);
      SameOutbox(q.p.Send(m), r, hash);
    }
    LocalInView(t, m.channel);
    var found := GetLocal(t, m.channel);
    if found.Some? {
      var dk := found.value.discoveryKey;
      OwnKey(t, m.channel);
      ViewValues(t, dk);
      AfterRemove(q, hash, t, dk, r, q.pending[1..], tags);
    } else {
      AfterTraffic(q, hash, r, q.pending[1..], tags);
    }
  }

  lemma LoneClose(p: Proto, ms: seq<ChannelMessage>)
    requires p.Good() && IsLoneClose(ms)
    ensures OnOutbound(p, ms) == CloseLocal(p, ms[0].channel).Send(ms[0]) && Kept(ms) == [ms[0]]
  {
    hide Sound, CloseLocal;
    assert ms[..0] == [];
    assert OnBatch(p, ms[..0]) == p;
    assert OnBatch(p, ms) == CloseLocal(p, ms[0].channel);
    assert Kept(ms[..0]) == [];
    assert Kept(ms) == [ms[0]];
  }

  //
  // Using a channel
  //

  lemma SendStep(q: Peer, hash: Bytes, c: Channel, ms: seq<Message>)
    requires PeerOk(q, hash) && Allowed(q, SendAct(c, ms))
    ensures c.cell < |q.p.table.cells|
    ensures var r := Perform(q, SendAct(c, ms)).peer; PeerOk(r, hash) && r.p == q.p && r.tags == q.tags
  {
    hide Exact, HandlesOk, OutboxOk, Sound;
    assert ChannelOk(q.p.table, c);
    var sent := SendOn(q.p.table, c, ms);
    if sent.Success? {
      LiveChannel(q.p.table, c);
      assert BatchOk(q.p.table, Batch(c.discoveryKey, sent.value));
    }
  }

  lemma LiveChannel(t: Table, c: Channel)
    requires Sound(t) && ChannelOk(t, c) && !t.cells[c.cell].closed
    ensures Usable(t, c.localId, c.discoveryKey)
  {
    assert HandleSound(t, c.discoveryKey);
  }

  lemma CloseStep(q: Peer, hash: Bytes, c: Channel)
    requires PeerOk(q, hash) && Allowed(q, CloseAct(c))
    ensures c.cell < |q.p.table.cells|
    ensures var r := Perform(q, CloseAct(c)).peer;
            && PeerOk(r, hash) && E.SamePeer(q.p, r.p)
            && ViewOf(r.p.table) == ViewOf(q.p.table) && r.p.outbox == q.p.outbox && r.tags == q.tags
  {
    hide HandlesOk, OutboxOk, Proves, Sound;
    assert ChannelOk(q.p.table, c);
    if !q.p.table.cells[c.cell].closed {
      LiveChannel(q.p.table, c);
      var r := Perform(q, CloseAct(c)).peer;
      ShutTable(q.p.table, c.cell);
      SameOutbox(q.p, r.p, hash);
      assert HandlesOk(r.p, hash) by { ShutHandles(q.p, r.p, hash); }
      forall d | Established(d) in r.p.History() ensures ChannelOk(r.p.table, d) {
        assert ChannelOk(q.p.table, d);
      }
      forall i | 0 <= i < |r.pending| ensures BatchOk(r.p.table, r.pending[i]) {
        if i < |q.pending| {
          assert BatchOk(q.p.table, q.pending[i]);
        }
      }
    }
  }

  /** Returning an event, or queueing a local signal, changes nothing that the other side could notice. */
  lemma EventStep(q: Peer, hash: Bytes, step: Step)
    requires PeerOk(q, hash) && Allowed(q, EventAct(step))
    ensures var r := Perform(q, EventAct(step));
            && r.problem.None? && PeerOk(r.peer, hash) && E.SamePeer(q.p, r.peer.p)
            && r.peer.p.table == q.p.table && r.peer.p.outbox == q.p.outbox && r.peer.tags == q.tags
  {
    hide Exact, HandlesOk, ChannelsOk, BatchOk, OutboxOk, Sound;
    var r := Take(q.p, step).p;
    SameOutbox(q.p, r, hash);
    AfterTraffic(q, hash, r, q.pending, q.tags);
  }

  /** Dropping a receiver changes nothing that the other side could notice. */
  lemma DropStep(q: Peer, hash: Bytes, inbox: nat)
    requires PeerOk(q, hash)
    ensures var r := Perform(q, DropAct(inbox));
            && r.problem.None? && PeerOk(r.peer, hash) && E.SamePeer(q.p, r.peer.p)
            && ViewOf(r.peer.p.table) == ViewOf(q.p.table) && r.peer.p.outbox == q.p.outbox && r.peer.tags == q.tags
  {
    hide Exact, HandlesOk, ChannelsOk, BatchOk, OutboxOk, ViewOf;
    var r := Take(q.p, DropQueue(inbox)).p;
    SameOutbox(q.p, r, hash);
    hide Sound;
    AfterTraffic(q, hash, r, q.pending, q.tags);
  }

  lemma ShutTable(t: Table, c: nat)
    requires Sound(t) && Exact(t) && c < |t.cells|
    ensures Exact(Shut(t, c)) && ViewOf(Shut(t, c)) == ViewOf(t)
  {
  }

  lemma ShutHandles(p: Proto, r: Proto, hash: Bytes)
    requires HandlesOk(p, hash) && r.table == p.table.(cells := r.table.cells)
    requires r.crypto == p.crypto && r.initiator == p.initiator
    ensures HandlesOk(r, hash)
  {
    hide Proves;
    forall dk | dk in r.table.channels ensures HandleOk(r, hash, dk) {
      assert HandleOk(p, hash, dk);
    }
  }
}
