/**
 The channel table: the handles of all open channels by discovery key, and two vectors that index
 them by local and by remote channel id.

 A handle and the `Channel` values made from it share a cell holding the closed flag; cells and
 inbound queues are named by their position in `cells` and `inboxes`, so that sharing is explicit.
 */
module Channels {
  import opened Wrappers
  import opened Compact
  import opened Handshake
  import opened Messages

  datatype LocalState = LocalState(key: Key, localId: nat)
  datatype RemoteState = RemoteState(remoteId: nat, capability: Option<Bytes>)

  datatype Handle = Handle(
    discoveryKey: Key,
    local: Option<LocalState>,
    remote: Option<RemoteState>,
    inbox: Option<nat>,
    cell: nat)
  {
    predicate IsConnected() { local.Some? && remote.Some? }

    predicate HasLocal(id: nat) { local.Some? && local.value.localId == id }

    predicate HasRemote(id: nat) { remote.Some? && remote.value.remoteId == id }
  }

  /** A shared closed flag, with the discovery key of the handle it was made for. */
  datatype Cell = Cell(owner: Key, closed: bool)

  /** Everything ever put into an inbound queue, and whether its receiver still exists. */
  datatype Inbox = Inbox(owner: Key, messages: seq<Message>, receiving: bool)

  /** The value handed to the user when a channel is established. */
  datatype Channel = Channel(key: Key, discoveryKey: Key, localId: nat, cell: nat, inbox: nat)

  datatype Table = Table(
    channels: map<Key, Handle>,
    localIds: seq<Option<Key>>,
    remoteIds: seq<Option<Key>>,
    cells: seq<Cell>,
    inboxes: seq<Inbox>)

  datatype Error = NotFound | NotOpened | NotOpen | ReceiverGone | ChannelClosed

  //
  // Invariants
  //

  /** A handle sits under its own key and is attached at least once, its ids are in bounds, and its local id indexes back to it. */
  predicate HandleSound(t: Table, dk: Key)
    requires dk in t.channels
  {
    var h := t.channels[dk];
    && h.discoveryKey == dk
    && (h.local.Some? || h.remote.Some?)
    && (h.local.Some? ==> 1 <= h.local.value.localId < |t.localIds| && t.localIds[h.local.value.localId] == Some(dk))
    && (h.remote.Some? ==> h.remote.value.remoteId < |t.remoteIds|)
    && h.cell < |t.cells| && t.cells[h.cell].owner == dk
    && (h.inbox.Some? ==> h.inbox.value < |t.inboxes| && t.inboxes[h.inbox.value].owner == dk)
  }

  /** Whether the handle that a cell was made for is still in the table. */
  predicate InTable(t: Table, cell: nat)
    requires cell < |t.cells|
  {
    t.cells[cell].owner in t.channels && t.channels[t.cells[cell].owner].cell == cell
  }

  /** Holds after every sequence of operations, whatever the peers do. */
  ghost predicate Sound(t: Table) {
    && |t.localIds| >= 1 && t.localIds[0].None?
    && (forall dk | dk in t.channels :: HandleSound(t, dk))
    && (forall c | 0 <= c < |t.cells| && !t.cells[c].closed :: InTable(t, c))
  }

  /** The local vector is the exact inverse of the handles' local ids (the other direction is in `Sound`). */
  ghost predicate LocalExact(t: Table) {
    forall i | 0 <= i < |t.localIds| && t.localIds[i].Some? ::
      t.localIds[i].value in t.channels && t.channels[t.localIds[i].value].HasLocal(i)
  }

  /** The remote vector is the exact inverse of the handles' remote ids. */
  ghost predicate RemoteExact(t: Table) {
    && (forall i | 0 <= i < |t.remoteIds| && t.remoteIds[i].Some? ::
          t.remoteIds[i].value in t.channels && t.channels[t.remoteIds[i].value].HasRemote(i))
    && (forall dk | dk in t.channels && t.channels[dk].remote.Some? ::
          var i := t.channels[dk].remote.value.remoteId; i < |t.remoteIds| && t.remoteIds[i] == Some(dk))
  }

  /** Both vectors are exact inverses of the handles' ids. */
  ghost predicate Exact(t: Table) { LocalExact(t) && RemoteExact(t) }

  predicate LocallyAttached(t: Table, dk: Key) { dk in t.channels && t.channels[dk].local.Some? }

  predicate RemotelyAttached(t: Table, dk: Key) { dk in t.channels && t.channels[dk].remote.Some? }

  //
  // Operations
  //

  /** A new table: slot zero of the local vector is taken out of use, so that ids start at one. */
  function Empty(): (t: Table)
    ensures Sound(t) && Exact(t)
  {
    Table(map[], [None], [], [], [])
  }

  /** The first free slot at or after `from`, or the length when there is none. */
  function FreeSlot(ids: seq<Option<Key>>, from: nat): (i: nat)
    requires from <= |ids|
    ensures from <= i <= |ids|
    ensures forall j | from <= j < i :: ids[j].Some?
    ensures i < |ids| ==> ids[i].None?
    decreases |ids| - from
  {
    if from == |ids| then |ids| else if ids[from].None? then from else FreeSlot(ids, from + 1)
  }

  /** The local id the next channel gets. */
  function NextLocalId(t: Table): nat
    requires Sound(t)
  {
    FreeSlot(t.localIds, 1)
  }

  /** A vector with slot `i` assigned, grown with empty slots if it is too short. */
  function Assign(ids: seq<Option<Key>>, i: nat, dk: Key): (r: seq<Option<Key>>)
    ensures |r| == if i < |ids| then |ids| else i + 1
    ensures r[i] == Some(dk)
    ensures forall j | 0 <= j < |r| && j != i :: r[j] == if j < |ids| then ids[j] else None
  {
    if i < |ids| then ids[i := Some(dk)] else ids + seq(i - |ids|, _ => None) + [Some(dk)]
  }

  function AttachLocal(t: Table, dk: Key, key: Key): (r: Table)
    requires Sound(t)
    ensures Sound(r)
  {
    var id := NextLocalId(t);
    var local := Some(LocalState(key, id));
    var known := dk in t.channels;
    var h := if known then t.channels[dk].(local := local) else Handle(dk, local, None, None, |t.cells|);
    t.(channels := t.channels[dk := h],
       localIds := Assign(t.localIds, id, dk),
       cells := if known then t.cells else t.cells + [Cell(dk, false)])
  }

  function AttachRemote(t: Table, dk: Key, id: nat, capability: Option<Bytes>): (r: Table)
    requires Sound(t)
    ensures Sound(r)
  {
    var remote := Some(RemoteState(id, capability));
    var known := dk in t.channels;
    var h := if known then t.channels[dk].(remote := remote) else Handle(dk, None, remote, None, |t.cells|);
    t.(channels := t.channels[dk := h],
       remoteIds := Assign(t.remoteIds, id, dk),
       cells := if known then t.cells else t.cells + [Cell(dk, false)])
  }

  function Lookup(t: Table, ids: seq<Option<Key>>, id: nat): (r: Option<Handle>)
    ensures r.Some? ==> id < |ids| && ids[id].Some? && ids[id].value in t.channels && t.channels[ids[id].value] == r.value
  {
    if id < |ids| && ids[id].Some? && ids[id].value in t.channels then Some(t.channels[ids[id].value]) else None
  }

  function GetLocal(t: Table, id: nat): Option<Handle> { Lookup(t, t.localIds, id) }

  function GetRemote(t: Table, id: nat): Option<Handle> { Lookup(t, t.remoteIds, id) }

  function ShutCell(cells: seq<Cell>, c: nat): seq<Cell>
    requires c < |cells|
  {
    cells[c := cells[c].(closed := true)]
  }

  /** Removing a handle clears the slots its ids name and drops the handle, which sets its closed flag. */
  function Remove(t: Table, dk: Key): (r: Table)
    requires Sound(t)
    ensures Sound(r)
  {
    if dk !in t.channels then t
    else
      assert HandleSound(t, dk);
      var h := t.channels[dk];
      Table(
        t.channels - {dk},
        if h.local.Some? then t.localIds[h.local.value.localId := None] else t.localIds,
        if h.remote.Some? then t.remoteIds[h.remote.value.remoteId := None] else t.remoteIds,
        ShutCell(t.cells, h.cell),
        t.inboxes)
  }

  /** Gives the handle a fresh inbound queue and makes the channel that receives from it. */
  function OpenInbox(t: Table, dk: Key): (r: (Table, Channel))
    requires Sound(t) && dk in t.channels && t.channels[dk].local.Some?
    ensures Sound(r.0)
  {
    var h := t.channels[dk];
    (t.(channels := t.channels[dk := h.(inbox := Some(|t.inboxes|))],
        inboxes := t.inboxes + [Inbox(dk, [], true)]),
     Channel(h.local.value.key, dk, h.local.value.localId, h.cell, |t.inboxes|))
  }

  function Accept(t: Table, id: nat): (r: Result<(Table, Channel), Error>)
    requires Sound(t)
    ensures r.Success? ==> Sound(r.value.0)
  {
    match GetLocal(t, id)
    case None => Failure(NotFound)
    case Some(h) =>
      assert HandleSound(t, t.localIds[id].value);
      if h.IsConnected() then Success(OpenInbox(t, h.discoveryKey)) else Failure(NotOpened)
  }

  function Push(t: Table, inbox: nat, m: Message): (r: Table)
    requires Sound(t) && inbox < |t.inboxes|
    ensures Sound(r)
  {
    var x := t.inboxes[inbox];
    t.(inboxes := t.inboxes[inbox := x.(messages := x.messages + [m])])
  }

  /** Puts a message into the queue of the channel with this remote id; unknown ids are ignored. */
  function Forward(t: Table, id: nat, m: Message): (r: Result<Table, Error>)
    requires Sound(t)
    ensures r.Success? ==> Sound(r.value)
  {
    match GetRemote(t, id)
    case None => Success(t)
    case Some(h) =>
      assert HandleSound(t, t.remoteIds[id].value);
      if h.inbox.None? then Failure(NotOpen)
      else if !t.inboxes[h.inbox.value].receiving then Failure(ReceiverGone)
      else Success(Push(t, h.inbox.value, m))
  }

  /** The same, for the last message of a channel: a missing queue or receiver is tolerated. */
  function ForwardTolerant(t: Table, id: nat, m: Message): (r: Table)
    requires Sound(t)
    ensures Sound(r)
  {
    var f := Forward(t, id, m);
    if f.Success? then f.value else t
  }

  /** Forwarding touches nothing but the messages of an inbox. */
  lemma ForwardEffect(t: Table, id: nat, m: Message)
    requires Sound(t)
    ensures var u := ForwardTolerant(t, id, m);
            && u == t.(inboxes := u.inboxes) && |u.inboxes| == |t.inboxes|
            && forall x | 0 <= x < |t.inboxes| ::
                 u.inboxes[x].receiving == t.inboxes[x].receiving && u.inboxes[x].owner == t.inboxes[x].owner
  {
    hide InTable;
    if GetRemote(t, id).Some? {
      assert HandleSound(t, t.remoteIds[id].value);
    }
  }

  /** Sending on a channel: refused once it is closed, otherwise the messages tagged with its local id. */
  function SendOn(t: Table, c: Channel, ms: seq<Message>): (r: Result<seq<ChannelMessage>, Error>)
    requires c.cell < |t.cells|
  {
    if t.cells[c.cell].closed then Failure(ChannelClosed)
    else Success(seq(|ms|, i requires 0 <= i < |ms| => ChannelMessage(c.localId, ms[i])))
  }

  /** The user closes a channel or drops its receiver. */
  function Shut(t: Table, c: nat): (r: Table)
    requires Sound(t) && c < |t.cells|
    ensures Sound(r)
  {
    t.(cells := ShutCell(t.cells, c))
  }

  function DropReceiver(t: Table, inbox: nat): (r: Table)
    requires Sound(t) && inbox < |t.inboxes|
    ensures Sound(r)
  {
    t.(inboxes := t.inboxes[inbox := t.inboxes[inbox].(receiving := false)])
  }

  //
  // Exactness
  //

  /** A local attach keeps the local vector exact if and only if the key was not locally attached. */
  lemma AttachLocalExact(t: Table, dk: Key, key: Key)
    requires Sound(t)
    ensures var r := AttachLocal(t, dk, key);
            && (LocalExact(t) ==> (LocalExact(r) <==> !LocallyAttached(t, dk)))
            && (RemoteExact(t) ==> RemoteExact(r))
            && (Exact(t) ==> (Exact(r) <==> !LocallyAttached(t, dk)))
  {
    hide FreeSlot, InTable;
    var r := AttachLocal(t, dk, key);
    if LocalExact(t) {
      if LocallyAttached(t, dk) {
        var i := t.channels[dk].local.value.localId;
        assert HandleSound(t, dk);
        assert r.localIds[i] == Some(dk) && !r.channels[dk].HasLocal(i);
      } else {
        AttachLocalKeepsExact(t, dk, key);
      }
    }
    if RemoteExact(t) {
      AttachLocalKeepsRemote(t, dk, key);
    }
  }

  lemma AttachLocalKeepsExact(t: Table, dk: Key, key: Key)
    requires Sound(t) && LocalExact(t) && !LocallyAttached(t, dk)
    ensures LocalExact(AttachLocal(t, dk, key))
  {
    hide FreeSlot, InTable, HandleSound;
  }

  lemma AttachLocalKeepsRemote(t: Table, dk: Key, key: Key)
    requires Sound(t) && RemoteExact(t)
    ensures RemoteExact(AttachLocal(t, dk, key))
  {
    hide FreeSlot, InTable, HandleSound, Assign;
  }

  /** Whether the remote side may use `id` for `dk`: the id is free or the key's own, and the key has no other id. */
  predicate RemoteIdFits(t: Table, dk: Key, id: nat) {
    && (id < |t.remoteIds| && t.remoteIds[id].Some? ==> t.remoteIds[id] == Some(dk))
    && (RemotelyAttached(t, dk) ==> t.channels[dk].HasRemote(id))
  }

  /** A remote attach keeps the remote vector exact if and only if the id fits, and the local one in any case. */
  lemma AttachRemoteExact(t: Table, dk: Key, id: nat, capability: Option<Bytes>)
    requires Sound(t)
    ensures var r := AttachRemote(t, dk, id, capability);
            && (LocalExact(t) ==> LocalExact(r))
            && (RemoteExact(t) ==> (RemoteExact(r) <==> RemoteIdFits(t, dk, id)))
            && (Exact(t) ==> (Exact(r) <==> RemoteIdFits(t, dk, id)))
  {
    hide HandleSound, InTable;
    var r := AttachRemote(t, dk, id, capability);
    if LocalExact(t) {
      AttachRemoteKeepsLocal(t, dk, id, capability);
    }
    if RemoteExact(t) {
      if RemoteIdFits(t, dk, id) {
        AttachRemoteKeepsExact(t, dk, id, capability);
      } else if id < |t.remoteIds| && t.remoteIds[id].Some? && t.remoteIds[id] != Some(dk) {
        var other := t.remoteIds[id].value;
        assert r.channels[other].HasRemote(id) && r.remoteIds[id] != Some(other);
      } else {
        var i := t.channels[dk].remote.value.remoteId;
        assert r.remoteIds[i] == Some(dk) && !r.channels[dk].HasRemote(i);
      }
    }
  }

  lemma AttachRemoteKeepsExact(t: Table, dk: Key, id: nat, capability: Option<Bytes>)
    requires Sound(t) && RemoteExact(t) && RemoteIdFits(t, dk, id)
    ensures RemoteExact(AttachRemote(t, dk, id, capability))
  {
    hide InTable, HandleSound;
  }

  lemma AttachRemoteKeepsLocal(t: Table, dk: Key, id: nat, capability: Option<Bytes>)
    requires Sound(t) && LocalExact(t)
    ensures LocalExact(AttachRemote(t, dk, id, capability))
  {
    hide InTable, HandleSound, Assign;
  }

  /** Removing a handle keeps each vector exact. */
  lemma RemoveExact(t: Table, dk: Key)
    requires Sound(t)
    ensures var r := Remove(t, dk);
            && (LocalExact(t) ==> LocalExact(r))
            && (RemoteExact(t) ==> RemoteExact(r))
            && (Exact(t) ==> Exact(r))
  {
    if dk in t.channels {
      assert HandleSound(t, dk);
      hide HandleSound, InTable;
      var r := Remove(t, dk);
      if RemoteExact(t) {
        forall d | d in r.channels && r.channels[d].remote.Some?
          ensures r.remoteIds[r.channels[d].remote.value.remoteId] == Some(d)
        {
          assert t.channels[d].remote.Some?;
        }
      }
    }
  }

  lemma OpenInboxExact(t: Table, dk: Key)
    requires Sound(t) && LocallyAttached(t, dk)
    ensures var r := OpenInbox(t, dk).0;
            && (LocalExact(t) ==> LocalExact(r))
            && (RemoteExact(t) ==> RemoteExact(r))
            && (Exact(t) ==> Exact(r))
  {
    hide InTable, HandleSound;
  }

  /** Looking an id up in an exact vector agrees with searching all handles for it. */
  lemma LookupAgreesWithSearch(t: Table, id: nat, h: Handle)
    requires Sound(t)
    ensures LocalExact(t) ==> (GetLocal(t, id) == Some(h) <==> h in t.channels.Values && h.HasLocal(id))
    ensures RemoteExact(t) ==> (GetRemote(t, id) == Some(h) <==> h in t.channels.Values && h.HasRemote(id))
  {
    if h in t.channels.Values {
      var dk :| dk in t.channels && t.channels[dk] == h;
      assert HandleSound(t, dk);
    }
  }
}
