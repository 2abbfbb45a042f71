/** The channel table as the protocol holds it: updated in place, one method for each operation. */
module ChannelMaps {
  import opened Wrappers
  import opened Compact
  import opened Handshake
  import opened Messages
  import C = Channels
  import opened Channels

  class ChannelMap {
    var channels: map<Key, Handle>
    var localIds: seq<Option<Key>>
    var remoteIds: seq<Option<Key>>
    var cells: seq<Cell>       // the shared closed flags
    var inboxes: seq<Inbox>    // the inbound queues

    /** The table this object holds. */
    function Model(): Table
      reads this
    {
      Table(channels, localIds, remoteIds, cells, inboxes)
    }

    ghost predicate Valid()
      reads this
    {
      Sound(Model())
    }

    constructor ()
      ensures Valid() && Model() == Empty()
    {
      channels, localIds, remoteIds, cells, inboxes := map[], [None], [], [], [];
    }

    /** Finds the first free slot after slot zero, growing the vector if there is none. */
    method AllocLocal() returns (id: nat)
      requires Valid()
      modifies this`localIds
      ensures id == FreeSlot(old(localIds), 1)
      ensures localIds == if id < |old(localIds)| then old(localIds) else old(localIds) + [None]
    {
      id := 1;
      while id < |localIds| && localIds[id].Some?
        invariant 1 <= id <= |localIds|
        invariant FreeSlot(localIds, 1) == FreeSlot(localIds, id)
      {
        id := id + 1;
      }
      if id == |localIds| {
        localIds := localIds + [None];
      }
    }

    /** Makes slot `id` of the remote vector exist and be empty. */
    method AllocRemote(id: nat)
      modifies this`remoteIds
      ensures id < |remoteIds|
      ensures forall dk :: remoteIds[id := Some(dk)] == Assign(old(remoteIds), id, dk)
    {
      if |remoteIds| > id {
        remoteIds := remoteIds[id := None];
      } else {
        remoteIds := remoteIds + seq(id + 1 - |remoteIds|, _ => None);
      }
    }

    method AttachLocal(dk: Key, key: Key)
      requires Valid()
      modifies this
      ensures Model() == C.AttachLocal(old(Model()), dk, key)
      ensures Valid()
    {
      hide HandleSound, InTable, FreeSlot;
      var id := AllocLocal();
      var local := Some(LocalState(key, id));
      if dk in channels {
        channels := channels[dk := channels[dk].(local := local)];
      } else {
        channels := channels[dk := Handle(dk, local, None, None, |cells|)];
        cells := cells + [Cell(dk, false)];
      }
      localIds := localIds[id := Some(dk)];
      assert localIds == Assign(old(localIds), id, dk);
    }

    method AttachRemote(dk: Key, id: nat, capability: Option<Bytes>)
      requires Valid()
      modifies this
      ensures Model() == C.AttachRemote(old(Model()), dk, id, capability)
      ensures Valid()
    {
      hide Sound;
      AllocRemote(id);
      var remote := Some(RemoteState(id, capability));
      if dk in channels {
        channels := channels[dk := channels[dk].(remote := remote)];
      } else {
        channels := channels[dk := Handle(dk, None, remote, None, |cells|)];
        cells := cells + [Cell(dk, false)];
      }
      remoteIds := remoteIds[id := Some(dk)];
    }

    /** Removes a key. No index goes out of range, whatever happened before. */
    method Remove(dk: Key)
      requires Valid()
      modifies this
      ensures Model() == C.Remove(old(Model()), dk)
      ensures Valid()
    {
      if dk in channels {
        assert HandleSound(Model(), dk);
        var h := channels[dk];
        if h.local.Some? {
          localIds := localIds[h.local.value.localId := None];
        }
        if h.remote.Some? {
          remoteIds := remoteIds[h.remote.value.remoteId := None];
        }
        cells := cells[h.cell := Cell(cells[h.cell].owner, true)];
        channels := channels - {dk};
      }
    }

    method Accept(id: nat) returns (r: Result<Channel, C.Error>)
      requires Valid()
      modifies this`channels, this`inboxes
      ensures Valid()
      ensures match C.Accept(old(Model()), id)
              case Success((t, channel)) => r == Success(channel) && Model() == t
              case Failure(e) => r == Failure(e) && Model() == old(Model())
    {
      var found := GetLocal(Model(), id);
      if found.None? {
        return Failure(NotFound);
      }
      var h := found.value;
      assert HandleSound(Model(), localIds[id].value);
      if !h.IsConnected() {
        return Failure(NotOpened);
      }
      var inbox := |inboxes|;
      inboxes := inboxes + [Inbox(h.discoveryKey, [], true)];
      channels := channels[h.discoveryKey := h.(inbox := Some(inbox))];
      return Success(Channel(h.local.value.key, h.discoveryKey, h.local.value.localId, h.cell, inbox));
    }

    method ForwardInboundMessage(id: nat, m: Message) returns (r: Result<(), C.Error>)
      requires Valid()
      modifies this`inboxes
      ensures Valid()
      ensures match C.Forward(old(Model()), id, m)
              case Success(t) => r == Success(()) && Model() == t
              case Failure(e) => r == Failure(e) && Model() == old(Model())
    {
      var found := GetRemote(Model(), id);
      if found.Some? {
        assert HandleSound(Model(), remoteIds[id].value);
        if found.value.inbox.None? {
          return Failure(NotOpen);
        }
        var x := found.value.inbox.value;
        if !inboxes[x].receiving {
          return Failure(ReceiverGone);
        }
        inboxes := inboxes[x := inboxes[x].(messages := inboxes[x].messages + [m])];
      }
      return Success(());
    }

    method ForwardInboundMessageTolerateClosed(id: nat, m: Message)
      requires Valid()
      modifies this`inboxes
      ensures Valid() && Model() == ForwardTolerant(old(Model()), id, m)
    {
      var found := GetRemote(Model(), id);
      if found.Some? && found.value.inbox.Some? {
        assert HandleSound(Model(), remoteIds[id].value);
        var x := found.value.inbox.value;
        if inboxes[x].receiving {
          inboxes := inboxes[x := inboxes[x].(messages := inboxes[x].messages + [m])];
        }
      }
    }
  }
}
