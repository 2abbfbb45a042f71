/** Events over whole runs: conservation of Close events, order, and the handshake event. */
module EventTheorems {
  import opened Wrappers
  import opened Handshake
  import opened Messages
  import opened Channels
  import opened ProtocolModel

  //
  // Conservation
  //

  /** The keys for which a handle was created, one entry for each handle ever created. */
  function Owners(cells: seq<Cell>): (r: seq<Key>)
    ensures |r| == |cells|
  {
    seq(|cells|, i requires 0 <= i < |cells| => cells[i].owner)
  }

  function Created(p: Proto, dk: Key): nat { multiset(Owners(p.table.cells))[dk] }

  function CloseEvents(p: Proto, dk: Key): nat { multiset(p.History())[Closed(dk)] }

  function Present(p: Proto, dk: Key): nat { if dk in p.table.channels then 1 else 0 }

  /** Handles created minus Close events queued minus handles present. */
  function Net(p: Proto, dk: Key): int { Created(p, dk) - CloseEvents(p, dk) - Present(p, dk) }

  lemma OwnersAppend(cells: seq<Cell>, c: Cell)
    ensures Owners(cells + [c]) == Owners(cells) + [c.owner]
  {
  }

  lemma OwnersShut(cells: seq<Cell>, c: nat)
    requires c < |cells|
    ensures Owners(ShutCell(cells, c)) == Owners(cells)
  {
  }

  /** A step that keeps the keys and the cells, and adds only events that are not Close events. */
  lemma NetUnchanged(p: Proto, q: Proto, more: seq<Event>, dk: Key)
    requires q.table.channels.Keys == p.table.channels.Keys
    requires Owners(q.table.cells) == Owners(p.table.cells)
    requires q.History() == p.History() + more && forall e | e in more :: !e.Closed?
    ensures Net(q, dk) == Net(p, dk)
  {
    assert Closed(dk) !in more;
    assert multiset(more)[Closed(dk)] == 0;
    assert dk in q.table.channels <==> dk in p.table.channels.Keys;
  }

  /** Attaching a key creates a handle exactly when there is none. */
  lemma NetAttach(p: Proto, q: Proto, key: Key, dk: Key)
    requires q.History() == p.History()
    requires q.table.channels.Keys == p.table.channels.Keys + {key}
    requires Owners(q.table.cells) == Owners(p.table.cells) + if key in p.table.channels then [] else [key]
    ensures Net(q, dk) == Net(p, dk)
  {
    assert dk in q.table.channels <==> dk in p.table.channels.Keys + {key};
    assert Owners(p.table.cells) + [] == Owners(p.table.cells);
  }

  /** Removing a handle queues exactly one Close event for it. */
  lemma NetRemove(p: Proto, q: Proto, key: Key, dk: Key)
    requires key in p.table.channels
    requires q.History() == p.History() + [Closed(key)]
    requires q.table.channels.Keys == p.table.channels.Keys - {key}
    requires Owners(q.table.cells) == Owners(p.table.cells)
    ensures Net(q, dk) == Net(p, dk)
  {
    assert dk in q.table.channels <==> dk in p.table.channels.Keys - {key};
  }

  lemma RemoveNet(p: Proto, key: Key, dk: Key)
    requires p.Good() && key in p.table.channels
    ensures Net(p.(table := Remove(p.table, key)).Queue(Closed(key)), dk) == Net(p, dk)
  {
    var q := p.(table := Remove(p.table, key)).Queue(Closed(key));
    assert HandleSound(p.table, key);
    OwnersShut(p.table.cells, p.table.channels[key].cell);
    assert q.History() == p.History() + [Closed(key)];
    NetRemove(p, q, key, dk);
  }

  lemma AcceptNet(p: Proto, id: nat, dk: Key)
    requires p.Good()
    ensures Net(AcceptChannel(p, id).p, dk) == Net(p, dk)
  {
    hide Sound, Net;
    var r := AcceptChannel(p, id);
    if r.problem.None? {
      assert r.p.History() == p.History() + [r.p.events[|p.events|]];
      assert r.p.table.channels.Keys == p.table.channels.Keys by { AcceptKeys(p.table, id); }
      NetUnchanged(p, r.p, [r.p.events[|p.events|]], dk);
    }
  }

  lemma AcceptKeys(t: Table, id: nat)
    requires Sound(t) && Accept(t, id).Success?
    ensures Accept(t, id).value.0.channels.Keys == t.channels.Keys
  {
    assert HandleSound(t, t.localIds[id].value);
  }

  lemma AttachNet(p: Proto, t: Table, key: Key, dk: Key)
    requires t.channels.Keys == p.table.channels.Keys + {key}
    requires t.cells == if key in p.table.channels then p.table.cells else p.table.cells + [Cell(key, false)]
    ensures Net(p.(table := t), dk) == Net(p, dk)
  {
    OwnersAppend(p.table.cells, Cell(key, false));
    NetAttach(p, p.(table := t), key, dk);
  }

  lemma OpenNet(p: Proto, key: Key, dk: Key)
    requires p.Good()
    ensures Net(CommandOpen(p, key).p, dk) == Net(p, dk)
  {
    hide Sound, Net, AcceptChannel;
    var d, id := p.crypto.discovery(key), NextLocalId(p.table);
    var attached := p.(table := AttachLocal(p.table, d, key));
    AttachNet(p, attached.table, d, dk);
    AcceptNet(attached, id, dk);
    var accepted :=
      if attached.table.channels[d].IsConnected() then AcceptChannel(attached, id) else Done(attached, None);
    SendNet(accepted.p, OpenMessage(p, id, d, key), dk);
  }

  /** Sending a message changes no event and no handle. */
  lemma SendNet(p: Proto, m: ChannelMessage, dk: Key)
    ensures Net(p.Send(m), dk) == Net(p, dk)
  {
  }

  lemma OnOpenNet(p: Proto, m: ChannelMessage, dk: Key)
    requires p.Good() && m.message.Open?
    ensures Net(OnOpen(p, m.channel, m.message.open).p, dk) == Net(p, dk)
  {
    hide Sound, Net, AcceptChannel;
    var o := m.message.open;
    if |o.discoveryKey| == 32 {
      var d: Key := o.discoveryKey;
      var attached := p.(table := AttachRemote(p.table, d, m.channel, o.capability));
      AttachNet(p, attached.table, d, dk);
      var h := attached.table.channels[d];
      if h.IsConnected() {
        AcceptNet(attached, h.local.value.localId, dk);
      } else {
        QueueNet(attached, DiscoveryKey(d), dk);
      }
    }
  }

  lemma QueueNet(p: Proto, e: Event, dk: Key)
    requires !e.Closed?
    ensures Net(p.Queue(e), dk) == Net(p, dk)
  {
    assert p.Queue(e).History() == p.History() + [e];
    NetUnchanged(p, p.Queue(e), [e], dk);
  }

  lemma ForwardNet(p: Proto, id: nat, m: Message, dk: Key)
    requires p.Good()
    ensures Net(p.(table := ForwardTolerant(p.table, id, m)), dk) == Net(p, dk)
    ensures ForwardTolerant(p.table, id, m).channels == p.table.channels
  {
    hide Sound, ForwardTolerant;
    ForwardEffect(p.table, id, m);
  }

  lemma OnCloseNet(p: Proto, id: nat, m: Message, dk: Key)
    requires p.Good()
    ensures Net(OnClose(p, id, m), dk) == Net(p, dk)
  {
    hide Net;
    var found := GetRemote(p.table, id);
    if found.Some? {
      assert HandleSound(p.table, p.table.remoteIds[id].value);
      ForwardNet(p, id, m, dk);
      RemoveNet(p.(table := ForwardTolerant(p.table, id, m)), found.value.discoveryKey, dk);
    }
  }

  lemma CloseLocalNet(p: Proto, id: nat, dk: Key)
    requires p.Good()
    ensures Net(CloseLocal(p, id), dk) == Net(p, dk)
  {
    hide Net;
    var found := GetLocal(p.table, id);
    if found.Some? {
      assert HandleSound(p.table, p.table.localIds[id].value);
      RemoveNet(p, found.value.discoveryKey, dk);
    }
  }

  lemma {:induction false} BatchNet(p: Proto, ms: seq<ChannelMessage>, dk: Key)
    requires p.Good()
    ensures Net(OnBatch(p, ms), dk) == Net(p, dk)
  {
    hide Net, CloseLocal;
    if ms == [] {
    } else {
      var n := |ms| - 1;
      BatchNet(p, ms[..n], dk);
      var q := OnBatch(p, ms[..n]);
      match ms[n].message
      case Close(_) => CloseLocalNet(q, ms[n].channel, dk);
      case LocalSignal(name, payload) => QueueNet(q, Signalled(name, payload), dk);
      case _ =>
    }
  }

  lemma InboundNet(p: Proto, m: ChannelMessage, dk: Key)
    requires p.Good()
    ensures Net(OnInboundMessage(p, m).p, dk) == Net(p, dk)
  {
    hide Net, OnOpen, OnClose;
    match m.message
    case Open(_) => OnOpenNet(p, m, dk);
    case Close(_) => OnCloseNet(p, m.channel, m.message, dk);
    case _ => ForwardNet(p, m.channel, m.message, dk);
  }

  lemma UserNet(p: Proto, s: Step, dk: Key)
    requires p.Good() && (s.ShutFlag? || s.DropQueue? || s.Learn?)
    ensures Net(Take(p, s).p, dk) == Net(p, dk)
  {
    if s.ShutFlag? && s.cell < |p.table.cells| {
      OwnersShut(p.table.cells, s.cell);
    }
  }

  lemma PopNet(p: Proto, dk: Key)
    requires p.Good()
    ensures Net(Take(p, Pop).p, dk) == Net(p, dk)
  {
    hide Sound;
    if p.events != [] {
      var q := Take(p, Pop).p;
      assert q.History() == p.History();
    }
  }

  lemma HandshakeNet(p: Proto, dk: Key)
    requires p.Good()
    ensures Net(Take(p, EmitHandshake).p, dk) == Net(p, dk)
  {
    hide Sound;
    var q := Take(p, EmitHandshake).p;
    if q != p {
      var e := HandshakeDone(p.remoteKey.value);
      assert q.History() == p.emitted + [e] + p.events;
      assert multiset(q.History()) == multiset(p.emitted) + multiset{e} + multiset(p.events);
      assert multiset(p.History()) == multiset(p.emitted) + multiset(p.events);
    }
  }

  lemma StepNet(p: Proto, s: Step, dk: Key)
    requires p.Good()
    ensures Net(Take(p, s).p, dk) == Net(p, dk)
  {
    hide Net, OnInboundMessage, CommandOpen, OnBatch;
    match s
    case Inbound(m) => InboundNet(p, m, dk);
    case Execute(OpenKey(key)) => OpenNet(p, key, dk);
    case Execute(CloseKey(d)) =>
      if d in p.table.channels {
        RemoveNet(p, d, dk);
      }
    case Execute(SignalLocal(name, payload)) => QueueNet(p, Signalled(name, payload), dk);
    case Outbound(ms) =>
      BatchNet(p, ms, dk);
      OutboxNet(OnBatch(p, ms), Kept(ms), dk);
    case Pop => PopNet(p, dk);
    case EmitHandshake => HandshakeNet(p, dk);
    case _ => UserNet(p, s, dk);
  }

  lemma OutboxNet(p: Proto, ms: seq<ChannelMessage>, dk: Key)
    ensures Net(p.(outbox := p.outbox + ms), dk) == Net(p, dk)
  {
  }

  lemma {:induction false} RunNet(p: Proto, steps: seq<Step>, dk: Key)
    requires p.Good()
    ensures Net(Run(p, steps), dk) == Net(p, dk)
    decreases |steps|
  {
    hide Net, Take;
    if steps == [] {
    } else {
      var n := |steps| - 1;
      RunNet(p, steps[..n], dk);
      StepNet(Run(p, steps[..n]), steps[n], dk);
    }
  }

  /**
   On every run, for every discovery key, the handles created are the Close events queued, plus one
   exactly when the key is in the table: every handle is closed once and nothing else is.
   */
  lemma CreateCloseConservation(crypto: Crypto, initiator: bool, steps: seq<Step>, dk: Key)
    ensures var p := Run(Start(crypto, initiator), steps);
            Created(p, dk) == CloseEvents(p, dk) + if dk in p.table.channels then 1 else 0
  {
    RunNet(Start(crypto, initiator), steps, dk);
  }

  //
  // Order
  //

  function Queued(events: seq<Event>): seq<Event> {
    if events == [] then []
    else Queued(events[..|events| - 1]) + if events[|events| - 1].HandshakeDone? then [] else [events[|events| - 1]]
  }

  /** The events other than the handshake: those returned, then those still queued. */
  function Lineup(p: Proto): seq<Event> { Queued(p.emitted) + p.events }

  predicate NoHandshakeQueued(p: Proto) {
    forall i | 0 <= i < |p.events| :: !p.events[i].HandshakeDone?
  }

  /** Returning the oldest queued event moves it across and leaves the line-up as it is. */
  lemma PopKeepsLineup(p: Proto)
    requires p.Good() && NoHandshakeQueued(p)
    ensures Lineup(Take(p, Pop).p) == Lineup(p)
  {
    if p.events != [] {
      var q := Take(p, Pop).p;
      assert q.emitted[..|q.emitted| - 1] == p.emitted;
      assert p.events == [p.events[0]] + p.events[1..];
    }
  }

  lemma HandshakeKeepsLineup(p: Proto)
    requires p.Good()
    ensures Lineup(Take(p, EmitHandshake).p) == Lineup(p)
  {
    var q := Take(p, EmitHandshake).p;
    if q != p {
      assert q.emitted[..|q.emitted| - 1] == p.emitted;
    }
  }

  /** Any other step returns nothing and queues its events at the back. */
  predicate Extends(p: Proto, q: Proto) {
    && q.emitted == p.emitted && q.handshakeEmitted == p.handshakeEmitted
    && p.events <= q.events
    && (NoHandshakeQueued(p) ==> NoHandshakeQueued(q))
  }

  lemma {:induction false} BatchExtends(p: Proto, ms: seq<ChannelMessage>)
    requires p.Good()
    ensures Extends(p, OnBatch(p, ms))
  {
    if ms == [] {
    } else {
      BatchExtends(p, ms[..|ms| - 1]);
    }
  }

  lemma AcceptExtends(p: Proto, id: nat)
    requires p.Good()
    ensures Extends(p, AcceptChannel(p, id).p) && AcceptChannel(p, id).p.outbox == p.outbox
  {
    hide Sound;
  }

  lemma CommandExtends(p: Proto, c: Command)
    requires p.Good()
    ensures Extends(p, OnCommand(p, c).p)
    ensures var r := OnCommand(p, c);
            r.p.outbox == if c.OpenKey? && r.problem.None?
              then p.outbox + [OpenMessage(p, NextLocalId(p.table), p.crypto.discovery(c.key), c.key)]
              else p.outbox
  {
    hide Sound, AcceptChannel, Remove;
    if c.OpenKey? {
      var attached := p.(table := AttachLocal(p.table, p.crypto.discovery(c.key), c.key));
      AcceptExtends(attached, NextLocalId(p.table));
    }
  }

  lemma InboundExtends(p: Proto, m: ChannelMessage)
    requires p.Good()
    ensures Extends(p, OnInboundMessage(p, m).p) && OnInboundMessage(p, m).p.outbox == p.outbox
  {
    hide Sound, AcceptChannel, Remove, Forward, ForwardTolerant;
    if m.message.Open? && |m.message.open.discoveryKey| == 32 {
      var o := m.message.open;
      var dk: Key := o.discoveryKey;
      var attached := p.(table := AttachRemote(p.table, dk, m.channel, o.capability));
      var h := attached.table.channels[dk];
      if h.IsConnected() {
        AcceptExtends(attached, h.local.value.localId);
      }
    }
  }

  lemma StepExtends(p: Proto, s: Step)
    requires p.Good() && !s.Pop? && !s.EmitHandshake?
    ensures Extends(p, Take(p, s).p)
  {
    hide Sound, OnCommand, OnInboundMessage, OnBatch, Kept, Shut, DropReceiver;
    match s
    case Inbound(m) => InboundExtends(p, m);
    case Execute(c) => CommandExtends(p, c);
    case Outbound(ms) => BatchExtends(p, ms);
    case _ =>
  }

  ghost predicate SamePeer(p: Proto, r: Proto) {
    r.crypto == p.crypto && r.initiator == p.initiator && r.hash == p.hash && r.remoteKey == p.remoteKey
  }

  /** Only the stream changes what is known of the peer. */
  lemma StepKeepsPeer(p: Proto, s: Step)
    requires p.Good() && !s.Learn?
    ensures var r := Take(p, s).p; SamePeer(p, r)
  {
    hide Sound, OnCommand, OnInboundMessage, OnBatch, Kept, Shut, DropReceiver;
    match s
    case Inbound(m) => InboundKeepsPeer(p, m);
    case Execute(c) => CommandKeepsPeer(p, c);
    case Outbound(ms) => BatchKeepsPeer(p, ms);
    case _ =>
  }

  lemma AcceptKeepsPeer(p: Proto, id: nat)
    requires p.Good()
    ensures var r := AcceptChannel(p, id).p; SamePeer(p, r)
  {
    hide Sound;
  }

  lemma CommandKeepsPeer(p: Proto, c: Command)
    requires p.Good()
    ensures var r := OnCommand(p, c).p; SamePeer(p, r)
  {
    hide Sound, AcceptChannel;
    if c.OpenKey? {
      AcceptKeepsPeer(p.(table := AttachLocal(p.table, p.crypto.discovery(c.key), c.key)), NextLocalId(p.table));
    }
  }

  lemma InboundKeepsPeer(p: Proto, m: ChannelMessage)
    requires p.Good()
    ensures var r := OnInboundMessage(p, m).p; SamePeer(p, r)
  {
    hide Sound, AcceptChannel, Forward, ForwardTolerant, Remove;
    if m.message.Open? && |m.message.open.discoveryKey| == 32 {
      var o := m.message.open;
      var dk: Key := o.discoveryKey;
      var attached := p.(table := AttachRemote(p.table, dk, m.channel, o.capability));
      if attached.table.channels[dk].IsConnected() {
        AcceptKeepsPeer(attached, attached.table.channels[dk].local.value.localId);
      }
    }
  }

  lemma {:induction false} BatchKeepsPeer(p: Proto, ms: seq<ChannelMessage>)
    requires p.Good()
    ensures var r := OnBatch(p, ms); SamePeer(p, r)
  {
    hide Sound, Remove;
    if ms == [] {
    } else {
      BatchKeepsPeer(p, ms[..|ms| - 1]);
    }
  }

  /** The handshake event is returned at most once, and is returned at all exactly when the flag is set. */
  predicate HandshakeOnce(p: Proto) {
    && NoHandshakeQueued(p)
    && (forall i, j | 0 <= i < j < |p.emitted| :: !(p.emitted[i].HandshakeDone? && p.emitted[j].HandshakeDone?))
    && (p.handshakeEmitted <==> exists i :: 0 <= i < |p.emitted| && p.emitted[i].HandshakeDone?)
  }

  lemma StepOrder(p: Proto, s: Step)
    requires p.Good() && HandshakeOnce(p)
    ensures HandshakeOnce(Take(p, s).p)
    ensures Lineup(p) <= Lineup(Take(p, s).p)
  {
    hide Take;
    if s.Pop? {
      PopKeepsLineup(p);
      PopOnce(p);
    } else if s.EmitHandshake? {
      HandshakeKeepsLineup(p);
      EmitOnce(p);
    } else {
      StepExtends(p, s);
      var q := Take(p, s).p;
      assert q.events == p.events + q.events[|p.events|..];
    }
  }

  lemma PopOnce(p: Proto)
    requires p.Good() && HandshakeOnce(p)
    ensures HandshakeOnce(Take(p, Pop).p)
  {
    var q := Take(p, Pop).p;
    assert forall i | 0 <= i < |p.emitted| :: q.emitted[i] == p.emitted[i];
  }

  lemma EmitOnce(p: Proto)
    requires p.Good() && HandshakeOnce(p)
    ensures HandshakeOnce(Take(p, EmitHandshake).p)
  {
    var q := Take(p, EmitHandshake).p;
    assert forall i | 0 <= i < |p.emitted| :: q.emitted[i] == p.emitted[i];
    if q != p {
      assert q.emitted[|p.emitted|].HandshakeDone?;
    }
  }

  /**
   On every run the handshake event is returned at most once, and all other events are returned in
   the order in which they were queued: the line-up only ever grows at its end.
   */
  lemma {:induction false} EventOrder(p: Proto, steps: seq<Step>)
    requires p.Good() && HandshakeOnce(p)
    ensures HandshakeOnce(Run(p, steps))
    ensures Lineup(p) <= Lineup(Run(p, steps))
    decreases |steps|
  {
    hide Take, Lineup, HandshakeOnce;
    if steps == [] {
    } else {
      var n := |steps| - 1;
      EventOrder(p, steps[..n]);
      StepOrder(Run(p, steps[..n]), steps[n]);
    }
  }

  //
  // Local signals
  //

  predicate NoSignal(ms: seq<ChannelMessage>) {
    forall i | 0 <= i < |ms| :: !ms[i].message.LocalSignal?
  }

  lemma {:induction false} BatchSendsNothing(p: Proto, ms: seq<ChannelMessage>)
    requires p.Good()
    ensures OnBatch(p, ms).outbox == p.outbox
  {
    if ms == [] {
    } else {
      BatchSendsNothing(p, ms[..|ms| - 1]);
    }
  }

  lemma StepOutbox(p: Proto, s: Step)
    requires p.Good()
    ensures p.outbox <= Take(p, s).p.outbox
    ensures NoSignal(p.outbox) ==> NoSignal(Take(p, s).p.outbox)
  {
    hide Sound, OnCommand, OnInboundMessage, OnBatch, Kept, Shut, DropReceiver;
    match s
    case Inbound(m) => InboundExtends(p, m);
    case Execute(c) => CommandExtends(p, c);
    case Outbound(ms) => BatchSendsNothing(p, ms);
    case _ =>
  }

  /** No local signal ever reaches the write queue, and nothing enqueued is taken back. */
  lemma {:induction false} SignalsStayLocal(p: Proto, steps: seq<Step>)
    requires p.Good() && NoSignal(p.outbox)
    ensures NoSignal(Run(p, steps).outbox)
    ensures p.outbox <= Run(p, steps).outbox
    decreases |steps|
  {
    hide Take, NoSignal;
    if steps == [] {
    } else {
      var n := |steps| - 1;
      SignalsStayLocal(p, steps[..n]);
      StepOutbox(Run(p, steps[..n]), steps[n]);
    }
  }

  lemma KeptSnoc(ms: seq<ChannelMessage>, m: ChannelMessage)
    ensures Kept(ms + [m]) == Kept(ms) + if m.message.LocalSignal? then [] else [m]
  {
    assert (ms + [m])[..|ms + [m]| - 1] == ms;
  }

  /** Dropping local signals is a filter: it works message by message and keeps the order. */
  lemma {:induction false} KeptIsFilter(a: seq<ChannelMessage>, b: seq<ChannelMessage>)
    ensures Kept(a + b) == Kept(a) + Kept(b)
    decreases |b|
  {
    hide Kept;
    if b == [] {
      assert a + b == a;
      KeptNothing();
    } else {
      var front, last := b[..|b| - 1], b[|b| - 1];
      KeptIsFilter(a, front);
      assert a + b == (a + front) + [last];
      assert b == front + [last];
      KeptSnoc(a + front, last);
      KeptSnoc(front, last);
    }
  }

  lemma KeptNothing()
    ensures Kept([]) == []
  {
  }

  /** A batch without local signals is sent as it is. */
  lemma {:induction false} KeptWhole(ms: seq<ChannelMessage>)
    requires NoSignal(ms)
    ensures Kept(ms) == ms
    decreases |ms|
  {
    hide Kept;
    if ms == [] {
      KeptNothing();
    } else {
      var front, last := ms[..|ms| - 1], ms[|ms| - 1];
      KeptWhole(front);
      KeptSnoc(front, last);
      assert ms == front + [last];
    }
  }

  /** The events that the local signals of a batch turn into. */
  function SignalEvents(ms: seq<ChannelMessage>): seq<Event> {
    if ms == [] then []
    else
      var n := |ms| - 1;
      SignalEvents(ms[..n])
      + if ms[n].message.LocalSignal? then [Signalled(ms[n].message.name, ms[n].message.payload)] else []
  }

  /** Every local signal of a batch without Close becomes one event, in order, and nothing else happens. */
  lemma {:induction false} SignalsBecomeEvents(p: Proto, ms: seq<ChannelMessage>)
    requires p.Good() && forall i | 0 <= i < |ms| :: !ms[i].message.Close?
    ensures OnOutbound(p, ms) == p.(events := p.events + SignalEvents(ms), outbox := p.outbox + Kept(ms))
  {
    hide Sound, Kept;
    SignalsQueued(p, ms);
  }

  lemma {:induction false} SignalsQueued(p: Proto, ms: seq<ChannelMessage>)
    requires p.Good() && forall i | 0 <= i < |ms| :: !ms[i].message.Close?
    ensures OnBatch(p, ms) == p.(events := p.events + SignalEvents(ms))
  {
    hide Sound;
    if ms == [] {
      assert p.events + [] == p.events;
    } else {
      var n := |ms| - 1;
      SignalsQueued(p, ms[..n]);
    }
  }
}
