/**
 The protocol as a state machine: what each command, inbound message and outbound batch does to the
 channel table, the event queue and the outgoing messages.
 */
module ProtocolModel {
  import opened Wrappers
  import opened Compact
  import opened Handshake
  import opened Messages
  import opened Channels
  import W = WireSchema

  datatype Event =
    | HandshakeDone(remoteKey: Key)
    | DiscoveryKey(dk: Key)
    | Established(channel: Channel)
    | Closed(dk: Key)
    | Signalled(name: seq<byte>, payload: seq<byte>)

  datatype Command =
    | OpenKey(key: Key)
    | CloseKey(dk: Key)
    | SignalLocal(name: seq<byte>, payload: seq<byte>)

  /** Why a step failed. The source panics instead of failing with `NoHandshake`. */
  datatype Problem = BadKey | Denied | NoHandshake | TableProblem(error: Channels.Error)

  /** `emitted` holds all events returned so far and `outbox` all messages ever enqueued for sending. */
  datatype Proto = Proto(
    crypto: Crypto,
    initiator: bool,
    hash: Option<Bytes>,
    remoteKey: Option<Key>,
    table: Table,
    events: seq<Event>,
    emitted: seq<Event>,
    handshakeEmitted: bool,
    outbox: seq<ChannelMessage>)
  {
    ghost predicate Good() { Sound(table) }

    function Capability(key: Key): Option<Bytes> {
      if remoteKey.Some? && hash.Some?
      then Some(HandshakeResult(initiator, hash.value).Capability(crypto, key))
      else None
    }

    function Queue(e: Event): Proto { this.(events := events + [e]) }

    function Send(m: ChannelMessage): Proto { this.(outbox := outbox + [m]) }

    /** All events so far, those already returned first. */
    function History(): seq<Event> { emitted + events }
  }

  /** The state after a step and, if it failed, why. */
  datatype Done = Done(p: Proto, problem: Option<Problem>)

  /** "hypercore/alpha" */
  const PROTOCOL_NAME: Bytes :=
    [0x68, 0x79, 0x70, 0x65, 0x72, 0x63, 0x6f, 0x72, 0x65, 0x2f, 0x61, 0x6c, 0x70, 0x68, 0x61]

  /** What the bytes spell. */
  lemma ProtocolName()
    ensures |PROTOCOL_NAME| == |"hypercore/alpha"|
    ensures forall i | 0 <= i < |PROTOCOL_NAME| :: PROTOCOL_NAME[i] == "hypercore/alpha"[i] as int
  {
  }

  function Start(crypto: Crypto, initiator: bool): (p: Proto)
    ensures p.Good()
  {
    Proto(crypto, initiator, None, None, Empty(), [], [], false, [])
  }

  //
  // Establishing channels
  //

  function AcceptChannel(p: Proto, id: nat): (r: Done)
    requires p.Good()
    ensures r.p.Good()
  {
    match GetLocal(p.table, id)
    case None => Done(p, Some(TableProblem(NotFound)))
    case Some(h) =>
      if !h.IsConnected() then Done(p, Some(TableProblem(NotOpened)))
      else if p.remoteKey.None? || p.hash.None? then Done(p, Some(NoHandshake))
      else if !HandshakeResult(p.initiator, p.hash.value).Verify(p.crypto, h.remote.value.capability, h.local.value.key)
      then Done(p, Some(Denied))
      else match Accept(p.table, id)
        case Failure(e) => Done(p, Some(TableProblem(e)))
        case Success((t, channel)) => Done(p.(table := t).Queue(Established(channel)), None)
  }

  function OpenMessage(p: Proto, id: nat, dk: Key, key: Key): ChannelMessage {
    ChannelMessage(id, Open(W.Open(id, PROTOCOL_NAME, dk, p.Capability(key))))
  }

  function CommandOpen(p: Proto, key: Key): (r: Done)
    requires p.Good()
    ensures r.p.Good()
  {
    var dk, id := p.crypto.discovery(key), NextLocalId(p.table);
    var attached := p.(table := AttachLocal(p.table, dk, key));
    var accepted := if attached.table.channels[dk].IsConnected() then AcceptChannel(attached, id) else Done(attached, None);
    if accepted.problem.Some? then accepted
    else Done(accepted.p.Send(OpenMessage(p, id, dk, key)), None)
  }

  function OnOpen(p: Proto, id: nat, o: W.Open): (r: Done)
    requires p.Good()
    ensures r.p.Good()
  {
    if |o.discoveryKey| != 32 then Done(p, Some(BadKey))
    else
      var dk: Key := o.discoveryKey;
      var attached := p.(table := AttachRemote(p.table, dk, id, o.capability));
      var h := attached.table.channels[dk];
      if h.IsConnected() then AcceptChannel(attached, h.local.value.localId)
      else Done(attached.Queue(DiscoveryKey(dk)), None)
  }

  //
  // Closing channels
  //

  function CommandClose(p: Proto, dk: Key): (r: Proto)
    requires p.Good()
    ensures r.Good()
  {
    if dk in p.table.channels then p.(table := Remove(p.table, dk)).Queue(Closed(dk)) else p
  }

  function CloseLocal(p: Proto, id: nat): (r: Proto)
    requires p.Good()
    ensures r.Good()
  {
    match GetLocal(p.table, id)
    case None => p
    case Some(h) => p.(table := Remove(p.table, h.discoveryKey)).Queue(Closed(h.discoveryKey))
  }

  function OnClose(p: Proto, id: nat, m: Message): (r: Proto)
    requires p.Good()
    ensures r.Good()
  {
    match GetRemote(p.table, id)
    case None => p
    case Some(h) =>
      p.(table := Remove(ForwardTolerant(p.table, id, m), h.discoveryKey)).Queue(Closed(h.discoveryKey))
  }

  //
  // Dispatch
  //

  function OnInboundMessage(p: Proto, m: ChannelMessage): (r: Done)
    requires p.Good()
    ensures r.p.Good()
  {
    match m.message
    case Open(o) => OnOpen(p, m.channel, o)
    case Close(_) => Done(OnClose(p, m.channel, m.message), None)
    case _ =>
      match Forward(p.table, m.channel, m.message)
      case Success(t) => Done(p.(table := t), None)
      case Failure(e) => Done(p, Some(TableProblem(e)))
  }

  function OnCommand(p: Proto, c: Command): (r: Done)
    requires p.Good()
    ensures r.p.Good()
  {
    match c
    case OpenKey(key) => CommandOpen(p, key)
    case CloseKey(dk) => Done(CommandClose(p, dk), None)
    case SignalLocal(name, payload) => Done(p.Queue(Signalled(name, payload)), None)
  }

  /** A Close closes the local channel on its way out; a local signal becomes an event. */
  function OnOutboundMessage(p: Proto, m: ChannelMessage): (r: Proto)
    requires p.Good()
    ensures r.Good()
  {
    match m.message
    case Close(_) => CloseLocal(p, m.channel)
    case LocalSignal(name, payload) => p.Queue(Signalled(name, payload))
    case _ => p
  }

  /** Handles the messages of a batch in order, without sending them. */
  function OnBatch(p: Proto, ms: seq<ChannelMessage>): (r: Proto)
    requires p.Good()
    ensures r.Good()
  {
    if ms == [] then p
    else OnOutboundMessage(OnBatch(p, ms[..|ms| - 1]), ms[|ms| - 1])
  }

  /** What is left of a batch without its local signals. */
  function Kept(ms: seq<ChannelMessage>): (r: seq<ChannelMessage>)
    ensures forall i | 0 <= i < |r| :: r[i] in ms && !r[i].message.LocalSignal?
  {
    if ms == [] then []
    else Kept(ms[..|ms| - 1]) + if ms[|ms| - 1].message.LocalSignal? then [] else [ms[|ms| - 1]]
  }

  function OnOutbound(p: Proto, ms: seq<ChannelMessage>): (r: Proto)
    requires p.Good()
    ensures r.Good()
  {
    var handled := OnBatch(p, ms);
    handled.(outbox := handled.outbox + Kept(ms))
  }

  //
  // Runs
  //

  datatype Step =
    | Learn(hash: Option<Bytes>, remoteKey: Option<Key>)   // the stream's handshake progresses
    | Inbound(message: ChannelMessage)
    | Execute(command: Command)
    | Outbound(batch: seq<ChannelMessage>)
    | Pop                                                  // return the oldest queued event
    | EmitHandshake                                        // return the handshake event, once
    | ShutFlag(cell: nat)                                  // a user closes a channel
    | DropQueue(inbox: nat)                                // a user drops a receiver

  function Take(p: Proto, s: Step): (r: Done)
    requires p.Good()
    ensures r.p.Good()
  {
    match s
    case Learn(hash, remoteKey) => Done(p.(hash := hash, remoteKey := remoteKey), None)
    case Inbound(m) => OnInboundMessage(p, m)
    case Execute(c) => OnCommand(p, c)
    case Outbound(ms) => Done(OnOutbound(p, ms), None)
    case Pop =>
      if p.events == [] then Done(p, None)
      else Done(p.(events := p.events[1..], emitted := p.emitted + [p.events[0]]), None)
    case EmitHandshake =>
      if p.handshakeEmitted || p.remoteKey.None? then Done(p, None)
      else Done(p.(handshakeEmitted := true, emitted := p.emitted + [HandshakeDone(p.remoteKey.value)]), None)
    case ShutFlag(c) =>
      Done(if c < |p.table.cells| then p.(table := Shut(p.table, c)) else p, None)
    case DropQueue(x) =>
      Done(if x < |p.table.inboxes| then p.(table := DropReceiver(p.table, x)) else p, None)
  }

  /** The state after a sequence of steps; a step that fails still leaves its mark. */
  function Run(p: Proto, steps: seq<Step>): (r: Proto)
    requires p.Good()
    ensures r.Good()
    decreases |steps|
  {
    if steps == [] then p else Take(Run(p, steps[..|steps| - 1]), steps[|steps| - 1]).p
  }

  lemma {:induction false} RunAppend(p: Proto, first: seq<Step>, second: seq<Step>)
    requires p.Good()
    ensures Run(p, first + second) == Run(Run(p, first), second)
    decreases |second|
  {
    hide Take;
    if second == [] {
      assert first + second == first;
    } else {
      var n := |second| - 1;
      RunAppend(p, first, second[..n]);
      assert (first + second)[..|first + second| - 1] == first + second[..n];
    }
  }
}
