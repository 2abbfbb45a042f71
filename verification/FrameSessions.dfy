/**
 Two peers that exchange frames: what each side enqueues is cut into frames, encoded, and decoded at the
 other end, with either variant of the decoder. Frames are cut whenever the transport happens to be ready.
 */
module FrameSessions {
  import opened Wrappers
  import opened Compact
  import opened Handshake
  import opened Messages
  import opened Framing
  import opened FrameTheorems
  import opened MessageQueue
  import opened Channels
  import opened ProtocolModel
  import opened Views
  import opened Peers
  import S = Sessions
  import L = ChannelLifetime
  import ChannelTheorems
  import P = Polls

  /** A buffer on its way, and the list of messages it was made from. */
  datatype Packet = Packet(messages: seq<ChannelMessage>, bytes: seq<byte>)

  /** One direction of a connection: the buffers on their way and the messages not yet cut into frames. */
  datatype Pipe = Pipe(packets: seq<Packet>, queue: seq<ChannelMessage>)

  datatype FrameSession = FrameSession(a: Peer, b: Peer, toB: Pipe, toA: Pipe) {
    function Swap(): FrameSession { FrameSession(b, a, toA, toB) }
  }

  datatype Trouble = Unencodable | Undecodable(error: Compact.Error) | StepFailed(problem: Problem)

  /** One side acts, sends its next frame, or takes in the next buffer. */
  datatype Move = Acting(byA: bool, act: Act) | Sending(byA: bool) | Taking(byA: bool)

  function InStep(problem: Option<Problem>): Option<Trouble> {
    if problem.Some? then Some(StepFailed(problem.value)) else None
  }

  /** What was added to a list. */
  function Since(before: seq<ChannelMessage>, after: seq<ChannelMessage>): seq<ChannelMessage> {
    if |before| <= |after| then after[|before|..] else []
  }

  function ActByA(f: FrameSession, act: Act): (r: (FrameSession, Option<Trouble>))
    requires f.a.p.Good() && f.b.p.Good()
    ensures r.0.a.p.Good() && r.0.b.p.Good()
  {
    var acted := Perform(f.a, act);
    var more := Since(f.a.p.outbox, acted.peer.p.outbox);
    (f.(a := acted.peer, toB := f.toB.(queue := f.toB.queue + more)), InStep(acted.problem))
  }

  function SendByA(s: Schema, f: FrameSession): (r: (FrameSession, Option<Trouble>)) {
    var n := FrameLength(f.toB.queue);
    var ms, rest := f.toB.queue[..n], f.toB.queue[n..];
    if n == 0 then (f, None)
    else if AllSendable(s, ms) then (f.(toB := Pipe(f.toB.packets + [Packet(ms, Wire(s, ms))], rest)), None)
    else (f.(toB := f.toB.(queue := rest)), Some(Unencodable))
  }

  /** Handles messages in order, up to the first failure. */
  function HandleAll(q: Peer, ms: seq<ChannelMessage>): (r: Acted)
    requires q.p.Good()
    ensures r.peer.p.Good()
    decreases |ms|
  {
    if ms == [] then Acted(q, None)
    else
      var first := Perform(q, ReceiveAct(ms[0]));
      if first.problem.Some? then first else HandleAll(first.peer, ms[1..])
  }

  /** A buffer is decoded as a whole before its messages are handled. */
  function TakeByA(s: Schema, v: Variant, f: FrameSession): (r: (FrameSession, Option<Trouble>))
    requires f.a.p.Good() && f.b.p.Good()
    ensures r.0.a.p.Good() && r.0.b.p.Good()
  {
    if f.toA.packets == [] then (f, None)
    else
      var rest := f.(toA := f.toA.(packets := f.toA.packets[1..]));
      match DecodeAll(s, v, f.toA.packets[0].bytes)
      case Failure(e) => (rest, Some(Undecodable(e)))
      case Success(ms) =>
        var r := HandleAll(f.a, ms);
        (rest.(a := r.peer), InStep(r.problem))
  }

  function MoveByA(s: Schema, v: Variant, f: FrameSession, m: Move): (r: (FrameSession, Option<Trouble>))
    requires f.a.p.Good() && f.b.p.Good()
    ensures r.0.a.p.Good() && r.0.b.p.Good()
  {
    match m
    case Acting(_, act) => ActByA(f, act)
    case Sending(_) => SendByA(s, f)
    case Taking(_) => TakeByA(s, v, f)
  }

  function MakeMove(s: Schema, v: Variant, f: FrameSession, m: Move): (r: (FrameSession, Option<Trouble>))
    requires f.a.p.Good() && f.b.p.Good()
    ensures r.0.a.p.Good() && r.0.b.p.Good()
  {
    if m.byA then MoveByA(s, v, f, m)
    else
      var (g, trouble) := MoveByA(s, v, f.Swap(), m);
      (g.Swap(), trouble)
  }

  //
  // What is permitted
  //

  /** A message that the other side gets, or that is not for it. */
  predicate Carriable(s: Schema, m: ChannelMessage) { m.message.LocalSignal? || Carried(s, m) }

  /** Ids, sizes and texts are within what the wire can carry. */
  predicate Writable(s: Schema, q: Peer, act: Act)
    requires q.p.Good()
  {
    match act
    case OpenAct(_) => NextLocalId(q.p.table) < U64_LIMIT
    case SendAct(c, ms) =>
      forall i | 0 <= i < |ms| ::
        ms[i].LocalSignal? || (Encodable(ms[i]) && SizeMessage(s, ms[i]) < U64_LIMIT && TextValid(s, ms[i]))
    case _ => true
  }

  ghost predicate Permitted(s: Schema, f: FrameSession, m: Move)
    requires f.a.p.Good() && f.b.p.Good()
  {
    m.Acting? ==>
      var q := if m.byA then f.a else f.b;
      !m.act.ReceiveAct? && Allowed(q, m.act) && Writable(s, q, m.act)
  }

  //
  // One side
  //

  ghost predicate PendingCarriable(s: Schema, pending: seq<Batch>) {
    forall i, j | 0 <= i < |pending| && 0 <= j < |pending[i].messages| :: Carriable(s, pending[i].messages[j])
  }

  /** A side sends only what can be carried, and nobody uses id zero. */
  ghost predicate Sends(s: Schema, q: Peer) {
    && AllCarried(s, q.p.outbox)
    && PendingCarriable(s, q.pending)
    && (forall i | i in ViewOf(q.p.table).l :: i < U64_LIMIT)
    && 0 !in ViewOf(q.p.table).r
  }

  lemma SendsStay(s: Schema, q: Peer, r: Peer, more: seq<ChannelMessage>)
    requires Sends(s, q) && r.p.outbox == q.p.outbox + more && AllCarried(s, more)
    requires PendingCarriable(s, r.pending)
    requires forall i | i in ViewOf(r.p.table).l :: i < U64_LIMIT
    requires 0 !in ViewOf(r.p.table).r
    ensures q.p.outbox <= r.p.outbox && Sends(s, r)
  {
    hide ViewOf, Carried;
    CarriedParts(s, q.p.outbox, more);
  }

  lemma OpenSends(s: Schema, q: Peer, hash: Bytes, key: Key)
    requires s.Valid() && s.utf8(PROTOCOL_NAME) && PeerOk(q, hash) && Sends(s, q)
    requires Allowed(q, OpenAct(key)) && Writable(s, q, OpenAct(key))
    ensures var r := Perform(q, OpenAct(key)).peer; q.p.outbox <= r.p.outbox && Sends(s, r)
  {
    hide PeerOk, Sound, Allowed, Perform, ViewOf, Carried, OpenMessage, NextLocalId, PendingCarriable;
    PeerGood(q, hash);
    FirstIdIsOne(q.p.table);
    OpenStep(q, hash, key);
    var id, dk := NextLocalId(q.p.table), q.p.crypto.discovery(key);
    P.OpenIsCarried(s, q.p, id, key);
    PendingStays(q, OpenAct(key));
    SendsStay(s, q, Perform(q, OpenAct(key)).peer, [OpenMessage(q.p, id, dk, key)]);
  }

  lemma PendingStays(q: Peer, act: Act)
    requires q.p.Good() && (act.OpenAct? || act.ReceiveAct?)
    ensures Perform(q, act).peer.pending == q.pending
  {
    hide Take;
  }

  lemma PeerGood(q: Peer, hash: Bytes)
    requires PeerOk(q, hash)
    ensures q.p.Good() && Exact(q.p.table)
  {
  }

  lemma FirstIdIsOne(t: Table)
    requires Sound(t)
    ensures NextLocalId(t) >= 1
  {
  }

  lemma FlushSends(s: Schema, q: Peer, hash: Bytes)
    requires PeerOk(q, hash) && Sends(s, q)
    ensures var r := Perform(q, FlushAct).peer; q.p.outbox <= r.p.outbox && Sends(s, r)
  {
    PeerGood(q, hash);
    hide Sound, Exact, HandlesOk, ChannelsOk, OutboxOk, ViewOf, Carried, Take, Drop;
    if q.pending != [] {
      var b, r := q.pending[0], Perform(q, FlushAct).peer;
      assert BatchOk(q.p.table, b);
      assert r.pending == q.pending[1..];
      assert PendingCarriable(s, r.pending);
      assert forall j | 0 <= j < |b.messages| :: Carriable(s, b.messages[j]);
      KeptCarried(s, b.messages);
      if IsLoneClose(b.messages) {
        FlushCloseStep(q, hash);
        DropWithin(ViewOf(q.p.table));
        LoneClose(q.p, b.messages);
        SendsStay(s, q, r, [b.messages[0]]);
      } else {
        FlushTrafficStep(q, hash);
        SendsStay(s, q, r, Kept(b.messages));
      }
    }
  }

  lemma DropWithin(v: View)
    ensures forall dk, i :: (i in Drop(v, dk).l ==> i in v.l) && (i in Drop(v, dk).r ==> i in v.r)
  {
  }

  lemma KeptCarried(s: Schema, ms: seq<ChannelMessage>)
    requires forall j | 0 <= j < |ms| :: Carriable(s, ms[j])
    ensures AllCarried(s, Kept(ms))
  {
    hide Carried;
    forall i | 0 <= i < |Kept(ms)| ensures Carried(s, Kept(ms)[i]) {
      var j :| 0 <= j < |ms| && ms[j] == Kept(ms)[i];
      assert Carriable(s, ms[j]);
    }
  }

  lemma SendSends(s: Schema, q: Peer, hash: Bytes, c: Channel, ms: seq<Message>)
    requires PeerOk(q, hash) && Sends(s, q) && Allowed(q, SendAct(c, ms)) && Writable(s, q, SendAct(c, ms))
    ensures var r := Perform(q, SendAct(c, ms)).peer; q.p.outbox <= r.p.outbox && Sends(s, r)
  {
    hide PeerOk, Sound, Carried, Writable, ViewOf, ChannelOk;
    PeerGood(q, hash);
    SendStep(q, hash, c, ms);
    Announced(q, hash, c);
    if !q.p.table.cells[c.cell].closed {
      LiveId(q, c);
      SentCarriable(s, q, c, ms);
      MorePending(s, q.pending, Batch(c.discoveryKey, SendOn(q.p.table, c, ms).value));
    }
  }

  lemma CloseSends(s: Schema, q: Peer, hash: Bytes, c: Channel)
    requires PeerOk(q, hash) && Sends(s, q) && Allowed(q, CloseAct(c))
    ensures var r := Perform(q, CloseAct(c)).peer; q.p.outbox <= r.p.outbox && Sends(s, r)
  {
    hide PeerOk, Sound, Carried, ViewOf, ChannelOk, Take;
    PeerGood(q, hash);
    CloseStep(q, hash, c);
    Announced(q, hash, c);
    if !q.p.table.cells[c.cell].closed {
      LiveId(q, c);
      CloseCarried(s, c);
      MorePending(s, q.pending, Batch(c.discoveryKey, CloseBatch(c)));
    }
  }

  lemma Announced(q: Peer, hash: Bytes, c: Channel)
    requires PeerOk(q, hash) && Established(c) in q.p.History()
    ensures ChannelOk(q.p.table, c) && c.cell < |q.p.table.cells|
  {
    hide Sound, Exact, HandlesOk, OutboxOk, PendingOk;
  }

  lemma MorePending(s: Schema, pending: seq<Batch>, b: Batch)
    requires PendingCarriable(s, pending) && forall j | 0 <= j < |b.messages| :: Carriable(s, b.messages[j])
    ensures PendingCarriable(s, pending + [b])
  {
    hide Carriable;
  }

  lemma LiveId(q: Peer, c: Channel)
    requires q.p.Good() && ChannelOk(q.p.table, c) && !q.p.table.cells[c.cell].closed
    ensures c.localId >= 1 && c.localId in ViewOf(q.p.table).l
  {
    assert HandleSound(q.p.table, c.discoveryKey);
  }

  lemma SentCarriable(s: Schema, q: Peer, c: Channel, ms: seq<Message>)
    requires q.p.Good() && c.cell < |q.p.table.cells| && 1 <= c.localId < U64_LIMIT
    requires Writable(s, q, SendAct(c, ms)) && forall i | 0 <= i < |ms| :: !ms[i].IsControl()
    ensures var sent := SendOn(q.p.table, c, ms);
            sent.Success? ==> forall j | 0 <= j < |sent.value| :: Carriable(s, sent.value[j])
  {
  }

  lemma CloseCarried(s: Schema, c: Channel)
    requires 1 <= c.localId < U64_LIMIT
    ensures Carried(s, CloseBatch(c)[0]) && |CloseBatch(c)| == 1
  {
  }

  lemma ActSends(s: Schema, q: Peer, hash: Bytes, act: Act)
    requires s.Valid() && s.utf8(PROTOCOL_NAME) && PeerOk(q, hash) && Sends(s, q)
    requires !act.ReceiveAct? && Allowed(q, act) && Writable(s, q, act)
    ensures var r := Perform(q, act).peer; q.p.outbox <= r.p.outbox && Sends(s, r)
  {
    PeerGood(q, hash);
    hide PeerOk, Perform, Sends, Allowed, Writable;
    match act
    case OpenAct(key) => OpenSends(s, q, hash, key);
    case FlushAct => FlushSends(s, q, hash);
    case SendAct(c, ms) => SendSends(s, q, hash, c, ms);
    case CloseAct(c) => CloseSends(s, q, hash, c);
    case EventAct(step) => EventSends(s, q, hash, step);
    case DropAct(inbox) => DropSends(s, q, hash, inbox);
    case ReceiveAct(_) =>
  }

  lemma DropSends(s: Schema, q: Peer, hash: Bytes, inbox: nat)
    requires PeerOk(q, hash) && Sends(s, q)
    ensures var r := Perform(q, DropAct(inbox)).peer; q.p.outbox <= r.p.outbox && Sends(s, r)
  {
    PeerGood(q, hash);
    hide PeerOk, Take, ViewOf, Carried;
    DropStep(q, hash, inbox);
    SendsStay(s, q, Perform(q, DropAct(inbox)).peer, []);
  }

  lemma EventSends(s: Schema, q: Peer, hash: Bytes, step: Step)
    requires PeerOk(q, hash) && Sends(s, q) && Allowed(q, EventAct(step))
    ensures var r := Perform(q, EventAct(step)).peer; q.p.outbox <= r.p.outbox && Sends(s, r)
  {
    PeerGood(q, hash);
    hide PeerOk, Allowed, Take, ViewOf, Carried;
    EventStep(q, hash, step);
    SendsStay(s, q, Perform(q, EventAct(step)).peer, []);
  }

  //
  // Both sides
  //

  function Lists(packets: seq<Packet>): (r: seq<seq<ChannelMessage>>)
    ensures |r| == |packets|
  {
    seq(|packets|, i requires 0 <= i < |packets| => packets[i].messages)
  }

  /** Everything enqueued and not yet taken in, in order. */
  function InFlight(pipe: Pipe): seq<ChannelMessage> { Flatten(Lists(pipe.packets)) + pipe.queue }

  /** How many of the messages of a side the other side has had. */
  function Had(q: Peer, pipe: Pipe): nat {
    if |InFlight(pipe)| <= |q.p.outbox| then |q.p.outbox| - |InFlight(pipe)| else 0
  }

  predicate PacketOk(s: Schema, p: Packet) {
    AllSendable(s, p.messages) && IsFrame(s, p.messages) && p.bytes == Wire(s, p.messages)
  }

  /** A pipe holds the end of the outbox, and its buffers are the encoded frames. */
  predicate PipeOk(s: Schema, q: Peer, pipe: Pipe) {
    && |InFlight(pipe)| <= |q.p.outbox| && q.p.outbox[Had(q, pipe)..] == InFlight(pipe)
    && forall i | 0 <= i < |pipe.packets| :: PacketOk(s, pipe.packets[i])
  }

  /** The session without its frames: what is in flight is a list of messages. */
  function Whole(f: FrameSession): S.Session { S.Session(f.a, f.b, Had(f.a, f.toB), Had(f.b, f.toA)) }

  ghost predicate FrameOk(s: Schema, f: FrameSession, hash: Bytes) {
    && s.Valid() && s.utf8(PROTOCOL_NAME)
    && S.SessionOk(Whole(f), hash)
    && Sends(s, f.a) && Sends(s, f.b)
    && PipeOk(s, f.a, f.toB) && PipeOk(s, f.b, f.toA)
  }

  lemma FrameGood(s: Schema, f: FrameSession, hash: Bytes)
    requires FrameOk(s, f, hash)
    ensures f.a.p.Good() && f.b.p.Good() && PeerOk(f.a, hash) && PeerOk(f.b, hash)
  {
  }

  lemma SwapOk(s: Schema, f: FrameSession, hash: Bytes)
    ensures FrameOk(s, f, hash) <==> FrameOk(s, f.Swap(), hash)
  {
    hide S.SessionOk, Sends, PipeOk, Had;
    S.SwapOk(Whole(f), hash);
    assert Whole(f.Swap()) == Whole(f).Swap();
  }

  /** What a side enqueues goes to the end of its queue. */
  lemma PipeGrows(s: Schema, q: Peer, r: Peer, pipe: Pipe)
    requires PipeOk(s, q, pipe) && q.p.outbox <= r.p.outbox
    ensures var more := Since(q.p.outbox, r.p.outbox);
            var grown := pipe.(queue := pipe.queue + more);
            PipeOk(s, r, grown) && Had(r, grown) == Had(q, pipe)
  {
    hide PacketOk, Flatten, Lists;
    var more := Since(q.p.outbox, r.p.outbox);
    var grown := pipe.(queue := pipe.queue + more);
    assert InFlight(grown) == InFlight(pipe) + more;
    assert r.p.outbox == q.p.outbox + more;
    assert r.p.outbox[Had(q, pipe)..] == q.p.outbox[Had(q, pipe)..] + more;
  }

  lemma ActKeeps(s: Schema, f: FrameSession, hash: Bytes, act: Act)
    requires FrameOk(s, f, hash) && f.a.p.Good() && f.b.p.Good()
    requires !act.ReceiveAct? && Allowed(f.a, act) && Writable(s, f.a, act)
    ensures var r := ActByA(f, act); r.1.None? && FrameOk(s, r.0, hash)
  {
    FrameGood(s, f, hash);
    hide S.SessionOk, Sends, PipeOk, PeerOk, Perform, Allowed, Writable, Had, Since;
    S.MoveByAKeeps(Whole(f), hash, S.Own(true, act));
    ActSends(s, f.a, hash, act);
    PipeGrows(s, f.a, Perform(f.a, act).peer, f.toB);
  }

  lemma FlightCarried(s: Schema, q: Peer, pipe: Pipe)
    requires AllCarried(s, q.p.outbox) && PipeOk(s, q, pipe)
    ensures AllCarried(s, InFlight(pipe)) && AllCarried(s, Flatten(Lists(pipe.packets))) && AllCarried(s, pipe.queue)
  {
    hide Carried, PacketOk, Flatten, Lists;
    var n := Had(q, pipe);
    assert q.p.outbox == q.p.outbox[..n] + InFlight(pipe);
    CarriedParts(s, q.p.outbox[..n], InFlight(pipe));
    CarriedParts(s, Flatten(Lists(pipe.packets)), pipe.queue);
  }

  /** The first frame of a queue makes a proper packet. */
  lemma NewPacket(s: Schema, q: seq<ChannelMessage>)
    requires AllCarried(s, q) && q != []
    ensures var ms := q[..FrameLength(q)]; AllSendable(s, ms) && PacketOk(s, Packet(ms, Wire(s, ms)))
  {
    assert AllSendable(s, q);
    hide Carried, Sendable, FrameLength, Wire, IsCut, IsFrame;
    var n := FrameLength(q);
    FirstFrame(s, q);
    assert q == q[..n] + q[n..];
    CarriedParts(s, q[..n], q[n..]);
    CarriedCut(s, q[..n]);
  }

  lemma SentOne(pipe: Pipe, packet: Packet, rest: seq<ChannelMessage>)
    requires packet.messages + rest == pipe.queue
    ensures InFlight(Pipe(pipe.packets + [packet], rest)) == InFlight(pipe)
  {
    hide Flatten;
    var lists := Lists(pipe.packets);
    assert Lists(pipe.packets + [packet]) == lists + [packet.messages];
    FlattenAppend(lists, [packet.messages]);
    FlattenOne(packet.messages);
    assert (Flatten(lists) + packet.messages) + rest == Flatten(lists) + (packet.messages + rest);
  }

  /** Cutting a frame and encoding it changes nothing of what is in flight. */
  lemma SendKeeps(s: Schema, f: FrameSession, hash: Bytes)
    requires FrameOk(s, f, hash)
    ensures var r := SendByA(s, f); r.1.None? && FrameOk(s, r.0, hash) && Whole(r.0) == Whole(f)
  {
    hide S.SessionOk, PacketOk, FrameLength, Wire, InFlight, AllSendable, AllCarried, PendingCarriable, ViewOf;
    var q, n := f.toB.queue, FrameLength(f.toB.queue);
    if q != [] {
      FlightCarried(s, f.a, f.toB);
      NewPacket(s, q);
      var ms, rest := q[..n], q[n..];
      SentOne(f.toB, Packet(ms, Wire(s, ms)), rest);
    }
  }

  //
  // Taking in a buffer
  //

  /** One message that fits is handled or refused, and the next ones are in place. */
  lemma HandleOne(s: Schema, ss: S.Session, hash: Bytes)
    requires S.SessionOk(ss, hash) && Sends(s, ss.a) && AllCarried(s, ss.b.p.outbox) && ss.heardByA < |ss.b.p.outbox|
    ensures ss.a.p.Good() && ss.b.p.Good()
    ensures var r := S.ReceiveByA(ss);
            var acted := Perform(ss.a, ReceiveAct(ss.b.p.outbox[ss.heardByA]));
            && S.SessionOk(r.0, hash) && Sends(s, r.0.a) && r.0.a.p.outbox == ss.a.p.outbox
            && r.0 == ss.(a := acted.peer, heardByA := ss.heardByA + 1)
            && acted.problem == Reception(ss.a.p.table, ss.b.p.outbox[ss.heardByA])
            && (acted.problem.Some? ==> acted.peer == ss.a)
  {
    hide S.SessionOk, PeerOk, Sound, Perform, ViewOf, Carried, Fits, PendingCarriable, OnlyOwnInbox, SignalOf, Hear, Proves, Deaf;
    S.SessionGood(ss, hash);
    S.ReceiveMove(ss, hash);
    NextFits(ss, hash);
    var m, tag := ss.b.p.outbox[ss.heardByA], ss.b.tags[ss.heardByA];
    S.ReceiveStep(ss.a, hash, m, tag);
    HearWithin(ViewOf(ss.a.p.table), SignalOf(m, tag));
    SignalId(s, m, tag);
    PendingStays(ss.a, ReceiveAct(m));
    SendsStay(s, ss.a, Perform(ss.a, ReceiveAct(m)).peer, []);
  }

  lemma SignalId(s: Schema, m: ChannelMessage, tag: Key)
    requires Carried(s, m)
    ensures SignalOf(m, tag).id >= 1
  {
  }

  lemma HearWithin(v: View, signal: Signal)
    ensures forall i | i in Hear(v, signal).l :: i in v.l
    ensures forall i | i in Hear(v, signal).r :: i in v.r || i == signal.id
  {
  }

  /** What `a` is about to hear fits its table. */
  lemma NextFits(ss: S.Session, hash: Bytes)
    requires S.SessionOk(ss, hash) && ss.heardByA < |ss.b.p.outbox|
    ensures |ss.b.tags| == |ss.b.p.outbox| && PeerOk(ss.a, hash)
    ensures var m, tag := ss.b.p.outbox[ss.heardByA], ss.b.tags[ss.heardByA];
            && Fits(ViewOf(ss.a.p.table), SignalOf(m, tag))
            && (m.message.Open? ==>
                  && |m.message.open.discoveryKey| == 32
                  && Proves(ss.a.p.crypto, !ss.a.p.initiator, hash, m.message.open.discoveryKey, m.message.open.capability))
  {
    hide Drain, ViewOf, Sound, Exact, HandlesOk, ChannelsOk, PendingOk, Proves;
    var m, tag := ss.b.p.outbox[ss.heardByA], ss.b.tags[ss.heardByA];
    var ba := S.Link(ss.b, ss.heardByA);
    assert ba[0] == SignalOf(m, tag);
    assert OpenOk(ss.b.p, hash, m);
  }

  /** How many messages of a list come before the first whose receiver has been dropped. */
  function Reached(t: Table, ms: seq<ChannelMessage>): (k: nat)
    ensures k <= |ms|
    ensures forall i | 0 <= i < k :: !Deaf(t, ms[i])
    ensures k < |ms| ==> Deaf(t, ms[k])
  {
    if ms == [] || Deaf(t, ms[0]) then 0 else 1 + Reached(t, ms[1..])
  }

  /** The same inboxes, receivers dropped and not, with other messages in them. */
  predicate SameReceivers(t: Table, u: Table) {
    && u == t.(inboxes := u.inboxes) && |u.inboxes| == |t.inboxes|
    && forall x | 0 <= x < |t.inboxes| :: u.inboxes[x].receiving == t.inboxes[x].receiving
  }

  lemma {:induction false} SameReached(t: Table, u: Table, ms: seq<ChannelMessage>)
    requires SameReceivers(t, u)
    ensures Reached(u, ms) == Reached(t, ms)
    decreases |ms|
  {
    if ms == [] {
    } else {
      assert Deaf(u, ms[0]) == Deaf(t, ms[0]);
      hide Deaf;
      SameReached(t, u, ms[1..]);
    }
  }

  lemma ReceiveKeepsReceivers(q: Peer, m: ChannelMessage)
    requires q.p.Good() && !m.message.IsControl()
    ensures SameReceivers(q.p.table, Perform(q, ReceiveAct(m)).peer.p.table)
  {
    hide Sound;
    ForwardEffect(q.p.table, m.channel, m.message);
  }

  /** What `HandleAll` gives when only messages for dropped receivers are refused. */
  function StoppedAt(k: nat, n: nat): Option<Problem> {
    if k < n then Some(TableProblem(ReceiverGone)) else None
  }

  /** The messages that come next are handled up to the first one whose receiver has been dropped. */
  lemma {:induction false} HandleMany(s: Schema, ss: S.Session, hash: Bytes, ms: seq<ChannelMessage>)
    requires S.SessionOk(ss, hash) && Sends(s, ss.a) && AllCarried(s, ss.b.p.outbox)
    requires ss.heardByA <= |ss.b.p.outbox| && ms <= ss.b.p.outbox[ss.heardByA..]
    requires NoControl(ms) || |ms| <= 1
    ensures ss.a.p.Good() && ss.b.p.Good()
    ensures var r, k := HandleAll(ss.a, ms), Reached(ss.a.p.table, ms);
            && r.problem == StoppedAt(k, |ms|)
            && HandleAll(ss.a, ms[..k]) == Acted(r.peer, None)
            && Sends(s, r.peer) && r.peer.p.outbox == ss.a.p.outbox
            && S.SessionOk(ss.(a := r.peer, heardByA := ss.heardByA + k), hash)
    decreases |ms|
  {
    hide S.SessionOk, Sends, AllCarried, Perform, Sound, Deaf;
    S.SessionGood(ss, hash);
    if ms == [] {
      assert ss.(a := ss.a, heardByA := ss.heardByA + 0) == ss;
    } else {
      var k := Reached(ss.a.p.table, ms);
      assert ms[0] == ss.b.p.outbox[ss.heardByA..][0];
      HandleOne(s, ss, hash);
      if k == 0 {
        HandleNothing(ss.a, ms);
      } else {
        var next := S.ReceiveByA(ss).0;
        assert next.b.p.outbox[next.heardByA..] == ss.b.p.outbox[ss.heardByA..][1..];
        HandleMany(s, next, hash, ms[1..]);
        if |ms| > 1 {
          ReceiveKeepsReceivers(ss.a, ms[0]);
          SameReached(ss.a.p.table, next.a.p.table, ms[1..]);
        }
        assert ms[..k][0] == ms[0] && ms[..k][1..] == ms[1..][..k - 1];
      }
    }
  }

  lemma HandleNothing(q: Peer, ms: seq<ChannelMessage>)
    requires q.p.Good()
    ensures HandleAll(q, ms[..0]) == Acted(q, None)
  {
  }

  /** A session in which some messages that are neither Open nor Close were lost is still in order. */
  lemma {:induction false} Skip(ss: S.Session, hash: Bytes, n: nat)
    requires S.SessionOk(ss, hash) && ss.heardByA + n <= |ss.b.p.outbox|
    requires forall i | ss.heardByA <= i < ss.heardByA + n :: !ss.b.p.outbox[i].message.IsControl()
    ensures S.SessionOk(ss.(heardByA := ss.heardByA + n), hash)
    decreases n
  {
    hide S.SessionOk;
    if n == 0 {
    } else {
      SkipOne(ss, hash);
      Skip(ss.(heardByA := ss.heardByA + 1), hash, n - 1);
    }
  }

  lemma SkipOne(ss: S.Session, hash: Bytes)
    requires S.SessionOk(ss, hash) && ss.heardByA < |ss.b.p.outbox| && !ss.b.p.outbox[ss.heardByA].message.IsControl()
    ensures S.SessionOk(ss.(heardByA := ss.heardByA + 1), hash)
  {
    hide Agree, ViewOf, Sound, Exact, HandlesOk, ChannelsOk, PendingOk, OutboxOk;
    var v, w := ViewOf(ss.a.p.table), ViewOf(ss.b.p.table);
    var ab, ba := S.Link(ss.a, ss.heardByB), S.Link(ss.b, ss.heardByA);
    assert ba[0].Traffic?;
    assert ba[1..] == S.Link(ss.b, ss.heardByA + 1);
    Symmetry(v, w, ab, ba);
    ReceiveAgrees(w, v, ba, ab);
    Symmetry(v, w, ab, ba[1..]);
  }

  /** Messages on channel zero have no effect. */
  lemma {:induction false} ZeroIgnored(q: Peer, ms: seq<ChannelMessage>)
    requires q.p.Good() && 0 !in ViewOf(q.p.table).r && OnZero(ms)
    ensures HandleAll(q, ms) == Acted(q, None)
    decreases |ms|
  {
    if ms == [] {
    } else {
      ZeroIgnoredOne(q, ms[0]);
      hide Perform, ViewOf, Sound;
      ZeroIgnored(q, ms[1..]);
    }
  }

  lemma ZeroIgnoredOne(q: Peer, m: ChannelMessage)
    requires q.p.Good() && 0 !in ViewOf(q.p.table).r && m.channel == 0 && m.message.IsOrdinary()
    ensures Perform(q, ReceiveAct(m)) == Acted(q, None)
  {
    hide Sound;
    IndexAt(q.p.table.remoteIds, 0);
  }

  lemma {:induction false} HandleAppend(q: Peer, first: seq<ChannelMessage>, second: seq<ChannelMessage>)
    requires q.p.Good() && HandleAll(q, first).problem.None?
    ensures HandleAll(q, first + second) == HandleAll(HandleAll(q, first).peer, second)
    decreases |first|
  {
    hide Perform, Sound;
    if first == [] {
      assert first + second == second;
    } else {
      var ms := first + second;
      assert ms[0] == first[0] && ms[1..] == first[1..] + second;
      HandleAppend(Perform(q, ReceiveAct(first[0])).peer, first[1..], second);
    }
  }

  /** After a failure the rest of a list is not handled. */
  lemma {:induction false} HandleStops(q: Peer, first: seq<ChannelMessage>, second: seq<ChannelMessage>)
    requires q.p.Good() && HandleAll(q, first).problem.Some?
    ensures HandleAll(q, first + second) == HandleAll(q, first)
    decreases |first|
  {
    hide Perform, Sound;
    var ms := first + second;
    if first == [] {
    } else {
      assert ms[0] == first[0] && ms[1..] == first[1..] + second;
      var acted := Perform(q, ReceiveAct(first[0]));
      if acted.problem.None? {
        HandleStops(acted.peer, first[1..], second);
      }
    }
  }

  //
  // What a decoder makes of a frame
  //

  /** A decoder makes something of the frame: it has no channel change to get wrong, or no failure after it. */
  predicate Legible(s: Schema, v: Variant, ms: seq<ChannelMessage>)
    requires AllSendable(s, ms) && ms != []
  {
    v.SeparatorSkipped? || SingleChannel(ms) || Garbled(s, AfterChange(ms)).Success?
  }

  /** The messages of a frame from its first channel change on. */
  function AfterChange(ms: seq<ChannelMessage>): (r: seq<ChannelMessage>)
    requires ms != [] && !SingleChannel(ms)
    ensures r != [] && |r| < |ms| && r == ms[|ms| - |r|..]
  {
    ChangesSomewhere(ms);
    ms[OnChannel(ms[0].channel, ms)..]
  }

  /** How many messages of a frame are handed over as they were sent; after them come only messages on channel zero. */
  function HandedOver(s: Schema, v: Variant, ms: seq<ChannelMessage>): (n: nat)
    requires AllSendable(s, ms) && ms != []
    ensures n <= |ms|
  {
    if v.SeparatorSkipped? || SingleChannel(ms) then |ms|
    else if Garbled(s, AfterChange(ms)).Success? then |ms| - |AfterChange(ms)|
    else 0
  }

  /** A sender can tell: a frame whose first message after a channel change has ten bytes or more is not legible. */
  lemma LegibleIsShort(s: Schema, ms: seq<ChannelMessage>)
    requires AllSendable(s, ms) && ms != [] && !SingleChannel(ms) && Legible(s, AsWritten, ms)
    ensures var later := AfterChange(ms);
            SizeMessage(s, later[0].message) < 10 && later[0].channel <= |BatchBody(s, later[0].channel, later)|
  {
    hide SizeMessage, BatchBody, Garbled;
    GarbledIsShort(s, AfterChange(ms));
  }

  /** A frame is decoded to the messages handed over and messages on channel zero, or not at all. */
  lemma FrameOutcome(s: Schema, v: Variant, ms: seq<ChannelMessage>) returns (zeros: seq<ChannelMessage>)
    requires s.Valid() && AllSendable(s, ms) && IsFrame(s, ms) && OpenLongEnough(ms[0].message)
    ensures OnZero(zeros)
    ensures var r := DecodeAll(s, v, Wire(s, ms));
            if Legible(s, v, ms) then r == Success(ms[..HandedOver(s, v, ms)] + zeros) else r.Failure?
  {
    hide DecodeAll, Wire, Garbled, IsFrame, OpenLongEnough, AllSendable;
    zeros := [];
    if v.SeparatorSkipped? || SingleChannel(ms) {
      FrameRoundTrip(s, v, ms);
      assert ms[..|ms|] + [] == ms;
    } else {
      FrameMisread(s, ms);
      var garbled := Garbled(s, AfterChange(ms));
      if garbled.Success? {
        zeros := garbled.value;
      }
    }
  }

  //
  // Taking in keeps the session in order
  //

  /** The oldest buffer of a pipe comes first in what is in flight. */
  lemma OldestFirst(pipe: Pipe)
    requires pipe.packets != []
    ensures InFlight(pipe) == pipe.packets[0].messages + InFlight(pipe.(packets := pipe.packets[1..]))
  {
    hide Flatten;
    var ms, lists := pipe.packets[0].messages, Lists(pipe.packets[1..]);
    assert Lists(pipe.packets) == [ms] + lists;
    FlattenCons(ms, lists);
    assert (ms + Flatten(lists)) + pipe.queue == ms + (Flatten(lists) + pipe.queue);
  }

  /** Taking the oldest buffer off a pipe. */
  lemma PipeShrinks(s: Schema, q: Peer, pipe: Pipe)
    requires PipeOk(s, q, pipe) && pipe.packets != []
    ensures var ms, rest := pipe.packets[0].messages, pipe.(packets := pipe.packets[1..]);
            && PacketOk(s, pipe.packets[0]) && PipeOk(s, q, rest) && Had(q, rest) == Had(q, pipe) + |ms|
            && Had(q, pipe) + |ms| <= |q.p.outbox| && ms == q.p.outbox[Had(q, pipe)..Had(q, pipe) + |ms|]
  {
    hide PacketOk, InFlight;
    var ms, rest := pipe.packets[0].messages, pipe.(packets := pipe.packets[1..]);
    OldestFirst(pipe);
    var n, sent := Had(q, pipe), q.p.outbox;
    assert sent[n..] == ms + InFlight(rest);
    assert sent[n..n + |ms|] == sent[n..][..|ms|] == ms;
    assert sent[n + |ms|..] == sent[n..][|ms|..] == InFlight(rest);
  }

  /** An Open in flight is long enough for the decoder: it shows a capability. */
  lemma OpensAreLong(s: Schema, q: Peer, hash: Bytes, i: nat)
    requires PeerOk(q, hash) && i < |q.p.outbox|
    ensures OpenLongEnough(q.p.outbox[i].message)
  {
    hide Sound, Exact, HandlesOk, ChannelsOk, PendingOk;
    assert OpenOk(q.p, hash, q.p.outbox[i]);
    CapabilityIsLong(q.p.outbox[i]);
  }

  lemma SendsParts(s: Schema, q: Peer)
    requires Sends(s, q)
    ensures AllCarried(s, q.p.outbox) && 0 !in ViewOf(q.p.table).r
  {
  }

  lemma FirstPart(outbox: seq<ChannelMessage>, n: nat, ms: seq<ChannelMessage>, h: nat)
    requires n + |ms| <= |outbox| && ms == outbox[n..n + |ms|] && h <= |ms|
    ensures ms[..h] <= outbox[n..]
  {
  }

  /** How many messages of a frame are handled: those handed over, up to the first whose receiver has been dropped. */
  function Handled(s: Schema, v: Variant, t: Table, ms: seq<ChannelMessage>): (k: nat)
    requires AllSendable(s, ms) && ms != []
    ensures k <= HandedOver(s, v, ms)
  {
    Reached(t, ms[..HandedOver(s, v, ms)])
  }

  /** An Open or Close is alone in its frame, and always handled. */
  lemma FrameShape(s: Schema, v: Variant, t: Table, ms: seq<ChannelMessage>)
    requires AllSendable(s, ms) && IsFrame(s, ms)
    ensures NoControl(ms) || (|ms| == 1 && Handled(s, v, t, ms) == 1)
    ensures NoControl(ms[..HandedOver(s, v, ms)]) || |ms| == 1
  {
    hide AllSendable, Garbled, Carried, Deaf;
    if ms[0].message.IsControl() {
      assert ms[..1] == ms;
      assert !Deaf(t, ms[0]) by { ControlIsHeard(t, ms[0]); }
    }
  }

  lemma ControlIsHeard(t: Table, m: ChannelMessage)
    requires m.message.IsControl()
    ensures !Deaf(t, m)
  {
  }

  lemma SamePipe(s: Schema, q: Peer, r: Peer, pipe: Pipe)
    requires r.p.outbox == q.p.outbox
    ensures PipeOk(s, r, pipe) == PipeOk(s, q, pipe) && Had(r, pipe) == Had(q, pipe)
  {
  }

  /** The first messages of a frame are handled and the others lost, and the session is in order after all of them. */
  ghost predicate GoesOn(s: Schema, v: Variant, ss: S.Session, hash: Bytes, ms: seq<ChannelMessage>)
    requires ss.a.p.Good() && AllSendable(s, ms) && ms != []
  {
    var h, k := HandedOver(s, v, ms), Handled(s, v, ss.a.p.table, ms);
    var r := HandleAll(ss.a, ms[..h]);
    && r.problem == StoppedAt(k, h) && HandleAll(ss.a, ms[..k]) == Acted(r.peer, None)
    && Sends(s, r.peer) && r.peer.p.outbox == ss.a.p.outbox
    && S.SessionOk(ss.(a := r.peer, heardByA := ss.heardByA + |ms|), hash)
  }

  lemma HandleAndSkip(s: Schema, v: Variant, ss: S.Session, hash: Bytes, ms: seq<ChannelMessage>)
    requires S.SessionOk(ss, hash) && Sends(s, ss.a) && AllCarried(s, ss.b.p.outbox)
    requires ss.heardByA + |ms| <= |ss.b.p.outbox| && ms == ss.b.p.outbox[ss.heardByA..ss.heardByA + |ms|]
    requires AllSendable(s, ms) && IsFrame(s, ms) && ms != []
    ensures ss.a.p.Good() && GoesOn(s, v, ss, hash, ms)
  {
    hide S.SessionOk, Sends, Sound, HandleAll, IsFrame, HandedOver, AllSendable, AllCarried, Reached;
    var n, h, k := ss.heardByA, HandedOver(s, v, ms), Handled(s, v, ss.a.p.table, ms);
    FrameShape(s, v, ss.a.p.table, ms);
    FirstPart(ss.b.p.outbox, n, ms, h);
    HandleMany(s, ss, hash, ms[..h]);
    assert ms[..h][..k] == ms[..k];
    assert forall i | n <= i < n + |ms| :: ss.b.p.outbox[i] == ms[i - n];
    Skip(ss.(a := HandleAll(ss.a, ms[..h]).peer, heardByA := n + k), hash, |ms| - k);
  }

  lemma HandedFine(s: Schema, v: Variant, f: FrameSession, hash: Bytes)
    requires FrameOk(s, f, hash) && f.a.p.Good() && f.b.p.Good() && f.toA.packets != []
    ensures PacketOk(s, f.toA.packets[0]) && f.toA.packets[0].messages != []
    ensures GoesOn(s, v, Whole(f), hash, f.toA.packets[0].messages)
  {
    hide S.SessionOk, PipeOk, Sends, Sound, Had, IsFrame, AllSendable, AllCarried, GoesOn;
    var ms := f.toA.packets[0].messages;
    PipeShrinks(s, f.b, f.toA);
    FrameNonempty(s, ms);
    SendsParts(s, f.b);
    HandleAndSkip(s, v, Whole(f), hash, ms);
  }

  lemma NextOpenIsLong(s: Schema, f: FrameSession, hash: Bytes)
    requires FrameOk(s, f, hash) && f.toA.packets != [] && f.toA.packets[0].messages != []
    ensures OpenLongEnough(f.toA.packets[0].messages[0].message)
  {
    hide S.SessionOk, PipeOk, Sends, PeerOk, Had, OpenLongEnough;
    FrameGood(s, f, hash);
    PipeShrinks(s, f.b, f.toA);
    OpensAreLong(s, f.b, hash, Had(f.b, f.toA));
  }

  /** What taking in a buffer does: it handles the messages handed over, or fails if the decoder makes nothing of it. */
  lemma TakeOutcome(s: Schema, v: Variant, f: FrameSession, ms: seq<ChannelMessage>)
    requires s.Valid() && f.a.p.Good() && f.b.p.Good() && f.toA.packets != [] && ms == f.toA.packets[0].messages
    requires PacketOk(s, f.toA.packets[0]) && ms != [] && OpenLongEnough(ms[0].message)
    requires 0 !in ViewOf(HandleAll(f.a, ms[..HandedOver(s, v, ms)]).peer.p.table).r
    ensures var r, h := TakeByA(s, v, f), HandleAll(f.a, ms[..HandedOver(s, v, ms)]);
            && r.0 == f.(a := h.peer, toA := f.toA.(packets := f.toA.packets[1..]))
            && (if Legible(s, v, ms) then r.1 == InStep(h.problem) else r.1.Some? && r.1.value.Undecodable?)
  {
    hide Sound, DecodeAll, Wire, HandleAll, IsFrame, Garbled, SingleChannel, AllSendable, ViewOf, OpenLongEnough;
    var zeros := FrameOutcome(s, v, ms);
    var h := HandedOver(s, v, ms);
    if HandleAll(f.a, ms[..h]).problem.None? {
      ZeroIgnored(HandleAll(f.a, ms[..h]).peer, zeros);
      HandleAppend(f.a, ms[..h], zeros);
    } else {
      HandleStops(f.a, ms[..h], zeros);
    }
    HandleNothing(f.a, ms);
  }

  /** How taking in a buffer ends. */
  predicate EndsAsExpected(s: Schema, v: Variant, t: Table, ms: seq<ChannelMessage>, trouble: Option<Trouble>)
    requires AllSendable(s, ms) && ms != []
  {
    if !Legible(s, v, ms) then trouble.Some? && trouble.value.Undecodable?
    else trouble == InStep(StoppedAt(Handled(s, v, t, ms), HandedOver(s, v, ms)))
  }

  /**
   Taking in a buffer keeps the session in order. It fails if and only if the decoder makes nothing of it,
   or a message handed over is for a dropped receiver; the messages before that one are handled.
   */
  lemma TakeKeeps(s: Schema, v: Variant, f: FrameSession, hash: Bytes)
    requires FrameOk(s, f, hash) && f.a.p.Good() && f.b.p.Good() && f.toA.packets != []
    ensures PacketOk(s, f.toA.packets[0]) && f.toA.packets[0].messages != []
    ensures var r, ms := TakeByA(s, v, f), f.toA.packets[0].messages;
            && FrameOk(s, r.0, hash)
            && EndsAsExpected(s, v, f.a.p.table, ms, r.1)
            && HandleAll(f.a, ms[..Handled(s, v, f.a.p.table, ms)]) == Acted(r.0.a, None)
  {
    hide S.SessionOk, PipeOk, Sends, Sound, HandleAll, Had, Legible, HandedOver, Handled, PacketOk, TakeByA, OpenLongEnough;
    var ms := f.toA.packets[0].messages;
    HandedFine(s, v, f, hash);
    PacketParts(s, f.toA.packets[0]);
    NextOpenIsLong(s, f, hash);
    var r := HandleAll(f.a, ms[..HandedOver(s, v, ms)]).peer;
    SendsParts(s, r);
    TakeOutcome(s, v, f, ms);
    PipeShrinks(s, f.b, f.toA);
    SamePipe(s, f.a, r, f.toB);
  }

  lemma PacketParts(s: Schema, p: Packet)
    requires PacketOk(s, p)
    ensures AllSendable(s, p.messages)
  {
  }

  //
  // Runs
  //

  /** The buffer that a move takes in, if any. */
  function Next(f: FrameSession, m: Move): seq<Packet> {
    var packets := if m.byA then f.toA.packets else f.toB.packets;
    if m.Taking? && packets != [] then [packets[0]] else []
  }

  /** A decoder makes something of the buffer that a move takes in. */
  predicate LegibleMove(s: Schema, v: Variant, f: FrameSession, m: Move) {
    Next(f, m) != [] ==>
      var ms := Next(f, m)[0].messages;
      AllSendable(s, ms) && ms != [] && Legible(s, v, ms)
  }

  /** No message handed over by a move is for a dropped receiver. */
  predicate HeardMove(s: Schema, v: Variant, f: FrameSession, m: Move) {
    Next(f, m) != [] ==>
      var ms, t := Next(f, m)[0].messages, (if m.byA then f.a else f.b).p.table;
      AllSendable(s, ms) && ms != [] && forall i | 0 <= i < HandedOver(s, v, ms) :: !Deaf(t, ms[i])
  }

  /** How a move is bound to end: by an undecodable buffer, or by a message for a dropped receiver, or well. */
  predicate Explained(s: Schema, v: Variant, f: FrameSession, m: Move, trouble: Option<Trouble>) {
    if !LegibleMove(s, v, f, m) then trouble.Some? && trouble.value.Undecodable?
    else if !HeardMove(s, v, f, m) then trouble == Some(StepFailed(TableProblem(ReceiverGone)))
    else trouble == None
  }

  lemma TakeExplained(s: Schema, v: Variant, f: FrameSession, m: Move, trouble: Option<Trouble>)
    requires m.Taking? && m.byA && f.toA.packets != []
    requires var ms := f.toA.packets[0].messages;
             AllSendable(s, ms) && ms != [] && EndsAsExpected(s, v, f.a.p.table, ms, trouble)
    ensures Explained(s, v, f, m, trouble)
  {
    hide AllSendable, Legible, Deaf, HandedOver;
    var ms := f.toA.packets[0].messages;
    var h, k := HandedOver(s, v, ms), Handled(s, v, f.a.p.table, ms);
    assert forall i | 0 <= i < h :: ms[..h][i] == ms[i];
    if k < h {
      assert Deaf(f.a.p.table, ms[k]);
    }
  }

  lemma MoveByAKeeps(s: Schema, v: Variant, f: FrameSession, hash: Bytes, m: Move)
    requires FrameOk(s, f, hash) && f.a.p.Good() && f.b.p.Good() && m.byA && Permitted(s, f, m)
    ensures var r := MoveByA(s, v, f, m); FrameOk(s, r.0, hash) && Explained(s, v, f, m, r.1)
  {
    hide FrameOk, Sound, Allowed, Writable, ActByA, SendByA, Legible, EndsAsExpected;
    match m {
      case Acting(_, act) => ActKeeps(s, f, hash, act);
      case Sending(_) => SendKeeps(s, f, hash);
      case Taking(_) =>
        if f.toA.packets != [] {
          TakeKeeps(s, v, f, hash);
          TakeExplained(s, v, f, m, TakeByA(s, v, f).1);
        }
    }
  }

  /** Every permitted move keeps the session in order, and ends as explained. */
  lemma MoveKeeps(s: Schema, v: Variant, f: FrameSession, hash: Bytes, m: Move)
    requires FrameOk(s, f, hash) && f.a.p.Good() && f.b.p.Good() && Permitted(s, f, m)
    ensures var r := MakeMove(s, v, f, m);
            FrameOk(s, r.0, hash) && Explained(s, v, f, m, r.1)
  {
    hide FrameOk, Sound, Allowed, Writable, MoveByA, Legible;
    if m.byA {
      MoveByAKeeps(s, v, f, hash, m);
    } else {
      SwapOk(s, f, hash);
      var n := m.(byA := true);
      MoveByAKeeps(s, v, f.Swap(), hash, n);
      assert MoveByA(s, v, f.Swap(), n) == MoveByA(s, v, f.Swap(), m) by { SameMove(s, v, f.Swap(), m, n); }
      SwapOk(s, MoveByA(s, v, f.Swap(), m).0, hash);
    }
  }

  lemma SameMove(s: Schema, v: Variant, f: FrameSession, m: Move, n: Move)
    requires f.a.p.Good() && f.b.p.Good() && n == m.(byA := true)
    ensures MoveByA(s, v, f, n) == MoveByA(s, v, f, m)
  {
    hide ActByA, SendByA, TakeByA;
  }

  function Play(s: Schema, v: Variant, f: FrameSession, moves: seq<Move>): (r: FrameSession)
    requires f.a.p.Good() && f.b.p.Good()
    ensures r.a.p.Good() && r.b.p.Good()
    decreases |moves|
  {
    if moves == [] then f else MakeMove(s, v, Play(s, v, f, moves[..|moves| - 1]), moves[|moves| - 1]).0
  }

  /** Every move of the list is permitted where it is made. */
  ghost predicate AllPermitted(s: Schema, v: Variant, f: FrameSession, moves: seq<Move>)
    requires f.a.p.Good() && f.b.p.Good()
    decreases |moves|
  {
    moves != [] ==>
      && AllPermitted(s, v, f, moves[..|moves| - 1])
      && Permitted(s, Play(s, v, f, moves[..|moves| - 1]), moves[|moves| - 1])
  }

  /** Every buffer that is taken in is legible. */
  predicate AllLegible(s: Schema, v: Variant, f: FrameSession, moves: seq<Move>)
    requires f.a.p.Good() && f.b.p.Good()
    decreases |moves|
  {
    moves != [] ==>
      && AllLegible(s, v, f, moves[..|moves| - 1])
      && LegibleMove(s, v, Play(s, v, f, moves[..|moves| - 1]), moves[|moves| - 1])
  }

  /** The first failure among the moves, if any. */
  function FirstTrouble(s: Schema, v: Variant, f: FrameSession, moves: seq<Move>): Option<Trouble>
    requires f.a.p.Good() && f.b.p.Good()
    decreases |moves|
  {
    if moves == [] then None
    else
      var earlier := FirstTrouble(s, v, f, moves[..|moves| - 1]);
      if earlier.Some? then earlier else MakeMove(s, v, Play(s, v, f, moves[..|moves| - 1]), moves[|moves| - 1]).1
  }

  /** No message handed over is for a dropped receiver. */
  predicate AllHeard(s: Schema, v: Variant, f: FrameSession, moves: seq<Move>)
    requires f.a.p.Good() && f.b.p.Good()
    decreases |moves|
  {
    moves != [] ==>
      && AllHeard(s, v, f, moves[..|moves| - 1])
      && HeardMove(s, v, Play(s, v, f, moves[..|moves| - 1]), moves[|moves| - 1])
  }

  /** An undecodable buffer and a message for a dropped receiver are the only troubles. */
  predicate OnlyKnown(trouble: Option<Trouble>) {
    trouble.Some? ==> trouble.value.Undecodable? || trouble.value == StepFailed(TableProblem(ReceiverGone))
  }

  /**
   Between well-behaved users, in any order of acts, cut frames and deliveries, with any receivers dropped
   and with either decoder: the session stays in order, nothing fails but the decoding of a buffer and the
   delivery to a dropped receiver, and nothing fails at all if and only if every buffer taken in is legible
   and no message handed over is for a dropped receiver.
   */
  lemma {:induction false} FrameSafety(s: Schema, v: Variant, f: FrameSession, hash: Bytes, moves: seq<Move>)
    requires FrameOk(s, f, hash) && f.a.p.Good() && f.b.p.Good() && AllPermitted(s, v, f, moves)
    ensures FrameOk(s, Play(s, v, f, moves), hash)
    ensures OnlyKnown(FirstTrouble(s, v, f, moves))
    ensures FirstTrouble(s, v, f, moves).None? <==> AllLegible(s, v, f, moves) && AllHeard(s, v, f, moves)
    decreases |moves|
  {
    hide FrameOk, Sound, MakeMove, Permitted, LegibleMove, HeardMove;
    if moves == [] {
    } else {
      var n := |moves| - 1;
      FrameSafety(s, v, f, hash, moves[..n]);
      MoveKeeps(s, v, Play(s, v, f, moves[..n]), hash, moves[n]);
    }
  }

  //
  // Without dropped receivers
  //

  /** No user drops a receiver. */
  predicate NoDrops(moves: seq<Move>) {
    forall i | 0 <= i < |moves| :: !(moves[i].Acting? && moves[i].act.DropAct?)
  }

  predicate BothReceiving(f: FrameSession) { L.AllReceiving(f.a.p.table) && L.AllReceiving(f.b.p.table) }

  lemma {:induction false} HandleKeepsReceiving(q: Peer, ms: seq<ChannelMessage>)
    requires q.p.Good() && L.AllReceiving(q.p.table)
    ensures L.AllReceiving(HandleAll(q, ms).peer.p.table)
    decreases |ms|
  {
    hide Perform, Sound, L.AllReceiving;
    if ms == [] {
    } else {
      S.PerformKeepsReceiving(q, ReceiveAct(ms[0]));
      HandleKeepsReceiving(Perform(q, ReceiveAct(ms[0])).peer, ms[1..]);
    }
  }

  lemma MoveKeepsReceiving(s: Schema, v: Variant, f: FrameSession, m: Move)
    requires f.a.p.Good() && f.b.p.Good() && BothReceiving(f) && Permitted(s, f, m) && !(m.Acting? && m.act.DropAct?)
    ensures BothReceiving(MakeMove(s, v, f, m).0)
  {
    hide Perform, Sound, L.AllReceiving, HandleAll, DecodeAll, Writable;
    var q, pipe := if m.byA then f.a else f.b, if m.byA then f.toA else f.toB;
    if m.Acting? {
      S.PerformKeepsReceiving(q, m.act);
    } else if m.Taking? && pipe.packets != [] {
      var d := DecodeAll(s, v, pipe.packets[0].bytes);
      if d.Success? {
        HandleKeepsReceiving(q, d.value);
      }
    }
  }

  lemma {:induction false} NoDropsAllHeard(s: Schema, v: Variant, f: FrameSession, hash: Bytes, moves: seq<Move>)
    requires FrameOk(s, f, hash) && f.a.p.Good() && f.b.p.Good() && AllPermitted(s, v, f, moves)
    requires BothReceiving(f) && NoDrops(moves)
    ensures AllHeard(s, v, f, moves) && BothReceiving(Play(s, v, f, moves))
    decreases |moves|
  {
    hide FrameOk, Sound, MakeMove, Permitted, HeardMove, BothReceiving;
    if moves == [] {
    } else {
      var n := |moves| - 1;
      var g := Play(s, v, f, moves[..n]);
      NoDropsAllHeard(s, v, f, hash, moves[..n]);
      FrameSafety(s, v, f, hash, moves[..n]);
      MoveKeepsReceiving(s, v, g, moves[n]);
      SwapOk(s, g, hash);
      NobodyDeaf(s, v, g, hash, moves[n]);
    }
  }

  lemma NobodyDeaf(s: Schema, v: Variant, f: FrameSession, hash: Bytes, m: Move)
    requires FrameOk(s, f, hash) && BothReceiving(f)
    ensures HeardMove(s, v, f, m)
  {
    hide S.SessionOk, Sends, InFlight, Had, IsFrame, AllSendable, HandedOver;
    var packets := if m.byA then f.toA.packets else f.toB.packets;
    if packets != [] {
      assert PacketOk(s, packets[0]);
      FrameNonempty(s, packets[0].messages);
    }
  }

  //
  // Without misread frames
  //

  /** The buffer taken in is decoded to exactly the messages it was made from. */
  predicate FaithfulMove(s: Schema, v: Variant, f: FrameSession, m: Move) {
    Next(f, m) != [] ==> DecodeAll(s, v, Next(f, m)[0].bytes) == Success(Next(f, m)[0].messages)
  }

  predicate ReadableMove(f: FrameSession, m: Move) { Readable(Lists(Next(f, m))) }

  predicate AllFaithful(s: Schema, v: Variant, f: FrameSession, moves: seq<Move>)
    requires f.a.p.Good() && f.b.p.Good()
    decreases |moves|
  {
    moves != [] ==>
      && AllFaithful(s, v, f, moves[..|moves| - 1])
      && FaithfulMove(s, v, Play(s, v, f, moves[..|moves| - 1]), moves[|moves| - 1])
  }

  predicate AllReadable(s: Schema, v: Variant, f: FrameSession, moves: seq<Move>)
    requires f.a.p.Good() && f.b.p.Good()
    decreases |moves|
  {
    moves != [] ==>
      && AllReadable(s, v, f, moves[..|moves| - 1])
      && ReadableMove(Play(s, v, f, moves[..|moves| - 1]), moves[|moves| - 1])
  }

  lemma FaithfulExactly(s: Schema, f: FrameSession, hash: Bytes, m: Move)
    requires FrameOk(s, f, hash)
    ensures FaithfulMove(s, AsWritten, f, m) <==> ReadableMove(f, m)
    ensures ReadableMove(f, m) ==> LegibleMove(s, AsWritten, f, m)
  {
    hide S.SessionOk, Sends, InFlight, Had, IsFrame, AllSendable, DecodeAll, Wire, SingleChannel, OpenLongEnough, Garbled;
    var packets := if m.byA then f.toA.packets else f.toB.packets;
    if Next(f, m) != [] {
      var ms := packets[0].messages;
      assert PacketOk(s, packets[0]);
      FrameNonempty(s, ms);
      FrameRoundTripExactly(s, ms);
      assert Lists([packets[0]]) == [ms];
      assert [ms][0] == ms;
    }
  }

  /**
   With the source's decoder, over any session: every buffer taken in yields exactly the messages it was
   made from if and only if every frame taken in is readable, and then nothing fails but the delivery to
   dropped receivers.
   */
  lemma {:induction false} LosslessExactly(s: Schema, f: FrameSession, hash: Bytes, moves: seq<Move>)
    requires FrameOk(s, f, hash) && f.a.p.Good() && f.b.p.Good() && AllPermitted(s, AsWritten, f, moves)
    ensures AllFaithful(s, AsWritten, f, moves) <==> AllReadable(s, AsWritten, f, moves)
    ensures AllReadable(s, AsWritten, f, moves) ==>
              (FirstTrouble(s, AsWritten, f, moves).None? <==> AllHeard(s, AsWritten, f, moves))
    decreases |moves|
  {
    hide FrameOk, Sound, MakeMove, Permitted, LegibleMove, FaithfulMove, ReadableMove, HeardMove;
    FrameSafety(s, AsWritten, f, hash, moves);
    if moves == [] {
    } else {
      var n := |moves| - 1;
      LosslessExactly(s, f, hash, moves[..n]);
      FrameSafety(s, AsWritten, f, hash, moves[..n]);
      FaithfulExactly(s, Play(s, AsWritten, f, moves[..n]), hash, moves[n]);
    }
  }

  /** A fresh connection after its handshakes. */
  function Connect(crypto: Crypto, hash: Bytes, keyOfA: Key, keyOfB: Key): (f: FrameSession)
    ensures f.a.p.Good() && f.b.p.Good()
  {
    var s := S.Connect(crypto, hash, keyOfA, keyOfB);
    FrameSession(s.a, s.b, Pipe([], []), Pipe([], []))
  }

  lemma ConnectOk(s: Schema, crypto: Crypto, hash: Bytes, keyOfA: Key, keyOfB: Key)
    requires s.Valid() && s.utf8(PROTOCOL_NAME) && crypto.Injective()
    ensures FrameOk(s, Connect(crypto, hash, keyOfA, keyOfB), hash)
  {
    S.ConnectOk(crypto, hash, keyOfA, keyOfB);
    hide S.SessionOk;
    assert InFlight(Pipe([], [])) == [];
  }

  /**
   With the decoder that skips separators nothing fails if and only if no message is handed over to a
   dropped receiver; so nothing ever fails while no user drops one.
   */
  lemma SkippingFailsExactly(s: Schema, crypto: Crypto, hash: Bytes, keyOfA: Key, keyOfB: Key, moves: seq<Move>)
    requires s.Valid() && s.utf8(PROTOCOL_NAME) && crypto.Injective()
    requires AllPermitted(s, SeparatorSkipped, Connect(crypto, hash, keyOfA, keyOfB), moves)
    ensures var f := Connect(crypto, hash, keyOfA, keyOfB);
            && (FirstTrouble(s, SeparatorSkipped, f, moves).None? <==> AllHeard(s, SeparatorSkipped, f, moves))
            && (NoDrops(moves) ==> FirstTrouble(s, SeparatorSkipped, f, moves).None?)
  {
    hide FrameOk, Sound, AllPermitted, AllHeard, AllLegible, FirstTrouble;
    var f := Connect(crypto, hash, keyOfA, keyOfB);
    ConnectOk(s, crypto, hash, keyOfA, keyOfB);
    FrameSafety(s, SeparatorSkipped, f, hash, moves);
    SkippingAllLegible(s, f, hash, moves);
    if NoDrops(moves) {
      NoDropsAllHeard(s, SeparatorSkipped, f, hash, moves);
    }
  }

  lemma {:induction false} SkippingAllLegible(s: Schema, f: FrameSession, hash: Bytes, moves: seq<Move>)
    requires FrameOk(s, f, hash) && f.a.p.Good() && f.b.p.Good() && AllPermitted(s, SeparatorSkipped, f, moves)
    ensures AllLegible(s, SeparatorSkipped, f, moves)
    decreases |moves|
  {
    hide FrameOk, Sound, MakeMove, Permitted, LegibleMove;
    if moves == [] {
    } else {
      var n := |moves| - 1;
      SkippingAllLegible(s, f, hash, moves[..n]);
      FrameSafety(s, SeparatorSkipped, f, hash, moves[..n]);
      SkippingLegible(s, Play(s, SeparatorSkipped, f, moves[..n]), hash, moves[n]);
    }
  }

  lemma SkippingLegible(s: Schema, f: FrameSession, hash: Bytes, m: Move)
    requires FrameOk(s, f, hash)
    ensures LegibleMove(s, SeparatorSkipped, f, m)
  {
    hide S.SessionOk, Sends, InFlight, Had, IsFrame, AllSendable;
    var packets := if m.byA then f.toA.packets else f.toB.packets;
    if packets != [] {
      assert PacketOk(s, packets[0]);
      FrameNonempty(s, packets[0].messages);
    }
  }

  /**
   After any session on a fresh connection, with either decoder: when no frame and no message is on its
   way the two channel tables agree in both directions. Illegible frames and dropped receivers do not
   change that, because every Open and Close travels in a frame of its own and is always handled.
   */
  lemma TablesAgree(s: Schema, v: Variant, crypto: Crypto, hash: Bytes, keyOfA: Key, keyOfB: Key, moves: seq<Move>)
    requires s.Valid() && s.utf8(PROTOCOL_NAME) && crypto.Injective()
    requires AllPermitted(s, v, Connect(crypto, hash, keyOfA, keyOfB), moves)
    ensures var f := Play(s, v, Connect(crypto, hash, keyOfA, keyOfB), moves);
            f.toB == Pipe([], []) && f.toA == Pipe([], []) ==>
              S.SameIds(f.a.p.table, f.b.p.table) && S.SameIds(f.b.p.table, f.a.p.table)
  {
    hide AllPermitted, Play, Connect, FrameOk, S.SameIds, Sound;
    ConnectOk(s, crypto, hash, keyOfA, keyOfB);
    FrameSafety(s, v, Connect(crypto, hash, keyOfA, keyOfB), hash, moves);
    var f := Play(s, v, Connect(crypto, hash, keyOfA, keyOfB), moves);
    if f.toB == Pipe([], []) && f.toA == Pipe([], []) {
      NothingInFlight(s, f, hash);
      S.IdleTablesAgree(Whole(f), hash);
    }
  }

  lemma NothingInFlight(s: Schema, f: FrameSession, hash: Bytes)
    requires FrameOk(s, f, hash) && f.toB == Pipe([], []) && f.toA == Pipe([], [])
    ensures S.SessionOk(Whole(f), hash)
    ensures var ss := Whole(f); ss.heardByB == |ss.a.p.outbox| && ss.heardByA == |ss.b.p.outbox|
  {
    hide S.SessionOk, Sends;
  }

  //
  // Isolation
  //

  /** A message on this remote id goes to this inbox. */
  predicate LeadsTo(t: Table, id: nat, x: nat) {
    GetRemote(t, id).Some? && GetRemote(t, id).value.inbox == Some(x)
  }

  /** The messages of a list that go to an inbox. */
  function Bound(t: Table, x: nat, ms: seq<ChannelMessage>): seq<Message> {
    if ms == [] then []
    else (if LeadsTo(t, ms[0].channel, x) then [ms[0].message] else []) + Bound(t, x, ms[1..])
  }

  /** Nothing changed but the inboxes, and each got exactly the messages of the list that go to it, in order. */
  predicate Demultiplexed(t: Table, r: Table, ms: seq<ChannelMessage>) {
    && r == t.(inboxes := r.inboxes) && |r.inboxes| == |t.inboxes|
    && forall x | 0 <= x < |t.inboxes| ::
         r.inboxes[x] == t.inboxes[x].(messages := t.inboxes[x].messages + Bound(t, x, ms))
  }

  /** Every message that goes to an inbox was sent on a channel of the key of that inbox. */
  predicate OwnKeys(t: Table, ms: seq<ChannelMessage>, tags: seq<Key>) {
    && |tags| == |ms|
    && forall i, x | 0 <= i < |ms| && 0 <= x < |t.inboxes| && LeadsTo(t, ms[i].channel, x) :: tags[i] == t.inboxes[x].owner
  }

  /** Ordinary messages only add to inboxes, each to the one its remote id leads to, in order. */
  lemma {:induction false} HandleOrdinary(q: Peer, ms: seq<ChannelMessage>)
    requires q.p.Good() && NoControl(ms) && HandleAll(q, ms).problem.None?
    ensures Demultiplexed(q.p.table, HandleAll(q, ms).peer.p.table, ms)
    decreases |ms|
  {
    hide Perform, Sound, LeadsTo;
    var t := q.p.table;
    if ms == [] {
      assert forall x | 0 <= x < |t.inboxes| :: t.inboxes[x].messages + [] == t.inboxes[x].messages;
    } else {
      var next := Perform(q, ReceiveAct(ms[0])).peer;
      var u := next.p.table;
      HandleOneOrdinary(q, ms[0]);
      HandleOrdinary(next, ms[1..]);
      forall x | 0 <= x < |t.inboxes|
        ensures HandleAll(next, ms[1..]).peer.p.table.inboxes[x]
             == t.inboxes[x].(messages := t.inboxes[x].messages + Bound(t, x, ms))
      {
        SameBound(t, u, x, ms[1..]);
        assert u.inboxes[x].messages + Bound(t, x, ms[1..]) == t.inboxes[x].messages + Bound(t, x, ms);
      }
    }
  }

  lemma HandleOneOrdinary(q: Peer, m: ChannelMessage)
    requires q.p.Good() && !m.message.IsControl() && Perform(q, ReceiveAct(m)).problem.None?
    ensures var t, u := q.p.table, Perform(q, ReceiveAct(m)).peer.p.table;
            && u == t.(inboxes := u.inboxes) && |u.inboxes| == |t.inboxes|
            && forall x | 0 <= x < |t.inboxes| ::
                 u.inboxes[x] == t.inboxes[x].(messages :=
                   t.inboxes[x].messages + if LeadsTo(t, m.channel, x) then [m.message] else [])
  {
    hide Sound;
    var t := q.p.table;
    ForwardEffect(t, m.channel, m.message);
    assert forall x | 0 <= x < |t.inboxes| :: t.inboxes[x].messages + [] == t.inboxes[x].messages;
  }

  lemma {:induction false} SameBound(t: Table, u: Table, x: nat, ms: seq<ChannelMessage>)
    requires u == t.(inboxes := u.inboxes)
    ensures Bound(u, x, ms) == Bound(t, x, ms)
    decreases |ms|
  {
    if ms == [] {
    } else {
      SameBound(t, u, x, ms[1..]);
    }
  }

  /** A message in flight leads to an inbox of the key of the channel it was sent on, or to none. */
  lemma OwnKeyOnly(ss: S.Session, hash: Bytes, x: nat)
    requires S.SessionOk(ss, hash) && ss.heardByA < |ss.b.p.outbox|
    requires !ss.b.p.outbox[ss.heardByA].message.IsControl()
    requires LeadsTo(ss.a.p.table, ss.b.p.outbox[ss.heardByA].channel, x)
    ensures x < |ss.a.p.table.inboxes| && ss.heardByA < |ss.b.tags|
    ensures ss.a.p.table.inboxes[x].owner == ss.b.tags[ss.heardByA]
  {
    hide S.SessionOk, HandlesOk, ChannelsOk, PendingOk, OutboxOk, Sound, Exact, ViewOf;
    NextFits(ss, hash);
    var t, id := ss.a.p.table, ss.b.p.outbox[ss.heardByA].channel;
    RemoteInView(t, id);
    ChannelTheorems.OwnKey(t, id);
    OwnInbox(t, GetRemote(t, id).value.discoveryKey);
  }

  /**
   If the next buffer of `a` holds ordinary messages, taking it in changes no inbox but by messages of that
   buffer, as they were sent and in order, up to the first for a dropped receiver, and only by messages
   that `b` sent on a channel of the key of that inbox.
   */
  predicate TakesOnlyOwn(s: Schema, v: Variant, f: FrameSession)
    requires f.a.p.Good() && f.b.p.Good()
  {
    f.toA.packets != [] && NoControl(f.toA.packets[0].messages) ==>
      var ms, n := f.toA.packets[0].messages, Had(f.b, f.toA);
      && AllSendable(s, ms) && ms != [] && n + |ms| <= |f.b.tags|
      && Demultiplexed(f.a.p.table, TakeByA(s, v, f).0.a.p.table, ms[..Handled(s, v, f.a.p.table, ms)])
      && OwnKeys(f.a.p.table, ms, f.b.tags[n..n + |ms|])
  }

  /** At any time of any session, with either decoder, both sides take in only what is theirs; a misread frame adds nothing else. */
  lemma Isolation(s: Schema, v: Variant, crypto: Crypto, hash: Bytes, keyOfA: Key, keyOfB: Key, moves: seq<Move>)
    requires s.Valid() && s.utf8(PROTOCOL_NAME) && crypto.Injective()
    requires AllPermitted(s, v, Connect(crypto, hash, keyOfA, keyOfB), moves)
    ensures var f := Play(s, v, Connect(crypto, hash, keyOfA, keyOfB), moves);
            TakesOnlyOwn(s, v, f) && TakesOnlyOwn(s, v, f.Swap())
  {
    hide AllPermitted, Play, Connect, FrameOk, Sound, TakesOnlyOwn;
    ConnectOk(s, crypto, hash, keyOfA, keyOfB);
    FrameSafety(s, v, Connect(crypto, hash, keyOfA, keyOfB), hash, moves);
    var f := Play(s, v, Connect(crypto, hash, keyOfA, keyOfB), moves);
    SwapOk(s, f, hash);
    IsolatedTake(s, v, f, hash);
    IsolatedTake(s, v, f.Swap(), hash);
  }

  lemma IsolatedTake(s: Schema, v: Variant, f: FrameSession, hash: Bytes)
    requires FrameOk(s, f, hash) && f.a.p.Good() && f.b.p.Good()
    ensures TakesOnlyOwn(s, v, f)
  {
    hide FrameOk, Sound, TakeByA, Demultiplexed, OwnKeys, Handled, AllSendable, Had, NoControl;
    if f.toA.packets != [] && NoControl(f.toA.packets[0].messages) {
      DemultiplexedTake(s, v, f, hash);
      OwnKeysTake(s, f, hash);
    }
  }

  /** The oldest buffer holds the messages that come next, each with its tag. */
  lemma NextInPipe(s: Schema, f: FrameSession, hash: Bytes)
    requires FrameOk(s, f, hash) && f.toA.packets != []
    ensures var n, ms := Had(f.b, f.toA), f.toA.packets[0].messages;
            && S.SessionOk(Whole(f), hash)
            && n + |ms| <= |f.b.p.outbox| == |f.b.tags|
            && forall i | 0 <= i < |ms| :: f.b.p.outbox[n + i] == ms[i]
  {
    hide PipeOk, Sends, Agree, HandlesOk, ChannelsOk, PendingOk, OutboxOk, Sound, Exact, ViewOf, Had;
    PipeShrinks(s, f.b, f.toA);
    S.SessionGood(Whole(f), hash);
  }

  lemma DemultiplexedTake(s: Schema, v: Variant, f: FrameSession, hash: Bytes)
    requires FrameOk(s, f, hash) && f.a.p.Good() && f.b.p.Good()
    requires f.toA.packets != [] && NoControl(f.toA.packets[0].messages)
    ensures var ms := f.toA.packets[0].messages;
            && AllSendable(s, ms) && ms != []
            && Demultiplexed(f.a.p.table, TakeByA(s, v, f).0.a.p.table, ms[..Handled(s, v, f.a.p.table, ms)])
  {
    hide FrameOk, Sound, TakeByA, HandleAll, Handled, AllSendable, Demultiplexed, IsFrame, Legible, EndsAsExpected;
    var ms := f.toA.packets[0].messages;
    TakeKeeps(s, v, f, hash);
    HandleOrdinary(f.a, ms[..Handled(s, v, f.a.p.table, ms)]);
  }

  lemma OwnKeysTake(s: Schema, f: FrameSession, hash: Bytes)
    requires FrameOk(s, f, hash) && f.toA.packets != [] && NoControl(f.toA.packets[0].messages)
    ensures var ms, n := f.toA.packets[0].messages, Had(f.b, f.toA);
            n + |ms| <= |f.b.tags| && OwnKeys(f.a.p.table, ms, f.b.tags[n..n + |ms|])
  {
    hide FrameOk, Sound, LeadsTo, Had, S.SessionOk;
    NextInPipe(s, f, hash);
    var t, ms, n := f.a.p.table, f.toA.packets[0].messages, Had(f.b, f.toA);
    forall i, x | 0 <= i < |ms| && 0 <= x < |t.inboxes| && LeadsTo(t, ms[i].channel, x)
      ensures f.b.tags[n..n + |ms|][i] == t.inboxes[x].owner
    {
      assert forall k | n <= k < n + i :: f.b.p.outbox[k] == ms[k - n];
      Skip(Whole(f), hash, i);
      OwnKeyOnly(Whole(f).(heardByA := n + i), hash, x);
    }
  }
}
