/** A session over two channels, frame by frame, in which the source's decoder fails or misreads. */
module FrameExamples {
  import opened Wrappers
  import opened Compact
  import opened Handshake
  import opened Messages
  import opened Framing
  import opened FrameTheorems
  import opened MessageQueue
  import opened Channels
  import opened ProtocolModel
  import opened ChannelTheorems
  import opened Peers
  import opened FrameSessions
  import X = SessionExamples
  import P = Polls

  //
  // Scripts
  //

  /** A permitted move that does not fail, and what it leads to. */
  ghost predicate Goes(s: Schema, v: Variant, before: FrameSession, m: Move, after: FrameSession) {
    && before.a.p.Good() && before.b.p.Good()
    && Permitted(s, before, m) && MakeMove(s, v, before, m) == (after, None)
  }

  /** Permitted moves, none of which fails, and what they lead to. */
  ghost predicate Leads(s: Schema, v: Variant, before: FrameSession, moves: seq<Move>, after: FrameSession) {
    && before.a.p.Good() && before.b.p.Good()
    && AllPermitted(s, v, before, moves) && FirstTrouble(s, v, before, moves).None?
    && Play(s, v, before, moves) == after
  }

  lemma LeadsNowhere(s: Schema, v: Variant, f: FrameSession)
    requires f.a.p.Good() && f.b.p.Good()
    ensures Leads(s, v, f, [], f)
  {
  }

  lemma LeadsOn(s: Schema, v: Variant, f: FrameSession, moves: seq<Move>, g: FrameSession, m: Move, h: FrameSession)
    requires Leads(s, v, f, moves, g) && Goes(s, v, g, m, h)
    ensures Leads(s, v, f, moves + [m], h)
  {
    hide Permitted, MakeMove, Sound;
    assert (moves + [m])[..|moves + [m]| - 1] == moves;
  }

  lemma SwapGoes(s: Schema, v: Variant, f: FrameSession, m: Move, g: FrameSession)
    requires Goes(s, v, f, m, g)
    ensures Goes(s, v, f.Swap(), m.(byA := !m.byA), g.Swap())
  {
    hide Sound, Allowed, Writable, ActByA, SendByA, TakeByA;
    assert f.Swap().Swap() == f && g.Swap().Swap() == g;
  }

  const NOTHING := Pipe([], [])

  lemma ActGoes(s: Schema, v: Variant, f: FrameSession, act: Act, q: Peer, more: seq<ChannelMessage>)
    requires f.a.p.Good() && f.b.p.Good() && !act.ReceiveAct? && Allowed(f.a, act) && Writable(s, f.a, act)
    requires Perform(f.a, act) == Acted(q, None) && q.p.outbox == f.a.p.outbox + more
    ensures Goes(s, v, f, Acting(true, act), f.(a := q, toB := f.toB.(queue := f.toB.queue + more)))
  {
    hide Sound, Allowed, Writable, Perform;
    assert Since(f.a.p.outbox, q.p.outbox) == more;
  }

  lemma SendGoes(s: Schema, v: Variant, f: FrameSession, ms: seq<ChannelMessage>)
    requires f.a.p.Good() && f.b.p.Good() && f.toB == Pipe([], ms) && AllSendable(s, ms) && ms != [] && FrameLength(ms) == |ms|
    ensures Goes(s, v, f, Sending(true), f.(toB := Pipe([Packet(ms, Wire(s, ms))], [])))
  {
    hide Sound, FrameLength, Wire, AllSendable;
    assert ms[..|ms|] == ms && ms[|ms|..] == [];
    assert [] + [Packet(ms, Wire(s, ms))] == [Packet(ms, Wire(s, ms))];
  }

  lemma TakeGoes(s: Schema, v: Variant, f: FrameSession, m: ChannelMessage, q: Peer)
    requires f.a.p.Good() && f.b.p.Good() && s.Valid() && Carried(s, m) && OpenLongEnough(m.message)
    requires AllSendable(s, [m]) && f.toA == Pipe([Packet([m], Wire(s, [m]))], [])
    requires Perform(f.a, ReceiveAct(m)) == Acted(q, None)
    ensures Goes(s, v, f, Taking(true), f.(a := q, toA := NOTHING))
  {
    hide Sound, Perform, Wire, DecodeAll, Carried, OpenLongEnough, AllSendable;
    LoneFrame(s, v, m);
    assert [m][1..] == [];
    assert HandleAll(f.a, [m]) == Acted(q, None) by { assert HandleAll(q, []) == Acted(q, None); }
    assert [Packet([m], Wire(s, [m]))][1..] == [];
  }

  //
  // Both sides open a key
  //

  function OpenMoves(k: Key): seq<Move> {
    [Acting(true, OpenAct(k)), Acting(false, OpenAct(k)), Sending(true), Sending(false), Taking(true), Taking(false)]
  }

  /** One side of it: the states before, between and after, and the Opens sent and received. */
  ghost predicate Opens(s: Schema, k: Key, q: Peer, q1: Peer, q2: Peer, m: ChannelMessage, theirs: ChannelMessage) {
    && q.p.Good() && q1.p.Good() && q2.p.Good()
    && Allowed(q, OpenAct(k)) && Writable(s, q, OpenAct(k)) && Perform(q, OpenAct(k)) == Acted(q1, None)
    && q1.p.outbox == q.p.outbox + [m] && m.message.Open? && m.message.open.capability.Some?
    && Carried(s, m) && AllSendable(s, [m])
    && Perform(q1, ReceiveAct(theirs)) == Acted(q2, None)
  }

  lemma BothOpen(s: Schema, v: Variant, f: FrameSession, moves: seq<Move>, k: Key, a: Peer, b: Peer,
                 a1: Peer, a2: Peer, b1: Peer, b2: Peer, ma: ChannelMessage, mb: ChannelMessage)
    requires s.Valid() && Leads(s, v, f, moves, FrameSession(a, b, NOTHING, NOTHING))
    requires Opens(s, k, a, a1, a2, ma, mb) && Opens(s, k, b, b1, b2, mb, ma)
    ensures Leads(s, v, f, moves + OpenMoves(k), FrameSession(a2, b2, NOTHING, NOTHING))
  {
    hide Leads, Goes, Sound, Allowed, Writable, Perform, Wire, Carried, AllSendable, OpenLongEnough, FrameLength;
    CapabilityIsLong(ma);
    CapabilityIsLong(mb);
    AloneInFrame(ma);
    AloneInFrame(mb);
    assert [] + [ma] == [ma] && [] + [mb] == [mb];
    var pa, pb := Pipe([Packet([ma], Wire(s, [ma]))], []), Pipe([Packet([mb], Wire(s, [mb]))], []);
    var qa, qb := Pipe([], [ma]), Pipe([], [mb]);
    var f0 := FrameSession(a, b, NOTHING, NOTHING);
    var f1 := FrameSession(a1, b, qa, NOTHING);
    var f2 := FrameSession(a1, b1, qa, qb);
    var f3 := FrameSession(a1, b1, pa, qb);
    var f4 := FrameSession(a1, b1, pa, pb);
    var f5 := FrameSession(a2, b1, pa, NOTHING);
    var f6 := FrameSession(a2, b2, NOTHING, NOTHING);
    ActGoes(s, v, f0, OpenAct(k), a1, [ma]);
    ActGoes(s, v, f1.Swap(), OpenAct(k), b1, [mb]);
    SwapGoes(s, v, f1.Swap(), Acting(true, OpenAct(k)), f2.Swap());
    SendGoes(s, v, f2, [ma]);
    SendGoes(s, v, f3.Swap(), [mb]);
    SwapGoes(s, v, f3.Swap(), Sending(true), f4.Swap());
    TakeGoes(s, v, f4, mb, a2);
    TakeGoes(s, v, f5.Swap(), ma, b2);
    SwapGoes(s, v, f5.Swap(), Taking(true), f6.Swap());
    Script(s, v, f, moves, OpenMoves(k), [f0, f1, f2, f3, f4, f5, f6]);
  }

  lemma AloneInFrame(m: ChannelMessage)
    requires m.message.IsControl()
    ensures FrameLength([m]) == 1
  {
  }

  lemma {:induction false} Script(s: Schema, v: Variant, f: FrameSession, moves: seq<Move>, more: seq<Move>, states: seq<FrameSession>)
    requires |states| == |more| + 1 && Leads(s, v, f, moves, states[0])
    requires forall i | 0 <= i < |more| :: Goes(s, v, states[i], more[i], states[i + 1])
    ensures Leads(s, v, f, moves + more, states[|more|])
    decreases |more|
  {
    hide Leads, Goes;
    if more == [] {
      assert moves + more == moves;
    } else {
      var n := |more| - 1;
      Script(s, v, f, moves, more[..n], states[..n + 1]);
      LeadsOn(s, v, f, moves + more[..n], states[n], more[n], states[n + 1]);
      assert (moves + more[..n]) + [more[n]] == moves + more;
    }
  }

  //
  // A second key beside the first
  //

  function SecondChannel(e: Key, l: Key): Channel { Channel(l, e, 2, 1, 1) }

  function FirstHandle(d: Key, k: Key, proof: Option<Bytes>): Handle {
    Handle(d, Some(LocalState(k, 1)), Some(RemoteState(1, proof)), Some(0), 0)
  }

  function TwoLocal(d: Key, k: Key, proof: Option<Bytes>, e: Key, l: Key): Table {
    Table(map[d := FirstHandle(d, k, proof), e := Handle(e, Some(LocalState(l, 2)), None, None, 1)],
          [None, Some(d), Some(e)], [None, Some(d)], [Cell(d, false), Cell(e, false)], [Inbox(d, [], true)])
  }

  function TwoConnected(d: Key, k: Key, proof: Option<Bytes>, e: Key, l: Key, other: Option<Bytes>): Table {
    Table(map[d := FirstHandle(d, k, proof), e := Handle(e, Some(LocalState(l, 2)), Some(RemoteState(2, other)), Some(1), 1)],
          [None, Some(d), Some(e)], [None, Some(d), Some(e)],
          [Cell(d, false), Cell(e, false)], [Inbox(d, [], true), Inbox(e, [], true)])
  }

  lemma AttachSecond(d: Key, k: Key, proof: Option<Bytes>, e: Key, l: Key)
    requires d != e && Sound(X.OneConnected(d, k, proof))
    ensures NextLocalId(X.OneConnected(d, k, proof)) == 2
    ensures AttachLocal(X.OneConnected(d, k, proof), e, l) == TwoLocal(d, k, proof, e, l)
  {
    var t := X.OneConnected(d, k, proof);
    assert NextLocalId(t) == 2;
    assert Assign(t.localIds, 2, e) == [None, Some(d), Some(e)];
    assert AttachLocal(t, e, l).cells == [Cell(d, false), Cell(e, false)];
  }

  lemma ConnectSecond(d: Key, k: Key, proof: Option<Bytes>, e: Key, l: Key, other: Option<Bytes>)
    requires d != e && Sound(TwoLocal(d, k, proof, e, l))
    ensures var t := AttachRemote(TwoLocal(d, k, proof, e, l), e, 2, other);
            && e in t.channels
            && t.channels[e] == Handle(e, Some(LocalState(l, 2)), Some(RemoteState(2, other)), None, 1)
            && OpenInbox(t, e) == (TwoConnected(d, k, proof, e, l, other), SecondChannel(e, l))
  {
    assert Assign([None, Some(d)], 2, e) == [None, Some(d), Some(e)];
    var t := AttachRemote(TwoLocal(d, k, proof, e, l), e, 2, other);
    var u, r := OpenInbox(t, e).0, TwoConnected(d, k, proof, e, l, other);
    assert u.inboxes == r.inboxes && u.channels == r.channels && u.remoteIds == r.remoteIds;
  }

  lemma OpenSecond(q: Peer, k: Key, proof: Option<Bytes>, l: Key)
    requires q.p.crypto.discovery(k) != q.p.crypto.discovery(l)
    requires q.p.Good() && q.p.table == X.OneConnected(q.p.crypto.discovery(k), k, proof)
    ensures var d, e := q.p.crypto.discovery(k), q.p.crypto.discovery(l);
            Perform(q, OpenAct(l)) == Acted(
              q.(p := q.p.(table := TwoLocal(d, k, proof, e, l), outbox := q.p.outbox + [OpenMessage(q.p, 2, e, l)]),
                 tags := q.tags + [e]),
              None)
  {
    var d, e := q.p.crypto.discovery(k), q.p.crypto.discovery(l);
    hide Sound, AttachLocal, NextLocalId, CommandOpen, OpenMessage, OpenInbox;
    AttachSecond(d, k, proof, e, l);
    CommandOpenOutcome(q.p, l);
    assert q.p.events + [] == q.p.events;
  }

  lemma HearSecond(q: Peer, hash: Bytes, d: Key, k: Key, proof: Option<Bytes>, l: Key)
    requires d != q.p.crypto.discovery(l) && q.p.Good()
    requires q.p.table == TwoLocal(d, k, proof, q.p.crypto.discovery(l), l) && q.p.hash == Some(hash) && q.p.remoteKey.Some?
    ensures var e, other := q.p.crypto.discovery(l), X.Proof(q.p, hash, l);
            Perform(q, ReceiveAct(X.PeerOpen(q.p, hash, 2, l))) == Acted(
              q.(p := q.p.(table := TwoConnected(d, k, proof, e, l, other),
                           events := q.p.events + [Established(SecondChannel(e, l))])),
              None)
  {
    var e := q.p.crypto.discovery(l);
    hide Sound, AttachRemote, OpenInbox, OnOpen;
    ConnectSecond(d, k, proof, e, l, X.Proof(q.p, hash, l));
    OnOpenOutcome(q.p, X.PeerOpen(q.p, hash, 2, l));
  }

  //
  // The session
  //

  function Opened2(q: Peer, hash: Bytes, k: Key, l: Key): Peer {
    var d, e, r := q.p.crypto.discovery(k), q.p.crypto.discovery(l), X.Connected1(q, hash, k);
    r.(p := r.p.(table := TwoLocal(d, k, X.Proof(q.p, hash, k), e, l),
                 outbox := [OpenMessage(q.p, 1, d, k), OpenMessage(q.p, 2, e, l)]),
       tags := [d, e])
  }

  function Connected2(q: Peer, hash: Bytes, k: Key, l: Key): Peer {
    var d, e, r := q.p.crypto.discovery(k), q.p.crypto.discovery(l), Opened2(q, hash, k, l);
    r.(p := r.p.(table := TwoConnected(d, k, X.Proof(q.p, hash, k), e, l, X.Proof(q.p, hash, l)),
                 events := [Established(X.FirstChannel(d, k)), Established(SecondChannel(e, l))]))
  }

  lemma OpenIsFine(s: Schema, q: Peer, hash: Bytes, id: nat, k: Key)
    requires s.Valid() && s.utf8(PROTOCOL_NAME) && 1 <= id < U64_LIMIT && q.p.hash == Some(hash) && q.p.remoteKey.Some?
    ensures var m := OpenMessage(q.p, id, q.p.crypto.discovery(k), k);
            m.message.Open? && m.message.open.capability.Some? && Carried(s, m) && AllSendable(s, [m])
  {
    P.OpenIsCarried(s, q.p, id, k);
  }

  lemma FirstRound(s: Schema, q: Peer, p: Peer, hash: Bytes, remoteKey: Key, k: Key)
    requires s.Valid() && s.utf8(PROTOCOL_NAME) && q == X.Fresh(q.p.crypto, q.p.initiator, hash, remoteKey)
    requires p.p.crypto == q.p.crypto && p.p.initiator != q.p.initiator && p.p.hash == Some(hash) && p.p.remoteKey.Some?
    ensures var d := q.p.crypto.discovery(k);
            Opens(s, k, q, X.Opened1(q, k), X.Connected1(q, hash, k), OpenMessage(q.p, 1, d, k), OpenMessage(p.p, 1, d, k))
  {
    hide Perform, Allowed, OpenMessage, X.OneLocal, X.OneConnected, Sound, Carried, AllSendable;
    var d := q.p.crypto.discovery(k);
    X.FreshOpen(q, hash, remoteKey, k);
    X.FreshConnect(q, hash, remoteKey, k);
    OpenIsFine(s, q, hash, 1, k);
    X.SameOpen(p.p, q.p, hash, 1, k);
    SmallId(s, q, k);
    assert [] + [OpenMessage(q.p, 1, d, k)] == [OpenMessage(q.p, 1, d, k)];
  }

  lemma SmallId(s: Schema, q: Peer, k: Key)
    requires q.p.Good() && |q.p.table.localIds| < U64_LIMIT
    ensures Writable(s, q, OpenAct(k))
  {
  }

  lemma SecondRound(s: Schema, q: Peer, p: Peer, hash: Bytes, remoteKey: Key, k: Key, l: Key)
    requires s.Valid() && s.utf8(PROTOCOL_NAME) && q == X.Fresh(q.p.crypto, q.p.initiator, hash, remoteKey)
    requires p.p.crypto == q.p.crypto && p.p.initiator != q.p.initiator && p.p.hash == Some(hash) && p.p.remoteKey.Some?
    requires q.p.crypto.discovery(k) != q.p.crypto.discovery(l)
    ensures var e := q.p.crypto.discovery(l);
            Opens(s, l, X.Connected1(q, hash, k), Opened2(q, hash, k, l), Connected2(q, hash, k, l),
                  OpenMessage(q.p, 2, e, l), OpenMessage(p.p, 2, e, l))
  {
    hide Perform, OpenMessage, X.OneConnected, TwoLocal, TwoConnected, Sound, Carried, AllSendable, Writable;
    var d, e, r := q.p.crypto.discovery(k), q.p.crypto.discovery(l), X.Connected1(q, hash, k);
    var proof := X.Proof(q.p, hash, k);
    X.FreshConnect(q, hash, remoteKey, k);
    OpenSecond(r, k, proof, l);
    X.SameCapability(r.p, q.p, 2, e, l);
    var o, u, c := OpenMessage(q.p, 1, d, k), OpenMessage(q.p, 2, e, l), X.FirstChannel(d, k);
    assert [o] + [u] == [o, u] && [d] + [e] == [d, e];
    var r1 := Opened2(q, hash, k, l);
    assert Perform(r, OpenAct(l)) == Acted(r1, None);
    HearSecond(r1, hash, d, k, proof, l);
    X.SameOpen(p.p, r1.p, hash, 2, l);
    assert [Established(c)] + [Established(SecondChannel(e, l))] == [Established(c), Established(SecondChannel(e, l))];
    OpenIsFine(s, q, hash, 2, l);
    NotYetOpen(s, r, d, k, proof, l);
  }

  lemma NotYetOpen(s: Schema, q: Peer, d: Key, k: Key, proof: Option<Bytes>, l: Key)
    requires q.p.Good() && q.p.table == X.OneConnected(d, k, proof) && q.pending == [] && q.p.crypto.discovery(l) != d
    ensures Allowed(q, OpenAct(l)) && Writable(s, q, OpenAct(l))
  {
  }

  /** `a` sends a message on each of two channels while the transport is not ready, and then both in one frame. */
  function TalkMoves(c: Channel, e: Channel, x: u64): seq<Move> {
    [Acting(true, SendAct(c, [Cancel(x)])), Acting(true, SendAct(e, [Cancel(x)])),
     Acting(true, FlushAct), Acting(true, FlushAct), Sending(true)]
  }

  lemma SendOneGoes(s: Schema, v: Variant, f: FrameSession, c: Channel, x: u64)
    requires f.a.p.Good() && f.b.p.Good() && Established(c) in f.a.p.History()
    requires c.cell < |f.a.p.table.cells| && !f.a.p.table.cells[c.cell].closed
    ensures var sent := Batch(c.discoveryKey, [ChannelMessage(c.localId, Cancel(x))]);
            Goes(s, v, f, Acting(true, SendAct(c, [Cancel(x)])), f.(a := f.a.(pending := f.a.pending + [sent])))
  {
    hide Sound;
    var act, q := SendAct(c, [Cancel(x)]), f.a;
    var sent := SendOn(q.p.table, c, [Cancel(x)]);
    assert sent.Success? && sent.value == [ChannelMessage(c.localId, Cancel(x))];
    var r := Perform(q, act).peer;
    assert r.p.outbox == q.p.outbox + [];
    ActGoes(s, v, f, act, r, []);
    assert f.toB.queue + [] == f.toB.queue;
  }

  lemma FlushOneGoes(s: Schema, v: Variant, f: FrameSession, b: Batch, rest: seq<Batch>, m: ChannelMessage)
    requires f.a.p.Good() && f.b.p.Good() && f.a.pending == [b] + rest && b.messages == [m] && m.message.IsOrdinary()
    ensures Goes(s, v, f, Acting(true, FlushAct),
                 f.(a := Peer(f.a.p.(outbox := f.a.p.outbox + [m]), rest, f.a.tags + [b.dk]),
                    toB := f.toB.(queue := f.toB.queue + [m])))
  {
    hide Sound;
    var q := f.a;
    assert [m][..0] == [];
    assert OnBatch(q.p, []) == q.p && OnBatch(q.p, [m]) == q.p;
    assert Kept([]) == [] && Kept([m]) == [m];
    assert q.pending[0] == b && q.pending[1..] == rest;
    assert seq(|Kept([m])|, _ => b.dk) == [b.dk];
    ActGoes(s, v, f, FlushAct, Perform(q, FlushAct).peer, [m]);
  }

  /** `a` after talking. */
  function Talked(q: Peer, d: Key, e: Key, x: u64): Peer {
    q.(p := q.p.(outbox := q.p.outbox + [TwoCancels(x)[0]] + [TwoCancels(x)[1]]), tags := q.tags + [d] + [e])
  }

  lemma Talk(s: Schema, v: Variant, f: FrameSession, moves: seq<Move>, a: Peer, b: Peer, c: Channel, g: Channel, x: u64)
    requires Leads(s, v, f, moves, FrameSession(a, b, NOTHING, NOTHING)) && a.p.Good() && b.p.Good() && a.pending == []
    requires Established(c) in a.p.History() && Established(g) in a.p.History() && c.localId == 1 && g.localId == 2
    requires c.cell < |a.p.table.cells| && !a.p.table.cells[c.cell].closed
    requires g.cell < |a.p.table.cells| && !a.p.table.cells[g.cell].closed
    ensures AllSendable(s, TwoCancels(x))
    ensures Leads(s, v, f, moves + TalkMoves(c, g, x),
                  FrameSession(Talked(a, c.discoveryKey, g.discoveryKey, x), b,
                               Pipe([Packet(TwoCancels(x), Wire(s, TwoCancels(x)))], []), NOTHING))
  {
    hide Leads, Goes, Sound, Wire, AllSendable, FrameLength;
    var m, n := TwoCancels(x)[0], TwoCancels(x)[1];
    var p1, p2 := Batch(c.discoveryKey, [m]), Batch(g.discoveryKey, [n]);
    var a1, a2 := a.(pending := [p1]), a.(pending := [p1, p2]);
    var a3 := Peer(a.p.(outbox := a.p.outbox + [m]), [p2], a.tags + [c.discoveryKey]);
    var a4 := Talked(a, c.discoveryKey, g.discoveryKey, x);
    var f0, f1, f2 := FrameSession(a, b, NOTHING, NOTHING), FrameSession(a1, b, NOTHING, NOTHING), FrameSession(a2, b, NOTHING, NOTHING);
    var f3, f4 := FrameSession(a3, b, Pipe([], [m]), NOTHING), FrameSession(a4, b, Pipe([], [m, n]), NOTHING);
    TwoCancelsFrame(s, x);
    var f5 := FrameSession(a4, b, Pipe([Packet(TwoCancels(x), Wire(s, TwoCancels(x)))], []), NOTHING);
    assert [] + [p1] == [p1] && [p1] + [p2] == [p1, p2] && [p2] + [] == [p2] && [] + [m] == [m] && [m] + [n] == [m, n];
    SendOneGoes(s, v, f0, c, x);
    SendOneGoes(s, v, f1, g, x);
    FlushOneGoes(s, v, f2, p1, [p2], m);
    FlushOneGoes(s, v, f3, p2, [], n);
    TogetherInFrame(x);
    SendGoes(s, v, f4, TwoCancels(x));
    Script(s, v, f, moves, TalkMoves(c, g, x), [f0, f1, f2, f3, f4, f5]);
  }

  lemma TogetherInFrame(x: u64)
    ensures FrameLength(TwoCancels(x)) == 2
  {
    var ms := TwoCancels(x);
    assert ms[1..] == [ms[1]] && ms[1..][1..] == [];
    assert RunLength(ms[1..]) == 1;
  }

  /** A side with two live channels. */
  lemma Settled2(s: Schema, q: Peer, p: Peer, hash: Bytes, k: Key, l: Key)
    requires q.pending == [] && q.p.emitted == []
    requires Opens(s, l, X.Connected1(q, hash, k), Opened2(q, hash, k, l), Connected2(q, hash, k, l),
                   OpenMessage(q.p, 2, q.p.crypto.discovery(l), l), OpenMessage(p.p, 2, q.p.crypto.discovery(l), l))
    ensures var r, c, g := Connected2(q, hash, k, l), X.FirstChannel(q.p.crypto.discovery(k), k), SecondChannel(q.p.crypto.discovery(l), l);
            && r.p.Good() && r.pending == []
            && Established(c) in r.p.History() && Established(g) in r.p.History()
            && |r.p.table.cells| == 2 && !r.p.table.cells[0].closed && !r.p.table.cells[1].closed
  {
    hide Sound, Allowed, Writable, Perform, Carried, AllSendable, OpenMessage;
    var r := Connected2(q, hash, k, l);
    assert r.p.History()[0] == Established(X.FirstChannel(q.p.crypto.discovery(k), k));
    assert r.p.History()[1] == Established(SecondChannel(q.p.crypto.discovery(l), l));
  }

  /** Two keys are opened by both sides and connected, and `a` sends one message on each in one frame. */
  function TwoChannelMoves(crypto: Crypto, k: Key, l: Key, x: u64): seq<Move> {
    OpenMoves(k) + OpenMoves(l)
    + TalkMoves(X.FirstChannel(crypto.discovery(k), k), SecondChannel(crypto.discovery(l), l), x)
  }

  lemma TwoChannelSession(s: Schema, v: Variant, crypto: Crypto, hash: Bytes, keyOfA: Key, keyOfB: Key, k: Key, l: Key, x: u64)
    requires s.Valid() && s.utf8(PROTOCOL_NAME) && crypto.discovery(k) != crypto.discovery(l)
    ensures var a, b := X.Fresh(crypto, true, hash, keyOfB), X.Fresh(crypto, false, hash, keyOfA);
            && AllSendable(s, TwoCancels(x))
            && Leads(s, v, Connect(crypto, hash, keyOfA, keyOfB), TwoChannelMoves(crypto, k, l, x),
                     FrameSession(Talked(Connected2(a, hash, k, l), crypto.discovery(k), crypto.discovery(l), x),
                                  Connected2(b, hash, k, l),
                                  Pipe([Packet(TwoCancels(x), Wire(s, TwoCancels(x)))], []), NOTHING))
  {
    var f, d, e := Connect(crypto, hash, keyOfA, keyOfB), crypto.discovery(k), crypto.discovery(l);
    var a, b := X.Fresh(crypto, true, hash, keyOfB), X.Fresh(crypto, false, hash, keyOfA);
    hide Leads, Opens, Sound, Talked, Wire, OpenMessage, X.Connected1, X.Opened1, Opened2, Connected2, AllSendable, TalkMoves;
    FirstRound(s, a, b, hash, keyOfB, k);
    FirstRound(s, b, a, hash, keyOfA, k);
    SecondRound(s, a, b, hash, keyOfB, k, l);
    SecondRound(s, b, a, hash, keyOfA, k, l);
    LeadsNowhere(s, v, f);
    assert f == FrameSession(a, b, NOTHING, NOTHING);
    BothOpen(s, v, f, [], k, a, b, X.Opened1(a, k), X.Connected1(a, hash, k), X.Opened1(b, k), X.Connected1(b, hash, k),
             OpenMessage(a.p, 1, d, k), OpenMessage(b.p, 1, d, k));
    assert [] + OpenMoves(k) == OpenMoves(k);
    BothOpen(s, v, f, OpenMoves(k), l, X.Connected1(a, hash, k), X.Connected1(b, hash, k), Opened2(a, hash, k, l),
             Connected2(a, hash, k, l), Opened2(b, hash, k, l), Connected2(b, hash, k, l),
             OpenMessage(a.p, 2, e, l), OpenMessage(b.p, 2, e, l));
    Settled2(s, a, b, hash, k, l);
    Settled2(s, b, a, hash, k, l);
    Talk(s, v, f, OpenMoves(k) + OpenMoves(l), Connected2(a, hash, k, l), Connected2(b, hash, k, l),
         X.FirstChannel(d, k), SecondChannel(e, l), x);
  }

  /** `b` takes in the last buffer of the session, after the given further moves of its own. */
  lemma TakeLast(s: Schema, v: Variant, hash: Bytes, f: FrameSession, moves: seq<Move>, g: FrameSession, x: u64)
    requires FrameOk(s, f, hash) && Leads(s, v, f, moves, g)
    requires |g.toB.packets| == 1 && g.toB.packets[0].messages == TwoCancels(x)
    ensures f.a.p.Good() && f.b.p.Good() && g.a.p.Good() && g.b.p.Good() && AllSendable(s, TwoCancels(x))
    ensures AllPermitted(s, v, f, moves + [Taking(false)])
    ensures var r, ms := MakeMove(s, v, g, Taking(false)), TwoCancels(x);
            && Play(s, v, f, moves + [Taking(false)]) == r.0 && FirstTrouble(s, v, f, moves + [Taking(false)]) == r.1
            && EndsAsExpected(s, v, g.b.p.table, ms, r.1)
            && Demultiplexed(g.b.p.table, r.0.b.p.table, ms[..Handled(s, v, g.b.p.table, ms)])
  {
    hide Sound, FrameOk, EndsAsExpected, Wire, TakeByA, Demultiplexed, Handled;
    var all := moves + [Taking(false)];
    assert all[..|all| - 1] == moves && all[|all| - 1] == Taking(false);
    FrameSafety(s, v, f, hash, moves);
    SwapOk(s, g, hash);
    TakeKeeps(s, v, g.Swap(), hash);
    NoControlCancels(x);
    DemultiplexedTake(s, v, g.Swap(), hash);
  }

  lemma NoControlCancels(x: u64)
    ensures NoControl(TwoCancels(x))
  {
  }

  /** How the two messages are handled when nobody has dropped a receiver. */
  lemma BothHeard(s: Schema, v: Variant, t: Table, x: u64)
    requires AllSendable(s, TwoCancels(x)) && forall i | 0 <= i < |t.inboxes| :: t.inboxes[i].receiving
    ensures Handled(s, v, t, TwoCancels(x)) == HandedOver(s, v, TwoCancels(x))
  {
  }

  /**
   The failure of the source's decoder in a session between well-behaved users: both have two connected
   channels, one of them sends Cancel(7) on each while the transport is not ready, and the other fails
   on the frame that holds both.
   */
  lemma TwoChannelFailure(s: Schema, crypto: Crypto, hash: Bytes, keyOfA: Key, keyOfB: Key, k: Key, l: Key)
    requires s.Valid() && s.utf8(PROTOCOL_NAME) && crypto.Injective() && k != l
    ensures var f := Connect(crypto, hash, keyOfA, keyOfB);
            var moves := TwoChannelMoves(crypto, k, l, 7) + [Taking(false)];
            && AllPermitted(s, AsWritten, f, moves)
            && FirstTrouble(s, AsWritten, f, moves).Some? && FirstTrouble(s, AsWritten, f, moves).value.Undecodable?
  {
    hide Sound, FrameOk, Connect, MakeMove, TwoChannelMoves, Connected2, AllPermitted, FirstTrouble, Play, Garbled, Leads,
         Demultiplexed, Handled, Talked;
    ConnectOk(s, crypto, hash, keyOfA, keyOfB);
    TwoChannelSession(s, AsWritten, crypto, hash, keyOfA, keyOfB, k, l, 7);
    var f, moves := Connect(crypto, hash, keyOfA, keyOfB), TwoChannelMoves(crypto, k, l, 7);
    TakeLast(s, AsWritten, hash, f, moves, Before(s, crypto, hash, keyOfA, keyOfB, k, l, 7), 7);
    TwoCancelsFrame(s, 7);
    SevenIsIllegible(s);
  }

  /** The session with two messages in one buffer on its way to `b`. */
  function Before(s: Schema, crypto: Crypto, hash: Bytes, keyOfA: Key, keyOfB: Key, k: Key, l: Key, x: u64): FrameSession
    requires AllSendable(s, TwoCancels(x))
  {
    var a, b := X.Fresh(crypto, true, hash, keyOfB), X.Fresh(crypto, false, hash, keyOfA);
    FrameSession(Talked(Connected2(a, hash, k, l), crypto.discovery(k), crypto.discovery(l), x), Connected2(b, hash, k, l),
                 Pipe([Packet(TwoCancels(x), Wire(s, TwoCancels(x)))], []), NOTHING)
  }

  /** What one message on the first of two channels adds to the inboxes. */
  lemma OnlyFirst(d: Key, k: Key, proof: Option<Bytes>, e: Key, l: Key, other: Option<Bytes>, r: Table, m: ChannelMessage)
    requires d != e && m.channel == 1 && Demultiplexed(TwoConnected(d, k, proof, e, l, other), r, [m])
    ensures r.inboxes == [Inbox(d, [m.message], true), Inbox(e, [], true)]
  {
    var t := TwoConnected(d, k, proof, e, l, other);
    assert [m][1..] == [];
    assert LeadsTo(t, 1, 0) && !LeadsTo(t, 1, 1);
    assert Bound(t, 0, [m]) == [m.message] by { assert [m.message] + [] == [m.message]; }
    assert Bound(t, 1, [m]) == [];
    assert [] + [m.message] == [m.message];
  }

  /**
   The same session with Cancel(0) fails nowhere, and yet the second message is lost: the other side
   finds it on channel zero, as another message, and ignores it.
   */
  lemma TwoChannelLoss(s: Schema, crypto: Crypto, hash: Bytes, keyOfA: Key, keyOfB: Key, k: Key, l: Key)
    requires s.Valid() && s.utf8(PROTOCOL_NAME) && crypto.Injective() && k != l
    ensures var f := Connect(crypto, hash, keyOfA, keyOfB);
            var moves := TwoChannelMoves(crypto, k, l, 0) + [Taking(false)];
            && AllPermitted(s, AsWritten, f, moves)
            && FirstTrouble(s, AsWritten, f, moves).None?
            && Play(s, AsWritten, f, moves).b.p.table.inboxes
               == [Inbox(crypto.discovery(k), [Cancel(0)], true), Inbox(crypto.discovery(l), [], true)]
  {
    hide Sound, FrameOk, Connect, MakeMove, TwoChannelMoves, AllPermitted, FirstTrouble, Play, Garbled, Leads, Demultiplexed,
         Handled, Talked, TwoConnected, OpenMessage, AllSendable;
    ConnectOk(s, crypto, hash, keyOfA, keyOfB);
    TwoChannelSession(s, AsWritten, crypto, hash, keyOfA, keyOfB, k, l, 0);
    var f, moves := Connect(crypto, hash, keyOfA, keyOfB), TwoChannelMoves(crypto, k, l, 0);
    var g, d, e := Before(s, crypto, hash, keyOfA, keyOfB, k, l, 0), crypto.discovery(k), crypto.discovery(l);
    TakeLast(s, AsWritten, hash, f, moves, g, 0);
    TwoCancelsFrame(s, 0);
    ZeroIsMisread(s);
    AllLive(d, k, X.Proof(X.Fresh(crypto, false, hash, keyOfA).p, hash, k), e, l, X.Proof(X.Fresh(crypto, false, hash, keyOfA).p, hash, l));
    BothHeard(s, AsWritten, g.b.p.table, 0);
    var m := TwoCancels(0)[0];
    assert TwoCancels(0)[..1] == [m];
    OnlyFirst(d, k, X.Proof(X.Fresh(crypto, false, hash, keyOfA).p, hash, k), e, l,
              X.Proof(X.Fresh(crypto, false, hash, keyOfA).p, hash, l), MakeMove(s, AsWritten, g, Taking(false)).0.b.p.table, m);
  }

  lemma AllLive(d: Key, k: Key, proof: Option<Bytes>, e: Key, l: Key, other: Option<Bytes>)
    ensures var t := TwoConnected(d, k, proof, e, l, other);
            |t.inboxes| == 2 && forall i | 0 <= i < |t.inboxes| :: t.inboxes[i].receiving
  {
  }

  //
  // A dropped receiver
  //

  function OneDropped(d: Key, k: Key, proof: Option<Bytes>, e: Key, l: Key, other: Option<Bytes>): Table {
    TwoConnected(d, k, proof, e, l, other).(inboxes := [Inbox(d, [], false), Inbox(e, [], true)])
  }

  lemma FirstIsDeaf(s: Schema, d: Key, k: Key, proof: Option<Bytes>, e: Key, l: Key, other: Option<Bytes>, x: u64)
    requires d != e && AllSendable(s, TwoCancels(x))
    ensures Handled(s, SeparatorSkipped, OneDropped(d, k, proof, e, l, other), TwoCancels(x)) == 0
    ensures HandedOver(s, SeparatorSkipped, TwoCancels(x)) == 2
  {
    var t, ms := OneDropped(d, k, proof, e, l, other), TwoCancels(x);
    assert ms[..2] == ms;
    assert Deaf(t, ms[0]);
  }

  lemma DropGoes(s: Schema, v: Variant, f: FrameSession, q: Peer, inbox: nat)
    requires f.a.p.Good() && f.b.p.Good() && Perform(f.b, DropAct(inbox)) == Acted(q, None) && q.p.outbox == f.b.p.outbox
    ensures Goes(s, v, f, Acting(false, DropAct(inbox)), f.(b := q))
  {
    hide Sound, Perform, Goes;
    assert f.b.p.outbox == f.b.p.outbox + [];
    ActGoes(s, v, f.Swap(), DropAct(inbox), q, []);
    assert f.toA.queue + [] == f.toA.queue;
    SwapGoes(s, v, f.Swap(), Acting(true, DropAct(inbox)), f.(b := q).Swap());
    assert f.Swap().Swap() == f && f.(b := q).Swap().Swap() == f.(b := q);
  }

  /**
   What a dropped receiver does, also to the other channels: `b` has two channels and drops the receiver of
   the first. A frame with a message for each fails at the first message, and the second, whose receiver is
   alive, is lost with it. The decoder is the one that reads every frame.
   */
  lemma DroppedReceiverExample(s: Schema, crypto: Crypto, hash: Bytes, keyOfA: Key, keyOfB: Key, k: Key, l: Key, x: u64)
    requires s.Valid() && s.utf8(PROTOCOL_NAME) && crypto.Injective() && k != l
    ensures var f := Connect(crypto, hash, keyOfA, keyOfB);
            var moves := TwoChannelMoves(crypto, k, l, x) + [Acting(false, DropAct(0))] + [Taking(false)];
            && AllPermitted(s, SeparatorSkipped, f, moves)
            && FirstTrouble(s, SeparatorSkipped, f, moves) == Some(StepFailed(TableProblem(ReceiverGone)))
            && Play(s, SeparatorSkipped, f, moves).b.p.table.inboxes
               == [Inbox(crypto.discovery(k), [], false), Inbox(crypto.discovery(l), [], true)]
  {
    hide Sound, FrameOk, Connect, MakeMove, TwoChannelMoves, AllPermitted, FirstTrouble, Play, Leads, Goes, Demultiplexed,
         Handled, HandedOver, Talked, OpenMessage, AllSendable, Perform;
    ConnectOk(s, crypto, hash, keyOfA, keyOfB);
    TwoChannelSession(s, SeparatorSkipped, crypto, hash, keyOfA, keyOfB, k, l, x);
    var f, moves := Connect(crypto, hash, keyOfA, keyOfB), TwoChannelMoves(crypto, k, l, x);
    var g, d, e := Before(s, crypto, hash, keyOfA, keyOfB, k, l, x), crypto.discovery(k), crypto.discovery(l);
    var p := X.Fresh(crypto, false, hash, keyOfA).p;
    var t := OneDropped(d, k, X.Proof(p, hash, k), e, l, X.Proof(p, hash, l));
    var q := g.b.(p := g.b.p.(table := t));
    LeadsGood(s, SeparatorSkipped, f, moves, g);
    DropFirst(g.b, d, k, X.Proof(p, hash, k), e, l, X.Proof(p, hash, l));
    DropGoes(s, SeparatorSkipped, g, q, 0);
    LeadsOn(s, SeparatorSkipped, f, moves, g, Acting(false, DropAct(0)), g.(b := q));
    TakeLast(s, SeparatorSkipped, hash, f, moves + [Acting(false, DropAct(0))], g.(b := q), x);
    FirstIsDeaf(s, d, k, X.Proof(p, hash, k), e, l, X.Proof(p, hash, l), x);
    NothingAdded(t, MakeMove(s, SeparatorSkipped, g.(b := q), Taking(false)).0.b.p.table, TwoCancels(x));
  }

  lemma LeadsGood(s: Schema, v: Variant, f: FrameSession, moves: seq<Move>, g: FrameSession)
    requires Leads(s, v, f, moves, g)
    ensures g.a.p.Good() && g.b.p.Good()
  {
  }

  lemma DropFirst(q: Peer, d: Key, k: Key, proof: Option<Bytes>, e: Key, l: Key, other: Option<Bytes>)
    requires q.p.Good() && q.p.table == TwoConnected(d, k, proof, e, l, other)
    ensures Perform(q, DropAct(0)) == Acted(q.(p := q.p.(table := OneDropped(d, k, proof, e, l, other))), None)
  {
    var t := q.p.table;
    assert DropReceiver(t, 0).inboxes == [Inbox(d, [], false), Inbox(e, [], true)];
  }

  lemma NothingAdded(t: Table, r: Table, ms: seq<ChannelMessage>)
    requires Demultiplexed(t, r, ms[..0])
    ensures r.inboxes == t.inboxes
  {
    assert forall x | 0 <= x < |t.inboxes| :: t.inboxes[x].messages + [] == t.inboxes[x].messages;
  }
}
