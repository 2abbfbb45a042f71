/** Runs of sessions, step by step, that show why well-behaved users keep the rules they keep. */
module SessionExamples {
  import opened Wrappers
  import opened Compact
  import opened Handshake
  import opened Messages
  import opened Channels
  import opened ProtocolModel
  import opened ChannelTheorems
  import opened Views
  import opened Peers
  import opened Sessions
  import W = WireSchema

  //
  // One key, from opening to closing, at one side
  //

  function OneLocal(d: Key, k: Key): Table {
    Table(map[d := Handle(d, Some(LocalState(k, 1)), None, None, 0)],
          [None, Some(d)], [], [Cell(d, false)], [])
  }

  function OneConnected(d: Key, k: Key, proof: Option<Bytes>): Table {
    Table(map[d := Handle(d, Some(LocalState(k, 1)), Some(RemoteState(1, proof)), Some(0), 0)],
          [None, Some(d)], [None, Some(d)], [Cell(d, false)], [Inbox(d, [], true)])
  }

  function OneShut(d: Key, k: Key, proof: Option<Bytes>): Table {
    OneConnected(d, k, proof).(cells := [Cell(d, true)])
  }

  function OneGone(d: Key, received: seq<Message>): Table {
    Table(map[], [None, None], [None, None], [Cell(d, true)], [Inbox(d, received, true)])
  }

  /** The channel announced for the first key. */
  function FirstChannel(d: Key, k: Key): Channel { Channel(k, d, 1, 0, 0) }

  /** What the other side shows for a key. */
  function Proof(p: Proto, hash: Bytes, k: Key): Option<Bytes> { Some(p.crypto.capability(!p.initiator, k, hash)) }

  /** The Open that the other side sends for a key. */
  function PeerOpen(p: Proto, hash: Bytes, id: nat, k: Key): ChannelMessage {
    ChannelMessage(id, Open(W.Open(id, PROTOCOL_NAME, p.crypto.discovery(k), Proof(p, hash, k))))
  }

  lemma AttachFirst(d: Key, k: Key)
    ensures Sound(OneLocal(d, k)) && AttachLocal(Empty(), d, k) == OneLocal(d, k) && NextLocalId(Empty()) == 1
  {
    assert NextLocalId(Empty()) == 1;
    assert Assign([None], 1, d) == [None, Some(d)];
  }

  lemma ConnectFirst(d: Key, k: Key, proof: Option<Bytes>)
    ensures Sound(OneLocal(d, k))
    ensures var t := AttachRemote(OneLocal(d, k), d, 1, proof);
            && d in t.channels && t.channels[d].IsConnected()
            && t.channels[d] == Handle(d, Some(LocalState(k, 1)), Some(RemoteState(1, proof)), None, 0)
            && OpenInbox(t, d) == (OneConnected(d, k, proof), FirstChannel(d, k))
  {
    AttachFirst(d, k);
    assert Assign([], 1, d) == [None, Some(d)];
    var t := AttachRemote(OneLocal(d, k), d, 1, proof);
    var u, r := OpenInbox(t, d).0, OneConnected(d, k, proof);
    assert u.inboxes == r.inboxes && u.channels == r.channels && u.remoteIds == r.remoteIds;
  }

  lemma OpenFirst(q: Peer, k: Key)
    requires q.p.table == Empty()
    ensures q.p.Good()
    ensures var d := q.p.crypto.discovery(k);
            Perform(q, OpenAct(k)) == Acted(
              q.(p := q.p.(table := OneLocal(d, k), outbox := q.p.outbox + [OpenMessage(q.p, 1, d, k)]), tags := q.tags + [d]),
              None)
  {
    var d := q.p.crypto.discovery(k);
    AttachFirst(d, k);
    hide Sound, AttachLocal, NextLocalId, CommandOpen, OpenMessage, OpenInbox;
    CommandOpenOutcome(q.p, k);
    assert q.p.events + [] == q.p.events;
  }

  lemma HearFirst(q: Peer, hash: Bytes, k: Key)
    requires q.p.table == OneLocal(q.p.crypto.discovery(k), k) && q.p.hash == Some(hash) && q.p.remoteKey.Some?
    ensures q.p.Good()
    ensures var d := q.p.crypto.discovery(k);
            Perform(q, ReceiveAct(PeerOpen(q.p, hash, 1, k))) == Acted(
              q.(p := q.p.(table := OneConnected(d, k, Proof(q.p, hash, k)),
                           events := q.p.events + [Established(FirstChannel(d, k))])),
              None)
  {
    var d := q.p.crypto.discovery(k);
    ConnectFirst(d, k, Proof(q.p, hash, k));
    hide Sound, AttachRemote, OpenInbox, OnOpen;
    OnOpenOutcome(q.p, PeerOpen(q.p, hash, 1, k));
  }

  lemma CloseFirst(q: Peer, k: Key, d: Key, proof: Option<Bytes>)
    requires q.p.table == OneConnected(d, k, proof) && q.p.Good()
    ensures Perform(q, CloseAct(FirstChannel(d, k))) == Acted(
              q.(p := q.p.(table := OneShut(d, k, proof)), pending := q.pending + [Batch(d, CloseBatch(FirstChannel(d, k)))]),
              None)
  {
    assert ShutCell([Cell(d, false)], 0) == [Cell(d, true)];
  }

  lemma RemoveFirst(d: Key, k: Key, proof: Option<Bytes>, received: seq<Message>)
    requires Sound(OneShut(d, k, proof).(inboxes := [Inbox(d, received, true)]))
    ensures Remove(OneShut(d, k, proof).(inboxes := [Inbox(d, received, true)]), d) == OneGone(d, received)
  {
    var t := OneShut(d, k, proof).(inboxes := [Inbox(d, received, true)]);
    assert t.channels - {d} == map[];
    assert ShutCell(t.cells, 0) == [Cell(d, true)];
  }

  lemma FlushFirst(q: Peer, k: Key, d: Key, proof: Option<Bytes>)
    requires q.p.table == OneShut(d, k, proof) && q.p.Good()
    requires q.pending == [Batch(d, CloseBatch(FirstChannel(d, k)))]
    ensures Perform(q, FlushAct) == Acted(
              Peer(q.p.(table := OneGone(d, []), events := q.p.events + [Closed(d)],
                        outbox := q.p.outbox + CloseBatch(FirstChannel(d, k))),
                   [], q.tags + [d]),
              None)
  {
    var ms := CloseBatch(FirstChannel(d, k));
    hide Sound, OnOutbound, Kept, Remove;
    LoneClose(q.p, ms);
    assert ms == [ms[0]];
    assert OneShut(d, k, proof).(inboxes := [Inbox(d, [], true)]) == q.p.table;
    RemoveFirst(d, k, proof, []);
    assert q.pending[1..] == [];
    assert seq(|Kept(ms)|, _ => d) == [d];
  }

  lemma HearClose(q: Peer, k: Key, d: Key, proof: Option<Bytes>)
    requires q.p.table == OneShut(d, k, proof) && q.p.Good()
    ensures var m := CloseBatch(FirstChannel(d, k))[0];
            Perform(q, ReceiveAct(m)) == Acted(
              q.(p := q.p.(table := OneGone(d, [m.message]), events := q.p.events + [Closed(d)])), None)
  {
    var m, t := CloseBatch(FirstChannel(d, k))[0], q.p.table;
    var u := ForwardTolerant(t, 1, m.message);
    assert u == t.(inboxes := [Inbox(d, [m.message], true)]) by {
      assert [] + [m.message] == [m.message];
      assert [Inbox(d, [], true)][0 := Inbox(d, [m.message], true)] == [Inbox(d, [m.message], true)];
    }
    RemoveFirst(d, k, proof, [m.message]);
  }

  //
  // Another key under the same id
  //

  function AnotherLocal(d: Key, received: seq<Message>, e: Key, l: Key): Table {
    Table(map[e := Handle(e, Some(LocalState(l, 1)), None, None, 1)],
          [None, Some(e)], [None, None], [Cell(d, true), Cell(e, false)], [Inbox(d, received, true)])
  }

  lemma OpenAnother(q: Peer, d: Key, received: seq<Message>, l: Key)
    requires q.p.table == OneGone(d, received) && q.p.Good()
    ensures NextLocalId(q.p.table) == 1
    ensures var e := q.p.crypto.discovery(l);
            Perform(q, OpenAct(l)) == Acted(
              q.(p := q.p.(table := AnotherLocal(d, received, e, l), outbox := q.p.outbox + [OpenMessage(q.p, 1, e, l)]),
                 tags := q.tags + [e]),
              None)
  {
    var e := q.p.crypto.discovery(l);
    assert AttachLocal(q.p.table, e, l) == AnotherLocal(d, received, e, l) by {
      assert [Cell(d, true)] + [Cell(e, false)] == [Cell(d, true), Cell(e, false)];
      assert Assign([None, None], 1, e) == [None, Some(e)];
    }
    hide Sound, AttachLocal, NextLocalId, CommandOpen, OpenMessage, OpenInbox;
    CommandOpenOutcome(q.p, l);
    assert q.p.events + [] == q.p.events;
  }

  function AnotherGone(d: Key, received: seq<Message>, e: Key): Table {
    Table(map[], [None, None], [None, None], [Cell(d, true), Cell(e, true)], [Inbox(d, received, true)])
  }

  lemma RemoveAnother(d: Key, received: seq<Message>, e: Key, l: Key)
    requires Sound(AnotherLocal(d, received, e, l))
    ensures Remove(AnotherLocal(d, received, e, l), e) == AnotherGone(d, received, e)
  {
    var t := AnotherLocal(d, received, e, l);
    assert t.channels - {e} == map[];
    assert ShutCell(t.cells, 1) == [Cell(d, true), Cell(e, true)];
  }

  /** The pending Close of the first channel closes the other key. */
  lemma FlushStale(q: Peer, d: Key, received: seq<Message>, e: Key, l: Key, k: Key)
    requires q.p.table == AnotherLocal(d, received, e, l) && q.p.Good()
    requires q.pending == [Batch(d, CloseBatch(FirstChannel(d, k)))]
    ensures Perform(q, FlushAct) == Acted(
              Peer(q.p.(table := AnotherGone(d, received, e), events := q.p.events + [Closed(e)],
                        outbox := q.p.outbox + CloseBatch(FirstChannel(d, k))),
                   [], q.tags + [d]),
              None)
  {
    var ms := CloseBatch(FirstChannel(d, k));
    hide Sound, OnOutbound, Kept, Remove;
    LoneClose(q.p, ms);
    assert ms == [ms[0]];
    RemoveAnother(d, received, e, l);
    assert q.pending[1..] == [];
    assert seq(|Kept(ms)|, _ => d) == [d];
  }

  //
  // The race
  //

  /**
   Both sides open a key and are connected. `a` closes its channel, which leaves a Close pending; `b` closes
   its own, and its Close reaches `a`. Then `b` opens another key.
   */
  function Race(k: Key, c: Channel, l: Key): seq<Move> {
    [Own(true, OpenAct(k)), Own(false, OpenAct(k)), Receive(true), Receive(false),
     Own(true, CloseAct(c)), Own(false, CloseAct(c)), Own(false, FlushAct), Receive(true), Own(false, OpenAct(l))]
  }

  /** A permitted move and what it leads to. */
  ghost predicate Goes(before: Session, m: Move, after: Session) {
    && before.a.p.Good() && before.b.p.Good()
    && Permitted(before, m) && MakeMove(before, m).0 == after
  }

  /** A run given by all its states. */
  lemma {:induction false} Script(states: seq<Session>, moves: seq<Move>)
    requires |states| == |moves| + 1 && states[0].a.p.Good() && states[0].b.p.Good()
    requires forall i | 0 <= i < |moves| :: Goes(states[i], moves[i], states[i + 1])
    ensures AllPermitted(states[0], moves) && Play(states[0], moves) == states[|moves|]
    decreases |moves|
  {
    hide Permitted, MakeMove;
    if moves == [] {
    } else {
      var n := |moves| - 1;
      assert forall i | 0 <= i < n :: Goes(states[..n + 1][i], moves[..n][i], states[..n + 1][i + 1]);
      Script(states[..n + 1], moves[..n]);
      assert Goes(states[n], moves[n], states[n + 1]);
    }
  }

  lemma OwnGoes(s: Session, byA: bool, act: Act)
    requires s.a.p.Good() && s.b.p.Good() && !act.ReceiveAct? && Allowed(if byA then s.a else s.b, act)
    ensures Goes(s, Own(byA, act), if byA then s.(a := Perform(s.a, act).peer) else s.(b := Perform(s.b, act).peer))
  {
    hide Perform, Allowed;
  }

  lemma HearGoes(s: Session, byA: bool)
    requires s.a.p.Good() && s.b.p.Good()
    requires if byA then s.heardByA < |s.b.p.outbox| else s.heardByB < |s.a.p.outbox|
    ensures Goes(s, Receive(byA),
                 if byA
                 then s.(a := Perform(s.a, ReceiveAct(s.b.p.outbox[s.heardByA])).peer, heardByA := s.heardByA + 1)
                 else s.(b := Perform(s.b, ReceiveAct(s.a.p.outbox[s.heardByB])).peer, heardByB := s.heardByB + 1))
  {
    hide Perform;
  }

  /** One side of the race: fresh, with the key open, connected, closed by the user. */
  function Fresh(crypto: Crypto, role: bool, hash: Bytes, remoteKey: Key): Peer {
    Peer(Start(crypto, role).(hash := Some(hash), remoteKey := Some(remoteKey)), [], [])
  }

  function Opened1(q: Peer, k: Key): Peer {
    var d := q.p.crypto.discovery(k);
    q.(p := q.p.(table := OneLocal(d, k), outbox := [OpenMessage(q.p, 1, d, k)]), tags := [d])
  }

  function Connected1(q: Peer, hash: Bytes, k: Key): Peer {
    var d, r := q.p.crypto.discovery(k), Opened1(q, k);
    r.(p := r.p.(table := OneConnected(d, k, Proof(q.p, hash, k)), events := [Established(FirstChannel(d, k))]))
  }

  function Closed1(q: Peer, hash: Bytes, k: Key): Peer {
    var d, r := q.p.crypto.discovery(k), Connected1(q, hash, k);
    r.(p := r.p.(table := OneShut(d, k, Proof(q.p, hash, k))), pending := [Batch(d, CloseBatch(FirstChannel(d, k)))])
  }

  /** The same Open, seen from both sides. */
  lemma SameOpen(p: Proto, q: Proto, hash: Bytes, id: nat, k: Key)
    requires p.crypto == q.crypto && p.initiator != q.initiator && p.hash == Some(hash) && p.remoteKey.Some?
    ensures OpenMessage(p, id, p.crypto.discovery(k), k) == PeerOpen(q, hash, id, k)
  {
  }

  lemma FreshOpen(q: Peer, hash: Bytes, remoteKey: Key, k: Key)
    requires q == Fresh(q.p.crypto, q.p.initiator, hash, remoteKey)
    ensures q.p.Good() && Allowed(q, OpenAct(k)) && Perform(q, OpenAct(k)) == Acted(Opened1(q, k), None)
    ensures Opened1(q, k).p.Good()
  {
    hide Perform;
    OpenFirst(q, k);
    var d := q.p.crypto.discovery(k);
    assert [] + [OpenMessage(q.p, 1, d, k)] == [OpenMessage(q.p, 1, d, k)];
    assert [] + [d] == [d];
  }

  lemma FreshConnect(q: Peer, hash: Bytes, remoteKey: Key, k: Key)
    requires q == Fresh(q.p.crypto, q.p.initiator, hash, remoteKey)
    ensures Opened1(q, k).p.Good() && Connected1(q, hash, k).p.Good()
    ensures Perform(Opened1(q, k), ReceiveAct(PeerOpen(q.p, hash, 1, k))) == Acted(Connected1(q, hash, k), None)
  {
    var r, d := Opened1(q, k), q.p.crypto.discovery(k);
    hide Perform, OneConnected;
    HearFirst(r, hash, k);
    assert PeerOpen(r.p, hash, 1, k) == PeerOpen(q.p, hash, 1, k);
    assert [] + [Established(FirstChannel(d, k))] == [Established(FirstChannel(d, k))];
  }

  lemma FreshClose(q: Peer, hash: Bytes, remoteKey: Key, k: Key)
    requires q == Fresh(q.p.crypto, q.p.initiator, hash, remoteKey)
    ensures Connected1(q, hash, k).p.Good() && Closed1(q, hash, k).p.Good()
    ensures var r, act := Connected1(q, hash, k), CloseAct(FirstChannel(q.p.crypto.discovery(k), k));
            Allowed(r, act) && Perform(r, act) == Acted(Closed1(q, hash, k), None)
  {
    var r, d := Connected1(q, hash, k), q.p.crypto.discovery(k);
    FreshConnect(q, hash, remoteKey, k);
    hide Perform, OneConnected, OneShut;
    CloseFirst(r, k, d, Proof(q.p, hash, k));
    assert r.p.History()[0] == Established(FirstChannel(d, k));
    assert [] + [Batch(d, CloseBatch(FirstChannel(d, k)))] == [Batch(d, CloseBatch(FirstChannel(d, k)))];
  }

  /** What is left of the first key at `b`, and at `a`, and the other key at either. */
  function Flushed1(q: Peer, hash: Bytes, k: Key): Peer {
    var d, r := q.p.crypto.discovery(k), Closed1(q, hash, k);
    var m := CloseBatch(FirstChannel(d, k))[0];
    Peer(r.p.(table := OneGone(d, []), events := [Established(FirstChannel(d, k)), Closed(d)],
              outbox := [OpenMessage(q.p, 1, d, k), m]),
         [], [d, d])
  }

  function Heard1(q: Peer, hash: Bytes, k: Key): Peer {
    var d, r := q.p.crypto.discovery(k), Closed1(q, hash, k);
    var m := CloseBatch(FirstChannel(d, k))[0];
    r.(p := r.p.(table := OneGone(d, [m.message]), events := [Established(FirstChannel(d, k)), Closed(d)]))
  }

  lemma FreshFlush(q: Peer, hash: Bytes, remoteKey: Key, k: Key)
    requires q == Fresh(q.p.crypto, q.p.initiator, hash, remoteKey)
    ensures Closed1(q, hash, k).p.Good() && Flushed1(q, hash, k).p.Good()
    ensures Perform(Closed1(q, hash, k), FlushAct) == Acted(Flushed1(q, hash, k), None)
  {
    var r, d := Closed1(q, hash, k), q.p.crypto.discovery(k);
    FreshClose(q, hash, remoteKey, k);
    hide Perform, OneShut, OneConnected, OpenMessage, Sound;
    FlushFirst(r, k, d, Proof(q.p, hash, k));
    var c := FirstChannel(d, k);
    assert [Established(c)] + [Closed(d)] == [Established(c), Closed(d)];
    assert [OpenMessage(q.p, 1, d, k)] + CloseBatch(c) == [OpenMessage(q.p, 1, d, k), CloseBatch(c)[0]];
    assert [d] + [d] == [d, d];
  }

  lemma FreshHeard(q: Peer, hash: Bytes, remoteKey: Key, k: Key)
    requires q == Fresh(q.p.crypto, q.p.initiator, hash, remoteKey)
    ensures Closed1(q, hash, k).p.Good() && Heard1(q, hash, k).p.Good()
    ensures var m := CloseBatch(FirstChannel(q.p.crypto.discovery(k), k))[0];
            Perform(Closed1(q, hash, k), ReceiveAct(m)) == Acted(Heard1(q, hash, k), None)
  {
    var r, d := Closed1(q, hash, k), q.p.crypto.discovery(k);
    FreshClose(q, hash, remoteKey, k);
    hide Perform, OneShut, OneConnected, OpenMessage, Sound;
    HearClose(r, k, d, Proof(q.p, hash, k));
    var c := FirstChannel(d, k);
    assert [Established(c)] + [Closed(d)] == [Established(c), Closed(d)];
  }

  lemma OpenAfterwards(q: Peer, d: Key, received: seq<Message>, l: Key)
    requires q.p.table == OneGone(d, received) && q.p.Good() && q.pending == []
    ensures Allowed(q, OpenAct(l))
  {
  }

  lemma FlushAllowed(q: Peer)
    requires q.p.Good()
    ensures Allowed(q, FlushAct)
  {
  }

  /** Everything one side does in the race. */
  lemma Story(q: Peer, hash: Bytes, remoteKey: Key, k: Key, l: Key)
    requires q == Fresh(q.p.crypto, q.p.initiator, hash, remoteKey)
    ensures q.p.Good() && Opened1(q, k).p.Good() && Connected1(q, hash, k).p.Good() && Closed1(q, hash, k).p.Good()
            && Flushed1(q, hash, k).p.Good() && Heard1(q, hash, k).p.Good()
    ensures var d := q.p.crypto.discovery(k);
            var c, close := FirstChannel(d, k), CloseBatch(FirstChannel(d, k))[0];
            && Allowed(q, OpenAct(k)) && Perform(q, OpenAct(k)).peer == Opened1(q, k)
            && Opened1(q, k).p.outbox == [OpenMessage(q.p, 1, d, k)]
            && Perform(Opened1(q, k), ReceiveAct(PeerOpen(q.p, hash, 1, k))).peer == Connected1(q, hash, k)
            && Connected1(q, hash, k).p.outbox == [OpenMessage(q.p, 1, d, k)]
            && Allowed(Connected1(q, hash, k), CloseAct(c))
            && Perform(Connected1(q, hash, k), CloseAct(c)).peer == Closed1(q, hash, k)
            && Allowed(Closed1(q, hash, k), FlushAct) && Perform(Closed1(q, hash, k), FlushAct).peer == Flushed1(q, hash, k)
            && Flushed1(q, hash, k).p.outbox == [OpenMessage(q.p, 1, d, k), close]
            && Perform(Closed1(q, hash, k), ReceiveAct(close)).peer == Heard1(q, hash, k)
            && Allowed(Flushed1(q, hash, k), OpenAct(l))
  {
    hide Perform, Allowed, OpenMessage, OneLocal, OneConnected, OneShut, OneGone, Sound;
    FreshOpen(q, hash, remoteKey, k);
    FreshConnect(q, hash, remoteKey, k);
    FreshClose(q, hash, remoteKey, k);
    FreshFlush(q, hash, remoteKey, k);
    FreshHeard(q, hash, remoteKey, k);
    FlushAllowed(Closed1(q, hash, k));
    OpenAfterwards(Flushed1(q, hash, k), q.p.crypto.discovery(k), [], l);
  }

  lemma RaceRun(a: Peer, b: Peer, hash: Bytes, keyOfA: Key, keyOfB: Key, k: Key, l: Key)
    requires a == Fresh(a.p.crypto, true, hash, keyOfB) && b == Fresh(a.p.crypto, false, hash, keyOfA)
    ensures var s, c := Session(a, b, 0, 0), FirstChannel(a.p.crypto.discovery(k), k);
            && Flushed1(b, hash, k).p.Good() && a.p.Good() && b.p.Good()
            && AllPermitted(s, Race(k, c, l))
            && Play(s, Race(k, c, l))
               == Session(Heard1(a, hash, k), Perform(Flushed1(b, hash, k), OpenAct(l)).peer, 1, 2)
  {
    hide Perform, Allowed, AllPermitted, Play, OpenMessage, PeerOpen, Sound, Goes, Opened1, Connected1, Closed1, Heard1, Flushed1;
    var d := a.p.crypto.discovery(k);
    var c := FirstChannel(d, k);
    Story(a, hash, keyOfB, k, l);
    Story(b, hash, keyOfA, k, l);
    SameOpen(a.p, b.p, hash, 1, k);
    SameOpen(b.p, a.p, hash, 1, k);
    var a1, a2, a3, a4 := Opened1(a, k), Connected1(a, hash, k), Closed1(a, hash, k), Heard1(a, hash, k);
    var b1, b2, b3, b4 := Opened1(b, k), Connected1(b, hash, k), Closed1(b, hash, k), Flushed1(b, hash, k);
    var b5 := Perform(b4, OpenAct(l)).peer;
    OwnGoes(Session(a, b, 0, 0), true, OpenAct(k));
    OwnGoes(Session(a1, b, 0, 0), false, OpenAct(k));
    HearGoes(Session(a1, b1, 0, 0), true);
    HearGoes(Session(a2, b1, 0, 1), false);
    OwnGoes(Session(a2, b2, 1, 1), true, CloseAct(c));
    OwnGoes(Session(a3, b2, 1, 1), false, CloseAct(c));
    OwnGoes(Session(a3, b3, 1, 1), false, FlushAct);
    HearGoes(Session(a3, b4, 1, 1), true);
    OwnGoes(Session(a4, b4, 1, 2), false, OpenAct(l));
    Script([Session(a, b, 0, 0), Session(a1, b, 0, 0), Session(a1, b1, 0, 0), Session(a2, b1, 0, 1), Session(a2, b2, 1, 1),
            Session(a3, b2, 1, 1), Session(a3, b3, 1, 1), Session(a3, b4, 1, 1), Session(a4, b4, 1, 2), Session(a4, b5, 1, 2)],
           Race(k, c, l));
  }

  /** After the race `a` opens the other key too, which gets the id of the Close still pending, and flushes. */
  lemma AfterRace(q: Peer, hash: Bytes, k: Key, l: Key)
    requires q.p.Good() && q.p.hash == Some(hash) && q.p.remoteKey.Some? && q.tags == [] && q.p.outbox == [] && q.pending == []
    requires Heard1(q, hash, k).p.Good()
    ensures var h, d, e := Heard1(q, hash, k), q.p.crypto.discovery(k), q.p.crypto.discovery(l);
            var r := Perform(Perform(h, OpenAct(l)).peer, FlushAct).peer;
            && !Allowed(h, OpenAct(l)) && !LocallyAttached(h.p.table, e)
            && e in Perform(h, OpenAct(l)).peer.p.table.channels
            && r.p.table == AnotherGone(d, [Close(W.Close(1))], e)
            && r.p.outbox == [OpenMessage(q.p, 1, d, k), OpenMessage(q.p, 1, e, l), CloseBatch(FirstChannel(d, k))[0]]
            && r.tags == [d, e, d]
  {
    hide Perform, OpenMessage, Sound;
    var h, d, e := Heard1(q, hash, k), q.p.crypto.discovery(k), q.p.crypto.discovery(l);
    var close := CloseBatch(FirstChannel(d, k))[0];
    OpenAnother(h, d, [close.message], l);
    assert h.pending[0].messages[0].channel == NextLocalId(h.p.table);
    var g := Perform(h, OpenAct(l)).peer;
    FlushStale(g, d, [close.message], e, l, k);
    assert OpenMessage(h.p, 1, e, l) == OpenMessage(q.p, 1, e, l) by { SameCapability(h.p, q.p, 1, e, l); }
    var o, u := OpenMessage(q.p, 1, d, k), OpenMessage(q.p, 1, e, l);
    assert ([o] + [u]) + CloseBatch(FirstChannel(d, k)) == [o, u, close];
    assert ([d] + [e]) + [d] == [d, e, d];
  }

  lemma SameCapability(p: Proto, q: Proto, id: nat, d: Key, k: Key)
    requires p.crypto == q.crypto && p.initiator == q.initiator && p.hash == q.hash && p.remoteKey == q.remoteKey
    ensures OpenMessage(p, id, d, k) == OpenMessage(q, id, d, k)
  {
  }

  /** What the links and tables of the race amount to. */
  lemma RaceViews(d: Key, e: Key, ms: seq<Message>, l: Key)
    ensures ViewOf(AnotherGone(d, ms, e)) == View(map[], map[]) && ViewOf(AnotherLocal(d, [], e, l)) == View(map[1 := e], map[])
    ensures !Mirror(Drain(View(map[], map[]), [Opened(1, e)]), Drain(View(map[1 := e], map[]), [Opened(1, e), Ended(1)]))
  {
    assert [Opened(1, e)][1..] == [] && [Opened(1, e), Ended(1)][1..] == [Ended(1)] && [Ended(1)][1..] == [];
    assert Drain(View(map[], map[]), [Opened(1, e)]) == View(map[], map[1 := e]);
    var v := View(map[1 := e], map[1 := e]);
    assert Hear(View(map[1 := e], map[]), Opened(1, e)) == v;
    assert Drain(View(map[1 := e], map[]), [Opened(1, e), Ended(1)]) == Hear(v, Ended(1)) by {
      assert Drain(v, [Ended(1)]) == Hear(v, Ended(1));
    }
    assert Hear(v, Ended(1)).l == map[];
    assert ViewOf(AnotherGone(d, ms, e)).l == map[] && ViewOf(AnotherGone(d, ms, e)).r == map[];
  }

  /**
   The exception of `OutboundCloseExactly` on a real run. After permitted moves `a` still has the Close of
   its first channel pending, and slot 1, freed by the peer's own Close, is the next id. If `a` now opens
   another key, which the rules forbid, handling the pending Close closes that key, and the tables are
   bound to disagree: the peer's Open for it is in flight.
   */
  lemma OutboundCloseExample(crypto: Crypto, hash: Bytes, keyOfA: Key, keyOfB: Key, k: Key, l: Key)
    ensures var s0, c := Connect(crypto, hash, keyOfA, keyOfB), FirstChannel(crypto.discovery(k), k);
            && AllPermitted(s0, Race(k, c, l))
            && var s := Play(s0, Race(k, c, l));
               var more := Perform(s.a, OpenAct(l)).peer;
               var a := Perform(more, FlushAct).peer;
               && !Allowed(s.a, OpenAct(l)) && !LocallyAttached(s.a.p.table, crypto.discovery(l))
               && crypto.discovery(l) in more.p.table.channels && crypto.discovery(l) !in a.p.table.channels
               && s.heardByB == 1 && |a.tags| == |a.p.outbox| == 3
               && s.heardByA == 2 && |s.b.tags| == |s.b.p.outbox| == 3
               && !Mirror(Drain(ViewOf(a.p.table), Link(s.b, 2)), Drain(ViewOf(s.b.p.table), Link(a, 1)))
  {
    hide Perform, Allowed, AllPermitted, Play, OpenMessage, PeerOpen, Sound, Flushed1, Heard1, Race, Link, Drain, Mirror, ViewOf;
    var a, b := Fresh(crypto, true, hash, keyOfB), Fresh(crypto, false, hash, keyOfA);
    var d, e := crypto.discovery(k), crypto.discovery(l);
    RaceRun(a, b, hash, keyOfA, keyOfB, k, l);
    Story(a, hash, keyOfB, k, l);
    AfterRace(a, hash, k, l);
    LastOpen(b, hash, keyOfA, k, l);
    var close := CloseBatch(FirstChannel(d, k))[0];
    RaceViews(d, e, [close.message], l);
    var r := Perform(Perform(Heard1(a, hash, k), OpenAct(l)).peer, FlushAct).peer;
    LinkOfClose(r, OpenMessage(a.p, 1, d, k), OpenMessage(a.p, 1, e, l), close, d, e);
    OpenSignal(a.p, 1, e, l);
  }

  /** `b` at the end of the race. */
  lemma LastOpen(q: Peer, hash: Bytes, remoteKey: Key, k: Key, l: Key)
    requires q == Fresh(q.p.crypto, q.p.initiator, hash, remoteKey) && Flushed1(q, hash, k).p.Good()
    ensures var d, e := q.p.crypto.discovery(k), q.p.crypto.discovery(l);
            var r := Perform(Flushed1(q, hash, k), OpenAct(l)).peer;
            && r.p.table == AnotherLocal(d, [], e, l) && |r.tags| == |r.p.outbox| == 3
            && Link(r, 2) == [Opened(1, e)]
  {
    hide Perform, OpenMessage, Sound;
    var g, d, e := Flushed1(q, hash, k), q.p.crypto.discovery(k), q.p.crypto.discovery(l);
    OpenAnother(g, d, [], l);
    var r := Perform(g, OpenAct(l)).peer;
    OpenSignal(g.p, 1, e, l);
    assert r.p.outbox[2..] == [OpenMessage(g.p, 1, e, l)] && r.tags[2..] == [e];
  }

  lemma OpenSignal(p: Proto, id: nat, d: Key, k: Key)
    ensures SignalOf(OpenMessage(p, id, d, k), d) == Opened(id, d)
  {
  }

  lemma LinkOfClose(r: Peer, o: ChannelMessage, u: ChannelMessage, close: ChannelMessage, d: Key, e: Key)
    requires r.p.outbox == [o, u, close] && r.tags == [d, e, d] && close.message.Close?
    ensures Link(r, 1) == [SignalOf(u, e), Ended(close.channel)]
  {
    assert r.p.outbox[1..] == [u, close] && r.tags[1..] == [e, d];
  }

  /** The exception of `CommandCloseExactly`: a key is opened and then closed by its discovery key. */
  lemma CommandCloseExample(crypto: Crypto, hash: Bytes, keyOfA: Key, keyOfB: Key, k: Key)
    ensures var s, d := Connect(crypto, hash, keyOfA, keyOfB), crypto.discovery(k);
            && Permitted(s, Own(true, OpenAct(k)))
            && var r := MakeMove(s, Own(true, OpenAct(k))).0;
               && r.heardByB == r.heardByA == 0 && r.b.p.outbox == [] && r.b.tags == [] && |r.a.tags| == |r.a.p.outbox| == 1
               && !Mirror(Drain(ViewOf(CommandClose(r.a.p, d).table), Link(r.b, 0)), Drain(ViewOf(r.b.p.table), Link(r.a, 0)))
  {
    hide Perform, Allowed, OpenMessage, Sound;
    var a, b := Fresh(crypto, true, hash, keyOfB), Fresh(crypto, false, hash, keyOfA);
    var s, d := Session(a, b, 0, 0), crypto.discovery(k);
    FreshOpen(a, hash, keyOfB, k);
    OwnGoes(s, true, OpenAct(k));
    var r := s.(a := Opened1(a, k));
    OpenSignal(a.p, 1, d, k);
    assert r.a.p.outbox[0..] == [OpenMessage(a.p, 1, d, k)] && r.a.tags[0..] == [d];
    assert Link(r.a, 0) == [Opened(1, d)] && Link(r.b, 0) == [];
    SilentlyGone(r.a.p, d, k);
  }

  lemma SilentlyGone(p: Proto, d: Key, k: Key)
    requires p.Good() && p.table == OneLocal(d, k)
    ensures !Mirror(Drain(ViewOf(CommandClose(p, d).table), []), Drain(ViewOf(Empty()), [Opened(1, d)]))
  {
    assert [Opened(1, d)][1..] == [];
    assert Drain(ViewOf(Empty()), [Opened(1, d)]).r == map[1 := d];
    var v := ViewOf(CommandClose(p, d).table);
    assert v.l == map[] && Drain(v, []) == v;
    assert 1 in Drain(ViewOf(Empty()), [Opened(1, d)]).r && 1 !in v.l;
  }
}
