/**
 Two peers over two first-in first-out links. Between well-behaved users no step ever fails, and once
 everything sent has been received the two channel tables are mirror images.
 */
module Sessions {
  import opened Wrappers
  import opened Compact
  import opened Handshake
  import opened Messages
  import opened Channels
  import opened ProtocolModel
  import opened Views
  import ChannelTheorems
  import E = EventTheorems
  import L = ChannelLifetime
  import opened Peers

  /** Each side has received the given number of the messages the other side has enqueued. */
  datatype Session = Session(a: Peer, b: Peer, heardByB: nat, heardByA: nat) {
    function Swap(): Session { Session(b, a, heardByA, heardByB) }
  }

  function Signals(ms: seq<ChannelMessage>, tags: seq<Key>): (r: seq<Signal>)
    requires |tags| == |ms|
    ensures |r| == |ms|
  {
    seq(|ms|, i requires 0 <= i < |ms| => SignalOf(ms[i], tags[i]))
  }

  /** What a peer has enqueued and the other side, having received `heard` messages, has not. */
  function Link(q: Peer, heard: nat): seq<Signal>
    requires heard <= |q.p.outbox| && |q.tags| == |q.p.outbox|
  {
    Signals(q.p.outbox[heard..], q.tags[heard..])
  }

  ghost predicate SessionOk(s: Session, hash: Bytes) {
    && PeerOk(s.a, hash) && PeerOk(s.b, hash)
    && s.a.p.crypto == s.b.p.crypto && s.a.p.initiator != s.b.p.initiator
    && s.heardByB <= |s.a.p.outbox| && s.heardByA <= |s.b.p.outbox|
    && Agree(ViewOf(s.a.p.table), ViewOf(s.b.p.table), Link(s.a, s.heardByB), Link(s.b, s.heardByA))
  }

  //
  // Moves
  //

  /** `a` (or `b`) acts; a receive takes the next message in flight. */
  datatype Move = Own(byA: bool, act: Act) | Receive(byA: bool)

  /** What a move by `a` does, and whether it failed. */
  function ActByA(s: Session, act: Act): (r: (Session, Option<Problem>))
    requires s.a.p.Good() && s.b.p.Good()
    ensures r.0.a.p.Good() && r.0.b.p.Good()
  {
    var acted := Perform(s.a, act);
    (s.(a := acted.peer), acted.problem)
  }

  function ReceiveByA(s: Session): (r: (Session, Option<Problem>))
    requires s.a.p.Good() && s.b.p.Good()
    ensures r.0.a.p.Good() && r.0.b.p.Good()
  {
    if s.heardByA < |s.b.p.outbox| then
      var acted := Perform(s.a, ReceiveAct(s.b.p.outbox[s.heardByA]));
      (s.(a := acted.peer, heardByA := s.heardByA + 1), acted.problem)
    else (s, None)
  }

  ghost predicate Permitted(s: Session, m: Move)
    requires s.a.p.Good() && s.b.p.Good()
  {
    match m
    case Receive(_) => true
    case Own(byA, act) => !act.ReceiveAct? && Allowed(if byA then s.a else s.b, act)
  }

  function MoveByA(s: Session, m: Move): (r: (Session, Option<Problem>))
    requires s.a.p.Good() && s.b.p.Good()
    ensures r.0.a.p.Good() && r.0.b.p.Good()
  {
    if m.Receive? then ReceiveByA(s) else ActByA(s, m.act)
  }

  function MakeMove(s: Session, m: Move): (r: (Session, Option<Problem>))
    requires s.a.p.Good() && s.b.p.Good()
    ensures r.0.a.p.Good() && r.0.b.p.Good()
  {
    if m.byA then MoveByA(s, m)
    else
      var (t, problem) := MoveByA(s.Swap(), m);
      (t.Swap(), problem)
  }

  //
  // Links
  //

  /** Whatever a peer enqueues comes last on its link. */
  lemma LinkAppend(q: Peer, r: Peer, heard: nat, ms: seq<ChannelMessage>, tags: seq<Key>)
    requires heard <= |q.p.outbox| && |q.tags| == |q.p.outbox| && |tags| == |ms|
    requires r.p.outbox == q.p.outbox + ms && r.tags == q.tags + tags
    ensures Link(r, heard) == Link(q, heard) + Signals(ms, tags)
  {
    assert r.p.outbox[heard..] == q.p.outbox[heard..] + ms;
    assert r.tags[heard..] == q.tags[heard..] + tags;
  }

  /** Several messages on usable ids, one after the other. */
  lemma {:induction false} ManyTraffic(a: View, b: View, ab: seq<Signal>, ba: seq<Signal>, more: seq<Signal>)
    requires Agree(a, b, ab, ba)
    requires forall i | 0 <= i < |more| ::
               more[i].Traffic? && (more[i].id in a.l ==> a.l[more[i].id] == more[i].dk && more[i].dk in a.r.Values)
    ensures Agree(a, b, ab + more, ba)
    decreases |more|
  {
    hide Agree;
    if more == [] {
      assert ab + more == ab;
    } else {
      var n := |more| - 1;
      ManyTraffic(a, b, ab, ba, more[..n]);
      TrafficAgrees(a, b, ab + more[..n], ba, more[n].id, more[n].dk);
      assert more[n] == Traffic(more[n].id, more[n].dk);
      assert (ab + more[..n]) + [more[n]] == ab + more;
    }
  }

  //
  // Moves by `a` keep the session in order
  //

  lemma SwapOk(s: Session, hash: Bytes)
    ensures SessionOk(s, hash) <==> SessionOk(s.Swap(), hash)
  {
    if && s.heardByB <= |s.a.p.outbox| && s.heardByA <= |s.b.p.outbox|
       && |s.a.tags| == |s.a.p.outbox| && |s.b.tags| == |s.b.p.outbox| {
      Symmetry(ViewOf(s.a.p.table), ViewOf(s.b.p.table), Link(s.a, s.heardByB), Link(s.b, s.heardByA));
    }
  }

  lemma OpenMove(s: Session, hash: Bytes, key: Key)
    requires SessionOk(s, hash) && Allowed(s.a, OpenAct(key))
    ensures var r := ActByA(s, OpenAct(key)); r.1.None? && SessionOk(r.0, hash)
  {
    SessionGood(s, hash);
    hide PeerOk, Agree, Perform, ViewOf, Allowed, Link, OpenMessage;
    var q := s.a.p;
    var dk, id := q.crypto.discovery(key), NextLocalId(q.table);
    var m := OpenMessage(q, id, dk, key);
    OpenStep(s.a, hash, key);
    OpenAgrees(ViewOf(q.table), ViewOf(s.b.p.table), Link(s.a, s.heardByB), Link(s.b, s.heardByA), id, dk);
    LinkAppend(s.a, Perform(s.a, OpenAct(key)).peer, s.heardByB, [m], [dk]);
    assert Signals([m], [dk]) == [Opened(id, dk)];
  }

  lemma FlushMove(s: Session, hash: Bytes)
    requires SessionOk(s, hash)
    ensures var r := ActByA(s, FlushAct); r.1.None? && SessionOk(r.0, hash)
  {
    hide Agree, ViewOf, Sound, Exact, HandlesOk, ChannelsOk, OutboxOk, Take;
    if s.a.pending != [] {
      assert BatchOk(s.a.p.table, s.a.pending[0]);
      if IsLoneClose(s.a.pending[0].messages) {
        FlushCloseMove(s, hash);
      } else {
        FlushTrafficMove(s, hash);
      }
    }
  }

  lemma FlushCloseMove(s: Session, hash: Bytes)
    requires SessionOk(s, hash) && s.a.pending != [] && IsLoneClose(s.a.pending[0].messages)
    ensures SessionOk(ActByA(s, FlushAct).0, hash)
  {
    SessionGood(s, hash);
    hide PeerOk, Agree, Perform, ViewOf, Link, Drop;
    var m, r := s.a.pending[0].messages[0], Perform(s.a, FlushAct).peer;
    var v, w, ab, ba := ViewOf(s.a.p.table), ViewOf(s.b.p.table), Link(s.a, s.heardByB), Link(s.b, s.heardByA);
    FlushCloseStep(s.a, hash);
    CloseLink(s.a, r, s.heardByB, m, s.a.pending[0].dk);
    assert |r.tags| == |r.p.outbox|;
    if m.channel in v.l {
      CloseAgrees(v, w, ab, ba, m.channel);
    } else {
      StaleCloseAgrees(v, w, ab, ba, m.channel);
    }
  }

  lemma CloseLink(q: Peer, r: Peer, heard: nat, m: ChannelMessage, dk: Key)
    requires heard <= |q.p.outbox| && |q.tags| == |q.p.outbox| && m.message.Close?
    requires r.p.outbox == q.p.outbox + [m] && r.tags == q.tags + [dk]
    ensures |r.tags| == |r.p.outbox| && Link(r, heard) == Link(q, heard) + [Ended(m.channel)]
  {
    LinkAppend(q, r, heard, [m], [dk]);
    assert Signals([m], [dk]) == [Ended(m.channel)];
  }

  lemma FlushTrafficMove(s: Session, hash: Bytes)
    requires SessionOk(s, hash) && s.a.pending != [] && NoControl(s.a.pending[0].messages)
    requires BatchOk(s.a.p.table, s.a.pending[0])
    ensures SessionOk(ActByA(s, FlushAct).0, hash)
  {
    hide Agree, Perform, Kept, Sound, HandlesOk, ChannelsOk, PendingOk, OutboxOk;
    var q, b := s.a.p, s.a.pending[0];
    var kept := Kept(b.messages);
    var tags := seq(|kept|, _ => b.dk);
    var v, more := ViewOf(q.table), Signals(kept, tags);
    FlushTrafficStep(s.a, hash);
    forall i | 0 <= i < |more|
      ensures more[i].Traffic? && (more[i].id in v.l ==> v.l[more[i].id] == more[i].dk && more[i].dk in v.r.Values)
    {
      var m := kept[i];
      var j :| 0 <= j < |b.messages| && b.messages[j] == m;
      assert Usable(q.table, m.channel, b.dk);
      UsableView(q.table, m.channel, b.dk);
    }
    ManyTraffic(v, ViewOf(s.b.p.table), Link(s.a, s.heardByB), Link(s.b, s.heardByA), more);
    LinkAppend(s.a, Perform(s.a, FlushAct).peer, s.heardByB, kept, tags);
  }

  lemma UsableView(t: Table, id: nat, dk: Key)
    requires Sound(t) && Exact(t) && Usable(t, id, dk)
    ensures id in ViewOf(t).l ==> ViewOf(t).l[id] == dk && dk in ViewOf(t).r.Values
  {
    if id in ViewOf(t).l {
      ViewValues(t, dk);
    }
  }

  lemma ChannelMove(s: Session, hash: Bytes, act: Act)
    requires SessionOk(s, hash) && (act.SendAct? || act.CloseAct?) && Allowed(s.a, act)
    ensures var r := ActByA(s, act); r.1.None? && SessionOk(r.0, hash)
  {
    SessionGood(s, hash);
    hide PeerOk, Agree, ViewOf, Allowed, Take;
    if act.SendAct? {
      SendStep(s.a, hash, act.channel, act.messages);
    } else {
      CloseStep(s.a, hash, act.channel);
    }
  }

  lemma EventMove(s: Session, hash: Bytes, step: Step)
    requires SessionOk(s, hash) && Allowed(s.a, EventAct(step))
    ensures var r := ActByA(s, EventAct(step)); r.1.None? && SessionOk(r.0, hash)
  {
    SessionGood(s, hash);
    hide PeerOk, Agree, ViewOf, Allowed, Take;
    EventStep(s.a, hash, step);
  }

  lemma DropMove(s: Session, hash: Bytes, inbox: nat)
    requires SessionOk(s, hash)
    ensures var r := ActByA(s, DropAct(inbox)); r.1.None? && SessionOk(r.0, hash)
  {
    SessionGood(s, hash);
    hide PeerOk, Agree, ViewOf, Take;
    DropStep(s.a, hash, inbox);
  }

  /** How the next delivery to `a`, or a move, is bound to end: it fails only on a message for a dropped receiver. */
  function ExpectedByA(s: Session): Option<Problem> {
    if s.heardByA < |s.b.p.outbox| then Reception(s.a.p.table, s.b.p.outbox[s.heardByA]) else None
  }

  function Expected(s: Session, m: Move): Option<Problem> {
    if m.Own? then None else ExpectedByA(if m.byA then s else s.Swap())
  }

  /** A message that `a` is about to receive, and that is neither Open nor Close. */
  predicate OrdinaryNext(s: Session) {
    s.heardByA < |s.b.p.outbox| && !s.b.p.outbox[s.heardByA].message.IsControl()
  }

  lemma ReceiveMove(s: Session, hash: Bytes)
    requires SessionOk(s, hash)
    ensures var r := ReceiveByA(s);
            && r.1 == ExpectedByA(s) && SessionOk(r.0, hash)
            && (OrdinaryNext(s) ==>
                  OnlyOwnInbox(s.a.p.table, r.0.a.p.table, s.b.p.outbox[s.heardByA].message, s.b.tags[s.heardByA]))
  {
    hide Agree, Perform, ViewOf, Sound, Exact, HandlesOk, ChannelsOk, PendingOk, Proves, OnlyOwnInbox, Reception;
    if s.heardByA < |s.b.p.outbox| {
      var m, tag := s.b.p.outbox[s.heardByA], s.b.tags[s.heardByA];
      var v, w, ab, ba := ViewOf(s.a.p.table), ViewOf(s.b.p.table), Link(s.a, s.heardByB), Link(s.b, s.heardByA);
      assert ba[0] == SignalOf(m, tag);
      assert ba[1..] == Link(s.b, s.heardByA + 1);
      Symmetry(v, w, ab, ba);
      ReceiveAgrees(w, v, ba, ab);
      Symmetry(Hear(v, ba[0]), w, ab, ba[1..]);
      assert OpenOk(s.b.p, hash, m);
      ReceiveStep(s.a, hash, m, tag);
    }
  }

  lemma ReceiveStep(q: Peer, hash: Bytes, m: ChannelMessage, tag: Key)
    requires PeerOk(q, hash) && Fits(ViewOf(q.p.table), SignalOf(m, tag))
    requires m.message.Open? ==>
               && |m.message.open.discoveryKey| == 32
               && Proves(q.p.crypto, !q.p.initiator, hash, m.message.open.discoveryKey, m.message.open.capability)
    ensures var r := Perform(q, ReceiveAct(m));
            && r.problem == Reception(q.p.table, m) && (r.problem.Some? ==> r.peer == q)
            && PeerOk(r.peer, hash) && E.SamePeer(q.p, r.peer.p)
            && ViewOf(r.peer.p.table) == Hear(ViewOf(q.p.table), SignalOf(m, tag))
            && r.peer.p.outbox == q.p.outbox && r.peer.tags == q.tags
            && (!m.message.IsControl() ==> OnlyOwnInbox(q.p.table, r.peer.p.table, m.message, tag))
  {
    hide PeerOk, Perform, ViewOf, Proves, Fits, Hear, OnlyOwnInbox;
    if m.message.Open? {
      ReceiveOpenStep(q, hash, m, tag);
    } else if m.message.Close? {
      ReceiveCloseStep(q, hash, m, tag);
    } else {
      ReceiveOtherStep(q, hash, m, tag);
    }
  }

  lemma MoveByAKeeps(s: Session, hash: Bytes, m: Move)
    requires SessionOk(s, hash)
    requires m.Own? ==> !m.act.ReceiveAct? && Allowed(s.a, m.act)
    ensures var r := MoveByA(s, m); r.1 == (if m.Own? then None else ExpectedByA(s)) && SessionOk(r.0, hash)
  {
    hide SessionOk, ActByA, ReceiveByA, Allowed, ExpectedByA;
    if m.Receive? {
      ReceiveMove(s, hash);
    } else {
      match m.act
      case OpenAct(key) => OpenMove(s, hash, key);
      case FlushAct => FlushMove(s, hash);
      case SendAct(_, _) => ChannelMove(s, hash, m.act);
      case CloseAct(_) => ChannelMove(s, hash, m.act);
      case EventAct(step) => EventMove(s, hash, step);
      case DropAct(inbox) => DropMove(s, hash, inbox);
      case ReceiveAct(_) =>
    }
  }

  lemma SessionGood(s: Session, hash: Bytes)
    requires SessionOk(s, hash)
    ensures s.a.p.Good() && s.b.p.Good()
    ensures |s.a.tags| == |s.a.p.outbox| && |s.b.tags| == |s.b.p.outbox|
  {
  }

  /** Every permitted move keeps the session in order, and fails if and only if it delivers to a dropped receiver. */
  lemma MoveKeeps(s: Session, hash: Bytes, m: Move)
    requires SessionOk(s, hash) && Permitted(s, m)
    ensures var r := MakeMove(s, m); r.1 == Expected(s, m) && SessionOk(r.0, hash)
  {
    SessionGood(s, hash);
    hide SessionOk, MoveByA, Allowed, ExpectedByA;
    if m.byA {
      MoveByAKeeps(s, hash, m);
    } else {
      SwapOk(s, hash);
      MoveByAKeeps(s.Swap(), hash, m);
      SwapOk(MoveByA(s.Swap(), m).0, hash);
    }
  }

  //
  // Whole sessions
  //

  /** A fresh connection after its handshake. */
  function Connect(crypto: Crypto, hash: Bytes, keyOfA: Key, keyOfB: Key): (s: Session)
    ensures s.a.p.Good() && s.b.p.Good()
  {
    Session(
      Peer(Start(crypto, true).(hash := Some(hash), remoteKey := Some(keyOfB)), [], []),
      Peer(Start(crypto, false).(hash := Some(hash), remoteKey := Some(keyOfA)), [], []),
      0, 0)
  }

  lemma ConnectOk(crypto: Crypto, hash: Bytes, keyOfA: Key, keyOfB: Key)
    requires crypto.Injective()
    ensures SessionOk(Connect(crypto, hash, keyOfA, keyOfB), hash)
  {
    var s := Connect(crypto, hash, keyOfA, keyOfB);
    assert ViewOf(s.a.p.table) == View(map[], map[]);
    assert Link(s.a, 0) == [];
    assert Link(s.b, 0) == [];
  }

  function Play(s: Session, moves: seq<Move>): (r: Session)
    requires s.a.p.Good() && s.b.p.Good()
    ensures r.a.p.Good() && r.b.p.Good()
    decreases |moves|
  {
    if moves == [] then s else MakeMove(Play(s, moves[..|moves| - 1]), moves[|moves| - 1]).0
  }

  /** Every move of the list is permitted where it is made. */
  ghost predicate AllPermitted(s: Session, moves: seq<Move>)
    requires s.a.p.Good() && s.b.p.Good()
    decreases |moves|
  {
    moves != [] ==>
      && AllPermitted(s, moves[..|moves| - 1])
      && Permitted(Play(s, moves[..|moves| - 1]), moves[|moves| - 1])
  }

  /** The first failure among the moves, if any. */
  function FirstProblem(s: Session, moves: seq<Move>): Option<Problem>
    requires s.a.p.Good() && s.b.p.Good()
    decreases |moves|
  {
    if moves == [] then None
    else
      var earlier := FirstProblem(s, moves[..|moves| - 1]);
      if earlier.Some? then earlier else MakeMove(Play(s, moves[..|moves| - 1]), moves[|moves| - 1]).1
  }

  /** No move of the list delivers a message to a dropped receiver. */
  predicate AllHeard(s: Session, moves: seq<Move>)
    requires s.a.p.Good() && s.b.p.Good()
    decreases |moves|
  {
    moves != [] ==>
      && AllHeard(s, moves[..|moves| - 1])
      && Expected(Play(s, moves[..|moves| - 1]), moves[|moves| - 1]).None?
  }

  /** A message for a dropped receiver is the only trouble. */
  predicate OnlyReceiverGone(problem: Option<Problem>) { problem.Some? ==> problem == Some(TableProblem(ReceiverGone)) }

  /**
   Between well-behaved users the session stays in order, in any order of steps and deliveries and with any
   receivers dropped, as long as every message sent is handed over; and no step of either side fails if and
   only if no message is delivered to a receiver that has been dropped.
   */
  lemma {:induction false} SessionSafety(s: Session, hash: Bytes, moves: seq<Move>)
    requires SessionOk(s, hash) && AllPermitted(s, moves)
    ensures SessionOk(Play(s, moves), hash)
    ensures OnlyReceiverGone(FirstProblem(s, moves))
    ensures FirstProblem(s, moves).None? <==> AllHeard(s, moves)
    decreases |moves|
  {
    SessionGood(s, hash);
    hide SessionOk, MakeMove, Permitted, Reception;
    if moves == [] {
    } else {
      var n := |moves| - 1;
      SessionSafety(s, hash, moves[..n]);
      MoveKeeps(Play(s, moves[..n]), hash, moves[n]);
      ReceptionIs(Play(s, moves[..n]), moves[n]);
    }
  }

  lemma ReceptionIs(s: Session, m: Move)
    ensures OnlyReceiverGone(Expected(s, m))
  {
    hide Deaf;
  }

  /** No user drops a receiver. */
  predicate NoDrops(moves: seq<Move>) {
    forall i | 0 <= i < |moves| :: !(moves[i].Own? && moves[i].act.DropAct?)
  }

  predicate BothReceiving(s: Session) { L.AllReceiving(s.a.p.table) && L.AllReceiving(s.b.p.table) }

  lemma PerformKeepsReceiving(q: Peer, act: Act)
    requires q.p.Good() && L.AllReceiving(q.p.table) && !act.DropAct? && (act.EventAct? ==> !act.step.DropQueue?)
    ensures L.AllReceiving(Perform(q, act).peer.p.table)
  {
    hide Take, Sound, L.AllReceiving;
    match act
    case OpenAct(key) => L.StepKeepsReceiving(q.p, Execute(OpenKey(key)));
    case SendAct(_, _) =>
    case CloseAct(c) => L.StepKeepsReceiving(q.p, ShutFlag(c.cell));
    case FlushAct => if q.pending != [] { L.StepKeepsReceiving(q.p, Outbound(q.pending[0].messages)); }
    case ReceiveAct(m) => L.StepKeepsReceiving(q.p, Inbound(m));
    case EventAct(step) => L.StepKeepsReceiving(q.p, step);
  }

  lemma MoveKeepsReceiving(s: Session, m: Move)
    requires s.a.p.Good() && s.b.p.Good() && BothReceiving(s) && Permitted(s, m) && !(m.Own? && m.act.DropAct?)
    ensures BothReceiving(MakeMove(s, m).0)
  {
    hide Perform, Sound, L.AllReceiving;
    var q := if m.byA then s.a else s.b;
    if m.Own? {
      PerformKeepsReceiving(q, m.act);
    } else {
      var (sent, heard) := if m.byA then (s.b.p.outbox, s.heardByA) else (s.a.p.outbox, s.heardByB);
      if heard < |sent| {
        PerformKeepsReceiving(q, ReceiveAct(sent[heard]));
      }
    }
  }

  /** While no user drops a receiver no step of either side ever fails. */
  lemma {:induction false} NoDropsNeverFails(s: Session, hash: Bytes, moves: seq<Move>)
    requires SessionOk(s, hash) && AllPermitted(s, moves) && BothReceiving(s) && NoDrops(moves)
    ensures FirstProblem(s, moves).None? && BothReceiving(Play(s, moves))
    decreases |moves|
  {
    SessionGood(s, hash);
    SessionSafety(s, hash, moves);
    hide SessionOk, MakeMove, Permitted, BothReceiving, Expected;
    if moves == [] {
    } else {
      var n := |moves| - 1;
      NoDropsNeverFails(s, hash, moves[..n]);
      SessionSafety(s, hash, moves[..n]);
      MoveKeepsReceiving(Play(s, moves[..n]), moves[n]);
      NobodyDeaf(Play(s, moves[..n]), moves[n]);
    }
  }

  lemma NobodyDeaf(s: Session, m: Move)
    requires BothReceiving(s)
    ensures Expected(s, m).None?
  {
  }

  /** `remote` has key `dk` under remote id `i` exactly when `local` has it under local id `i`. */
  ghost predicate SameIds(local: Table, remote: Table) {
    forall i: nat, dk: Key ::
      (i < |local.localIds| && local.localIds[i] == Some(dk)) <==> (i < |remote.remoteIds| && remote.remoteIds[i] == Some(dk))
  }

  lemma EqualIndexes(local: Table, remote: Table)
    requires Index(local.localIds) == Index(remote.remoteIds)
    ensures SameIds(local, remote)
  {
    forall i: nat, dk: Key
      ensures (i < |local.localIds| && local.localIds[i] == Some(dk)) <==> (i < |remote.remoteIds| && remote.remoteIds[i] == Some(dk))
    {
      IndexAt(local.localIds, i);
      IndexAt(remote.remoteIds, i);
    }
  }

  /**
   After any session on a fresh connection, with any ids reused and any channels closed by either side
   or by both at once: when nothing is in flight the two tables agree in both directions.
   */
  lemma TablesAgree(crypto: Crypto, hash: Bytes, keyOfA: Key, keyOfB: Key, moves: seq<Move>)
    requires crypto.Injective() && AllPermitted(Connect(crypto, hash, keyOfA, keyOfB), moves)
    ensures var s := Play(Connect(crypto, hash, keyOfA, keyOfB), moves);
            s.heardByB == |s.a.p.outbox| && s.heardByA == |s.b.p.outbox| ==>
              SameIds(s.a.p.table, s.b.p.table) && SameIds(s.b.p.table, s.a.p.table)
  {
    hide AllPermitted, Play;
    ConnectOk(crypto, hash, keyOfA, keyOfB);
    SessionSafety(Connect(crypto, hash, keyOfA, keyOfB), hash, moves);
    var s := Play(Connect(crypto, hash, keyOfA, keyOfB), moves);
    if s.heardByB == |s.a.p.outbox| && s.heardByA == |s.b.p.outbox| {
      IdleTablesAgree(s, hash);
    }
  }

  lemma IdleTablesAgree(s: Session, hash: Bytes)
    requires SessionOk(s, hash) && s.heardByB == |s.a.p.outbox| && s.heardByA == |s.b.p.outbox|
    ensures SameIds(s.a.p.table, s.b.p.table) && SameIds(s.b.p.table, s.a.p.table)
  {
    assert Link(s.a, s.heardByB) == [] && Link(s.b, s.heardByA) == [];
    EqualIndexes(s.a.p.table, s.b.p.table);
    EqualIndexes(s.b.p.table, s.a.p.table);
  }

  /**
   At any time: when the messages in flight to `b` are replayed on the remote ids of `b`, an id leads to
   a key only if `a` has that key under that local id.
   */
  lemma ReplayIsLocal(crypto: Crypto, hash: Bytes, keyOfA: Key, keyOfB: Key, moves: seq<Move>, i: nat)
    requires crypto.Injective() && AllPermitted(Connect(crypto, hash, keyOfA, keyOfB), moves)
    ensures var s := Play(Connect(crypto, hash, keyOfA, keyOfB), moves);
            s.heardByB <= |s.a.p.outbox| && |s.a.tags| == |s.a.p.outbox|
            && var replayed := Drain(ViewOf(s.b.p.table), Link(s.a, s.heardByB)).r;
               i in replayed ==> i < |s.a.p.table.localIds| && s.a.p.table.localIds[i] == Some(replayed[i])
  {
    hide AllPermitted, Play;
    ConnectOk(crypto, hash, keyOfA, keyOfB);
    SessionSafety(Connect(crypto, hash, keyOfA, keyOfB), hash, moves);
    var s := Play(Connect(crypto, hash, keyOfA, keyOfB), moves);
    DrainProper(ViewOf(s.a.p.table), Link(s.b, s.heardByA));
    IndexAt(s.a.p.table.localIds, i);
  }

  /**
   At any time: a message received on a channel was sent by the peer on a channel of the same key, however
   often its id has been used for other keys before or since; other inboxes do not change. It is refused if
   and only if the receiver of that channel has been dropped.
   */
  lemma Isolation(crypto: Crypto, hash: Bytes, keyOfA: Key, keyOfB: Key, moves: seq<Move>, byA: bool)
    requires crypto.Injective() && AllPermitted(Connect(crypto, hash, keyOfA, keyOfB), moves)
    ensures var played := Play(Connect(crypto, hash, keyOfA, keyOfB), moves);
            var s := if byA then played else played.Swap();
            && |s.b.tags| == |s.b.p.outbox|
            && (OrdinaryNext(s) ==>
                  && ReceiveByA(s).1 == Reception(s.a.p.table, s.b.p.outbox[s.heardByA])
                  && OnlyOwnInbox(s.a.p.table, ReceiveByA(s).0.a.p.table,
                                  s.b.p.outbox[s.heardByA].message, s.b.tags[s.heardByA]))
  {
    hide AllPermitted, Play, SessionOk, ReceiveByA, OnlyOwnInbox;
    ConnectOk(crypto, hash, keyOfA, keyOfB);
    SessionSafety(Connect(crypto, hash, keyOfA, keyOfB), hash, moves);
    var played := Play(Connect(crypto, hash, keyOfA, keyOfB), moves);
    SwapOk(played, hash);
    var s := if byA then played else played.Swap();
    SessionGood(s, hash);
    ReceiveMove(s, hash);
  }

  //
  // What the discipline is for
  //

  /**
   Closing by discovery key sends nothing. From a session in order it leaves the tables bound to agree
   if and only if there was nothing to close, or the key was open here and a Close for the peer's channel
   is in flight: for the remote id the key has, or behind an Open that is going to give it one.
   */
  lemma CommandCloseExactly(s: Session, hash: Bytes, dk: Key)
    requires SessionOk(s, hash)
    ensures var t, ba := s.a.p.table, Link(s.b, s.heardByA);
            Mirror(Drain(ViewOf(CommandClose(s.a.p, dk).table), ba), Drain(ViewOf(s.b.p.table), Link(s.a, s.heardByB)))
            <==>
            || dk !in t.channels
            || (LocallyAttached(t, dk)
                && if RemotelyAttached(t, dk) then Ended(t.channels[dk].remote.value.remoteId) in ba else EndsLater(ba, dk))
  {
    hide Agree, Drain, Without, HandlesOk, ChannelsOk, PendingOk, OutboxOk, EndsLater;
    var t := s.a.p.table;
    var v, w, ab, ba := ViewOf(t), ViewOf(s.b.p.table), Link(s.a, s.heardByB), Link(s.b, s.heardByA);
    SilentCloseExactly(v, w, ab, ba, dk);
    ViewValues(t, dk);
    if dk in t.channels {
      assert HandleSound(t, dk);
      ViewRemove(t, dk);
      if RemotelyAttached(t, dk) {
        RemoteIdOf(t, dk);
      }
    } else {
      AbsentKey(v.l, dk);
      AbsentKey(v.r, dk);
    }
  }

  lemma RemoteIdOf(t: Table, dk: Key)
    requires Sound(t) && Exact(t) && RemotelyAttached(t, dk)
    ensures forall j :: j in ViewOf(t).r && ViewOf(t).r[j] == dk <==> j == t.channels[dk].remote.value.remoteId
  {
  }

  /**
   Handling an outbound Close, whoever sent it: the tables stay bound to agree if and only if its id is
   free, or its channel is connected, or no Open for its key is in flight that no Close follows. The
   exception is reached when a Close is still pending while its id is given to another key.
   */
  lemma OutboundCloseExactly(s: Session, hash: Bytes, m: ChannelMessage)
    requires SessionOk(s, hash) && m.message.Close?
    ensures var p := OnOutbound(s.a.p, [m]);
            var v, ba := ViewOf(s.a.p.table), Link(s.b, s.heardByA);
            && p.outbox == s.a.p.outbox + [m]
            && (Mirror(Drain(ViewOf(p.table), ba), Drain(ViewOf(s.b.p.table), Link(s.a, s.heardByB) + [Ended(m.channel)]))
                <==>
                || m.channel !in v.l
                || v.l[m.channel] in v.r.Values
                || !OpensLater(ba, v.l[m.channel])
                || EndsLater(ba, v.l[m.channel]))
  {
    hide Drain, Without, HandlesOk, ChannelsOk, PendingOk, OutboxOk, Remove, Exact, HandleSound, InTable,
         OpensLater, EndsLater;
    var t, i := s.a.p.table, m.channel;
    var v, w, ab, ba := ViewOf(t), ViewOf(s.b.p.table), Link(s.a, s.heardByB), Link(s.b, s.heardByA);
    LoneClose(s.a.p, [m]);
    LocalInView(t, i);
    if i in v.l {
      ChannelTheorems.OwnKey(t, i);
      ViewRemove(t, v.l[i]);
      if v.l[i] in v.r.Values {
        CloseAgrees(v, w, ab, ba, i);
      } else {
        HalfCloseExactly(v, w, ab, ba, i);
      }
    } else {
      StaleCloseAgrees(v, w, ab, ba, i);
    }
  }

  /**
   Handling a pending Close of a channel with key `dk`, in any state: no other key is closed by it if and
   only if its id is free, or leads to `dk`, or leads to a key that is gone.
   */
  lemma StaleCloseExactly(p: Proto, dk: Key, m: ChannelMessage)
    requires p.Good() && m.message.Close?
    ensures var t, id := p.table, m.channel;
            (forall k | k in t.channels && k != dk :: k in OnOutbound(p, [m]).table.channels)
            <==> (id < |t.localIds| && t.localIds[id].Some? ==>
                    t.localIds[id] == Some(dk) || t.localIds[id].value !in t.channels)
  {
    hide HandleSound, InTable, OnOutbound;
    LoneClose(p, [m]);
    ChannelTheorems.OwnKey(p.table, m.channel);
  }
}
