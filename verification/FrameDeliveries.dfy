/** What arrives when sessions exchange encoded frames: nothing is lost exactly if every frame is readable and heard. */
module FrameDeliveries {
  import opened Compact
  import opened Handshake
  import opened Messages
  import opened Framing
  import opened FrameTheorems
  import opened MessageQueue
  import opened Channels
  import opened ProtocolModel
  import opened Peers
  import opened FrameSessions
  import opened Deliveries
  import S = Sessions

  //
  // Moves
  //

  lemma ActDelivers(s: Schema, f: FrameSession, hash: Bytes, act: Act)
    requires FrameOk(s, f, hash) && f.a.p.Good() && f.b.p.Good() && BothComplete(Whole(f))
    requires !act.ReceiveAct? && Allowed(f.a, act) && Writable(s, f.a, act)
    ensures BothComplete(Whole(ActByA(f, act).0))
  {
    FrameGood(s, f, hash);
    hide S.SessionOk, Sends, PipeOk, PeerOk, Perform, Allowed, Writable, Had, Since, BothComplete;
    ActKeepsComplete(Whole(f), hash, act);
    ActSends(s, f.a, hash, act);
    PipeGrows(s, f.a, Perform(f.a, act).peer, f.toB);
  }

  /** Messages that are all handled, one after the other. */
  lemma {:induction false} HandleDelivers(ss: S.Session, hash: Bytes, ms: seq<ChannelMessage>)
    requires S.SessionOk(ss, hash) && BothComplete(ss) && ss.a.p.Good() && ss.b.p.Good()
    requires ss.heardByA <= |ss.b.p.outbox| && ms <= ss.b.p.outbox[ss.heardByA..] && HandleAll(ss.a, ms).problem.None?
    ensures BothComplete(ss.(a := HandleAll(ss.a, ms).peer, heardByA := ss.heardByA + |ms|))
    decreases |ms|
  {
    hide S.SessionOk, Perform, Sound, BothComplete, OnlyOwnInbox, S.ExpectedByA;
    if ms == [] {
      assert ss.(a := ss.a, heardByA := ss.heardByA + 0) == ss;
    } else {
      assert ms[0] == ss.b.p.outbox[ss.heardByA..][0];
      S.ReceiveMove(ss, hash);
      ReceiveKeepsComplete(ss, hash);
      var next := S.ReceiveByA(ss).0;
      assert next.b.p.outbox[next.heardByA..] == ss.b.p.outbox[ss.heardByA..][1..];
      HandleDelivers(next, hash, ms[1..]);
    }
  }

  /** Every message of the buffer that a move takes in is handled. */
  predicate HandledMove(s: Schema, v: Variant, f: FrameSession, m: Move) {
    Next(f, m) != [] ==>
      var ms, t := Next(f, m)[0].messages, (if m.byA then f.a else f.b).p.table;
      AllSendable(s, ms) && ms != [] && Handled(s, v, t, ms) == |ms|
  }

  lemma TakeDelivers(s: Schema, v: Variant, f: FrameSession, hash: Bytes)
    requires FrameOk(s, f, hash) && f.a.p.Good() && f.b.p.Good() && BothComplete(Whole(f))
    requires f.toA.packets != [] && HandledMove(s, v, f, Taking(true))
    ensures BothComplete(Whole(TakeByA(s, v, f).0))
  {
    hide S.SessionOk, PipeOk, Sends, Sound, HandleAll, Had, Handled, TakeByA, BothComplete, EndsAsExpected, PacketOk, AllSendable;
    var ms := f.toA.packets[0].messages;
    TakeKeeps(s, v, f, hash);
    assert ms[..|ms|] == ms;
    PipeShrinks(s, f.b, f.toA);
    FirstPart(f.b.p.outbox, Had(f.b, f.toA), ms, |ms|);
    HandleDelivers(Whole(f), hash, ms);
    TakenWhole(s, v, f, hash);
  }

  /** The session behind a frame session after a buffer is taken in. */
  lemma TakenWhole(s: Schema, v: Variant, f: FrameSession, hash: Bytes)
    requires FrameOk(s, f, hash) && f.a.p.Good() && f.b.p.Good() && f.toA.packets != []
    ensures var r, n := TakeByA(s, v, f).0, Had(f.b, f.toA);
            Whole(r) == Whole(f).(a := r.a, heardByA := n + |f.toA.packets[0].messages|)
  {
    hide S.SessionOk, PipeOk, Sends, Sound, HandleAll, Had, DecodeAll;
    PipeShrinks(s, f.b, f.toA);
    SameOutbox(s, v, f, hash);
    SamePipe(s, f.a, TakeByA(s, v, f).0.a, f.toB);
  }

  lemma SameOutbox(s: Schema, v: Variant, f: FrameSession, hash: Bytes)
    requires FrameOk(s, f, hash) && f.a.p.Good() && f.b.p.Good() && f.toA.packets != []
    ensures TakeByA(s, v, f).0.a.p.outbox == f.a.p.outbox
  {
    hide S.SessionOk, PipeOk, Sends, Sound, HandleAll, Had, Handled, HandedOver, TakeByA, EndsAsExpected, PacketOk, AllSendable;
    TakeKeeps(s, v, f, hash);
    HandedFine(s, v, f, hash);
  }

  lemma MoveByADelivers(s: Schema, v: Variant, f: FrameSession, hash: Bytes, m: Move)
    requires FrameOk(s, f, hash) && f.a.p.Good() && f.b.p.Good() && m.byA && Permitted(s, f, m)
    requires BothComplete(Whole(f)) && HandledMove(s, v, f, m)
    ensures BothComplete(Whole(MoveByA(s, v, f, m).0))
  {
    hide FrameOk, Sound, Allowed, Writable, ActByA, SendByA, TakeByA, BothComplete, Whole, HandledMove;
    match m {
      case Acting(_, act) => ActDelivers(s, f, hash, act);
      case Sending(_) => SendKeeps(s, f, hash);
      case Taking(_) =>
        if f.toA.packets != [] {
          TakeDelivers(s, v, f, hash);
        } else {
          assert TakeByA(s, v, f).0 == f by { NothingToTake(s, v, f); }
        }
    }
  }

  lemma NothingToTake(s: Schema, v: Variant, f: FrameSession)
    requires f.a.p.Good() && f.b.p.Good() && f.toA.packets == []
    ensures TakeByA(s, v, f).0 == f
  {
  }

  lemma MoveDelivers(s: Schema, v: Variant, f: FrameSession, hash: Bytes, m: Move)
    requires FrameOk(s, f, hash) && f.a.p.Good() && f.b.p.Good() && Permitted(s, f, m)
    requires BothComplete(Whole(f)) && HandledMove(s, v, f, m)
    ensures BothComplete(Whole(MakeMove(s, v, f, m).0))
  {
    hide FrameOk, Sound, Allowed, Writable, MoveByA, BothComplete, Handled;
    if m.byA {
      MoveByADelivers(s, v, f, hash, m);
    } else {
      var n, g := m.(byA := true), f.Swap();
      SwapOk(s, f, hash);
      SwapComplete(Whole(f));
      assert Whole(g) == Whole(f).Swap();
      MoveByADelivers(s, v, g, hash, n);
      SameMove(s, v, g, m, n);
      var r := MoveByA(s, v, g, m).0;
      SwapComplete(Whole(r));
      assert Whole(r.Swap()) == Whole(r).Swap();
    }
  }

  //
  // Runs
  //

  predicate AllHandled(s: Schema, v: Variant, f: FrameSession, moves: seq<Move>)
    requires f.a.p.Good() && f.b.p.Good()
    decreases |moves|
  {
    moves != [] ==>
      && AllHandled(s, v, f, moves[..|moves| - 1])
      && HandledMove(s, v, Play(s, v, f, moves[..|moves| - 1]), moves[|moves| - 1])
  }

  lemma {:induction false} FramesDeliver(s: Schema, v: Variant, f: FrameSession, hash: Bytes, moves: seq<Move>)
    requires FrameOk(s, f, hash) && f.a.p.Good() && f.b.p.Good() && AllPermitted(s, v, f, moves)
    requires BothComplete(Whole(f)) && AllHandled(s, v, f, moves)
    ensures BothComplete(Whole(Play(s, v, f, moves)))
    decreases |moves|
  {
    hide FrameOk, Sound, MakeMove, Permitted, HandledMove, BothComplete, Whole;
    if moves == [] {
    } else {
      var n := |moves| - 1;
      FramesDeliver(s, v, f, hash, moves[..n]);
      FrameSafety(s, v, f, hash, moves[..n]);
      MoveDelivers(s, v, Play(s, v, f, moves[..n]), hash, moves[n]);
    }
  }

  /** The inboxes of both sides, followed by what is in flight, are what the other side sent. */
  ghost predicate BothDelivered(f: FrameSession) {
    var ss := Whole(f);
    && AllDelivered(ss.a.p.table, ss.b.p.outbox, ss.b.tags, ss.heardByA)
    && AllDelivered(ss.b.p.table, ss.a.p.outbox, ss.a.tags, ss.heardByB)
  }

  /**
   Delivery over whole sessions of encoded frames. At any time of any session on a fresh connection in which
   every message of every buffer taken in was handled: for every connected key of either side whose receiver
   has not been dropped, its inbox followed by the messages in flight on its id is everything the peer
   sent on its channel of that key since its Open, in order.
   */
  lemma FrameDelivery(s: Schema, v: Variant, crypto: Crypto, hash: Bytes, keyOfA: Key, keyOfB: Key, moves: seq<Move>)
    requires s.Valid() && s.utf8(PROTOCOL_NAME) && crypto.Injective()
    requires var f := Connect(crypto, hash, keyOfA, keyOfB); AllPermitted(s, v, f, moves) && AllHandled(s, v, f, moves)
    ensures BothDelivered(Play(s, v, Connect(crypto, hash, keyOfA, keyOfB), moves))
  {
    var f := Connect(crypto, hash, keyOfA, keyOfB);
    assert Whole(f) == S.Connect(crypto, hash, keyOfA, keyOfB);
    hide AllPermitted, AllHandled, Play, Connect, Sound, S.SessionOk, PipeOk, Sends, Complete, AllDelivered, Had;
    ConnectOk(s, crypto, hash, keyOfA, keyOfB);
    FreshComplete(crypto, hash, keyOfA, keyOfB);
    FrameSafety(s, v, f, hash, moves);
    FramesDeliver(s, v, f, hash, moves);
    var ss := Whole(Play(s, v, f, moves));
    CompleteDelivers(ss, hash);
    S.SwapOk(ss, hash);
    CompleteDelivers(ss.Swap(), hash);
  }

  //
  // When every message is handled
  //

  lemma HandledIs(s: Schema, v: Variant, t: Table, ms: seq<ChannelMessage>)
    requires AllSendable(s, ms) && ms != []
    ensures Handled(s, v, t, ms) == |ms| <==>
            (v.SeparatorSkipped? || SingleChannel(ms)) && forall i | 0 <= i < |ms| :: !Deaf(t, ms[i])
  {
    hide AllSendable, Deaf, Garbled, SingleChannel;
    if HandedOver(s, v, ms) == |ms| {
      assert ms[..|ms|] == ms;
    }
  }

  lemma HandledMoveIs(s: Schema, v: Variant, f: FrameSession, hash: Bytes, m: Move)
    requires FrameOk(s, f, hash)
    ensures HandledMove(s, v, f, m) <==> (v.SeparatorSkipped? || ReadableMove(f, m)) && HeardMove(s, v, f, m)
  {
    hide S.SessionOk, Sends, InFlight, Had, IsFrame, AllSendable, Wire, SingleChannel, OpenLongEnough, Garbled, Handled, Deaf;
    if Next(f, m) != [] {
      var packet := Next(f, m)[0];
      var ms := packet.messages;
      assert PacketOk(s, packet);
      FrameNonempty(s, ms);
      NextIsLong(s, f, hash, m);
      HandledIs(s, v, (if m.byA then f.a else f.b).p.table, ms);
      assert Lists([packet]) == [ms] && [ms][0] == ms;
    }
  }

  lemma NextIsLong(s: Schema, f: FrameSession, hash: Bytes, m: Move)
    requires FrameOk(s, f, hash) && Next(f, m) != [] && Next(f, m)[0].messages != []
    ensures OpenLongEnough(Next(f, m)[0].messages[0].message)
  {
    hide FrameOk, OpenLongEnough;
    if m.byA {
      NextOpenIsLong(s, f, hash);
    } else {
      SwapOk(s, f, hash);
      NextOpenIsLong(s, f.Swap(), hash);
    }
  }

  /**
   Over any session: every message of every buffer taken in is handled if and only if no frame is misread,
   that is, the decoder skips separators or every frame is readable, and no message is for a dropped
   receiver; and then nothing fails.
   */
  lemma {:induction false} HandledExactly(s: Schema, v: Variant, f: FrameSession, hash: Bytes, moves: seq<Move>)
    requires FrameOk(s, f, hash) && f.a.p.Good() && f.b.p.Good() && AllPermitted(s, v, f, moves)
    ensures AllHandled(s, v, f, moves) <==>
            (v.SeparatorSkipped? || AllReadable(s, v, f, moves)) && AllHeard(s, v, f, moves)
    ensures AllHandled(s, v, f, moves) ==> FirstTrouble(s, v, f, moves).None?
    decreases |moves|
  {
    hide FrameOk, Sound, MakeMove, Permitted, HandledMove, ReadableMove, HeardMove, LegibleMove;
    FrameSafety(s, v, f, hash, moves);
    if moves == [] {
    } else {
      var n := |moves| - 1;
      var g := Play(s, v, f, moves[..n]);
      HandledExactly(s, v, f, hash, moves[..n]);
      FrameSafety(s, v, f, hash, moves[..n]);
      HandledMoveIs(s, v, g, hash, moves[n]);
      if v.SeparatorSkipped? {
        SkippingLegible(s, g, hash, moves[n]);
      } else {
        FaithfulExactly(s, g, hash, moves[n]);
      }
    }
  }
}
