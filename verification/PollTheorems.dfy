/**
 What polls do, seen from outside: in which order commands, messages and batches take effect, when a poll
 fails, and that reading buffers is what the two-endpoint theorems take it to be.
 */
module PollTheorems {
  import opened Wrappers
  import opened Compact
  import opened Handshake
  import opened Messages
  import opened Framing
  import opened FrameTheorems
  import opened MessageQueue
  import opened Channels
  import opened ProtocolModel
  import opened ChannelTheorems
  import opened Polls
  import opened Peers
  import E = EventTheorems
  import F = FrameSessions

  //
  // Commands
  //

  /** The first command is executed first. */
  lemma CommandsInOrder(p: Proto, c: Command, rest: seq<Command>)
    requires p.Good()
    ensures Run(p, CommandSteps([c] + rest)) == Run(OnCommand(p, c).p, CommandSteps(rest))
  {
    hide Sound, Run, OnCommand;
    assert CommandSteps([c] + rest) == [Execute(c)] + CommandSteps(rest);
    RunAppend(p, [Execute(c)], CommandSteps(rest));
    OneStep(p, Execute(c));
  }

  function OpenCommands(keys: seq<Key>): (r: seq<Command>)
    ensures |r| == |keys|
  {
    seq(|keys|, i requires 0 <= i < |keys| => OpenKey(keys[i]))
  }

  /** No two of the keys have the same discovery key. */
  ghost predicate Distinct(crypto: Crypto, keys: seq<Key>) {
    forall i, j | 0 <= i < j < |keys| :: crypto.discovery(keys[i]) != crypto.discovery(keys[j])
  }

  /** The vector of local ids after the keys were opened, and nothing else. */
  function Numbered(crypto: Crypto, keys: seq<Key>): (r: seq<Option<Key>>)
    ensures |r| == |keys| + 1 && r[0].None?
    ensures forall i | 0 <= i < |keys| :: r[i + 1] == Some(crypto.discovery(keys[i]))
  {
    [None] + seq(|keys|, i requires 0 <= i < |keys| => Some(crypto.discovery(keys[i])))
  }

  /** The Opens of the keys, in order, with ids from one on. */
  function Opens(p: Proto, keys: seq<Key>): (r: seq<ChannelMessage>)
    ensures |r| == |keys|
    ensures forall i | 0 <= i < |keys| :: r[i] == OpenMessage(p, i + 1, p.crypto.discovery(keys[i]), keys[i])
  {
    seq(|keys|, i requires 0 <= i < |keys| => OpenMessage(p, i + 1, p.crypto.discovery(keys[i]), keys[i]))
  }

  /** The state in which only the given keys have been opened. */
  ghost predicate Opened(p: Proto, r: Proto, keys: seq<Key>) {
    && E.SamePeer(p, r) && r.events == p.events && r.outbox == p.outbox + Opens(p, keys)
    && r.table.localIds == Numbered(p.crypto, keys)
    && (forall dk | dk in r.table.channels :: exists i :: 0 <= i < |keys| && p.crypto.discovery(keys[i]) == dk)
  }

  /**
   Commands take effect in the order in which they were given: on a protocol that has no channels yet, opening
   distinct keys gives them the ids from one on and sends their Opens, in the order of the commands.
   */
  lemma {:induction false} OpensInOrder(p: Proto, keys: seq<Key>)
    requires p.Good() && p.table == Empty() && Distinct(p.crypto, keys)
    ensures var all := CommandSteps(OpenCommands(keys));
            Attempt(p, all) == Tried(|keys|, None) && Opened(p, Run(p, all), keys)
    decreases |keys|
  {
    hide Take, Run, Attempt, Sound;
    var all := CommandSteps(OpenCommands(keys));
    if keys == [] {
      NoSteps(p);
      AttemptNone(p);
      assert p.outbox + Opens(p, []) == p.outbox;
    } else {
      var n := |keys| - 1;
      var front := CommandSteps(OpenCommands(keys[..n]));
      OpensInOrder(p, keys[..n]);
      assert all == front + [Execute(OpenKey(keys[n]))];
      var q := Run(p, front);
      OneMore(p, front, Execute(OpenKey(keys[n])));
      AttemptMore(p, front, Execute(OpenKey(keys[n])));
      OpenNext(p, q, keys);
    }
  }

  lemma OpenNext(p: Proto, q: Proto, keys: seq<Key>)
    requires q.Good() && keys != [] && Distinct(p.crypto, keys) && Opened(p, q, keys[..|keys| - 1])
    ensures var d := Take(q, Execute(OpenKey(keys[|keys| - 1]))); d.problem.None? && Opened(p, d.p, keys)
  {
    hide Sound, Take, OpenMessage;
    var n := |keys| - 1;
    var key, dk := keys[n], p.crypto.discovery(keys[n]);
    assert dk !in q.table.channels;
    OpenUnknown(q, key, n);
    var r := Take(q, Execute(OpenKey(key))).p;
    SameOpen(p, q, n + 1, dk, key);
    assert Opens(p, keys[..n]) + [OpenMessage(p, n + 1, dk, key)] == Opens(p, keys);
    assert Numbered(p.crypto, keys[..n]) + [Some(dk)] == Numbered(p.crypto, keys);
    forall d | d in r.table.channels ensures exists i :: 0 <= i < |keys| && p.crypto.discovery(keys[i]) == d {
      if d == dk {
        assert p.crypto.discovery(keys[n]) == d;
      } else {
        var i :| 0 <= i < n && p.crypto.discovery(keys[..n][i]) == d;
        assert keys[..n][i] == keys[i];
      }
    }
  }

  /** Opening a key that no channel has, when the first `n` ids are taken and no others exist. */
  lemma OpenUnknown(q: Proto, key: Key, n: nat)
    requires q.Good() && q.crypto.discovery(key) !in q.table.channels
    requires |q.table.localIds| == n + 1 && forall i | 1 <= i <= n :: q.table.localIds[i].Some?
    ensures var d, dk := Take(q, Execute(OpenKey(key))), q.crypto.discovery(key);
            && d.problem.None? && E.SamePeer(q, d.p) && d.p.events == q.events
            && d.p.outbox == q.outbox + [OpenMessage(q, n + 1, dk, key)]
            && d.p.table.localIds == q.table.localIds + [Some(dk)]
            && d.p.table.channels.Keys == q.table.channels.Keys + {dk}
  {
    hide Sound, AcceptChannel, CommandOpen, OpenInbox, OpenMessage;
    SlotIs(q.table, n);
    CommandOpenOutcome(q, key);
    assert q.events + [] == q.events;
  }

  /** With every slot taken the next id is one more. */
  lemma SlotIs(t: Table, n: nat)
    requires Sound(t) && |t.localIds| == n + 1 && forall i | 1 <= i <= n :: t.localIds[i].Some?
    ensures NextLocalId(t) == n + 1
  {
  }

  lemma SameOpen(p: Proto, q: Proto, id: nat, dk: Key, key: Key)
    requires E.SamePeer(p, q)
    ensures OpenMessage(q, id, dk, key) == OpenMessage(p, id, dk, key)
  {
  }

  function SignalCommands(signals: seq<(seq<byte>, seq<byte>)>): (r: seq<Command>)
    ensures |r| == |signals|
  {
    seq(|signals|, i requires 0 <= i < |signals| => SignalLocal(signals[i].0, signals[i].1))
  }

  /** Signals given as commands become events, in order, and change nothing else. */
  lemma {:induction false} CommandSignalsBecomeEvents(p: Proto, signals: seq<(seq<byte>, seq<byte>)>)
    requires p.Good()
    ensures var all := CommandSteps(SignalCommands(signals));
            var r := Run(p, all);
            && Attempt(p, all) == Tried(|signals|, None)
            && r == p.(events := r.events) && |r.events| == |p.events| + |signals| && p.events <= r.events
            && forall i | 0 <= i < |signals| :: r.events[|p.events| + i] == Signalled(signals[i].0, signals[i].1)
    decreases |signals|
  {
    hide Sound, Run, Attempt;
    var all := CommandSteps(SignalCommands(signals));
    if signals == [] {
      NoSteps(p);
      AttemptNone(p);
    } else {
      var n := |signals| - 1;
      var front, last := CommandSteps(SignalCommands(signals[..n])), Execute(SignalLocal(signals[n].0, signals[n].1));
      CommandSignalsBecomeEvents(p, signals[..n]);
      assert all == front + [last];
      OneMore(p, front, last);
      AttemptMore(p, front, last);
    }
  }

  //
  // Batches
  //

  /** Handling a batch does not depend on what is queued for sending. */
  lemma {:induction false} BatchIgnoresOutbox(p: Proto, ms: seq<ChannelMessage>, outbox: seq<ChannelMessage>)
    requires p.Good()
    ensures OnBatch(p.(outbox := outbox), ms) == OnBatch(p, ms).(outbox := outbox)
    decreases |ms|
  {
    hide Sound, Remove;
    if ms == [] {
    } else {
      BatchIgnoresOutbox(p, ms[..|ms| - 1], outbox);
    }
  }

  lemma {:induction false} BatchAppend(p: Proto, a: seq<ChannelMessage>, b: seq<ChannelMessage>)
    requires p.Good()
    ensures OnBatch(p, a + b) == OnBatch(OnBatch(p, a), b)
    decreases |b|
  {
    hide Sound, OnOutboundMessage;
    if b == [] {
      assert a + b == a;
    } else {
      var n := |b| - 1;
      BatchAppend(p, a, b[..n]);
      assert (a + b)[..|a + b| - 1] == a + b[..n] && (a + b)[|a + b| - 1] == b[n];
    }
  }

  lemma OutboundAppend(p: Proto, a: seq<ChannelMessage>, b: seq<ChannelMessage>)
    requires p.Good()
    ensures OnOutbound(p, a + b) == OnOutbound(OnOutbound(p, a), b)
  {
    hide Sound, OnBatch, Kept;
    BatchAppend(p, a, b);
    E.KeptIsFilter(a, b);
    var handled := OnBatch(p, a);
    BatchIgnoresOutbox(handled, b, handled.outbox + Kept(a));
    E.BatchSendsNothing(p, a);
    E.BatchSendsNothing(handled, b);
    E.BatchSendsNothing(p, a + b);
    assert (p.outbox + Kept(a)) + Kept(b) == p.outbox + (Kept(a) + Kept(b));
  }

  /** Batches are handled first in, first out: one after the other they have the effect of all their messages in order. */
  lemma {:induction false} BatchesInOrder(p: Proto, batches: seq<seq<ChannelMessage>>)
    requires p.Good()
    ensures Run(p, OutboundSteps(batches)) == OnOutbound(p, Flatten(batches))
    decreases |batches|
  {
    hide Sound, Run, OnOutbound;
    if batches == [] {
      NoSteps(p);
      NothingOut(p);
    } else {
      var n := |batches| - 1;
      var front, last := batches[..n], batches[n];
      BatchesInOrder(p, front);
      assert OutboundSteps(batches) == OutboundSteps(front) + [Outbound(last)];
      OneMore(p, OutboundSteps(front), Outbound(last));
      assert batches == front + [last];
      FlattenAppend(front, [last]);
      FlattenOne(last);
      OutboundAppend(p, Flatten(front), last);
    }
  }

  lemma NothingOut(p: Proto)
    requires p.Good()
    ensures OnOutbound(p, []) == p
  {
    assert p.outbox + [] == p.outbox;
  }

  //
  // The parts of a poll
  //

  /** The main part of a poll reads first, then executes commands, then handles batches. */
  lemma MainInOrder(s: Schema, p: Proto, main: Readiness)
    requires p.Good()
    ensures Run(p, MainSteps(s, main))
         == OnOutbound(Run(Run(p, StreamSteps(s, main.events)), CommandSteps(main.commands)), Flatten(main.batches))
  {
    hide Sound, Run, OnOutbound, StreamSteps;
    var reading, commands := StreamSteps(s, main.events), CommandSteps(main.commands);
    RunAppend(p, reading + commands, OutboundSteps(main.batches));
    RunAppend(p, reading, commands);
    BatchesInOrder(Run(Run(p, reading), commands), main.batches);
  }

  /** Only an initiator without a handshake hash does something before that: it handles batches, then reads. */
  lemma EarlyInOrder(s: Schema, p: Proto, early: Readiness)
    requires p.Good()
    ensures Begin(s, p, early) ==
            if p.initiator && p.hash.None? then Run(OnOutbound(p, Flatten(early.batches)), StreamSteps(s, early.events)) else p
  {
    hide Sound, Run, OnOutbound, StreamSteps;
    NoSteps(p);
    RunAppend(p, OutboundSteps(early.batches), StreamSteps(s, early.events));
    BatchesInOrder(p, early.batches);
  }

  /**
   What is there to return is returned first: the handshake event as soon as the remote key is known, and
   then the oldest event queued. Such a poll neither reads nor executes commands nor writes.
   */
  lemma QueuedFirst(s: Schema, p: Proto, q: seq<ChannelMessage>, early: Readiness, main: Readiness,
                    earlyTurns: seq<seq<Turn>>, turns: seq<seq<Turn>>)
    requires p.Good() && (p.initiator ==> p.hash.Some?)
    requires (!p.handshakeEmitted && p.remoteKey.Some?) || p.events != []
    ensures PollEnding(s, p, q, early, main, earlyTurns, turns) == Ending(0, false, q)
    ensures Poll(s, p, early, main) ==
            if !p.handshakeEmitted && p.remoteKey.Some? then
              var e := HandshakeDone(p.remoteKey.value);
              (p.(handshakeEmitted := true, emitted := p.emitted + [e]), Returned(e))
            else
              (p.(events := p.events[1..], emitted := p.emitted + [p.events[0]]), Returned(p.events[0]))
  {
    hide Sound, Run, MainSteps, StreamSteps, MainEnding;
    NoSteps(p);
  }

  /** Otherwise a poll works first, and returns the oldest event queued after that, if any. */
  lemma WorkFirst(s: Schema, p: Proto, early: Readiness, main: Readiness)
    requires p.Good() && (p.initiator ==> p.hash.Some?)
    requires (p.handshakeEmitted || p.remoteKey.None?) && p.events == []
    ensures var done := OnOutbound(Run(Run(p, StreamSteps(s, main.events)), CommandSteps(main.commands)), Flatten(main.batches));
            Poll(s, p, early, main) ==
            if done.events == [] then (done, Waiting)
            else (done.(events := done.events[1..], emitted := done.emitted + [done.events[0]]), Returned(done.events[0]))
  {
    hide Sound, Run, MainSteps, StreamSteps, OnOutbound;
    NoSteps(p);
    MainInOrder(s, p, main);
  }

  /** An initiator without a handshake hash writes and reads, and waits if it still has none. */
  lemma InitiatorWaits(s: Schema, p: Proto, early: Readiness, main: Readiness)
    requires p.Good() && p.initiator && p.hash.None?
    ensures var begun := Run(OnOutbound(p, Flatten(early.batches)), StreamSteps(s, early.events));
            begun.hash.None? ==> Poll(s, p, early, main) == (begun, Waiting)
  {
    hide Sound, Run, MainSteps, StreamSteps, OnOutbound;
    EarlyInOrder(s, p, early);
  }

  //
  // Reading
  //

  /** The last handshake payload of the stream, if any, is what is known afterwards. */
  lemma {:induction false} StreamLearns(s: Schema, p: Proto, events: seq<StreamEvent>, k: nat)
    requires p.Good() && !StreamBreaks(s, events) && k <= |events|
    requires forall i | k <= i < |events| :: !events[i].HandshakePayload?
    requires k > 0 ==> events[k - 1].HandshakePayload?
    ensures var r := Run(p, StreamSteps(s, events));
            && (k == 0 ==> r.hash == p.hash && r.remoteKey == p.remoteKey)
            && (k > 0 ==> r.hash == events[k - 1].hash && r.remoteKey == events[k - 1].remoteKey)
    decreases |events|
  {
    hide Sound, Run, Take, StreamBreaks, DecodeAll, Unreadable;
    if events == [] {
      NoSteps(p);
    } else {
      BreaksLater(s, events);
      var first, rest := events[0], events[1..];
      if first.HandshakePayload? {
        var q := p.(hash := first.hash, remoteKey := first.remoteKey);
        OneStep(p, Learn(first.hash, first.remoteKey));
        LearnIs(p, first.hash, first.remoteKey);
        RunAppend(p, [Learn(first.hash, first.remoteKey)], StreamSteps(s, rest));
        StreamLearns(s, q, rest, k - 1);
      } else {
        UnreadableIs(s, first);
        var ms := Reading(s, first).messages;
        RunAppend(p, InboundSteps(ms), StreamSteps(s, rest));
        InboundKeepsKnown(p, ms);
        StreamLearns(s, Run(p, InboundSteps(ms)), rest, if k == 0 then 0 else k - 1);
      }
    }
  }

  lemma LearnIs(p: Proto, hash: Option<Bytes>, remoteKey: Option<Key>)
    requires p.Good()
    ensures Take(p, Learn(hash, remoteKey)).p == p.(hash := hash, remoteKey := remoteKey)
  {
  }

  lemma {:induction false} InboundKeepsKnown(p: Proto, ms: seq<ChannelMessage>)
    requires p.Good()
    ensures var r := Run(p, InboundSteps(ms)); r.hash == p.hash && r.remoteKey == p.remoteKey
    decreases |ms|
  {
    hide Sound, Take;
    if ms == [] {
    } else {
      var n := |ms| - 1;
      InboundKeepsKnown(p, ms[..n]);
      assert InboundSteps(ms)[..n] == InboundSteps(ms[..n]);
      E.StepKeepsPeer(Run(p, InboundSteps(ms[..n])), Inbound(ms[n]));
    }
  }

  /** Handling messages one by one is what the steps for them do, up to the first failure. */
  lemma {:induction false} HandleIsAttempt(q: Peer, ms: seq<ChannelMessage>)
    requires q.p.Good()
    ensures var all := InboundSteps(ms);
            var t := Attempt(q.p, all);
            F.HandleAll(q, ms) == Acted(q.(p := Run(q.p, all[..t.made])), t.problem)
    decreases |ms|
  {
    hide Sound, Run, Attempt, Take;
    var all := InboundSteps(ms);
    if ms == [] {
      NoSteps(q.p);
      AttemptNone(q.p);
      assert all == [];
      assert q.(p := q.p) == q;
    } else {
      var step := Inbound(ms[0]);
      var rest := InboundSteps(ms[1..]);
      assert all == [step] + rest;
      OneStep(q.p, step);
      AttemptNone(q.p);
      NoSteps(q.p);
      assert [] + [step] == [step];
      AttemptMore(q.p, [], step);
      AttemptAppend(q.p, [step], rest);
      var first := Perform(q, ReceiveAct(ms[0]));
      HandleIsAttempt(first.peer, ms[1..]);
      var u := Attempt(first.peer.p, rest);
      if first.problem.None? {
        assert all[..1 + u.made] == [step] + rest[..u.made];
        RunAppend(q.p, [step], rest[..u.made]);
      } else {
        assert all[..1] == [step];
      }
    }
  }

  /**
   What reading a buffer does to a protocol object is what taking it in does to a side of a session: the
   same state, and a failure of the same kind. So the theorems about sessions hold of `PollInboundRead`.
   */
  lemma TakingIsReading(s: Schema, f: F.FrameSession)
    requires f.a.p.Good() && f.b.p.Good() && f.toA.packets != []
    ensures var events := [Frame(f.toA.packets[0].bytes)];
            var all := StreamSteps(s, events);
            var taken, phase := F.TakeByA(s, AsWritten, f), ReadingPhase(s, f.a.p, events);
            && taken.0.a == f.a.(p := Run(f.a.p, all[..Attempt(f.a.p, all).made]))
            && (phase.Fine? <==> taken.1.None?)
            && (phase.StepFailed? <==> taken.1.Some? && taken.1.value.StepFailed?)
            && (phase.StepFailed? ==> taken.1 == Some(F.StepFailed(phase.problem)))
            && (phase.IoFailed? <==> taken.1.Some? && taken.1.value.Undecodable?)
  {
    hide Sound, Run, Attempt, Take, DecodeAll, F.HandleAll, StreamBreaks, Unreadable;
    var b := f.toA.packets[0].bytes;
    var events := [Frame(b)];
    OneBuffer(s, b);
    match DecodeAll(s, AsWritten, b) {
      case Failure(_) =>
        NoSteps(f.a.p);
        AttemptNone(f.a.p);
        assert f.a.(p := f.a.p) == f.a;
      case Success(ms) => HandleIsAttempt(f.a, ms);
    }
  }

  lemma OneBuffer(s: Schema, b: seq<byte>)
    ensures var d, events := DecodeAll(s, AsWritten, b), [Frame(b)];
            && (StreamBreaks(s, events) <==> d.Failure?)
            && StreamSteps(s, events) == (if d.Success? then InboundSteps(d.value) else [])
  {
    hide DecodeAll;
    var events := [Frame(b)];
    assert events[1..] == [] && StreamSteps(s, []) == [];
    if DecodeAll(s, AsWritten, b).Success? {
      var steps := InboundSteps(DecodeAll(s, AsWritten, b).value);
      assert steps + [] == steps;
    } else {
      assert Unreadable(s, events[0]);
    }
  }

  //
  // When polls fail
  //

  /** Some step fails when its turn comes. */
  ghost predicate AnyFails(p: Proto, steps: seq<Step>)
    requires p.Good()
  {
    exists i :: 0 <= i < |steps| && Take(Run(p, steps[..i]), steps[i]).problem.Some?
  }

  lemma AttemptFails(p: Proto, steps: seq<Step>)
    requires p.Good()
    ensures Attempt(p, steps).problem.Some? <==> AnyFails(p, steps)
  {
    hide Take, Run, Attempt;
    var t := Attempt(p, steps);
    if t.problem.Some? {
      AttemptExactly(p, steps, t.made - 1);
    } else {
      forall i | 0 <= i < |steps| ensures Take(Run(p, steps[..i]), steps[i]).problem.None? {
        AttemptExactly(p, steps, i);
      }
    }
  }

  /** Reading goes well if and only if no step fails and every event can be read. */
  lemma ReadingFails(s: Schema, p: Proto, events: seq<StreamEvent>)
    requires p.Good()
    ensures !ReadingPhase(s, p, events).Fine? <==>
            || AnyFails(p, StreamSteps(s, events))
            || exists i :: 0 <= i < |events| && Unreadable(s, events[i])
  {
    hide StreamSteps, Attempt, AnyFails, Unreadable;
    AttemptFails(p, StreamSteps(s, events));
  }

  /**
   When a poll fails: if it begins with writing and reading and one of them fails; or if it gets to its main
   part and reading, a command or writing fails there.
   */
  lemma PollFailsExactly(s: Schema, p: Proto, q: seq<ChannelMessage>, early: Readiness, main: Readiness,
                         earlyTurns: seq<seq<Turn>>, turns: seq<seq<Turn>>)
    requires p.Good()
    ensures var begun := Begin(s, p, early);
            var starts := p.initiator && p.hash.None?;
            var failsEarly := starts && (Write(q, early.batches, earlyTurns).failed
                                         || !ReadingPhase(s, OnOutbound(p, Flatten(early.batches)), early.events).Fine?);
            var queue := if starts then Write(q, early.batches, earlyTurns).queue else q;
            var read := Run(begun, StreamSteps(s, main.events));
            var executed := Run(read, CommandSteps(main.commands));
            PollEnding(s, p, q, early, main, earlyTurns, turns).broken <==>
            || failsEarly
            || (!ReturnsEarly(p, begun)
                && (|| !ReadingPhase(s, begun, main.events).Fine?
                    || AnyFails(read, CommandSteps(main.commands))
                    || Write(queue + Added(read, executed), main.batches, turns).failed))
  {
    hide Sound, Run, StreamSteps, Attempt, AnyFails, Write, Added, OnOutbound, Begin, ReadingPhase;
    BatchesInOrder(p, early.batches);
    var begun := Begin(s, p, early);
    var commands := CommandSteps(main.commands);
    var read := Run(begun, StreamSteps(s, main.events));
    AttemptFails(read, commands);
    if !AnyFails(read, commands) {
      assert commands[..Attempt(read, commands).made] == commands;
    }
  }

  //
  // Sending
  //

  /** The frames that a side of a session puts on its pipe are those into which the queue is cut. */
  lemma SendingIsCutting(s: Schema, f: F.FrameSession)
    requires f.toB.queue != [] && AllSendable(s, f.toB.queue)
    ensures var r := F.SendByA(s, f).0;
            && Frames(f.toB.queue) != [] && AllSendable(s, Frames(f.toB.queue)[0])
            && r.toB.packets == f.toB.packets + [F.Packet(Frames(f.toB.queue)[0], Wire(s, Frames(f.toB.queue)[0]))]
            && Frames(r.toB.queue) == Frames(f.toB.queue)[1..]
  {
    hide Wire, Sendable, FrameLength, Frames;
    FramesCons(f.toB.queue);
  }
}
