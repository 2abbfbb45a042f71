/** The protocol object: a channel table, a message queue and an event queue, driven by polling. */
module Protocols {
  import opened Wrappers
  import opened Compact
  import opened Handshake
  import opened Messages
  import opened Framing
  import opened Channels
  import opened ChannelMaps
  import Q = MessageQueue
  import opened ProtocolModel
  import M = ProtocolModel
  import opened Polls
  import W = WireSchema

  /** What a user may send: local signals, and messages whose numbers and sizes the encoder can write. */
  predicate AllPostable(s: Schema, batches: seq<seq<ChannelMessage>>) {
    forall i, j | 0 <= i < |batches| && 0 <= j < |batches[i]| ::
      batches[i][j].message.LocalSignal? || Sendable(s, batches[i][j])
  }

  class Protocol {
    const crypto: Crypto
    const initiator: bool
    const channels: ChannelMap
    const io: Q.MessageIo
    var queuedEvents: seq<Event>
    var handshakeEmitted: bool
    ghost var emitted: seq<Event>   // everything returned so far

    /** The state of the protocol. */
    ghost function Model(): Proto
      reads this, channels, io
    {
      Proto(crypto, initiator, io.hash, io.remoteKey, channels.Model(), queuedEvents, emitted, handshakeEmitted, io.enqueued)
    }

    ghost predicate Valid()
      reads this, channels, io
    {
      channels.Valid() && io.Valid() && io.schema.utf8(PROTOCOL_NAME)
    }

    constructor (crypto: Crypto, initiator: bool, schema: Schema)
      requires schema.Valid() && schema.utf8(PROTOCOL_NAME)
      ensures Valid() && fresh(channels) && fresh(io) && io.schema == schema
      ensures Model() == Start(crypto, initiator)
    {
      this.crypto, this.initiator := crypto, initiator;
      channels := new ChannelMap();
      io := new Q.MessageIo(schema);
      queuedEvents, handshakeEmitted, emitted := [], false, [];
    }

    method QueueEvent(e: Event)
      modifies this`queuedEvents
      ensures queuedEvents == old(queuedEvents) + [e]
    {
      queuedEvents := queuedEvents + [e];
    }

    /** Verifies the remote capability of a connected channel and announces it. */
    method AcceptChannel(id: nat) returns (problem: Option<Problem>)
      requires Valid()
      modifies this`queuedEvents, channels
      ensures Done(Model(), problem) == M.AcceptChannel(old(Model()), id)
      ensures Valid()
    {
      hide Sound;
      var found := GetLocal(channels.Model(), id);
      if found.None? {
        return Some(TableProblem(NotFound));
      }
      var h := found.value;
      if !h.IsConnected() {
        return Some(TableProblem(NotOpened));
      }
      if io.remoteKey.None? || io.hash.None? {
        return Some(NoHandshake);
      }
      if !HandshakeResult(initiator, io.hash.value).Verify(crypto, h.remote.value.capability, h.local.value.key) {
        return Some(Denied);
      }
      var accepted := channels.Accept(id);
      match accepted
      case Failure(e) => return Some(TableProblem(e));
      case Success(channel) =>
        QueueEvent(Established(channel));
        return None;
    }

    function Capability(key: Key): Option<Bytes>
      reads io
    {
      if io.remoteKey.Some? && io.hash.Some?
      then Some(HandshakeResult(initiator, io.hash.value).Capability(crypto, key))
      else None
    }

    /** Attaches the key, accepts the channel if the remote side was first, and tells the remote side. */
    method CommandOpen(key: Key) returns (problem: Option<Problem>)
      requires Valid() && |channels.localIds| < U64_LIMIT
      modifies this`queuedEvents, channels, io
      ensures Done(Model(), problem) == M.CommandOpen(old(Model()), key)
      ensures Valid() && |channels.localIds| <= |old(channels.localIds)| + 1
      ensures Queued(old(Model()), Model(), old(io.writeQueue), io.writeQueue)
    {
      hide Sound, M.AcceptChannel, AttachLocal, NextLocalId;
      ghost var p := Model();
      var dk := crypto.discovery(key);
      LocalIdIs(p.table, dk, key);
      channels.AttachLocal(dk, key);
      var h := channels.channels[dk];
      var id := h.local.value.localId;
      assert id == NextLocalId(p.table);
      ghost var attached := Model();
      AcceptKeepsIds(attached, id);
      problem := None;
      if h.IsConnected() {
        problem := AcceptChannel(id);
      }
      if problem.Some? {
        return;
      }
      var m := ChannelMessage(id, Open(W.Open(id, PROTOCOL_NAME, dk, Capability(key))));
      OpenIsCarried(io.schema, p, id, key);
      io.Enqueue(m);
    }

    method CommandClose(dk: Key)
      requires Valid()
      modifies this`queuedEvents, channels
      ensures Model() == M.CommandClose(old(Model()), dk)
      ensures Valid() && |channels.localIds| <= |old(channels.localIds)| + 1
    {
      RemoveLength(channels.Model(), dk);
      hide Sound;
      if dk in channels.channels {
        channels.Remove(dk);
        QueueEvent(Closed(dk));
      }
    }

    method OnCommand(c: Command) returns (problem: Option<Problem>)
      requires Valid() && |channels.localIds| < U64_LIMIT
      modifies this`queuedEvents, channels, io
      ensures Done(Model(), problem) == M.OnCommand(old(Model()), c)
      ensures Valid() && |channels.localIds| <= |old(channels.localIds)| + 1
      ensures Queued(old(Model()), Model(), old(io.writeQueue), io.writeQueue)
    {
      match c
      case OpenKey(key) => problem := CommandOpen(key);
      case CloseKey(dk) =>
        CommandClose(dk);
        problem := None;
      case SignalLocal(name, payload) =>
        QueueEvent(Signalled(name, payload));
        problem := None;
    }

    method OnOpen(id: nat, o: W.Open) returns (problem: Option<Problem>)
      requires Valid()
      modifies this`queuedEvents, channels
      ensures Done(Model(), problem) == M.OnOpen(old(Model()), id, o)
      ensures Valid()
    {
      hide Sound;
      if |o.discoveryKey| != 32 {
        return Some(BadKey);
      }
      var dk: Key := o.discoveryKey;
      channels.AttachRemote(dk, id, o.capability);
      var h := channels.channels[dk];
      if h.IsConnected() {
        problem := AcceptChannel(h.local.value.localId);
      } else {
        QueueEvent(DiscoveryKey(dk));
        problem := None;
      }
    }

    method OnClose(id: nat, m: Message)
      requires Valid()
      modifies this`queuedEvents, channels
      ensures Model() == M.OnClose(old(Model()), id, m)
      ensures Valid()
    {
      hide Sound, Remove, ForwardTolerant;
      var found := GetRemote(channels.Model(), id);
      if found.Some? {
        var dk := found.value.discoveryKey;
        channels.ForwardInboundMessageTolerateClosed(id, m);
        channels.Remove(dk);
        QueueEvent(Closed(dk));
      }
    }

    method CloseLocal(id: nat)
      requires Valid()
      modifies this`queuedEvents, channels
      ensures Model() == M.CloseLocal(old(Model()), id)
      ensures Valid()
    {
      hide Sound, Remove;
      var found := GetLocal(channels.Model(), id);
      if found.Some? {
        channels.Remove(found.value.discoveryKey);
        QueueEvent(Closed(found.value.discoveryKey));
      }
    }

    method OnInboundMessage(m: ChannelMessage) returns (problem: Option<Problem>)
      requires Valid()
      modifies this`queuedEvents, channels
      ensures Done(Model(), problem) == M.OnInboundMessage(old(Model()), m)
      ensures Valid()
    {
      hide Sound;
      if m.message.Open? {
        problem := OnOpen(m.channel, m.message.open);
      } else if m.message.Close? {
        OnClose(m.channel, m.message);
        problem := None;
      } else {
        var r := channels.ForwardInboundMessage(m.channel, m.message);
        problem := if r.Success? then None else Some(TableProblem(r.error));
      }
    }

    /** Handles a Close or a local signal on its way out; returns whether to send the message. */
    method OnOutboundMessage(m: ChannelMessage) returns (keep: bool)
      requires Valid()
      modifies this`queuedEvents, channels
      ensures Model() == M.OnOutboundMessage(old(Model()), m)
      ensures Valid() && keep == !m.message.LocalSignal?
    {
      keep := true;
      if m.message.Close? {
        CloseLocal(m.channel);
      } else if m.message.LocalSignal? {
        QueueEvent(Signalled(m.message.name, m.message.payload));
        keep := false;
      }
    }

    //
    // Phases of a poll
    //

    method PollCommands(commands: seq<Command>) returns (r: Phase)
      requires Valid() && |channels.localIds| + |commands| < U64_LIMIT
      modifies this`queuedEvents, channels, io
      ensures Valid()
      ensures var all := CommandSteps(commands);
              var t := Attempt(old(Model()), all);
              Model() == Run(old(Model()), all[..t.made]) && r == t.Phase()
      ensures Queued(old(Model()), Model(), old(io.writeQueue), io.writeQueue)
    {
      hide Take, Sound, Attempt;
      ghost var p, all := Model(), CommandSteps(commands);
      AttemptNothing(p);
      for i := 0 to |commands|
        invariant Valid() && |channels.localIds| <= |old(channels.localIds)| + i
        invariant Model() == Run(p, all[..i]) && Attempt(p, all[..i]) == Tried(i, None)
        invariant Queued(p, Model(), old(io.writeQueue), io.writeQueue)
      {
        AttemptStep(p, all, i);
        ExecuteIs(Model(), commands[i]);
        ghost var q, queue := Model(), io.writeQueue;
        var problem := OnCommand(commands[i]);
        QueuedTwice(p, q, Model(), old(io.writeQueue), queue, io.writeQueue);
        if problem.Some? {
          AttemptStops(p, all, i + 1);
          return StepFailed(problem.value);
        }
      }
      assert all[..|commands|] == all;
      r := Fine;
    }

    method OnInboundChannelMessages(ms: seq<ChannelMessage>) returns (r: Phase)
      requires Valid()
      modifies this`queuedEvents, channels
      ensures Valid()
      ensures var all := InboundSteps(ms);
              var t := Attempt(old(Model()), all);
              Model() == Run(old(Model()), all[..t.made]) && r == t.Phase()
    {
      hide Take, Sound, Attempt;
      ghost var p, all := Model(), InboundSteps(ms);
      AttemptNothing(p);
      for i := 0 to |ms|
        invariant Valid()
        invariant Model() == Run(p, all[..i]) && Attempt(p, all[..i]) == Tried(i, None)
      {
        AttemptStep(p, all, i);
        InboundIs(Model(), ms[i]);
        var problem := OnInboundMessage(ms[i]);
        if problem.Some? {
          AttemptStops(p, all, i + 1);
          return StepFailed(problem.value);
        }
      }
      assert all[..|ms|] == all;
      r := Fine;
    }

    /** Handles the messages of a batch in order and drops its local signals. */
    method Retain(batch: seq<ChannelMessage>) returns (kept: seq<ChannelMessage>)
      requires Valid()
      modifies this`queuedEvents, channels
      ensures Model() == OnBatch(old(Model()), batch) && kept == Kept(batch)
      ensures Valid()
    {
      hide Sound, M.OnOutboundMessage;
      kept := [];
      for i := 0 to |batch|
        invariant Valid() && Model() == OnBatch(old(Model()), batch[..i]) && kept == Kept(batch[..i])
      {
        assert batch[..i + 1][..i] == batch[..i];
        var keep := OnOutboundMessage(batch[i]);
        if keep {
          kept := kept + [batch[i]];
        }
      }
      assert batch[..|batch|] == batch;
    }

    method EnqueueAll(ms: seq<ChannelMessage>)
      requires Valid() && forall i | 0 <= i < |ms| :: Sendable(io.schema, ms[i])
      modifies io
      ensures Model() == old(Model()).(outbox := old(Model()).outbox + ms)
      ensures Valid() && io.writeQueue == old(io.writeQueue) + ms
    {
      hide Sound, Sendable;
      for i := 0 to |ms|
        invariant Valid() && Model() == old(Model()).(outbox := old(Model()).outbox + ms[..i])
        invariant io.writeQueue == old(io.writeQueue) + ms[..i]
      {
        io.Enqueue(ms[i]);
        assert ms[..i + 1] == ms[..i] + [ms[i]];
      }
      assert ms[..|ms|] == ms;
    }

    /** Handles the messages of one outbound batch, then enqueues those that are to be sent. */
    method HandleBatch(batch: seq<ChannelMessage>)
      requires Valid() && AllPostable(io.schema, [batch])
      modifies this`queuedEvents, channels, io
      ensures Model() == OnOutbound(old(Model()), batch)
      ensures Valid() && io.writeQueue == old(io.writeQueue) + Kept(batch)
    {
      hide Sound, Sendable, OnBatch, Kept;
      var kept := Retain(batch);
      forall i | 0 <= i < |kept| ensures Sendable(io.schema, kept[i]) {
        var j :| 0 <= j < |batch| && batch[j] == kept[i];
        assert [batch][0][j] == kept[i];
      }
      EnqueueAll(kept);
    }

    /** Reads from the stream until nothing is left, a step fails or an event cannot be read. */
    method PollInboundRead(events: seq<Q.StreamEvent>) returns (r: Phase)
      requires Valid()
      modifies this`queuedEvents, channels, io`hash, io`remoteKey
      ensures Valid()
      ensures ReadingEnds(io.schema, old(Model()), events, Model(), r)
    {
      hide Take, Sound, Run, StreamSteps, Attempt, StreamBreaks, ReadSoFar, ReadingPhase;
      ghost var p, s, steps := Model(), io.schema, [];
      ReadNothing(s, p, events);
      var rest := events;
      while true
        invariant Valid() && ReadSoFar(s, p, events, steps, rest, Model())
        decreases |rest|
      {
        ghost var q, k := Model(), Q.Payloads(rest);
        ghost var before := rest[k..];
        var received, later := io.PollInbound(rest);
        ReadPayloads(s, p, events, steps, rest, q);
        steps := steps + LearnSteps(rest[..k]);
        if received.Nothing? {
          ReadAll(s, p, events, steps, Model());
          return Fine;
        }
        if received.Error? {
          ReadBroken(s, p, events, steps, before, Model());
          return IoFailed;
        }
        q := Model();
        r := OnInboundChannelMessages(received.messages);
        ReadBuffer(s, p, events, steps, before, q, received.messages);
        if !r.Fine? {
          return;
        }
        steps := steps + InboundSteps(received.messages);
        rest := later;
      }
    }

    /** Drives the queue and handles the batches that channels have sent, one after the other, until the transport fails. */
    method PollOutboundWrite(batches: seq<seq<ChannelMessage>>, turns: seq<seq<Q.Turn>>) returns (r: Phase)
      requires Valid() && AllPostable(io.schema, batches)
      modifies this`queuedEvents, channels, io
      ensures Valid()
      ensures var w := Write(old(io.writeQueue), batches, turns);
              && Model() == Run(old(Model()), OutboundSteps(batches)[..w.made])
              && r == (if w.failed then IoFailed else Fine) && io.writeQueue == w.queue
      ensures r.IoFailed? <==>
              exists i: nat :: i <= |batches| && RoundFails(QueueAt(old(io.writeQueue), batches, turns, i), TurnsAt(turns, i))
    {
      hide Take, Sound, Sendable, Run, OnOutbound, Q.Outcome, Q.Frames, Unsent, Kept, Write, Writing, AllPostable, OutboundSteps,
           QueueAt, RoundFails;
      ghost var p, all, w := Model(), OutboundSteps(batches), Write(io.writeQueue, batches, turns);
      NoSteps(p);
      WriteFails(io.writeQueue, batches, turns);
      WritingStarts(io.writeQueue, batches, turns);
      var i := 0;
      while true
        invariant 0 <= i <= |batches|
        invariant Valid() && Model() == Run(p, all[..i])
        invariant Writing(w, io.writeQueue, batches, turns, i)
        decreases |batches| - i
      {
        ghost var queue := io.writeQueue;
        ghost var sent := |io.frames|;
        var driven, refused := io.PollOutbound(if i < |turns| then turns[i] else []);
        WriteOnce(w, queue, batches, turns, i, io.frames[sent..] + refused, io.writeQueue);
        if driven.Failed? {
          return IoFailed;
        }
        if i == |batches| {
          return Fine;
        }
        StepsExtend(batches, i);
        OneMore(p, all[..i], Outbound(batches[i]));
        OutboundIs(Model(), batches[i]);
        if batches[i] != [] {
          OnePostable(io.schema, batches, i);
          HandleBatch(batches[i]);
        } else {
          NothingKept(io.writeQueue);
        }
        i := i + 1;
      }
    }

    /** Returns the oldest queued event. */
    method PopEvent() returns (e: Event)
      requires Valid() && queuedEvents != []
      modifies this`queuedEvents, this`emitted
      ensures Model() == Take(old(Model()), Pop).p && e == old(queuedEvents)[0]
      ensures Valid() && emitted == old(emitted) + [e]
    {
      hide Sound;
      e := queuedEvents[0];
      queuedEvents := queuedEvents[1..];
      emitted := emitted + [e];
    }

    /**
     Polls the protocol for an event, given what is ready, and how the transport answers, before and after
     the handshake is checked. A poll that does not fail does what `Poll` says; one that fails has made the
     first of the same steps and returns no event. It fails exactly when `PollEnding` says so.
     */
    method PollNext(early: Readiness, main: Readiness, earlyTurns: seq<seq<Q.Turn>>, turns: seq<seq<Q.Turn>>) returns (r: Polled)
      requires Valid() && AllPostable(io.schema, early.batches) && AllPostable(io.schema, main.batches)
      requires |channels.localIds| + |main.commands| < U64_LIMIT
      modifies this, channels, io
      ensures Valid()
      ensures var e := PollEnding(io.schema, old(Model()), old(io.writeQueue), early, main, earlyTurns, turns);
              && (r.Broken? <==> e.broken) && io.writeQueue == e.queue
              && Model() == After(io.schema, old(Model()), if e.broken then Failed(early, main, e.made) else Completed(early, main))
      ensures !r.Broken? ==> r == Poll(io.schema, old(Model()), early, main).1
      ensures emitted == old(emitted) + if r.Returned? then [r.event] else []
      ensures r.Waiting? ==> queuedEvents == [] || (initiator && io.hash.None?)
    {
      hide Take, Sound, Run, StreamSteps, Sendable, MainSteps, EarlySteps, EarlyEnding, MainEnding, AllPostable;
      hide PollEnding, Poll, After;
      ghost var p, s, q := Model(), io.schema, io.writeQueue;
      if initiator && io.hash.None? {
        var phase := PollBegin(early, earlyTurns);
        if !phase.Fine? {
          BrokenEarly(s, p, q, early, main, earlyTurns, turns);
          return Broken;
        }
        BegunWhole(s, p, q, early, earlyTurns);
        if io.hash.None? {
          StillWaiting(s, p, q, early, main, earlyTurns, turns);
          return Waiting;
        }
      } else {
        NothingEarly(s, p, q, early, earlyTurns);
      }
      LengthKept(s, p, early);
      ghost var begun := Model();
      if !handshakeEmitted && io.remoteKey.Some? {
        HandshakeIs(Model());
        handshakeEmitted := true;
        var event := HandshakeDone(io.remoteKey.value);
        emitted := emitted + [event];
        ReturnsHandshake(s, p, q, early, main, earlyTurns, turns);
        return Returned(event);
      }
      if queuedEvents != [] {
        ReturnsQueued(s, p, q, early, main, earlyTurns, turns);
        var event := PopEvent();
        return Returned(event);
      }
      r := PollMain(main, turns);
      MainDone(s, p, q, early, main, earlyTurns, turns);
      if r.Waiting? && queuedEvents != [] {
        var event := PopEvent();
        r := Returned(event);
      }
    }

    /** The first phases of the poll of an initiator without a handshake: write, read. */
    method PollBegin(early: Readiness, turns: seq<seq<Q.Turn>>) returns (r: Phase)
      requires Valid() && AllPostable(io.schema, early.batches) && initiator && io.hash.None?
      modifies this`queuedEvents, channels, io
      ensures Valid()
      ensures var e := EarlyEnding(io.schema, old(Model()), old(io.writeQueue), early, turns);
              var all := EarlySteps(io.schema, old(Model()), early);
              && e.made <= |all| && Model() == Run(old(Model()), all[..e.made])
              && (!e.broken ==> e.made == |all|) && (r.Fine? <==> !e.broken) && io.writeQueue == e.queue
    {
      hide Take, Sound, Run, StreamSteps, Sendable, OutboundSteps, Write, Attempt, StreamBreaks;
      hide QueueAt, RoundFails, TurnsAt, AllPostable;
      ghost var p, writing, reading := Model(), OutboundSteps(early.batches), StreamSteps(io.schema, early.events);
      ghost var w := Write(io.writeQueue, early.batches, turns);
      r := PollOutboundWrite(early.batches, turns);
      if r.Fine? {
        assert writing[..w.made] == writing;
        ghost var q := Model();
        r := PollInboundRead(early.events);
        RunAppend(p, writing, reading[..Attempt(q, reading).made]);
        assert (writing + reading)[..|writing| + Attempt(q, reading).made] == writing + reading[..Attempt(q, reading).made];
      } else {
        assert (writing + reading)[..w.made] == writing[..w.made];
      }
    }

    /** The main phases of a poll: read, execute commands, write. */
    method PollMain(main: Readiness, turns: seq<seq<Q.Turn>>) returns (r: Polled)
      requires Valid() && AllPostable(io.schema, main.batches)
      requires |channels.localIds| + |main.commands| < U64_LIMIT
      modifies this`queuedEvents, channels, io
      ensures Valid() && !r.Returned?
      ensures var e, all := MainEnding(io.schema, old(Model()), old(io.writeQueue), main, turns), MainSteps(io.schema, main);
              && e.made <= |all| && Model() == Run(old(Model()), all[..e.made])
              && (!e.broken ==> e.made == |all|) && (r.Broken? <==> e.broken) && io.writeQueue == e.queue
    {
      hide Take, Sound, Run, StreamSteps, Sendable, CommandSteps, OutboundSteps, Write, Attempt, StreamBreaks;
      hide Added, QueueAt, RoundFails, TurnsAt, AllPostable;
      ghost var p, q := Model(), io.writeQueue;
      ghost var reading, commands := StreamSteps(io.schema, main.events), CommandSteps(main.commands);
      ghost var writing := OutboundSteps(main.batches);
      ghost var k := Attempt(p, reading).made;
      var phase := PollInboundRead(main.events);
      ThreeParts(reading, commands, writing);
      if !phase.Fine? {
        return Broken;
      }
      assert reading[..k] == reading;
      StreamKeepsLength(io.schema, p, main.events);
      ghost var p1 := Model();
      ghost var c := Attempt(p1, commands).made;
      phase := PollCommands(main.commands);
      RunAppend(p, reading, commands[..c]);
      if !phase.Fine? {
        return Broken;
      }
      assert commands[..c] == commands;
      ghost var w := Write(io.writeQueue, main.batches, turns);
      phase := PollOutboundWrite(main.batches, turns);
      RunAppend(p, reading + commands, writing[..w.made]);
      return if phase.Fine? then Waiting else Broken;
    }
  }

  lemma ThreeParts(a: seq<Step>, b: seq<Step>, c: seq<Step>)
    ensures forall n | 0 <= n <= |a| :: (a + b + c)[..n] == a[..n]
    ensures forall n | 0 <= n <= |b| :: (a + b + c)[..|a| + n] == a + b[..n]
    ensures forall n | 0 <= n <= |c| :: (a + b + c)[..|a| + |b| + n] == a + b + c[..n]
  {
  }

  lemma PrefixSteps(steps: seq<Step>, all: seq<Step>, later: seq<Step>)
    requires steps <= all
    ensures FirstSteps(all + later, |steps|) == steps
  {
    assert (all + later)[..|steps|] == steps;
  }

  lemma LongerPrefix(first: seq<Step>, steps: seq<Step>, all: seq<Step>)
    requires steps <= all
    ensures FirstSteps(first + all, |first| + |steps|) == first + steps
  {
    if |steps| < |all| {
      assert (first + all)[..|first + steps|] == first + steps;
    } else {
      assert steps == all;
    }
  }

  /** How a poll that leads to the given state, queue and result is described. */
  ghost predicate PollsTo(s: Schema, p: Proto, q: seq<ChannelMessage>, early: Readiness, main: Readiness,
                          earlyTurns: seq<seq<Q.Turn>>, turns: seq<seq<Q.Turn>>,
                          now: Proto, queue: seq<ChannelMessage>, r: Polled)
    requires p.Good()
  {
    var e := PollEnding(s, p, q, early, main, earlyTurns, turns);
    && (r.Broken? <==> e.broken) && queue == e.queue
    && now == After(s, p, if e.broken then Failed(early, main, e.made) else Completed(early, main))
    && (!r.Broken? ==> r == Poll(s, p, early, main).1)
  }

  lemma NothingEarly(s: Schema, p: Proto, q: seq<ChannelMessage>, early: Readiness, turns: seq<seq<Q.Turn>>)
    requires p.Good() && !(p.initiator && p.hash.None?)
    ensures EarlyEnding(s, p, q, early, turns) == Ending(0, false, q) && Begin(s, p, early) == p
  {
    NoSteps(p);
  }

  lemma BegunWhole(s: Schema, p: Proto, q: seq<ChannelMessage>, early: Readiness, turns: seq<seq<Q.Turn>>)
    requires p.Good()
    requires var e, all := EarlyEnding(s, p, q, early, turns), EarlySteps(s, p, early); !e.broken && e.made == |all|
    ensures var e, all := EarlyEnding(s, p, q, early, turns), EarlySteps(s, p, early);
            Run(p, all[..e.made]) == Begin(s, p, early)
  {
    hide Run, EarlySteps, EarlyEnding;
    var all := EarlySteps(s, p, early);
    assert all[..|all|] == all;
  }

  lemma BrokenEarly(s: Schema, p: Proto, q: seq<ChannelMessage>, early: Readiness, main: Readiness,
                    earlyTurns: seq<seq<Q.Turn>>, turns: seq<seq<Q.Turn>>)
    requires p.Good()
    requires var e := EarlyEnding(s, p, q, early, earlyTurns); e.broken && e.made <= |EarlySteps(s, p, early)|
    ensures var e := EarlyEnding(s, p, q, early, earlyTurns);
            PollsTo(s, p, q, early, main, earlyTurns, turns, Run(p, EarlySteps(s, p, early)[..e.made]), e.queue, Broken)
  {
    hide Run, EarlySteps, EarlyEnding, MainSteps, FirstSteps, Take, Poll, MainEnding;
    var e, all := EarlyEnding(s, p, q, early, earlyTurns), EarlySteps(s, p, early);
    PrefixSteps(all[..e.made], all, MainSteps(s, main));
  }

  lemma StillWaiting(s: Schema, p: Proto, q: seq<ChannelMessage>, early: Readiness, main: Readiness,
                     earlyTurns: seq<seq<Q.Turn>>, turns: seq<seq<Q.Turn>>)
    requires p.Good() && p.initiator && Begin(s, p, early).hash.None?
    requires !EarlyEnding(s, p, q, early, earlyTurns).broken
    ensures PollsTo(s, p, q, early, main, earlyTurns, turns,
                    Begin(s, p, early), EarlyEnding(s, p, q, early, earlyTurns).queue, Waiting)
  {
    hide Begin, EarlySteps, EarlyEnding, MainSteps, MainEnding, Run, Take;
  }

  lemma ReturnsHandshake(s: Schema, p: Proto, q: seq<ChannelMessage>, early: Readiness, main: Readiness,
                         earlyTurns: seq<seq<Q.Turn>>, turns: seq<seq<Q.Turn>>)
    requires p.Good() && !EarlyEnding(s, p, q, early, earlyTurns).broken
    requires var begun := Begin(s, p, early);
             !(p.initiator && begun.hash.None?) && !begun.handshakeEmitted && begun.remoteKey.Some?
    ensures var begun := Begin(s, p, early);
            PollsTo(s, p, q, early, main, earlyTurns, turns, Take(begun, EmitHandshake).p,
                    EarlyEnding(s, p, q, early, earlyTurns).queue, Returned(HandshakeDone(begun.remoteKey.value)))
  {
    hide Begin, EarlySteps, EarlyEnding, MainSteps, MainEnding, Run, Take;
  }

  lemma ReturnsQueued(s: Schema, p: Proto, q: seq<ChannelMessage>, early: Readiness, main: Readiness,
                      earlyTurns: seq<seq<Q.Turn>>, turns: seq<seq<Q.Turn>>)
    requires p.Good() && !EarlyEnding(s, p, q, early, earlyTurns).broken
    requires var begun := Begin(s, p, early);
             && !(p.initiator && begun.hash.None?) && !(!begun.handshakeEmitted && begun.remoteKey.Some?)
             && begun.events != []
    ensures var begun := Begin(s, p, early);
            PollsTo(s, p, q, early, main, earlyTurns, turns, Take(begun, Pop).p,
                    EarlyEnding(s, p, q, early, earlyTurns).queue, Returned(begun.events[0]))
  {
    hide Begin, EarlySteps, EarlyEnding, MainSteps, MainEnding, Run, Take;
  }

  lemma MainDone(s: Schema, p: Proto, q: seq<ChannelMessage>, early: Readiness, main: Readiness,
                 earlyTurns: seq<seq<Q.Turn>>, turns: seq<seq<Q.Turn>>)
    requires p.Good() && !EarlyEnding(s, p, q, early, earlyTurns).broken && !ReturnsEarly(p, Begin(s, p, early))
    requires var m := MainEnding(s, Begin(s, p, early), EarlyEnding(s, p, q, early, earlyTurns).queue, main, turns);
             m.made <= |MainSteps(s, main)| && (!m.broken ==> m.made == |MainSteps(s, main)|)
    ensures var m := MainEnding(s, Begin(s, p, early), EarlyEnding(s, p, q, early, earlyTurns).queue, main, turns);
            var now := Run(Begin(s, p, early), MainSteps(s, main)[..m.made]);
            if m.broken then PollsTo(s, p, q, early, main, earlyTurns, turns, now, m.queue, Broken)
            else if now.events == [] then PollsTo(s, p, q, early, main, earlyTurns, turns, now, m.queue, Waiting)
            else PollsTo(s, p, q, early, main, earlyTurns, turns, Take(now, Pop).p, m.queue, Returned(now.events[0]))
  {
    hide EarlySteps, EarlyEnding, MainSteps, MainEnding, Run, Take, FirstSteps;
    var steps, all := EarlySteps(s, p, early), MainSteps(s, main);
    var m := MainEnding(s, Begin(s, p, early), EarlyEnding(s, p, q, early, earlyTurns).queue, main, turns);
    if m.broken {
      RunAppend(p, steps, all[..m.made]);
      LongerPrefix(steps, all[..m.made], all);
    } else {
      assert all[..m.made] == all;
    }
  }

  //
  // Queues
  //

  /** What is added to the outgoing messages is added to the queue. */
  predicate Queued(p: Proto, r: Proto, before: seq<ChannelMessage>, after: seq<ChannelMessage>) {
    p.outbox <= r.outbox && after == before + Added(p, r)
  }

  lemma QueuedTwice(p: Proto, q: Proto, r: Proto, before: seq<ChannelMessage>, between: seq<ChannelMessage>, after: seq<ChannelMessage>)
    requires Queued(p, q, before, between) && Queued(q, r, between, after)
    ensures Queued(p, r, before, after)
  {
    assert Added(p, q) + Added(q, r) == Added(p, r);
    assert (before + Added(p, q)) + Added(q, r) == before + (Added(p, q) + Added(q, r));
  }

  function From(turns: seq<seq<Q.Turn>>, i: nat): seq<seq<Q.Turn>> { if i <= |turns| then turns[i..] else [] }

  lemma WriteFails(q: seq<ChannelMessage>, batches: seq<seq<ChannelMessage>>, turns: seq<seq<Q.Turn>>)
    ensures Write(q, batches, turns).failed <==>
            exists i: nat :: i <= |batches| && RoundFails(QueueAt(q, batches, turns, i), TurnsAt(turns, i))
  {
    hide Write, QueueAt, RoundFails;
    WriteExactly(q, batches, turns);
  }

  /** What is left to write from round `i` on leads to the result `w` of the whole. */
  predicate Writing(w: Written, q: seq<ChannelMessage>, batches: seq<seq<ChannelMessage>>, turns: seq<seq<Q.Turn>>, i: nat) {
    i <= |batches| && var v := Write(q, batches[i..], From(turns, i)); w == v.(made := i + v.made)
  }

  lemma WritingStarts(q: seq<ChannelMessage>, batches: seq<seq<ChannelMessage>>, turns: seq<seq<Q.Turn>>)
    ensures Writing(Write(q, batches, turns), q, batches, turns, 0)
  {
    hide Write;
    assert batches[0..] == batches && From(turns, 0) == turns;
  }

  /** One round of writing: the queue is driven and the next batch added to what is left. */
  lemma WriteOnce(w: Written, q: seq<ChannelMessage>, batches: seq<seq<ChannelMessage>>, turns: seq<seq<Q.Turn>>, i: nat,
                  gone: seq<seq<ChannelMessage>>, rest: seq<ChannelMessage>)
    requires Writing(w, q, batches, turns, i) && Q.Frames(q) == gone + Q.Frames(rest)
    requires var d := Q.Outcome(if i < |turns| then turns[i] else [], |Q.Frames(q)|); |gone| == d.sent + d.refused
    ensures var d := Q.Outcome(if i < |turns| then turns[i] else [], |Q.Frames(q)|);
            if d.result.Failed? || i == |batches| then w == Written(i, d.result.Failed?, rest)
            else Writing(w, rest + Kept(batches[i]), batches, turns, i + 1)
  {
    hide Q.Outcome, Q.Frames, Unsent, Kept, Write, From;
    RoundIs(q, batches, turns, i, gone, rest);
  }

  lemma RoundIs(q: seq<ChannelMessage>, batches: seq<seq<ChannelMessage>>, turns: seq<seq<Q.Turn>>, i: nat,
                gone: seq<seq<ChannelMessage>>, rest: seq<ChannelMessage>)
    requires i <= |batches| && Q.Frames(q) == gone + Q.Frames(rest)
    requires var d := Q.Outcome(if i < |turns| then turns[i] else [], |Q.Frames(q)|); |gone| == d.sent + d.refused
    ensures var d := Q.Outcome(if i < |turns| then turns[i] else [], |Q.Frames(q)|);
            var w := Write(q, batches[i..], From(turns, i));
            if d.result.Failed? || i == |batches| then w == Written(0, d.result.Failed?, rest)
            else var v := Write(rest + Kept(batches[i]), batches[i + 1..], From(turns, i + 1)); w == v.(made := v.made + 1)
  {
    hide Q.Outcome, Q.Frames, Unsent, Kept;
    UnsentIs(q, gone, rest);
    var ts := From(turns, i);
    assert From(turns, i + 1) == if ts == [] then [] else ts[1..];
    if i < |batches| {
      assert batches[i..][0] == batches[i] && batches[i..][1..] == batches[i + 1..];
    }
  }

  lemma UnsentIs(q: seq<ChannelMessage>, gone: seq<seq<ChannelMessage>>, rest: seq<ChannelMessage>)
    requires Q.Frames(q) == gone + Q.Frames(rest)
    ensures |gone| <= |Q.Frames(q)| && Unsent(q, |gone|) == rest
  {
    hide Q.Frames;
    assert Q.Frames(q)[|gone|..] == Q.Frames(rest);
    Q.FramesFlatten(rest);
  }

  lemma NothingKept(q: seq<ChannelMessage>)
    ensures q + Kept([]) == q
  {
  }

  //
  // Attempts
  //

  lemma AttemptNothing(p: Proto)
    requires p.Good()
    ensures forall steps: seq<Step> :: Attempt(p, steps[..0]) == Tried(0, None) && Run(p, steps[..0]) == p
    ensures Attempt(p, []) == Tried(0, None)
  {
  }

  lemma AttemptStep(p: Proto, all: seq<Step>, i: nat)
    requires p.Good() && i < |all| && Attempt(p, all[..i]) == Tried(i, None)
    ensures var d := Take(Run(p, all[..i]), all[i]);
            Attempt(p, all[..i + 1]) == Tried(i + 1, d.problem) && Run(p, all[..i + 1]) == d.p
  {
    hide Take;
    assert all[..i + 1][..i] == all[..i];
  }

  lemma AttemptStops(p: Proto, all: seq<Step>, i: nat)
    requires p.Good() && i <= |all| && Attempt(p, all[..i]).problem.Some?
    ensures Attempt(p, all) == Attempt(p, all[..i])
  {
    hide Attempt, Take;
    AttemptAppend(p, all[..i], all[i..]);
    assert all[..i] + all[i..] == all;
  }

  lemma {:induction false} LearnAttempt(p: Proto, steps: seq<Step>)
    requires p.Good() && forall i | 0 <= i < |steps| :: steps[i].Learn?
    ensures Attempt(p, steps) == Tried(|steps|, None)
    decreases |steps|
  {
    if steps == [] {
    } else {
      LearnAttempt(p, steps[..|steps| - 1]);
    }
  }

  lemma {:induction false} BreaksSplit(s: Schema, events: seq<Q.StreamEvent>, k: nat)
    requires k <= |events| && forall i | 0 <= i < k :: events[i].HandshakePayload?
    ensures StreamBreaks(s, events) <==> StreamBreaks(s, events[k..])
    decreases k
  {
    hide StreamBreaks, Q.Reading;
    if k == 0 {
      assert events[0..] == events;
    } else {
      BreaksLater(s, events);
      BreaksSplit(s, events[1..], k - 1);
      assert events[1..][k - 1..] == events[k..];
    }
  }

  //
  // Reading
  //

  /** The steps made for the events read so far, none of which failed. */
  ghost predicate ReadSoFar(s: Schema, p: Proto, events: seq<Q.StreamEvent>, steps: seq<Step>, rest: seq<Q.StreamEvent>, now: Proto) {
    && p.Good() && now == Run(p, steps) && Attempt(p, steps) == Tried(|steps|, None)
    && StreamSteps(s, events) == steps + StreamSteps(s, rest)
    && (StreamBreaks(s, events) <==> StreamBreaks(s, rest))
  }

  /** How reading ended. */
  ghost predicate ReadingEnds(s: Schema, p: Proto, events: seq<Q.StreamEvent>, now: Proto, r: Phase)
    requires p.Good()
  {
    var all := StreamSteps(s, events);
    now == Run(p, all[..Attempt(p, all).made]) && r == ReadingPhase(s, p, events)
  }

  lemma ReadNothing(s: Schema, p: Proto, events: seq<Q.StreamEvent>)
    requires p.Good()
    ensures ReadSoFar(s, p, events, [], events, p)
  {
    hide StreamSteps, StreamBreaks, Take;
    assert [] + StreamSteps(s, events) == StreamSteps(s, events);
  }

  lemma ReadPayloads(s: Schema, p: Proto, events: seq<Q.StreamEvent>, steps: seq<Step>, rest: seq<Q.StreamEvent>, now: Proto)
    requires ReadSoFar(s, p, events, steps, rest, now)
    ensures var k := Q.Payloads(rest);
            var known := Q.Known(rest[..k], now.hash, now.remoteKey);
            && ReadSoFar(s, p, events, steps + LearnSteps(rest[..k]), rest[k..], now.(hash := known.0, remoteKey := known.1))
            && (k == |rest| ==> rest[k..] == [])
  {
    hide StreamSteps, StreamBreaks, Take, Run, Attempt, Q.Known, Sound;
    var k := Q.Payloads(rest);
    var learned := LearnSteps(rest[..k]);
    LearnRun(now, rest[..k]);
    LearnAttempt(now, learned);
    StreamSplit(s, rest, k);
    BreaksSplit(s, rest, k);
    RunAppend(p, steps, learned);
    AttemptAppend(p, steps, learned);
    Regroup(steps, learned, StreamSteps(s, rest[k..]));
  }

  lemma ReadAll(s: Schema, p: Proto, events: seq<Q.StreamEvent>, steps: seq<Step>, now: Proto)
    requires ReadSoFar(s, p, events, steps, [], now)
    ensures ReadingEnds(s, p, events, now, Fine)
  {
    hide Take, Run, Attempt, Sound;
    var all := StreamSteps(s, events);
    assert steps + [] == steps;
    assert all[..|all|] == all;
  }

  lemma ReadBroken(s: Schema, p: Proto, events: seq<Q.StreamEvent>, steps: seq<Step>, rest: seq<Q.StreamEvent>, now: Proto)
    requires ReadSoFar(s, p, events, steps, rest, now) && rest != [] && Unreadable(s, rest[0])
    ensures ReadingEnds(s, p, events, now, IoFailed)
  {
    hide Take, Run, Attempt, Sound, Q.Reading, StreamSteps, StreamBreaks, Unreadable;
    UnreadableIs(s, rest[0]);
    StreamMessage(s, rest);
    BreaksLater(s, rest);
    var all := StreamSteps(s, events);
    assert steps + [] == steps;
    assert all[..|all|] == all;
  }

  lemma ReadBuffer(s: Schema, p: Proto, events: seq<Q.StreamEvent>, steps: seq<Step>, rest: seq<Q.StreamEvent>, now: Proto,
                   ms: seq<ChannelMessage>)
    requires ReadSoFar(s, p, events, steps, rest, now) && now.Good()
    requires rest != [] && !rest[0].HandshakePayload? && Q.Reading(s, rest[0]) == Q.Messages(ms)
    ensures var all := InboundSteps(ms);
            var t := Attempt(now, all);
            var next := Run(now, all[..t.made]);
            if t.problem.Some? then ReadingEnds(s, p, events, next, t.Phase())
            else ReadSoFar(s, p, events, steps + all, rest[1..], next)
  {
    hide Take, Run, Attempt, Sound, Q.Reading, StreamSteps, StreamBreaks, InboundSteps, Unreadable;
    StreamMessage(s, rest);
    UnreadableIs(s, rest[0]);
    BreaksLater(s, rest);
    var all, later := InboundSteps(ms), StreamSteps(s, rest[1..]);
    var t := Attempt(now, all);
    AttemptAppend(p, steps, all);
    Regroup(steps, all, later);
    RunAppend(p, steps, all[..t.made]);
    if t.problem.Some? {
      AttemptAppend(p, steps + all, later);
      CutAt(steps, all, later, t.made);
    } else {
      assert all[..t.made] == all;
    }
  }

  lemma CutAt(a: seq<Step>, b: seq<Step>, c: seq<Step>, n: nat)
    requires n <= |b|
    ensures ((a + b) + c)[..|a| + n] == a + b[..n]
  {
  }

  lemma LocalIdIs(t: Table, dk: Key, key: Key)
    requires Sound(t)
    ensures var id, r := NextLocalId(t), AttachLocal(t, dk, key);
            && 1 <= id <= |t.localIds| && |r.localIds| <= |t.localIds| + 1
            && dk in r.channels && r.channels[dk].HasLocal(id)
  {
  }

  lemma OnePostable(s: Schema, batches: seq<seq<ChannelMessage>>, i: nat)
    requires AllPostable(s, batches) && i < |batches|
    ensures AllPostable(s, [batches[i]])
  {
    hide Sendable;
  }

  lemma StepsExtend(batches: seq<seq<ChannelMessage>>, i: nat)
    requires i < |batches|
    ensures OutboundSteps(batches)[..i + 1] == OutboundSteps(batches)[..i] + [Outbound(batches[i])]
  {
  }

  lemma ExecuteIs(p: Proto, c: Command)
    requires p.Good()
    ensures Take(p, Execute(c)) == M.OnCommand(p, c)
  {
  }

  lemma InboundIs(p: Proto, m: ChannelMessage)
    requires p.Good()
    ensures Take(p, Inbound(m)) == M.OnInboundMessage(p, m)
  {
  }

  lemma AcceptKeepsIds(p: Proto, id: nat)
    requires p.Good()
    ensures M.AcceptChannel(p, id).p.table.localIds == p.table.localIds
  {
    hide Sound;
  }

  lemma RemoveLength(t: Table, dk: Key)
    requires Sound(t)
    ensures |Remove(t, dk).localIds| == |t.localIds|
  {
  }

  lemma OutboundIs(p: Proto, ms: seq<ChannelMessage>)
    requires p.Good()
    ensures Take(p, Outbound(ms)) == Done(OnOutbound(p, ms), None)
    ensures OnOutbound(p, []) == p
  {
    assert Kept([]) == [];
    assert p.outbox + [] == p.outbox;
  }

  lemma HandshakeIs(p: Proto)
    requires p.Good() && !p.handshakeEmitted && p.remoteKey.Some?
    ensures Take(p, EmitHandshake).p
         == p.(handshakeEmitted := true, emitted := p.emitted + [HandshakeDone(p.remoteKey.value)])
  {
  }

  //
  // Streams as steps
  //

  function LearnSteps(events: seq<Q.StreamEvent>): seq<Step>
    requires forall i | 0 <= i < |events| :: events[i].HandshakePayload?
  {
    seq(|events|, i requires 0 <= i < |events| => Learn(events[i].hash, events[i].remoteKey))
  }

  /** Handshake payloads one after the other leave what the last one brought. */
  lemma {:induction false} LearnRun(p: Proto, events: seq<Q.StreamEvent>)
    requires p.Good() && forall i | 0 <= i < |events| :: events[i].HandshakePayload?
    ensures var known := Q.Known(events, p.hash, p.remoteKey);
            Run(p, LearnSteps(events)) == p.(hash := known.0, remoteKey := known.1)
  {
    if events == [] {
    } else {
      var n := |events| - 1;
      LearnRun(p, events[..n]);
      assert LearnSteps(events)[..n] == LearnSteps(events[..n]);
    }
  }

  lemma {:induction false} StreamSplit(s: Schema, events: seq<Q.StreamEvent>, k: nat)
    requires k <= |events| && forall i | 0 <= i < k :: events[i].HandshakePayload?
    ensures StreamSteps(s, events) == LearnSteps(events[..k]) + StreamSteps(s, events[k..])
    decreases k
  {
    hide Q.Reading;
    if k == 0 {
      assert events[0..] == events && LearnSteps(events[..0]) == [];
    } else {
      var first, tail := [Learn(events[0].hash, events[0].remoteKey)], events[1..];
      StreamSplit(s, tail, k - 1);
      assert tail[k - 1..] == events[k..] && tail[..k - 1] == events[1..k];
      assert StreamSteps(s, events) == first + StreamSteps(s, tail);
      assert LearnSteps(events[..k]) == first + LearnSteps(events[1..k]);
      Regroup(first, LearnSteps(events[1..k]), StreamSteps(s, events[k..]));
    }
  }

  /** A buffer contributes its messages, and the rest follows. */
  lemma StreamMessage(s: Schema, events: seq<Q.StreamEvent>)
    requires events != [] && !events[0].HandshakePayload?
    ensures match Q.Reading(s, events[0])
            case Messages(ms) => StreamSteps(s, events) == InboundSteps(ms) + StreamSteps(s, events[1..])
            case _ => StreamSteps(s, events) == []
  {
    hide Q.Reading;
  }

  lemma Regroup(a: seq<Step>, b: seq<Step>, c: seq<Step>)
    ensures a + (b + c) == (a + b) + c
  {
  }

  //
  // The local vector does not grow while reading or writing
  //

  predicate NoCommands(steps: seq<Step>) {
    forall i | 0 <= i < |steps| :: !steps[i].Execute?
  }

  lemma {:induction false} RunKeepsLength(p: Proto, steps: seq<Step>)
    requires p.Good() && NoCommands(steps)
    ensures |Run(p, steps).table.localIds| == |p.table.localIds|
    decreases |steps|
  {
    hide Take;
    if steps == [] {
    } else {
      var n := |steps| - 1;
      RunKeepsLength(p, steps[..n]);
      StepKeepsLength(Run(p, steps[..n]), steps[n]);
    }
  }

  lemma StepKeepsLength(p: Proto, s: Step)
    requires p.Good() && !s.Execute?
    ensures |Take(p, s).p.table.localIds| == |p.table.localIds|
  {
    hide OnBatch, HandleSound, InTable, AcceptChannel, Remove, ForwardTolerant;
    match s
    case Inbound(m) =>
      if m.message.Open? && |m.message.open.discoveryKey| == 32 {
        var o := m.message.open;
        var attached := p.(table := AttachRemote(p.table, o.discoveryKey, m.channel, o.capability));
        var h := attached.table.channels[o.discoveryKey];
        if h.IsConnected() {
          AcceptKeepsIds(attached, h.local.value.localId);
        }
      } else if m.message.Close? && GetRemote(p.table, m.channel).Some? {
        TolerantLength(p.table, m.channel, m.message);
        RemoveLength(ForwardTolerant(p.table, m.channel, m.message), GetRemote(p.table, m.channel).value.discoveryKey);
      }
    case Outbound(ms) => BatchKeepsLength(p, ms);
    case _ =>
  }

  lemma TolerantLength(t: Table, id: nat, m: Message)
    requires Sound(t)
    ensures ForwardTolerant(t, id, m).localIds == t.localIds
  {
  }

  lemma {:induction false} BatchKeepsLength(p: Proto, ms: seq<ChannelMessage>)
    requires p.Good()
    ensures |OnBatch(p, ms).table.localIds| == |p.table.localIds|
  {
    hide Sound, Remove;
    if ms == [] {
    } else {
      var n := |ms| - 1;
      BatchKeepsLength(p, ms[..n]);
      var q := OnBatch(p, ms[..n]);
      var found := GetLocal(q.table, ms[n].channel);
      if found.Some? {
        RemoveLength(q.table, found.value.discoveryKey);
      }
    }
  }

  lemma {:induction false} StreamHasNoCommands(s: Schema, events: seq<Q.StreamEvent>)
    ensures NoCommands(StreamSteps(s, events))
  {
    if events == [] {
    } else {
      StreamHasNoCommands(s, events[1..]);
    }
  }

  lemma StreamKeepsLength(s: Schema, p: Proto, events: seq<Q.StreamEvent>)
    requires p.Good()
    ensures |Run(p, StreamSteps(s, events)).table.localIds| == |p.table.localIds|
  {
    StreamHasNoCommands(s, events);
    RunKeepsLength(p, StreamSteps(s, events));
  }

  lemma LengthKept(s: Schema, p: Proto, early: Readiness)
    requires p.Good()
    ensures |Begin(s, p, early).table.localIds| == |p.table.localIds|
  {
    hide Run, StreamSteps;
    StreamHasNoCommands(s, early.events);
    RunKeepsLength(p, EarlySteps(s, p, early));
  }
}
