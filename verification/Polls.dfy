/** What one poll of the protocol does, given everything that is ready when it happens. */
module Polls {
  import opened Wrappers
  import opened Compact
  import opened Handshake
  import opened Messages
  import opened Framing
  import opened FrameTheorems
  import opened MessageQueue
  import opened ProtocolModel
  import E = EventTheorems

  /** What is ready: stream events, commands, and batches sent by channels. */
  datatype Readiness = Readiness(events: seq<StreamEvent>, commands: seq<Command>, batches: seq<seq<ChannelMessage>>)

  datatype Polled = Returned(event: Event) | Waiting | Broken

  function CommandSteps(commands: seq<Command>): (r: seq<Step>)
    ensures |r| == |commands| && forall i | 0 <= i < |r| :: r[i] == Execute(commands[i])
  {
    seq(|commands|, i requires 0 <= i < |commands| => Execute(commands[i]))
  }

  function InboundSteps(ms: seq<ChannelMessage>): (r: seq<Step>)
    ensures |r| == |ms| && forall i | 0 <= i < |r| :: r[i] == Inbound(ms[i])
  {
    seq(|ms|, i requires 0 <= i < |ms| => Inbound(ms[i]))
  }

  function OutboundSteps(batches: seq<seq<ChannelMessage>>): (r: seq<Step>)
    ensures |r| == |batches| && forall i | 0 <= i < |r| :: r[i] == Outbound(batches[i])
  {
    seq(|batches|, i requires 0 <= i < |batches| => Outbound(batches[i]))
  }

  /** The steps that the events of the stream lead to, up to the first failure. */
  function StreamSteps(s: Schema, events: seq<StreamEvent>): seq<Step> {
    if events == [] then []
    else if events[0].HandshakePayload? then
      [Learn(events[0].hash, events[0].remoteKey)] + StreamSteps(s, events[1..])
    else
      match Reading(s, events[0])
      case Messages(ms) => InboundSteps(ms) + StreamSteps(s, events[1..])
      case _ => []
  }

  /** The buffers of frames as they arrive at the other end. */
  function Arrivals(buffers: seq<seq<byte>>): seq<StreamEvent> {
    seq(|buffers|, i requires 0 <= i < |buffers| => Frame(buffers[i]))
  }

  lemma InboundAppend(a: seq<ChannelMessage>, b: seq<ChannelMessage>)
    ensures InboundSteps(a + b) == InboundSteps(a) + InboundSteps(b)
  {
  }

  /**
   From queue to state machine: when the frames that one side sent arrive, and none of them changes
   channel, the other side takes one inbound step for each message enqueued, in order.
   */
  lemma {:induction false} QueueToSteps(s: Schema, frames: seq<seq<ChannelMessage>>)
    requires s.Valid() && AllFrames(s, frames) && OpensLongEnough(frames) && Readable(frames)
    ensures var steps, ms := StreamSteps(s, Arrivals(Buffers(s, frames))), Flatten(frames);
            |steps| == |ms| && forall i | 0 <= i < |ms| :: steps[i] == Inbound(ms[i])
  {
    hide Wire, DecodeAll, IsFrame, SingleChannel, OpenLongEnough;
    var events := Arrivals(Buffers(s, frames));
    if frames == [] {
    } else {
      var f, rest := frames[0], frames[1..];
      FrameNonempty(s, f);
      FrameRoundTrip(s, AsWritten, f);
      QueueToSteps(s, rest);
      assert events[0] == Frame(Wire(s, f));
      assert events[1..] == Arrivals(Buffers(s, rest));
      InboundAppend(f, Flatten(rest));
      assert StreamSteps(s, events[1..]) == InboundSteps(Flatten(rest));
    }
  }

  /** A poll that does not fail, as a function of the state and of what is ready. */
  function Poll(s: Schema, p: Proto, early: Readiness, main: Readiness): (r: (Proto, Polled))
    requires p.Good()
    ensures r.0.Good()
  {
    var begun := Begin(s, p, early);
    if p.initiator && begun.hash.None? then (begun, Waiting)
    else if !begun.handshakeEmitted && begun.remoteKey.Some? then
      (Take(begun, EmitHandshake).p, Returned(HandshakeDone(begun.remoteKey.value)))
    else if begun.events != [] then (Take(begun, Pop).p, Returned(begun.events[0]))
    else
      var done := Run(begun, MainSteps(s, main));
      if done.events != [] then (Take(done, Pop).p, Returned(done.events[0])) else (done, Waiting)
  }

  /** An initiator without a handshake hash first writes and reads. */
  function Begin(s: Schema, p: Proto, early: Readiness): (r: Proto)
    requires p.Good()
    ensures r.Good()
  {
    Run(p, EarlySteps(s, p, early))
  }

  function EarlySteps(s: Schema, p: Proto, early: Readiness): seq<Step> {
    if p.initiator && p.hash.None? then OutboundSteps(early.batches) + StreamSteps(s, early.events) else []
  }

  function MainSteps(s: Schema, main: Readiness): seq<Step> {
    StreamSteps(s, main.events) + CommandSteps(main.commands) + OutboundSteps(main.batches)
  }

  /**
   What happens to a protocol object: it is polled, and the poll completes or fails after so many of its
   steps; or a user closes a channel or drops a receiver.
   */
  datatype Happening =
    | Completed(early: Readiness, main: Readiness)
    | Failed(early: Readiness, main: Readiness, made: nat)
    | ChannelShut(cell: nat)
    | ReceiverDropped(inbox: nat)

  function After(s: Schema, p: Proto, h: Happening): (r: Proto)
    requires p.Good()
    ensures r.Good()
  {
    match h
    case Completed(early, main) => Poll(s, p, early, main).0
    case Failed(early, main, made) => Run(p, FirstSteps(EarlySteps(s, p, early) + MainSteps(s, main), made))
    case ChannelShut(cell) => Take(p, ShutFlag(cell)).p
    case ReceiverDropped(inbox) => Take(p, DropQueue(inbox)).p
  }

  function FirstSteps(steps: seq<Step>, n: nat): seq<Step> {
    if n < |steps| then steps[..n] else steps
  }

  function AfterAll(s: Schema, p: Proto, hs: seq<Happening>): (r: Proto)
    requires p.Good()
    ensures r.Good()
  {
    if hs == [] then p else After(s, AfterAll(s, p, hs[..|hs| - 1]), hs[|hs| - 1])
  }

  //
  // What polls return
  //

  /** Steps that return no event. */
  predicate ReturnsNothing(steps: seq<Step>) {
    forall i | 0 <= i < |steps| :: !steps[i].Pop? && !steps[i].EmitHandshake?
  }

  lemma {:induction false} RunReturnsNothing(p: Proto, steps: seq<Step>)
    requires p.Good() && ReturnsNothing(steps)
    ensures Run(p, steps).emitted == p.emitted
    decreases |steps|
  {
    hide Take;
    if steps == [] {
    } else {
      var n := |steps| - 1;
      RunReturnsNothing(p, steps[..n]);
      E.StepExtends(Run(p, steps[..n]), steps[n]);
    }
  }

  lemma {:induction false} StreamReturnsNothing(s: Schema, events: seq<StreamEvent>)
    ensures ReturnsNothing(StreamSteps(s, events))
  {
    if events == [] {
    } else {
      StreamReturnsNothing(s, events[1..]);
    }
  }

  lemma PartsReturnNothing(s: Schema, p: Proto, early: Readiness, main: Readiness)
    ensures ReturnsNothing(EarlySteps(s, p, early)) && ReturnsNothing(MainSteps(s, main))
  {
    hide StreamSteps;
    StreamReturnsNothing(s, early.events);
    StreamReturnsNothing(s, main.events);
  }

  /**
   The event that a poll returns is the one it adds to the events returned so far; a poll that waits
   returns nothing and leaves no event behind, other than for an initiator without a handshake hash.
   */
  lemma PollReturns(s: Schema, p: Proto, early: Readiness, main: Readiness)
    requires p.Good()
    ensures var r := Poll(s, p, early, main);
            && !r.1.Broken?
            && r.0.emitted == p.emitted + (if r.1.Returned? then [r.1.event] else [])
            && (r.1.Waiting? ==> r.0.events == [] || (p.initiator && r.0.hash.None?))
  {
    hide Run, EarlySteps, MainSteps, ReturnsNothing;
    PartsReturnNothing(s, p, early, main);
    var begun := Begin(s, p, early);
    RunReturnsNothing(p, EarlySteps(s, p, early));
    RunReturnsNothing(begun, MainSteps(s, main));
    assert p.emitted + [] == p.emitted;
  }

  //
  // How phases and polls end
  //

  /** How a phase of a poll ends. */
  datatype Phase = Fine | StepFailed(problem: Problem) | IoFailed

  /** Steps tried in order: how many were made, the failing one included, and how the last one failed. */
  datatype Tried = Tried(made: nat, problem: Option<Problem>) {
    function Phase(): Phase { if problem.Some? then StepFailed(problem.value) else Fine }
  }

  /** Makes steps in order up to the first that fails. */
  function Attempt(p: Proto, steps: seq<Step>): (t: Tried)
    requires p.Good()
    ensures t.made <= |steps| && (t.problem.None? ==> t.made == |steps|) && (t.problem.Some? ==> t.made > 0)
    decreases |steps|
  {
    if steps == [] then Tried(0, None)
    else
      var n := |steps| - 1;
      var t := Attempt(p, steps[..n]);
      if t.problem.Some? then t else Tried(n + 1, Take(Run(p, steps[..n]), steps[n]).problem)
  }

  /** No step that is made fails but the last, and that one as reported. */
  lemma {:induction false} AttemptExactly(p: Proto, steps: seq<Step>, i: nat)
    requires p.Good() && i < Attempt(p, steps).made
    ensures var t := Attempt(p, steps);
            Take(Run(p, steps[..i]), steps[i]).problem == if i == t.made - 1 then t.problem else None
    decreases |steps|
  {
    hide Take;
    if steps == [] {
    } else {
      var n := |steps| - 1;
      if i < Attempt(p, steps[..n]).made {
        AttemptExactly(p, steps[..n], i);
        assert steps[..n][..i] == steps[..i];
      }
    }
  }

  lemma AttemptMore(p: Proto, steps: seq<Step>, s: Step)
    requires p.Good()
    ensures var t := Attempt(p, steps);
            Attempt(p, steps + [s]) == if t.problem.Some? then t else Tried(|steps| + 1, Take(Run(p, steps), s).problem)
  {
    hide Take, Run;
    assert (steps + [s])[..|steps + [s]| - 1] == steps;
  }

  lemma AttemptNone(p: Proto)
    requires p.Good()
    ensures Attempt(p, []) == Tried(0, None)
  {
  }

  lemma {:induction false} AttemptAppend(p: Proto, first: seq<Step>, second: seq<Step>)
    requires p.Good()
    ensures var t, u := Attempt(p, first), Attempt(Run(p, first), second);
            Attempt(p, first + second) == if t.problem.Some? then t else Tried(|first| + u.made, u.problem)
    decreases |second|
  {
    hide Take, Run, Attempt;
    if second == [] {
      assert first + second == first;
      AttemptNone(Run(p, first));
    } else {
      var n := |second| - 1;
      var front, last := second[..n], second[n];
      AttemptAppend(p, first, front);
      RunAppend(p, first, front);
      AttemptMore(p, first + front, last);
      AttemptMore(Run(p, first), front, last);
      assert front + [last] == second;
      Joined(first, front, last);
    }
  }

  lemma Joined(first: seq<Step>, front: seq<Step>, last: Step)
    ensures (first + front) + [last] == first + (front + [last])
  {
  }

  /** Some event of the stream is a failure or a buffer that cannot be decoded. */
  predicate StreamBreaks(s: Schema, events: seq<StreamEvent>) {
    exists i :: 0 <= i < |events| && Unreadable(s, events[i])
  }

  predicate Unreadable(s: Schema, e: StreamEvent) {
    match e
    case HandshakePayload(_, _) => false
    case StreamFailure => true
    case Frame(b) => DecodeAll(s, AsWritten, b).Failure?
  }

  lemma UnreadableIs(s: Schema, e: StreamEvent)
    ensures Unreadable(s, e) <==> !e.HandshakePayload? && Reading(s, e).Error?
  {
    hide DecodeAll;
  }

  lemma BreaksLater(s: Schema, events: seq<StreamEvent>)
    requires events != []
    ensures StreamBreaks(s, events) <==> Unreadable(s, events[0]) || StreamBreaks(s, events[1..])
  {
    hide Unreadable;
    if StreamBreaks(s, events[1..]) {
      var i :| 0 <= i < |events[1..]| && Unreadable(s, events[1..][i]);
      assert events[i + 1] == events[1..][i];
    }
    if StreamBreaks(s, events) {
      var i :| 0 <= i < |events| && Unreadable(s, events[i]);
      if i > 0 {
        assert events[1..][i - 1] == events[i];
      }
    }
  }

  /** Reading ends at the first failing step, or at the first event that cannot be read, or well. */
  function ReadingPhase(s: Schema, p: Proto, events: seq<StreamEvent>): Phase
    requires p.Good()
  {
    var t := Attempt(p, StreamSteps(s, events));
    if t.problem.Some? then t.Phase() else if StreamBreaks(s, events) then IoFailed else Fine
  }

  /** What is left of a queue when its first `k` frames are gone. */
  function Unsent(q: seq<ChannelMessage>, k: nat): seq<ChannelMessage>
    requires k <= |Frames(q)|
  {
    Flatten(Frames(q)[k..])
  }

  /** How many batches were handled, whether the transport failed, and the queue then. */
  datatype Written = Written(made: nat, failed: bool, queue: seq<ChannelMessage>)

  /** Drives the queue before the first batch and after each, until the transport fails. */
  function Write(q: seq<ChannelMessage>, batches: seq<seq<ChannelMessage>>, turns: seq<seq<Turn>>): (w: Written)
    ensures w.made <= |batches| && (!w.failed ==> w.made == |batches|)
    decreases |batches|
  {
    var d := Outcome(if turns == [] then [] else turns[0], |Frames(q)|);
    var rest := Unsent(q, d.sent + d.refused);
    if d.result.Failed? || batches == [] then Written(0, d.result.Failed?, rest)
    else
      var w := Write(rest + Kept(batches[0]), batches[1..], if turns == [] then [] else turns[1..]);
      w.(made := w.made + 1)
  }

  function TurnsAt(turns: seq<seq<Turn>>, i: nat): seq<Turn> { if i < |turns| then turns[i] else [] }

  /** The queue before round `i`, if no earlier round fails. */
  function QueueAt(q: seq<ChannelMessage>, batches: seq<seq<ChannelMessage>>, turns: seq<seq<Turn>>, i: nat): seq<ChannelMessage>
    requires i <= |batches|
  {
    if i == 0 then q
    else
      var before := QueueAt(q, batches, turns, i - 1);
      var d := Outcome(TurnsAt(turns, i - 1), |Frames(before)|);
      Unsent(before, d.sent + d.refused) + Kept(batches[i - 1])
  }

  /** The transport refuses a frame of the round, or fails to flush one. */
  predicate RoundFails(q: seq<ChannelMessage>, turns: seq<Turn>) {
    var c := Clean(turns);
    c < |Frames(q)| && c < |turns| && turns[c].TurnReady? && (!turns[c].accepts || turns[c].flush.FlushFailed?)
  }

  lemma {:induction false} QueueLater(q: seq<ChannelMessage>, batches: seq<seq<ChannelMessage>>, turns: seq<seq<Turn>>, i: nat)
    requires batches != [] && i < |batches|
    ensures QueueAt(q, batches, turns, i + 1)
         == QueueAt(QueueAt(q, batches, turns, 1), batches[1..], if turns == [] then [] else turns[1..], i)
    decreases i
  {
    hide Outcome, Frames, Unsent, Kept;
    if i == 0 {
    } else {
      QueueLater(q, batches, turns, i - 1);
    }
  }

  /** Writing fails in the first round that fails, after as many batches, and otherwise handles all of them. */
  lemma {:induction false} WriteExactly(q: seq<ChannelMessage>, batches: seq<seq<ChannelMessage>>, turns: seq<seq<Turn>>)
    ensures var w := Write(q, batches, turns);
            && (forall i | 0 <= i < w.made :: !RoundFails(QueueAt(q, batches, turns, i), TurnsAt(turns, i)))
            && (w.failed <==> RoundFails(QueueAt(q, batches, turns, w.made), TurnsAt(turns, w.made)))
    decreases |batches|
  {
    hide Outcome, Frames, Unsent, Kept, Write, QueueAt, RoundFails;
    WriteStep(q, batches, turns);
    if RoundFails(q, TurnsAt(turns, 0)) || batches == [] {
    } else {
      var next, rest, later := QueueAt(q, batches, turns, 1), batches[1..], if turns == [] then [] else turns[1..];
      WriteExactly(next, rest, later);
      var w := Write(next, rest, later);
      forall i | 0 <= i <= w.made
        ensures QueueAt(q, batches, turns, i + 1) == QueueAt(next, rest, later, i) && TurnsAt(turns, i + 1) == TurnsAt(later, i)
      {
        QueueLater(q, batches, turns, i);
      }
      forall i | 0 <= i < w.made + 1 ensures !RoundFails(QueueAt(q, batches, turns, i), TurnsAt(turns, i)) {
        if i > 0 {
          assert !RoundFails(QueueAt(next, rest, later, i - 1), TurnsAt(later, i - 1));
        }
      }
    }
  }

  /** The first round of writing. */
  lemma WriteStep(q: seq<ChannelMessage>, batches: seq<seq<ChannelMessage>>, turns: seq<seq<Turn>>)
    ensures QueueAt(q, batches, turns, 0) == q
    ensures var w, fails := Write(q, batches, turns), RoundFails(q, TurnsAt(turns, 0));
            if fails || batches == [] then w.made == 0 && w.failed == fails
            else
              var v := Write(QueueAt(q, batches, turns, 1), batches[1..], if turns == [] then [] else turns[1..]);
              w.made == v.made + 1 && w.failed == v.failed
  {
    hide Outcome, Frames, Unsent, Kept;
    OutcomeExactly(TurnsAt(turns, 0), |Frames(q)|);
    if batches != [] {
      assert QueueAt(q, batches, turns, 0) == q;
    }
  }

  /** What a run added to the outgoing messages. */
  function Added(p: Proto, r: Proto): seq<ChannelMessage> {
    if |p.outbox| <= |r.outbox| then r.outbox[|p.outbox|..] else []
  }

  /** How a poll or a part of it ends: how many steps it made, whether it failed, and the queue then. */
  datatype Ending = Ending(made: nat, broken: bool, queue: seq<ChannelMessage>)

  /** The first part of a poll: an initiator without a handshake hash writes and reads. */
  function EarlyEnding(s: Schema, p: Proto, q: seq<ChannelMessage>, early: Readiness, turns: seq<seq<Turn>>): Ending
    requires p.Good()
  {
    if !(p.initiator && p.hash.None?) then Ending(0, false, q)
    else
      var w := Write(q, early.batches, turns);
      if w.failed then Ending(w.made, true, w.queue)
      else
        var written := Run(p, OutboundSteps(early.batches));
        Ending(w.made + Attempt(written, StreamSteps(s, early.events)).made,
               !ReadingPhase(s, written, early.events).Fine?, w.queue)
  }

  /** The main part: read, execute commands, write, up to the first failure. */
  function MainEnding(s: Schema, p: Proto, q: seq<ChannelMessage>, main: Readiness, turns: seq<seq<Turn>>): Ending
    requires p.Good()
  {
    var reading := StreamSteps(s, main.events);
    if !ReadingPhase(s, p, main.events).Fine? then Ending(Attempt(p, reading).made, true, q)
    else
      var p1 := Run(p, reading);
      var t := Attempt(p1, CommandSteps(main.commands));
      var p2 := Run(p1, CommandSteps(main.commands)[..t.made]);
      if t.problem.Some? then Ending(|reading| + t.made, true, q + Added(p1, p2))
      else
        var w := Write(q + Added(p1, p2), main.batches, turns);
        Ending(|reading| + t.made + w.made, w.failed, w.queue)
  }

  /** A poll returns before its main part: without a hash, with the handshake event, or with a queued one. */
  predicate ReturnsEarly(p: Proto, begun: Proto) {
    (p.initiator && begun.hash.None?) || (!begun.handshakeEmitted && begun.remoteKey.Some?) || begun.events != []
  }

  /** A whole poll, given the queue and how the transport answers in its first and in its main part. */
  function PollEnding(s: Schema, p: Proto, q: seq<ChannelMessage>, early: Readiness, main: Readiness,
                      earlyTurns: seq<seq<Turn>>, turns: seq<seq<Turn>>): Ending
    requires p.Good()
  {
    var e := EarlyEnding(s, p, q, early, earlyTurns);
    var begun := Begin(s, p, early);
    if e.broken || ReturnsEarly(p, begun) then e
    else
      var m := MainEnding(s, begun, e.queue, main, turns);
      m.(made := |EarlySteps(s, p, early)| + m.made)
  }

  //
  // The handshake event comes first
  //

  /** A stream that knows the handshake hash knows the remote key. */
  predicate Coherent(events: seq<StreamEvent>) {
    forall i | 0 <= i < |events| && events[i].HandshakePayload? :: events[i].hash.Some? ==> events[i].remoteKey.Some?
  }

  /** Nothing but steps that return no event and keep the hash and the remote key in step. */
  predicate Silent(steps: seq<Step>) {
    forall i | 0 <= i < |steps| ::
      && !steps[i].Pop? && !steps[i].EmitHandshake?
      && (steps[i].Learn? && steps[i].hash.Some? ==> steps[i].remoteKey.Some?)
  }

  predicate HashHasKey(p: Proto) { p.hash.Some? ==> p.remoteKey.Some? }

  /** If an initiator has returned anything, the handshake event was the first thing it returned. */
  predicate HandshakeFirst(p: Proto) {
    && (p.initiator && p.emitted != [] ==> p.emitted[0].HandshakeDone?)
    && (p.handshakeEmitted ==> p.emitted != [])
    && HashHasKey(p)
  }

  lemma {:induction false} StreamIsSilent(s: Schema, events: seq<StreamEvent>)
    requires Coherent(events)
    ensures Silent(StreamSteps(s, events))
  {
    if events == [] {
    } else {
      StreamIsSilent(s, events[1..]);
    }
  }

  lemma {:induction false} SilentRun(p: Proto, steps: seq<Step>)
    requires p.Good() && Silent(steps) && HashHasKey(p)
    ensures var r := Run(p, steps);
            r.emitted == p.emitted && r.handshakeEmitted == p.handshakeEmitted && r.initiator == p.initiator && HashHasKey(r)
    decreases |steps|
  {
    hide Take;
    if steps == [] {
    } else {
      var n := |steps| - 1;
      SilentRun(p, steps[..n]);
      SilentStep(Run(p, steps[..n]), steps[n]);
    }
  }

  lemma SilentStep(p: Proto, s: Step)
    requires p.Good() && !s.Pop? && !s.EmitHandshake? && HashHasKey(p)
    requires s.Learn? && s.hash.Some? ==> s.remoteKey.Some?
    ensures var r := Take(p, s).p;
            r.emitted == p.emitted && r.handshakeEmitted == p.handshakeEmitted && r.initiator == p.initiator && HashHasKey(r)
  {
    E.StepExtends(p, s);
    if !s.Learn? {
      E.StepKeepsPeer(p, s);
    }
  }

  predicate AllCoherent(hs: seq<Happening>) {
    forall i | 0 <= i < |hs| && (hs[i].Completed? || hs[i].Failed?) ::
      Coherent(hs[i].early.events) && Coherent(hs[i].main.events)
  }

  lemma PollIsSilent(s: Schema, p: Proto, early: Readiness, main: Readiness)
    requires Coherent(early.events) && Coherent(main.events)
    ensures Silent(EarlySteps(s, p, early)) && Silent(MainSteps(s, main))
  {
    hide StreamSteps;
    StreamIsSilent(s, early.events);
    StreamIsSilent(s, main.events);
  }

  /** A poll that does not fail keeps the handshake event ahead of all others. */
  lemma PollKeepsHandshakeFirst(s: Schema, p: Proto, early: Readiness, main: Readiness)
    requires p.Good() && HandshakeFirst(p) && Coherent(early.events) && Coherent(main.events)
    ensures HandshakeFirst(Poll(s, p, early, main).0)
  {
    hide Run, EarlySteps, MainSteps, Silent;
    PollIsSilent(s, p, early, main);
    SilentRun(p, EarlySteps(s, p, early));
    SilentRun(Begin(s, p, early), MainSteps(s, main));
  }

  lemma AfterKeepsHandshakeFirst(s: Schema, p: Proto, h: Happening)
    requires p.Good() && HandshakeFirst(p) && AllCoherent([h])
    ensures HandshakeFirst(After(s, p, h))
  {
    hide Run, EarlySteps, MainSteps, Poll;
    assert [h][0] == h;
    match h {
      case Completed(early, main) => PollKeepsHandshakeFirst(s, p, early, main);
      case Failed(early, main, made) =>
        PollIsSilent(s, p, early, main);
        SilentRun(p, FirstSteps(EarlySteps(s, p, early) + MainSteps(s, main), made));
      case ChannelShut(cell) => SilentStep(p, ShutFlag(cell));
      case ReceiverDropped(inbox) => SilentStep(p, DropQueue(inbox));
    }
  }

  /**
   The handshake event comes first: whatever happens to a new initiator, failed polls included, the first
   event it ever returns is the handshake, if its stream learns the remote key no later than the hash.
   */
  lemma {:induction false} HandshakeComesFirst(s: Schema, crypto: Crypto, initiator: bool, hs: seq<Happening>)
    requires AllCoherent(hs)
    ensures HandshakeFirst(AfterAll(s, Start(crypto, initiator), hs))
    decreases |hs|
  {
    hide After;
    if hs == [] {
    } else {
      var n := |hs| - 1;
      HandshakeComesFirst(s, crypto, initiator, hs[..n]);
      assert [hs[n]][0] == hs[n];
      AfterKeepsHandshakeFirst(s, AfterAll(s, Start(crypto, initiator), hs[..n]), hs[n]);
    }
  }

  /** Everything that happens to a protocol object is a run: the theorems about runs hold of it. */
  lemma {:induction false} AfterAllIsRun(s: Schema, p: Proto, hs: seq<Happening>) returns (steps: seq<Step>)
    requires p.Good()
    ensures AfterAll(s, p, hs) == Run(p, steps)
    decreases |hs|
  {
    hide Take, Poll, EarlySteps, MainSteps, Run;
    if hs == [] {
      steps := [];
      NoSteps(p);
    } else {
      var n := |hs| - 1;
      steps := AfterAllIsRun(s, p, hs[..n]);
      var q, last := AfterAll(s, p, hs[..n]), [];
      match hs[n] {
        case Completed(early, main) => last := PollIsRun(s, q, early, main);
        case Failed(early, main, made) => last := FirstSteps(EarlySteps(s, q, early) + MainSteps(s, main), made);
        case ChannelShut(cell) =>
          last := [ShutFlag(cell)];
          OneStep(q, ShutFlag(cell));
        case ReceiverDropped(inbox) =>
          last := [DropQueue(inbox)];
          OneStep(q, DropQueue(inbox));
      }
      RunAppend(p, steps, last);
      steps := steps + last;
    }
  }

  lemma NoSteps(p: Proto)
    requires p.Good()
    ensures Run(p, []) == p
  {
  }

  lemma OneStep(p: Proto, s: Step)
    requires p.Good()
    ensures Run(p, [s]) == Take(p, s).p
  {
    OneMore(p, [], s);
    assert [] + [s] == [s];
  }

  lemma PollIsRun(s: Schema, p: Proto, early: Readiness, main: Readiness) returns (steps: seq<Step>)
    requires p.Good()
    ensures Poll(s, p, early, main).0 == Run(p, steps)
  {
    hide Take;
    var begun := Begin(s, p, early);
    var first := EarlySteps(s, p, early);
    if p.initiator && begun.hash.None? {
      return first;
    } else if !begun.handshakeEmitted && begun.remoteKey.Some? {
      OneMore(p, first, EmitHandshake);
      return first + [EmitHandshake];
    } else if begun.events != [] {
      OneMore(p, first, Pop);
      return first + [Pop];
    } else {
      RunAppend(p, first, MainSteps(s, main));
      steps := first + MainSteps(s, main);
      if Run(p, steps).events != [] {
        OneMore(p, steps, Pop);
        steps := steps + [Pop];
      }
    }
  }

  lemma OneMore(p: Proto, steps: seq<Step>, s: Step)
    requires p.Good()
    ensures Run(p, steps + [s]) == Take(Run(p, steps), s).p
  {
    hide Take;
    assert (steps + [s])[..|steps + [s]| - 1] == steps;
  }

  /** The Open that announces a key can be sent. */
  lemma OpenIsCarried(s: Schema, p: Proto, id: nat, key: Key)
    requires s.Valid() && s.utf8(PROTOCOL_NAME) && 1 <= id < U64_LIMIT
    ensures Carried(s, OpenMessage(p, id, p.crypto.discovery(key), key))
  {
  }
}
