/** The life of a channel over whole protocol runs: its closed flag, and the messages it receives. */
module ChannelLifetime {
  import opened Wrappers
  import opened Handshake
  import opened Messages
  import opened Channels
  import opened ProtocolModel
  import opened ChannelTheorems
  import R = TableRuns

  //
  // Every protocol run is a run of table operations
  //

  function RemovalOps(found: Option<Handle>): seq<R.Op> {
    if found.Some? then [R.RemoveKey(found.value.discoveryKey)] else []
  }

  function BatchOps(p: Proto, ms: seq<ChannelMessage>): seq<R.Op>
    requires p.Good()
  {
    if ms == [] then []
    else
      var n := |ms| - 1;
      BatchOps(p, ms[..n])
      + if ms[n].message.Close? then RemovalOps(GetLocal(OnBatch(p, ms[..n]).table, ms[n].channel)) else []
  }

  function InboundOps(p: Proto, m: ChannelMessage): seq<R.Op>
    requires p.Good()
  {
    match m.message
    case Open(o) =>
      if |o.discoveryKey| != 32 then []
      else
        var dk: Key := o.discoveryKey;
        var h := AttachRemote(p.table, dk, m.channel, o.capability).channels[dk];
        [R.OpenRemote(dk, m.channel, o.capability)]
        + if h.IsConnected() && Verdict(p, h).None? then [R.AcceptId(h.local.value.localId)] else []
    case Close(_) =>
      if GetRemote(p.table, m.channel).None? then []
      else [R.ForwardTo(m.channel, m.message)] + RemovalOps(GetRemote(p.table, m.channel))
    case _ => [R.ForwardTo(m.channel, m.message)]
  }

  function CommandOps(p: Proto, c: Command): seq<R.Op>
    requires p.Good()
  {
    match c
    case OpenKey(key) =>
      var dk := p.crypto.discovery(key);
      var h := AttachLocal(p.table, dk, key).channels[dk];
      [R.OpenLocal(dk, key)]
      + if h.IsConnected() && Verdict(p, h).None? then [R.AcceptId(h.local.value.localId)] else []
    case CloseKey(dk) => [R.RemoveKey(dk)]
    case SignalLocal(_, _) => []
  }

  /** The table operations behind a protocol step. */
  function StepOps(p: Proto, s: Step): seq<R.Op>
    requires p.Good()
  {
    match s
    case Inbound(m) => InboundOps(p, m)
    case Execute(c) => CommandOps(p, c)
    case Outbound(ms) => BatchOps(p, ms)
    case ShutFlag(c) => [R.ShutChannel(c)]
    case DropQueue(x) => [R.DropInbox(x)]
    case _ => []
  }

  function RunOps(p: Proto, steps: seq<Step>): seq<R.Op>
    requires p.Good()
    decreases |steps|
  {
    if steps == [] then []
    else
      var n := |steps| - 1;
      RunOps(p, steps[..n]) + StepOps(Run(p, steps[..n]), steps[n])
  }

  lemma OneOp(t: Table, op: R.Op)
    requires Sound(t)
    ensures R.Run(t, [op]) == R.Apply(t, op)
  {
    assert [op][1..] == [];
  }

  lemma TwoOps(t: Table, first: R.Op, second: R.Op)
    requires Sound(t)
    ensures R.Run(t, [first] + [second]) == R.Apply(R.Apply(t, first), second)
  {
    OneOp(t, first);
    OneOp(R.Apply(t, first), second);
    R.RunAppend(t, [first], [second]);
  }

  /** Accepting a handle by its own id gives it an inbox. */
  lemma AcceptOp(t: Table, dk: Key)
    requires Sound(t) && dk in t.channels && t.channels[dk].IsConnected()
    ensures R.Apply(t, R.AcceptId(t.channels[dk].local.value.localId)) == OpenInbox(t, dk).0
  {
    assert HandleSound(t, dk);
  }

  lemma OpenRefines(t: Table, open: R.Op, dk: Key, accepted: bool)
    requires Sound(t) && dk in R.Apply(t, open).channels
    requires accepted ==> R.Apply(t, open).channels[dk].IsConnected()
    ensures var r := R.Apply(t, open);
            && (accepted ==> R.Run(t, [open] + [R.AcceptId(r.channels[dk].local.value.localId)]) == OpenInbox(r, dk).0)
            && (!accepted ==> R.Run(t, [open] + []) == r)
  {
    hide R.Apply, Sound;
    var r := R.Apply(t, open);
    if accepted {
      TwoOps(t, open, R.AcceptId(r.channels[dk].local.value.localId));
      AcceptOp(r, dk);
    } else {
      assert [open] + [] == [open];
      OneOp(t, open);
    }
  }

  lemma InboundRefines(p: Proto, m: ChannelMessage)
    requires p.Good()
    ensures OnInboundMessage(p, m).p.table == R.Run(p.table, InboundOps(p, m))
  {
    hide Sound, AcceptChannel, OpenInbox;
    match m.message
    case Open(o) =>
      if |o.discoveryKey| == 32 {
        var dk: Key := o.discoveryKey;
        var h := AttachRemote(p.table, dk, m.channel, o.capability).channels[dk];
        OnOpenOutcome(p, m);
        OpenRefines(p.table, R.OpenRemote(dk, m.channel, o.capability), dk, h.IsConnected() && Verdict(p, h).None?);
      }
    case Close(_) =>
      var found := GetRemote(p.table, m.channel);
      if found.Some? {
        TwoOps(p.table, R.ForwardTo(m.channel, m.message), R.RemoveKey(found.value.discoveryKey));
      }
    case _ => OneOp(p.table, R.ForwardTo(m.channel, m.message));
  }

  lemma CommandRefines(p: Proto, c: Command)
    requires p.Good()
    ensures OnCommand(p, c).p.table == R.Run(p.table, CommandOps(p, c))
  {
    hide Sound, AcceptChannel, OpenInbox;
    match c
    case OpenKey(key) =>
      var dk := p.crypto.discovery(key);
      var h := AttachLocal(p.table, dk, key).channels[dk];
      CommandOpenOutcome(p, key);
      OpenRefines(p.table, R.OpenLocal(dk, key), dk, h.IsConnected() && Verdict(p, h).None?);
    case CloseKey(dk) => OneOp(p.table, R.RemoveKey(dk));
    case SignalLocal(_, _) =>
  }

  lemma {:induction false} BatchRefines(p: Proto, ms: seq<ChannelMessage>)
    requires p.Good()
    ensures OnBatch(p, ms).table == R.Run(p.table, BatchOps(p, ms))
  {
    hide Sound, R.Apply;
    if ms == [] {
    } else {
      var n := |ms| - 1;
      BatchRefines(p, ms[..n]);
      var q := OnBatch(p, ms[..n]);
      var found := GetLocal(q.table, ms[n].channel);
      if ms[n].message.Close? && found.Some? {
        R.RunAppend(p.table, BatchOps(p, ms[..n]), RemovalOps(found));
        OneOp(q.table, R.RemoveKey(found.value.discoveryKey));
        RemoveOp(q.table, found.value.discoveryKey);
      } else {
        assert BatchOps(p, ms) == BatchOps(p, ms[..n]);
      }
    }
  }

  lemma RemoveOp(t: Table, dk: Key)
    requires Sound(t)
    ensures R.Apply(t, R.RemoveKey(dk)) == Remove(t, dk)
  {
  }

  lemma StepRefines(p: Proto, s: Step)
    requires p.Good()
    ensures Take(p, s).p.table == R.Run(p.table, StepOps(p, s))
  {
    hide Sound, OnInboundMessage, OnCommand, OnBatch, InboundOps, CommandOps, BatchOps;
    match s
    case Inbound(m) => InboundRefines(p, m);
    case Execute(c) => CommandRefines(p, c);
    case Outbound(ms) => BatchRefines(p, ms);
    case ShutFlag(c) => OneOp(p.table, R.ShutChannel(c));
    case DropQueue(x) => OneOp(p.table, R.DropInbox(x));
    case _ =>
  }

  /** Whatever holds of all runs of table operations holds of the table in every protocol run. */
  lemma {:induction false} ProtocolRefinesTable(p: Proto, steps: seq<Step>)
    requires p.Good()
    ensures Run(p, steps).table == R.Run(p.table, RunOps(p, steps))
    decreases |steps|
  {
    hide Sound, Take, StepOps;
    if steps == [] {
    } else {
      var n := |steps| - 1;
      ProtocolRefinesTable(p, steps[..n]);
      var q := Run(p, steps[..n]);
      StepRefines(q, steps[n]);
      R.RunAppend(p.table, RunOps(p, steps[..n]), StepOps(q, steps[n]));
    }
  }

  //
  // Closed flags
  //

  /** Every channel announced names a cell made for its own key. */
  ghost predicate CellsKnown(p: Proto) {
    forall c | Established(c) in p.History() ::
      c.cell < |p.table.cells| && p.table.cells[c.cell].owner == c.discoveryKey
  }

  /** A step announces at most a channel whose handle is in the table. */
  lemma NewChannelInTable(p: Proto, s: Step, c: Channel)
    requires p.Good() && Established(c) in Take(p, s).p.History() && Established(c) !in p.History()
    ensures var t := Take(p, s).p.table; c.cell < |t.cells| && t.cells[c.cell].owner == c.discoveryKey
  {
    hide Sound, OnInboundMessage, OnCommand, OnBatch;
    if s.Inbound? && s.message.message.Open? {
      NewFromOpen(p, s.message, c);
    } else if s.Execute? && s.command.OpenKey? {
      NewFromCommand(p, s.command.key, c);
    } else if !s.Learn? {
      QuietStepNarrows(p, s);
    }
  }

  lemma NewFromOpen(p: Proto, m: ChannelMessage, c: Channel)
    requires p.Good() && m.message.Open?
    requires Established(c) in OnInboundMessage(p, m).p.History() && Established(c) !in p.History()
    ensures var t := OnInboundMessage(p, m).p.table; c.cell < |t.cells| && t.cells[c.cell].owner == c.discoveryKey
  {
    hide Sound, AcceptChannel;
    var o := m.message.open;
    if |o.discoveryKey| == 32 {
      OnOpenOutcome(p, m);
      HandleCell(AttachRemote(p.table, o.discoveryKey, m.channel, o.capability), o.discoveryKey);
    }
  }

  lemma NewFromCommand(p: Proto, key: Key, c: Channel)
    requires p.Good()
    requires Established(c) in OnCommand(p, OpenKey(key)).p.History() && Established(c) !in p.History()
    ensures var t := OnCommand(p, OpenKey(key)).p.table; c.cell < |t.cells| && t.cells[c.cell].owner == c.discoveryKey
  {
    hide Sound, AcceptChannel;
    CommandOpenOutcome(p, key);
    var dk := p.crypto.discovery(key);
    HandleCell(AttachLocal(p.table, dk, key), dk);
  }

  lemma HandleCell(t: Table, dk: Key)
    requires Sound(t) && dk in t.channels
    ensures t.channels[dk].cell < |t.cells| && t.cells[t.channels[dk].cell].owner == dk
  {
    assert HandleSound(t, dk);
  }

  lemma StepKeepsCells(p: Proto, s: Step)
    requires p.Good()
    ensures R.CellsKept(p.table, Take(p, s).p.table)
  {
    hide Sound, Take, StepOps;
    StepRefines(p, s);
    R.RunKeepsCells(p.table, StepOps(p, s));
  }

  lemma {:induction false} RunCellsKnown(p: Proto, steps: seq<Step>)
    requires p.Good() && CellsKnown(p)
    ensures CellsKnown(Run(p, steps))
    decreases |steps|
  {
    hide Take, Sound;
    if steps == [] {
    } else {
      var n := |steps| - 1;
      RunCellsKnown(p, steps[..n]);
      var q := Run(p, steps[..n]);
      StepKeepsCells(q, steps[n]);
      forall c | Established(c) in Run(p, steps).History()
        ensures c.cell < |Run(p, steps).table.cells| && Run(p, steps).table.cells[c.cell].owner == c.discoveryKey
      {
        if Established(c) !in q.History() {
          NewChannelInTable(q, steps[n], c);
        }
      }
    }
  }

  /**
   On every run, a channel that was announced and whose handle has since left the table reports closed
   and refuses to send; and so it does after any further steps, also when its key is opened again.
   */
  lemma ClosedFlagSoundness(crypto: Crypto, initiator: bool, steps: seq<Step>, more: seq<Step>, c: Channel, ms: seq<Message>)
    requires Established(c) in Run(Start(crypto, initiator), steps).History()
    ensures var t := Run(Start(crypto, initiator), steps).table;
            var u := Run(Run(Start(crypto, initiator), steps), more).table;
            && c.cell < |t.cells| && c.cell < |u.cells|
            && (!InTable(t, c.cell) ==>
                  && SendOn(t, c, ms) == Failure(ChannelClosed)
                  && !InTable(u, c.cell) && SendOn(u, c, ms) == Failure(ChannelClosed))
  {
    hide Take, RunOps;
    var p0 := Start(crypto, initiator);
    RunCellsKnown(p0, steps);
    var p := Run(p0, steps);
    ProtocolRefinesTable(p, more);
    R.RunKeepsCells(p.table, RunOps(p, more));
    if !InTable(p.table, c.cell) {
      R.LeavingClosesForGood(p.table, RunOps(p, more), c.cell);
    }
  }

  //
  // Receivers
  //

  predicate AllReceiving(t: Table) {
    forall x | 0 <= x < |t.inboxes| :: t.inboxes[x].receiving
  }

  predicate NoDrops(ops: seq<R.Op>) {
    forall i | 0 <= i < |ops| :: !ops[i].DropInbox?
  }

  lemma {:induction false} OpsKeepReceiving(t: Table, ops: seq<R.Op>)
    requires Sound(t) && AllReceiving(t) && NoDrops(ops)
    ensures AllReceiving(R.Run(t, ops))
    decreases |ops|
  {
    if ops == [] {
    } else {
      hide HandleSound, InTable, FreeSlot, Assign;
      assert AllReceiving(R.Apply(t, ops[0]));
      hide R.Apply, Sound;
      OpsKeepReceiving(R.Apply(t, ops[0]), ops[1..]);
    }
  }

  lemma {:induction false} BatchDropsNothing(p: Proto, ms: seq<ChannelMessage>)
    requires p.Good()
    ensures NoDrops(BatchOps(p, ms))
  {
    hide Sound, OnBatch;
    if ms == [] {
    } else {
      BatchDropsNothing(p, ms[..|ms| - 1]);
    }
  }

  /** Only users drop receivers. */
  lemma StepKeepsReceiving(p: Proto, s: Step)
    requires p.Good() && AllReceiving(p.table) && !s.DropQueue?
    ensures AllReceiving(Take(p, s).p.table)
  {
    hide Sound, Take, R.Run, AttachRemote, AttachLocal, BatchOps, Verdict, AllReceiving;
    StepRefines(p, s);
    if s.Outbound? {
      BatchDropsNothing(p, s.batch);
    }
    OpsKeepReceiving(p.table, StepOps(p, s));
  }

  //
  // Demultiplexing
  //

  /** Channel `dk` receives what comes in on remote id `id`, through inbox `x`. */
  predicate Tuned(t: Table, dk: Key, id: nat, x: nat) {
    && dk in t.channels && t.channels[dk].HasRemote(id) && t.channels[dk].inbox == Some(x)
    && x < |t.inboxes| && t.inboxes[x].receiving
    && id < |t.remoteIds| && t.remoteIds[id] == Some(dk)
    && (forall i | 0 <= i < |t.remoteIds| && t.remoteIds[i] == Some(dk) :: i == id)
    && (forall d | d in t.channels && d != dk :: !t.channels[d].HasRemote(id))
  }

  /** The operation neither ends channel `dk`, nor opens it again, nor reuses its remote id. */
  predicate LeavesAlone(t: Table, op: R.Op, dk: Key, id: nat, x: nat) {
    match op
    case OpenRemote(d, i, _) => d != dk && i != id
    case RemoveKey(d) => d != dk
    case AcceptId(i) => !(i < |t.localIds| && t.localIds[i] == Some(dk))
    case DropInbox(y) => y != x
    case _ => true
  }

  predicate AllLeaveAlone(t: Table, ops: seq<R.Op>, dk: Key, id: nat, x: nat)
    requires Sound(t)
    decreases |ops|
  {
    ops != [] ==> LeavesAlone(t, ops[0], dk, id, x) && AllLeaveAlone(R.Apply(t, ops[0]), ops[1..], dk, id, x)
  }

  /** The messages forwarded to a remote id, in order. */
  function ForwardedOps(ops: seq<R.Op>, id: nat): seq<Message> {
    if ops == [] then []
    else (if ops[0].ForwardTo? && ops[0].id == id then [ops[0].message] else []) + ForwardedOps(ops[1..], id)
  }

  lemma ForwardDemux(t: Table, i: nat, m: Message, dk: Key, id: nat, x: nat)
    requires Sound(t) && Tuned(t, dk, id, x)
    ensures var r := R.Apply(t, R.ForwardTo(i, m));
            Tuned(r, dk, id, x) && r.inboxes[x].messages == t.inboxes[x].messages + if i == id then [m] else []
  {
    assert HandleSound(t, dk);
    if i != id && GetRemote(t, i).Some? {
      assert HandleSound(t, t.remoteIds[i].value);
    }
    assert t.inboxes[x].messages + [] == t.inboxes[x].messages;
  }

  lemma RemoveDemux(t: Table, d: Key, dk: Key, id: nat, x: nat)
    requires Sound(t) && Tuned(t, dk, id, x) && d != dk
    ensures var r := Remove(t, d); Tuned(r, dk, id, x) && r.inboxes[x].messages == t.inboxes[x].messages
  {
    hide InTable;
  }

  lemma OtherDemux(t: Table, op: R.Op, dk: Key, id: nat, x: nat)
    requires Sound(t) && Tuned(t, dk, id, x) && LeavesAlone(t, op, dk, id, x) && !op.ForwardTo?
    ensures var r := R.Apply(t, op); Tuned(r, dk, id, x) && r.inboxes[x].messages == t.inboxes[x].messages
  {
    hide InTable, FreeSlot, HandleSound, Remove;
    if op.RemoveKey? {
      RemoveDemux(t, op.dk, dk, id, x);
    } else if op.AcceptId? && GetLocal(t, op.id).Some? {
      OwnKey(t, op.id);
    }
  }

  lemma InboxExists(t: Table, dk: Key, id: nat, x: nat)
    requires Tuned(t, dk, id, x)
    ensures x < |t.inboxes|
  {
  }

  lemma {:induction false} DemuxOps(t: Table, ops: seq<R.Op>, dk: Key, id: nat, x: nat)
    requires Sound(t) && Tuned(t, dk, id, x) && AllLeaveAlone(t, ops, dk, id, x)
    ensures Tuned(R.Run(t, ops), dk, id, x)
    ensures R.Run(t, ops).inboxes[x].messages == t.inboxes[x].messages + ForwardedOps(ops, id)
    decreases |ops|
  {
    hide R.Apply, Sound, LeavesAlone, Tuned;
    InboxExists(t, dk, id, x);
    var before := t.inboxes[x].messages;
    if ops == [] {
      assert before + [] == before;
    } else {
      var op, rest := ops[0], ops[1..];
      var r := R.Apply(t, op);
      var now := if op.ForwardTo? && op.id == id then [op.message] else [];
      if op.ForwardTo? {
        ForwardDemux(t, op.id, op.message, dk, id, x);
      } else {
        OtherDemux(t, op, dk, id, x);
        assert before + [] == before;
      }
      InboxExists(r, dk, id, x);
      assert r.inboxes[x].messages == before + now;
      DemuxOps(r, rest, dk, id, x);
      assert (before + now) + ForwardedOps(rest, id) == before + (now + ForwardedOps(rest, id));
    }
  }

  /** The step neither ends channel `dk`, nor opens it again, nor reuses its remote id, nor drops its receiver. */
  predicate Undisturbed(p: Proto, s: Step, dk: Key, id: nat, x: nat)
    requires p.Good()
  {
    match s
    case Inbound(m) => (m.message.IsControl() ==> m.channel != id) && (m.message.Open? ==> m.message.open.discoveryKey != dk)
    case Execute(OpenKey(key)) => p.crypto.discovery(key) != dk
    case Execute(CloseKey(d)) => d != dk
    case Outbound(ms) => dk in OnBatch(p, ms).table.channels
    case DropQueue(y) => y != x
    case _ => true
  }

  predicate AllUndisturbed(p: Proto, steps: seq<Step>, dk: Key, id: nat, x: nat)
    requires p.Good()
    decreases |steps|
  {
    steps != [] ==>
      var n := |steps| - 1;
      AllUndisturbed(p, steps[..n], dk, id, x) && Undisturbed(Run(p, steps[..n]), steps[n], dk, id, x)
  }

  /** The messages that came in on a remote id, in order. */
  function Tagged(steps: seq<Step>, id: nat): seq<Message> {
    if steps == [] then []
    else
      var n := |steps| - 1;
      Tagged(steps[..n], id)
      + if steps[n].Inbound? && steps[n].message.channel == id then [steps[n].message.message] else []
  }

  lemma OneLeavesAlone(t: Table, op: R.Op, dk: Key, id: nat, x: nat)
    requires Sound(t) && LeavesAlone(t, op, dk, id, x)
    ensures AllLeaveAlone(t, [op], dk, id, x)
    ensures ForwardedOps([op], id) == if op.ForwardTo? && op.id == id then [op.message] else []
  {
  }

  lemma TwoLeaveAlone(t: Table, first: R.Op, second: R.Op, dk: Key, id: nat, x: nat)
    requires Sound(t) && LeavesAlone(t, first, dk, id, x) && LeavesAlone(R.Apply(t, first), second, dk, id, x)
    requires first.ForwardTo? ==> first.id != id
    requires !second.ForwardTo?
    ensures AllLeaveAlone(t, [first] + [second], dk, id, x) && ForwardedOps([first] + [second], id) == []
  {
    hide R.Apply, LeavesAlone, Sound;
    OneLeavesAlone(R.Apply(t, first), second, dk, id, x);
    assert ([first] + [second])[1..] == [second];
  }

  /** Accepting another key's handle leaves channel `dk` alone. */
  lemma AcceptLeavesAlone(t: Table, other: Key, dk: Key, id: nat, x: nat)
    requires Sound(t) && other in t.channels && t.channels[other].local.Some? && other != dk
    ensures LeavesAlone(t, R.AcceptId(t.channels[other].local.value.localId), dk, id, x)
  {
    assert HandleSound(t, other);
  }

  lemma InboundDemux(p: Proto, m: ChannelMessage, dk: Key, id: nat, x: nat)
    requires p.Good() && Tuned(p.table, dk, id, x) && Undisturbed(p, Inbound(m), dk, id, x)
    ensures AllLeaveAlone(p.table, InboundOps(p, m), dk, id, x)
    ensures ForwardedOps(InboundOps(p, m), id) == if m.channel == id then [m.message] else []
  {
    hide Sound, Tuned;
    match m.message
    case Open(o) =>
      if |o.discoveryKey| == 32 {
        var d: Key := o.discoveryKey;
        var open := R.OpenRemote(d, m.channel, o.capability);
        var t := AttachRemote(p.table, d, m.channel, o.capability);
        var h := t.channels[d];
        if h.IsConnected() && Verdict(p, h).None? {
          AcceptLeavesAlone(t, d, dk, id, x);
          TwoLeaveAlone(p.table, open, R.AcceptId(h.local.value.localId), dk, id, x);
        } else {
          OneLeavesAlone(p.table, open, dk, id, x);
          assert [open] + [] == [open];
        }
      }
    case Close(_) =>
      var found := GetRemote(p.table, m.channel);
      if found.Some? {
        OtherKey(p.table, m.channel, dk, id, x);
        TwoLeaveAlone(p.table, R.ForwardTo(m.channel, m.message), R.RemoveKey(found.value.discoveryKey), dk, id, x);
      }
    case _ => OneLeavesAlone(p.table, R.ForwardTo(m.channel, m.message), dk, id, x);
  }

  lemma OtherKey(t: Table, i: nat, dk: Key, id: nat, x: nat)
    requires Sound(t) && Tuned(t, dk, id, x) && i != id && GetRemote(t, i).Some?
    ensures GetRemote(t, i).value.discoveryKey != dk
  {
    OwnKey(t, i);
  }

  lemma CommandDemux(p: Proto, c: Command, dk: Key, id: nat, x: nat)
    requires p.Good() && Undisturbed(p, Execute(c), dk, id, x)
    ensures AllLeaveAlone(p.table, CommandOps(p, c), dk, id, x) && ForwardedOps(CommandOps(p, c), id) == []
  {
    hide Sound;
    match c
    case OpenKey(key) =>
      var d := p.crypto.discovery(key);
      var open := R.OpenLocal(d, key);
      var t := AttachLocal(p.table, d, key);
      var h := t.channels[d];
      if h.IsConnected() && Verdict(p, h).None? {
        AcceptLeavesAlone(t, d, dk, id, x);
        TwoLeaveAlone(p.table, open, R.AcceptId(h.local.value.localId), dk, id, x);
      } else {
        OneLeavesAlone(p.table, open, dk, id, x);
        assert [open] + [] == [open];
      }
    case CloseKey(d) => OneLeavesAlone(p.table, R.RemoveKey(d), dk, id, x);
    case SignalLocal(_, _) =>
  }

  /** Operations that only remove other keys. */
  predicate OnlyRemoves(ops: seq<R.Op>, dk: Key) {
    forall i | 0 <= i < |ops| :: ops[i].RemoveKey? && ops[i].dk != dk
  }

  lemma {:induction false} RemovesLeaveAlone(t: Table, ops: seq<R.Op>, dk: Key, id: nat, x: nat)
    requires Sound(t) && OnlyRemoves(ops, dk)
    ensures AllLeaveAlone(t, ops, dk, id, x) && ForwardedOps(ops, id) == []
    decreases |ops|
  {
    hide R.Apply, Sound;
    if ops == [] {
    } else {
      RemovesLeaveAlone(R.Apply(t, ops[0]), ops[1..], dk, id, x);
    }
  }

  /** A batch after which the key is still there did not remove it on the way. */
  lemma {:induction false} BatchOnlyRemoves(p: Proto, ms: seq<ChannelMessage>, dk: Key)
    requires p.Good() && dk in OnBatch(p, ms).table.channels
    ensures OnlyRemoves(BatchOps(p, ms), dk)
  {
    hide Sound;
    if ms == [] {
    } else {
      var n := |ms| - 1;
      var q := OnBatch(p, ms[..n]);
      MessageNarrows(q, ms[n]);
      BatchOnlyRemoves(p, ms[..n], dk);
      var found := GetLocal(q.table, ms[n].channel);
      if ms[n].message.Close? && found.Some? {
        RemovesIt(q.table, found.value.discoveryKey);
      }
    }
  }

  lemma RemovesIt(t: Table, dk: Key)
    requires Sound(t)
    ensures dk !in Remove(t, dk).channels
  {
  }

  lemma StepDemux(p: Proto, s: Step, dk: Key, id: nat, x: nat)
    requires p.Good() && Tuned(p.table, dk, id, x) && Undisturbed(p, s, dk, id, x)
    ensures var t := Take(p, s).p.table;
            && Tuned(t, dk, id, x)
            && t.inboxes[x].messages
               == p.table.inboxes[x].messages + if s.Inbound? && s.message.channel == id then [s.message.message] else []
  {
    hide Sound, Take, InboundOps, CommandOps, BatchOps, R.Apply, Tuned;
    StepRefines(p, s);
    InboxExists(p.table, dk, id, x);
    match s {
      case Inbound(m) => InboundDemux(p, m, dk, id, x);
      case Execute(c) => CommandDemux(p, c, dk, id, x);
      case Outbound(ms) =>
        BatchOnlyRemoves(p, ms, dk);
        RemovesLeaveAlone(p.table, BatchOps(p, ms), dk, id, x);
      case ShutFlag(c) => OneLeavesAlone(p.table, R.ShutChannel(c), dk, id, x);
      case DropQueue(y) => OneLeavesAlone(p.table, R.DropInbox(y), dk, id, x);
      case _ =>
    }
    assert p.table.inboxes[x].messages + [] == p.table.inboxes[x].messages;
    DemuxOps(p.table, StepOps(p, s), dk, id, x);
  }

  /**
   As long as a channel is neither ended nor reopened and its remote id is not reused, its inbox gets
   exactly the messages that come in tagged with its remote id, in order; all other traffic, local and
   remote, makes no difference to it.
   */
  lemma {:induction false} Demultiplexing(p: Proto, steps: seq<Step>, dk: Key, id: nat, x: nat)
    requires p.Good() && Tuned(p.table, dk, id, x) && AllUndisturbed(p, steps, dk, id, x)
    ensures Tuned(Run(p, steps).table, dk, id, x)
    ensures Run(p, steps).table.inboxes[x].messages == p.table.inboxes[x].messages + Tagged(steps, id)
    decreases |steps|
  {
    hide Take, Sound, Undisturbed;
    if steps == [] {
      assert p.table.inboxes[x].messages + [] == p.table.inboxes[x].messages;
    } else {
      var n := |steps| - 1;
      Demultiplexing(p, steps[..n], dk, id, x);
      StepDemux(Run(p, steps[..n]), steps[n], dk, id, x);
    }
  }

  /** A channel just accepted, with the remote vector exact, is tuned to its remote id, with nothing received yet. */
  lemma AcceptedIsTuned(t: Table, dk: Key)
    requires Sound(t) && RemoteExact(t) && dk in t.channels && t.channels[dk].IsConnected()
    ensures var (r, c) := OpenInbox(t, dk);
            && c.discoveryKey == dk && dk in r.channels && r.channels[dk].remote == t.channels[dk].remote
            && Tuned(r, dk, t.channels[dk].remote.value.remoteId, c.inbox)
            && r.inboxes[c.inbox].messages == []
  {
    assert HandleSound(t, dk);
  }

  /**
   An inbound Close on the remote id of a channel is the last message its inbox gets: the channel is
   removed and reports closed, its Close event is queued, and no other channel is touched.
   */
  lemma CloseEndsChannel(p: Proto, m: ChannelMessage, dk: Key, x: nat)
    requires p.Good() && m.message.Close? && Tuned(p.table, dk, m.channel, x)
    ensures var t, r := p.table, OnInboundMessage(p, m);
            && r.problem.None? && r.p.events == p.events + [Closed(dk)] && r.p.outbox == p.outbox
            && r.p.table.channels == t.channels - {dk}
            && |r.p.table.inboxes| == |t.inboxes| && r.p.table.inboxes[x].messages == t.inboxes[x].messages + [m.message]
            && |r.p.table.cells| == |t.cells| && t.channels[dk].cell < |t.cells|
            && r.p.table.cells[t.channels[dk].cell].closed
            && GetRemote(r.p.table, m.channel).None?
  {
    var t := p.table;
    assert HandleSound(t, dk);
    ForwardEffect(t, m.channel, m.message);
    ForwardDemux(t, m.channel, m.message, dk, m.channel, x);
  }

  //
  // From the beginning
  //

  /** The remote side reuses no live id and reopens no key under another id. */
  predicate HonestStep(p: Proto, s: Step) {
    s.Inbound? && s.message.message.Open? && |s.message.message.open.discoveryKey| == 32 ==>
      RemoteIdFits(p.table, s.message.message.open.discoveryKey, s.message.channel)
  }

  predicate AllHonest(p: Proto, steps: seq<Step>)
    requires p.Good()
    decreases |steps|
  {
    steps != [] ==>
      var n := |steps| - 1;
      AllHonest(p, steps[..n]) && HonestStep(Run(p, steps[..n]), steps[n])
  }

  lemma {:induction false} NoRemoteOpens(t: Table, ops: seq<R.Op>)
    requires Sound(t) && forall i | 0 <= i < |ops| :: !ops[i].OpenRemote?
    ensures R.AllRemotelyDisciplined(t, ops)
    decreases |ops|
  {
    hide R.Apply, Sound;
    if ops == [] {
    } else {
      NoRemoteOpens(R.Apply(t, ops[0]), ops[1..]);
    }
  }

  lemma {:induction false} BatchHasNoOpens(p: Proto, ms: seq<ChannelMessage>)
    requires p.Good()
    ensures forall i | 0 <= i < |BatchOps(p, ms)| :: BatchOps(p, ms)[i].RemoveKey?
  {
    hide Sound, OnBatch;
    if ms == [] {
    } else {
      BatchHasNoOpens(p, ms[..|ms| - 1]);
    }
  }

  /** A step keeps the remote vector exact if the remote side is honest, whatever the local side does. */
  lemma StepKeepsRemoteExact(p: Proto, s: Step)
    requires p.Good() && RemoteExact(p.table) && HonestStep(p, s)
    ensures RemoteExact(Take(p, s).p.table)
  {
    hide Sound, Take, R.Apply, R.Run, RemoteExact, AttachRemote, AttachLocal, BatchOps, Verdict;
    StepRefines(p, s);
    var ops := StepOps(p, s);
    if s.Outbound? {
      BatchHasNoOpens(p, s.batch);
      NoRemoteOpens(p.table, ops);
    } else if s.Inbound? && s.message.message.Open? && ops != [] {
      var next := R.Apply(p.table, ops[0]);
      NoRemoteOpens(next, ops[1..]);
      assert R.RemotelyDisciplined(p.table, ops[0]);
    } else {
      NoRemoteOpens(p.table, ops);
    }
    R.RunExact(p.table, ops);
  }

  /** The remote vector is exact after any run in which the remote side is honest. */
  lemma {:induction false} RunKeepsRemoteExact(p: Proto, steps: seq<Step>)
    requires p.Good() && RemoteExact(p.table) && AllHonest(p, steps)
    ensures RemoteExact(Run(p, steps).table)
    decreases |steps|
  {
    hide Sound, Take, RemoteExact, HonestStep;
    if steps == [] {
    } else {
      var n := |steps| - 1;
      RunKeepsRemoteExact(p, steps[..n]);
      StepKeepsRemoteExact(Run(p, steps[..n]), steps[n]);
    }
  }

  /** The step queues the event that announces the channel. */
  predicate Announces(p: Proto, s: Step, c: Channel)
    requires p.Good()
  {
    Take(p, s).p.events == p.events + [Established(c)]
  }

  /** An Open that came in, with a key of the right size. */
  predicate IsInboundOpen(s: Step) {
    s.Inbound? && s.message.message.Open? && |s.message.message.open.discoveryKey| == 32
  }

  predicate IsOpenCommand(s: Step) { s.Execute? && s.command.OpenKey? }

  lemma {:induction false} BatchAnnouncesNothing(p: Proto, ms: seq<ChannelMessage>)
    requires p.Good()
    ensures var r := OnBatch(p, ms);
            p.events <= r.events && forall i | |p.events| <= i < |r.events| :: !r.events[i].Established?
  {
    hide Sound, Remove;
    if ms == [] {
    } else {
      BatchAnnouncesNothing(p, ms[..|ms| - 1]);
    }
  }

  /** Only Opens, from either side, announce channels. */
  lemma OnlyOpensAnnounce(p: Proto, s: Step, c: Channel)
    requires p.Good()
    ensures Announces(p, s, c) ==> IsInboundOpen(s) || IsOpenCommand(s)
  {
    hide Sound, Remove, OnBatch, CommandOpen, ForwardTolerant, Forward;
    if Announces(p, s, c) {
      LastEvent(p.events, Take(p, s).p.events, c);
      if s.Outbound? {
        BatchAnnouncesNothing(p, s.batch);
      }
    }
  }

  /** A channel is tuned to the remote id of its key from the moment it is announced. */
  lemma AnnouncedIsTuned(p: Proto, s: Step, c: Channel)
    requires p.Good() && RemoteExact(p.table) && HonestStep(p, s) && Announces(p, s, c)
    ensures var t := Take(p, s).p.table;
            && c.discoveryKey in t.channels && t.channels[c.discoveryKey].remote.Some?
            && Tuned(t, c.discoveryKey, t.channels[c.discoveryKey].remote.value.remoteId, c.inbox)
            && t.inboxes[c.inbox].messages == []
  {
    hide Sound, OpenInbox, RemoteExact, Tuned, OnOpen, CommandOpen, RemoteIdFits, FreeSlot, Assign;
    OnlyOpensAnnounce(p, s, c);
    if s.Inbound? {
      var m, o := s.message, s.message.message.open;
      var dk: Key := o.discoveryKey;
      var t := AttachRemote(p.table, dk, m.channel, o.capability);
      OnOpenOutcome(p, m);
      AttachRemoteExact(p.table, dk, m.channel, o.capability);
      LastEvent(p.events, Take(p, s).p.events, c);
      AcceptedIsTuned(t, dk);
    } else {
      var key := s.command.key;
      var dk := p.crypto.discovery(key);
      var t := AttachLocal(p.table, dk, key);
      CommandOpenOutcome(p, key);
      AttachLocalExact(p.table, dk, key);
      LastEvent(p.events, Take(p, s).p.events, c);
      AcceptedIsTuned(t, dk);
    }
  }

  lemma LastEvent(before: seq<Event>, after: seq<Event>, c: Channel)
    requires after == before + [Established(c)]
    ensures |after| == |before| + 1 && after[|before|] == Established(c)
  {
  }

  /**
   The life of a channel, from a new protocol object on. The remote side is honest until the channel is
   announced. Until it is disturbed, its inbox then holds exactly the messages that came in tagged with
   its remote id, in order; and if a Close comes in on that id, it is the last message, and the channel
   is gone.
   */
  lemma LifeOfChannel(crypto: Crypto, initiator: bool, before: seq<Step>, s: Step, c: Channel, after: seq<Step>, id: nat, m: ChannelMessage)
    requires var p := Run(Start(crypto, initiator), before);
             && AllHonest(Start(crypto, initiator), before) && HonestStep(p, s) && Announces(p, s, c)
             && c.discoveryKey in Take(p, s).p.table.channels && Take(p, s).p.table.channels[c.discoveryKey].HasRemote(id)
             && AllUndisturbed(Take(p, s).p, after, c.discoveryKey, id, c.inbox)
    requires m.channel == id && m.message.Close?
    ensures var p := Run(Start(crypto, initiator), before);
            var r := Run(Take(p, s).p, after);
            var closed := Take(r, Inbound(m)).p;
            && c.inbox < |r.table.inboxes| && r.table.inboxes[c.inbox].messages == Tagged(after, id)
            && c.inbox < |closed.table.inboxes|
            && closed.table.inboxes[c.inbox].messages == Tagged(after, id) + [m.message]
            && closed.table.channels == r.table.channels - {c.discoveryKey}
            && closed.events == r.events + [Closed(c.discoveryKey)]
  {
    hide Sound, RemoteExact, AllHonest, HonestStep, Announces, AllUndisturbed, Run, Tagged, OnInboundMessage;
    var p0 := Start(crypto, initiator);
    var p, dk, x := Run(p0, before), c.discoveryKey, c.inbox;
    assert RemoteExact(p0.table) by { EmptyIsExact(); }
    RunKeepsRemoteExact(p0, before);
    AnnouncedIsTuned(p, s, c);
    var p2 := Take(p, s).p;
    Demultiplexing(p2, after, dk, id, x);
    var r := Run(p2, after);
    InboxExists(r.table, dk, id, x);
    assert [] + Tagged(after, id) == Tagged(after, id);
    CloseEndsChannel(r, m, dk, x);
  }

  lemma EmptyIsExact()
    ensures RemoteExact(Empty())
  {
  }
}
