/** What holds of the channel table after any sequence of operations. */
module TableRuns {
  import opened Wrappers
  import opened Compact
  import opened Handshake
  import opened Messages
  import opened Channels

  datatype Op =
    | OpenLocal(dk: Key, key: Key)
    | OpenRemote(dk: Key, id: nat, capability: Option<Bytes>)
    | RemoveKey(dk: Key)
    | AcceptId(id: nat)
    | ForwardTo(id: nat, message: Message)
    | ShutChannel(cell: nat)
    | DropInbox(inbox: nat)

  /** Applies one operation; a failing one changes nothing. */
  function Apply(t: Table, op: Op): (r: Table)
    requires Sound(t)
    ensures Sound(r)
  {
    match op
    case OpenLocal(dk, key) => AttachLocal(t, dk, key)
    case OpenRemote(dk, id, capability) => AttachRemote(t, dk, id, capability)
    case RemoveKey(dk) => Remove(t, dk)
    case AcceptId(id) => (match Accept(t, id) case Success((r, _)) => r case Failure(_) => t)
    case ForwardTo(id, m) => (match Forward(t, id, m) case Success(r) => r case Failure(_) => t)
    case ShutChannel(c) => if c < |t.cells| then Shut(t, c) else t
    case DropInbox(x) => if x < |t.inboxes| then DropReceiver(t, x) else t
  }

  function Run(t: Table, ops: seq<Op>): (r: Table)
    requires Sound(t)
    ensures Sound(r)
    decreases |ops|
  {
    if ops == [] then t else Run(Apply(t, ops[0]), ops[1..])
  }

  lemma {:induction false} RunAppend(t: Table, first: seq<Op>, second: seq<Op>)
    requires Sound(t)
    ensures Run(t, first + second) == Run(Run(t, first), second)
    decreases |first|
  {
    hide Apply, Sound;
    if first == [] {
      assert first + second == second;
    } else {
      RunAppend(Apply(t, first[0]), first[1..], second);
      assert (first + second)[0] == first[0] && (first + second)[1..] == first[1..] + second;
    }
  }

  /** In every reachable table distinct handles have distinct local ids, and no id is zero. */
  lemma LocalIdsDistinct(ops: seq<Op>, d: Key, e: Key)
    requires LocallyAttached(Run(Empty(), ops), d) && LocallyAttached(Run(Empty(), ops), e) && d != e
    ensures var t := Run(Empty(), ops);
            t.channels[d].local.value.localId != t.channels[e].local.value.localId
            && t.channels[d].local.value.localId >= 1
  {
    var t := Run(Empty(), ops);
    assert HandleSound(t, d) && HandleSound(t, e);
  }

  //
  // Without double opens
  //

  /** No key that is open locally is opened again. */
  predicate LocallyDisciplined(t: Table, op: Op) {
    op.OpenLocal? ==> !LocallyAttached(t, op.dk)
  }

  /** The remote side reuses no live id and reopens no key under another id. */
  predicate RemotelyDisciplined(t: Table, op: Op) {
    op.OpenRemote? ==> RemoteIdFits(t, op.dk, op.id)
  }

  /** An operation keeps each vector exact if and only if its own side is disciplined. */
  lemma ApplyExact(t: Table, op: Op)
    requires Sound(t)
    ensures var r := Apply(t, op);
            && (LocalExact(t) ==> (LocalExact(r) <==> LocallyDisciplined(t, op)))
            && (RemoteExact(t) ==> (RemoteExact(r) <==> RemotelyDisciplined(t, op)))
  {
    hide Sound, AttachLocal, AttachRemote, Remove, LocalExact, RemoteExact;
    match op
    case OpenLocal(dk, key) => AttachLocalExact(t, dk, key);
    case OpenRemote(dk, id, capability) => AttachRemoteExact(t, dk, id, capability);
    case RemoveKey(dk) => RemoveExact(t, dk);
    case _ => OtherExact(t, op);
  }

  lemma OtherExact(t: Table, op: Op)
    requires Sound(t) && !op.OpenLocal? && !op.OpenRemote? && !op.RemoveKey?
    ensures var r := Apply(t, op); (LocalExact(t) ==> LocalExact(r)) && (RemoteExact(t) ==> RemoteExact(r))
  {
    if op.AcceptId? && Accept(t, op.id).Success? {
      assert HandleSound(t, t.localIds[op.id].value);
      OpenInboxExact(t, t.localIds[op.id].value);
    }
    hide HandleSound, InTable;
  }

  /** Every operation of a run is disciplined where it happens: on the local side, or on the remote side. */
  predicate AllLocallyDisciplined(t: Table, ops: seq<Op>)
    requires Sound(t)
    decreases |ops|
  {
    ops != [] ==> LocallyDisciplined(t, ops[0]) && AllLocallyDisciplined(Apply(t, ops[0]), ops[1..])
  }

  predicate AllRemotelyDisciplined(t: Table, ops: seq<Op>)
    requires Sound(t)
    decreases |ops|
  {
    ops != [] ==> RemotelyDisciplined(t, ops[0]) && AllRemotelyDisciplined(Apply(t, ops[0]), ops[1..])
  }

  /** A vector is exact in every table along a run, the last one included. */
  ghost predicate AlwaysLocalExact(t: Table, ops: seq<Op>)
    requires Sound(t)
    decreases |ops|
  {
    LocalExact(t) && (ops != [] ==> AlwaysLocalExact(Apply(t, ops[0]), ops[1..]))
  }

  ghost predicate AlwaysRemoteExact(t: Table, ops: seq<Op>)
    requires Sound(t)
    decreases |ops|
  {
    RemoteExact(t) && (ops != [] ==> AlwaysRemoteExact(Apply(t, ops[0]), ops[1..]))
  }

  /**
   The local vector stays exact throughout a run if and only if no open key is opened again, whatever the
   remote side does; the remote one if and only if the remote side reuses no live id.
   */
  lemma {:induction false} RunExact(t: Table, ops: seq<Op>)
    requires Sound(t)
    ensures LocalExact(t) ==> (AlwaysLocalExact(t, ops) <==> AllLocallyDisciplined(t, ops))
    ensures RemoteExact(t) ==> (AlwaysRemoteExact(t, ops) <==> AllRemotelyDisciplined(t, ops))
    ensures AlwaysLocalExact(t, ops) ==> LocalExact(Run(t, ops))
    ensures AlwaysRemoteExact(t, ops) ==> RemoteExact(Run(t, ops))
    decreases |ops|
  {
    hide Apply, LocalExact, RemoteExact, LocallyDisciplined, RemotelyDisciplined;
    if ops == [] {
    } else {
      ApplyExact(t, ops[0]);
      RunExact(Apply(t, ops[0]), ops[1..]);
    }
  }

  /** An example: opening a key twice leaves a slot that leads to a handle with another id. */
  lemma DoubleOpenExample(dk: Key, key: Key)
    ensures var t := Run(Empty(), [OpenLocal(dk, key), OpenLocal(dk, key)]);
            && !LocalExact(t)
            && |t.localIds| == 3 && t.localIds[1] == Some(dk)
            && dk in t.channels && !t.channels[dk].HasLocal(1)
  {
    var open := OpenLocal(dk, key);
    var once := Apply(Empty(), open);
    var twice := Apply(once, open);
    assert [open, open][1..] == [open] && [open][1..] == [];
    assert Run(once, [open]) == Run(twice, []) == twice;
    assert once.localIds == [None, Some(dk)];
    assert NextLocalId(once) == 2;
  }

  //
  // Allocation
  //

  /** The number of occupied slots. */
  function Occupied(ids: seq<Option<Key>>): nat {
    |ids| - multiset(ids)[None]
  }

  /** The largest number of slots occupied at any one time during a run. */
  function Peak(t: Table, ops: seq<Op>): nat
    requires Sound(t)
    decreases |ops|
  {
    var now := Occupied(t.localIds);
    if ops == [] then now
    else
      var later := Peak(Apply(t, ops[0]), ops[1..]);
      if later > now then later else now
  }

  lemma SlotZeroIsFree(ids: seq<Option<Key>>)
    requires |ids| >= 1 && ids[0].None?
    ensures Occupied(ids) <= |ids| - 1
    ensures (forall i | 1 <= i < |ids| :: ids[i].Some?) ==> Occupied(ids) == |ids| - 1
  {
    assert ids == [ids[0]] + ids[1..];
    if forall i | 1 <= i < |ids| :: ids[i].Some? {
      assert None !in ids[1..];
    }
  }

  /** A new id is the least free one: everything below it is in use. */
  lemma LeastFree(t: Table, dk: Key, key: Key)
    requires Sound(t)
    ensures var id := AttachLocal(t, dk, key).channels[dk].local.value.localId;
            && id >= 1
            && (forall j | 1 <= j < id :: j < |t.localIds| && t.localIds[j].Some?)
            && (id < |t.localIds| ==> t.localIds[id].None?)
  {
  }

  /** The vector grows only when every slot is in use, and then to just one more. */
  lemma ApplyGrowth(t: Table, op: Op)
    requires Sound(t)
    ensures var r := Apply(t, op);
            || |r.localIds| == |t.localIds|
            || (|r.localIds| == |t.localIds| + 1 && Occupied(r.localIds) == |t.localIds|)
  {
    if op.OpenLocal? {
      var id, r := NextLocalId(t), Apply(t, op);
      if id == |t.localIds| {
        SlotZeroIsFree(r.localIds);
        assert forall i | 1 <= i < |r.localIds| :: r.localIds[i].Some?;
      }
    }
  }

  lemma {:induction false} LengthFromPeak(t: Table, ops: seq<Op>)
    requires Sound(t)
    ensures var peak := Peak(t, ops);
            |Run(t, ops).localIds| - 1 == if peak > |t.localIds| - 1 then peak else |t.localIds| - 1
    decreases |ops|
  {
    hide Apply, Occupied;
    SlotZeroIsFree(t.localIds);
    if ops == [] {
    } else {
      var t' := Apply(t, ops[0]);
      ApplyGrowth(t, ops[0]);
      SlotZeroIsFree(t'.localIds);
      LengthFromPeak(t', ops[1..]);
      PeakIsAtLeastNow(t', ops[1..]);
    }
  }

  lemma PeakIsAtLeastNow(t: Table, ops: seq<Op>)
    requires Sound(t)
    ensures Peak(t, ops) >= Occupied(t.localIds)
  {
  }

  ghost function AttachedKeys(t: Table): set<Key> {
    set dk | dk in t.channels && t.channels[dk].local.Some?
  }

  ghost function KeysIn(ids: seq<Option<Key>>): set<Key> {
    set i | 0 <= i < |ids| && ids[i].Some? :: ids[i].value
  }

  lemma {:induction false} DistinctKeys(ids: seq<Option<Key>>)
    requires forall i, j | 0 <= i < j < |ids| && ids[i].Some? :: ids[i] != ids[j]
    ensures |KeysIn(ids)| == Occupied(ids)
  {
    if ids == [] {
    } else {
      var n := |ids| - 1;
      var front, last := ids[..n], ids[n];
      DistinctKeys(front);
      assert ids == front + [last];
      KeysInAppend(front, last);
      hide KeysIn;
      if last.Some? {
        assert last.value !in KeysIn(front);
      }
    }
  }

  lemma KeysInAppend(front: seq<Option<Key>>, last: Option<Key>)
    ensures KeysIn(front + [last]) == KeysIn(front) + if last.Some? then {last.value} else {}
    ensures last.Some? && last !in front ==> last.value !in KeysIn(front)
  {
    var ids := front + [last];
    assert forall i | 0 <= i < |front| :: ids[i] == front[i];
    if last.Some? {
      assert ids[|front|].value in KeysIn(ids);
    }
  }

  /** If the local vector is exact its occupied slots are exactly the locally attached channels. */
  lemma OccupiedIsAttached(t: Table)
    requires Sound(t) && LocalExact(t)
    ensures Occupied(t.localIds) == |AttachedKeys(t)|
  {
    DistinctKeys(t.localIds);
    assert KeysIn(t.localIds) == AttachedKeys(t) by {
      forall dk | dk in AttachedKeys(t) ensures dk in KeysIn(t.localIds) {
        assert HandleSound(t, dk);
        assert t.localIds[t.channels[dk].local.value.localId] == Some(dk);
      }
    }
  }

  ghost function PeakAttached(t: Table, ops: seq<Op>): nat
    requires Sound(t)
    decreases |ops|
  {
    var now := |AttachedKeys(t)|;
    if ops == [] then now
    else
      var later := PeakAttached(Apply(t, ops[0]), ops[1..]);
      if later > now then later else now
  }

  lemma {:induction false} PeakIsPeakAttached(t: Table, ops: seq<Op>)
    requires Sound(t) && LocalExact(t) && AllLocallyDisciplined(t, ops)
    ensures PeakAttached(t, ops) == Peak(t, ops)
    decreases |ops|
  {
    hide Apply, LocalExact, LocallyDisciplined, Occupied, AttachedKeys;
    OccupiedIsAttached(t);
    if ops == [] {
    } else {
      ApplyExact(t, ops[0]);
      PeakIsPeakAttached(Apply(t, ops[0]), ops[1..]);
    }
  }

  /**
   If no open key is opened again, the local vector is one longer than the largest number of channels
   that were ever locally attached at the same time, whatever ids and keys the remote side opens.
   */
  lemma VectorLengthIsPeak(ops: seq<Op>)
    requires AllLocallyDisciplined(Empty(), ops)
    ensures |Run(Empty(), ops).localIds| == 1 + PeakAttached(Empty(), ops)
  {
    LengthFromPeak(Empty(), ops);
    PeakIsPeakAttached(Empty(), ops);
  }

  //
  // Closed flags
  //

  /** Cells are never reused, and a closed flag is never cleared. */
  predicate CellsKept(t: Table, r: Table) {
    |t.cells| <= |r.cells|
    && forall c | 0 <= c < |t.cells| :: r.cells[c].owner == t.cells[c].owner && (t.cells[c].closed ==> r.cells[c].closed)
  }

  lemma ApplyKeepsCells(t: Table, op: Op)
    requires Sound(t)
    ensures CellsKept(t, Apply(t, op))
  {
    hide FreeSlot, InTable, Assign;
    if op.RemoveKey? && op.dk in t.channels {
      assert HandleSound(t, op.dk);
    }
  }

  lemma {:induction false} RunKeepsCells(t: Table, ops: seq<Op>)
    requires Sound(t)
    ensures CellsKept(t, Run(t, ops))
    decreases |ops|
  {
    hide Apply;
    if ops == [] {
    } else {
      ApplyKeepsCells(t, ops[0]);
      RunKeepsCells(Apply(t, ops[0]), ops[1..]);
    }
  }

  /**
   A channel whose handle has left the table reports closed at once and forever after, also when the
   same key is opened again.
   */
  lemma LeavingClosesForGood(t: Table, ops: seq<Op>, c: nat)
    requires Sound(t) && c < |t.cells| && !InTable(t, c)
    ensures t.cells[c].closed
    ensures CellsKept(t, Run(t, ops)) && Run(t, ops).cells[c].closed && !InTable(Run(t, ops), c)
  {
    RunKeepsCells(t, ops);
    StaysOut(t, ops, c);
  }

  lemma {:induction false} StaysOut(t: Table, ops: seq<Op>, c: nat)
    requires Sound(t) && c < |t.cells| && !InTable(t, c)
    ensures CellsKept(t, Run(t, ops)) && !InTable(Run(t, ops), c)
    decreases |ops|
  {
    hide Apply;
    RunKeepsCells(t, ops);
    if ops == [] {
    } else {
      StaysOutOne(t, ops[0], c);
      StaysOut(Apply(t, ops[0]), ops[1..], c);
    }
  }

  lemma StaysOutOne(t: Table, op: Op, c: nat)
    requires Sound(t) && c < |t.cells| && !InTable(t, c)
    ensures var r := Apply(t, op); c < |r.cells| && !InTable(r, c)
  {
  }
}
