/**
 The replication dialogue of the example program: a reader and a writer of one log exchange
 Synchronize, Request and Data messages on a channel.

 The store is abstract: a log with some of its blocks present. It proves blocks it has and upgrades up
 to its length, and applies honest proofs. Merkle nodes and signatures are unknown functions.
 */
module Replication {
  import opened Wrappers
  import opened Compact
  import opened Messages
  import W = WireSchema

  //
  // The store
  //

  datatype Merkle = Merkle(nodes: u64 -> seq<W.Node>, signature: u64 -> Bytes, missing: u64 -> u64)

  datatype Core = Core(fork: u64, length: u64, blocks: map<nat, Bytes>)

  datatype Proof = Proof(block: Option<W.DataBlock>, upgrade: Option<W.DataUpgrade>)

  /** The number of blocks present from the start without a gap, given that the first `i` are. */
  function Contiguous(core: Core, i: nat): (n: nat)
    requires i <= core.length
    ensures i <= n <= core.length
    ensures forall j: nat | i <= j < n :: j in core.blocks
    ensures n == core.length || n !in core.blocks
    decreases core.length - i
  {
    if i < core.length && i in core.blocks then Contiguous(core, i + 1) else i
  }

  function CreateProof(mk: Merkle, core: Core, r: W.Request): Option<Proof> {
    if r.hash.Some? || r.seek.Some? then None
    else if r.block.Some? && r.block.value.index !in core.blocks then None
    else if r.upgrade.Some? && r.upgrade.value.start + r.upgrade.value.length > core.length then None
    else Some(Proof(
      if r.block.None? then None
      else Some(W.DataBlock(r.block.value.index, mk.nodes(r.block.value.index), core.blocks[r.block.value.index])),
      if r.upgrade.None? then None
      else Some(W.DataUpgrade(r.upgrade.value.start, r.upgrade.value.length,
                              mk.nodes(r.upgrade.value.length), [], mk.signature(r.upgrade.value.length)))))
  }

  /** Applying a proof: an upgrade continues the log, a block fills a place in it. */
  function ApplyUpgrade(core: Core, u: W.DataUpgrade): Option<Core> {
    if u.start == core.length && u.start + u.length < U64_LIMIT then Some(core.(length := u.start + u.length)) else None
  }

  function ApplyBlock(core: Core, b: W.DataBlock): Option<Core> {
    if b.index < core.length then Some(core.(blocks := core.blocks[b.index := b.value])) else None
  }

  function ApplyProof(core: Core, d: W.Data): Option<Core> {
    var upgraded := if d.upgrade.Some? then ApplyUpgrade(core, d.upgrade.value) else Some(core);
    if upgraded.None? || d.block.None? then upgraded else ApplyBlock(upgraded.value, d.block.value)
  }

  //
  // One side
  //

  datatype PeerState = PeerState(
    canUpgrade: bool,
    remoteFork: u64,
    remoteLength: u64,
    remoteCanUpgrade: bool,
    remoteUploading: bool,
    remoteDownloading: bool,
    remoteSynced: bool,
    lengthAcked: u64)

  const DEFAULT_STATE := PeerState(true, 0, 0, false, true, true, false, 0)

  datatype Side = Side(core: Core, state: PeerState)

  /** What a side does on a message: its new state and the messages it sends, or a failure. */
  datatype Reaction = Reaction(side: Side, out: seq<Message>) | ProofRefused | Underflow

  /** What a side sends first. */
  function Greeting(n: Side): (r: (Side, seq<Message>)) {
    var info := n.core;
    var same := info.fork == n.state.remoteFork;
    var state := if same then n.state else n.state.(canUpgrade := false);
    var sync := W.Synchronize(info.fork, info.length, if same then state.remoteLength else 0, true, true, state.canUpgrade);
    var contiguous := Contiguous(info, 0);
    (n.(state := state),
     [Synchronize(sync)] + if contiguous > 0 then [Range(W.Range(false, 0, contiguous))] else [])
  }

  /** The blocks before `r.length` are present, from the first on, and the next one is not or lies past the end. */
  ghost predicate Present(core: Core, r: W.Range) {
    && !r.drop && r.start == 0 && 0 < r.length <= core.length
    && (forall j: nat | j < r.length :: j in core.blocks)
    && (r.length == core.length || r.length !in core.blocks)
  }

  /**
   What a greeting says: the fork and length of the log, the length last heard of the other side if it is
   on the same fork, and whether an upgrade is possible, which it no longer is after a different fork. A
   range follows exactly if the first block is present.
   */
  ghost predicate Greets(n: Side, r: Side, out: seq<Message>) {
    var same := n.core.fork == n.state.remoteFork;
    var heard, can := if same then n.state.remoteLength else 0, same && n.state.canUpgrade;
    && r == n.(state := n.state.(canUpgrade := can))
    && out != [] && out[0] == Synchronize(W.Synchronize(n.core.fork, n.core.length, heard, true, true, can))
    && if n.core.length > 0 && 0 in n.core.blocks
       then |out| == 2 && out[1].Range? && Present(n.core, out[1].range)
       else |out| == 1
  }

  lemma GreetingSays(n: Side)
    ensures Greets(n, Greeting(n).0, Greeting(n).1)
  {
    assert Contiguous(n.core, 0) > 0 <==> n.core.length > 0 && 0 in n.core.blocks;
  }

  function UpgradeRequest(fork: u64, start: u64, length: u64): W.Request {
    W.Request(1, fork, None, None, None, Some(W.RequestUpgrade(start, length)), false, 0)
  }

  function BlockRequest(mk: Merkle, fork: u64, index: u64): W.Request
    requires index + 1 < U64_LIMIT
  {
    W.Request(index + 1, fork, Some(W.RequestBlock(index, mk.missing(index))), None, None, None, false, 0)
  }

  function OnSynchronize(n: Side, m: W.Synchronize): Reaction {
    var info := n.core;
    var changed, first := m.length != n.state.remoteLength, !n.state.remoteSynced;
    var acked := if m.fork == info.fork then m.remoteLength else 0;
    var state := n.state.(
      remoteFork := m.fork, remoteLength := m.length, remoteCanUpgrade := m.canUpgrade,
      remoteUploading := m.uploading, remoteDownloading := m.downloading, remoteSynced := true, lengthAcked := acked);
    var reply := W.Synchronize(info.fork, info.length, state.remoteLength, true, true, state.canUpgrade);
    Reaction(
      n.(state := state),
      (if first then [Synchronize(reply)] else [])
      + if state.remoteLength > info.length && acked == info.length && changed
        then [Request(UpgradeRequest(info.fork, info.length, state.remoteLength - info.length))]
        else [])
  }

  function OnRequest(mk: Merkle, n: Side, r: W.Request): Reaction {
    match CreateProof(mk, n.core, r)
    case None => Reaction(n, [])
    case Some(proof) => Reaction(n, [Data(W.Data(r.id, n.core.fork, proof.block, None, None, proof.upgrade))])
  }

  /** The block to ask for next, or that there is none; the length of the log must be known for that. */
  function NextBlock(n: Side, d: W.Data): (r: Result<Option<nat>, ()>)
    ensures r.Success? && r.value.Some? ==> r.value.value + 1 < U64_LIMIT
  {
    if d.upgrade.Some? then
      Success(if n.core.length < d.upgrade.value.length then Some(n.core.length) else None)
    else if d.block.Some? then
      if n.state.remoteLength == 0 then Failure(())
      else Success(if d.block.value.index < n.state.remoteLength - 1 then Some(d.block.value.index + 1) else None)
    else Success(None)
  }

  function OnData(mk: Merkle, n: Side, d: W.Data): Reaction {
    match ApplyProof(n.core, d)
    case None => ProofRefused
    case Some(core) =>
      match NextBlock(n, d)
      case Failure(_) => Underflow
      case Success(next) =>
        var acknowledge :=
          if d.upgrade.None? then []
          else
            var remoteLength := if core.fork == n.state.remoteFork then n.state.remoteLength else 0;
            [Synchronize(W.Synchronize(core.fork, d.upgrade.value.length, remoteLength, true, true, false))];
        var ask :=
          if next.None? then []
          else [Request(BlockRequest(mk, core.fork, next.value))];
        Reaction(n.(core := core), acknowledge + ask)
  }

  function OnMessage(mk: Merkle, n: Side, m: Message): Reaction {
    match m
    case Synchronize(x) => OnSynchronize(n, x)
    case Request(r) => OnRequest(mk, n, r)
    case Data(d) => OnData(mk, n, d)
    case _ => Reaction(n, [])
  }

  //
  // What is asked and answered
  //

  /**
   A Synchronize is answered by one if it is the first; an upgrade is asked for if and only if the other
   side has just become longer than this log and knows all of it, and then from the end of this log to the
   end of the other.
   */
  lemma SyncAsksExactly(n: Side, m: W.Synchronize)
    ensures var r, info := OnSynchronize(n, m), n.core;
            var knows := if m.fork == info.fork then m.remoteLength == info.length else info.length == 0;
            var asks := m.length > info.length && knows && m.length != n.state.remoteLength;
            && r.Reaction? && r.side.core == info
            && r.side.state == PeerState(n.state.canUpgrade, m.fork, m.length, m.canUpgrade, m.uploading, m.downloading, true,
                                         if m.fork == info.fork then m.remoteLength else 0)
            && (!n.state.remoteSynced <==> Synchronize(
                  W.Synchronize(info.fork, info.length, m.length, true, true, n.state.canUpgrade)) in r.out)
            && (asks <==> exists i :: 0 <= i < |r.out| && r.out[i].Request?)
            && (forall i | 0 <= i < |r.out| && r.out[i].Request? ::
                  && i == |r.out| - 1
                  && r.out[i].request.upgrade == Some(W.RequestUpgrade(info.length, m.length - info.length))
                  && r.out[i].request == W.Request(1, info.fork, None, None, None, r.out[i].request.upgrade, false, 0))
  {
    var out := OnSynchronize(n, m).out;
    if m.length > n.core.length && m.length != n.state.remoteLength && |out| > 0 {
      assert out[|out| - 1] in out;
    }
    if !n.state.remoteSynced {
      assert out[0].Synchronize?;
    }
  }

  /** A request can be answered if it asks for no hash and no position, and what it asks for is there. */
  predicate Answerable(core: Core, r: W.Request) {
    && r.hash.None? && r.seek.None?
    && (r.block.Some? ==> r.block.value.index in core.blocks)
    && (r.upgrade.Some? ==> r.upgrade.value.start + r.upgrade.value.length <= core.length)
  }

  /** An answerable request gets one answer, with its id, the block asked for and the upgrade asked for; others get none. */
  lemma RequestAnsweredExactly(mk: Merkle, n: Side, r: W.Request)
    ensures var a := OnRequest(mk, n, r);
            && a.Reaction? && a.side == n && |a.out| == (if Answerable(n.core, r) then 1 else 0)
            && forall i | 0 <= i < |a.out| ::
                 && a.out[i].Data?
                 && var d := a.out[i].data;
                    && d.request == r.id && d.fork == n.core.fork && d.hash.None? && d.seek.None?
                    && (d.block.Some? <==> r.block.Some?) && (d.upgrade.Some? <==> r.upgrade.Some?)
                    && (r.block.Some? ==> d.block.value.index == r.block.value.index
                                          && d.block.value.value == n.core.blocks[r.block.value.index])
                    && (r.upgrade.Some? ==> d.upgrade.value.start == r.upgrade.value.start
                                            && d.upgrade.value.length == r.upgrade.value.length)
  {
  }

  /** One store holds part of what the other holds. */
  ghost predicate PartOf(part: Core, whole: Core) {
    && part.length <= whole.length
    && forall j | j in part.blocks :: j in whole.blocks && part.blocks[j] == whole.blocks[j]
  }

  /**
   Whatever was asked for and however the stores differ otherwise: an answer that the asking side takes in
   leaves it with part of what the answering side holds, nothing lost. It takes in exactly the answers whose
   upgrade starts at its end and whose block lies within the length then reached.
   */
  lemma AnswersKeepPart(mk: Merkle, reader: Core, writer: Side, r: W.Request)
    requires PartOf(reader, writer.core) && Answerable(writer.core, r)
    ensures var a := OnRequest(mk, writer, r);
            && a.Reaction? && |a.out| == 1 && a.out[0].Data?
            && var core, d := ApplyProof(reader, a.out[0].data), a.out[0].data;
               var reached := if r.upgrade.Some? then r.upgrade.value.start + r.upgrade.value.length else reader.length;
               && (core.Some? <==> && (r.upgrade.Some? ==> r.upgrade.value.start == reader.length)
                                   && (r.block.Some? ==> r.block.value.index < reached))
               && (core.Some? ==>
                     && PartOf(core.value, writer.core) && PartOf(reader, core.value) && core.value.length == reached
                     && (r.block.Some? ==> r.block.value.index in core.value.blocks))
  {
    RequestAnsweredExactly(mk, writer, r);
  }

  /** The block that a side asks for once it has taken in an answer: the first new one, or the one after the block received. */
  function Wanted(n: Side, d: W.Data): (r: Option<nat>) {
    if d.upgrade.Some? && n.core.length < d.upgrade.value.length then Some(n.core.length)
    else if d.upgrade.None? && d.block.Some? && d.block.value.index + 1 < n.state.remoteLength then Some(d.block.value.index + 1)
    else None
  }

  /**
   When taking in an answer fails, and what is sent otherwise: the new length if there was an upgrade,
   and a request for the block wanted, whose id is one more than its index.
   */
  lemma DataAsksExactly(mk: Merkle, n: Side, d: W.Data)
    ensures var r, core, want := OnData(mk, n, d), ApplyProof(n.core, d), Wanted(n, d);
            && (r.ProofRefused? <==> core.None?)
            && (r.Underflow? <==> core.Some? && d.upgrade.None? && d.block.Some? && n.state.remoteLength == 0)
            && (r.Reaction? ==>
                  && r.side == n.(core := core.value)
                  && |r.out| == (if d.upgrade.Some? then 1 else 0) + (if want.Some? then 1 else 0)
                  && (d.upgrade.Some? ==>
                        r.out[0] == Synchronize(W.Synchronize(
                          core.value.fork, d.upgrade.value.length,
                          if core.value.fork == n.state.remoteFork then n.state.remoteLength else 0, true, true, false)))
                  && (want.Some? ==>
                        r.out[|r.out| - 1] == Request(W.Request(
                          want.value + 1, core.value.fork, Some(W.RequestBlock(want.value, mk.missing(want.value))),
                          None, None, None, false, 0))))
  {
    hide ApplyProof;
    assert NextBlock(n, d).Success? ==> NextBlock(n, d).value == Wanted(n, d);
  }

  /** A side as the program holds it. */
  class Replica {
    const merkle: Merkle
    var core: Core
    var state: PeerState

    function Model(): Side
      reads this
    {
      Side(core, state)
    }

    constructor (merkle: Merkle, core: Core)
      ensures Model() == Side(core, DEFAULT_STATE) && this.merkle == merkle
    {
      this.merkle, this.core, this.state := merkle, core, DEFAULT_STATE;
    }

    method OnPeer() returns (messages: seq<Message>)
      modifies this
      ensures (Model(), messages) == Greeting(old(Model()))
      ensures Greets(old(Model()), Model(), messages)
    {
      GreetingSays(Model());
      if core.fork != state.remoteFork {
        state := state.(canUpgrade := false);
      }
      var remoteLength := if core.fork == state.remoteFork then state.remoteLength else 0;
      messages := [Synchronize(W.Synchronize(core.fork, core.length, remoteLength, true, true, state.canUpgrade))];
      assert messages + [] == messages;
      var contiguous := 0;
      while contiguous < core.length && contiguous in core.blocks
        invariant contiguous <= core.length && Contiguous(core, 0) == Contiguous(core, contiguous)
        decreases core.length - contiguous
      {
        contiguous := contiguous + 1;
      }
      if contiguous > 0 {
        messages := messages + [Range(W.Range(false, 0, contiguous))];
      }
    }

    /** Handles one message. On a failure nothing is sent. */
    method Receive(m: Message) returns (ok: bool, messages: seq<Message>)
      modifies this
      ensures ok == OnMessage(merkle, old(Model()), m).Reaction?
      ensures ok ==> Reaction(Model(), messages) == OnMessage(merkle, old(Model()), m)
    {
      messages := [];
      match m {
        case Synchronize(x) =>
          var lengthChanged, firstSync := x.length != state.remoteLength, !state.remoteSynced;
          state := state.(
            remoteFork := x.fork, remoteLength := x.length, remoteCanUpgrade := x.canUpgrade,
            remoteUploading := x.uploading, remoteDownloading := x.downloading, remoteSynced := true,
            lengthAcked := if x.fork == core.fork then x.remoteLength else 0);
          if firstSync {
            messages := [Synchronize(W.Synchronize(core.fork, core.length, state.remoteLength, true, true, state.canUpgrade))];
          }
          if state.remoteLength > core.length && state.lengthAcked == core.length && lengthChanged {
            messages := messages + [Request(UpgradeRequest(core.fork, core.length, state.remoteLength - core.length))];
          }
          ok := true;
        case Request(r) =>
          var proof := CreateProof(merkle, core, r);
          if proof.Some? {
            messages := [Data(W.Data(r.id, core.fork, proof.value.block, None, None, proof.value.upgrade))];
          }
          ok := true;
        case Data(d) =>
          ok, messages := ReceiveData(d);
        case _ =>
          ok := true;
      }
    }

    method ReceiveData(d: W.Data) returns (ok: bool, messages: seq<Message>)
      modifies this
      ensures ok == OnData(merkle, old(Model()), d).Reaction?
      ensures ok ==> Reaction(Model(), messages) == OnData(merkle, old(Model()), d)
    {
      messages := [];
      var applied := ApplyProof(core, d);
      if applied.None? {
        return false, [];
      }
      var oldLength := core.length;
      var next: Option<nat> := None;
      if d.upgrade.Some? {
        if oldLength < d.upgrade.value.length {
          next := Some(oldLength);
        }
      } else if d.block.Some? {
        if state.remoteLength == 0 {
          return false, [];
        }
        if d.block.value.index < state.remoteLength - 1 {
          next := Some(d.block.value.index + 1);
        }
      }
      core := applied.value;
      if d.upgrade.Some? {
        var remoteLength := if core.fork == state.remoteFork then state.remoteLength else 0;
        messages := [Synchronize(W.Synchronize(core.fork, d.upgrade.value.length, remoteLength, true, true, false))];
      }
      if next.Some? {
        messages := messages + [Request(BlockRequest(merkle, core.fork, next.value))];
      }
      ok := true;
    }
  }
}
