/** Channels over whole runs: how they are accepted, on whose authority, and how they close. */
module ChannelTheorems {
  import opened Wrappers
  import opened Compact
  import opened Handshake
  import opened Messages
  import opened Channels
  import opened ProtocolModel
  import E = EventTheorems

  //
  // Acceptance
  //

  /** The only ways accepting a connected handle can end. */
  function Verdict(p: Proto, h: Handle): Option<Problem>
    requires h.IsConnected()
  {
    if p.remoteKey.None? || p.hash.None? then Some(NoHandshake)
    else if HandshakeResult(p.initiator, p.hash.value).Verify(p.crypto, h.remote.value.capability, h.local.value.key)
    then None
    else Some(Denied)
  }

  /** Accepting by a handle's own local id always resolves to that handle. */
  lemma AcceptOutcome(p: Proto, dk: Key)
    requires p.Good() && dk in p.table.channels && p.table.channels[dk].IsConnected()
    ensures var h := p.table.channels[dk];
            var r := AcceptChannel(p, h.local.value.localId);
            && r.problem == Verdict(p, h)
            && r.p == if r.problem.Some? then p else
                 p.(table := OpenInbox(p.table, dk).0).Queue(Established(OpenInbox(p.table, dk).1))
  {
    assert HandleSound(p.table, dk);
  }

  /**
   Opening a key fails only if the remote side had opened it before and its capability is refused (or
   the handshake is not there yet); otherwise, when connected, the channel of that very key is announced.
   */
  lemma CommandOpenOutcome(p: Proto, key: Key)
    requires p.Good()
    ensures var dk := p.crypto.discovery(key);
            var t := AttachLocal(p.table, dk, key);
            var h, r := t.channels[dk], CommandOpen(p, key);
            && r.problem == (if h.IsConnected() then Verdict(p, h) else None)
            && (r.problem.None? ==> r.p == p.(
                 table := if h.IsConnected() then OpenInbox(t, dk).0 else t,
                 events := p.events + if h.IsConnected() then [Established(OpenInbox(t, dk).1)] else [],
                 outbox := p.outbox + [OpenMessage(p, NextLocalId(p.table), dk, key)]))
            && (r.problem.Some? ==> r.p == p.(table := t))
  {
    hide Sound, AcceptChannel, OpenInbox;
    var dk := p.crypto.discovery(key);
    var attached := p.(table := AttachLocal(p.table, dk, key));
    if attached.table.channels[dk].IsConnected() {
      AcceptOutcome(attached, dk);
    } else {
      assert p.events + [] == p.events;
    }
  }

  /** An inbound Open fails only on a malformed key or a refused capability (or without a handshake). */
  lemma OnOpenOutcome(p: Proto, m: ChannelMessage)
    requires p.Good() && m.message.Open? && |m.message.open.discoveryKey| == 32
    ensures var dk: Key := m.message.open.discoveryKey;
            var t := AttachRemote(p.table, dk, m.channel, m.message.open.capability);
            var h, r := t.channels[dk], OnInboundMessage(p, m);
            && r.problem == (if h.IsConnected() then Verdict(p, h) else None)
            && (r.problem.None? ==>
                 && r.p.table == (if h.IsConnected() then OpenInbox(t, dk).0 else t)
                 && r.p == p.(table := r.p.table).Queue(
                      if h.IsConnected() then Established(OpenInbox(t, dk).1) else DiscoveryKey(dk)))
            && (r.problem.Some? ==> r.p == p.(table := t))
  {
    hide Sound, AcceptChannel, OpenInbox;
    var o := m.message.open;
    var dk: Key := o.discoveryKey;
    var attached := p.(table := AttachRemote(p.table, dk, m.channel, o.capability));
    if attached.table.channels[dk].IsConnected() {
      AcceptOutcome(attached, dk);
    }
  }

  /** The remote id that a message names belongs to a channel. */
  predicate NamesRemote(t: Table, id: nat, dk: Key) {
    id < |t.remoteIds| && t.remoteIds[id] == Some(dk) && dk in t.channels
  }

  /**
   Any other inbound message is put last into the inbox of the channel that its id names and changes
   nothing else. It fails, with nothing changed, if that channel has no inbox yet or no receiver any more,
   and is ignored if its id names no channel.
   */
  lemma TrafficOutcome(p: Proto, m: ChannelMessage)
    requires p.Good() && !m.message.IsControl()
    ensures var r := Take(p, Inbound(m));
            && ((forall dk :: !NamesRemote(p.table, m.channel, dk)) ==> r == Done(p, None))
            && forall dk | NamesRemote(p.table, m.channel, dk) ::
                 var inbox := p.table.channels[dk].inbox;
                 && (inbox.None? ==> r == Done(p, Some(TableProblem(NotOpen))))
                 && (inbox.Some? && !p.table.inboxes[inbox.value].receiving ==> r == Done(p, Some(TableProblem(ReceiverGone))))
                 && (inbox.Some? && p.table.inboxes[inbox.value].receiving ==>
                       && r.problem.None?
                       && r.p == p.(table := p.table.(inboxes := r.p.table.inboxes))
                       && |r.p.table.inboxes| == |p.table.inboxes|
                       && forall x | 0 <= x < |p.table.inboxes| ::
                            r.p.table.inboxes[x] ==
                            if x == inbox.value then p.table.inboxes[x].(messages := p.table.inboxes[x].messages + [m.message])
                            else p.table.inboxes[x])
  {
    if m.channel < |p.table.remoteIds| && p.table.remoteIds[m.channel].Some? {
      var dk := p.table.remoteIds[m.channel].value;
      if dk in p.table.channels {
        assert NamesRemote(p.table, m.channel, dk) && HandleSound(p.table, dk);
      }
    }
  }

  //
  // Authority
  //

  /** Some Open for `dk` with this capability came in. */
  ghost predicate RemoteOpened(steps: seq<Step>, dk: Key, capability: Option<Bytes>) {
    exists id, o :: Inbound(ChannelMessage(id, Open(o))) in steps && o.discoveryKey == dk && o.capability == capability
  }

  /** The stream reported this handshake hash. */
  ghost predicate Learned(steps: seq<Step>, hash: Bytes) {
    exists k :: Learn(Some(hash), k) in steps
  }

  /** Both halves of a handle go back to steps of the run. */
  ghost predicate Traced(crypto: Crypto, steps: seq<Step>, dk: Key, h: Handle) {
    && (h.local.Some? ==>
          crypto.discovery(h.local.value.key) == dk && Execute(OpenKey(h.local.value.key)) in steps)
    && (h.remote.Some? ==> RemoteOpened(steps, dk, h.remote.value.capability))
  }

  /** The local side opened the channel's key, and the remote side proved that it knows it. */
  ghost predicate Authorised(crypto: Crypto, initiator: bool, steps: seq<Step>, c: Channel) {
    && crypto.discovery(c.key) == c.discoveryKey
    && Execute(OpenKey(c.key)) in steps
    && exists hash :: Learned(steps, hash) && RemoteOpened(steps, c.discoveryKey, Some(crypto.capability(!initiator, c.key, hash)))
  }

  ghost predicate Provenance(p: Proto, steps: seq<Step>) {
    && (p.hash.Some? ==> Learned(steps, p.hash.value))
    && (forall dk | dk in p.table.channels :: Traced(p.crypto, steps, dk, p.table.channels[dk]))
    && (forall c | Established(c) in p.History() :: Authorised(p.crypto, p.initiator, steps, c))
  }

  /** More steps never take a trace away. */
  lemma TracesGrow(p: Proto, steps: seq<Step>, s: Step)
    requires Provenance(p, steps)
    ensures Provenance(p, steps + [s])
  {
    var more := steps + [s];
    assert forall x | x in steps :: x in more;
    forall hash | Learned(steps, hash) ensures Learned(more, hash) {
      var k :| Learn(Some(hash), k) in steps;
      assert Learn(Some(hash), k) in more;
    }
    forall dk, capability | RemoteOpened(steps, dk, capability) ensures RemoteOpened(more, dk, capability) {
      var id, o :| Inbound(ChannelMessage(id, Open(o))) in steps && o.discoveryKey == dk && o.capability == capability;
      assert Inbound(ChannelMessage(id, Open(o))) in more;
    }
  }

  /** Fewer handles, and no new established channel. */
  ghost predicate Narrower(p: Proto, q: Proto) {
    && q.crypto == p.crypto && q.initiator == p.initiator && q.hash == p.hash
    && (forall dk | dk in q.table.channels :: dk in p.table.channels && q.table.channels[dk] == p.table.channels[dk])
    && (forall c | Established(c) in q.History() :: Established(c) in p.History())
  }

  lemma NarrowerKeeps(p: Proto, q: Proto, steps: seq<Step>)
    requires Provenance(p, steps) && Narrower(p, q)
    ensures Provenance(q, steps)
  {
  }

  lemma RemoveNarrows(p: Proto, dk: Key)
    requires p.Good() && dk in p.table.channels
    ensures Narrower(p, p.(table := Remove(p.table, dk)).Queue(Closed(dk)))
  {
  }

  lemma {:induction false} BatchNarrows(p: Proto, ms: seq<ChannelMessage>)
    requires p.Good()
    ensures Narrower(p, OnBatch(p, ms))
  {
    if ms == [] {
    } else {
      var n := |ms| - 1;
      BatchNarrows(p, ms[..n]);
      MessageNarrows(OnBatch(p, ms[..n]), ms[n]);
    }
  }

  lemma MessageNarrows(p: Proto, m: ChannelMessage)
    requires p.Good()
    ensures Narrower(p, OnOutboundMessage(p, m))
  {
    if m.message.Close? && GetLocal(p.table, m.channel).Some? {
      assert HandleSound(p.table, p.table.localIds[m.channel].value);
      RemoveNarrows(p, GetLocal(p.table, m.channel).value.discoveryKey);
    }
  }

  /** Steps that open nothing only ever narrow. */
  lemma QuietStepNarrows(p: Proto, s: Step)
    requires p.Good() && !s.Learn?
    requires s.Inbound? ==> !s.message.message.Open?
    requires s.Execute? ==> !s.command.OpenKey?
    ensures Narrower(p, Take(p, s).p)
  {
    hide Sound, OnBatch, Narrower;
    match s
    case Inbound(m) => InboundNarrows(p, m);
    case Execute(c) => CommandNarrows(p, c);
    case Outbound(ms) =>
      BatchNarrows(p, ms);
      OutboxNarrows(p, OnBatch(p, ms), Kept(ms));
    case _ => OtherNarrows(p, s);
  }

  lemma OutboxNarrows(p: Proto, q: Proto, ms: seq<ChannelMessage>)
    requires Narrower(p, q)
    ensures Narrower(p, q.(outbox := q.outbox + ms))
  {
  }

  lemma ForwardNarrows(p: Proto, id: nat, m: Message)
    requires p.Good()
    ensures Narrower(p, p.(table := ForwardTolerant(p.table, id, m)))
    ensures ForwardTolerant(p.table, id, m).channels == p.table.channels
  {
    hide Sound, ForwardTolerant;
    ForwardEffect(p.table, id, m);
  }

  lemma InboundNarrows(p: Proto, m: ChannelMessage)
    requires p.Good() && !m.message.Open?
    ensures Narrower(p, OnInboundMessage(p, m).p)
  {
    hide HandleSound, InTable;
    ForwardNarrows(p, m.channel, m.message);
    if m.message.Close? {
      var found := GetRemote(p.table, m.channel);
      if found.Some? {
        OwnKey(p.table, m.channel);
        RemoveNarrows(p.(table := ForwardTolerant(p.table, m.channel, m.message)), found.value.discoveryKey);
      }
    }
  }

  lemma OwnKey(t: Table, id: nat)
    requires Sound(t)
    ensures GetRemote(t, id).Some? ==>
              t.remoteIds[id] == Some(GetRemote(t, id).value.discoveryKey) && GetRemote(t, id).value.discoveryKey in t.channels
    ensures GetLocal(t, id).Some? ==>
              t.localIds[id] == Some(GetLocal(t, id).value.discoveryKey) && GetLocal(t, id).value.discoveryKey in t.channels
  {
    if GetRemote(t, id).Some? {
      assert HandleSound(t, t.remoteIds[id].value);
    }
    if GetLocal(t, id).Some? {
      assert HandleSound(t, t.localIds[id].value);
    }
  }

  lemma CommandNarrows(p: Proto, c: Command)
    requires p.Good() && !c.OpenKey?
    ensures Narrower(p, OnCommand(p, c).p)
  {
    if c.CloseKey? && c.dk in p.table.channels {
      RemoveNarrows(p, c.dk);
    }
  }

  lemma OtherNarrows(p: Proto, s: Step)
    requires p.Good() && (s.Pop? || s.EmitHandshake? || s.ShutFlag? || s.DropQueue?)
    ensures Narrower(p, Take(p, s).p)
  {
    hide Sound;
    if s.Pop? && p.events != [] {
      assert Take(p, s).p.History() == p.History();
    }
  }

  /** An open, local or remote, adds one half to one handle and announces at most the channel of that handle. */
  lemma OpenKeepsProvenance(p: Proto, q: Proto, steps: seq<Step>, dk: Key, t: Table)
    requires p.Good() && Provenance(p, steps) && Sound(t)
    requires dk in t.channels && Traced(p.crypto, steps, dk, t.channels[dk])
    requires forall d | d in t.channels && d != dk :: d in p.table.channels && t.channels[d] == p.table.channels[d]
    requires q.crypto == p.crypto && q.initiator == p.initiator && q.hash == p.hash
    requires forall d | d in q.table.channels ::
               d in t.channels && q.table.channels[d] == t.channels[d].(inbox := q.table.channels[d].inbox)
    requires forall c | Established(c) in q.History() && Established(c) !in p.History() ::
               && t.channels[dk].IsConnected() && Verdict(p, t.channels[dk]).None?
               && c.discoveryKey == dk && c.key == t.channels[dk].local.value.key
    ensures Provenance(q, steps)
  {
    forall c | Established(c) in q.History() ensures Authorised(q.crypto, q.initiator, steps, c) {
      if Established(c) !in p.History() {
        assert Learned(steps, p.hash.value);
        assert RemoteOpened(steps, dk, t.channels[dk].remote.value.capability);
      }
    }
  }

  lemma CommandOpenProvenance(p: Proto, key: Key, steps: seq<Step>)
    requires p.Good() && Provenance(p, steps) && Execute(OpenKey(key)) in steps
    ensures Provenance(CommandOpen(p, key).p, steps)
  {
    hide Sound, AcceptChannel, Provenance;
    var dk := p.crypto.discovery(key);
    var t, q := AttachLocal(p.table, dk, key), CommandOpen(p, key).p;
    CommandOpenOutcome(p, key);
    assert Traced(p.crypto, steps, dk, t.channels[dk]) by { TracedAt(p, steps, dk); }
    OpenKeepsProvenance(p, q, steps, dk, t);
  }

  lemma TracedAt(p: Proto, steps: seq<Step>, dk: Key)
    requires Provenance(p, steps)
    ensures dk in p.table.channels ==> Traced(p.crypto, steps, dk, p.table.channels[dk])
  {
  }

  lemma OnOpenProvenance(p: Proto, m: ChannelMessage, steps: seq<Step>)
    requires p.Good() && Provenance(p, steps) && Inbound(m) in steps && m.message.Open?
    ensures Provenance(OnInboundMessage(p, m).p, steps)
  {
    hide Sound, AcceptChannel, Provenance;
    var o := m.message.open;
    if |o.discoveryKey| == 32 {
      var dk: Key := o.discoveryKey;
      var t, q := AttachRemote(p.table, dk, m.channel, o.capability), OnInboundMessage(p, m).p;
      OnOpenOutcome(p, m);
      assert Traced(p.crypto, steps, dk, t.channels[dk]) by {
        TracedAt(p, steps, dk);
        assert Inbound(ChannelMessage(m.channel, Open(o))) in steps;
        assert RemoteOpened(steps, dk, o.capability);
      }
      OpenKeepsProvenance(p, q, steps, dk, t);
    }
  }

  lemma StepProvenance(p: Proto, s: Step, steps: seq<Step>)
    requires p.Good() && Provenance(p, steps)
    ensures Provenance(Take(p, s).p, steps + [s])
  {
    hide Sound, OnCommand, OnInboundMessage, OnOutbound, CommandOpen;
    TracesGrow(p, steps, s);
    var more := steps + [s];
    assert s in more;
    if s.Learn? {
      if s.hash.Some? {
        assert Learn(Some(s.hash.value), s.remoteKey) in more;
      }
    } else if s.Inbound? && s.message.message.Open? {
      OnOpenProvenance(p, s.message, more);
    } else if s.Execute? && s.command.OpenKey? {
      CommandOpenProvenance(p, s.command.key, more);
      assert OnCommand(p, s.command) == CommandOpen(p, s.command.key) by { OpenCommand(p, s.command.key); }
    } else {
      QuietStepNarrows(p, s);
      NarrowerKeeps(p, Take(p, s).p, more);
    }
  }

  lemma OpenCommand(p: Proto, key: Key)
    requires p.Good()
    ensures OnCommand(p, OpenKey(key)) == CommandOpen(p, key)
  {
  }

  lemma {:induction false} RunProvenance(crypto: Crypto, initiator: bool, steps: seq<Step>)
    ensures Provenance(Run(Start(crypto, initiator), steps), steps)
    decreases |steps|
  {
    hide Take, Provenance;
    if steps == [] {
      StartProvenance(crypto, initiator);
    } else {
      var n := |steps| - 1;
      RunProvenance(crypto, initiator, steps[..n]);
      StepProvenance(Run(Start(crypto, initiator), steps[..n]), steps[n], steps[..n]);
      assert steps[..n] + [steps[n]] == steps;
    }
  }

  lemma StartProvenance(crypto: Crypto, initiator: bool)
    ensures Provenance(Start(crypto, initiator), [])
  {
  }

  /**
   On every run, every channel ever announced was opened locally by its key, and the remote side sent
   an Open for its discovery key whose capability is the one only the opposite role can show for that
   key on this connection.
   */
  lemma CapabilitySafety(crypto: Crypto, initiator: bool, steps: seq<Step>, c: Channel)
    requires Established(c) in Run(Start(crypto, initiator), steps).History()
    ensures Authorised(crypto, initiator, steps, c)
  {
    RunProvenance(crypto, initiator, steps);
    RunKeepsParty(crypto, initiator, steps);
  }

  lemma {:induction false} RunKeepsParty(crypto: Crypto, initiator: bool, steps: seq<Step>)
    ensures var p := Run(Start(crypto, initiator), steps); p.crypto == crypto && p.initiator == initiator
    decreases |steps|
  {
    hide Take;
    if steps == [] {
    } else {
      var n := |steps| - 1;
      RunKeepsParty(crypto, initiator, steps[..n]);
      if steps[n].Learn? {
        LearnKeepsParty(Run(Start(crypto, initiator), steps[..n]), steps[n]);
      } else {
        E.StepKeepsPeer(Run(Start(crypto, initiator), steps[..n]), steps[n]);
      }
    }
  }

  lemma LearnKeepsParty(p: Proto, s: Step)
    requires p.Good() && s.Learn?
    ensures Take(p, s).p.crypto == p.crypto && Take(p, s).p.initiator == p.initiator
  {
  }
}
