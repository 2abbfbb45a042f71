/**
 The dialogue between a fresh reader and a writer that does not change, over first-in first-out links
 and in every order of deliveries: it asks for everything exactly once, in order, and then stops.
 */
module Dialogue {
  import opened Wrappers
  import opened Compact
  import opened Messages
  import opened Replication
  import W = WireSchema

  /** The log to be replicated: a fork and at least one block. */
  datatype Log = Log(fork: u64, blocks: seq<Bytes>) {
    ghost predicate Valid() { 0 < |blocks| < U64_LIMIT }
  }

  function FullCore(g: Log): Core
    requires g.Valid()
  {
    Core(g.fork, |g.blocks|, map i: nat | i < |g.blocks| :: g.blocks[i])
  }

  /** Both sides, the messages on their way to each, and every request the reader has sent. */
  datatype Talk = Talk(
    reader: Side, writer: Side,
    toReader: seq<Message>, toWriter: seq<Message>,
    readerStarted: bool, writerStarted: bool,
    requested: seq<W.Request>)

  datatype Event = StartReader | StartWriter | ToReader | ToWriter

  function Begin(g: Log): Talk
    requires g.Valid()
  {
    Talk(Side(Core(g.fork, 0, map[]), DEFAULT_STATE), Side(FullCore(g), DEFAULT_STATE), [], [], false, false, [])
  }

  /** The events that can happen; a side that has not started receives nothing. */
  predicate Enabled(t: Talk, e: Event) {
    match e
    case StartReader => !t.readerStarted
    case StartWriter => !t.writerStarted
    case ToReader => t.readerStarted && t.toReader != []
    case ToWriter => t.writerStarted && t.toWriter != []
  }

  function Requests(ms: seq<Message>): seq<W.Request> {
    if ms == [] then [] else (if ms[0].Request? then [ms[0].request] else []) + Requests(ms[1..])
  }

  function Answers(ms: seq<Message>): seq<W.Data> {
    if ms == [] then [] else (if ms[0].Data? then [ms[0].data] else []) + Answers(ms[1..])
  }

  /** One event; `None` if a side fails on the message it receives. */
  function Happen(mk: Merkle, t: Talk, e: Event): Option<Talk>
    requires Enabled(t, e)
  {
    match e
    case StartReader =>
      var (n, out) := Greeting(t.reader);
      Some(t.(reader := n, toWriter := t.toWriter + out, readerStarted := true, requested := t.requested + Requests(out)))
    case StartWriter =>
      var (n, out) := Greeting(t.writer);
      Some(t.(writer := n, toReader := t.toReader + out, writerStarted := true))
    case ToReader =>
      match OnMessage(mk, t.reader, t.toReader[0]) {
        case Reaction(n, out) =>
          Some(t.(reader := n, toReader := t.toReader[1..], toWriter := t.toWriter + out,
                  requested := t.requested + Requests(out)))
        case _ => None
      }
    case ToWriter =>
      match OnMessage(mk, t.writer, t.toWriter[0]) {
        case Reaction(n, out) => Some(t.(writer := n, toWriter := t.toWriter[1..], toReader := t.toReader + out))
        case _ => None
      }
  }

  //
  // The plan
  //

  /** Request number `k`: the upgrade to the whole log first, then one block after the other. */
  function Planned(mk: Merkle, g: Log, k: nat): W.Request
    requires g.Valid() && k <= |g.blocks|
  {
    if k == 0
    then W.Request(1, g.fork, None, None, None, Some(W.RequestUpgrade(0, |g.blocks|)), false, 0)
    else W.Request(k, g.fork, Some(W.RequestBlock(k - 1, mk.missing(k - 1))), None, None, None, false, 0)
  }

  /** The writer's answer to request number `k`. */
  function Answer(mk: Merkle, g: Log, k: nat): W.Data
    requires g.Valid() && k <= |g.blocks|
  {
    var n := |g.blocks|;
    if k == 0
    then W.Data(1, g.fork, None, None, None, Some(W.DataUpgrade(0, n, mk.nodes(n), [], mk.signature(n))))
    else W.Data(k, g.fork, Some(W.DataBlock(k - 1, mk.nodes(k - 1), g.blocks[k - 1])), None, None, None)
  }

  /** The reader's store once `k` answers have arrived. */
  function CoreAfter(g: Log, k: nat): Core
    requires g.Valid() && k <= |g.blocks| + 1
  {
    if k == 0 then Core(g.fork, 0, map[])
    else Core(g.fork, |g.blocks|, map i: nat | i < k - 1 :: g.blocks[i])
  }

  function PlanUpTo(mk: Merkle, g: Log, k: nat): seq<W.Request>
    requires g.Valid() && k <= |g.blocks| + 1
  {
    seq(k, i requires 0 <= i < k => Planned(mk, g, i))
  }

  //
  // The invariant
  //

  /** What is announced: a length, and the length heard of the other side; an upgrade is possible only on the first fork. */
  function Announced(g: Log, length: u64, heard: u64, canUpgrade: bool): Message {
    Synchronize(W.Synchronize(g.fork, length, heard, true, true, canUpgrade))
  }

  /** What the writer may send besides answers: it announces the whole log and knows of none of the reader's. */
  predicate WriterSays(g: Log, m: Message)
    requires g.Valid()
  {
    match m
    case Synchronize(_) => m == Announced(g, |g.blocks|, 0, g.fork == 0)
    case Range(r) => r == W.Range(false, 0, |g.blocks|)
    case Data(_) => true
    case _ => false
  }

  /** What the reader may send besides requests: an empty log at first, and the whole log after its upgrade. */
  predicate ReaderSays(g: Log, m: Message, writerSynced: bool)
    requires g.Valid()
  {
    match m
    case Synchronize(_) =>
      || m == Announced(g, 0, 0, g.fork == 0)
      || m == Announced(g, 0, |g.blocks|, g.fork == 0)
      || (writerSynced && m == Announced(g, |g.blocks|, |g.blocks|, false))
    case Request(_) => true
    case _ => false
  }

  predicate LinksOk(g: Log, t: Talk)
    requires g.Valid()
  {
    && (forall i | 0 <= i < |t.toReader| :: WriterSays(g, t.toReader[i]))
    && (forall i | 0 <= i < |t.toWriter| :: ReaderSays(g, t.toWriter[i], t.writer.state.remoteSynced))
  }

  /** A side that has heard nothing has a greeting at the head of its link as soon as the other has started. */
  predicate GreetingsOk(g: Log, t: Talk) {
    && (t.writerStarted && !t.reader.state.remoteSynced ==> t.toReader != [] && t.toReader[0].Synchronize?)
    && (t.readerStarted && !t.writer.state.remoteSynced ==> t.toWriter != [] && t.toWriter[0].Synchronize?)
    && (!t.writerStarted ==> t.toReader == [] && !t.writer.state.remoteSynced)
    && (!t.readerStarted ==> t.toWriter == [] && !t.reader.state.remoteSynced)
  }

  /** A side starts from the default state; from then on an upgrade is possible only on the first fork. */
  predicate StartedOk(g: Log, state: PeerState, started: bool) {
    if started then state.canUpgrade == (g.fork == 0) else state == DEFAULT_STATE
  }

  predicate StatesOk(g: Log, t: Talk) {
    && StartedOk(g, t.reader.state, t.readerStarted) && StartedOk(g, t.writer.state, t.writerStarted)
    && (t.reader.state.remoteSynced ==> t.reader.state.remoteFork == g.fork)
    && t.reader.state.remoteLength == (if t.reader.state.remoteSynced then |g.blocks| else 0)
    && (!t.writer.state.remoteSynced ==> t.writer.state.remoteLength == 0)
  }

  /** Where the dialogue stands after `k` requests: one is on its way, or its answer is, or all is done. */
  ghost predicate Standing(
    mk: Merkle, g: Log, requested: seq<W.Request>, core: Core, synced: bool,
    asked: seq<W.Request>, answered: seq<W.Data>)
    requires g.Valid()
  {
    var k, n := |requested|, |g.blocks|;
    && k <= n + 1 && requested == PlanUpTo(mk, g, k)
    && (synced <==> k > 0)
    && if k == 0 then core == CoreAfter(g, 0) && asked == [] && answered == []
       else
         || (core == CoreAfter(g, k - 1) && asked == [Planned(mk, g, k - 1)] && answered == [])
         || (core == CoreAfter(g, k - 1) && asked == [] && answered == [Answer(mk, g, k - 1)])
         || (k == n + 1 && core == CoreAfter(g, n + 1) && asked == [] && answered == [])
  }

  ghost predicate StandingOk(mk: Merkle, g: Log, t: Talk)
    requires g.Valid()
  {
    Standing(mk, g, t.requested, t.reader.core, t.reader.state.remoteSynced, Requests(t.toWriter), Answers(t.toReader))
  }

  /** An answer on its way, or one that has arrived, shows that the writer has heard the reader. */
  predicate HeardOk(t: Talk) {
    Answers(t.toReader) != [] || t.reader.core.length > 0 ==> t.writer.state.remoteSynced
  }

  ghost predicate Inv(mk: Merkle, g: Log, t: Talk) {
    && g.Valid()
    && t.writer.core == FullCore(g)
    && LinksOk(g, t) && GreetingsOk(g, t) && StatesOk(g, t) && StandingOk(mk, g, t) && HeardOk(t)
  }

  //
  // Sequences of messages
  //

  lemma {:induction false} RequestsAppend(a: seq<Message>, b: seq<Message>)
    ensures Requests(a + b) == Requests(a) + Requests(b)
  {
    if a == [] {
      assert a + b == b;
    } else {
      var first := if a[0].Request? then [a[0].request] else [];
      RequestsAppend(a[1..], b);
      assert (a + b)[0] == a[0] && (a + b)[1..] == a[1..] + b;
      assert first + (Requests(a[1..]) + Requests(b)) == (first + Requests(a[1..])) + Requests(b);
    }
  }

  lemma {:induction false} AnswersAppend(a: seq<Message>, b: seq<Message>)
    ensures Answers(a + b) == Answers(a) + Answers(b)
  {
    if a == [] {
      assert a + b == b;
    } else {
      var first := if a[0].Data? then [a[0].data] else [];
      AnswersAppend(a[1..], b);
      assert (a + b)[0] == a[0] && (a + b)[1..] == a[1..] + b;
      assert first + (Answers(a[1..]) + Answers(b)) == (first + Answers(a[1..])) + Answers(b);
    }
  }

  lemma RequestsOne(m: Message)
    ensures Requests([m]) == if m.Request? then [m.request] else []
    ensures Answers([m]) == if m.Data? then [m.data] else []
  {
  }

  lemma RequestsTwo(m: Message, n: Message)
    ensures Requests([m, n]) == Requests([m]) + Requests([n])
    ensures Answers([m, n]) == Answers([m]) + Answers([n])
  {
    assert [m, n] == [m] + [n];
    RequestsAppend([m], [n]);
    AnswersAppend([m], [n]);
  }

  lemma {:induction false} FullIsContiguous(g: Log, i: nat)
    requires g.Valid() && i <= |g.blocks|
    ensures Contiguous(FullCore(g), i) == |g.blocks|
    decreases |g.blocks| - i
  {
    if i == |g.blocks| {
    } else {
      FullIsContiguous(g, i + 1);
    }
  }

  //
  // Every event keeps the invariant
  //

  lemma StartReaderStep(mk: Merkle, g: Log, t: Talk)
    requires Inv(mk, g, t) && Enabled(t, StartReader)
    ensures var r := Happen(mk, t, StartReader);
            && r.Some? && Inv(mk, g, r.value)
            && |r.value.toWriter| == 1 && Requests(r.value.toWriter) == [] && r.value.requested == t.requested
  {
    var out := Greeting(t.reader).1;
    assert |out| == 1;
    RequestsOne(out[0]);
    assert out == [out[0]];
    RequestsAppend(t.toWriter, out);
    assert t.toWriter + out == out;
    assert t.requested + [] == t.requested;
  }

  /** The writer greets with the length of its log and the range of all its blocks. */
  lemma WriterGreeting(g: Log, n: Side)
    requires g.Valid() && n == Side(FullCore(g), DEFAULT_STATE)
    ensures var (r, out) := Greeting(n);
            && r == n.(state := n.state.(canUpgrade := g.fork == 0))
            && |out| == 2 && out[0].Synchronize? && WriterSays(g, out[0]) && out[1].Range? && WriterSays(g, out[1])
            && Requests(out) == [] && Answers(out) == []
  {
    FullIsContiguous(g, 0);
    var out := Greeting(n).1;
    assert out == [out[0], out[1]];
    NeitherAsks(out[0], out[1]);
  }

  /** Two messages that neither ask nor answer. */
  lemma NeitherAsks(m: Message, n: Message)
    requires !m.Request? && !m.Data? && !n.Request? && !n.Data?
    ensures Requests([m, n]) == [] && Answers([m, n]) == []
  {
    RequestsOne(m);
    RequestsOne(n);
    RequestsTwo(m, n);
  }

  lemma StartWriterStep(mk: Merkle, g: Log, t: Talk)
    requires Inv(mk, g, t) && Enabled(t, StartWriter)
    ensures var r := Happen(mk, t, StartWriter); r.Some? && Inv(mk, g, r.value) && |r.value.toReader| == 2
  {
    hide Greeting, Standing, FullCore;
    WriterGreeting(g, t.writer);
    var out := Greeting(t.writer).1;
    assert t.toReader + out == out;
  }

  /** What a received message leaves on its link. */
  lemma HeadTail(ms: seq<Message>)
    requires ms != []
    ensures ms[0].Request? ==> Requests(ms) != []
    ensures ms[0].Data? ==> Answers(ms) != []
    ensures if ms[0].Request? then Requests(ms)[0] == ms[0].request && Requests(ms)[1..] == Requests(ms[1..])
            else Requests(ms) == Requests(ms[1..])
    ensures if ms[0].Data? then Answers(ms)[0] == ms[0].data && Answers(ms)[1..] == Answers(ms[1..])
            else Answers(ms) == Answers(ms[1..])
  {
    assert Requests(ms) == (if ms[0].Request? then [ms[0].request] else []) + Requests(ms[1..]);
    assert Answers(ms) == (if ms[0].Data? then [ms[0].data] else []) + Answers(ms[1..]);
  }

  //
  // The writer receives
  //

  /** The writer acknowledges the first Synchronize and never asks for anything. */
  lemma WriterReaction(g: Log, n: Side, x: W.Synchronize)
    requires g.Valid() && n.core == FullCore(g) && ReaderSays(g, Synchronize(x), n.state.remoteSynced)
    requires n.state.canUpgrade == (g.fork == 0)
    ensures var r := OnSynchronize(n, x);
            && r.Reaction? && r.side.core == n.core && r.side.state.remoteSynced
            && r.side.state.canUpgrade == n.state.canUpgrade
            && |r.out| == Unit(!n.state.remoteSynced) && Answers(r.out) == []
            && (forall i | 0 <= i < |r.out| :: WriterSays(g, r.out[i]) && r.out[i].Synchronize?)
  {
    var out := OnSynchronize(n, x).out;
    if out != [] {
      assert out == [out[0]];
      RequestsOne(out[0]);
    }
  }

  lemma WriterHearsSync(mk: Merkle, g: Log, t: Talk)
    requires Inv(mk, g, t) && Enabled(t, ToWriter) && t.toWriter[0].Synchronize?
    ensures var r := Happen(mk, t, ToWriter);
            && r.Some? && Inv(mk, g, r.value)
            && Requests(r.value.toWriter) == Requests(t.toWriter)
            && |r.value.toReader| == |t.toReader| + Unit(!t.writer.state.remoteSynced)
            && r.value.writer.state.remoteSynced
  {
    hide Standing, OnSynchronize, Requests, Answers, FullCore, CoreAfter;
    HeadTail(t.toWriter);
    assert ReaderSays(g, t.toWriter[0], t.writer.state.remoteSynced);
    var x := t.toWriter[0].synchronize;
    WriterReaction(g, t.writer, x);
    AnswersAppend(t.toReader, OnSynchronize(t.writer, x).out);
    assert Answers(t.toReader) + [] == Answers(t.toReader);
  }

  lemma AnswerPlanned(mk: Merkle, g: Log, n: Side, k: nat)
    requires g.Valid() && n.core == FullCore(g) && k <= |g.blocks|
    ensures OnRequest(mk, n, Planned(mk, g, k)) == Reaction(n, [Data(Answer(mk, g, k))])
  {
  }

  lemma WriterAnswers(mk: Merkle, g: Log, t: Talk)
    requires Inv(mk, g, t) && Enabled(t, ToWriter) && t.toWriter[0].Request?
    ensures var r := Happen(mk, t, ToWriter);
            && r.Some? && Inv(mk, g, r.value)
            && |Requests(r.value.toWriter)| == |Requests(t.toWriter)| - 1
            && |r.value.toReader| == |t.toReader| + 1
            && r.value.writer.state == t.writer.state
  {
    hide FullCore, Planned, Answer, CoreAfter, OnRequest;
    HeadTail(t.toWriter);
    var k := |t.requested| - 1;
    assert Requests(t.toWriter) == [Planned(mk, g, k)];
    AnswerPlanned(mk, g, t.writer, k);
    var d := Answer(mk, g, k);
    AnswersAppend(t.toReader, [Data(d)]);
    RequestsOne(Data(d));
    hide Requests, Answers;
    assert Answers(t.toReader) + [d] == [d];
    assert WriterSays(g, Data(d));
  }

  //
  // The reader receives
  //

  lemma ReaderHearsRange(mk: Merkle, g: Log, t: Talk)
    requires Inv(mk, g, t) && Enabled(t, ToReader) && t.toReader[0].Range?
    ensures var r := Happen(mk, t, ToReader);
            && r.Some? && Inv(mk, g, r.value)
            && r.value.toWriter == t.toWriter && r.value.requested == t.requested && r.value.reader == t.reader
  {
    hide Standing;
    HeadTail(t.toReader);
    assert t.toWriter + [] == t.toWriter;
    assert t.requested + [] == t.requested;
  }

  lemma ReaderHearsSync(mk: Merkle, g: Log, t: Talk)
    requires Inv(mk, g, t) && Enabled(t, ToReader) && t.toReader[0].Synchronize? && t.reader.state.remoteSynced
    ensures var r := Happen(mk, t, ToReader);
            && r.Some? && Inv(mk, g, r.value)
            && r.value.toWriter == t.toWriter && r.value.requested == t.requested && r.value.reader.state.remoteSynced
  {
    hide Standing;
    HeadTail(t.toReader);
    assert WriterSays(g, t.toReader[0]);
    assert OnSynchronize(t.reader, t.toReader[0].synchronize).out == [];
    assert t.toWriter + [] == t.toWriter;
    assert t.requested + [] == t.requested;
  }

  /** The first Synchronize makes the reader acknowledge it and ask for the whole log. */
  lemma ReaderReaction(mk: Merkle, g: Log, n: Side, x: W.Synchronize)
    requires g.Valid() && n.core == CoreAfter(g, 0) && !n.state.remoteSynced && n.state.remoteLength == 0
    requires WriterSays(g, Synchronize(x)) && n.state.canUpgrade == (g.fork == 0)
    ensures var r := OnSynchronize(n, x);
            && r.Reaction? && r.side.core == n.core && r.side.state.remoteSynced && r.side.state.remoteLength == |g.blocks|
            && r.side.state.remoteFork == g.fork && r.side.state.canUpgrade == n.state.canUpgrade
            && |r.out| == 2 && Requests(r.out) == [Planned(mk, g, 0)]
            && (forall i | 0 <= i < 2 :: ReaderSays(g, r.out[i], false)) && r.out[0].Synchronize?
  {
    var out, ask := OnSynchronize(n, x).out, Planned(mk, g, 0);
    assert out == [out[0], Request(ask)];
    RequestsOne(out[0]);
    RequestsOne(Request(ask));
    RequestsTwo(out[0], Request(ask));
  }

  lemma ReaderHearsFirst(mk: Merkle, g: Log, t: Talk)
    requires Inv(mk, g, t) && Enabled(t, ToReader) && t.toReader[0].Synchronize? && !t.reader.state.remoteSynced
    ensures var r := Happen(mk, t, ToReader);
            && r.Some? && Inv(mk, g, r.value)
            && |r.value.toWriter| == |t.toWriter| + 2 && |Requests(r.value.toWriter)| == 1
            && |r.value.requested| == 1 && t.requested == [] && r.value.reader.state.remoteSynced
  {
    hide OnSynchronize, Requests, Answers, FullCore, CoreAfter, Planned, Answer;
    HeadTail(t.toReader);
    assert WriterSays(g, t.toReader[0]);
    var x := t.toReader[0].synchronize;
    ReaderReaction(mk, g, t.reader, x);
    RequestsAppend(t.toWriter, OnSynchronize(t.reader, x).out);
    var ask := Planned(mk, g, 0);
    assert [] + [ask] == [ask];
    assert PlanUpTo(mk, g, 1) == [ask];
  }

  /** How the reader takes the answer to request number `k`. */
  lemma TakeAnswer(mk: Merkle, g: Log, n: Side, k: nat)
    requires g.Valid() && k <= |g.blocks| && n.core == CoreAfter(g, k)
    requires n.state.remoteLength == |g.blocks| && n.state.remoteFork == g.fork
    ensures var r := OnData(mk, n, Answer(mk, g, k));
            && r.Reaction? && r.side == n.(core := CoreAfter(g, k + 1))
            && (if k < |g.blocks| then
                  && (k == 0 ==> r.out == [Announced(g, |g.blocks|, |g.blocks|, false), Request(Planned(mk, g, k + 1))])
                  && (k > 0 ==> r.out == [Request(Planned(mk, g, k + 1))])
                else r.out == [])
  {
    var d := Answer(mk, g, k);
    if k > 0 {
      assert CoreAfter(g, k).blocks[k - 1 := g.blocks[k - 1]] == CoreAfter(g, k + 1).blocks;
    } else {
      assert CoreAfter(g, 1).blocks == map[];
    }
    assert ApplyProof(n.core, d) == Some(CoreAfter(g, k + 1));
  }

  lemma PlanGrows(mk: Merkle, g: Log, k: nat)
    requires g.Valid() && k <= |g.blocks|
    ensures PlanUpTo(mk, g, k + 1) == PlanUpTo(mk, g, k) + [Planned(mk, g, k)]
  {
  }

  /** The messages with which the reader goes on after an answer. */
  lemma NextMessages(mk: Merkle, g: Log, out: seq<Message>, k: nat)
    requires g.Valid() && k < |g.blocks|
    requires out == [Request(Planned(mk, g, k + 1))]
          || (|out| == 2 && out[0].Synchronize? && out == [out[0], Request(Planned(mk, g, k + 1))])
    ensures Requests(out) == [Planned(mk, g, k + 1)]
  {
    var ask := Planned(mk, g, k + 1);
    RequestsOne(Request(ask));
    if |out| == 2 {
      RequestsOne(out[0]);
      RequestsTwo(out[0], Request(ask));
    }
  }

  lemma ReaderTakesAnswer(mk: Merkle, g: Log, t: Talk)
    requires Inv(mk, g, t) && Enabled(t, ToReader) && t.toReader[0].Data?
    ensures var r := Happen(mk, t, ToReader);
            && r.Some? && Inv(mk, g, r.value)
            && 4 * |r.value.requested| - |r.value.toWriter| - |Requests(r.value.toWriter)|
               >= 4 * |t.requested| - |t.toWriter| - |Requests(t.toWriter)|
            && r.value.reader.state == t.reader.state
  {
    hide FullCore, Planned, Answer, CoreAfter, OnData, PlanUpTo, Requests, Answers;
    HeadTail(t.toReader);
    var k, d := |t.requested| - 1, t.toReader[0].data;
    assert d == Answer(mk, g, k) && Answers(t.toReader[1..]) == [];
    assert t.reader.core == CoreAfter(g, k);
    TakeAnswer(mk, g, t.reader, k);
    var out := OnData(mk, t.reader, d).out;
    CoreLength(g, k + 1);
    RequestsAppend(t.toWriter, out);
    assert t.writer.state.remoteSynced;
    if k < |g.blocks| {
      NextMessages(mk, g, out, k);
      PlanGrows(mk, g, k + 1);
      assert [] + Requests(out) == Requests(out);
    } else {
      NoRequests();
      assert t.toWriter + out == t.toWriter && t.requested + [] == t.requested;
    }
  }

  lemma NoRequests()
    ensures Requests([]) == []
  {
  }

  lemma CoreLength(g: Log, k: nat)
    requires g.Valid() && k <= |g.blocks| + 1
    ensures CoreAfter(g, k).length > 0 <==> k > 0
  {
  }

  //
  // Progress
  //

  function Unit(b: bool): nat { if b then 1 else 0 }

  /** What is still to come: it falls with every event. */
  function Measure(g: Log, t: Talk): int {
    4 * (|g.blocks| + 1 - |t.requested|) + |t.toWriter| + |Requests(t.toWriter)| + |t.toReader|
    + 2 * Unit(!t.reader.state.remoteSynced) + 2 * Unit(!t.writer.state.remoteSynced)
    + 3 * Unit(!t.readerStarted) + 3 * Unit(!t.writerStarted)
  }

  /** Every event succeeds on both sides, keeps the invariant and makes progress. */
  lemma EventStep(mk: Merkle, g: Log, t: Talk, e: Event)
    requires Inv(mk, g, t) && Enabled(t, e)
    ensures var r := Happen(mk, t, e); r.Some? && Inv(mk, g, r.value) && Measure(g, r.value) < Measure(g, t)
  {
    hide Standing, OnMessage, Greeting, OnSynchronize, OnRequest, OnData, FullCore;
    match e
    case StartReader =>
      StartReaderStep(mk, g, t);
      GreetingKeepsSync(t.reader);
    case StartWriter =>
      StartWriterStep(mk, g, t);
      GreetingKeepsSync(t.writer);
    case ToWriter =>
      assert ReaderSays(g, t.toWriter[0], t.writer.state.remoteSynced);
      if t.toWriter[0].Request? {
        WriterAnswers(mk, g, t);
      } else {
        WriterHearsSync(mk, g, t);
      }
    case ToReader =>
      assert WriterSays(g, t.toReader[0]);
      if t.toReader[0].Data? {
        ReaderTakesAnswer(mk, g, t);
      } else if t.toReader[0].Range? {
        ReaderHearsRange(mk, g, t);
      } else if t.reader.state.remoteSynced {
        ReaderHearsSync(mk, g, t);
      } else {
        ReaderHearsFirst(mk, g, t);
      }
  }

  lemma GreetingKeepsSync(n: Side)
    ensures Greeting(n).0.state.remoteSynced == n.state.remoteSynced
  {
  }

  //
  // Whole dialogues
  //

  lemma BeginOk(mk: Merkle, g: Log)
    requires g.Valid()
    ensures Inv(mk, g, Begin(g)) && Measure(g, Begin(g)) == 4 * |g.blocks| + 14
  {
    assert PlanUpTo(mk, g, 0) == [];
  }

  /** The talk after some events, or `None` if an event could not happen or a side failed. */
  function Converse(mk: Merkle, t: Talk, events: seq<Event>): Option<Talk>
    decreases |events|
  {
    if events == [] then Some(t)
    else if !Enabled(t, events[0]) then None
    else
      match Happen(mk, t, events[0])
      case None => None
      case Some(next) => Converse(mk, next, events[1..])
  }

  /** Whether each of the events can happen when its turn comes. */
  predicate Possible(mk: Merkle, t: Talk, events: seq<Event>)
    decreases |events|
  {
    events != [] ==>
      && Enabled(t, events[0])
      && (Happen(mk, t, events[0]).Some? ==> Possible(mk, Happen(mk, t, events[0]).value, events[1..]))
  }

  lemma {:induction false} ConverseOk(mk: Merkle, g: Log, t: Talk, events: seq<Event>)
    requires Inv(mk, g, t) && Possible(mk, t, events)
    ensures var r := Converse(mk, t, events); r.Some? && Inv(mk, g, r.value) && Measure(g, r.value) + |events| <= Measure(g, t)
    decreases |events|
  {
    hide Inv, Measure, Happen, Enabled;
    if events == [] {
    } else {
      EventStep(mk, g, t, events[0]);
      ConverseOk(mk, g, Happen(mk, t, events[0]).value, events[1..]);
    }
  }

  /** Nothing more can happen. */
  predicate Over(t: Talk) {
    forall e :: !Enabled(t, e)
  }

  /**
   In every order of events: no side ever fails; the requests sent so far are the upgrade to the whole
   log and then the blocks from the first on, each once and in order; what is on its way besides requests
   and answers announces exactly the logs as they are; the dialogue ends after a bounded number of events;
   and when it is over every request has been sent and the reader has the whole log.
   */
  lemma ReplicationProgress(mk: Merkle, g: Log, events: seq<Event>)
    requires g.Valid() && Possible(mk, Begin(g), events)
    ensures Converse(mk, Begin(g), events).Some?
    ensures |events| <= 4 * |g.blocks| + 14
    ensures var t, n := Converse(mk, Begin(g), events).value, |g.blocks|;
            && |t.requested| <= n + 1
            && t.requested == PlanUpTo(mk, g, |t.requested|)
            && LinksOk(g, t)
            && (Over(t) ==> |t.requested| == n + 1 && t.reader.core == FullCore(g))
  {
    hide Possible, Converse;
    BeginOk(mk, g);
    ConverseOk(mk, g, Begin(g), events);
    var t := Converse(mk, Begin(g), events).value;
    MeasurePositive(mk, g, t);
    if Over(t) {
      assert !Enabled(t, StartReader) && !Enabled(t, StartWriter) && !Enabled(t, ToReader) && !Enabled(t, ToWriter);
      assert CoreAfter(g, |g.blocks| + 1) == FullCore(g);
    }
  }

  lemma MeasurePositive(mk: Merkle, g: Log, t: Talk)
    requires Inv(mk, g, t)
    ensures Measure(g, t) >= 0
  {
  }
}
