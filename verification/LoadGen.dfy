/** The load generator as a state machine: one generator, a bounded channel, a pool
    of batching producers, a manifest writer and the shutdown sequence. */
module LoadGen {
  import opened Core

  const BATCH := 100

  datatype Event = Event(traceId: string, dup: bool)

  datatype Config = Config(workers: nat, channelCap: nat, manifestCap: nat, maxEvents: nat)

  datatype Generator = Choosing | Sending(e: Event) | Closed

  /** Where a producer is; `last` says it found the channel closed. */
  datatype Phase =
    | Selecting
    | Publishing(last: bool)
    | Reporting(ids: seq<string>, last: bool)     // published; ids copied, not handed over
    | Reported(last: bool)                        // handed to the manifest writer
    | Counted(last: bool)                         // counter updated, buffer not yet reset
    | Exited

  datatype Worker = Worker(phase: Phase, batch: seq<Event>)

  datatype State = State(
    gen: Generator,
    generated: set<string>,            // ids issued and not flagged as duplicates
    emittedLog: seq<Event>,
    channel: seq<Event>,
    receivedLog: seq<Event>,
    workers: seq<Worker>,
    ok: seq<Event>,                    // events of batches published with success
    bad: seq<Event>,                   // events of batches whose publish reported an error
    toManifest: seq<seq<string>>,
    hand: Option<seq<string>>,         // the list the manifest writer has taken
    manifest: seq<string>,
    emitted: nat, produced: nat, errors: nat, duplicates: nat,
    manifestClosed: bool,
    finished: bool
  )

  function Init(c: Config): State {
    State(Choosing, {}, [], [], [], seq(c.workers, _ => Worker(Selecting, [])), [], [], [], None, [], 0, 0, 0, 0,
        false, false)
  }

  datatype Action =
    | Emit(e: Event)
    | Send
    | Stop
    | Receive(w: nat)
    | Drained(w: nat)                  // the channel is closed and empty
    | Tick(w: nat)
    | Publish(w: nat, o: Outcome)
    | Report(w: nat)
    | Count(w: nat)
    | Reset(w: nat)
    | Take                             // the manifest writer takes a queued list
    | Write                            // and writes it, one line per id
    | CloseManifest
    | Finish

  function Ids(es: seq<Event>): (ids: seq<string>)
    ensures |ids| == |es| && forall i :: 0 <= i < |es| ==> ids[i] == es[i].traceId
  {
    if es == [] then [] else [es[0].traceId] + Ids(es[1..])
  }

  /** A new id, or, for a duplicate, one issued before if there is any. */
  predicate Choosable(s: State, e: Event) {
    if e.dup && s.generated != {} then e.traceId in s.generated
    else forall x :: x in s.emittedLog ==> x.traceId != e.traceId
  }

  /** The manifest writer is blocked on an empty queue, so a list can be handed over
      directly; on an unbuffered channel that is the only way. */
  predicate WriterWaits(s: State) { s.toManifest == [] && s.hand.None? }

  predicate Enabled(c: Config, s: State, a: Action) {
    match a
    case Emit(e) => s.gen.Choosing? && (c.maxEvents == 0 || s.emitted < c.maxEvents) && Choosable(s, e)
    case Send => s.gen.Sending? && |s.channel| < c.channelCap
    case Stop => s.gen.Choosing?
    case Receive(w) => w < |s.workers| && s.workers[w].phase.Selecting? && s.channel != []
    case Drained(w) => w < |s.workers| && s.workers[w].phase.Selecting? && s.channel == [] && s.gen.Closed?
    case Tick(w) => w < |s.workers| && s.workers[w].phase.Selecting?
    case Publish(w, _) => w < |s.workers| && s.workers[w].phase.Publishing?
    case Report(w) =>
      w < |s.workers| && s.workers[w].phase.Reporting? && (|s.toManifest| < c.manifestCap || WriterWaits(s))
    case Count(w) => w < |s.workers| && s.workers[w].phase.Reported?
    case Reset(w) => w < |s.workers| && s.workers[w].phase.Counted?
    case Take => s.hand.None? && s.toManifest != []
    case Write => s.hand.Some?
    case CloseManifest => !s.manifestClosed && forall w :: 0 <= w < |s.workers| ==> s.workers[w].phase.Exited?
    case Finish => s.manifestClosed && s.toManifest == [] && s.hand.None? && !s.finished
  }

  /** A flush does nothing when the buffer is empty. */
  function Flush(w: Worker, last: bool): Worker {
    if w.batch == [] then (if last then w.(phase := Exited) else w) else w.(phase := Publishing(last))
  }

  function Append(w: Worker, e: Event): Worker {
    var w1 := w.(batch := w.batch + [e]);
    if |w1.batch| >= BATCH then Flush(w1, false) else w1
  }

  function Apply(c: Config, s: State, a: Action): State
    requires Enabled(c, s, a)
  {
    match a
    case Emit(e) =>
      s.(gen := Sending(e), emittedLog := s.emittedLog + [e], emitted := s.emitted + 1,
         generated := if e.dup then s.generated else s.generated + {e.traceId})
    case Send => s.(gen := Choosing, channel := s.channel + [s.gen.e])
    case Stop => s.(gen := Closed)
    case Receive(w) =>
      var e := s.channel[0];
      s.(channel := s.channel[1..], receivedLog := s.receivedLog + [e],
         workers := s.workers[w := Append(s.workers[w], e)],
         duplicates := s.duplicates + if e.dup then 1 else 0)
    case Drained(w) => s.(workers := s.workers[w := Flush(s.workers[w], true)])
    case Tick(w) => s.(workers := s.workers[w := Flush(s.workers[w], false)])
    case Publish(w, o) =>
      var x := s.workers[w];
      if o == Done
      then s.(ok := s.ok + x.batch, workers := s.workers[w := x.(phase := Reporting(Ids(x.batch), x.phase.last))])
      else s.(bad := s.bad + x.batch, errors := s.errors + |x.batch|,
          workers := s.workers[w := x.(phase := Counted(x.phase.last))])
    case Report(w) =>
      var x := s.workers[w];
      var s1 := s.(workers := s.workers[w := x.(phase := Reported(x.phase.last))]);
      if |s.toManifest| < c.manifestCap then s1.(toManifest := s.toManifest + [x.phase.ids])
      else s1.(hand := Some(x.phase.ids))
    case Count(w) =>
      var x := s.workers[w];
      s.(produced := s.produced + |x.batch|, workers := s.workers[w := x.(phase := Counted(x.phase.last))])
    case Reset(w) =>
      s.(workers := s.workers[w := Worker(if s.workers[w].phase.last then Exited else Selecting, [])])
    case Take => s.(hand := Some(s.toManifest[0]), toManifest := s.toManifest[1..])
    case Write => s.(manifest := s.manifest + s.hand.value, hand := None)
    case CloseManifest => s.(manifestClosed := true)
    case Finish => s.(finished := true)
  }

  predicate ValidRun(c: Config, s: State, run: seq<Action>)
    decreases |run|
  {
    run == [] || (Enabled(c, s, run[0]) && ValidRun(c, Apply(c, s, run[0]), run[1..]))
  }

  function Exec(c: Config, s: State, run: seq<Action>): State
    requires ValidRun(c, s, run)
    decreases |run|
  {
    if run == [] then s else Exec(c, Apply(c, s, run[0]), run[1..])
  }

  // ---- Sums over the pool ----

  /** Copies of an event a producer still has to publish. */
  function HeldBy(w: Worker, e: Event): nat {
    if w.phase.Selecting? || w.phase.Publishing? then multiset(w.batch)[e] else 0
  }

  /** Copies of an id published and not yet handed to the manifest writer. */
  function UnreportedBy(w: Worker, id: string): nat {
    if w.phase.Reporting? then multiset(w.phase.ids)[id] else 0
  }

  /** Events published and not yet counted. */
  function UncountedBy(w: Worker): nat {
    if w.phase.Reporting? || w.phase.Reported? then |w.batch| else 0
  }

  /** Events in a buffer that no counter has seen yet. */
  function OutstandingIn(w: Worker): nat { if w.phase.Counted? then 0 else |w.batch| }

  function Outstanding(): Worker -> nat { (w: Worker) => OutstandingIn(w) }

  function Held(e: Event): Worker -> nat { (w: Worker) => HeldBy(w, e) }

  function Unreported(id: string): Worker -> nat { (w: Worker) => UnreportedBy(w, id) }

  function Uncounted(): Worker -> nat { (w: Worker) => UncountedBy(w) }

  function Sum(ws: seq<Worker>, f: Worker -> nat): nat {
    if ws == [] then 0 else f(ws[0]) + Sum(ws[1..], f)
  }

  /** Replacing one producer moves the sum by the difference. */
  lemma {:induction false} SumMoves(ws: seq<Worker>, i: nat, w: Worker, f: Worker -> nat)
    requires i < |ws|
    ensures Sum(ws[i := w], f) + f(ws[i]) == Sum(ws, f) + f(w)
    decreases i
  {
    if i == 0 {
      assert ws[0 := w][1..] == ws[1..];
    } else {
      assert ws[i := w][1..] == ws[1..][i - 1 := w] && ws[i := w][0] == ws[0];
      SumMoves(ws[1..], i - 1, w, f);
    }
  }

  lemma {:induction false} SumOfNothing(ws: seq<Worker>, f: Worker -> nat)
    requires forall i :: 0 <= i < |ws| ==> f(ws[i]) == 0
    ensures Sum(ws, f) == 0
  {
    if ws != [] {
      forall i | 0 <= i < |ws[1..]| ensures f(ws[1..][i]) == 0 { assert ws[1..][i] == ws[i + 1]; }
      SumOfNothing(ws[1..], f);
    }
  }

  /** Copies of an id waiting for the manifest writer. */
  function Queued(q: seq<seq<string>>, id: string): nat {
    if q == [] then 0 else multiset(q[0])[id] + Queued(q[1..], id)
  }

  /** Copies of an id handed over and not yet written. */
  function OnTheWay(s: State, id: string): nat {
    Queued(s.toManifest, id) + if s.hand.Some? then multiset(s.hand.value)[id] else 0
  }

  lemma {:induction false} QueuedAppend(q: seq<seq<string>>, ids: seq<string>, id: string)
    ensures Queued(q + [ids], id) == Queued(q, id) + multiset(ids)[id]
  {
    if q == [] {
      assert [] + [ids] == [ids] && [ids][1..] == [];
    } else {
      assert (q + [ids])[0] == q[0] && (q + [ids])[1..] == q[1..] + [ids];
      QueuedAppend(q[1..], ids, id);
    }
  }

  lemma {:induction false} IdsAppend(a: seq<Event>, b: seq<Event>)
    ensures Ids(a + b) == Ids(a) + Ids(b)
  {
    if a == [] {
      assert a + b == b;
    } else {
      assert (a + b)[0] == a[0] && (a + b)[1..] == a[1..] + b;
      IdsAppend(a[1..], b);
    }
  }

  function CountDups(es: seq<Event>): nat {
    if es == [] then 0 else CountDups(es[..|es| - 1]) + if es[|es| - 1].dup then 1 else 0
  }

  lemma CountDupsSnoc(es: seq<Event>, e: Event)
    ensures CountDups(es + [e]) == CountDups(es) + if e.dup then 1 else 0
  {
    assert (es + [e])[..|es|] == es;
  }

  // ---- The invariant ----

  function InHand(g: Generator): seq<Event> { if g.Sending? then [g.e] else [] }

  /** Nothing emitted is lost, duplicated or reordered on its way to the pool. */
  predicate InOrder(s: State) {
    s.emittedLog == s.receivedLog + s.channel + InHand(s.gen)
  }

  /** Nothing received is lost or duplicated inside the pool. */
  ghost predicate PoolConserves(s: State) { forall e :: EventKept(s, e) }

  predicate EventKept(s: State, e: Event) {
    multiset(s.receivedLog)[e] == Sum(s.workers, Held(e)) + multiset(s.ok)[e] + multiset(s.bad)[e]
  }

  /** The manifest and what is on its way there are the published ids. */
  ghost predicate ManifestConserves(s: State) { forall id :: IdKept(s, id) }

  predicate IdKept(s: State, id: string) {
    multiset(Ids(s.ok))[id] == multiset(s.manifest)[id] + OnTheWay(s, id) + Sum(s.workers, Unreported(id))
  }

  predicate CountersOk(c: Config, s: State) {
    && s.emitted == |s.emittedLog| && s.errors == |s.bad|
    && |s.ok| == s.produced + Sum(s.workers, Uncounted())
    && |s.receivedLog| == s.produced + s.errors + Sum(s.workers, Outstanding())
    && s.duplicates == CountDups(s.receivedLog)
    && (c.maxEvents > 0 ==> s.emitted <= c.maxEvents)
  }

  predicate WorkerOk(s: State, w: Worker) {
    && (w.phase.Selecting? ==> |w.batch| < BATCH)
    && (w.phase.Publishing? ==> 0 < |w.batch| <= BATCH)
    && (w.phase.Reporting? ==> w.phase.ids == Ids(w.batch))
    && (w.phase.Exited? ==> w.batch == [] && s.channel == [] && s.gen.Closed?)
    && (LastFlush(w.phase) ==> s.channel == [] && s.gen.Closed?)
  }

  predicate LastFlush(p: Phase) {
    (p.Publishing? || p.Reporting? || p.Reported? || p.Counted?) && p.last
  }

  predicate ShutdownOk(c: Config, s: State) {
    && |s.workers| == c.workers
    && (forall i :: 0 <= i < |s.workers| ==> WorkerOk(s, s.workers[i]))
    && (s.manifestClosed ==> forall i :: 0 <= i < |s.workers| ==> s.workers[i].phase.Exited?)
    && (s.finished ==> s.manifestClosed && s.toManifest == [] && s.hand.None?)
  }

  ghost predicate Inv(c: Config, s: State) {
    InOrder(s) && PoolConserves(s) && ManifestConserves(s) && CountersOk(c, s) && ShutdownOk(c, s)
  }

  // ---- Each step keeps it ----

  function Actor(a: Action): Option<nat> {
    match a
    case Receive(w) => Some(w) case Drained(w) => Some(w) case Tick(w) => Some(w)
    case Publish(w, _) => Some(w) case Report(w) => Some(w) case Count(w) => Some(w) case Reset(w) => Some(w)
    case _ => None
  }

  lemma OrderStays(c: Config, s: State, a: Action)
    requires InOrder(s) && Enabled(c, s, a)
    ensures InOrder(Apply(c, s, a))
  {
    if a.Receive? { assert s.channel == [s.channel[0]] + s.channel[1..]; }
  }

  predicate ActorOk(s: State, a: Action) {
    Actor(a).Some? ==> Actor(a).value < |s.workers| && WorkerOk(s, s.workers[Actor(a).value])
  }

  /** Receiving puts one event in the buffer, whether or not it starts a flush. */
  lemma AppendHolds(w: Worker, x: Event, e: Event)
    requires w.phase.Selecting?
    ensures HeldBy(Append(w, x), e) == HeldBy(w, e) + multiset([x])[e]
    ensures UncountedBy(Append(w, x)) == UncountedBy(w) == 0 && OutstandingIn(Append(w, x)) == OutstandingIn(w) + 1
  {
    assert Append(w, x).batch == w.batch + [x];
  }

  lemma FlushHolds(w: Worker, last: bool, e: Event)
    requires w.phase.Selecting?
    ensures HeldBy(Flush(w, last), e) == HeldBy(w, e) && UncountedBy(Flush(w, last)) == UncountedBy(w) == 0
    ensures OutstandingIn(Flush(w, last)) == OutstandingIn(w)
  {}

  lemma BagAppend(a: seq<Event>, b: seq<Event>, e: Event)
    ensures multiset(a + b)[e] == multiset(a)[e] + multiset(b)[e]
  {}

  /** The acting producer's share of an event moves with the logs. */
  lemma ShareMoves(c: Config, s: State, a: Action, e: Event)
    requires Enabled(c, s, a) && ActorOk(s, a) && Actor(a).Some?
    ensures Apart(Apply(c, s, a), Actor(a).value, e) == Apart(s, Actor(a).value, e)
  {
    if a.Receive? {
      ReceiveShare(c, s, a.w, e);
    } else if a.Publish? {
      PublishShare(c, s, a.w, a.o, e);
    } else if a.Drained? || a.Tick? {
      FlushHolds(s.workers[Actor(a).value], a.Drained?, e);
    }
  }

  lemma ReceiveShare(c: Config, s: State, w: nat, e: Event)
    requires Enabled(c, s, Receive(w))
    ensures Apart(Apply(c, s, Receive(w)), w, e) == Apart(s, w, e)
  {
    AppendHolds(s.workers[w], s.channel[0], e);
    BagAppend(s.receivedLog, [s.channel[0]], e);
  }

  lemma PublishShare(c: Config, s: State, w: nat, o: Outcome, e: Event)
    requires Enabled(c, s, Publish(w, o))
    ensures Apart(Apply(c, s, Publish(w, o)), w, e) == Apart(s, w, e)
  {
    BagAppend(s.ok, s.workers[w].batch, e);
    BagAppend(s.bad, s.workers[w].batch, e);
  }

  /** Copies of an event received and in nobody's hands but the other producers'. */
  function Apart(s: State, i: nat, e: Event): int
    requires i < |s.workers|
  {
    multiset(s.receivedLog)[e] - HeldBy(s.workers[i], e) - multiset(s.ok)[e] - multiset(s.bad)[e]
  }

  lemma EventStays(c: Config, s: State, a: Action, e: Event)
    requires EventKept(s, e) && Enabled(c, s, a) && ActorOk(s, a)
    ensures EventKept(Apply(c, s, a), e)
  {
    if Actor(a).Some? {
      OnlyActorMoves(c, s, a, Held(e));
      ShareMoves(c, s, a, e);
    }
  }

  /** Copies of an id published and in nobody's hands but the other producers'. */
  function IdApart(s: State, i: nat, id: string): int
    requires i < |s.workers|
  {
    multiset(Ids(s.ok))[id] - OnTheWay(s, id) - UnreportedBy(s.workers[i], id)
  }

  lemma IdBagAppend(a: seq<string>, b: seq<string>, id: string)
    ensures multiset(a + b)[id] == multiset(a)[id] + multiset(b)[id]
  {}

  lemma PublishIds(c: Config, s: State, w: nat, o: Outcome, id: string)
    requires Enabled(c, s, Publish(w, o))
    ensures IdApart(Apply(c, s, Publish(w, o)), w, id) == IdApart(s, w, id)
  {
    var x, s' := s.workers[w], Apply(c, s, Publish(w, o));
    assert OnTheWay(s', id) == OnTheWay(s, id);
    if o == Done {
      IdsAppend(s.ok, x.batch);
      IdBagAppend(Ids(s.ok), Ids(x.batch), id);
      assert s'.ok == s.ok + x.batch;
    }
  }

  lemma ReportIds(c: Config, s: State, w: nat, id: string)
    requires Enabled(c, s, Report(w))
    ensures IdApart(Apply(c, s, Report(w)), w, id) == IdApart(s, w, id)
  {
    var ids := s.workers[w].phase.ids;
    assert UnreportedBy(s.workers[w], id) == multiset(ids)[id];
    if |s.toManifest| < c.manifestCap { QueuedAppend(s.toManifest, ids, id); }
  }

  /** The acting producer's share of an id moves with the logs. */
  lemma IdShareMoves(c: Config, s: State, a: Action, id: string)
    requires Enabled(c, s, a) && ActorOk(s, a) && Actor(a).Some?
    ensures IdApart(Apply(c, s, a), Actor(a).value, id) == IdApart(s, Actor(a).value, id)
    ensures Apply(c, s, a).manifest == s.manifest
  {
    if a.Publish? {
      PublishIds(c, s, a.w, a.o, id);
    } else if a.Report? {
      ReportIds(c, s, a.w, id);
    } else {
      OtherIds(c, s, a, id);
    }
  }

  lemma OtherIds(c: Config, s: State, a: Action, id: string)
    requires Enabled(c, s, a) && Actor(a).Some? && !a.Publish? && !a.Report?
    ensures IdApart(Apply(c, s, a), Actor(a).value, id) == IdApart(s, Actor(a).value, id)
  {
    var x, x' := s.workers[Actor(a).value], Apply(c, s, a).workers[Actor(a).value];
    assert UnreportedBy(x, id) == 0 && UnreportedBy(x', id) == 0;
  }

  /** What the manifest writer does moves ids between its queue, its hand and the file. */
  lemma WriterMoves(c: Config, s: State, a: Action, id: string)
    requires Enabled(c, s, a) && (a.Take? || a.Write?)
    ensures var s' := Apply(c, s, a);
            && multiset(s'.manifest)[id] + OnTheWay(s', id) == multiset(s.manifest)[id] + OnTheWay(s, id)
            && s'.ok == s.ok && s'.workers == s.workers
  {}

  /** A step of a producer changes no other producer. */
  lemma OnlyActorMoves(c: Config, s: State, a: Action, f: Worker -> nat)
    requires Enabled(c, s, a) && Actor(a).Some?
    ensures var s', i := Apply(c, s, a), Actor(a).value;
            i < |s.workers| && |s'.workers| == |s.workers|
            && Sum(s'.workers, f) + f(s.workers[i]) == Sum(s.workers, f) + f(s'.workers[i])
  {
    var s', i := Apply(c, s, a), Actor(a).value;
    assert s'.workers == s.workers[i := s'.workers[i]];
    SumMoves(s.workers, i, s'.workers[i], f);
  }

  lemma IdStays(c: Config, s: State, a: Action, id: string)
    requires IdKept(s, id) && Enabled(c, s, a) && ActorOk(s, a)
    ensures IdKept(Apply(c, s, a), id)
  {
    if Actor(a).Some? {
      OnlyActorMoves(c, s, a, Unreported(id));
      IdShareMoves(c, s, a, id);
    } else if a.Take? || a.Write? {
      WriterMoves(c, s, a, id);
    } else {
      IdsUntouched(c, s, a);
    }
  }

  lemma IdsUntouched(c: Config, s: State, a: Action)
    requires Enabled(c, s, a) && Actor(a).None? && !a.Take? && !a.Write?
    ensures var s' := Apply(c, s, a);
            && s'.ok == s.ok && s'.manifest == s.manifest && s'.workers == s.workers
            && s'.toManifest == s.toManifest && s'.hand == s.hand
  {}

  /** What the counters leave to the acting producer's buffer. */
  predicate SameShare(s: State, s': State, i: nat)
    requires i < |s.workers| && i < |s'.workers|
  {
    && |s'.ok| - s'.produced - UncountedBy(s'.workers[i]) == |s.ok| - s.produced - UncountedBy(s.workers[i])
    && |s'.receivedLog| - s'.produced - s'.errors - OutstandingIn(s'.workers[i])
       == |s.receivedLog| - s.produced - s.errors - OutstandingIn(s.workers[i])
    && |s'.bad| - s'.errors == |s.bad| - s.errors
    && s'.duplicates - CountDups(s'.receivedLog) == s.duplicates - CountDups(s.receivedLog)
    && s'.emitted == s.emitted && s'.emittedLog == s.emittedLog
  }

  lemma ReceiveCounts(c: Config, s: State, w: nat)
    requires Enabled(c, s, Receive(w))
    ensures SameShare(s, Apply(c, s, Receive(w)), w)
  {
    AppendHolds(s.workers[w], s.channel[0], s.channel[0]);
    CountDupsSnoc(s.receivedLog, s.channel[0]);
  }

  lemma FlushCounts(c: Config, s: State, a: Action)
    requires Enabled(c, s, a) && (a.Drained? || a.Tick?)
    ensures SameShare(s, Apply(c, s, a), a.w)
  {
    FlushHolds(s.workers[a.w], a.Drained?, Event("", false));
  }

  /** The acting producer's share of the counts moves with the counters. */
  lemma CountMoves(c: Config, s: State, a: Action)
    requires Enabled(c, s, a) && ActorOk(s, a) && Actor(a).Some?
    ensures SameShare(s, Apply(c, s, a), Actor(a).value)
  {
    if a.Receive? {
      ReceiveCounts(c, s, a.w);
    } else if a.Drained? || a.Tick? {
      FlushCounts(c, s, a);
    }
  }

  lemma CountersStay(c: Config, s: State, a: Action)
    requires CountersOk(c, s) && Enabled(c, s, a) && ActorOk(s, a)
    ensures CountersOk(c, Apply(c, s, a))
  {
    if Actor(a).Some? {
      OnlyActorMoves(c, s, a, Uncounted());
      OnlyActorMoves(c, s, a, Outstanding());
      CountMoves(c, s, a);
    }
  }

  lemma ShutdownStays(c: Config, s: State, a: Action)
    requires ShutdownOk(c, s) && Enabled(c, s, a) && ActorOk(s, a)
    ensures ShutdownOk(c, Apply(c, s, a))
  {
    var s' := Apply(c, s, a);
    forall i | 0 <= i < |s'.workers| ensures WorkerOk(s', s'.workers[i]) { assert WorkerOk(s, s.workers[i]); }
  }

  lemma InvStays(c: Config, s: State, a: Action)
    requires Inv(c, s) && Enabled(c, s, a)
    ensures Inv(c, Apply(c, s, a))
  {
    if Actor(a).Some? { assert WorkerOk(s, s.workers[Actor(a).value]); }
    OrderStays(c, s, a);
    forall e ensures EventKept(Apply(c, s, a), e) { assert EventKept(s, e); EventStays(c, s, a, e); }
    forall id ensures IdKept(Apply(c, s, a), id) { assert IdKept(s, id); IdStays(c, s, a, id); }
    CountersStay(c, s, a);
    ShutdownStays(c, s, a);
  }

  lemma InitInv(c: Config)
    ensures Inv(c, Init(c))
  {
    forall e ensures EventKept(Init(c), e) { SumOfNothing(Init(c).workers, Held(e)); }
    forall id ensures IdKept(Init(c), id) { SumOfNothing(Init(c).workers, Unreported(id)); }
    SumOfNothing(Init(c).workers, Uncounted());
    SumOfNothing(Init(c).workers, Outstanding());
  }

  lemma {:induction false} RunKeepsInv(c: Config, s: State, run: seq<Action>)
    requires Inv(c, s) && ValidRun(c, s, run)
    ensures Inv(c, Exec(c, s, run))
    decreases |run|
  {
    if run != [] {
      InvStays(c, s, run[0]);
      RunKeepsInv(c, Apply(c, s, run[0]), run[1..]);
    }
  }

  // ---- The promises ----

  /** At every moment each emitted event is waiting to be sent, in the channel, in
      a producer's buffer, or counted once. */
  lemma EveryEventCounted(c: Config, run: seq<Action>)
    requires ValidRun(c, Init(c), run)
    ensures var s := Exec(c, Init(c), run);
            && s.emitted == |InHand(s.gen)| + |s.channel| + Sum(s.workers, Outstanding()) + s.produced + s.errors
            && multiset(s.manifest) <= multiset(Ids(s.ok))
            && (c.maxEvents > 0 ==> s.emitted <= c.maxEvents)
  {
    InitInv(c);
    RunKeepsInv(c, Init(c), run);
    var s := Exec(c, Init(c), run);
    forall id ensures multiset(s.manifest)[id] <= multiset(Ids(s.ok))[id] { assert IdKept(s, id); }
  }

  lemma PoolIsIdle(c: Config, s: State)
    requires Inv(c, s) && s.finished
    ensures forall e :: Sum(s.workers, Held(e)) == 0
    ensures forall id :: Sum(s.workers, Unreported(id)) == 0
    ensures Sum(s.workers, Uncounted()) == 0 && Sum(s.workers, Outstanding()) == 0
  {
    forall i | 0 <= i < |s.workers| ensures s.workers[i].batch == [] && s.workers[i].phase.Exited? {
      assert WorkerOk(s, s.workers[i]);
    }
    forall e ensures Sum(s.workers, Held(e)) == 0 { SumOfNothing(s.workers, Held(e)); }
    forall id ensures Sum(s.workers, Unreported(id)) == 0 { SumOfNothing(s.workers, Unreported(id)); }
    SumOfNothing(s.workers, Uncounted());
    SumOfNothing(s.workers, Outstanding());
  }

  /** At shutdown the counters add up exactly when there was a producer at all (or
      nothing to produce), and then every emitted event was either published or
      reported as an error. */
  lemma ShutdownExact(c: Config, run: seq<Action>)
    requires ValidRun(c, Init(c), run) && Exec(c, Init(c), run).finished
    ensures var s := Exec(c, Init(c), run);
            && (s.produced + s.errors == s.emitted <==> c.workers > 0 || s.emitted == 0)
            && (c.workers > 0 ==>
                  multiset(s.emittedLog) == multiset(s.ok) + multiset(s.bad) && s.duplicates == CountDups(s.emittedLog))
  {
    InitInv(c);
    RunKeepsInv(c, Init(c), run);
    var s := Exec(c, Init(c), run);
    PoolIsIdle(c, s);
    if c.workers > 0 {
      assert WorkerOk(s, s.workers[0]);
      assert s.emittedLog == s.receivedLog;
      forall e ensures multiset(s.emittedLog)[e] == (multiset(s.ok) + multiset(s.bad))[e] { assert EventKept(s, e); }
      assert multiset(s.emittedLog) == multiset(s.ok) + multiset(s.bad);
    } else {
      NobodyCounts(c, Init(c), run);
    }
  }

  /** Without producers no counter ever moves. */
  lemma {:induction false} NobodyCounts(c: Config, s: State, run: seq<Action>)
    requires ValidRun(c, s, run) && |s.workers| == 0 && s.produced == s.errors == 0
    ensures Exec(c, s, run).produced == Exec(c, s, run).errors == 0
    decreases |run|
  {
    if run != [] { NobodyCounts(c, Apply(c, s, run[0]), run[1..]); }
  }

  /** At shutdown the manifest is the multiset of published ids, one line per
      event counted as produced. */
  lemma ManifestIsPublished(c: Config, run: seq<Action>)
    requires ValidRun(c, Init(c), run) && Exec(c, Init(c), run).finished
    ensures var s := Exec(c, Init(c), run);
            multiset(s.manifest) == multiset(Ids(s.ok)) && |s.manifest| == s.produced
  {
    InitInv(c);
    RunKeepsInv(c, Init(c), run);
    var s := Exec(c, Init(c), run);
    PoolIsIdle(c, s);
    forall id ensures multiset(s.manifest)[id] == multiset(Ids(s.ok))[id] {
      assert IdKept(s, id);
      assert OnTheWay(s, id) == 0;
    }
    assert multiset(s.manifest) == multiset(Ids(s.ok));
    assert |s.manifest| == |multiset(s.manifest)| == |multiset(Ids(s.ok))| == |Ids(s.ok)|;
  }
}
