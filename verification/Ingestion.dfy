/** The reliable-ingestion protocol as a state machine. Kafka workers run the
    retry / dead-letter / commit policy around the scan handler, drain workers
    replay the outbox, markers expire, and every step of every worker may
    interleave with every other. One step is one call to an outside store. */
module Ingestion {
  import opened Core
  import opened ScanStores

  /** What a Kafka message holds once parsed. */
  datatype Payload = Poison | Scan(event: ScanEvent)

  datatype Config = Config(log: seq<Payload>, maxRetries: nat, armed: bool)

  /** Why a message is ready to be committed. */
  datatype Settlement = Duplicate | Handled | DeadLettered

  /** Where a Kafka worker stands with message `m`: just before the named call. */
  datatype Work =
    | Idle
    | Claiming(m: nat, attempt: nat)     // SETNX of the dedup marker
    | Inserting(m: nat, attempt: nat)    // INSERT INTO scan_events
    | Aggregating(m: nat, attempt: nat)  // SADD to the daily set
    | Parking(m: nat, attempt: nat)      // INSERT INTO scan_events_outbox
    | Clearing(m: nat, attempt: nat)     // DEL of the dedup marker
    | Failed(m: nat, attempt: nat)       // the handler returned an error
    | Burying(m: nat)                    // write to the dead-letter topic
    | Settled(m: nat, how: Settlement)   // commit

  /** Where a drain worker stands: the listed rows still to replay. */
  datatype Drain =
    | Resting
    | Replaying(rows: seq<OutboxRow>)
    | Bumping(rows: seq<OutboxRow>)      // SADD failed; count the attempt
    | Unparking(rows: seq<OutboxRow>)    // SADD done; delete the row

  datatype State = State(
    stores: Stores,
    workers: seq<Work>,
    drains: seq<Drain>,
    dlq: set<nat>,        // offsets written to the dead-letter topic
    committed: set<nat>   // offsets marked committed, one by one
  )

  datatype Action =
    | Fetch(w: nat, m: nat)
    | Advance(w: nat, o: Outcome)
    | Stop(w: nat)                  // cancelled, or the process died
    | Expire(t: TraceId)            // a marker's TTL ran out
    | DrainList(d: nat, limit: nat)
    | DrainAdvance(d: nat, o: Outcome)
    | DrainStop(d: nat)

  function Init(workers: nat, drains: nat): State {
    State(EmptyStores, seq(workers, _ => Idle), seq(drains, _ => Resting), {}, {})
  }

  predicate IsScan(c: Config, m: nat) { m < |c.log| && c.log[m].Scan? }

  function TraceOf(c: Config, m: nat): TraceId
    requires IsScan(c, m)
  {
    c.log[m].event.traceId
  }

  // ---- Steps ----

  predicate Enabled(c: Config, s: State, a: Action) {
    match a
    case Fetch(w, m) => w < |s.workers| && s.workers[w].Idle? && m < |c.log| && m !in s.committed
    case Advance(w, _) => w < |s.workers| && !s.workers[w].Idle? && WorkFits(c, s.workers[w])
    case Stop(w) => w < |s.workers| && !s.workers[w].Idle?
    case Expire(_) => true
    case DrainList(d, _) => d < |s.drains| && s.drains[d].Resting?
    case DrainAdvance(d, _) =>
      d < |s.drains| && !s.drains[d].Resting? && (!s.drains[d].Replaying? ==> s.drains[d].rows != [])
    case DrainStop(d) => d < |s.drains|
  }

  /** A worker's message exists, and only a parsed message reaches the handler. */
  predicate WorkFits(c: Config, work: Work) {
    work.Idle? || (work.m < |c.log| && (work.Burying? || work.Settled? || IsScan(c, work.m)))
  }

  /** The handler's calls, in the order `Handle` makes them. */
  function AdvanceHandler(c: Config, st: Stores, work: Work, o: Outcome): (Stores, Work)
    requires !work.Idle? && IsScan(c, work.m)
    requires work.Claiming? || work.Inserting? || work.Aggregating? || work.Parking? || work.Clearing?
  {
    var e := c.log[work.m].event;
    match work
    case Claiming(m, n) =>
      if o == Done then
        if e.traceId in st.marks then (st, Settled(m, Duplicate)) else (Claim(st, e.traceId), Inserting(m, n))
      else
        // An error here returns before the compensation is registered.
        (if o.Applied() then Claim(st, e.traceId) else st, Failed(m, n))
    case Inserting(m, n) =>
      (if o.Applied() then InsertRow(st, e) else st, if o == Done then Aggregating(m, n) else Clearing(m, n))
    case Aggregating(m, n) =>
      (if o.Applied() then AddRide(st, EntryOf(e)) else st,
       if o == Done then Settled(m, Handled) else if c.armed then Parking(m, n) else Clearing(m, n))
    case Parking(m, n) =>
      (if o.Applied() then Park(st, e) else st, if o == Done then Settled(m, Handled) else Clearing(m, n))
    case Clearing(m, n) =>
      (if o.Applied() then ClearMark(st, e.traceId) else st, Failed(m, n))
  }

  /** One call by Kafka worker `w`. */
  function AdvanceWorker(c: Config, s: State, w: nat, o: Outcome): State
    requires Enabled(c, s, Advance(w, o))
  {
    var work := s.workers[w];
    if work.Failed? then
      s.(workers := s.workers[w := if work.attempt < c.maxRetries then Claiming(work.m, work.attempt + 1)
          else Burying(work.m)])
    else if work.Burying? then
      s.(dlq := if o.Applied() then s.dlq + {work.m} else s.dlq,
         workers := s.workers[w := if o == Done then Settled(work.m, DeadLettered) else Idle])
    else if work.Settled? then
      s.(committed := if o.Applied() then s.committed + {work.m} else s.committed,
         workers := s.workers[w := Idle])
    else
      var (st, next) := AdvanceHandler(c, s.stores, work, o);
      s.(stores := st, workers := s.workers[w := next])
  }

  /** One call by drain worker `d`. */
  function AdvanceDrain(c: Config, s: State, d: nat, o: Outcome): State
    requires Enabled(c, s, DrainAdvance(d, o))
  {
    match s.drains[d]
    case Replaying(rows) =>
      if rows == [] then s.(drains := s.drains[d := Resting])
      else
        s.(stores := if o.Applied() then AddRide(s.stores, OutboxEntry(rows[0])) else s.stores,
           drains := s.drains[d := if o == Done then Unparking(rows) else Bumping(rows)])
    case Bumping(rows) =>
      s.(stores := if o.Applied() then Bump(s.stores, rows[0].traceId) else s.stores,
         drains := s.drains[d := Replaying(rows[1..])])
    case Unparking(rows) =>
      s.(stores := if o.Applied() then Unpark(s.stores, rows[0].traceId) else s.stores,
         drains := s.drains[d := if o == Done then Replaying(rows[1..]) else Resting])
  }

  function Apply(c: Config, s: State, a: Action): State
    requires Enabled(c, s, a)
  {
    match a
    case Fetch(w, m) => s.(workers := s.workers[w := if IsScan(c, m) then Claiming(m, 0) else Burying(m)])
    case Advance(w, o) => AdvanceWorker(c, s, w, o)
    case Stop(w) => s.(workers := s.workers[w := Idle])
    case Expire(t) => s.(stores := ClearMark(s.stores, t))
    case DrainList(d, limit) =>
      var n := if limit < |s.stores.outbox| then limit else |s.stores.outbox|;
      s.(drains := s.drains[d := Replaying(s.stores.outbox[..n])])
    case DrainAdvance(d, o) => AdvanceDrain(c, s, d, o)
    case DrainStop(d) => s.(drains := s.drains[d := Resting])
  }

  // ---- Faults the documentation's promise does not survive ----

  /** Worker `w` is between a successful claim and the handler's return. */
  predicate InHandler(work: Work) { work.Inserting? || work.Aggregating? || work.Parking? || work.Clearing? }

  predicate Holds(work: Work, m: nat) { !work.Idle? && work.m == m }

  /** Some worker holds message `m`. */
  predicate Held(s: State, m: nat) { exists w :: 0 <= w < |s.workers| && Holds(s.workers[w], m) }

  /** The four things the protocol assumes do not happen: one message delivered
      to two workers at once, a worker dying inside the handler, a marker left
      behind by a failed clear, and a marker set by a claim that reported failure. */
  predicate Faulty(c: Config, s: State, a: Action)
    requires Enabled(c, s, a)
  {
    match a
    case Fetch(_, m) => Held(s, m)
    case Stop(w) => InHandler(s.workers[w])
    case Advance(w, o) =>
      || (s.workers[w].Clearing? && o == FailedClean)
      || (s.workers[w].Claiming? && o == FailedApplied && TraceOf(c, s.workers[w].m) !in s.stores.marks)
    case _ => false
  }

  // ---- Runs ----

  predicate ValidRun(c: Config, s: State, acts: seq<Action>)
    decreases |acts|
  {
    acts == [] || (Enabled(c, s, acts[0]) && ValidRun(c, Apply(c, s, acts[0]), acts[1..]))
  }

  function Exec(c: Config, s: State, acts: seq<Action>): State
    requires ValidRun(c, s, acts)
    decreases |acts|
  {
    if acts == [] then s else Exec(c, Apply(c, s, acts[0]), acts[1..])
  }

  /** No step of the run is one of the four excluded faults. */
  predicate Faultless(c: Config, s: State, acts: seq<Action>)
    requires ValidRun(c, s, acts)
    decreases |acts|
  {
    acts == [] || (!Faulty(c, s, acts[0]) && Faultless(c, Apply(c, s, acts[0]), acts[1..]))
  }

  /** How many steps of a run are faults. */
  function FaultCount(c: Config, s: State, acts: seq<Action>): nat
    requires ValidRun(c, s, acts)
    decreases |acts|
  {
    if acts == [] then 0
    else (if Faulty(c, s, acts[0]) then 1 else 0) + FaultCount(c, Apply(c, s, acts[0]), acts[1..])
  }

  /** Putting a step in front of a run. */
  lemma Prepend(c: Config, s: State, a: Action, rest: seq<Action>)
    requires Enabled(c, s, a) && ValidRun(c, Apply(c, s, a), rest)
    ensures ValidRun(c, s, [a] + rest)
    ensures Exec(c, s, [a] + rest) == Exec(c, Apply(c, s, a), rest)
    ensures FaultCount(c, s, [a] + rest) == (if Faulty(c, s, a) then 1 else 0) + FaultCount(c, Apply(c, s, a), rest)
    ensures Faultless(c, s, [a] + rest) <==> !Faulty(c, s, a) && Faultless(c, Apply(c, s, a), rest)
  {
    assert ([a] + rest)[1..] == rest;
  }

  /** Runs compose. */
  lemma {:induction false} RunThen(c: Config, s: State, first: seq<Action>, second: seq<Action>)
    requires ValidRun(c, s, first) && ValidRun(c, Exec(c, s, first), second)
    ensures ValidRun(c, s, first + second)
    ensures Exec(c, s, first + second) == Exec(c, Exec(c, s, first), second)
    ensures FaultCount(c, s, first + second) == FaultCount(c, s, first) + FaultCount(c, Exec(c, s, first), second)
    decreases |first|
  {
    if first == [] {
      assert first + second == second;
    } else {
      var s' := Apply(c, s, first[0]);
      RunThen(c, s', first[1..], second);
      Prepend(c, s, first[0], first[1..] + second);
      assert [first[0]] + (first[1..] + second) == first + second;
    }
  }

  lemma {:induction false} NoFaultsFaultless(c: Config, s: State, acts: seq<Action>)
    requires ValidRun(c, s, acts)
    ensures FaultCount(c, s, acts) == 0 <==> Faultless(c, s, acts)
    decreases |acts|
  {
    if acts != [] { NoFaultsFaultless(c, Apply(c, s, acts[0]), acts[1..]); }
  }

  /** Two messages with one trace id count the same ride of the same visitor on the same day. */
  ghost predicate TraceDeterminesRide(log: seq<Payload>) {
    forall i, j | 0 <= i < |log| && 0 <= j < |log| && log[i].Scan? && log[j].Scan? ::
      log[i].event.traceId == log[j].event.traceId ==> EntryOf(log[i].event) == EntryOf(log[j].event)
  }

  // ---- The promises ----

  ghost predicate Claimed(c: Config, s: State, t: TraceId) {
    exists w :: 0 <= w < |s.workers| && InHandler(s.workers[w]) && IsScan(c, s.workers[w].m)
        && TraceOf(c, s.workers[w].m) == t
  }

  /** A live marker means the trace is processed or its claimer is in flight,
      so dropping a duplicate is safe. */
  ghost predicate MarkersSound(c: Config, s: State) {
    forall t :: t in s.stores.marks ==> Processed(s.stores, t) || Claimed(c, s, t)
  }

  ghost predicate Dead(c: Config, s: State, t: TraceId) {
    exists m :: m in s.dlq && IsScan(c, m) && TraceOf(c, m) == t
  }

  ghost predicate Uncommitted(c: Config, s: State, t: TraceId) {
    exists m :: IsScan(c, m) && TraceOf(c, m) == t && m !in s.committed
  }

  /** The fate of a trace: stored and counted (or parked), dead-lettered, or
      still to come back from Kafka. */
  ghost predicate Accounted(c: Config, s: State, t: TraceId) {
    Processed(s.stores, t) || Dead(c, s, t) || Uncommitted(c, s, t)
  }

  ghost predicate NoSilentLoss(c: Config, s: State) {
    forall m :: IsScan(c, m) ==> Accounted(c, s, TraceOf(c, m))
  }

  /** The sets never hold a ride that scan_events does not. */
  ghost predicate SetsBacked(s: State) {
    forall x :: x in s.stores.sets ==> exists t :: t in s.stores.rows && EntryOf(s.stores.rows[t]) == x
  }

  // ---- The inductive invariant ----

  /** Held messages exist, are uncommitted, and have one holder each. */
  ghost predicate WorkersOk(c: Config, s: State) {
    && (forall w :: 0 <= w < |s.workers| ==> WorkFits(c, s.workers[w]))
    && (forall w :: 0 <= w < |s.workers| && !s.workers[w].Idle? ==> s.workers[w].m !in s.committed)
    && (forall v, w | 0 <= v < |s.workers| && 0 <= w < |s.workers| && v != w ::
          !s.workers[v].Idle? && !s.workers[w].Idle? ==> s.workers[v].m != s.workers[w].m)
  }

  /** Every stored row is the event of some message; parked and listed rows restate it. */
  ghost predicate TablesOk(c: Config, s: State) {
    && (forall t :: t in s.stores.rows ==> s.stores.rows[t].traceId == t && Scan(s.stores.rows[t]) in c.log)
    && (forall r :: r in s.stores.outbox ==> Restates(s.stores, r))
    && SetsBacked(s)
    && (forall d :: 0 <= d < |s.drains| ==> DrainOk(s.stores, s.drains[d]))
  }

  ghost predicate DrainOk(st: Stores, drain: Drain) {
    !drain.Resting? ==>
      && (forall r :: r in drain.rows ==> Restates(st, r))
      && (drain.Bumping? ==> drain.rows != [])
      && (drain.Unparking? ==> drain.rows != [] && OutboxEntry(drain.rows[0]) in st.sets)
  }

  /** What each phase of a worker has already achieved. */
  ghost predicate PhaseOk(c: Config, s: State, work: Work)
    requires WorkFits(c, work)
  {
    match work
    case Aggregating(m, _) => TraceOf(c, m) in s.stores.rows
    case Parking(m, _) => TraceOf(c, m) in s.stores.rows
    case Settled(m, Handled) => IsScan(c, m) && Processed(s.stores, TraceOf(c, m))
    case Settled(m, Duplicate) => IsScan(c, m)
    case Settled(m, DeadLettered) => m in s.dlq
    case _ => true
  }

  ghost predicate PhasesOk(c: Config, s: State)
    requires WorkersOk(c, s)
  {
    forall w :: 0 <= w < |s.workers| ==> PhaseOk(c, s, s.workers[w])
  }

  /** `m` is committed, or about to be because its trace looked like a duplicate. */
  ghost predicate Spent(s: State, m: nat) {
    m in s.committed || exists w :: 0 <= w < |s.workers| && s.workers[w] == Settled(m, Duplicate)
  }

  /** Some message of the trace can still be processed. */
  ghost predicate Carried(c: Config, s: State, t: TraceId) {
    exists m :: IsScan(c, m) && TraceOf(c, m) == t && !Spent(s, m)
  }

  ghost predicate Safe(c: Config, s: State, t: TraceId) {
    Processed(s.stores, t) || Dead(c, s, t) || Carried(c, s, t)
  }

  ghost predicate AllSafe(c: Config, s: State) {
    forall m :: IsScan(c, m) ==> Safe(c, s, TraceOf(c, m))
  }

  ghost predicate Inv(c: Config, s: State) {
    && WorkersOk(c, s)
    && TablesOk(c, s)
    && PhasesOk(c, s)
    && MarkersSound(c, s)
    && AllSafe(c, s)
  }

  // ---- Preservation ----

  lemma InitHolds(c: Config, workers: nat, drains: nat)
    ensures Inv(c, Init(workers, drains))
  {
    var s := Init(workers, drains);
    forall m | IsScan(c, m) ensures Safe(c, s, TraceOf(c, m)) {
      assert !Spent(s, m);
    }
  }

  /** A worker that advances stays with its message or is done with it, and commits no other. */
  lemma AdvanceKeepsMessage(c: Config, s: State, a: Action)
    requires WorkersOk(c, s) && Enabled(c, s, a) && a.Advance?
    ensures var m, s' := s.workers[a.w].m, Apply(c, s, a);
            && s'.workers == s.workers[a.w := s'.workers[a.w]]
            && WorkFits(c, s'.workers[a.w])
            && (s'.committed == s.committed || (s'.committed == s.committed + {m} && s'.workers[a.w].Idle?))
            && (s'.workers[a.w].Idle? || s'.workers[a.w].m == m)
  {}

  lemma WorkersStay(c: Config, s: State, a: Action)
    requires WorkersOk(c, s) && Enabled(c, s, a) && !Faulty(c, s, a)
    ensures WorkersOk(c, Apply(c, s, a))
  {
    if a.Fetch? {
      forall v | 0 <= v < |s.workers| ensures !Holds(s.workers[v], a.m) {}
    } else if a.Advance? {
      AdvanceKeepsMessage(c, s, a);
    }
  }

  /** Rows and sets only grow, and rows keep their contents. */
  lemma StoresGrow(c: Config, s: State, a: Action)
    requires Enabled(c, s, a)
    ensures forall t :: t in s.stores.rows ==>
              t in Apply(c, s, a).stores.rows && Apply(c, s, a).stores.rows[t] == s.stores.rows[t]
    ensures s.stores.sets <= Apply(c, s, a).stores.sets
  {}

  lemma RestatesStays(c: Config, s: State, a: Action, r: OutboxRow)
    requires Enabled(c, s, a) && Restates(s.stores, r)
    ensures Restates(Apply(c, s, a).stores, r)
  {
    StoresGrow(c, s, a);
  }

  /** Nothing undoes the processing of a trace, not even the outbox drain. */
  lemma ProcessedStays(c: Config, s: State, a: Action, t: TraceId)
    requires Enabled(c, s, a) && TablesOk(c, s) && Processed(s.stores, t)
    ensures Processed(Apply(c, s, a).stores, t)
  {
    StoresGrow(c, s, a);
    match a {
      case Advance(w, o) =>
        if s.workers[w].Parking? && o.Applied() {
          ParkKeepsProcessed(s.stores, c.log[s.workers[w].m].event, t);
        }
      case DrainAdvance(d, o) =>
        if s.drains[d].Bumping? && o.Applied() {
          BumpKeepsProcessed(s.stores, s.drains[d].rows[0].traceId, t);
        } else if s.drains[d].Unparking? && o.Applied() {
          assert Restates(s.stores, s.drains[d].rows[0]);
          UnparkKeepsProcessed(s.stores, s.drains[d].rows[0].traceId, t);
        }
      case _ =>
    }
  }

  /** With one ride per trace, a stored row counts the ride of every message of its trace. */
  lemma RowIsEvent(c: Config, s: State, m: nat)
    requires TraceDeterminesRide(c.log) && TablesOk(c, s)
    requires IsScan(c, m) && TraceOf(c, m) in s.stores.rows
    ensures EntryOf(s.stores.rows[TraceOf(c, m)]) == EntryOf(c.log[m].event)
  {
    var row := s.stores.rows[TraceOf(c, m)];
    var i :| 0 <= i < |c.log| && c.log[i] == Scan(row);
  }

  lemma TablesStay(c: Config, s: State, a: Action)
    requires TraceDeterminesRide(c.log)
    requires WorkersOk(c, s) && TablesOk(c, s) && PhasesOk(c, s) && Enabled(c, s, a)
    ensures TablesOk(c, Apply(c, s, a))
  {
    var s' := Apply(c, s, a);
    StoresGrow(c, s, a);
    forall r | r in s'.stores.outbox ensures Restates(s'.stores, r) {
      OutboxRowBacked(c, s, a, r);
    }
    forall x | x in s'.stores.sets ensures exists t :: t in s'.stores.rows && EntryOf(s'.stores.rows[t]) == x {
      EntryBacked(c, s, a, x);
    }
    forall d | 0 <= d < |s'.drains| ensures DrainOk(s'.stores, s'.drains[d]) {
      DrainStays(c, s, a, d);
    }
  }

  /** Every parked row after a step restates a stored scan. */
  lemma OutboxRowBacked(c: Config, s: State, a: Action, r: OutboxRow)
    requires TraceDeterminesRide(c.log)
    requires WorkersOk(c, s) && TablesOk(c, s) && PhasesOk(c, s) && Enabled(c, s, a)
    requires r in Apply(c, s, a).stores.outbox
    ensures Restates(Apply(c, s, a).stores, r)
  {
    if r in s.stores.outbox {
      RestatesStays(c, s, a, r);
    } else if a.Advance? {
      RowIsEvent(c, s, s.workers[a.w].m);
    } else {
      var bumped := BumpRows(s.stores.outbox, s.drains[a.d].rows[0].traceId);
      var i :| 0 <= i < |bumped| && bumped[i] == r;
      assert Restates(s.stores, s.stores.outbox[i]);
    }
  }

  /** Every counted ride after a step is a stored ride. */
  lemma EntryBacked(c: Config, s: State, a: Action, x: RideEntry)
    requires TraceDeterminesRide(c.log)
    requires WorkersOk(c, s) && TablesOk(c, s) && PhasesOk(c, s) && Enabled(c, s, a)
    requires x in Apply(c, s, a).stores.sets
    ensures exists t :: t in Apply(c, s, a).stores.rows && EntryOf(Apply(c, s, a).stores.rows[t]) == x
  {
    StoresGrow(c, s, a);
    var rows' := Apply(c, s, a).stores.rows;
    if x in s.stores.sets {
      var t :| t in s.stores.rows && EntryOf(s.stores.rows[t]) == x;
      assert EntryOf(rows'[t]) == x;
    } else if a.Advance? {
      var m := s.workers[a.w].m;
      RowIsEvent(c, s, m);
      assert EntryOf(rows'[TraceOf(c, m)]) == x;
    } else {
      var r := s.drains[a.d].rows[0];
      assert Restates(s.stores, r);
      assert EntryOf(rows'[r.traceId]) == x;
    }
  }

  lemma DrainStays(c: Config, s: State, a: Action, d: nat)
    requires TablesOk(c, s) && Enabled(c, s, a) && d < |s.drains|
    ensures DrainOk(Apply(c, s, a).stores, Apply(c, s, a).drains[d])
  {
    var s' := Apply(c, s, a);
    StoresGrow(c, s, a);
    if !s'.drains[d].Resting? {
      assert DrainOk(s.stores, s.drains[d]);
      forall r | r in s'.drains[d].rows ensures Restates(s'.stores, r) {
        RestatesStays(c, s, a, r);
      }
    }
  }

  lemma PhasesStay(c: Config, s: State, a: Action)
    requires TraceDeterminesRide(c.log)
    requires WorkersOk(c, s) && TablesOk(c, s) && PhasesOk(c, s) && Enabled(c, s, a)
    requires WorkersOk(c, Apply(c, s, a))
    ensures PhasesOk(c, Apply(c, s, a))
  {
    var s' := Apply(c, s, a);
    StoresGrow(c, s, a);
    forall v | 0 <= v < |s'.workers| ensures PhaseOk(c, s', s'.workers[v]) {
      var work := s'.workers[v];
      if work == s.workers[v] {
        assert PhaseOk(c, s, work);
        if work.Settled? && work.how.Handled? {
          ProcessedStays(c, s, a, TraceOf(c, work.m));
        }
      } else if work.Settled? && work.how.Handled? {
        SettledIsProcessed(c, s, v, a.o);
      }
    }
  }

  /** A handler that succeeds has stored its scan and counted or parked its ride. */
  lemma SettledIsProcessed(c: Config, s: State, w: nat, o: Outcome)
    requires TraceDeterminesRide(c.log)
    requires WorkersOk(c, s) && TablesOk(c, s) && PhasesOk(c, s) && Enabled(c, s, Advance(w, o))
    requires s.workers[w].Aggregating? || s.workers[w].Parking?
    requires o == Done
    ensures Processed(Apply(c, s, Advance(w, o)).stores, TraceOf(c, s.workers[w].m))
  {
    var m := s.workers[w].m;
    RowIsEvent(c, s, m);
    if s.workers[w].Parking? {
      ParkKeepsProcessed(s.stores, c.log[m].event, TraceOf(c, m));
    }
  }

  // ---- Marker soundness, exactly ----

  ghost predicate ClaimedByOther(c: Config, s: State, t: TraceId, w: nat) {
    exists v :: 0 <= v < |s.workers| && v != w && InHandler(s.workers[v]) && IsScan(c, s.workers[v].m)
        && TraceOf(c, s.workers[v].m) == t
  }

  /** The step leaves a live marker with nobody behind it. */
  ghost predicate Strands(c: Config, s: State, a: Action)
    requires Enabled(c, s, a)
  {
    match a
    case Stop(w) =>
      InHandler(s.workers[w]) && IsScan(c, s.workers[w].m) && var t := TraceOf(c, s.workers[w].m);
      t in s.stores.marks && !Processed(s.stores, t) && !ClaimedByOther(c, s, t, w)
    case Advance(w, o) =>
      IsScan(c, s.workers[w].m) && var t := TraceOf(c, s.workers[w].m);
      && !Processed(s.stores, t)
      && ((s.workers[w].Clearing? && o == FailedClean && t in s.stores.marks && !ClaimedByOther(c, s, t, w))
          || (s.workers[w].Claiming? && o == FailedApplied && !Claimed(c, s, t)))
    case _ => false
  }

  /** Only a fault strands a marker. */
  lemma StrandingIsFaulty(c: Config, s: State, a: Action)
    requires Enabled(c, s, a) && MarkersSound(c, s) && Strands(c, s, a)
    ensures Faulty(c, s, a)
  {}

  /** A claimer untouched by the step is still there. */
  lemma OtherClaimerStays(c: Config, s: State, a: Action, t: TraceId, w: nat)
    requires Enabled(c, s, a) && (a.Advance? || a.Stop? || a.Fetch?) && a.w == w
    requires ClaimedByOther(c, s, t, w)
    ensures Claimed(c, Apply(c, s, a), t)
  {
    var v :| 0 <= v < |s.workers| && v != w && InHandler(s.workers[v]) && IsScan(c, s.workers[v].m)
        && TraceOf(c, s.workers[v].m) == t;
    assert Apply(c, s, a).workers[v] == s.workers[v];
  }

  /** Marker soundness survives a step that strands no marker. */
  lemma MarkersStay(c: Config, s: State, a: Action)
    requires TraceDeterminesRide(c.log)
    requires WorkersOk(c, s) && TablesOk(c, s) && PhasesOk(c, s) && MarkersSound(c, s)
    requires Enabled(c, s, a) && !Strands(c, s, a)
    ensures MarkersSound(c, Apply(c, s, a))
  {
    var s' := Apply(c, s, a);
    forall t | t in s'.stores.marks ensures Processed(s'.stores, t) || Claimed(c, s', t) {
      if Processed(s.stores, t) {
        ProcessedStays(c, s, a, t);
      } else if a.Advance? || a.Stop? || a.Fetch? {
        MarkerStays(c, s, a, t);
      } else {
        assert s'.workers == s.workers;
        assert Claimed(c, s, t);
      }
    }
  }

  lemma MarkerStays(c: Config, s: State, a: Action, t: TraceId)
    requires TraceDeterminesRide(c.log)
    requires WorkersOk(c, s) && TablesOk(c, s) && PhasesOk(c, s) && MarkersSound(c, s)
    requires Enabled(c, s, a) && !Strands(c, s, a) && (a.Advance? || a.Stop? || a.Fetch?)
    requires t in Apply(c, s, a).stores.marks && !Processed(s.stores, t)
    ensures Processed(Apply(c, s, a).stores, t) || Claimed(c, Apply(c, s, a), t)
  {
    var s' := Apply(c, s, a);
    var w := a.w;
    if ClaimedByOther(c, s, t, w) {
      OtherClaimerStays(c, s, a, t, w);
    } else {
      var work := s.workers[w];
      assert t in s.stores.marks ==> Claimed(c, s, t);
      assert Claimed(c, s, t) ==> InHandler(work) && TraceOf(c, work.m) == t;
      if a.Advance? && InHandler(s'.workers[w]) {
        assert TraceOf(c, s'.workers[w].m) == t;
      } else if a.Advance? && s'.workers[w].Settled? && s'.workers[w].how.Handled? {
        SettledIsProcessed(c, s, w, a.o);
      }
    }
  }

  /** A step breaks marker soundness exactly when it strands a marker: the
      guard is read off the state before the step. */
  lemma MarkersExact(c: Config, s: State, a: Action)
    requires TraceDeterminesRide(c.log)
    requires WorkersOk(c, s) && TablesOk(c, s) && PhasesOk(c, s) && MarkersSound(c, s)
    requires Enabled(c, s, a)
    ensures MarkersSound(c, Apply(c, s, a)) <==> !Strands(c, s, a)
  {
    if !Strands(c, s, a) {
      MarkersStay(c, s, a);
    } else {
      var s' := Apply(c, s, a);
      var t := TraceOf(c, s.workers[a.w].m);
      assert t in s'.stores.marks && !Processed(s'.stores, t);
      forall v | 0 <= v < |s'.workers| && v != a.w ensures s'.workers[v] == s.workers[v] {}
      assert !Claimed(c, s', t);
    }
  }

  // ---- No silent loss ----

  /** Dropping a duplicate of a live marker is safe: the trace is processed, or
      its claimer holds another message that is still to be committed. */
  lemma DropIsSafe(c: Config, s: State, w: nat)
    requires WorkersOk(c, s) && MarkersSound(c, s) && w < |s.workers|
    requires s.workers[w].Claiming? && TraceOf(c, s.workers[w].m) in s.stores.marks
    ensures var s' := s.(workers := s.workers[w := Settled(s.workers[w].m, Duplicate)]);
            Safe(c, s', TraceOf(c, s.workers[w].m))
  {
    var t := TraceOf(c, s.workers[w].m);
    var s' := s.(workers := s.workers[w := Settled(s.workers[w].m, Duplicate)]);
    if !Processed(s.stores, t) {
      var v :| 0 <= v < |s.workers| && InHandler(s.workers[v]) && IsScan(c, s.workers[v].m)
          && TraceOf(c, s.workers[v].m) == t;
      var m := s.workers[v].m;
      forall u | 0 <= u < |s'.workers| ensures s'.workers[u] != Settled(m, Duplicate) {
        if u != v && u != w { assert s'.workers[u] == s.workers[u]; }
      }
      assert !Spent(s', m);
    }
  }

  /** A message spent by a step was just dropped as a duplicate or committed. */
  lemma NewlySpent(c: Config, s: State, a: Action, m: nat)
    requires WorkersOk(c, s) && Enabled(c, s, a)
    requires !Spent(s, m) && Spent(Apply(c, s, a), m)
    ensures a.Advance? && s.workers[a.w].m == m
    ensures (s.workers[a.w].Claiming? && a.o == Done && TraceOf(c, m) in s.stores.marks)
         || (s.workers[a.w].Settled? && !s.workers[a.w].how.Duplicate? && a.o.Applied())
  {
    var s' := Apply(c, s, a);
    if m !in s'.committed {
      var v :| 0 <= v < |s'.workers| && s'.workers[v] == Settled(m, Duplicate);
      assert s.workers[v] != s'.workers[v];
    }
  }

  lemma SafeStays(c: Config, s: State, a: Action, t: TraceId)
    requires Inv(c, s) && Enabled(c, s, a) && Safe(c, s, t)
    ensures Safe(c, Apply(c, s, a), t)
  {
    var s' := Apply(c, s, a);
    if Processed(s.stores, t) {
      ProcessedStays(c, s, a, t);
    } else if Dead(c, s, t) {
      var m :| m in s.dlq && IsScan(c, m) && TraceOf(c, m) == t;
      assert m in s'.dlq;
    } else {
      var m :| IsScan(c, m) && TraceOf(c, m) == t && !Spent(s, m);
      if Spent(s', m) {
        NewlySpent(c, s, a, m);
        assert s.workers[a.w].Claiming?;
        DropIsSafe(c, s, a.w);
      }
    }
  }

  /** Every step but the four faults keeps the whole invariant. */
  lemma InvStays(c: Config, s: State, a: Action)
    requires TraceDeterminesRide(c.log)
    requires Inv(c, s) && Enabled(c, s, a) && !Faulty(c, s, a)
    ensures Inv(c, Apply(c, s, a))
  {
    WorkersStay(c, s, a);
    TablesStay(c, s, a);
    PhasesStay(c, s, a);
    if Strands(c, s, a) { StrandingIsFaulty(c, s, a); }
    MarkersStay(c, s, a);
    forall m | IsScan(c, m) ensures Safe(c, Apply(c, s, a), TraceOf(c, m)) {
      SafeStays(c, s, a, TraceOf(c, m));
    }
  }

  lemma {:induction false} RunKeepsInv(c: Config, s: State, acts: seq<Action>)
    requires TraceDeterminesRide(c.log)
    requires Inv(c, s) && ValidRun(c, s, acts) && Faultless(c, s, acts)
    ensures Inv(c, Exec(c, s, acts))
    decreases |acts|
  {
    if acts != [] {
      InvStays(c, s, acts[0]);
      RunKeepsInv(c, Apply(c, s, acts[0]), acts[1..]);
    }
  }

  /** In every interleaving, under any store failures, no message's trace is lost,
      every live marker is justified, the daily sets hold only stored rides, and
      every stored row is counted, parked, dead-lettered or still to come back. */
  lemma NoScanIsLost(c: Config, workers: nat, drains: nat, acts: seq<Action>)
    requires TraceDeterminesRide(c.log)
    requires ValidRun(c, Init(workers, drains), acts) && Faultless(c, Init(workers, drains), acts)
    ensures var s := Exec(c, Init(workers, drains), acts);
            && NoSilentLoss(c, s) && MarkersSound(c, s) && SetsBacked(s)
            && (forall t :: t in s.stores.rows ==> Accounted(c, s, t))
  {
    InitHolds(c, workers, drains);
    RunKeepsInv(c, Init(workers, drains), acts);
    var s := Exec(c, Init(workers, drains), acts);
    forall m | IsScan(c, m) ensures Accounted(c, s, TraceOf(c, m)) {
      assert Safe(c, s, TraceOf(c, m));
    }
    forall t | t in s.stores.rows ensures Accounted(c, s, t) {
      var i :| 0 <= i < |c.log| && c.log[i] == Scan(s.stores.rows[t]);
      assert IsScan(c, i) && TraceOf(c, i) == t;
    }
  }

  /** Nothing is left to do: all messages committed, none of them dead-lettered
      scans, nothing parked. */
  ghost predicate Quiet(c: Config, s: State) {
    && (forall m :: 0 <= m < |c.log| ==> m in s.committed)
    && (forall m :: m in s.dlq ==> !IsScan(c, m))
    && s.stores.outbox == []
  }

  /** The daily sets the whole log calls for. */
  ghost function Expected(log: seq<Payload>): set<RideEntry> {
    set i | 0 <= i < |log| && log[i].Scan? :: EntryOf(log[i].event)
  }

  lemma QuietScan(c: Config, s: State, m: nat)
    requires TraceDeterminesRide(c.log) && Inv(c, s) && Quiet(c, s) && IsScan(c, m)
    ensures TraceOf(c, m) in s.stores.rows && EntryOf(s.stores.rows[TraceOf(c, m)]) == EntryOf(c.log[m].event)
    ensures EntryOf(c.log[m].event) in s.stores.sets
  {
    var t := TraceOf(c, m);
    assert Safe(c, s, t);
    assert !Carried(c, s, t) by {
      forall k | IsScan(c, k) ensures Spent(s, k) {}
    }
    RowIsEvent(c, s, m);
  }

  lemma QuietSets(c: Config, s: State, x: RideEntry)
    requires TraceDeterminesRide(c.log) && Inv(c, s) && Quiet(c, s)
    ensures x in s.stores.sets <==> x in Projection(s.stores.rows)
    ensures x in s.stores.sets <==> x in Expected(c.log)
  {
    if x in Expected(c.log) {
      var i :| 0 <= i < |c.log| && c.log[i].Scan? && EntryOf(c.log[i].event) == x;
      QuietScan(c, s, i);
    }
    if x in Projection(s.stores.rows) {
      var t :| t in s.stores.rows && EntryOf(s.stores.rows[t]) == x;
      assert Scan(s.stores.rows[t]) in c.log;
      var i :| 0 <= i < |c.log| && c.log[i] == Scan(s.stores.rows[t]);
      QuietScan(c, s, i);
      assert x in Expected(c.log);
    }
  }

  /** Once quiet, cache and table agree, and both hold exactly what Kafka carried. */
  lemma QuietAgrees(c: Config, workers: nat, drains: nat, acts: seq<Action>)
    requires TraceDeterminesRide(c.log)
    requires ValidRun(c, Init(workers, drains), acts) && Faultless(c, Init(workers, drains), acts)
    requires Quiet(c, Exec(c, Init(workers, drains), acts))
    ensures var st := Exec(c, Init(workers, drains), acts).stores;
            && st.sets == Projection(st.rows) == Expected(c.log)
            && (forall m: nat :: IsScan(c, m) ==>
                  TraceOf(c, m) in st.rows && EntryOf(st.rows[TraceOf(c, m)]) == EntryOf(c.log[m].event))
  {
    InitHolds(c, workers, drains);
    RunKeepsInv(c, Init(workers, drains), acts);
    var s := Exec(c, Init(workers, drains), acts);
    forall x
      ensures (x in s.stores.sets <==> x in Projection(s.stores.rows)) && (x in s.stores.sets <==> x in Expected(c.log))
    {
      QuietSets(c, s, x);
    }
    forall m: nat | IsScan(c, m)
      ensures TraceOf(c, m) in s.stores.rows && EntryOf(s.stores.rows[TraceOf(c, m)]) == EntryOf(c.log[m].event)
    {
      QuietScan(c, s, m);
    }
  }
}
