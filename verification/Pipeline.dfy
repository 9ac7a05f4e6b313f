/** The scan handler and the outbox drain as the program runs them, one call
    after another, proved to be runs of the ingestion protocol. */
module Pipeline {
  import opened Core
  import opened ScanStores
  import opened Ingestion

  /** How the outside calls of one `Handle` will end, were they made. */
  datatype HandleFaults = HandleFaults(claim: Outcome, insert: Outcome, aggregate: Outcome, park: Outcome,
      clear: Outcome)

  /** How the outside calls for one outbox row will end. */
  datatype ReplayFaults = ReplayFaults(add: Outcome, bump: Outcome, delete: Outcome)

  // ---- The specification: drive one worker of the protocol ----

  function OutcomeAt(work: Work, f: HandleFaults): Outcome {
    if work.Claiming? then f.claim
    else if work.Inserting? then f.insert
    else if work.Aggregating? then f.aggregate
    else if work.Parking? then f.park
    else f.clear
  }

  /** Calls the handler may still make. */
  function CallsLeft(work: Work): nat {
    if work.Claiming? then 5
    else if work.Inserting? then 4
    else if work.Aggregating? then 3
    else if work.Parking? then 2
    else if work.Clearing? then 1
    else 0
  }

  /** The protocol's worker, driven until its handler returns. */
  function HandlerRun(c: Config, st: Stores, work: Work, f: HandleFaults): (Stores, Work)
    requires CallsLeft(work) > 0 ==> IsScan(c, work.m)
    decreases CallsLeft(work)
  {
    if CallsLeft(work) == 0 then (st, work)
    else
      var (next, then_) := AdvanceHandler(c, st, work, OutcomeAt(work, f));
      HandlerRun(c, next, then_, f)
  }

  /** The steps of that run. */
  function HandlerActs(c: Config, w: nat, st: Stores, work: Work, f: HandleFaults): seq<Action>
    requires CallsLeft(work) > 0 ==> IsScan(c, work.m)
    decreases CallsLeft(work)
  {
    if CallsLeft(work) == 0 then []
    else
      var (next, then_) := AdvanceHandler(c, st, work, OutcomeAt(work, f));
      [Advance(w, OutcomeAt(work, f))] + HandlerActs(c, w, next, then_, f)
  }

  /** The sequential handler is a run of the protocol that moves only its own worker. */
  lemma {:induction false} HandlerRefines(c: Config, s: State, w: nat, f: HandleFaults)
    requires w < |s.workers| && CallsLeft(s.workers[w]) > 0 ==> IsScan(c, s.workers[w].m)
    requires w < |s.workers|
    ensures var (st, end) := HandlerRun(c, s.stores, s.workers[w], f);
            var acts := HandlerActs(c, w, s.stores, s.workers[w], f);
            && ValidRun(c, s, acts) && Exec(c, s, acts) == s.(stores := st, workers := s.workers[w := end])
            && (f.clear.Applied() && f.claim != FailedApplied ==> FaultCount(c, s, acts) == 0)
    decreases CallsLeft(s.workers[w])
  {
    var work := s.workers[w];
    if CallsLeft(work) == 0 {
      assert s.workers[w := work] == s.workers;
    } else {
      var a := Advance(w, OutcomeAt(work, f));
      var s' := Apply(c, s, a);
      HandlerRefines(c, s', w, f);
      var rest := HandlerActs(c, w, s'.stores, s'.workers[w], f);
      assert ([a] + rest)[1..] == rest;
      var (st, end) := HandlerRun(c, s'.stores, s'.workers[w], f);
      assert s'.workers[w := end] == s.workers[w := end];
    }
  }

  /** An error after the claim ends in the clear. */
  lemma RunFromClearing(c: Config, st: Stores, m: nat, n: nat, f: HandleFaults)
    requires IsScan(c, m)
    ensures HandlerRun(c, st, Clearing(m, n), f)
            == (if f.clear.Applied() then ClearMark(st, TraceOf(c, m)) else st, Failed(m, n))
  {
    var next := if f.clear.Applied() then ClearMark(st, TraceOf(c, m)) else st;
    assert HandlerRun(c, next, Failed(m, n), f) == (next, Failed(m, n));
  }

  /** Once the row is in, the ride is counted, or parked, or the clear is due. */
  lemma RunFromAggregating(c: Config, st: Stores, m: nat, n: nat, f: HandleFaults)
    requires IsScan(c, m)
    ensures var e := c.log[m].event;
            var counted := if f.aggregate.Applied() then AddRide(st, EntryOf(e)) else st;
            var parked := if f.park.Applied() then Park(counted, e) else counted;
            HandlerRun(c, st, Aggregating(m, n), f)
            == if f.aggregate == Done then (counted, Settled(m, Handled))
               else if !c.armed then HandlerRun(c, counted, Clearing(m, n), f)
               else if f.park == Done then (parked, Settled(m, Handled))
               else HandlerRun(c, parked, Clearing(m, n), f)
  {
    var e := c.log[m].event;
    var counted := if f.aggregate.Applied() then AddRide(st, EntryOf(e)) else st;
    var parked := if f.park.Applied() then Park(counted, e) else counted;
    if f.aggregate == Done {
      assert HandlerRun(c, counted, Settled(m, Handled), f) == (counted, Settled(m, Handled));
    } else if c.armed {
      assert HandlerRun(c, st, Aggregating(m, n), f) == HandlerRun(c, counted, Parking(m, n), f);
      if f.park == Done { assert HandlerRun(c, parked, Settled(m, Handled), f) == (parked, Settled(m, Handled)); }
    }
  }

  /** What one call of the handler does, said in one place: a duplicate changes
      nothing; a success has stored the scan and counted or parked its ride; an
      error after the claim has cleared the marker unless the clear itself was lost. */
  lemma HandlerOutcome(c: Config, st: Stores, m: nat, n: nat, f: HandleFaults)
    requires IsScan(c, m)
    ensures var t := TraceOf(c, m);
            var (st', end) := HandlerRun(c, st, Claiming(m, n), f);
            && (end == Failed(m, n) || end == Settled(m, Duplicate) || end == Settled(m, Handled))
            && (end == Settled(m, Duplicate) <==> f.claim == Done && t in st.marks)
            && (end == Settled(m, Duplicate) ==> st' == st)
            && (end == Settled(m, Handled) <==>
                  f.claim == Done && t !in st.marks && f.insert == Done
                  && (f.aggregate == Done || (c.armed && f.park == Done)))
            && (end == Settled(m, Handled) ==>
                  t in st'.rows && t in st'.marks && (EntryOf(c.log[m].event) in st'.sets || Parked(st'.outbox, t)))
            && (f.claim == Done && end == Failed(m, n) ==> (t in st'.marks <==> !f.clear.Applied()))
  {
    var e := c.log[m].event;
    if f.claim == Done && e.traceId !in st.marks {
      var s1 := Claim(st, e.traceId);
      var s2 := if f.insert.Applied() then InsertRow(s1, e) else s1;
      var s3 := if f.aggregate.Applied() then AddRide(s2, EntryOf(e)) else s2;
      assert HandlerRun(c, st, Claiming(m, n), f) == HandlerRun(c, s1, Inserting(m, n), f);
      RunFromAggregating(c, s2, m, n, f);
      ParkKeepsProcessed(s3, e, e.traceId);
      RunFromClearing(c, s2, m, n, f);
      RunFromClearing(c, s3, m, n, f);
      RunFromClearing(c, if f.park.Applied() then Park(s3, e) else s3, m, n, f);
      if f.insert == Done {
        assert HandlerRun(c, s1, Inserting(m, n), f) == HandlerRun(c, s2, Aggregating(m, n), f);
      } else {
        assert HandlerRun(c, s1, Inserting(m, n), f) == HandlerRun(c, s2, Clearing(m, n), f);
      }
    } else {
      var s1 := if f.claim.Applied() then Claim(st, e.traceId) else st;
      var end := if f.claim == Done then Settled(m, Duplicate) else Failed(m, n);
      assert HandlerRun(c, s1, end, f) == (s1, end);
    }
  }

  // ---- Draining ----

  /** UNIQUE (trace_id) of scan_events_outbox. */
  predicate UniqueTraces(outbox: seq<OutboxRow>) {
    forall i, j :: 0 <= i < j < |outbox| ==> Differ(outbox, i, j)
  }

  predicate Differ(outbox: seq<OutboxRow>, i: nat, j: nat)
    requires i < |outbox| && j < |outbox|
  {
    outbox[i].traceId != outbox[j].traceId
  }

  datatype DrainEnd = DrainEnd(stores: Stores, drained: nat, failed: bool)

  /** The protocol's drain worker, driven until its pass ends. `k` counts the rows seen. */
  ghost function DrainRun(st: Stores, rows: seq<OutboxRow>, script: nat -> ReplayFaults, k: nat, drained: nat): DrainEnd
    decreases |rows|
  {
    if rows == [] then DrainEnd(st, drained, false)
    else
      var c := Config([], 0, true);
      var s := State(st, [], [Replaying(rows)], {}, {});
      var s1 := Apply(c, s, DrainAdvance(0, script(k).add));
      if s1.drains[0].Bumping? then
        DrainRun(Apply(c, s1, DrainAdvance(0, script(k).bump)).stores, rows[1..], script, k + 1, drained)
      else
        var s2 := Apply(c, s1, DrainAdvance(0, script(k).delete));
        if s2.drains[0].Resting? then DrainEnd(s2.stores, drained, true)
        else DrainRun(s2.stores, rows[1..], script, k + 1, drained + 1)
  }

  /** The steps of a drain pass. */
  ghost function DrainActs(d: nat, st: Stores, rows: seq<OutboxRow>, script: nat -> ReplayFaults, k: nat): seq<Action>
    decreases |rows|
  {
    if rows == [] then [DrainAdvance(d, Done)]
    else
      var f := script(k);
      var st1 := if f.add.Applied() then AddRide(st, OutboxEntry(rows[0])) else st;
      if f.add != Done then
        var st2 := if f.bump.Applied() then Bump(st1, rows[0].traceId) else st1;
        [DrainAdvance(d, f.add), DrainAdvance(d, f.bump)] + DrainActs(d, st2, rows[1..], script, k + 1)
      else
        var st2 := if f.delete.Applied() then Unpark(st1, rows[0].traceId) else st1;
        [DrainAdvance(d, f.add), DrainAdvance(d, f.delete)]
        + if f.delete != Done then [] else DrainActs(d, st2, rows[1..], script, k + 1)
  }

  /** Two steps and a run make a run. */
  lemma TwoThenRun(c: Config, s: State, a: Action, b: Action, rest: seq<Action>)
    requires Enabled(c, s, a) && Enabled(c, Apply(c, s, a), b)
    requires ValidRun(c, Apply(c, Apply(c, s, a), b), rest)
    ensures ValidRun(c, s, [a, b] + rest)
    ensures Exec(c, s, [a, b] + rest) == Exec(c, Apply(c, Apply(c, s, a), b), rest)
  {
    var acts := [a, b] + rest;
    assert acts[1..] == [b] + rest;
    assert acts[1..][1..] == rest;
  }

  /** A drain pass is a run of the protocol that moves only its own drain worker. */
  lemma {:induction false} DrainRefines(c: Config, s: State, d: nat, script: nat -> ReplayFaults, k: nat, drained: nat)
    requires d < |s.drains| && s.drains[d].Replaying?
    ensures var acts := DrainActs(d, s.stores, s.drains[d].rows, script, k);
            && ValidRun(c, s, acts)
            && Exec(c, s, acts) == s.(stores := DrainRun(s.stores, s.drains[d].rows, script, k, drained).stores,
                                      drains := s.drains[d := Resting])
    decreases |s.drains[d].rows|
  {
    var rows := s.drains[d].rows;
    var f := script(k);
    if rows == [] {
      var s' := Apply(c, s, DrainAdvance(d, Done));
      assert ValidRun(c, s', []) && Exec(c, s', []) == s';
    } else if f.add != Done {
      var s2 := Apply(c, Apply(c, s, DrainAdvance(d, f.add)), DrainAdvance(d, f.bump));
      DrainRefines(c, s2, d, script, k + 1, drained);
      TwoThenRun(c, s, DrainAdvance(d, f.add), DrainAdvance(d, f.bump),
          DrainActs(d, s2.stores, rows[1..], script, k + 1));
      assert s2.drains[d := Resting] == s.drains[d := Resting];
    } else {
      var s2 := Apply(c, Apply(c, s, DrainAdvance(d, f.add)), DrainAdvance(d, f.delete));
      if f.delete != Done {
        TwoThenRun(c, s, DrainAdvance(d, f.add), DrainAdvance(d, f.delete), []);
      } else {
        DrainRefines(c, s2, d, script, k + 1, drained + 1);
        TwoThenRun(c, s, DrainAdvance(d, f.add), DrainAdvance(d, f.delete),
            DrainActs(d, s2.stores, rows[1..], script, k + 1));
      }
      assert s2.drains[d := Resting] == s.drains[d := Resting];
    }
  }

  lemma TailUnique(outbox: seq<OutboxRow>, n: nat)
    requires UniqueTraces(outbox) && n <= |outbox|
    ensures UniqueTraces(outbox[n..])
  {
    forall i, j | 0 <= i < j < |outbox[n..]| ensures Differ(outbox[n..], i, j) { assert Differ(outbox, n + i, n + j); }
  }

  lemma BumpUnique(outbox: seq<OutboxRow>, t: TraceId)
    requires UniqueTraces(outbox)
    ensures UniqueTraces(BumpRows(outbox, t))
  {
    var bumped := BumpRows(outbox, t);
    forall i, j | 0 <= i < j < |bumped| ensures Differ(bumped, i, j) { assert Differ(outbox, i, j); }
  }

  lemma ParkUnique(outbox: seq<OutboxRow>, row: OutboxRow)
    requires UniqueTraces(outbox) && !Parked(outbox, row.traceId)
    ensures UniqueTraces(outbox + [row])
  {
    var parked := outbox + [row];
    forall i, j | 0 <= i < j < |parked| ensures Differ(parked, i, j) {
      if j < |outbox| { assert Differ(outbox, i, j); } else { assert outbox[i] == parked[i]; }
    }
  }

  lemma WithoutHead(outbox: seq<OutboxRow>)
    requires UniqueTraces(outbox) && outbox != []
    ensures Without(outbox, outbox[0].traceId) == outbox[1..]
  {
    forall i | 0 <= i < |outbox[1..]| ensures outbox[1..][i].traceId != outbox[0].traceId {
      assert Differ(outbox, 0, i + 1);
    }
    WithoutStranger(outbox[1..], outbox[0].traceId);
  }

  lemma {:induction false} WithoutStranger(outbox: seq<OutboxRow>, t: TraceId)
    requires !Parked(outbox, t)
    ensures Without(outbox, t) == outbox
  {
    if outbox != [] {
      assert !Parked(outbox[1..], t) by {
        forall i | 0 <= i < |outbox[1..]| ensures outbox[1..][i].traceId != t { assert outbox[i + 1].traceId != t; }
      }
      WithoutStranger(outbox[1..], t);
    }
  }

  /** Deleting one parked trace removes one row and keeps the rest apart. */
  lemma {:induction false} WithoutOne(outbox: seq<OutboxRow>, t: TraceId)
    requires UniqueTraces(outbox) && Parked(outbox, t)
    ensures |Without(outbox, t)| == |outbox| - 1 && UniqueTraces(Without(outbox, t))
  {
    var rest := outbox[1..];
    TailUnique(outbox, 1);
    if outbox[0].traceId == t {
      WithoutHead(outbox);
    } else {
      var i :| 0 <= i < |outbox| && outbox[i].traceId == t;
      assert rest[i - 1].traceId == t;
      WithoutOne(rest, t);
      ConsUnique(outbox, Without(rest, t));
    }
  }

  /** A head row stays different from whatever is kept of its tail. */
  lemma ConsUnique(outbox: seq<OutboxRow>, kept: seq<OutboxRow>)
    requires UniqueTraces(outbox) && outbox != [] && UniqueTraces(kept)
    requires forall r :: r in kept ==> r in outbox[1..]
    ensures UniqueTraces([outbox[0]] + kept)
  {
    var all := [outbox[0]] + kept;
    forall i, j | 0 <= i < j < |all| ensures Differ(all, i, j) {
      if i == 0 {
        assert all[j] == kept[j - 1] && kept[j - 1] in outbox[1..];
        var k :| 0 <= k < |outbox[1..]| && outbox[1..][k] == all[j];
        assert Differ(outbox, 0, k + 1);
      } else {
        assert Differ(kept, i - 1, j - 1);
      }
    }
  }

  /** Rows parked, each once, that a pass is about to replay. */
  ghost predicate Listed(outbox: seq<OutboxRow>, rows: seq<OutboxRow>) {
    UniqueTraces(outbox) && UniqueTraces(rows) && forall r :: r in rows ==> Parked(outbox, r.traceId)
  }

  lemma ListedRest(outbox: seq<OutboxRow>, rows: seq<OutboxRow>, t: TraceId)
    requires Listed(outbox, rows) && rows != [] && rows[0].traceId == t
    ensures Listed(Without(outbox, t), rows[1..]) && Listed(BumpRows(outbox, t), rows[1..])
    ensures |Without(outbox, t)| == |outbox| - 1
  {
    assert rows[0] in rows;
    WithoutOne(outbox, t);
    BumpUnique(outbox, t);
    TailUnique(rows, 1);
    var bumped := BumpRows(outbox, t);
    forall r | r in rows[1..] ensures Parked(Without(outbox, t), r.traceId) && Parked(bumped, r.traceId) {
      var j :| 0 <= j < |rows[1..]| && rows[1..][j] == r;
      assert rows[j + 1] == r;
      assert Differ(rows, 0, j + 1);
      var i :| 0 <= i < |outbox| && outbox[i].traceId == r.traceId;
      assert outbox[i] in Without(outbox, t);
      assert bumped[i].traceId == r.traceId;
    }
  }

  /** The stores after each row of a pass, without the protocol's phases. */
  function PlainDrain(st: Stores, rows: seq<OutboxRow>, script: nat -> ReplayFaults, k: nat, drained: nat): DrainEnd
    decreases |rows|
  {
    if rows == [] then DrainEnd(st, drained, false)
    else
      var f, t := script(k), rows[0].traceId;
      var st1 := if f.add.Applied() then AddRide(st, OutboxEntry(rows[0])) else st;
      if f.add != Done
      then PlainDrain(if f.bump.Applied() then Bump(st1, t) else st1, rows[1..], script, k + 1, drained)
      else if f.delete != Done then DrainEnd(if f.delete.Applied() then Unpark(st1, t) else st1, drained, true)
      else PlainDrain(Unpark(st1, t), rows[1..], script, k + 1, drained + 1)
  }

  lemma {:induction false} DrainIsPlain(st: Stores, rows: seq<OutboxRow>, script: nat -> ReplayFaults, k: nat,
        drained: nat)
    ensures DrainRun(st, rows, script, k, drained) == PlainDrain(st, rows, script, k, drained)
    decreases |rows|
  {
    if rows != [] {
      var f, t := script(k), rows[0].traceId;
      var st1 := if f.add.Applied() then AddRide(st, OutboxEntry(rows[0])) else st;
      if f.add != Done {
        DrainIsPlain(if f.bump.Applied() then Bump(st1, t) else st1, rows[1..], script, k + 1, drained);
      } else if f.delete == Done {
        DrainIsPlain(Unpark(st1, t), rows[1..], script, k + 1, drained + 1);
      }
    }
  }

  /** Of the `n` rows a pass has listed, the first delete that reports a failure is
      reached and has taken effect. Rows whose set add fails are skipped. */
  predicate EndsUncounted(n: nat, script: nat -> ReplayFaults, k: nat) {
    n > 0 &&
    if script(k).add == Done && script(k).delete != Done then script(k).delete == FailedApplied
    else EndsUncounted(n - 1, script, k + 1)
  }

  /** How many rows the first row's turn removes, and what the rest of the pass starts from. */
  lemma PlainFirst(st: Stores, rows: seq<OutboxRow>, script: nat -> ReplayFaults, k: nat, drained: nat)
    returns (st2: Stores)
    requires Listed(st.outbox, rows) && rows != []
    ensures var f := script(k);
            && Listed(st2.outbox, rows[1..])
            && |st2.outbox| == |st.outbox| - (if f.add == Done && f.delete.Applied() then 1 else 0)
            && PlainDrain(st, rows, script, k, drained)
               == if f.add == Done && f.delete != Done then DrainEnd(st2, drained, true)
                  else PlainDrain(st2, rows[1..], script, k + 1, if f.add == Done then drained + 1 else drained)
  {
    var f, t := script(k), rows[0].traceId;
    ListedRest(st.outbox, rows, t);
    var st1 := if f.add.Applied() then AddRide(st, OutboxEntry(rows[0])) else st;
    assert st1.outbox == st.outbox;
    if f.add != Done {
      st2 := if f.bump.Applied() then Bump(st1, t) else st1;
    } else {
      st2 := if f.delete.Applied() then Unpark(st1, t) else st1;
    }
    ListedStays(st.outbox, rows);
  }

  /** Fewer rows to replay are still listed. */
  lemma ListedStays(outbox: seq<OutboxRow>, rows: seq<OutboxRow>)
    requires Listed(outbox, rows) && rows != []
    ensures Listed(outbox, rows[1..])
  {
    forall r | r in rows[1..] ensures Parked(outbox, r.traceId) { assert r in rows; }
    TailUnique(rows, 1);
  }

  lemma {:induction false} PlainCounts(st: Stores, rows: seq<OutboxRow>, script: nat -> ReplayFaults, k: nat,
        drained: nat)
    requires Listed(st.outbox, rows)
    ensures var end := PlainDrain(st, rows, script, k, drained);
            && |st.outbox| - |end.stores.outbox|
               == end.drained - drained + (if EndsUncounted(|rows|, script, k) then 1 else 0)
            && (EndsUncounted(|rows|, script, k) ==> end.failed)
    decreases |rows|
  {
    if rows != [] {
      var f := script(k);
      var st2 := PlainFirst(st, rows, script, k, drained);
      if f.add != Done || f.delete == Done {
        PlainCounts(st2, rows[1..], script, k + 1, if f.add == Done then drained + 1 else drained);
      }
    }
  }

  /** The count a pass returns is the number of rows it removed, plus one more row
      gone exactly when the first delete that reported failure had taken effect. */
  lemma DrainCounts(st: Stores, rows: seq<OutboxRow>, script: nat -> ReplayFaults, k: nat, drained: nat)
    requires Listed(st.outbox, rows)
    ensures var end := DrainRun(st, rows, script, k, drained);
            var uncounted := |st.outbox| - |end.stores.outbox| - (end.drained - drained);
            && (uncounted == 0 || uncounted == 1)
            && (uncounted == 1 <==> EndsUncounted(|rows|, script, k))
            && (uncounted == 1 ==> end.failed)
  {
    DrainIsPlain(st, rows, script, k, drained);
    PlainCounts(st, rows, script, k, drained);
  }

  /** Such a pass: one parked row, replayed and deleted, its delete reported as failed. */
  lemma UncountedRow(row: OutboxRow)
    ensures var st := EmptyStores.(outbox := [row]);
            var end := DrainRun(st, st.outbox, _ => ReplayFaults(Done, Done, FailedApplied), 0, 0);
            end == DrainEnd(EmptyStores.(sets := {OutboxEntry(row)}), 0, true)
  {
    var st := EmptyStores.(outbox := [row]);
    var script: nat -> ReplayFaults := _ => ReplayFaults(Done, Done, FailedApplied);
    DrainIsPlain(st, st.outbox, script, 0, 0);
    assert Without([row], row.traceId) == [];
  }

  // ---- A healthy drain ends ----

  const HEALTHY: nat -> ReplayFaults := _ => ReplayFaults(Done, Done, Done)

  function Entries(rows: seq<OutboxRow>): set<RideEntry> {
    set r | r in rows :: OutboxEntry(r)
  }

  lemma EntriesSplit(rows: seq<OutboxRow>, n: nat)
    requires n <= |rows|
    ensures Entries(rows) == Entries(rows[..n]) + Entries(rows[n..])
  {
    assert rows == rows[..n] + rows[n..];
    forall r ensures r in rows <==> r in rows[..n] || r in rows[n..] {}
  }

  /** Replaying the head row. */
  lemma HeadReplayed(st: Stores)
    requires UniqueTraces(st.outbox) && st.outbox != []
    ensures Unpark(AddRide(st, OutboxEntry(st.outbox[0])), st.outbox[0].traceId)
            == st.(outbox := st.outbox[1..], sets := st.sets + {OutboxEntry(st.outbox[0])})
    ensures UniqueTraces(st.outbox[1..])
  {
    WithoutHead(st.outbox);
    TailUnique(st.outbox, 1);
  }

  lemma EntriesHead(rows: seq<OutboxRow>)
    requires rows != []
    ensures Entries(rows) == {OutboxEntry(rows[0])} + Entries(rows[1..])
  {
    EntriesSplit(rows, 1);
    assert Entries(rows[..1]) == {OutboxEntry(rows[0])};
  }

  /** What a healthy pass over the first `n` rows leaves. */
  function Replayed(st: Stores, n: nat): Stores
    requires n <= |st.outbox|
  {
    st.(outbox := st.outbox[n..], sets := st.sets + Entries(st.outbox[..n]))
  }

  lemma ReplayedHead(st: Stores, n: nat)
    requires 0 < n <= |st.outbox|
    ensures var st' := st.(outbox := st.outbox[1..], sets := st.sets + {OutboxEntry(st.outbox[0])});
            Replayed(st', n - 1) == Replayed(st, n) && st'.outbox[..n - 1] == st.outbox[..n][1..]
  {
    EntriesHead(st.outbox[..n]);
    assert st.outbox[1..][..n - 1] == st.outbox[..n][1..];
    assert st.outbox[1..][n - 1..] == st.outbox[n..];
    assert st.sets + {OutboxEntry(st.outbox[0])} + Entries(st.outbox[..n][1..]) == st.sets + Entries(st.outbox[..n]);
  }

  /** With healthy stores a pass removes exactly the oldest rows it listed and counts their rides. */
  lemma {:induction false} HealthyPass(st: Stores, n: nat, k: nat, drained: nat)
    requires UniqueTraces(st.outbox) && n <= |st.outbox|
    ensures PlainDrain(st, st.outbox[..n], HEALTHY, k, drained) == DrainEnd(Replayed(st, n), drained + n, false)
    decreases n
  {
    if n == 0 {
      assert st.sets + Entries([]) == st.sets;
    } else {
      HeadReplayed(st);
      ReplayedHead(st, n);
      HealthyPass(Unpark(AddRide(st, OutboxEntry(st.outbox[0])), st.outbox[0].traceId), n - 1, k + 1, drained + 1);
    }
  }

  /** `passes` healthy passes of batch size `batch`, with nothing new parked between them. */
  ghost function Passes(st: Stores, batch: nat, passes: nat): Stores
    decreases passes
  {
    if passes == 0 then st
    else
      var n := if batch < |st.outbox| then batch else |st.outbox|;
      Passes(PlainDrain(st, st.outbox[..n], HEALTHY, 0, 0).stores, batch, passes - 1)
  }

  /** The stores after one healthy pass. */
  function AfterPass(st: Stores, batch: nat): Stores {
    Replayed(st, if batch < |st.outbox| then batch else |st.outbox|)
  }

  /** The same passes, each by what it does. */
  function AfterPasses(st: Stores, batch: nat, passes: nat): Stores
    decreases passes
  {
    if passes == 0 then st else AfterPasses(AfterPass(st, batch), batch, passes - 1)
  }

  lemma PassConserves(st: Stores, batch: nat)
    ensures AfterPass(st, batch).sets + Entries(AfterPass(st, batch).outbox) == st.sets + Entries(st.outbox)
  {
    EntriesSplit(st.outbox, if batch < |st.outbox| then batch else |st.outbox|);
  }

  lemma PassIs(st: Stores, batch: nat)
    requires UniqueTraces(st.outbox)
    ensures var n := if batch < |st.outbox| then batch else |st.outbox|;
            PlainDrain(st, st.outbox[..n], HEALTHY, 0, 0).stores == AfterPass(st, batch)
    ensures UniqueTraces(AfterPass(st, batch).outbox)
  {
    var n := if batch < |st.outbox| then batch else |st.outbox|;
    HealthyPass(st, n, 0, 0);
    TailUnique(st.outbox, n);
  }

  lemma PassesFirst(st: Stores, batch: nat, passes: nat)
    requires UniqueTraces(st.outbox) && passes > 0
    ensures Passes(st, batch, passes) == Passes(AfterPass(st, batch), batch, passes - 1)
    ensures UniqueTraces(AfterPass(st, batch).outbox)
  {
    PassIs(st, batch);
  }

  lemma {:induction false} PassesAre(st: Stores, batch: nat, passes: nat)
    requires UniqueTraces(st.outbox)
    ensures Passes(st, batch, passes) == AfterPasses(st, batch, passes)
    decreases passes
  {
    if passes > 0 {
      var st1 := AfterPass(st, batch);
      PassesFirst(st, batch, passes);
      PassesAre(st1, batch, passes - 1);
      assert AfterPasses(st, batch, passes) == AfterPasses(st1, batch, passes - 1);
    }
  }

  /** How many rows `passes` passes leave of `n`. */
  function RowsLeft(n: nat, batch: nat, passes: nat): nat
    decreases passes
  {
    if passes == 0 then n else RowsLeft(if batch < n then n - batch else 0, batch, passes - 1)
  }

  lemma {:induction false} RowsLeftExact(n: nat, batch: nat, passes: nat)
    ensures RowsLeft(n, batch, passes) == if passes * batch < n then n - passes * batch else 0
    decreases passes
  {
    if passes == 0 {
      assert 0 * batch == 0;
    } else {
      RowsLeftExact(if batch < n then n - batch else 0, batch, passes - 1);
      assert passes * batch == (passes - 1) * batch + batch;
      assert (passes - 1) * batch >= 0;
    }
  }

  lemma {:induction false} PassesLeft(st: Stores, batch: nat, passes: nat)
    ensures |AfterPasses(st, batch, passes).outbox| == RowsLeft(|st.outbox|, batch, passes)
    decreases passes
  {
    if passes > 0 {
      PassesLeft(AfterPass(st, batch), batch, passes - 1);
    }
  }

  lemma {:induction false} PassesConserve(st: Stores, batch: nat, passes: nat)
    ensures var left := AfterPasses(st, batch, passes);
            left.sets + Entries(left.outbox) == st.sets + Entries(st.outbox)
    decreases passes
  {
    if passes > 0 {
      var st1 := AfterPass(st, batch);
      PassConserves(st, batch);
      PassesConserve(st1, batch, passes - 1);
      assert AfterPasses(st, batch, passes) == AfterPasses(st1, batch, passes - 1);
    }
  }

  lemma RowsGone(n: nat, batch: nat, passes: nat)
    requires batch > 0
    ensures RowsLeft(n, batch, passes) == 0 <==> passes >= (n + batch - 1) / batch
  {
    RowsLeftExact(n, batch, passes);
    CeilExact(n, batch, passes);
  }

  /** n parked rows are gone after ceil(n / batch) healthy passes and not before,
      and by then every parked ride is counted. */
  lemma DrainTerminates(st: Stores, batch: nat, passes: nat)
    requires UniqueTraces(st.outbox) && batch > 0
    ensures Passes(st, batch, passes).outbox == [] <==> passes >= (|st.outbox| + batch - 1) / batch
    ensures passes >= (|st.outbox| + batch - 1) / batch ==>
              Passes(st, batch, passes).sets == st.sets + Entries(st.outbox)
  {
    PassesAre(st, batch, passes);
    AfterPassesEnd(st, batch, passes);
  }

  lemma AfterPassesEnd(st: Stores, batch: nat, passes: nat)
    requires batch > 0
    ensures AfterPasses(st, batch, passes).outbox == [] <==> passes >= (|st.outbox| + batch - 1) / batch
    ensures passes >= (|st.outbox| + batch - 1) / batch ==>
              AfterPasses(st, batch, passes).sets == st.sets + Entries(st.outbox)
  {
    PassesLeft(st, batch, passes);
    PassesConserve(st, batch, passes);
    RowsGone(|st.outbox|, batch, passes);
    var left := AfterPasses(st, batch, passes);
    if left.outbox == [] { assert left.sets + Entries(left.outbox) == left.sets; }
  }

  lemma CeilExact(n: nat, b: nat, p: nat)
    requires b > 0
    ensures p * b >= n <==> p >= (n + b - 1) / b
  {
    var q := (n + b - 1) / b;
    assert q * b <= n + b - 1 < q * b + b;
    if p >= q { MulMonotone(q, p, b); } else { MulMonotone(p + 1, q, b); assert (p + 1) * b == p * b + b; }
  }

  lemma MulMonotone(x: nat, y: nat, b: nat)
    requires x <= y
    ensures x * b <= y * b
  {
    assert y * b == x * b + (y - x) * b;
  }

  /** No trace is ever parked twice. */
  lemma OutboxStaysUnique(c: Config, s: State, a: Action)
    requires Enabled(c, s, a) && UniqueTraces(s.stores.outbox)
    ensures UniqueTraces(Apply(c, s, a).stores.outbox)
  {
    var outbox := s.stores.outbox;
    if a.DrainAdvance? && !s.drains[a.d].Resting? && s.drains[a.d].rows != [] {
      var t := s.drains[a.d].rows[0].traceId;
      BumpUnique(outbox, t);
      if Parked(outbox, t) { WithoutOne(outbox, t); } else { WithoutStranger(outbox, t); }
    }
    if a.Advance? && s.workers[a.w].Parking? {
      var row := RowFor(c.log[s.workers[a.w].m].event);
      if !Parked(outbox, row.traceId) { ParkUnique(outbox, row); }
    }
  }

  // ---- The stores as mutable objects ----

  /** ORDER BY id LIMIT: the first rows parked. */
  function Oldest(outbox: seq<OutboxRow>, limit: nat): seq<OutboxRow> {
    outbox[..if limit < |outbox| then limit else |outbox|]
  }

  /** Redis and Postgres as the consumer sees them. */
  class ScanStore {
    var marks: set<TraceId>
    var rows: map<TraceId, ScanEvent>
    var sets: set<RideEntry>
    var outbox: seq<OutboxRow>

    ghost function View(): Stores
      reads this
    {
      Stores(marks, rows, sets, outbox)
    }

    constructor ()
      ensures View() == EmptyStores
    {
      marks, rows, sets, outbox := {}, map[], {}, [];
    }

    method IsDuplicate(t: TraceId, o: Outcome) returns (dup: bool, err: bool)
      modifies this`marks
      ensures err <==> o != Done
      ensures !err ==> (dup <==> t in old(marks))
      ensures View() == if o.Applied() then Claim(old(View()), t) else old(View())
    {
      err, dup := o != Done, t in marks;
      if o.Applied() { marks := marks + {t}; }
    }

    method ClearDedup(t: TraceId, o: Outcome) returns (err: bool)
      modifies this`marks
      ensures err <==> o != Done
      ensures View() == if o.Applied() then ClearMark(old(View()), t) else old(View())
    {
      err := o != Done;
      if o.Applied() { marks := marks - {t}; }
    }

    method AddRideToUserSet(entry: RideEntry, o: Outcome) returns (err: bool)
      modifies this`sets
      ensures err <==> o != Done
      ensures View() == if o.Applied() then AddRide(old(View()), entry) else old(View())
    {
      err := o != Done;
      if o.Applied() { sets := sets + {entry}; }
    }

    method InsertScan(e: ScanEvent, o: Outcome) returns (err: bool)
      modifies this`rows
      ensures err <==> o != Done
      ensures View() == if o.Applied() then InsertRow(old(View()), e) else old(View())
    {
      err := o != Done;
      if o.Applied() && e.traceId !in rows { rows := rows[e.traceId := e]; }
    }

    method InsertOutbox(e: ScanEvent, o: Outcome) returns (err: bool)
      modifies this`outbox
      ensures err <==> o != Done
      ensures View() == if o.Applied() then Park(old(View()), e) else old(View())
    {
      err := o != Done;
      if o.Applied() && !(exists i :: 0 <= i < |outbox| && outbox[i].traceId == e.traceId) {
        outbox := outbox + [RowFor(e)];
      }
    }

    /** The oldest `limit` rows; Postgres refuses a negative LIMIT. */
    method ListPendingOutbox(limit: int, o: Outcome) returns (listed: seq<OutboxRow>, err: bool)
      ensures err <==> o != Done || limit < 0
      ensures !err ==> listed == Oldest(outbox, limit)
    {
      err, listed := o != Done || limit < 0, [];
      if !err { listed := if limit < |outbox| then outbox[..limit] else outbox; }
    }

    method BumpOutboxAttempts(t: TraceId, o: Outcome)
      modifies this`outbox
      ensures View() == if o.Applied() then Bump(old(View()), t) else old(View())
    {
      if o.Applied() { outbox := BumpRows(outbox, t); }
    }

    method DeleteOutbox(t: TraceId, o: Outcome) returns (err: bool)
      modifies this`outbox
      ensures err <==> o != Done
      ensures View() == if o.Applied() then Unpark(old(View()), t) else old(View())
    {
      err := o != Done;
      if o.Applied() { outbox := Without(outbox, t); }
    }
  }

  class ScanHandler {
    const store: ScanStore
    const armed: bool   // an outbox writer is attached

    constructor (store: ScanStore, armed: bool)
      ensures this.store == store && this.armed == armed
    {
      this.store, this.armed := store, armed;
    }

    /** Claim, store, count or park; on any error after the claim, clear the marker. */
    method Handle(c: Config, m: nat, n: nat, f: HandleFaults) returns (err: bool)
      requires IsScan(c, m) && c.armed == armed
      modifies store
      ensures var (st, end) := HandlerRun(c, old(store.View()), Claiming(m, n), f);
              store.View() == st && (err <==> end == Failed(m, n))
    {
      var e := c.log[m].event;
      HandlerOutcome(c, store.View(), m, n, f);
      var dup, claimErr := store.IsDuplicate(e.traceId, f.claim);
      if claimErr { return true; }
      if dup {
        assert store.marks == old(store.marks);
        return false;
      }
      assert HandlerRun(c, old(store.View()), Claiming(m, n), f) == HandlerRun(c, store.View(), Inserting(m, n), f);
      err := Process(c, m, n, f);
      if err {
        RunFromClearing(c, store.View(), m, n, f);
        var _ := store.ClearDedup(e.traceId, f.clear);
      }
    }

    /** Everything between the claim and the deferred compensation. */
    method Process(c: Config, m: nat, n: nat, f: HandleFaults) returns (err: bool)
      requires IsScan(c, m) && c.armed == armed
      modifies store
      ensures HandlerRun(c, old(store.View()), Inserting(m, n), f)
              == if err then HandlerRun(c, store.View(), Clearing(m, n), f)
                 else (store.View(), Settled(m, Handled))
    {
      var e := c.log[m].event;
      err := store.InsertScan(e, f.insert);
      if err { return; }
      ghost var stored := store.View();
      assert HandlerRun(c, old(store.View()), Inserting(m, n), f) == HandlerRun(c, stored, Aggregating(m, n), f);
      RunFromAggregating(c, stored, m, n, f);
      err := store.AddRideToUserSet(EntryOf(e), f.aggregate);
      if err && armed {
        err := store.InsertOutbox(e, f.park);
      }
    }

    /** Replay the oldest `batch` parked rows. */
    method DrainOutbox(batch: int, list: Outcome, script: nat -> ReplayFaults) returns (drained: nat, err: bool)
      modifies store
      ensures list != Done || batch < 0 ==> drained == 0 && err && store.View() == old(store.View())
      ensures list == Done && batch >= 0 ==>
                DrainRun(old(store.View()), Oldest(old(store.outbox), batch), script, 0, 0)
                == DrainEnd(store.View(), drained, err)
    {
      var listed, listErr := store.ListPendingOutbox(batch, list);
      if listErr { return 0, true; }
      drained, err := 0, false;
      var k := 0;
      while k < |listed|
        invariant 0 <= k <= |listed|
        invariant DrainRun(old(store.View()), listed, script, 0, 0)
                  == DrainRun(store.View(), listed[k..], script, k, drained)
      {
        var row := listed[k];
        assert listed[k..][0] == row && listed[k..][1..] == listed[k + 1..];
        var addErr := store.AddRideToUserSet(OutboxEntry(row), script(k).add);
        if addErr {
          store.BumpOutboxAttempts(row.traceId, script(k).bump);
        } else {
          var delErr := store.DeleteOutbox(row.traceId, script(k).delete);
          if delErr { return drained, true; }
          drained := drained + 1;
        }
        k := k + 1;
      }
    }
  }
}
