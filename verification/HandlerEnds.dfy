/** What one call of the scan handler leaves in each store, for every pattern of
    call outcomes. */
module HandlerEnds {
  import opened Core
  import opened ScanStores
  import opened Ingestion
  import opened Pipeline

  /** The handler holds the trace, has stored its row, has failed to add its ride. */
  predicate Holds(st: Stores, t: TraceId, f: HandleFaults) { f.claim == Done && t !in st.marks }

  predicate Stored(st: Stores, t: TraceId, f: HandleFaults) { Holds(st, t, f) && f.insert == Done }

  predicate Diverted(c: Config, st: Stores, t: TraceId, f: HandleFaults) {
    Stored(st, t, f) && f.aggregate != Done && c.armed
  }

  /** The row is written once and only by whoever holds the trace; the ride is added
      only after it, and parked only when it could not be added; the marker stays
      unless an error was compensated; other traces are untouched in every store. */
  lemma HandlerExact(c: Config, st: Stores, m: nat, n: nat, f: HandleFaults)
    requires IsScan(c, m)
    ensures var e, t := c.log[m].event, TraceOf(c, m);
            var (st', end) := HandlerRun(c, st, Claiming(m, n), f);
            && st'.rows == (if Holds(st, t, f) && f.insert.Applied() && t !in st.rows then st.rows[t := e] else st.rows)
            && st'.sets == (if Stored(st, t, f) && f.aggregate.Applied() then st.sets + {EntryOf(e)} else st.sets)
            && st'.outbox == (if Diverted(c, st, t, f) && f.park.Applied() && !Parked(st.outbox, t)
                              then st.outbox + [RowFor(e)] else st.outbox)
            && (forall u :: u != t ==> (u in st'.marks <==> u in st.marks))
            && (t in st'.marks <==>
                  t in st.marks || (f.claim.Applied() && !(f.claim == Done && end.Failed? && f.clear.Applied())))
  {
    var e := c.log[m].event;
    if Holds(st, e.traceId, f) {
      HeldExact(c, st, m, n, f);
    } else {
      var s1 := if f.claim.Applied() then Claim(st, e.traceId) else st;
      var end := if f.claim == Done then Settled(m, Duplicate) else Failed(m, n);
      assert HandlerRun(c, s1, end, f) == (s1, end);
    }
  }

  /** The same from the claim on. */
  lemma HeldExact(c: Config, st: Stores, m: nat, n: nat, f: HandleFaults)
    requires IsScan(c, m) && Holds(st, TraceOf(c, m), f)
    ensures var e := c.log[m].event;
            var s1 := Claim(st, e.traceId);
            var s2 := if f.insert.Applied() then InsertRow(s1, e) else s1;
            var s3 := if f.insert == Done && f.aggregate.Applied() then AddRide(s2, EntryOf(e)) else s2;
            var s4 := if Diverted(c, st, e.traceId, f) && f.park.Applied() then Park(s3, e) else s3;
            var ok := f.insert == Done && (f.aggregate == Done || (c.armed && f.park == Done));
            HandlerRun(c, st, Claiming(m, n), f)
            == if ok then (s4, Settled(m, Handled))
               else (if f.clear.Applied() then ClearMark(s4, e.traceId) else s4, Failed(m, n))
  {
    var e := c.log[m].event;
    var s1 := Claim(st, e.traceId);
    var s2 := if f.insert.Applied() then InsertRow(s1, e) else s1;
    var s3 := if f.insert == Done && f.aggregate.Applied() then AddRide(s2, EntryOf(e)) else s2;
    var s4 := if Diverted(c, st, e.traceId, f) && f.park.Applied() then Park(s3, e) else s3;
    assert HandlerRun(c, st, Claiming(m, n), f) == HandlerRun(c, s1, Inserting(m, n), f);
    RunFromClearing(c, s4, m, n, f);
    if f.insert == Done {
      assert HandlerRun(c, s1, Inserting(m, n), f) == HandlerRun(c, s2, Aggregating(m, n), f);
      RunFromAggregating(c, s2, m, n, f);
    } else {
      assert HandlerRun(c, s1, Inserting(m, n), f) == HandlerRun(c, s2, Clearing(m, n), f);
    }
  }
}
