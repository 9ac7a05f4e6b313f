/** From the gate to the tables: the ride scans the gate publishes, carried by Kafka
    in any order and any number of times, through the ingestion protocol. */
module EndToEnd {
  import opened ScanStores
  import G = Gate
  import I = Ingestion
  import P = Provenance

  /** Every ride scan draws a trace id of its own. */
  predicate FreshTraces(calls: seq<G.Call>) {
    forall i, j :: 0 <= i < j < |calls| && calls[i].CallScan? && calls[j].CallScan? ==> calls[i].trace != calls[j].trace
  }

  predicate Draws(calls: seq<G.Call>, t: TraceId) {
    exists i :: 0 <= i < |calls| && calls[i].CallScan? && calls[i].trace == t
  }

  predicate TracesDiffer(es: seq<ScanEvent>) {
    forall i, j :: 0 <= i < j < |es| ==> es[i].traceId != es[j].traceId
  }

  /** Kafka's messages are published scans, or not scans at all. */
  ghost predicate Carries(log: seq<I.Payload>, published: seq<ScanEvent>) {
    forall m :: 0 <= m < |log| && log[m].Scan? ==> log[m].event in published
  }

  ghost predicate CarriesAll(log: seq<I.Payload>, published: seq<ScanEvent>) {
    Carries(log, published) && forall e :: e in published ==> I.Scan(e) in log
  }

  // ---- The gate publishes distinct traces ----

  /** A call publishes at most its own scan. */
  lemma CallPublishes(c: G.Config, s: G.State, call: G.Call)
    ensures var s' := G.Step(c, s, call);
            || s'.published == s.published
            || (call.CallScan? && |s'.published| == |s.published| + 1 && s'.published[..|s.published|] == s.published
                && s'.published[|s.published|].traceId == call.trace)
  {}

  lemma {:induction false} PublishedDiffer(c: G.Config, s: G.State, calls: seq<G.Call>)
    requires FreshTraces(calls) && TracesDiffer(s.published)
    requires forall e :: e in s.published ==> !Draws(calls, e.traceId)
    ensures TracesDiffer(G.Run(c, s, calls).published)
    decreases |calls|
  {
    if calls != [] {
      var s', rest := G.Step(c, s, calls[0]), calls[1..];
      CallPublishes(c, s, calls[0]);
      forall i, j | 0 <= i < j < |rest| && rest[i].CallScan? && rest[j].CallScan?
        ensures rest[i].trace != rest[j].trace
      {
        assert rest[i] == calls[i + 1] && rest[j] == calls[j + 1];
      }
      StillUndrawn(s.published, s'.published, calls);
      PublishedDiffer(c, s', rest);
    }
  }

  /** A trace drawn after the first call is drawn, and not by the first call. */
  lemma DrawnLater(calls: seq<G.Call>, t: TraceId)
    requires calls != [] && FreshTraces(calls)
    ensures Draws(calls[1..], t) ==> Draws(calls, t) && !(calls[0].CallScan? && calls[0].trace == t)
  {
    if Draws(calls[1..], t) {
      var i :| 0 <= i < |calls[1..]| && calls[1..][i].CallScan? && calls[1..][i].trace == t;
      assert calls[i + 1] == calls[1..][i];
    }
  }

  /** What the first call published is a trace no later call draws and no earlier one drew. */
  lemma StillUndrawn(before: seq<ScanEvent>, after: seq<ScanEvent>, calls: seq<G.Call>)
    requires calls != [] && FreshTraces(calls) && TracesDiffer(before)
    requires forall e :: e in before ==> !Draws(calls, e.traceId)
    requires after == before
             || (calls[0].CallScan? && |after| == |before| + 1 && after[..|before|] == before
                 && after[|before|].traceId == calls[0].trace)
    ensures TracesDiffer(after) && forall e :: e in after ==> !Draws(calls[1..], e.traceId)
  {
    forall e | e in after ensures !Draws(calls[1..], e.traceId) {
      DrawnLater(calls, e.traceId);
      var j :| 0 <= j < |after| && after[j] == e;
      if j < |before| { assert after[..|before|][j] == e && e in before; }
    }
    if after != before {
      assert Draws(calls, calls[0].trace);
      forall i | 0 <= i < |before| ensures after[i] == before[i] && before[i].traceId != calls[0].trace {
        assert after[..|before|][i] == before[i] && before[i] in before;
      }
    }
  }

  /** The traces of published scans are distinct, so they determine the ride of every
      message: the one assumption the protocol makes of its log. */
  lemma TracesDetermine(published: seq<ScanEvent>, log: seq<I.Payload>)
    requires TracesDiffer(published) && Carries(log, published)
    ensures I.TraceDeterminesRide(log)
  {
    forall i, j | 0 <= i < |log| && 0 <= j < |log| && log[i].Scan? && log[j].Scan?
                  && log[i].event.traceId == log[j].event.traceId
      ensures log[i].event == log[j].event
    {
      SameEvent(published, log[i].event, log[j].event);
    }
  }

  lemma SameEvent(published: seq<ScanEvent>, e: ScanEvent, g: ScanEvent)
    requires TracesDiffer(published) && e in published && g in published && e.traceId == g.traceId
    ensures e == g
  {
    var i :| 0 <= i < |published| && published[i] == e;
    var j :| 0 <= j < |published| && published[j] == g;
    assert i == j;
  }

  lemma LogDetermines(gc: G.Config, now: int, calls: seq<G.Call>, log: seq<I.Payload>)
    requires FreshTraces(calls) && Carries(log, G.Run(gc, G.Opening(now), calls).published)
    ensures TracesDiffer(G.Run(gc, G.Opening(now), calls).published) && I.TraceDeterminesRide(log)
  {
    PublishedDiffer(gc, G.Opening(now), calls);
    TracesDetermine(G.Run(gc, G.Opening(now), calls).published, log);
  }

  // ---- And through ingestion ----

  /** The scan is of a wristband bound by the ticket's owner, which passed the check
      and was neither reset, re-bound nor expired before it. */
  ghost predicate Earned(g: G.State, e: ScanEvent) { exists k :: P.Justified(g, e, k) }

  /** In every run of the gate and every fault-free interleaving of ingestion over what
      it published: no scan is lost, every live marker is justified, the daily sets
      hold only stored rides, and every stored row is an earned scan. */
  lemma EveryRowIsJustified(gc: G.Config, now: int, calls: seq<G.Call>, c: I.Config, workers: nat, drains: nat,
        acts: seq<I.Action>)
    requires FreshTraces(calls) && Carries(c.log, G.Run(gc, G.Opening(now), calls).published)
    requires I.ValidRun(c, I.Init(workers, drains), acts) && I.Faultless(c, I.Init(workers, drains), acts)
    ensures var g, s := G.Run(gc, G.Opening(now), calls), I.Exec(c, I.Init(workers, drains), acts);
            && I.NoSilentLoss(c, s) && I.MarkersSound(c, s) && I.SetsBacked(s)
            && forall t :: t in s.stores.rows ==> s.stores.rows[t].traceId == t && Earned(g, s.stores.rows[t])
  {
    var g, s := G.Run(gc, G.Opening(now), calls), I.Exec(c, I.Init(workers, drains), acts);
    LogDetermines(gc, now, calls, c.log);
    I.NoScanIsLost(c, workers, drains, acts);
    I.InitHolds(c, workers, drains);
    I.RunKeepsInv(c, I.Init(workers, drains), acts);
    forall t | t in s.stores.rows
      ensures s.stores.rows[t].traceId == t && Earned(g, s.stores.rows[t])
    {
      RowWasPublished(c, s, g.published, t);
      P.EveryScanIsJustified(gc, now, calls, s.stores.rows[t]);
    }
  }

  lemma RowWasPublished(c: I.Config, s: I.State, published: seq<ScanEvent>, t: TraceId)
    requires I.TablesOk(c, s) && Carries(c.log, published) && t in s.stores.rows
    ensures s.stores.rows[t].traceId == t && s.stores.rows[t] in published
  {
    assert I.Scan(s.stores.rows[t]) in c.log;
    var m :| 0 <= m < |c.log| && c.log[m] == I.Scan(s.stores.rows[t]);
    assert c.log[m].event in published;
  }

  /** And once everything published has been carried and nothing is left to do, the
      table holds exactly the published scans, field by field, and the daily sets
      exactly their rides. */
  lemma EveryScanArrives(gc: G.Config, now: int, calls: seq<G.Call>, c: I.Config, workers: nat, drains: nat,
        acts: seq<I.Action>)
    requires FreshTraces(calls) && CarriesAll(c.log, G.Run(gc, G.Opening(now), calls).published)
    requires I.ValidRun(c, I.Init(workers, drains), acts) && I.Faultless(c, I.Init(workers, drains), acts)
    requires I.Quiet(c, I.Exec(c, I.Init(workers, drains), acts))
    ensures var published := G.Run(gc, G.Opening(now), calls).published;
            var st := I.Exec(c, I.Init(workers, drains), acts).stores;
            && (forall e :: e in published ==> e.traceId in st.rows && st.rows[e.traceId] == e)
            && (forall t :: t in st.rows ==> st.rows[t] in published)
            && st.sets == set e | e in published :: EntryOf(e)
  {
    var published := G.Run(gc, G.Opening(now), calls).published;
    var s := I.Exec(c, I.Init(workers, drains), acts);
    LogDetermines(gc, now, calls, c.log);
    I.QuietAgrees(c, workers, drains, acts);
    I.InitHolds(c, workers, drains);
    I.RunKeepsInv(c, I.Init(workers, drains), acts);
    forall t | t in s.stores.rows ensures s.stores.rows[t].traceId == t && s.stores.rows[t] in published {
      RowWasPublished(c, s, published, t);
    }
    forall e | e in published ensures e.traceId in s.stores.rows && s.stores.rows[e.traceId] == e {
      var m :| 0 <= m < |c.log| && c.log[m] == I.Scan(e);
      assert I.IsScan(c, m) && I.TraceOf(c, m) == e.traceId;
      SameEvent(published, s.stores.rows[e.traceId], e);
    }
    RidesArePublished(s.stores.rows, published);
  }

  lemma RidesArePublished(rows: map<TraceId, ScanEvent>, published: seq<ScanEvent>)
    requires forall e :: e in published ==> e.traceId in rows && rows[e.traceId] == e
    requires forall t :: t in rows ==> rows[t] in published
    ensures Projection(rows) == set e | e in published :: EntryOf(e)
  {
    forall e | e in published ensures EntryOf(e) in Projection(rows) { assert EntryOf(rows[e.traceId]) == EntryOf(e); }
  }
}
