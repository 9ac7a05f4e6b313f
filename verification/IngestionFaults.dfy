/** Where the ingestion promise stops: each excluded fault loses a scan on its
    own, the one-ride-per-trace assumption is exactly what cache agreement
    needs, and only a commit can lose. */
module IngestionFaults {
  import opened Core
  import opened ScanStores
  import opened Ingestion

  /** The message comes back while its marker is still live: dropped and committed. */
  function Redeliver(m: nat): seq<Action> { [Fetch(0, m), Advance(0, Done), Advance(0, Done)] }

  const REDELIVER := Redeliver(0)

  lemma RedeliveryDrops(c: Config, s: State, m: nat)
    requires IsScan(c, m) && TraceOf(c, m) in s.stores.marks
    requires |s.workers| == 1 && s.workers[0].Idle? && m !in s.committed
    ensures ValidRun(c, s, Redeliver(m)) && FaultCount(c, s, Redeliver(m)) == 0
    ensures Exec(c, s, Redeliver(m)) == s.(committed := s.committed + {m})
  {
    var s1 := Apply(c, s, Fetch(0, m));
    var s2 := Apply(c, s1, Advance(0, Done));
    var s3 := Apply(c, s2, Advance(0, Done));
    assert s3.workers == s.workers;
    Prepend(c, s2, Advance(0, Done), []);
    Prepend(c, s1, Advance(0, Done), [Advance(0, Done)]);
    Prepend(c, s, Fetch(0, m), [Advance(0, Done), Advance(0, Done)]);
    assert [Fetch(0, m)] + [Advance(0, Done), Advance(0, Done)] == Redeliver(m);
    assert [Advance(0, Done)] + [Advance(0, Done)] == [Advance(0, Done), Advance(0, Done)];
    assert [Advance(0, Done)] + [] == [Advance(0, Done)];
  }

  function OneScan(e: ScanEvent, maxRetries: nat, armed: bool): Config { Config([Scan(e)], maxRetries, armed) }

  /** The single scan was committed away: not stored, not dead-lettered. */
  ghost predicate LosesTheScan(c: Config, workers: nat, acts: seq<Action>) {
    && ValidRun(c, Init(workers, 0), acts)
    && FaultCount(c, Init(workers, 0), acts) == 1
    && !NoSilentLoss(c, Exec(c, Init(workers, 0), acts))
  }

  /** Every stranded marker turns the next delivery of its message into a loss. */
  lemma StrandedIsLost(c: Config, s: State)
    requires |c.log| == 1 && IsScan(c, 0) && TraceOf(c, 0) in s.stores.marks
    requires |s.workers| == 1 && s.workers[0].Idle? && 0 !in s.committed
    requires s.stores.rows == map[] && s.dlq == {}
    ensures ValidRun(c, s, REDELIVER) && FaultCount(c, s, REDELIVER) == 0
    ensures !NoSilentLoss(c, Exec(c, s, REDELIVER))
  {
    RedeliveryDrops(c, s, 0);
    var s' := Exec(c, s, REDELIVER);
    assert IsScan(c, 0) && !Accounted(c, s', TraceOf(c, 0));
  }

  /** A process that dies between claim and return loses the scan. */
  lemma CrashLoses(e: ScanEvent, maxRetries: nat, armed: bool)
    ensures LosesTheScan(OneScan(e, maxRetries, armed), 1,
                         [Fetch(0, 0), Advance(0, Done), Stop(0)] + REDELIVER)
  {
    var c := OneScan(e, maxRetries, armed);
    var s0 := Init(1, 0);
    var s1 := Apply(c, s0, Fetch(0, 0));
    var s2 := Apply(c, s1, Advance(0, Done));
    var s3 := Apply(c, s2, Stop(0));
    StrandedIsLost(c, s3);
    Prepend(c, s2, Stop(0), REDELIVER);
    Prepend(c, s1, Advance(0, Done), [Stop(0)] + REDELIVER);
    Prepend(c, s0, Fetch(0, 0), [Advance(0, Done)] + ([Stop(0)] + REDELIVER));
    assert [Fetch(0, 0)] + ([Advance(0, Done)] + ([Stop(0)] + REDELIVER))
        == [Fetch(0, 0), Advance(0, Done), Stop(0)] + REDELIVER;
  }

  /** The insert fails, the clear fails, shutdown ends the retries, the message comes back. */
  const FAIL_TWICE := [Advance(0, FailedClean), Advance(0, FailedClean), Stop(0)] + REDELIVER

  lemma ClearFails(c: Config, s: State)
    requires |c.log| == 1 && IsScan(c, 0) && s.workers == [Inserting(0, 0)]
    requires TraceOf(c, 0) in s.stores.marks && s.stores.rows == map[] && s.dlq == {} && s.committed == {}
    ensures ValidRun(c, s, FAIL_TWICE) && FaultCount(c, s, FAIL_TWICE) == 1
    ensures !NoSilentLoss(c, Exec(c, s, FAIL_TWICE))
  {
    var s3 := Apply(c, s, Advance(0, FailedClean));
    var s4 := Apply(c, s3, Advance(0, FailedClean));
    StrandedIsLost(c, Apply(c, s4, Stop(0)));
    Prepend(c, s4, Stop(0), REDELIVER);
    var r4 := [Stop(0)] + REDELIVER;
    Prepend(c, s3, Advance(0, FailedClean), r4);
    var r3 := [Advance(0, FailedClean)] + r4;
    Prepend(c, s, Advance(0, FailedClean), r3);
    assert [Advance(0, FailedClean)] + r3 == FAIL_TWICE;
  }

  /** A compensation that cannot clear the marker loses the scan. */
  lemma FailedClearLoses(e: ScanEvent, maxRetries: nat, armed: bool)
    ensures LosesTheScan(OneScan(e, maxRetries, armed), 1, [Fetch(0, 0), Advance(0, Done)] + FAIL_TWICE)
  {
    var c := OneScan(e, maxRetries, armed);
    var s0 := Init(1, 0);
    var s1 := Apply(c, s0, Fetch(0, 0));
    var s2 := Apply(c, s1, Advance(0, Done));
    ClearFails(c, s2);
    Prepend(c, s1, Advance(0, Done), FAIL_TWICE);
    Prepend(c, s0, Fetch(0, 0), [Advance(0, Done)] + FAIL_TWICE);
    assert [Fetch(0, 0)] + ([Advance(0, Done)] + FAIL_TWICE) == [Fetch(0, 0), Advance(0, Done)] + FAIL_TWICE;
  }

  /** A claim whose reply is lost loses the scan: the handler returns before it
      has registered its compensation. */
  lemma LostClaimReplyLoses(e: ScanEvent, maxRetries: nat, armed: bool)
    ensures LosesTheScan(OneScan(e, maxRetries, armed), 1,
                         [Fetch(0, 0), Advance(0, FailedApplied), Stop(0)] + REDELIVER)
  {
    var c := OneScan(e, maxRetries, armed);
    var s0 := Init(1, 0);
    var s1 := Apply(c, s0, Fetch(0, 0));
    var s2 := Apply(c, s1, Advance(0, FailedApplied));
    var s3 := Apply(c, s2, Stop(0));
    StrandedIsLost(c, s3);
    Prepend(c, s2, Stop(0), REDELIVER);
    Prepend(c, s1, Advance(0, FailedApplied), [Stop(0)] + REDELIVER);
    Prepend(c, s0, Fetch(0, 0), [Advance(0, FailedApplied)] + ([Stop(0)] + REDELIVER));
    assert [Fetch(0, 0)] + ([Advance(0, FailedApplied)] + ([Stop(0)] + REDELIVER))
        == [Fetch(0, 0), Advance(0, FailedApplied), Stop(0)] + REDELIVER;
  }

  /** While worker 0 works on the message, worker 1 takes it too, drops it and commits it. */
  const SHARE := [Fetch(0, 0), Advance(0, Done)] + SHARER

  const SHARER := [Fetch(1, 0), Advance(1, Done), Advance(1, Done)]

  lemma SharerCommits(c: Config, s: State)
    requires |c.log| == 1 && IsScan(c, 0) && s.workers == [Inserting(0, 0), Idle]
    requires TraceOf(c, 0) in s.stores.marks && s.committed == {}
    ensures ValidRun(c, s, SHARER) && FaultCount(c, s, SHARER) == 1
    ensures Exec(c, s, SHARER) == s.(committed := {0})
  {
    assert Holds(s.workers[0], 0);
    var s3 := Apply(c, s, Fetch(1, 0));
    var s4 := Apply(c, s3, Advance(1, Done));
    var s5 := Apply(c, s4, Advance(1, Done));
    assert s5.workers == [Inserting(0, 0), Idle];
    assert s4.stores == s.stores;
    Prepend(c, s4, Advance(1, Done), []);
    var r4 := [Advance(1, Done)] + [];
    Prepend(c, s3, Advance(1, Done), r4);
    var r3 := [Advance(1, Done)] + r4;
    Prepend(c, s, Fetch(1, 0), r3);
    assert [Fetch(1, 0)] + r3 == SHARER;
  }

  lemma SharingCommits(e: ScanEvent, maxRetries: nat, armed: bool)
    ensures var c := OneScan(e, maxRetries, armed);
            && ValidRun(c, Init(2, 0), SHARE) && FaultCount(c, Init(2, 0), SHARE) == 1
            && Exec(c, Init(2, 0), SHARE)
               == State(EmptyStores.(marks := {e.traceId}), [Inserting(0, 0), Idle], [], {}, {0})
  {
    var c := OneScan(e, maxRetries, armed);
    var s0 := Init(2, 0);
    var s1 := Apply(c, s0, Fetch(0, 0));
    var s2 := Apply(c, s1, Advance(0, Done));
    assert s2.workers == [Inserting(0, 0), Idle];
    SharerCommits(c, s2);
    Prepend(c, s1, Advance(0, Done), SHARER);
    assert !Held(s0, 0);
    Prepend(c, s0, Fetch(0, 0), [Advance(0, Done)] + SHARER);
    assert [Fetch(0, 0)] + ([Advance(0, Done)] + SHARER) == SHARE;
  }

  /** The insert fails, the marker is cleared, and shutdown ends the retries. */
  const GIVE_UP := [Advance(0, FailedClean), Advance(0, Done), Stop(0)]

  lemma GivingUpLoses(c: Config, s: State)
    requires |c.log| == 1 && IsScan(c, 0) && |s.workers| == 2 && s.workers[0] == Inserting(0, 0)
    requires s.stores.rows == map[] && s.dlq == {} && s.committed == {0}
    ensures ValidRun(c, s, GIVE_UP) && FaultCount(c, s, GIVE_UP) == 0
    ensures !NoSilentLoss(c, Exec(c, s, GIVE_UP))
  {
    var s6 := Apply(c, s, Advance(0, FailedClean));
    var s7 := Apply(c, s6, Advance(0, Done));
    var s8 := Apply(c, s7, Stop(0));
    assert IsScan(c, 0) && !Accounted(c, s8, TraceOf(c, 0));
    Prepend(c, s7, Stop(0), []);
    var r7 := [Stop(0)] + [];
    Prepend(c, s6, Advance(0, Done), r7);
    var r6 := [Advance(0, Done)] + r7;
    Prepend(c, s, Advance(0, FailedClean), r6);
    assert [Advance(0, FailedClean)] + r6 == GIVE_UP;
  }

  /** A message held by two workers can be committed by the one that dropped it. */
  lemma SharedMessageLoses(e: ScanEvent, maxRetries: nat, armed: bool)
    ensures LosesTheScan(OneScan(e, maxRetries, armed), 2, SHARE + GIVE_UP)
  {
    var c := OneScan(e, maxRetries, armed);
    SharingCommits(e, maxRetries, armed);
    GivingUpLoses(c, Exec(c, Init(2, 0), SHARE));
    RunThen(c, Init(2, 0), SHARE, GIVE_UP);
  }

  // ---- Which traces the cache needs ----

  /** The message's row is stored, but its handler reports failure and shutdown ends the retries. */
  function StoreOnly(m: nat): seq<Action> {
    [Fetch(0, m), Advance(0, Done), Advance(0, FailedApplied), Advance(0, Done), Stop(0)]
  }

  /** The message is handled without a hitch. */
  function HandleWell(m: nat): seq<Action> {
    [Fetch(0, m), Advance(0, Done), Advance(0, Done), Advance(0, Done)]
  }

  lemma StoreOnlyStores(c: Config, m: nat)
    requires IsScan(c, m)
    ensures ValidRun(c, Init(1, 0), StoreOnly(m)) && FaultCount(c, Init(1, 0), StoreOnly(m)) == 0
    ensures Exec(c, Init(1, 0), StoreOnly(m))
            == Init(1, 0).(stores := EmptyStores.(rows := map[TraceOf(c, m) := c.log[m].event]))
  {
    var s0 := Init(1, 0);
    var s1 := Apply(c, s0, Fetch(0, m));
    var s2 := Apply(c, s1, Advance(0, Done));
    var s3 := Apply(c, s2, Advance(0, FailedApplied));
    var s4 := Apply(c, s3, Advance(0, Done));
    var s5 := Apply(c, s4, Stop(0));
    assert s5.workers == s0.workers;
    assert s5.stores == EmptyStores.(rows := map[TraceOf(c, m) := c.log[m].event]);
    Prepend(c, s4, Stop(0), []);
    var r4 := [Stop(0)] + [];
    Prepend(c, s3, Advance(0, Done), r4);
    var r3 := [Advance(0, Done)] + r4;
    Prepend(c, s2, Advance(0, FailedApplied), r3);
    var r2 := [Advance(0, FailedApplied)] + r3;
    Prepend(c, s1, Advance(0, Done), r2);
    var r1 := [Advance(0, Done)] + r2;
    Prepend(c, s0, Fetch(0, m), r1);
    assert [Fetch(0, m)] + r1 == StoreOnly(m);
  }

  lemma HandleWellCounts(c: Config, s: State, m: nat)
    requires IsScan(c, m) && m !in s.committed && s.workers == [Idle]
    requires TraceOf(c, m) in s.stores.rows && TraceOf(c, m) !in s.stores.marks
    ensures ValidRun(c, s, HandleWell(m)) && FaultCount(c, s, HandleWell(m)) == 0
    ensures var st := s.stores.(marks := s.stores.marks + {TraceOf(c, m)},
            sets := s.stores.sets + {EntryOf(c.log[m].event)});
            Exec(c, s, HandleWell(m)) == s.(stores := st, workers := [Settled(m, Handled)])
  {
    var s1 := Apply(c, s, Fetch(0, m));
    var s2 := Apply(c, s1, Advance(0, Done));
    var s3 := Apply(c, s2, Advance(0, Done));
    var s4 := Apply(c, s3, Advance(0, Done));
    assert s4.workers == [Settled(m, Handled)];
    Prepend(c, s3, Advance(0, Done), []);
    var r3 := [Advance(0, Done)] + [];
    Prepend(c, s2, Advance(0, Done), r3);
    var r2 := [Advance(0, Done)] + r3;
    Prepend(c, s1, Advance(0, Done), r2);
    var r1 := [Advance(0, Done)] + r2;
    Prepend(c, s, Fetch(0, m), r1);
    assert [Fetch(0, m)] + r1 == HandleWell(m);
  }

  /** Two messages of one trace with different rides: the first stores its row,
      the second counts its own ride, and no row backs it. */
  lemma ClashBreaks(c: Config, i: nat, j: nat)
    requires IsScan(c, i) && IsScan(c, j) && TraceOf(c, i) == TraceOf(c, j)
    requires EntryOf(c.log[i].event) != EntryOf(c.log[j].event)
    ensures var acts := StoreOnly(i) + HandleWell(j);
            && ValidRun(c, Init(1, 0), acts) && Faultless(c, Init(1, 0), acts)
            && !SetsBacked(Exec(c, Init(1, 0), acts))
  {
    StoreOnlyStores(c, i);
    HandleWellCounts(c, Exec(c, Init(1, 0), StoreOnly(i)), j);
    RunThen(c, Init(1, 0), StoreOnly(i), HandleWell(j));
    NoFaultsFaultless(c, Init(1, 0), StoreOnly(i) + HandleWell(j));
  }

  /** The cache holds only stored rides in every faultless run of every pool of
      workers. */
  ghost predicate AlwaysBacked(c: Config) {
    forall workers: nat, drains: nat, acts ::
      ValidRun(c, Init(workers, drains), acts) && Faultless(c, Init(workers, drains), acts)
      ==> SetsBacked(Exec(c, Init(workers, drains), acts))
  }

  /** That holds exactly of the logs whose traces determine their rides: real
      scans qualify, the load generator's reused trace ids do not. */
  lemma CacheAgreementExact(c: Config)
    ensures AlwaysBacked(c) <==> TraceDeterminesRide(c.log)
  {
    if TraceDeterminesRide(c.log) {
      forall workers: nat, drains: nat, acts |
        ValidRun(c, Init(workers, drains), acts) && Faultless(c, Init(workers, drains), acts)
        ensures SetsBacked(Exec(c, Init(workers, drains), acts))
      {
        NoScanIsLost(c, workers, drains, acts);
      }
    } else {
      var i, j :| 0 <= i < |c.log| && 0 <= j < |c.log| && c.log[i].Scan? && c.log[j].Scan?
        && c.log[i].event.traceId == c.log[j].event.traceId && EntryOf(c.log[i].event) != EntryOf(c.log[j].event);
      ClashBreaks(c, i, j);
    }
  }

  /** Shutdown before the commit leaves the handled message uncommitted. */
  lemma StopBeforeCommit(c: Config, s: State, m: nat)
    requires s.workers == [Settled(m, Handled)]
    ensures ValidRun(c, s, [Stop(0)]) && FaultCount(c, s, [Stop(0)]) == 0
    ensures Exec(c, s, [Stop(0)]) == s.(workers := [Idle])
  {
    Prepend(c, s, Stop(0), []);
    assert Apply(c, s, Stop(0)).workers == [Idle];
    assert [Stop(0)] + [] == [Stop(0)];
  }

  /** With a live marker every message of the trace, from `k` on, can be dropped and committed. */
  lemma {:induction false} DropAll(c: Config, s: State, t: TraceId, k: nat)
    returns (acts: seq<Action>, committed: set<nat>)
    requires s.workers == [Idle] && t in s.stores.marks && k <= |c.log|
    ensures ValidRun(c, s, acts) && FaultCount(c, s, acts) == 0 && Exec(c, s, acts) == s.(committed := committed)
    ensures forall m :: k <= m < |c.log| && IsScan(c, m) && TraceOf(c, m) == t ==> m in committed
    ensures s.committed <= committed
    decreases |c.log| - k
  {
    if k == |c.log| {
      acts, committed := [], s.committed;
    } else if IsScan(c, k) && TraceOf(c, k) == t && k !in s.committed {
      RedeliveryDrops(c, s, k);
      var s1 := s.(committed := s.committed + {k});
      var rest;
      rest, committed := DropAll(c, s1, t, k + 1);
      RunThen(c, s, Redeliver(k), rest);
      acts := Redeliver(k) + rest;
    } else {
      acts, committed := DropAll(c, s, t, k + 1);
    }
  }

  /** Two messages of one trace with different rides: the first stores its row, the
      second counts its own ride, and then all are dropped as duplicates. */
  lemma ClashLoses(c: Config, i: nat, j: nat) returns (acts: seq<Action>)
    requires IsScan(c, i) && IsScan(c, j) && TraceOf(c, i) == TraceOf(c, j)
    requires EntryOf(c.log[i].event) != EntryOf(c.log[j].event)
    ensures ValidRun(c, Init(1, 0), acts) && Faultless(c, Init(1, 0), acts)
    ensures !NoSilentLoss(c, Exec(c, Init(1, 0), acts))
  {
    var t := TraceOf(c, i);
    StoreOnlyStores(c, i);
    var s1 := Exec(c, Init(1, 0), StoreOnly(i));
    HandleWellCounts(c, s1, j);
    var s2 := Exec(c, s1, HandleWell(j));
    StopBeforeCommit(c, s2, j);
    var s3 := Exec(c, s2, [Stop(0)]);
    var rest, committed := DropAll(c, s3, t, 0);
    RunThen(c, s2, [Stop(0)], rest);
    RunThen(c, s1, HandleWell(j), [Stop(0)] + rest);
    RunThen(c, Init(1, 0), StoreOnly(i), HandleWell(j) + ([Stop(0)] + rest));
    acts := StoreOnly(i) + (HandleWell(j) + ([Stop(0)] + rest));
    NoFaultsFaultless(c, Init(1, 0), acts);
    var end := s3.(committed := committed);
    assert end.stores.sets == {EntryOf(c.log[j].event)} && end.stores.rows[t] == c.log[i].event;
    assert IsScan(c, i) && !Accounted(c, end, t);
  }

  ghost predicate NeverLoses(c: Config) {
    forall workers: nat, drains: nat, acts ::
      ValidRun(c, Init(workers, drains), acts) && Faultless(c, Init(workers, drains), acts)
      ==> NoSilentLoss(c, Exec(c, Init(workers, drains), acts))
  }

  /** Nor is a scan ever lost, without faults, exactly of those logs: with a clash,
      a stored row can end with its own ride counted nowhere. */
  lemma NoLossExact(c: Config)
    ensures NeverLoses(c) <==> TraceDeterminesRide(c.log)
  {
    if TraceDeterminesRide(c.log) {
      forall workers: nat, drains: nat, acts |
        ValidRun(c, Init(workers, drains), acts) && Faultless(c, Init(workers, drains), acts)
        ensures NoSilentLoss(c, Exec(c, Init(workers, drains), acts))
      {
        NoScanIsLost(c, workers, drains, acts);
      }
    } else {
      var i, j :| 0 <= i < |c.log| && 0 <= j < |c.log| && c.log[i].Scan? && c.log[j].Scan?
        && c.log[i].event.traceId == c.log[j].event.traceId && EntryOf(c.log[i].event) != EntryOf(c.log[j].event);
      var acts := ClashLoses(c, i, j);
    }
  }

  // ---- Which step loses ----

  /** Worker `w` commits the last chance of a trace nobody has processed or buried. */
  ghost predicate CommitsAway(c: Config, s: State, a: Action)
    requires Enabled(c, s, a)
  {
    a.Advance? && s.workers[a.w].Settled? && a.o.Applied() && IsScan(c, s.workers[a.w].m)
    && var t := TraceOf(c, s.workers[a.w].m);
       !Processed(s.stores, t) && !Dead(c, s, t)
       && forall m: nat :: IsScan(c, m) && TraceOf(c, m) == t && m != s.workers[a.w].m ==> m in s.committed
  }

  /** Only such a commit can lose a scan, and it always does. */
  lemma LossExact(c: Config, s: State, a: Action)
    requires TablesOk(c, s) && NoSilentLoss(c, s) && Enabled(c, s, a)
    ensures NoSilentLoss(c, Apply(c, s, a)) <==> !CommitsAway(c, s, a)
  {
    var s' := Apply(c, s, a);
    if CommitsAway(c, s, a) {
      assert IsScan(c, s.workers[a.w].m) && !Accounted(c, s', TraceOf(c, s.workers[a.w].m));
    } else {
      forall m | IsScan(c, m) ensures Accounted(c, s', TraceOf(c, m)) {
        AccountedStays(c, s, a, TraceOf(c, m));
      }
    }
  }

  lemma AccountedStays(c: Config, s: State, a: Action, t: TraceId)
    requires TablesOk(c, s) && Enabled(c, s, a) && Accounted(c, s, t) && !CommitsAway(c, s, a)
    ensures Accounted(c, Apply(c, s, a), t)
  {
    var s' := Apply(c, s, a);
    if Processed(s.stores, t) {
      ProcessedStays(c, s, a, t);
    } else if Dead(c, s, t) {
      var m :| m in s.dlq && IsScan(c, m) && TraceOf(c, m) == t;
      assert m in s'.dlq;
    } else {
      var m :| IsScan(c, m) && TraceOf(c, m) == t && m !in s.committed;
      if m in s'.committed {
        assert s.workers[a.w].m == m;
        var k: nat :| IsScan(c, k) && TraceOf(c, k) == t && k != m && k !in s.committed;
        assert k !in s'.committed;
      }
    }
  }
}
