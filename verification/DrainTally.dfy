/** What drain passes count and what they remove, over whole runs of the protocol:
    any number of drain workers, handlers parking rows between their calls. */
module DrainTally {
  import opened Core
  import opened ScanStores
  import opened Ingestion
  import opened Pipeline

  datatype What =
    | ParksRow     // a handler parks a row
    | RemovesRow    // a delete takes a row out
    | CountsRow    // a pass counts a row as drained
    | MissesRow     // a row is removed by a delete that reports failure
    | RepeatsRow   // a row is counted that another pass removed before

  /** The row a drain worker is about to delete. */
  predicate Deletes(s: State, a: Action) {
    a.DrainAdvance? && a.d < |s.drains| && s.drains[a.d].Unparking? && s.drains[a.d].rows != []
  }

  function Target(s: State, a: Action): TraceId
    requires Deletes(s, a)
  {
    s.drains[a.d].rows[0].traceId
  }

  predicate Does(c: Config, s: State, a: Action, what: What)
    requires Enabled(c, s, a)
  {
    match what
    case ParksRow =>
      && a.Advance? && s.workers[a.w].Parking? && a.o.Applied()
      && !Parked(s.stores.outbox, TraceOf(c, s.workers[a.w].m))
    case RemovesRow => Deletes(s, a) && a.o.Applied() && Parked(s.stores.outbox, Target(s, a))
    case CountsRow => Deletes(s, a) && a.o == Done
    case MissesRow => Deletes(s, a) && a.o == FailedApplied && Parked(s.stores.outbox, Target(s, a))
    case RepeatsRow => Deletes(s, a) && a.o == Done && !Parked(s.stores.outbox, Target(s, a))
  }

  /** How many steps of a run do that. */
  function Tally(c: Config, s: State, acts: seq<Action>, what: What): nat
    requires ValidRun(c, s, acts)
    decreases |acts|
  {
    if acts == [] then 0
    else (if Does(c, s, acts[0], what) then 1 else 0) + Tally(c, Apply(c, s, acts[0]), acts[1..], what)
  }

  // ---- Any number of drain workers ----

  /** A step changes the outbox's length by what it parks and removes. */
  lemma OutboxMoves(c: Config, s: State, a: Action)
    requires Enabled(c, s, a) && UniqueTraces(s.stores.outbox)
    ensures |Apply(c, s, a).stores.outbox| + (if Does(c, s, a, RemovesRow) then 1 else 0)
            == |s.stores.outbox| + (if Does(c, s, a, ParksRow) then 1 else 0)
  {
    if Deletes(s, a) {
      if Parked(s.stores.outbox, Target(s, a)) {
        WithoutOne(s.stores.outbox, Target(s, a));
      } else {
        WithoutStranger(s.stores.outbox, Target(s, a));
      }
    }
  }

  lemma {:induction false} RunBalances(c: Config, s: State, acts: seq<Action>)
    requires ValidRun(c, s, acts) && UniqueTraces(s.stores.outbox)
    ensures |Exec(c, s, acts).stores.outbox| + Tally(c, s, acts, RemovesRow)
            == |s.stores.outbox| + Tally(c, s, acts, ParksRow)
    ensures Tally(c, s, acts, CountsRow) + Tally(c, s, acts, MissesRow)
            == Tally(c, s, acts, RemovesRow) + Tally(c, s, acts, RepeatsRow)
    decreases |acts|
  {
    if acts != [] {
      OutboxMoves(c, s, acts[0]);
      OutboxStaysUnique(c, s, acts[0]);
      RunBalances(c, Apply(c, s, acts[0]), acts[1..]);
    }
  }

  /** Over every run of the protocol what was parked is still parked or was removed;
      and the passes together count what they removed exactly when as many rows
      were removed unreported as were counted twice. */
  lemma CountsBalance(c: Config, workers: nat, drains: nat, acts: seq<Action>)
    requires ValidRun(c, Init(workers, drains), acts)
    ensures var s := Init(workers, drains);
            && Tally(c, s, acts, ParksRow) == Tally(c, s, acts, RemovesRow) + |Exec(c, s, acts).stores.outbox|
            && (Tally(c, s, acts, CountsRow) == Tally(c, s, acts, RemovesRow)
                <==> Tally(c, s, acts, MissesRow) == Tally(c, s, acts, RepeatsRow))
  {
    RunBalances(c, Init(workers, drains), acts);
  }

  // ---- One drain worker ----

  /** The rows a lone drain worker has listed are parked until it deletes them. */
  ghost predicate StillListed(s: State) {
    && |s.drains| <= 1 && UniqueTraces(s.stores.outbox)
    && (|s.drains| == 1 && !s.drains[0].Resting? ==> Listed(s.stores.outbox, s.drains[0].rows))
  }

  lemma OldestListed(outbox: seq<OutboxRow>, n: nat)
    requires UniqueTraces(outbox) && n <= |outbox|
    ensures Listed(outbox, outbox[..n])
  {
    forall i, j | 0 <= i < j < |outbox[..n]| ensures Differ(outbox[..n], i, j) { assert Differ(outbox, i, j); }
    forall r | r in outbox[..n] ensures Parked(outbox, r.traceId) {
      var i :| 0 <= i < n && outbox[i] == r;
    }
  }

  /** ParksRow more rows keeps the listed ones parked. */
  lemma ParkKeepsListed(outbox: seq<OutboxRow>, row: OutboxRow, rows: seq<OutboxRow>)
    requires Listed(outbox, rows) && !Parked(outbox, row.traceId)
    ensures Listed(outbox + [row], rows)
  {
    ParkUnique(outbox, row);
    forall r | r in rows ensures Parked(outbox + [row], r.traceId) {
      var i :| 0 <= i < |outbox| && outbox[i].traceId == r.traceId;
      assert (outbox + [row])[i].traceId == r.traceId;
    }
  }

  /** The lone drain worker's own steps. */
  lemma DrainKeepsListed(c: Config, s: State, a: Action)
    requires StillListed(s) && Enabled(c, s, a) && a.DrainAdvance?
    ensures StillListed(Apply(c, s, a))
  {
    var rows := s.drains[a.d].rows;
    OutboxStaysUnique(c, s, a);
    if rows != [] {
      ListedRest(s.stores.outbox, rows, rows[0].traceId);
      ListedStays(s.stores.outbox, rows);
    }
  }

  lemma ListedSteps(c: Config, s: State, a: Action)
    requires StillListed(s) && Enabled(c, s, a)
    ensures StillListed(Apply(c, s, a))
  {
    var outbox := s.stores.outbox;
    match a {
      case DrainAdvance(_, _) => DrainKeepsListed(c, s, a);
      case DrainList(_, limit) => OldestListed(outbox, if limit < |outbox| then limit else |outbox|);
      case Advance(w, _) =>
        OutboxStaysUnique(c, s, a);
        if s.workers[w].Parking? && |s.drains| == 1 && !s.drains[0].Resting? {
          var row := RowFor(c.log[s.workers[w].m].event);
          if !Parked(outbox, row.traceId) { ParkKeepsListed(outbox, row, s.drains[0].rows); }
        }
      case _ =>
    }
  }

  lemma {:induction false} NothingRepeats(c: Config, s: State, acts: seq<Action>)
    requires ValidRun(c, s, acts) && StillListed(s)
    ensures Tally(c, s, acts, RepeatsRow) == 0
    decreases |acts|
  {
    if acts != [] {
      if Deletes(s, acts[0]) { assert s.drains[acts[0].d].rows[0] in s.drains[acts[0].d].rows; }
      ListedSteps(c, s, acts[0]);
      NothingRepeats(c, Apply(c, s, acts[0]), acts[1..]);
    }
  }

  /** With one drain worker, as one consumer process has, whatever the handlers do
      between its calls: the passes remove what they count plus the rows whose
      delete took effect but reported failure. */
  lemma OneDrainCounts(c: Config, workers: nat, acts: seq<Action>)
    requires ValidRun(c, Init(workers, 1), acts)
    ensures var s := Init(workers, 1);
            Tally(c, s, acts, RemovesRow) == Tally(c, s, acts, CountsRow) + Tally(c, s, acts, MissesRow)
  {
    RunBalances(c, Init(workers, 1), acts);
    NothingRepeats(c, Init(workers, 1), acts);
  }

  // ---- Two drain workers ----

  lemma First(c: Config, s: State, a: Action, rest: seq<Action>, what: What)
    requires Enabled(c, s, a) && ValidRun(c, Apply(c, s, a), rest)
    ensures ValidRun(c, s, [a] + rest) && Exec(c, s, [a] + rest) == Exec(c, Apply(c, s, a), rest)
    ensures Tally(c, s, [a] + rest, what)
            == (if Does(c, s, a, what) then 1 else 0) + Tally(c, Apply(c, s, a), rest, what)
  {
    assert ([a] + rest)[1..] == rest;
  }

  /** Only drain workers remove and count. */
  lemma {:induction false} OthersCountNothing(c: Config, s: State, acts: seq<Action>)
    requires ValidRun(c, s, acts) && forall a :: a in acts ==> !a.DrainAdvance?
    ensures Tally(c, s, acts, CountsRow) == Tally(c, s, acts, RemovesRow) == 0
    decreases |acts|
  {
    if acts != [] {
      assert acts[0] in acts;
      OthersCountNothing(c, Apply(c, s, acts[0]), acts[1..]);
    }
  }

  /** Both workers have replayed the one parked row and go on to delete it. */
  const DELETES := [DrainAdvance(0, Done), DrainAdvance(1, Done)]

  lemma BothCount(c: Config, s: State, row: OutboxRow)
    requires s.stores.outbox == [row] && s.drains == [Unparking([row]), Unparking([row])]
    ensures ValidRun(c, s, DELETES)
    ensures Tally(c, s, DELETES, CountsRow) == 2 && Tally(c, s, DELETES, RemovesRow) == 1
  {
    var a, b := DrainAdvance(0, Done), DrainAdvance(1, Done);
    assert s.stores.outbox[0].traceId == row.traceId;
    assert Without([row], row.traceId) == [];
    var s1 := Apply(c, s, a);
    assert s1.stores.outbox == [] && s1.drains[1] == Unparking([row]);
    forall what | what == CountsRow || what == RemovesRow
      ensures ValidRun(c, s, DELETES)
      ensures Tally(c, s, DELETES, what) == (if what == CountsRow then 2 else 1)
    {
      First(c, s1, b, [], what);
      First(c, s, a, [b] + [], what);
      assert [a] + ([b] + []) == DELETES;
    }
  }

  /** Both replay the one parked row they have listed. */
  const REPLAYS := [DrainAdvance(0, Done), DrainAdvance(1, Done)]

  lemma BothReplay(c: Config, s: State, row: OutboxRow)
    requires s.stores.outbox == [row] && s.drains == [Replaying([row]), Replaying([row])]
    ensures ValidRun(c, s, REPLAYS) && Tally(c, s, REPLAYS, CountsRow) == Tally(c, s, REPLAYS, RemovesRow) == 0
    ensures var s' := Exec(c, s, REPLAYS);
            s'.stores.outbox == [row] && s'.drains == [Unparking([row]), Unparking([row])]
  {
    var a, b := DrainAdvance(0, Done), DrainAdvance(1, Done);
    var s1 := Apply(c, s, a);
    assert s1.drains == [Unparking([row]), Replaying([row])];
    var s2 := Apply(c, s1, b);
    assert s2.drains == [Unparking([row]), Unparking([row])];
    forall what | what == CountsRow || what == RemovesRow
      ensures ValidRun(c, s, REPLAYS) && Exec(c, s, REPLAYS) == s2 && Tally(c, s, REPLAYS, what) == 0
    {
      First(c, s1, b, [], what);
      First(c, s, a, [b] + [], what);
      assert [a] + ([b] + []) == REPLAYS;
    }
  }

  const LISTS := [DrainList(0, 1), DrainList(1, 1)]

  lemma BothList(c: Config, s: State, row: OutboxRow)
    requires s.stores.outbox == [row] && s.drains == [Resting, Resting]
    ensures ValidRun(c, s, LISTS) && Tally(c, s, LISTS, CountsRow) == Tally(c, s, LISTS, RemovesRow) == 0
    ensures Exec(c, s, LISTS) == s.(drains := [Replaying([row]), Replaying([row])])
  {
    assert [row][..1] == [row];
    var s1 := Apply(c, s, DrainList(0, 1));
    assert s1.drains == [Replaying([row]), Resting];
    var s2 := Apply(c, s1, DrainList(1, 1));
    assert s2.drains == [Replaying([row]), Replaying([row])];
    Prepend(c, s1, DrainList(1, 1), []);
    Prepend(c, s, DrainList(0, 1), [DrainList(1, 1)] + []);
    assert [DrainList(0, 1)] + ([DrainList(1, 1)] + []) == LISTS;
    OthersCountNothing(c, s, LISTS);
  }

  /** The set add fails and the ride is parked. */
  const AFTER_INSERT := [Advance(0, FailedClean), Advance(0, Done)]

  lemma AddFails(c: Config, s: State)
    requires c.armed && IsScan(c, 0) && s.workers == [Aggregating(0, 0)] && s.stores.outbox == []
    ensures ValidRun(c, s, AFTER_INSERT)
    ensures var s' := Exec(c, s, AFTER_INSERT);
            s'.stores.outbox == [RowFor(c.log[0].event)] && s'.drains == s.drains
  {
    var s1 := Apply(c, s, Advance(0, FailedClean));
    assert s1.workers[0] == Parking(0, 0) && s1.stores.outbox == [];
    var s2 := Apply(c, s1, Advance(0, Done));
    Prepend(c, s1, Advance(0, Done), []);
    Prepend(c, s, Advance(0, FailedClean), [Advance(0, Done)] + []);
    assert [Advance(0, FailedClean)] + ([Advance(0, Done)] + []) == AFTER_INSERT;
  }

  const PARKS := [Fetch(0, 0), Advance(0, Done), Advance(0, Done)] + AFTER_INSERT

  lemma RideParked(c: Config)
    requires c.armed && |c.log| == 1 && IsScan(c, 0)
    ensures ValidRun(c, Init(1, 2), PARKS)
    ensures var s, s' := Init(1, 2), Exec(c, Init(1, 2), PARKS);
            && s'.stores.outbox == [RowFor(c.log[0].event)] && s'.drains == [Resting, Resting]
            && Tally(c, s, PARKS, CountsRow) == Tally(c, s, PARKS, RemovesRow) == 0
  {
    var s0 := Init(1, 2);
    var s1 := Apply(c, s0, Fetch(0, 0));
    var s2 := Apply(c, s1, Advance(0, Done));
    var s3 := Apply(c, s2, Advance(0, Done));
    assert s3.workers == [Aggregating(0, 0)];
    AddFails(c, s3);
    Prepend(c, s2, Advance(0, Done), AFTER_INSERT);
    Prepend(c, s1, Advance(0, Done), [Advance(0, Done)] + AFTER_INSERT);
    Prepend(c, s0, Fetch(0, 0), [Advance(0, Done)] + ([Advance(0, Done)] + AFTER_INSERT));
    assert [Fetch(0, 0)] + ([Advance(0, Done)] + ([Advance(0, Done)] + AFTER_INSERT)) == PARKS;
    OthersCountNothing(c, s0, PARKS);
  }

  lemma {:induction false} TallySplit(c: Config, s: State, first: seq<Action>, second: seq<Action>, what: What)
    requires ValidRun(c, s, first) && ValidRun(c, Exec(c, s, first), second)
    ensures ValidRun(c, s, first + second) && Exec(c, s, first + second) == Exec(c, Exec(c, s, first), second)
    ensures Tally(c, s, first + second, what)
            == Tally(c, s, first, what) + Tally(c, Exec(c, s, first), second, what)
    decreases |first|
  {
    if first == [] {
      assert first + second == second;
    } else {
      TallySplit(c, Apply(c, s, first[0]), first[1..], second, what);
      assert (first + second)[1..] == first[1..] + second && (first + second)[0] == first[0];
    }
  }

  /** With two drain workers, as two consumer processes have, the counts can exceed
      what was removed, without any failure in the drains: one row, counted twice. */
  lemma TwoDrainsRecount(c: Config)
    requires c.armed && |c.log| == 1 && IsScan(c, 0)
    ensures var s, acts := Init(1, 2), PARKS + LISTS + REPLAYS + DELETES;
            ValidRun(c, s, acts) && Tally(c, s, acts, CountsRow) == 2 && Tally(c, s, acts, RemovesRow) == 1
  {
    var s := Init(1, 2);
    var row := RowFor(c.log[0].event);
    RideParked(c);
    var s1 := Exec(c, s, PARKS);
    BothList(c, s1, row);
    var s2 := Exec(c, s1, LISTS);
    BothReplay(c, s2, row);
    BothCount(c, Exec(c, s2, REPLAYS), row);
    forall what | what == CountsRow || what == RemovesRow
      ensures var acts := PARKS + LISTS + REPLAYS + DELETES;
              ValidRun(c, s, acts) && Tally(c, s, acts, what) == if what == CountsRow then 2 else 1
    {
      TallySplit(c, s, PARKS, LISTS, what);
      TallySplit(c, s, PARKS + LISTS, REPLAYS, what);
      TallySplit(c, s, PARKS + LISTS + REPLAYS, DELETES, what);
    }
  }
}
