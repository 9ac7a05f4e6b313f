/** What one drain pass leaves of every parked row and of the ride sets, whatever
    calls fail along the way. */
module DrainPass {
  import opened Core
  import opened ScanStores
  import opened Pipeline

  /** A row that ends the pass: its delete reports failure. */
  predicate Stops(f: ReplayFaults) { f.add == Done && f.delete != Done }

  /** The pass gets as far as its `i`-th row: none before it ends the pass. */
  predicate Reaches(script: nat -> ReplayFaults, k: nat, i: nat) {
    forall j :: k <= j < k + i ==> !Stops(script(j))
  }

  /** The stores after the turn of the first row. */
  function FirstTurn(st: Stores, row: OutboxRow, f: ReplayFaults): Stores {
    var st1 := if f.add.Applied() then AddRide(st, OutboxEntry(row)) else st;
    if f.add != Done then (if f.bump.Applied() then Bump(st1, row.traceId) else st1)
    else if f.delete.Applied() then Unpark(st1, row.traceId) else st1
  }

  lemma TurnThenRest(st: Stores, rows: seq<OutboxRow>, script: nat -> ReplayFaults, k: nat, drained: nat)
    requires rows != []
    ensures var f := script(k);
            var st2 := FirstTurn(st, rows[0], f);
            PlainDrain(st, rows, script, k, drained)
            == if Stops(f) then DrainEnd(st2, drained, true)
               else PlainDrain(st2, rows[1..], script, k + 1, if f.add == Done then drained + 1 else drained)
  {}

  lemma ReachesNext(script: nat -> ReplayFaults, k: nat, i: nat)
    ensures Reaches(script, k, i + 1) <==> !Stops(script(k)) && Reaches(script, k + 1, i)
  {}

  // ---- The outbox ----

  /** No row of the list is of this trace. */
  predicate Foreign(rows: seq<OutboxRow>, t: TraceId) { forall r :: r in rows ==> r.traceId != t }

  /** A turn leaves other traces' rows alone. */
  lemma TurnKeeps(st: Stores, row: OutboxRow, f: ReplayFaults, r: OutboxRow)
    requires r in st.outbox && r.traceId != row.traceId
    ensures r in FirstTurn(st, row, f).outbox
  {
    var i :| 0 <= i < |st.outbox| && st.outbox[i] == r;
    assert BumpRows(st.outbox, row.traceId)[i] == r;
  }

  /** What a turn does to the parked row of its own trace. */
  lemma TurnOwn(st: Stores, row: OutboxRow, f: ReplayFaults, r: OutboxRow)
    requires r in st.outbox && r.traceId == row.traceId
    ensures var after := FirstTurn(st, row, f).outbox;
            if f.add != Done then (if f.bump.Applied() then r.(attempts := r.attempts + 1) else r) in after
            else if f.delete.Applied() then !Parked(after, r.traceId) else r in after
  {
    var i :| 0 <= i < |st.outbox| && st.outbox[i] == r;
    assert BumpRows(st.outbox, row.traceId)[i] == r.(attempts := r.attempts + 1);
  }

  /** A parked row the pass has not listed is left as it is. */
  lemma {:induction false} ForeignStays(st: Stores, rows: seq<OutboxRow>, script: nat -> ReplayFaults, k: nat,
        drained: nat, r: OutboxRow)
    requires r in st.outbox && Foreign(rows, r.traceId)
    ensures r in PlainDrain(st, rows, script, k, drained).stores.outbox
    decreases |rows|
  {
    if rows != [] {
      var f := script(k);
      var st2 := FirstTurn(st, rows[0], f);
      assert rows[0] in rows;
      TurnThenRest(st, rows, script, k, drained);
      TurnKeeps(st, rows[0], f, r);
      forall x | x in rows[1..] ensures x.traceId != r.traceId { assert x in rows; }
      if !Stops(f) {
        ForeignStays(st2, rows[1..], script, k + 1, if f.add == Done then drained + 1 else drained, r);
      }
    }
  }

  /** A pass parks nothing. */
  lemma {:induction false} NothingParked(st: Stores, rows: seq<OutboxRow>, script: nat -> ReplayFaults, k: nat,
        drained: nat, t: TraceId)
    requires !Parked(st.outbox, t)
    ensures !Parked(PlainDrain(st, rows, script, k, drained).stores.outbox, t)
    decreases |rows|
  {
    if rows != [] {
      var f := script(k);
      var st2 := FirstTurn(st, rows[0], f);
      TurnThenRest(st, rows, script, k, drained);
      TurnParksNothing(st, rows[0], f, t);
      if !Stops(f) {
        NothingParked(st2, rows[1..], script, k + 1, if f.add == Done then drained + 1 else drained, t);
      }
    }
  }

  lemma TurnParksNothing(st: Stores, row: OutboxRow, f: ReplayFaults, t: TraceId)
    requires !Parked(st.outbox, t)
    ensures !Parked(FirstTurn(st, row, f).outbox, t)
  {
    forall i | 0 <= i < |FirstTurn(st, row, f).outbox| ensures FirstTurn(st, row, f).outbox[i].traceId != t {
      var r := FirstTurn(st, row, f).outbox[i];
      if f.add == Done && f.delete.Applied() {
        assert r in st.outbox;
      } else {
        assert st.outbox[i].traceId == r.traceId;
      }
    }
  }

  /** What is left of the `i`-th row a pass has listed: untouched if the pass does not
      get that far; counted as one more attempt if the ride could not be added; gone
      if it could and the delete took effect; untouched otherwise. */
  ghost predicate Fate(end: seq<OutboxRow>, r: OutboxRow, reached: bool, f: ReplayFaults) {
    if !reached then r in end
    else if f.add != Done then (if f.bump.Applied() then r.(attempts := r.attempts + 1) else r) in end
    else if f.delete.Applied() then !Parked(end, r.traceId) else r in end
  }

  lemma {:induction false} RowFate(st: Stores, rows: seq<OutboxRow>, script: nat -> ReplayFaults, k: nat, drained: nat,
        i: nat, r: OutboxRow)
    requires UniqueTraces(rows) && i < |rows| && r in st.outbox && r.traceId == rows[i].traceId
    ensures Fate(PlainDrain(st, rows, script, k, drained).stores.outbox, r, Reaches(script, k, i), script(k + i))
    decreases |rows|
  {
    var f := script(k);
    var st2 := FirstTurn(st, rows[0], f);
    TurnThenRest(st, rows, script, k, drained);
    TailUnique(rows, 1);
    var drained' := if f.add == Done then drained + 1 else drained;
    if i == 0 {
      OwnFate(st, rows, script, k, drained, r);
    } else {
      assert Differ(rows, 0, i);
      TurnKeeps(st, rows[0], f, r);
      ReachesNext(script, k, i - 1);
      if !Stops(f) {
        assert rows[1..][i - 1] == rows[i] && k + 1 + (i - 1) == k + i;
        RowFate(st2, rows[1..], script, k + 1, drained', i - 1, r);
      }
    }
  }

  lemma OwnFate(st: Stores, rows: seq<OutboxRow>, script: nat -> ReplayFaults, k: nat, drained: nat, r: OutboxRow)
    requires UniqueTraces(rows) && rows != [] && r in st.outbox && r.traceId == rows[0].traceId
    ensures Fate(PlainDrain(st, rows, script, k, drained).stores.outbox, r, true, script(k))
  {
    var f := script(k);
    var st2 := FirstTurn(st, rows[0], f);
    TurnThenRest(st, rows, script, k, drained);
    TurnOwn(st, rows[0], f, r);
    forall x | x in rows[1..] ensures x.traceId != r.traceId {
      var j :| 0 <= j < |rows[1..]| && rows[1..][j] == x;
      assert Differ(rows, 0, j + 1);
    }
    var drained' := if f.add == Done then drained + 1 else drained;
    if f.add != Done {
      ForeignStays(st2, rows[1..], script, k + 1, drained', if f.bump.Applied() then r.(attempts := r.attempts + 1)
          else r);
    } else if f.delete == Done {
      NothingParked(st2, rows[1..], script, k + 1, drained', r.traceId);
    }
  }

  // ---- The ride sets ----

  /** The pass adds this entry: some row it reaches is for it and its add takes effect. */
  ghost predicate Adds(rows: seq<OutboxRow>, script: nat -> ReplayFaults, k: nat, x: RideEntry) {
    exists i :: 0 <= i < |rows| && AddsAt(rows, script, k, i, x)
  }

  ghost predicate AddsAt(rows: seq<OutboxRow>, script: nat -> ReplayFaults, k: nat, i: nat, x: RideEntry)
    requires i < |rows|
  {
    OutboxEntry(rows[i]) == x && Reaches(script, k, i) && script(k + i).add.Applied()
  }

  lemma AddsFirst(rows: seq<OutboxRow>, script: nat -> ReplayFaults, k: nat, x: RideEntry)
    requires rows != []
    ensures var f := script(k);
            Adds(rows, script, k, x)
            <==> (f.add.Applied() && OutboxEntry(rows[0]) == x)
                 || (!Stops(f) && Adds(rows[1..], script, k + 1, x))
  {
    if Adds(rows, script, k, x) {
      var i :| 0 <= i < |rows| && AddsAt(rows, script, k, i, x);
      if i > 0 {
        ReachesNext(script, k, i - 1);
        assert rows[1..][i - 1] == rows[i] && k + 1 + (i - 1) == k + i;
        assert AddsAt(rows[1..], script, k + 1, i - 1, x);
      }
    }
    if script(k).add.Applied() && OutboxEntry(rows[0]) == x { assert AddsAt(rows, script, k, 0, x); }
    if !Stops(script(k)) && Adds(rows[1..], script, k + 1, x) {
      var i :| 0 <= i < |rows[1..]| && AddsAt(rows[1..], script, k + 1, i, x);
      ReachesNext(script, k, i);
      assert rows[1..][i] == rows[i + 1] && k + 1 + i == k + (i + 1);
      assert AddsAt(rows, script, k, i + 1, x);
    }
  }

  lemma {:induction false} PlainSets(st: Stores, rows: seq<OutboxRow>, script: nat -> ReplayFaults, k: nat,
        drained: nat, x: RideEntry)
    ensures var end := PlainDrain(st, rows, script, k, drained).stores;
            && (x in end.sets <==> x in st.sets || Adds(rows, script, k, x))
            && end.marks == st.marks && end.rows == st.rows
    decreases |rows|
  {
    if rows != [] {
      var f := script(k);
      var st2 := FirstTurn(st, rows[0], f);
      TurnThenRest(st, rows, script, k, drained);
      AddsFirst(rows, script, k, x);
      if !Stops(f) {
        PlainSets(st2, rows[1..], script, k + 1, if f.add == Done then drained + 1 else drained, x);
      }
    }
  }

  /** Everything a pass does: to each listed row its fate, to no other row anything, to
      the ride sets exactly the rides whose add took effect, and nothing else. */
  lemma PassExact(st: Stores, rows: seq<OutboxRow>, script: nat -> ReplayFaults, k: nat, drained: nat)
    requires Listed(st.outbox, rows)
    ensures var end := DrainRun(st, rows, script, k, drained).stores;
            && (forall i, r :: 0 <= i < |rows| && r in st.outbox && r.traceId == rows[i].traceId ==>
                  Fate(end.outbox, r, Reaches(script, k, i), script(k + i)))
            && (forall r :: r in st.outbox && Foreign(rows, r.traceId) ==> r in end.outbox)
            && (forall t :: Parked(end.outbox, t) ==> Parked(st.outbox, t))
            && (forall x :: x in end.sets <==> x in st.sets || Adds(rows, script, k, x))
            && end.marks == st.marks && end.rows == st.rows
  {
    DrainIsPlain(st, rows, script, k, drained);
    var end := PlainDrain(st, rows, script, k, drained).stores;
    forall i, r | 0 <= i < |rows| && r in st.outbox && r.traceId == rows[i].traceId
      ensures Fate(end.outbox, r, Reaches(script, k, i), script(k + i))
    {
      RowFate(st, rows, script, k, drained, i, r);
    }
    forall r | r in st.outbox && Foreign(rows, r.traceId) ensures r in end.outbox {
      ForeignStays(st, rows, script, k, drained, r);
    }
    forall t | !Parked(st.outbox, t) ensures !Parked(end.outbox, t) { NothingParked(st, rows, script, k, drained, t); }
    forall x ensures x in end.sets <==> x in st.sets || Adds(rows, script, k, x) {
      PlainSets(st, rows, script, k, drained, x);
    }
    PlainSets(st, rows, script, k, drained, RideEntry("", "", 0));
  }

  // ---- The answer of a pass ----

  /** Of the next `n` rows, those whose ride was added and whose delete reports success,
      up to the first that ends the pass. */
  function Deleted(n: nat, script: nat -> ReplayFaults, k: nat): nat {
    if n == 0 || Stops(script(k)) then 0
    else (if script(k).add == Done then 1 else 0) + Deleted(n - 1, script, k + 1)
  }

  lemma {:induction false} PlainAnswers(st: Stores, rows: seq<OutboxRow>, script: nat -> ReplayFaults, k: nat,
        drained: nat)
    ensures var end := PlainDrain(st, rows, script, k, drained);
            (end.failed <==> !Reaches(script, k, |rows|)) && end.drained == drained + Deleted(|rows|, script, k)
    decreases |rows|
  {
    if rows != [] {
      var f := script(k);
      TurnThenRest(st, rows, script, k, drained);
      ReachesNext(script, k, |rows| - 1);
      if !Stops(f) {
        PlainAnswers(FirstTurn(st, rows[0], f), rows[1..], script, k + 1,
            if f.add == Done then drained + 1 else drained);
      }
    }
  }

  /** A pass reports an error exactly when some row it reaches ends it; its count is
      the number of rows it deleted without error. */
  lemma PassAnswers(st: Stores, rows: seq<OutboxRow>, script: nat -> ReplayFaults, k: nat, drained: nat)
    ensures var end := DrainRun(st, rows, script, k, drained);
            (end.failed <==> !Reaches(script, k, |rows|)) && end.drained == drained + Deleted(|rows|, script, k)
  {
    DrainIsPlain(st, rows, script, k, drained);
    PlainAnswers(st, rows, script, k, drained);
  }
}
