/** Passes of the day with failures: what they report and what that means. */
module DayOutcomes {
  import opened Core
  import opened Repository
  import opened Vouchers
  import opened DayResolution

  /** The visit of this participant ends the pass: the rides cannot be read, or a
      pending participant's ledger row cannot be written. */
  predicate VisitFails(p: Participant, rs: seq<Ridden>, f: DayFaults) {
    f.rides != Done || (rs != [] && ResolveMintWallet(p).pending && (f.get != Done || f.upsert != Done))
  }

  /** A visit that succeeds does what it does when every call is done. */
  lemma VisitExact(t: Tables, p: Participant, rs: seq<Ridden>, date: string, f: DayFaults)
    requires p.id in t.participants
    ensures (VisitOne(t, p, rs, date, f).1 == Fail <==> VisitFails(p, rs, f))
    ensures !VisitFails(p, rs, f) ==>
              VisitOne(t, p, rs, date, f) == VisitOne(t, p, rs, date, DayFaults(Done, Done, Done))
  {}

  predicate FailsAt(ps: seq<Participant>, rides: Attendance, script: nat -> DayFaults, k: nat, i: nat) {
    i < |ps| && VisitFails(ps[i], rides(ps[i].id), script(k + i))
  }

  ghost predicate SomeFails(ps: seq<Participant>, rides: Attendance, script: nat -> DayFaults, k: nat) {
    exists i: nat :: FailsAt(ps, rides, script, k, i)
  }

  lemma FailsAtNext(ps: seq<Participant>, rides: Attendance, script: nat -> DayFaults, k: nat, i: nat)
    requires ps != []
    ensures FailsAt(ps[1..], rides, script, k + 1, i) <==> FailsAt(ps, rides, script, k, i + 1)
  {
    assert k + 1 + i == k + (i + 1);
  }

  /** Some visit fails: the first or one of the rest. */
  lemma SomeFailsFirst(ps: seq<Participant>, rides: Attendance, script: nat -> DayFaults, k: nat)
    requires ps != []
    ensures SomeFails(ps, rides, script, k)
            <==> VisitFails(ps[0], rides(ps[0].id), script(k)) || SomeFails(ps[1..], rides, script, k + 1)
  {
    if VisitFails(ps[0], rides(ps[0].id), script(k)) { assert FailsAt(ps, rides, script, k, 0); }
    if i: nat :| FailsAt(ps, rides, script, k, i) {
      if i > 0 { FailsAtNext(ps, rides, script, k, i - 1); }
    }
    var rest, next := ps[1..], k + 1;
    if i: nat :| FailsAt(rest, rides, script, next, i) { FailsAtNext(ps, rides, script, k, i); }
  }

  /** A pass whose first visit succeeds goes on as a clean one would. */
  lemma PassNext(t: Tables, ps: seq<Participant>, rides: Attendance, date: string, script: nat -> DayFaults, k: nat,
        found: seq<Resolution>) returns (t1: Tables, found1: seq<Resolution>)
    requires Ordered(t, ps) && ps != [] && !VisitFails(ps[0], rides(ps[0].id), script(k))
    ensures Ordered(t1, ps[1..])
    ensures found1 == found + if rides(ps[0].id) == [] then [] else [ResolutionFor(ps[0], rides(ps[0].id))]
    ensures Day(t, ps, rides, date, script, k, found) == Day(t1, ps[1..], rides, date, script, k + 1, found1)
    ensures Day(t, ps, rides, date, ALL_WELL, k, found) == Day(t1, ps[1..], rides, date, ALL_WELL, k + 1, found1)
  {
    var rs := rides(ps[0].id);
    VisitExact(t, ps[0], rs, date, script(k));
    DayFirst(t, ps, rides, date, script, k, found);
    DayFirst(t, ps, rides, date, ALL_WELL, k, found);
    assert ALL_WELL(k) == DayFaults(Done, Done, Done);
    OrderedTail(t, ps);
    t1 := VisitOne(t, ps[0], rs, date, script(k)).0;
    found1 := if rs == [] then found else found + [ResolutionFor(ps[0], rs)];
  }

  /** A pass fails exactly when some visit does, and otherwise is a clean pass. */
  lemma {:induction false} PassExact(t: Tables, ps: seq<Participant>, rides: Attendance, date: string,
        script: nat -> DayFaults, k: nat, found: seq<Resolution>)
    requires Ordered(t, ps)
    ensures var end := Day(t, ps, rides, date, script, k, found);
            && (end.failed <==> SomeFails(ps, rides, script, k))
            && (!end.failed ==> end == Day(t, ps, rides, date, ALL_WELL, k, found))
    decreases |ps|
  {
    if ps != [] {
      SomeFailsFirst(ps, rides, script, k);
      if VisitFails(ps[0], rides(ps[0].id), script(k)) {
        VisitExact(t, ps[0], rides(ps[0].id), date, script(k));
        DayFirst(t, ps, rides, date, script, k, found);
      } else {
        var t1, found1 := PassNext(t, ps, rides, date, script, k, found);
        PassExact(t1, ps[1..], rides, date, script, k + 1, found1);
      }
    }
  }

  /** In every state the operations reach: a pass that reports no error has done the
      whole day, each participant who rode resolved once, pending with a ledger row or
      mint-ready with a wallet; and it reports an error exactly when some participant's
      rides could not be read or some pending one's row could not be written. */
  lemma DayReportsExact(ops: seq<Op>, rides: Attendance, date: string, script: nat -> DayFaults)
    ensures var t := Run(EmptyTables, ops);
            var end := ResolveDay(t, rides, date, script);
            && (!end.failed ==> DayDone(t, end, rides, date))
            && (end.failed <==> SomeFails(Listing(t, t.nextId), rides, script, 0))
  {
    var t := Run(EmptyTables, ops);
    RunKeepsRooted(EmptyTables, ops);
    RootedRows(t);
    ListingIsOrdered(t, t.nextId);
    DayIsComplete(ops, rides, date);
    PassExact(t, Listing(t, t.nextId), rides, date, script, 0, []);
  }

  lemma ResolutionsFirst(ps: seq<Participant>, rides: Attendance, i: nat)
    requires 0 < i <= |ps|
    ensures Resolutions(ps[..i], rides)
            == (if rides(ps[0].id) == [] then [] else [ResolutionFor(ps[0], rides(ps[0].id))])
               + Resolutions(ps[1..][..i - 1], rides)
  {
    assert ps[..i][0] == ps[0] && ps[..i][1..] == ps[1..][..i - 1];
  }

  /** The first visit fails: nothing more is resolved. */
  lemma FirstFails(t: Tables, ps: seq<Participant>, rides: Attendance, date: string, script: nat -> DayFaults, k: nat,
        found: seq<Resolution>)
    requires Ordered(t, ps) && FailsAt(ps, rides, script, k, 0)
    ensures Day(t, ps, rides, date, script, k, found).resolutions == found
  {
    VisitExact(t, ps[0], rides(ps[0].id), date, script(k));
    DayFirst(t, ps, rides, date, script, k, found);
  }

  lemma FirstFailureNext(ps: seq<Participant>, rides: Attendance, script: nat -> DayFaults, k: nat, i: nat)
    requires i > 0 && FailsAt(ps, rides, script, k, i)
    requires forall j: nat :: j < i ==> !FailsAt(ps, rides, script, k, j)
    ensures !VisitFails(ps[0], rides(ps[0].id), script(k))
    ensures var rest, next := ps[1..], k + 1;
            FailsAt(rest, rides, script, next, i - 1)
            && forall j: nat :: j < i - 1 ==> !FailsAt(rest, rides, script, next, j)
  {
    assert !FailsAt(ps, rides, script, k, 0);
    FailsAtNext(ps, rides, script, k, i - 1);
    var rest, next := ps[1..], k + 1;
    forall j: nat | j < i - 1 ensures !FailsAt(rest, rides, script, next, j) { FailsAtNext(ps, rides, script, k, j); }
  }

  /** And a failed pass has resolved exactly those before the first visit that fails. */
  lemma {:induction false} FailedPassStops(t: Tables, ps: seq<Participant>, rides: Attendance, date: string,
        script: nat -> DayFaults, k: nat, found: seq<Resolution>, i: nat)
    requires Ordered(t, ps) && FailsAt(ps, rides, script, k, i)
    requires forall j: nat :: j < i ==> !FailsAt(ps, rides, script, k, j)
    ensures Day(t, ps, rides, date, script, k, found).resolutions == found + Resolutions(ps[..i], rides)
    decreases |ps|
  {
    if i == 0 {
      FirstFails(t, ps, rides, date, script, k, found);
      assert found + Resolutions(ps[..0], rides) == found;
    } else {
      FirstFailureNext(ps, rides, script, k, i);
      var t1, found1 := PassNext(t, ps, rides, date, script, k, found);
      FailedPassStops(t1, ps[1..], rides, date, script, k + 1, found1, i - 1);
      ResolutionsFirst(ps, rides, i);
      Joined(found, found1[|found|..], Resolutions(ps[1..][..i - 1], rides));
    }
  }
}
