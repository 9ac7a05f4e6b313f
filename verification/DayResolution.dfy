/** The end-of-day pass: resolve every participant who rode, and keep a durable
    ledger row for each one whose wallet is still unknown. */
module DayResolution {
  import opened Core
  import opened Repository
  import opened Vouchers
  import opened VoucherService

  /** One attendance row: a ride and when it was scanned. */
  datatype Ridden = Ridden(rideId: string, at: int)

  /** What scan_events holds per participant for the day. */
  type Attendance = nat -> seq<Ridden>

  datatype Resolution = Resolution(participantId: nat, rideIds: seq<string>, walletState: WalletState,
      walletAddress: string, pending: bool)

  /** How the outside calls for one participant will end. */
  datatype DayFaults = DayFaults(rides: Outcome, get: Outcome, upsert: Outcome)

  datatype DayEnd = DayEnd(tables: Tables, resolutions: seq<Resolution>, failed: bool)

  function RideIds(rs: seq<Ridden>): (ids: seq<string>)
    ensures |ids| == |rs| && forall i :: 0 <= i < |rs| ==> ids[i] == rs[i].rideId
  {
    if rs == [] then [] else [rs[0].rideId] + RideIds(rs[1..])
  }

  function ScanTimes(rs: seq<Ridden>): (ats: seq<int>)
    ensures |ats| == |rs| && forall i :: 0 <= i < |rs| ==> ats[i] == rs[i].at
  {
    if rs == [] then [] else [rs[0].at] + ScanTimes(rs[1..])
  }

  function ResolutionFor(p: Participant, rs: seq<Ridden>): Resolution {
    var res := ResolveMintWallet(p);
    Resolution(p.id, RideIds(rs), res.walletState, res.walletAddress, res.pending)
  }

  function LedgerRow(p: Participant, rs: seq<Ridden>): PendingMint {
    PendingMint(RideIds(rs), ScanTimes(rs), ResolveMintWallet(p).walletState)
  }

  // ---- The pass ----

  /** The participants still to visit, first to last; `k` counts those visited
      and `found` is what they resolved to. */
  ghost function Day(t: Tables, ps: seq<Participant>, rides: Attendance, date: string, script: nat -> DayFaults,
        k: nat, found: seq<Resolution>): DayEnd
    decreases |ps|
  {
    if ps == [] then DayEnd(t, found, false)
    else
      var (t1, visit) := VisitOne(t, ps[0], rides(ps[0].id), date, script(k));
      match visit
      case Skip => Day(t1, ps[1..], rides, date, script, k + 1, found)
      case Found => Day(t1, ps[1..], rides, date, script, k + 1, found + [ResolutionFor(ps[0], rides(ps[0].id))])
      case Fail => DayEnd(t1, found, true)
  }

  datatype Visit = Skip | Found | Fail

  /** One participant: nobody without rides is resolved; a pending one is
      written to the ledger first. */
  function VisitOne(t: Tables, p: Participant, rs: seq<Ridden>, date: string, f: DayFaults): (Tables, Visit) {
    if f.rides != Done then (t, Fail)
    else if rs == [] then (t, Skip)
    else if !ResolveMintWallet(p).pending then (t, Found)
    else if f.get != Done || p.id !in t.participants then (t, Fail)
    else
      (if f.upsert.Applied() then UpsertPending(t, PendingKey(p.id, date), LedgerRow(t.participants[p.id], rs)) else t,
       if f.upsert == Done then Found else Fail)
  }

  /** SELECT * FROM participants ORDER BY id: those below `n`. */
  function Listing(t: Tables, n: nat): seq<Participant> {
    if n == 0 then []
    else Listing(t, n - 1) + if n - 1 in t.participants then [t.participants[n - 1]] else []
  }

  ghost function ResolveDay(t: Tables, rides: Attendance, date: string, script: nat -> DayFaults): DayEnd {
    Day(t, Listing(t, t.nextId), rides, date, script, 0, [])
  }

  const ALL_WELL: nat -> DayFaults := _ => DayFaults(Done, Done, Done)

  // ---- What a listing is ----

  /** Rows as stored, in strictly increasing id order. */
  ghost predicate Ordered(t: Tables, ps: seq<Participant>) {
    && (forall id :: id in t.participants ==> t.participants[id].id == id)
    && (forall i :: 0 <= i < |ps| ==> ps[i].id in t.participants && t.participants[ps[i].id] == ps[i])
    && (forall i, j :: 0 <= i < j < |ps| ==> ps[i].id < ps[j].id)
  }

  lemma OrderedTail(t: Tables, ps: seq<Participant>)
    requires Ordered(t, ps) && ps != []
    ensures Ordered(t, ps[1..]) && forall i :: 0 <= i < |ps[1..]| ==> ps[0].id < ps[1..][i].id
  {
    forall i, j | 0 <= i < j < |ps[1..]| ensures ps[1..][i].id < ps[1..][j].id { assert ps[i + 1].id < ps[j + 1].id; }
  }

  /** Rows carry their own ids, and a custodial wallet has an address. */
  ghost predicate RowsOk(t: Tables) {
    && (forall id :: id in t.participants ==> t.participants[id].id == id < t.nextId)
    && (forall id :: id in t.participants && t.participants[id].walletState == CUSTODIAL_PROXY ==>
          t.participants[id].walletAddress.Some? && t.participants[id].walletAddress.value != "")
  }

  lemma RootedRows(t: Tables)
    requires Rooted(t)
    ensures RowsOk(t)
  {
    forall id | id in t.participants
      ensures t.participants[id].id == id < t.nextId
      ensures t.participants[id].walletState == CUSTODIAL_PROXY ==>
                t.participants[id].walletAddress.Some? && t.participants[id].walletAddress.value != ""
    {
      assert ParticipantOk(t, id);
    }
  }

  lemma {:induction false} ListingIsOrdered(t: Tables, n: nat)
    requires RowsOk(t)
    ensures Ordered(t, Listing(t, n))
    ensures forall i :: 0 <= i < |Listing(t, n)| ==> Listing(t, n)[i].id < n
  {
    if n > 0 { ListingIsOrdered(t, n - 1); }
  }

  lemma {:induction false} ListingIsComplete(t: Tables, n: nat, id: nat)
    requires id in t.participants && id < n
    ensures t.participants[id] in Listing(t, n)
  {
    if id < n - 1 { ListingIsComplete(t, n - 1, id); }
  }

  lemma {:induction false} SameListing(t: Tables, t1: Tables, n: nat)
    requires t.participants == t1.participants
    ensures Listing(t, n) == Listing(t1, n)
  {
    if n > 0 { SameListing(t, t1, n - 1); }
  }

  // ---- What a pass owes ----

  /** The resolutions a pass owes: in listing order, those who rode. */
  ghost function Resolutions(ps: seq<Participant>, rides: Attendance): seq<Resolution>
    decreases |ps|
  {
    if ps == [] then []
    else (if rides(ps[0].id) == [] then [] else [ResolutionFor(ps[0], rides(ps[0].id))]) + Resolutions(ps[1..], rides)
  }

  /** The ledger rows a pass owes: those who rode and have no wallet yet. */
  ghost predicate Owes(t: Tables, ps: seq<Participant>, rides: Attendance, date: string, key: PendingKey) {
    && key.date == date && key.participantId in t.participants && t.participants[key.participantId] in ps
    && rides(key.participantId) != [] && ResolveMintWallet(t.participants[key.participantId]).pending
  }

  /** `t1` is `t` with some owed rows written, each as owed, and nothing else changed. */
  ghost predicate WritesSome(t: Tables, t1: Tables, ps: seq<Participant>, rides: Attendance, date: string) {
    && t1 == t.(pendings := t1.pendings)
    && (forall key :: key in t.pendings ==> key in t1.pendings)
    && (forall key :: key in t1.pendings ==> UntouchedOrOwed(t, t1, ps, rides, date, key))
  }

  ghost predicate UntouchedOrOwed(t: Tables, t1: Tables, ps: seq<Participant>, rides: Attendance, date: string,
        key: PendingKey)
    requires key in t1.pendings
  {
    || (key in t.pendings && t1.pendings[key] == t.pendings[key])
    || (Owes(t, ps, rides, date, key)
       && t1.pendings[key] == LedgerRow(t.participants[key.participantId], rides(key.participantId)))
  }

  /** `t1` holds every owed row as owed. */
  ghost predicate WritesAll(t: Tables, t1: Tables, ps: seq<Participant>, rides: Attendance, date: string) {
    forall key :: Owes(t, ps, rides, date, key) ==>
      key in t1.pendings && t1.pendings[key] == LedgerRow(t.participants[key.participantId], rides(key.participantId))
  }

  lemma OwesTail(t: Tables, ps: seq<Participant>, rides: Attendance, date: string, key: PendingKey)
    requires Ordered(t, ps) && ps != []
    ensures Owes(t, ps, rides, date, key) <==>
              Owes(t, ps[1..], rides, date, key)
              || (key == PendingKey(ps[0].id, date) && rides(ps[0].id) != [] && ResolveMintWallet(ps[0]).pending)
  {
    assert ps == [ps[0]] + ps[1..];
    assert ps[0] in ps && t.participants[ps[0].id] == ps[0];
    if key.participantId in t.participants && t.participants[key.participantId] in ps {
      var i :| 0 <= i < |ps| && ps[i] == t.participants[key.participantId];
      assert ps[i].id in t.participants;
    }
  }

  /** Visiting one participant writes at most the row it owes. */
  lemma VisitWrites(t: Tables, ps: seq<Participant>, rides: Attendance, date: string, f: DayFaults)
    requires Ordered(t, ps) && ps != []
    ensures WritesSome(t, VisitOne(t, ps[0], rides(ps[0].id), date, f).0, ps, rides, date)
  {
    OwesTail(t, ps, rides, date, PendingKey(ps[0].id, date));
  }

  lemma WritesCompose(t: Tables, t1: Tables, t2: Tables, ps: seq<Participant>, rides: Attendance, date: string)
    requires Ordered(t, ps) && ps != []
    requires WritesSome(t, t1, ps, rides, date) && WritesSome(t1, t2, ps[1..], rides, date)
    ensures WritesSome(t, t2, ps, rides, date)
  {
    forall key | key in t2.pendings ensures UntouchedOrOwed(t, t2, ps, rides, date, key) {
      OwesTail(t, ps, rides, date, key);
      assert UntouchedOrOwed(t1, t2, ps[1..], rides, date, key);
      if key in t1.pendings { assert UntouchedOrOwed(t, t1, ps, rides, date, key); }
    }
  }

  /** Every pass, even one that fails half way, writes owed rows and nothing else. */
  lemma {:induction false} DayWritesOwed(t: Tables, ps: seq<Participant>, rides: Attendance, date: string,
        script: nat -> DayFaults, k: nat, found: seq<Resolution>)
    requires Ordered(t, ps)
    ensures WritesSome(t, Day(t, ps, rides, date, script, k, found).tables, ps, rides, date)
    decreases |ps|
  {
    if ps != [] {
      VisitWrites(t, ps, rides, date, script(k));
      var (t1, visit) := VisitOne(t, ps[0], rides(ps[0].id), date, script(k));
      if visit != Fail {
        OrderedTail(t, ps);
        var found1 := if visit == Skip then found else found + [ResolutionFor(ps[0], rides(ps[0].id))];
        DayWritesOwed(t1, ps[1..], rides, date, script, k + 1, found1);
        WritesCompose(t, t1, Day(t1, ps[1..], rides, date, script, k + 1, found1).tables, ps, rides, date);
      }
    }
  }

  /** The first participant of a pass. */
  lemma DayFirst(t: Tables, ps: seq<Participant>, rides: Attendance, date: string, script: nat -> DayFaults, k: nat,
        found: seq<Resolution>)
    requires ps != []
    ensures var (t1, visit) := VisitOne(t, ps[0], rides(ps[0].id), date, script(k));
            var res := ResolutionFor(ps[0], rides(ps[0].id));
            Day(t, ps, rides, date, script, k, found)
            == if visit == Fail then DayEnd(t1, found, true)
               else Day(t1, ps[1..], rides, date, script, k + 1, if visit == Skip then found else found + [res])
    ensures var visit := VisitOne(t, ps[0], rides(ps[0].id), date, script(k)).1;
            visit != Fail ==> (visit == Skip <==> rides(ps[0].id) == [])
  {}

  lemma CleanStep(t: Tables, ps: seq<Participant>, rides: Attendance, date: string, k: nat, found: seq<Resolution>)
    requires Ordered(t, ps) && ps != []
    ensures var rs := rides(ps[0].id);
            var t1 := VisitOne(t, ps[0], rs, date, DayFaults(Done, Done, Done)).0;
            Day(t, ps, rides, date, ALL_WELL, k, found)
            == Day(t1, ps[1..], rides, date, ALL_WELL, k + 1,
                if rs == [] then found else found + [ResolutionFor(ps[0], rs)])
  {
    assert ALL_WELL(k) == DayFaults(Done, Done, Done);
  }

  lemma Joined(found: seq<Resolution>, one: seq<Resolution>, rest: seq<Resolution>)
    ensures found + one + rest == found + (one + rest)
  {}

  lemma ResolutionsUnfold(ps: seq<Participant>, rides: Attendance)
    requires ps != []
    ensures var rs := rides(ps[0].id);
            Resolutions(ps, rides)
            == (if rs == [] then [] else [ResolutionFor(ps[0], rs)]) + Resolutions(ps[1..], rides)
  {}

  /** A pass without failures finds every owed resolution. */
  lemma {:induction false} CleanFinds(t: Tables, ps: seq<Participant>, rides: Attendance, date: string, k: nat,
        found: seq<Resolution>)
    requires Ordered(t, ps)
    ensures var end := Day(t, ps, rides, date, ALL_WELL, k, found);
            !end.failed && end.resolutions == found + Resolutions(ps, rides)
    decreases |ps|
  {
    if ps == [] {
      assert found + [] == found;
    } else {
      var rs := rides(ps[0].id);
      var t1 := VisitOne(t, ps[0], rs, date, DayFaults(Done, Done, Done)).0;
      var one := if rs == [] then [] else [ResolutionFor(ps[0], rs)];
      var found1 := if rs == [] then found else found + one;
      assert found1 == found + one;
      CleanStep(t, ps, rides, date, k, found);
      OrderedTail(t, ps);
      CleanFinds(t1, ps[1..], rides, date, k + 1, found1);
      ResolutionsUnfold(ps, rides);
      Joined(found, one, Resolutions(ps[1..], rides));
    }
  }

  /** And writes every owed row. */
  lemma {:induction false} CleanWrites(t: Tables, ps: seq<Participant>, rides: Attendance, date: string, k: nat,
        found: seq<Resolution>)
    requires Ordered(t, ps)
    ensures WritesAll(t, Day(t, ps, rides, date, ALL_WELL, k, found).tables, ps, rides, date)
    decreases |ps|
  {
    if ps != [] {
      var rs := rides(ps[0].id);
      var t1 := VisitOne(t, ps[0], rs, date, DayFaults(Done, Done, Done)).0;
      var found1 := if rs == [] then found else found + [ResolutionFor(ps[0], rs)];
      CleanStep(t, ps, rides, date, k, found);
      OrderedTail(t, ps);
      CleanWrites(t1, ps[1..], rides, date, k + 1, found1);
      DayWritesOwed(t1, ps[1..], rides, date, ALL_WELL, k + 1, found1);
      CleanRow(t, t1, Day(t1, ps[1..], rides, date, ALL_WELL, k + 1, found1).tables, ps, rides, date);
    }
  }

  /** So it does all the day owes and nothing else. */
  lemma CleanDay(t: Tables, ps: seq<Participant>, rides: Attendance, date: string, k: nat, found: seq<Resolution>)
    requires Ordered(t, ps)
    ensures var end := Day(t, ps, rides, date, ALL_WELL, k, found);
            && !end.failed && end.resolutions == found + Resolutions(ps, rides)
            && WritesSome(t, end.tables, ps, rides, date) && WritesAll(t, end.tables, ps, rides, date)
  {
    DayWritesOwed(t, ps, rides, date, ALL_WELL, k, found);
    CleanFinds(t, ps, rides, date, k, found);
    CleanWrites(t, ps, rides, date, k, found);
  }

  /** The first participant's row survives the rest of the pass. */
  lemma CleanRow(t: Tables, t1: Tables, t2: Tables, ps: seq<Participant>, rides: Attendance, date: string)
    requires Ordered(t, ps) && ps != []
    requires t1 == VisitOne(t, ps[0], rides(ps[0].id), date, DayFaults(Done, Done, Done)).0
    requires WritesSome(t1, t2, ps[1..], rides, date) && WritesAll(t1, t2, ps[1..], rides, date)
    ensures WritesAll(t, t2, ps, rides, date)
  {
    forall key | Owes(t, ps, rides, date, key)
      ensures key in t2.pendings
              && t2.pendings[key] == LedgerRow(t.participants[key.participantId], rides(key.participantId))
    {
      OwesTail(t, ps, rides, date, key);
      if Owes(t, ps[1..], rides, date, key) {
        assert Owes(t1, ps[1..], rides, date, key);
      } else {
        assert key in t1.pendings;
        assert UntouchedOrOwed(t1, t2, ps[1..], rides, date, key);
      }
    }
  }

  /** Owed resolutions are of listed participants who rode. */
  lemma {:induction false} ResolutionsSound(t: Tables, ps: seq<Participant>, rides: Attendance, r: Resolution)
    requires Ordered(t, ps) && r in Resolutions(ps, rides)
    ensures exists i ::
              0 <= i < |ps| && ps[i].id == r.participantId && rides(ps[i].id) != []
              && r == ResolutionFor(ps[i], rides(ps[i].id))
    decreases |ps|
  {
    if rides(ps[0].id) != [] && r == ResolutionFor(ps[0], rides(ps[0].id)) {
      assert ps[0].id == r.participantId;
    } else {
      OrderedTail(t, ps);
      ResolutionsSound(t, ps[1..], rides, r);
      var i :| 0 <= i < |ps[1..]| && ps[1..][i].id == r.participantId && rides(ps[1..][i].id) != []
               && r == ResolutionFor(ps[1..][i], rides(ps[1..][i].id));
      assert ps[i + 1] == ps[1..][i];
    }
  }

  /** Every listed participant who rode is owed a resolution. */
  lemma {:induction false} ResolutionsComplete(ps: seq<Participant>, rides: Attendance, p: Participant)
    requires p in ps && rides(p.id) != []
    ensures ResolutionFor(p, rides(p.id)) in Resolutions(ps, rides)
    decreases |ps|
  {
    assert ps == [ps[0]] + ps[1..];
    if p != ps[0] { ResolutionsComplete(ps[1..], rides, p); }
  }

  /** And only one. */
  lemma {:induction false} ResolutionsIncrease(t: Tables, ps: seq<Participant>, rides: Attendance)
    requires Ordered(t, ps)
    ensures forall i, j :: 0 <= i < j < |Resolutions(ps, rides)| ==>
              Resolutions(ps, rides)[i].participantId < Resolutions(ps, rides)[j].participantId
    decreases |ps|
  {
    if ps != [] {
      OrderedTail(t, ps);
      var rest := Resolutions(ps[1..], rides);
      ResolutionsIncrease(t, ps[1..], rides);
      forall j | 0 <= j < |rest| ensures ps[0].id < rest[j].participantId {
        ResolutionsSound(t, ps[1..], rides, rest[j]);
      }
    }
  }

  // ---- The promises ----

  /** Everyone who rode is resolved exactly once, and nobody else is. */
  ghost predicate Partitions(t: Tables, rides: Attendance, rs: seq<Resolution>) {
    && (forall id :: id in t.participants && rides(id) != [] ==> ResolutionFor(t.participants[id], rides(id)) in rs)
    && (forall r :: r in rs ==> r.participantId in t.participants && rides(r.participantId) != [])
    && (forall i, j :: 0 <= i < j < |rs| ==> rs[i].participantId < rs[j].participantId)
  }

  /** A pending resolution has a ledger row of exactly its rides; a mint-ready one has a wallet. */
  ghost predicate Backed(t: Tables, rides: Attendance, date: string, r: Resolution) {
    if r.pending then
      var key := PendingKey(r.participantId, date);
      key in t.pendings && t.pendings[key] == PendingMint(r.rideIds, ScanTimes(rides(r.participantId)), r.walletState)
    else r.walletAddress != ""
  }

  /** What a clean pass leaves behind. */
  ghost predicate DayDone(t: Tables, end: DayEnd, rides: Attendance, date: string) {
    && !end.failed
    && Partitions(t, rides, end.resolutions)
    && (forall r :: r in end.resolutions ==> Backed(end.tables, rides, date, r))
    && WritesSome(t, end.tables, Listing(t, t.nextId), rides, date)
  }

  lemma ResolutionsPartition(t: Tables, rides: Attendance)
    requires RowsOk(t)
    ensures Partitions(t, rides, Resolutions(Listing(t, t.nextId), rides))
  {
    var ps := Listing(t, t.nextId);
    var rs := Resolutions(ps, rides);
    ListingIsOrdered(t, t.nextId);
    ResolutionsIncrease(t, ps, rides);
    forall id | id in t.participants && rides(id) != [] ensures ResolutionFor(t.participants[id], rides(id)) in rs {
      ListingIsComplete(t, t.nextId, id);
      ResolutionsComplete(ps, rides, t.participants[id]);
    }
    forall r | r in rs ensures r.participantId in t.participants && rides(r.participantId) != [] {
      ResolutionsSound(t, ps, rides, r);
    }
  }

  /** Once every owed row is written, each owed resolution has what it needs. */
  lemma ResolutionIsBacked(t: Tables, t': Tables, rides: Attendance, date: string, r: Resolution)
    requires RowsOk(t) && Ordered(t, Listing(t, t.nextId)) && r in Resolutions(Listing(t, t.nextId), rides)
    requires WritesAll(t, t', Listing(t, t.nextId), rides, date)
    ensures Backed(t', rides, date, r)
  {
    var ps := Listing(t, t.nextId);
    ResolutionsSound(t, ps, rides, r);
    if r.pending { assert Owes(t, ps, rides, date, PendingKey(r.participantId, date)); }
  }

  lemma CleanDayDone(t: Tables, rides: Attendance, date: string)
    requires RowsOk(t)
    ensures DayDone(t, ResolveDay(t, rides, date, ALL_WELL), rides, date)
  {
    var ps := Listing(t, t.nextId);
    ListingIsOrdered(t, t.nextId);
    CleanDay(t, ps, rides, date, 0, []);
    ResolutionsPartition(t, rides);
    var end := ResolveDay(t, rides, date, ALL_WELL);
    assert end.resolutions == Resolutions(ps, rides);
    forall r | r in end.resolutions ensures Backed(end.tables, rides, date, r) {
      ResolutionIsBacked(t, end.tables, rides, date, r);
    }
  }

  /** A clean pass in any state the voucher operations can reach. */
  lemma DayIsComplete(ops: seq<Op>, rides: Attendance, date: string)
    ensures var t := Run(EmptyTables, ops);
            DayDone(t, ResolveDay(t, rides, date, ALL_WELL), rides, date)
  {
    RunKeepsRooted(EmptyTables, ops);
    RootedRows(Run(EmptyTables, ops));
    CleanDayDone(Run(EmptyTables, ops), rides, date);
  }

  /** Two clean ledgers over the same rows are the same ledger. */
  lemma LedgersAgree(t: Tables, half: Tables, full: Tables, again: Tables, ps: seq<Participant>, rides: Attendance,
        date: string)
    requires WritesSome(t, half, ps, rides, date)
    requires WritesSome(t, full, ps, rides, date) && WritesAll(t, full, ps, rides, date)
    requires WritesSome(half, again, ps, rides, date) && WritesAll(half, again, ps, rides, date)
    ensures again == full
  {
    forall key ensures Owes(t, ps, rides, date, key) <==> Owes(half, ps, rides, date, key) {}
    forall key ensures (key in again.pendings <==> key in full.pendings)
                       && (key in full.pendings ==> again.pendings[key] == full.pendings[key]) {
      if key in full.pendings { assert UntouchedOrOwed(t, full, ps, rides, date, key); }
      if key in half.pendings { assert UntouchedOrOwed(t, half, ps, rides, date, key); }
      if key in again.pendings { assert UntouchedOrOwed(half, again, ps, rides, date, key); }
    }
    assert again.pendings == full.pendings;
  }

  /** Re-running a day, after a clean pass or one that failed anywhere, gives the
      resolutions and the ledger of one clean pass. */
  lemma DayIsIdempotent(t: Tables, rides: Attendance, date: string, script: nat -> DayFaults)
    requires Rooted(t)
    ensures ResolveDay(ResolveDay(t, rides, date, script).tables, rides, date, ALL_WELL)
            == ResolveDay(t, rides, date, ALL_WELL)
  {
    var ps := Listing(t, t.nextId);
    RootedRows(t);
    ListingIsOrdered(t, t.nextId);
    DayWritesOwed(t, ps, rides, date, script, 0, []);
    var half := ResolveDay(t, rides, date, script).tables;
    SameListing(t, half, t.nextId);
    CleanDay(t, ps, rides, date, 0, []);
    CleanDay(half, ps, rides, date, 0, []);
    LedgersAgree(t, half, ResolveDay(t, rides, date, ALL_WELL).tables, ResolveDay(half, rides, date, ALL_WELL).tables,
        ps, rides, date);
  }

  // ---- The program ----

  class DayResolver {
    const repo: Repo
    const wallets: Service

    constructor (repo: Repo, wallets: Service)
      requires wallets.repo == repo
      ensures this.repo == repo && this.wallets == wallets
    {
      this.repo, this.wallets := repo, wallets;
    }

    method ListParticipants() returns (ps: seq<Participant>)
      ensures ps == Listing(repo.View(), repo.nextId)
    {
      ps := [];
      var n := 0;
      while n < repo.nextId
        invariant 0 <= n <= repo.nextId && ps == Listing(repo.View(), n)
      {
        if n in repo.participants { ps := ps + [repo.participants[n]]; }
        n := n + 1;
      }
    }

    method Resolve(rides: Attendance, date: string, script: nat -> DayFaults)
      returns (resolutions: seq<Resolution>, err: bool)
      requires wallets.repo == repo
      modifies repo
      ensures DayEnd(repo.View(), resolutions, err) == ResolveDay(old(repo.View()), rides, date, script)
    {
      var ps := ListParticipants();
      ghost var goal := ResolveDay(repo.View(), rides, date, script);
      resolutions, err := [], false;
      var k := 0;
      while k < |ps|
        invariant 0 <= k <= |ps|
        invariant goal == Day(repo.View(), ps[k..], rides, date, script, k, resolutions)
      {
        var p, f := ps[k], script(k);
        assert ps[k..][0] == p && ps[k..][1..] == ps[k + 1..];
        if f.rides != Done { return resolutions, true; }
        var rs := rides(p.id);
        if rs != [] {
          var res := ResolveMintWallet(p);
          if res.pending {
            var failed := wallets.RecordPendingMint(p.id, date, RideIds(rs), ScanTimes(rs), f.get, f.upsert);
            if failed { return resolutions, true; }
          }
          resolutions := resolutions + [ResolutionFor(p, rs)];
        }
        k := k + 1;
      }
    }
  }
}
