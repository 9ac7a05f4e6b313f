/** Whole histories: runs of both drivers, the demo's and the mint service's, on the
    same tables, with seeding, sign-ups, delegations and new rides in between, and
    the full reset. */
module DemoHistory {
  import opened Core
  import opened Repository
  import opened Vouchers
  import opened DayResolution
  import opened AttendanceNft
  import opened BatchMint
  import opened DemoRuns
  import opened MintDriver

  /** What the drivers work on: the tables and chain, and the rides scan_events holds. */
  datatype Demo = Demo(ledger: Ledger, rides: Rides)

  datatype Event =
    | Change(op: Op)                                               // users, participants, vouchers, wallets
    | Ride(participantId: nat, date: string, at: nat, row: Ridden) // one more ride is attributed
    | Mint(r: RunInput)                                            // one run of the demo driver
    | MintDay(day: DayInput)                                       // one call of the mint service
    | Settle(on: string, script: nat -> DayFaults)                 // the day is resolved and nothing is minted
    | Reset(n: nat)                                                // the first n tables of the reset are truncated

  const NO_RIDES: Rides := (_: string) => (_: nat) => []

  function Opening(): Demo { Demo(Ledger([], EmptyTables, []), NO_RIDES) }

  function Inserted(rs: seq<Ridden>, at: nat, row: Ridden): seq<Ridden> {
    if at <= |rs| then rs[..at] + [row] + rs[at..] else rs + [row]
  }

  function WithRide(rides: Rides, p: nat, date: string, at: nat, row: Ridden): Rides {
    (d: string) => (q: nat) => if d == date && q == p then Inserted(rides(d)(q), at, row) else rides(d)(q)
  }

  function UpTo(n: nat): nat { if n <= |RESET_ORDER| then n else |RESET_ORDER| }

  /** A reset empties tables and starts their ids over; the chain keeps what it has. */
  ghost function Advance(d: Demo, reading: Reading, e: Event): Demo {
    match e
    case Change(op) => d.(ledger := d.ledger.(tables := Step(d.ledger.tables, op)))
    case Ride(p, date, at, row) => d.(rides := WithRide(d.rides, p, date, at, row))
    case Mint(r) => d.(ledger := DemoRun(d.ledger, d.rides, reading, r))
    case MintDay(r) => d.(ledger := RunDay(d.ledger, d.rides, reading, r))
    case Settle(on, script) =>
      d.(ledger := d.ledger.(tables := ResolveDay(d.ledger.tables, d.rides(on), on, script).tables))
    case Reset(n) =>
      Demo(d.ledger.(tables := Wiped(d.ledger.tables, UpTo(n))), if n > 0 then NO_RIDES else d.rides)
  }

  ghost function History(d: Demo, reading: Reading, events: seq<Event>): Demo
    decreases |events|
  {
    if events == [] then d else History(Advance(d, reading, events[0]), reading, events[1..])
  }

  /** What each event must meet when it comes: a run is fit, which for the mint
      service includes that nobody it sends for has a transaction of the date, and
      nothing is reset once a transaction has been sent. */
  ghost predicate Fits(d: Demo, e: Event) {
    match e
    case Mint(r) => RunFits(d.ledger.tables, d.rides, r)
    case MintDay(r) => DayFits(d.ledger, d.rides, r)
    case Reset(_) => d.ledger.txs == []
    case _ => true
  }

  ghost predicate AllFit(d: Demo, reading: Reading, events: seq<Event>)
    decreases |events|
  {
    events == [] || (Fits(d, events[0]) && AllFit(Advance(d, reading, events[0]), reading, events[1..]))
  }

  // ---- Growth ----

  /** Participants keep their family and email, users their ids, and mint logs are untouched. */
  ghost predicate Grows(t: Tables, t': Tables) {
    && (forall id :: id in t.participants ==> KeepsFamily(t, t', id))
    && (forall email :: email in t.users ==> email in t'.users && t'.users[email] == t.users[email])
    && t'.mints == t.mints
  }

  predicate KeepsFamily(t: Tables, t': Tables, id: nat)
    requires id in t.participants
  {
    && id in t'.participants
    && t'.participants[id].accountEmail == t.participants[id].accountEmail
    && t'.participants[id].guardianId == t.participants[id].guardianId
  }

  lemma WalletGrows(t: Tables, id: nat, state: WalletState, addr: string)
    ensures Grows(t, SetWallet(t, id, state, addr))
  {}

  lemma CreateGrows(t: Tables, name: string, email: Option<string>, guardian: Option<nat>)
    requires Rooted(t)
    ensures Grows(t, Create(t, name, email, guardian).0)
  {
    NextIsFree(t);
  }

  lemma ResolveGrows(t: Tables, req: Request, f: DelegateFaults)
    requires Rooted(t)
    ensures Grows(t, Resolve(t, req, f).0)
  {
    ResolveCases(t, req, f);
    NextIsFree(t);
  }

  lemma DelegateGrows(t: Tables, req: Request, f: DelegateFaults)
    requires Rooted(t)
    ensures Grows(t, Delegate(t, req, f).0)
  {
    ResolveGrows(t, req, f);
    var t1, t' := Resolve(t, req, f).0, Delegate(t, req, f).0;
    assert t'.participants == t1.participants && t'.users == t1.users && t'.mints == t1.mints;
    forall id | id in t.participants ensures KeepsFamily(t, t', id) { assert KeepsFamily(t, t1, id); }
  }

  /** Every operation on participants and users is growth. */
  lemma StepGrows(t: Tables, op: Op)
    requires Rooted(t)
    ensures Grows(t, Step(t, op))
  {
    match op {
      case DelegateOp(req, f) => DelegateGrows(t, req, f);
      case CustodyOp(id, w) => WalletGrows(t, id, OWN_NON_CUSTODIAL, w);
      case AttachOp(email, w) =>
        if ByEmail(t, email).Some? { WalletGrows(t, ByEmail(t, email).value, OWN_NON_CUSTODIAL, w); }
      case AccountOp(email) => CreateGrows(t, email, Some(email), None);
      case ChildOp(name, g) => CreateGrows(t, name, None, Some(g));
      case ChildWalletOp(id, w) => WalletGrows(t, id, CUSTODIAL_PROXY, w);
      case _ =>
    }
  }

  lemma {:induction false} HeadStays(t: Tables, t': Tables, id: nat)
    requires Rooted(t) && Grows(t, t') && id in t.participants
    ensures Head(t', id) == Head(t, id) && Head(t, id) in t.participants
    decreases id
  {
    assert KeepsFamily(t, t', id) && ParticipantOk(t, id);
    if t.participants[id].guardianId.Some? { HeadStays(t, t', t.participants[id].guardianId.value); }
  }

  /** Whoever has an owner keeps that owner. */
  lemma OwnerStays(t: Tables, t': Tables, id: nat)
    requires Rooted(t) && Grows(t, t') && id in t.participants && OwnerUserId(t, id) != 0
    ensures OwnerUserId(t', id) == OwnerUserId(t, id)
  {
    HeadStays(t, t', id);
    assert KeepsFamily(t, t', Head(t, id));
  }

  lemma RideIdsHold(rs: seq<Ridden>, at: nat, row: Ridden, ride: string)
    requires ride in RideIds(rs)
    ensures ride in RideIds(Inserted(rs, at, row))
  {
    var i :| 0 <= i < |rs| && RideIds(rs)[i] == ride;
    var all := Inserted(rs, at, row);
    var k := if at <= |rs| && i >= at then i + 1 else i;
    assert all[k] == rs[i];
    assert RideIds(all)[k] == ride;
  }

  /** More rides take nothing from anyone. */
  lemma RodeStays(rides: Rides, e: Event, p: nat, date: string, ride: string)
    requires e.Ride? && RodeOn(rides, p, date, ride)
    ensures RodeOn(WithRide(rides, e.participantId, e.date, e.at, e.row), p, date, ride)
  {
    RideIdsHold(rides(date)(p), e.at, e.row, ride);
  }

  lemma ChangeKeeps(d: Demo, reading: Reading, e: Event)
    requires Inv(d.ledger, d.rides) && e.Change?
    ensures Inv(Advance(d, reading, e).ledger, d.rides)
  {
    var t, t' := d.ledger.tables, Step(d.ledger.tables, e.op);
    StepGrows(t, e.op);
    RunKeepsRooted(t, [e.op]);
    OneStep(t, e.op);
    forall key | key in t'.mints ensures RowFits(t', d.rides, key) {
      assert RowFits(t, d.rides, key);
      assert KeepsFamily(t, t', t.mints[key].participantId);
      OwnerStays(t, t', t.mints[key].participantId);
    }
    MintsSay(d.ledger, d.ledger.(tables := t'));
  }

  /** What the guard finds depends on the mint log only. */
  lemma MintsSay(s: Ledger, s': Ledger)
    requires Recognised(s) && s'.txs == s.txs && s'.tables.mints == s.tables.mints
    ensures Recognised(s')
  {
    forall x | x in s'.txs ensures AlreadyMinted(s'.tables, x.participantId, x.date) {
      var key :| key in s.tables.mints && key.date == x.date && s.tables.mints[key].participantId == x.participantId;
      assert key in s'.tables.mints;
    }
  }

  lemma RideKeeps(d: Demo, reading: Reading, e: Event)
    requires Inv(d.ledger, d.rides) && e.Ride?
    ensures Inv(d.ledger, Advance(d, reading, e).rides)
  {
    var rides' := Advance(d, reading, e).rides;
    forall key | key in d.ledger.tables.mints ensures RowFits(d.ledger.tables, rides', key) {
      assert RowFits(d.ledger.tables, d.rides, key);
      RodeStays(d.rides, e, d.ledger.tables.mints[key].participantId, key.date, key.rideId);
    }
  }

  /** What a reset leaves of each table. */
  lemma {:induction false} WipedTables(t: Tables, n: nat)
    requires n <= |RESET_ORDER|
    ensures var t' := Wiped(t, n);
            && t'.mints == (if n >= 3 then map[] else t.mints)
            && t'.pendings == (if n >= 4 then map[] else t.pendings)
            && t'.vouchers == (if n >= 5 then map[] else t.vouchers)
            && t'.participants == (if n >= 6 then map[] else t.participants)
            && t'.nextId == (if n >= 6 then 1 else t.nextId)
            && t'.users == (if n == 8 then map[] else t.users)
            && (n == 8 ==> t' == EmptyTables)
  {
    if n > 0 {
      WipedTables(t, n - 1);
      assert RESET_ORDER[n - 1] == MintLogs <==> n == 3;
    }
  }

  /** Before the first transaction a reset loses nothing. */
  lemma ResetKeeps(d: Demo, reading: Reading, e: Event)
    requires Inv(d.ledger, d.rides) && e.Reset? && d.ledger.txs == []
    ensures var d' := Advance(d, reading, e);
            Inv(d'.ledger, d'.rides)
  {
    var t' := Wiped(d.ledger.tables, UpTo(e.n));
    WipedTables(d.ledger.tables, UpTo(e.n));
    if t'.participants == d.ledger.tables.participants && t'.nextId == d.ledger.tables.nextId {
      SameParticipants(d.ledger.tables, t');
    }
  }

  lemma SettleKeeps(d: Demo, reading: Reading, e: Event)
    requires Inv(d.ledger, d.rides) && e.Settle?
    ensures Inv(Advance(d, reading, e).ledger, d.rides)
  {
    var t' := ResolveDay(d.ledger.tables, d.rides(e.on), e.on, e.script).tables;
    RootedRows(d.ledger.tables);
    ResolutionsOfDay(d.ledger.tables, d.rides(e.on), e.on, e.script);
    LedgerKeepsInv(d.ledger, d.rides, t');
  }

  lemma AdvanceKeeps(d: Demo, reading: Reading, e: Event)
    requires Inv(d.ledger, d.rides) && Fits(d, e)
    ensures var d' := Advance(d, reading, e);
            Inv(d'.ledger, d'.rides)
  {
    match e
    case Change(_) => ChangeKeeps(d, reading, e);
    case Ride(_, _, _, _) => RideKeeps(d, reading, e);
    case Mint(r) => DemoRunKeeps(d.ledger, d.rides, reading, r);
    case MintDay(r) => RunDayKeeps(d.ledger, d.rides, reading, r);
    case Settle(_, _) => SettleKeeps(d, reading, e);
    case Reset(_) => ResetKeeps(d, reading, e);
  }

  /** Over any history that starts empty -- any number of runs of either driver on
      any dates, with any seeding, sign-ups, delegations, rides and resolved days in between --
      each participant gets at most one transaction per date, and the demo's guard
      knows of it; provided every run is fit and nothing is reset after the first
      transaction. */
  lemma AtMostOneMint(reading: Reading, events: seq<Event>)
    requires AllFit(Opening(), reading, events)
    ensures var s := History(Opening(), reading, events).ledger;
            && Distinct(s.txs)
            && (forall x :: x in s.txs ==> AlreadyMinted(s.tables, x.participantId, x.date))
  {
    HistoryKeeps(Opening(), reading, events);
  }

  lemma {:induction false} HistoryKeeps(d: Demo, reading: Reading, events: seq<Event>)
    requires Inv(d.ledger, d.rides) && AllFit(d, reading, events)
    ensures var d' := History(d, reading, events);
            Inv(d'.ledger, d'.rides)
    decreases |events|
  {
    if events != [] {
      AdvanceKeeps(d, reading, events[0]);
      HistoryKeeps(Advance(d, reading, events[0]), reading, events[1..]);
    }
  }

  /** A reset leaves the guard knowing of every transaction exactly when none was
      sent before it or it failed before it reached the mint logs. */
  lemma ResetExact(d: Demo, reading: Reading, n: nat)
    requires Recognised(d.ledger)
    ensures Recognised(Advance(d, reading, Reset(n)).ledger) <==> d.ledger.txs == [] || n < 3
  {
    var s := Advance(d, reading, Reset(n)).ledger;
    WipedTables(d.ledger.tables, UpTo(n));
    if n < 3 {
      MintsSay(d.ledger, s);
    } else if s.txs != [] {
      assert s.txs[0] in s.txs && !AlreadyMinted(s.tables, s.txs[0].participantId, s.txs[0].date);
    }
  }

  /** Histories compose. */
  lemma {:induction false} HistorySplit(d: Demo, reading: Reading, a: seq<Event>, b: seq<Event>)
    ensures History(d, reading, a + b) == History(History(d, reading, a), reading, b)
    decreases |a|
  {
    if a == [] {
      assert a + b == b;
    } else {
      assert (a + b)[0] == a[0] && (a + b)[1..] == a[1..] + b;
      HistorySplit(Advance(d, reading, a[0]), reading, a[1..], b);
    }
  }
}
