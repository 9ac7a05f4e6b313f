/** Three histories that send a second transaction: relatives sharing a ride, a reset
    between runs, and the mint service after the demo. Each breaks one condition of
    the at-most-once theorem. */
module DemoRemints {
  import opened Core
  import opened Repository
  import opened Vouchers
  import opened DayResolution
  import opened AttendanceNft
  import opened BatchMint
  import opened DemoRuns
  import opened MintDriver
  import opened DemoHistory

  /** A run in which every call succeeds and nothing is shuffled. */
  function AllDone(date: string): RunInput {
    RunInput(date, ALL_WELL, _ => Done, _ => World(_ => Some("ipfs://metadata"), Done, "digest", _ => Done), ls => ls)
  }

  /** With every wallet known, a clean pass finds the resolutions and writes nothing. */
  lemma CleanDayOf(t: Tables, rides: Attendance, date: string)
    requires Rooted(t) && forall id :: id in t.participants ==> !ResolveMintWallet(t.participants[id]).pending
    ensures ResolveDay(t, rides, date, ALL_WELL) == DayEnd(t, Resolutions(Listing(t, t.nextId), rides), false)
  {
    var ps := Listing(t, t.nextId);
    RootedRows(t);
    ListingIsOrdered(t, t.nextId);
    CleanDay(t, ps, rides, date, 0, []);
    var end := ResolveDay(t, rides, date, ALL_WELL);
    assert [] + Resolutions(ps, rides) == Resolutions(ps, rides);
    forall key | key in end.tables.pendings ensures key in t.pendings && end.tables.pendings[key] == t.pendings[key] {
      assert UntouchedOrOwed(t, end.tables, ps, rides, date, key);
    }
    assert end.tables.pendings == t.pendings;
  }

  /** One mint of a single ride when everything succeeds. */
  lemma MintOneRide(s: Ledger, reading: Reading, l: Live, ride: string, k: nat)
    requires l.rideIds == [ride] && OwnerUserId(s.tables, l.participantId) != 0
    ensures var s' := MintOne(s, reading, l, AllDone(l.date).world(k)).0;
            var key := MintKey(OwnerUserId(s.tables, l.participantId), ride, l.date);
            && s'.txs == s.txs + [Tx(l.participantId, l.date)]
            && s'.tables == UpsertMint(s.tables, key, l.participantId, "digest")
  {
    var w := AllDone(l.date).world(k);
    assert AllPinned(l, w);
    var key := MintKey(OwnerUserId(s.tables, l.participantId), ride, l.date);
    var t1 := UpsertMint(s.tables, key, l.participantId, "digest");
    assert RecordAll(t1, l, w, 1) == (t1, false);
    assert RecordAll(s.tables, l, w, 0) == (t1, false);
  }

  // ---- Sharing a ride ----

  /** An account and one dependent, both seeded with the account's wallet. */
  function Family(email: string, userId: nat, wallet: string): Tables {
    WithChild(OneAccount(email, userId, wallet), "a", wallet)
  }

  lemma FamilyFacts(email: string, userId: nat, wallet: string)
    requires email != "" && userId != 0 && wallet != ""
    ensures var t := Family(email, userId, wallet);
            && t == Run(EmptyTables, SeedAccount(email, userId, wallet) + SeedChild("a", 2, wallet))
            && Rooted(t) && Listing(t, 3) == [t.participants[1], t.participants[2]]
            && OwnerUserId(t, 1) == OwnerUserId(t, 2) == userId
  {
    var t1, t := OneAccount(email, userId, wallet), Family(email, userId, wallet);
    AccountSeeded(email, userId, wallet);
    ChildSeeded(t1, "a", wallet);
    RunSplit(EmptyTables, SeedAccount(email, userId, wallet), SeedChild("a", 2, wallet));
    RunKeepsRooted(EmptyTables, SeedAccount(email, userId, wallet) + SeedChild("a", 2, wallet));
    assert Listing(t, 1) == [];
    assert Listing(t, 2) == [t.participants[1]];
    assert Head(t, 1) == 1 && Head(t, 2) == 1;
  }

  predicate BothRode(rides: Rides, date: string, ride: string) {
    RideIds(rides(date)(1)) == [ride] && RideIds(rides(date)(2)) == [ride]
  }

  function LiveOf(id: nat, wallet: string, ride: string, date: string): Live { Live(id, wallet, [ride], date) }

  lemma BothResolved(t: Tables, rides: Rides, date: string, ride: string, email: string, userId: nat, wallet: string)
    requires email != "" && userId != 0 && wallet != "" && BothRode(rides, date, ride)
    requires t == Family(email, userId, wallet).(mints := t.mints)
    ensures var account := Resolution(1, [ride], OWN_NON_CUSTODIAL, wallet, false);
            var dependent := Resolution(2, [ride], CUSTODIAL_PROXY, wallet, false);
            ResolveDay(t, rides(date), date, ALL_WELL) == DayEnd(t, [account, dependent], false)
  {
    var t0 := Family(email, userId, wallet);
    FamilyFacts(email, userId, wallet);
    SameParticipants(t0, t);
    SameListing(t0, t, 3);
    CleanDayOf(t, rides(date), date);
    var ps := Listing(t, 3);
    assert ps[1..] == [t.participants[2]] && ps[1..][1..] == [];
    assert rides(date)(1) != [] && rides(date)(2) != [];
    assert Resolutions(ps[1..], rides(date)) == [ResolutionFor(t.participants[2], rides(date)(2))];
    assert Resolutions(ps, rides(date))
        == [ResolutionFor(t.participants[1], rides(date)(1))] + Resolutions(ps[1..], rides(date));
  }

  lemma LivesOfTwo(t: Tables, a: Resolution, b: Resolution, date: string)
    ensures var one := (r: Resolution) =>
              if MintReady(r) && !AlreadyMinted(t, r.participantId, date) then [LiveFor(r, date)] else [];
            Lives(t, [a, b], date) == one(a) + one(b)
  {
    assert [a, b][1..] == [b] && [b][1..] == [];
    assert Lives(t, [b], date)
        == (if MintReady(b) && !AlreadyMinted(t, b.participantId, date) then [LiveFor(b, date)] else []) + [];
  }

  /** Whom a successful run mints: those of the two who have no mint log of the date. */
  lemma BatchOfTwo(t: Tables, rides: Rides, date: string, ride: string, email: string, userId: nat, wallet: string)
    requires email != "" && userId != 0 && wallet != "" && BothRode(rides, date, ride)
    requires t == Family(email, userId, wallet).(mints := t.mints)
    ensures BatchOf(t, rides, AllDone(date))
            == (if AlreadyMinted(t, 1, date) then [] else [LiveOf(1, wallet, ride, date)])
               + (if AlreadyMinted(t, 2, date) then [] else [LiveOf(2, wallet, ride, date)])
  {
    BothResolved(t, rides, date, ride, email, userId, wallet);
    LivesOfTwo(t, Resolution(1, [ride], OWN_NON_CUSTODIAL, wallet, false),
        Resolution(2, [ride], CUSTODIAL_PROXY, wallet, false), date);
  }

  /** One participant minted alone. */
  lemma BatchOfOne(s: Ledger, reading: Reading, l: Live, world: nat -> World, k: nat)
    ensures Batch(s, reading, [l], world, k) == MintOne(s, reading, l, world(k)).0
  {
    BatchFirst(s, reading, [l], world, k);
    BatchFirst(MintOne(s, reading, l, world(k)).0, reading, [], world, k + 1);
    assert [l][1..] == [];
  }

  /** The first run mints both; the one mint log of the ride carries the account's participant. */
  lemma FirstRunMintsBoth(s: Ledger, rides: Rides, reading: Reading, date: string, ride: string, email: string,
        userId: nat, wallet: string)
    requires email != "" && userId != 0 && wallet != "" && BothRode(rides, date, ride)
    requires s.tables == Family(email, userId, wallet)
    ensures var s' := DemoRun(s, rides, reading, AllDone(date));
            && s'.txs == s.txs + [Tx(1, date), Tx(2, date)]
            && s'.tables == s.tables.(mints := map[MintKey(userId, ride, date) := MintRow(1, "digest")])
  {
    var r, t := AllDone(date), s.tables;
    BothResolved(t, rides, date, ride, email, userId, wallet);
    BatchOfTwo(t, rides, date, ride, email, userId, wallet);
    FamilyFacts(email, userId, wallet);
    var l1, l2 := LiveOf(1, wallet, ride, date), LiveOf(2, wallet, ride, date);
    MintOneRide(s, reading, l1, ride, 0);
    var s1 := MintOne(s, reading, l1, r.world(0)).0;
    OwnerSame(t, s1.tables, 2);
    MintOneRide(s1, reading, l2, ride, 1);
    BatchFirst(s, reading, [l1, l2], r.world, 0);
    BatchOfOne(s1, reading, l2, r.world, 1);
    assert [l1] + [l2] == [l1, l2] && [l1, l2][1..] == [l2];
  }

  /** The second run finds the account's mint log, not the dependent's, and mints the dependent again. */
  lemma SecondRunRemints(s: Ledger, rides: Rides, reading: Reading, date: string, ride: string, email: string,
        userId: nat, wallet: string)
    requires email != "" && userId != 0 && wallet != "" && BothRode(rides, date, ride)
    requires var family := Family(email, userId, wallet);
             s.tables == family.(mints := map[MintKey(userId, ride, date) := MintRow(1, "digest")])
    ensures DemoRun(s, rides, reading, AllDone(date)).txs == s.txs + [Tx(2, date)]
  {
    var r, t := AllDone(date), s.tables;
    assert MintKey(userId, ride, date) in t.mints;
    assert AlreadyMinted(t, 1, date) && !AlreadyMinted(t, 2, date);
    BothResolved(t, rides, date, ride, email, userId, wallet);
    BatchOfTwo(t, rides, date, ride, email, userId, wallet);
    FamilyFacts(email, userId, wallet);
    OwnerSame(Family(email, userId, wallet), t, 2);
    var l2 := LiveOf(2, wallet, ride, date);
    assert [] + [l2] == [l2];
    MintOneRide(s, reading, l2, ride, 0);
    BatchOfOne(s, reading, l2, r.world, 0);
  }

  function Changes(ops: seq<Op>): seq<Event> {
    if ops == [] then [] else [Change(ops[0])] + Changes(ops[1..])
  }

  lemma {:induction false} ChangesRun(d: Demo, reading: Reading, ops: seq<Op>)
    ensures History(d, reading, Changes(ops)) == d.(ledger := d.ledger.(tables := Run(d.ledger.tables, ops)))
    decreases |ops|
  {
    if ops != [] {
      assert Changes(ops)[1..] == Changes(ops[1..]);
      ChangesRun(Advance(d, reading, Change(ops[0])), reading, ops[1..]);
    }
  }

  /** Seed the family, let both take the ride, and run twice. */
  function SharingHistory(email: string, userId: nat, wallet: string, date: string, row: Ridden): seq<Event> {
    Changes(SeedAccount(email, userId, wallet) + SeedChild("a", 2, wallet))
    + [Ride(1, date, 0, row), Ride(2, date, 0, row)]
    + [Mint(AllDone(date)), Mint(AllDone(date))]
  }

  lemma TwoEvents(d: Demo, reading: Reading, a: Event, b: Event)
    ensures History(d, reading, [a, b]) == Advance(Advance(d, reading, a), reading, b)
  {
    assert [a, b][1..] == [b] && [b][1..] == [];
    assert History(Advance(d, reading, a), reading, [b]) == Advance(Advance(d, reading, a), reading, b);
  }

  lemma RidesOf(date: string, row: Ridden)
    ensures BothRode(WithRide(WithRide(NO_RIDES, 1, date, 0, row), 2, date, 0, row), date, row.rideId)
  {
    var rides := WithRide(WithRide(NO_RIDES, 1, date, 0, row), 2, date, 0, row);
    assert rides(date)(1) == [row] && rides(date)(2) == [row];
    assert RideIds([row]) == [row.rideId] + RideIds([]);
  }

  /** Once seeded, both take the ride. */
  lemma FamilyRides(reading: Reading, email: string, userId: nat, wallet: string, date: string, row: Ridden)
    requires email != "" && userId != 0 && wallet != ""
    ensures var seeded := Changes(SeedAccount(email, userId, wallet) + SeedChild("a", 2, wallet));
            var d := History(Opening(), reading, seeded + [Ride(1, date, 0, row), Ride(2, date, 0, row)]);
            && d.ledger == Ledger([], Family(email, userId, wallet), [])
            && BothRode(d.rides, date, row.rideId)
  {
    var ops := SeedAccount(email, userId, wallet) + SeedChild("a", 2, wallet);
    FamilyFacts(email, userId, wallet);
    ChangesRun(Opening(), reading, ops);
    var d1 := History(Opening(), reading, Changes(ops));
    HistorySplit(Opening(), reading, Changes(ops), [Ride(1, date, 0, row), Ride(2, date, 0, row)]);
    TwoEvents(d1, reading, Ride(1, date, 0, row), Ride(2, date, 0, row));
    RidesOf(date, row);
  }

  /** Two participants of one owner on one ride, in a history the driver can meet:
      the dependent is minted by both runs. */
  lemma SharedRidesRemint(reading: Reading, email: string, userId: nat, wallet: string, date: string, row: Ridden)
    requires email != "" && userId != 0 && wallet != ""
    ensures History(Opening(), reading, SharingHistory(email, userId, wallet, date, row)).ledger.txs
            == [Tx(1, date), Tx(2, date), Tx(2, date)]
  {
    var seeded := Changes(SeedAccount(email, userId, wallet) + SeedChild("a", 2, wallet));
    var rides := [Ride(1, date, 0, row), Ride(2, date, 0, row)];
    var runs := [Mint(AllDone(date)), Mint(AllDone(date))];
    FamilyRides(reading, email, userId, wallet, date, row);
    var d := History(Opening(), reading, seeded + rides);
    HistorySplit(Opening(), reading, seeded + rides, runs);
    TwoEvents(d, reading, Mint(AllDone(date)), Mint(AllDone(date)));
    FirstRunMintsBoth(d.ledger, d.rides, reading, date, row.rideId, email, userId, wallet);
    var s := DemoRun(d.ledger, d.rides, reading, AllDone(date));
    SecondRunRemints(s, d.rides, reading, date, row.rideId, email, userId, wallet);
  }

  // ---- A reset between runs ----

  /** Seed one account, let it ride, and run. */
  function SeedRideMint(email: string, userId: nat, wallet: string, date: string, row: Ridden): seq<Event> {
    Changes(SeedAccount(email, userId, wallet)) + [Ride(1, date, 0, row)] + [Mint(AllDone(date))]
  }

  /** The day of a lone account that took one ride, whatever the mint log holds. */
  lemma SoloResolved(t: Tables, rides: Rides, date: string, ride: string, email: string, userId: nat, wallet: string)
    requires email != "" && userId != 0 && wallet != "" && RideIds(rides(date)(1)) == [ride]
    requires t == OneAccount(email, userId, wallet).(mints := t.mints)
    ensures ResolveDay(t, rides(date), date, ALL_WELL)
            == DayEnd(t, [Resolution(1, [ride], OWN_NON_CUSTODIAL, wallet, false)], false)
    ensures OwnerUserId(t, 1) == userId
  {
    AccountSeeded(email, userId, wallet);
    RunKeepsRooted(EmptyTables, SeedAccount(email, userId, wallet));
    SameParticipants(OneAccount(email, userId, wallet), t);
    assert Listing(t, 1) == [];
    assert Listing(t, 2) == [t.participants[1]];
    CleanDayOf(t, rides(date), date);
    var ps := Listing(t, 2);
    assert ps[1..] == [] && rides(date)(1) != [];
    assert Resolutions(ps, rides(date))
        == [ResolutionFor(t.participants[1], rides(date)(1))] + Resolutions([], rides(date));
    assert Head(t, 1) == 1;
  }

  lemma SoloRun(s: Ledger, rides: Rides, reading: Reading, date: string, ride: string, email: string, userId: nat,
        wallet: string)
    requires email != "" && userId != 0 && wallet != "" && RideIds(rides(date)(1)) == [ride]
    requires s.tables == OneAccount(email, userId, wallet)
    ensures var s' := DemoRun(s, rides, reading, AllDone(date));
            s'.txs == s.txs + [Tx(1, date)] && s'.tables == s.tables.(mints := s'.tables.mints)
  {
    var r, t := AllDone(date), s.tables;
    SoloResolved(t, rides, date, ride, email, userId, wallet);
    var a := Resolution(1, [ride], OWN_NON_CUSTODIAL, wallet, false);
    var l := LiveOf(1, wallet, ride, date);
    assert [a][1..] == [] && Lives(t, [a], date) == [LiveFor(a, date)] + Lives(t, [], date);
    assert BatchOf(t, rides, r) == [l];
    MintOneRide(s, reading, l, ride, 0);
    BatchOfOne(s, reading, l, r.world, 0);
  }

  /** The account is seeded and has taken the ride. */
  lemma SeedRide(d: Demo, reading: Reading, email: string, userId: nat, wallet: string, date: string, row: Ridden)
    requires email != "" && userId != 0 && wallet != ""
    requires d.ledger.tables == EmptyTables && d.rides == NO_RIDES
    ensures var d' := History(d, reading, Changes(SeedAccount(email, userId, wallet)) + [Ride(1, date, 0, row)]);
            && d'.ledger == d.ledger.(tables := OneAccount(email, userId, wallet))
            && RideIds(d'.rides(date)(1)) == [row.rideId]
  {
    var ops := SeedAccount(email, userId, wallet);
    AccountSeeded(email, userId, wallet);
    ChangesRun(d, reading, ops);
    HistorySplit(d, reading, Changes(ops), [Ride(1, date, 0, row)]);
    var d1 := History(d, reading, Changes(ops));
    assert [Ride(1, date, 0, row)][1..] == [];
    var d2 := Advance(d1, reading, Ride(1, date, 0, row));
    assert History(d1, reading, [Ride(1, date, 0, row)]) == d2;
    assert d2.rides(date)(1) == [row];
    assert RideIds([row]) == [row.rideId] + RideIds([]);
  }

  /** From empty tables, whatever the chain holds, that history sends one transaction. */
  lemma SeedRideMintSends(d: Demo, reading: Reading, email: string, userId: nat, wallet: string, date: string,
        row: Ridden)
    requires email != "" && userId != 0 && wallet != ""
    requires d.ledger.tables == EmptyTables && d.rides == NO_RIDES
    ensures History(d, reading, SeedRideMint(email, userId, wallet, date, row)).ledger.txs
            == d.ledger.txs + [Tx(1, date)]
  {
    var seeded := Changes(SeedAccount(email, userId, wallet)) + [Ride(1, date, 0, row)];
    SeedRide(d, reading, email, userId, wallet, date, row);
    var d1 := History(d, reading, seeded);
    HistorySplit(d, reading, seeded, [Mint(AllDone(date))]);
    assert [Mint(AllDone(date))][1..] == [];
    assert History(d1, reading, [Mint(AllDone(date))]) == Advance(d1, reading, Mint(AllDone(date)));
    SoloRun(d1.ledger, d1.rides, reading, date, row.rideId, email, userId, wallet);
  }

  /** A full reset between two runs: the same participant id and date are minted again. */
  lemma ResetRemints(reading: Reading, email: string, userId: nat, wallet: string, date: string, row: Ridden)
    requires email != "" && userId != 0 && wallet != ""
    ensures var once := SeedRideMint(email, userId, wallet, date, row);
            History(Opening(), reading, once + ([Reset(8)] + once)).ledger.txs == [Tx(1, date), Tx(1, date)]
  {
    var once := SeedRideMint(email, userId, wallet, date, row);
    SeedRideMintSends(Opening(), reading, email, userId, wallet, date, row);
    HistorySplit(Opening(), reading, once, [Reset(8)] + once);
    var d1 := History(Opening(), reading, once);
    WipedTables(d1.ledger.tables, 8);
    assert ([Reset(8)] + once)[0] == Reset(8) && ([Reset(8)] + once)[1..] == once;
    SeedRideMintSends(Advance(d1, reading, Reset(8)), reading, email, userId, wallet, date, row);
  }

  // ---- The mint service ----

  /** A call of the mint service in which everything succeeds. */
  function AllMinted(date: string): DayInput { DayInput(date, ALL_WELL, AllDone(date).world) }

  lemma SoloDay(s: Ledger, rides: Rides, reading: Reading, date: string, ride: string, email: string, userId: nat,
        wallet: string)
    requires email != "" && userId != 0 && wallet != "" && date != "" && RideIds(rides(date)(1)) == [ride]
    requires s.tables == OneAccount(email, userId, wallet).(mints := s.tables.mints)
    ensures var s' := RunDay(s, rides, reading, AllMinted(date));
            s'.txs == s.txs + [Tx(1, date)] && s'.tables == s.tables.(mints := s'.tables.mints)
  {
    var r, t := AllMinted(date), s.tables;
    SoloResolved(t, rides, date, ride, email, userId, wallet);
    var a := Resolution(1, [ride], OWN_NON_CUSTODIAL, wallet, false);
    var l := LiveOf(1, wallet, ride, date);
    assert [a][1..] == [] && Ready([a], date) == [LiveFor(a, date)] + Ready([], date);
    assert ReadyOf(t, rides, r) == [l];
    MintOneRide(s, reading, l, ride, 0);
    BatchOfOne(s, reading, l, r.world, 0);
  }

  /** One call of the mint service after a run of the demo, or after another call:
      no fault, no relative and no reset, and the participant is minted twice. */
  lemma RunDayRemints(reading: Reading, email: string, userId: nat, wallet: string, date: string, row: Ridden,
        first: Event)
    requires email != "" && userId != 0 && wallet != "" && date != ""
    requires first == Mint(AllDone(date)) || first == MintDay(AllMinted(date))
    ensures var seeded := Changes(SeedAccount(email, userId, wallet)) + [Ride(1, date, 0, row)];
            History(Opening(), reading, seeded + [first, MintDay(AllMinted(date))]).ledger.txs
            == [Tx(1, date), Tx(1, date)]
  {
    var seeded := Changes(SeedAccount(email, userId, wallet)) + [Ride(1, date, 0, row)];
    SeedRide(Opening(), reading, email, userId, wallet, date, row);
    var d := History(Opening(), reading, seeded);
    HistorySplit(Opening(), reading, seeded, [first, MintDay(AllMinted(date))]);
    TwoEvents(d, reading, first, MintDay(AllMinted(date)));
    if first.Mint? {
      SoloRun(d.ledger, d.rides, reading, date, row.rideId, email, userId, wallet);
    } else {
      SoloDay(d.ledger, d.rides, reading, date, row.rideId, email, userId, wallet);
    }
    var d1 := Advance(d, reading, first);
    SoloDay(d1.ledger, d1.rides, reading, date, row.rideId, email, userId, wallet);
  }
}
