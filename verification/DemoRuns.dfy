/** One run of the demo driver: resolve the day, skip who is already minted, mint
    the rest. It is the only driver with a guard against a second transaction. */
module DemoRuns {
  import opened Core
  import opened Repository
  import opened Vouchers
  import opened DayResolution
  import opened AttendanceNft
  import opened BatchMint

  /** What one run meets: the outcomes of its calls, and how it shuffles the batch. */
  datatype RunInput = RunInput(
    date: string,
    day: nat -> DayFaults,
    check: nat -> Outcome,
    world: nat -> World,
    shuffle: seq<Live> -> seq<Live>
  )

  /** Who has ridden what, by date and participant. */
  type Rides = string -> Attendance

  predicate MintReady(r: Resolution) { !r.pending && r.walletAddress != "" }

  function LiveFor(r: Resolution, date: string): Live { Live(r.participantId, r.walletAddress, r.rideIds, date) }

  /** Mint-ready resolutions without a mint log for the date. */
  ghost function Lives(t: Tables, rs: seq<Resolution>, date: string): seq<Live> {
    if rs == [] then []
    else (if MintReady(rs[0]) && !AlreadyMinted(t, rs[0].participantId, date) then [LiveFor(rs[0], date)] else [])
         + Lives(t, rs[1..], date)
  }

  ghost function DemoRun(s: Ledger, rides: Rides, reading: Reading, r: RunInput): Ledger {
    var s1 := s.(tables := ResolveDay(s.tables, rides(r.date), r.date, r.day).tables);
    Batch(s1, reading, BatchOf(s.tables, rides, r), r.world, 0)
  }

  /** The batch a run mints: none when resolving or checking failed. */
  ghost function BatchOf(t: Tables, rides: Rides, r: RunInput): seq<Live> {
    var end := ResolveDay(t, rides(r.date), r.date, r.day);
    if end.failed || ChecksFail(end.resolutions, r) then [] else r.shuffle(Lives(end.tables, end.resolutions, r.date))
  }

  /** An already-minted check failed, which ends the run. */
  ghost predicate ChecksFail(rs: seq<Resolution>, r: RunInput) {
    exists i :: 0 <= i < |rs| && MintReady(rs[i]) && r.check(i) != Done
  }

  // ---- What the guard recognises ----

  /** Every transaction sent is found by the already-minted check. */
  ghost predicate Recognised(s: Ledger) {
    forall x :: x in s.txs ==> AlreadyMinted(s.tables, x.participantId, x.date)
  }

  /** The mint sends a transaction for a participant without a mint log, and either
      the transaction reports failure or none of its records gets a row of its own. */
  ghost predicate Unrecognised(s: Ledger, l: Live, w: World) {
    && AllPinned(l, w) && l.rideIds != [] && w.chain.Applied()
    && !AlreadyMinted(s.tables, l.participantId, l.date)
    && !(w.chain == Done && WinsRow(s.tables, l, w, 0))
  }

  /** One mint leaves a transaction the guard will not find exactly in that case. */
  lemma RecognisedExact(s: Ledger, reading: Reading, l: Live, w: World)
    requires Recognised(s)
    ensures Recognised(MintOne(s, reading, l, w).0) <==> !Unrecognised(s, l, w)
  {
    var s' := MintOne(s, reading, l, w).0;
    AttributionExact(s.tables, l, w, 0);
    if AllPinned(l, w) && l.rideIds != [] && w.chain.Applied() {
      var x := Tx(l.participantId, l.date);
      assert s'.txs == s.txs + [x] && x in s'.txs;
      forall y | y in s.txs ensures AlreadyMinted(s'.tables, y.participantId, y.date) {
        if w.chain == Done { AttributionStays(s.tables, l, w, y.participantId, y.date); }
      }
      assert Recognised(s') <==> AlreadyMinted(s'.tables, x.participantId, x.date);
    } else {
      assert s' == s;
    }
  }

  // ---- What at-most-once needs ----

  ghost predicate RodeOn(rides: Rides, p: nat, date: string, ride: string) {
    ride in RideIds(rides(date)(p))
  }

  /** The participant has an owner, and the first ride on the list was not taken on
      that date by another participant of the same owner. */
  ghost predicate FirstRideOwn(t: Tables, rides: Rides, l: Live) {
    && OwnerUserId(t, l.participantId) != 0 && l.rideIds != []
    && forall q: nat :: RodeOn(rides, q, l.date, l.rideIds[0]) && OwnerUserId(t, q) == OwnerUserId(t, l.participantId)
                        ==> q == l.participantId
  }

  /** If the entry sends, its transaction reports so, its first record takes effect,
      and the participant has an owner and a first ride of their own. */
  ghost predicate Records(t: Tables, rides: Rides, l: Live, w: World) {
    Sends(l, w) ==> w.chain == Done && w.record(0).Applied() && FirstRideOwn(t, rides, l)
  }

  /** And nothing was sent for the participant and date before. */
  ghost predicate EntryFits(s: Ledger, rides: Rides, l: Live, w: World) {
    Records(s.tables, rides, l, w) && (Sends(l, w) ==> TxOf(l) !in s.txs)
  }

  // ---- The invariant ----

  ghost predicate Inv(s: Ledger, rides: Rides) {
    && Rooted(s.tables)
    && Distinct(s.txs)
    && Recognised(s)
    && (s.txs == [] ==> s.tables.mints == map[])
    && (forall key :: key in s.tables.mints ==> RowFits(s.tables, rides, key))
  }

  /** A mint log belongs to an existing participant's owner and to a ride the
      participant took. */
  ghost predicate RowFits(t: Tables, rides: Rides, key: MintKey)
    requires key in t.mints
  {
    var p := t.mints[key].participantId;
    p in t.participants && key.userId == OwnerUserId(t, p) && key.userId != 0 && RodeOn(rides, p, key.date, key.rideId)
  }

  /** A live entry of the batch: a participant's rides of the day. */
  ghost predicate LiveOk(t: Tables, rides: Rides, l: Live) {
    l.participantId in t.participants && l.rideIds != [] && l.rideIds == RideIds(rides(l.date)(l.participantId))
  }

  /** The first record of a mint gives the participant a row of their own. */
  lemma FirstRecordAttributes(s: Ledger, rides: Rides, l: Live, w: World)
    requires Inv(s, rides) && LiveOk(s.tables, rides, l)
    requires FirstRideOwn(s.tables, rides, l) && w.record(0).Applied()
    ensures AlreadyMinted(RecordAll(s.tables, l, w, 0).0, l.participantId, l.date)
  {
    var t, p := s.tables, l.participantId;
    var key := MintKey(OwnerUserId(t, p), l.rideIds[0], l.date);
    AttributionExact(t, l, w, 0);
    if key in t.mints {
      var q := t.mints[key].participantId;
      assert RowFits(t, rides, key);
      assert RodeOn(rides, q, l.date, l.rideIds[0]) && RodeOn(rides, p, l.date, l.rideIds[0]);
      assert OwnerUserId(t, p) == OwnerUserId(t, q);
      assert AlreadyMinted(t, p, l.date);
    } else {
      assert Reached(w, 0, 0);
      assert WinsRow(t, l, w, 0);
    }
  }

  lemma AttributionStays(t: Tables, l: Live, w: World, id: nat, date: string)
    requires AlreadyMinted(t, id, date)
    ensures AlreadyMinted(RecordAll(t, l, w, 0).0, id, date)
  {
    RecordsOnly(t, l, w, 0);
    var key :| key in t.mints && key.date == date && t.mints[key].participantId == id;
    assert key in RecordAll(t, l, w, 0).0.mints;
  }

  lemma RecordsFit(s: Ledger, rides: Rides, l: Live, w: World)
    requires Inv(s, rides) && LiveOk(s.tables, rides, l)
    ensures var t := RecordAll(s.tables, l, w, 0).0;
            forall key :: key in t.mints ==> RowFits(t, rides, key)
  {
    RecordsOnly(s.tables, l, w, 0);
    var t := RecordAll(s.tables, l, w, 0).0;
    forall key | key in t.mints ensures RowFits(t, rides, key) {
      OwnerSame(s.tables, t, t.mints[key].participantId);
      if key in s.tables.mints { assert RowFits(s.tables, rides, key); }
    }
  }

  /** After a recorded mint every transaction, the new one too, is recognised. */
  lemma RecordedAttributes(s: Ledger, rides: Rides, l: Live, w: World)
    requires Inv(s, rides) && LiveOk(s.tables, rides, l)
    requires FirstRideOwn(s.tables, rides, l) && w.record(0).Applied()
    ensures var t := RecordAll(s.tables, l, w, 0).0;
            forall x :: x in s.txs + [Tx(l.participantId, l.date)] ==> AlreadyMinted(t, x.participantId, x.date)
  {
    FirstRecordAttributes(s, rides, l, w);
    forall x | x in s.txs ensures AlreadyMinted(RecordAll(s.tables, l, w, 0).0, x.participantId, x.date) {
      AttributionStays(s.tables, l, w, x.participantId, x.date);
    }
  }

  lemma RecordedKeeps(s: Ledger, rides: Rides, l: Live, w: World, s': Ledger)
    requires Inv(s, rides) && LiveOk(s.tables, rides, l) && TxOf(l) !in s.txs
    requires FirstRideOwn(s.tables, rides, l) && w.record(0).Applied()
    requires s'.tables == RecordAll(s.tables, l, w, 0).0 && s'.txs == s.txs + [TxOf(l)]
    ensures Inv(s', rides)
  {
    RecordsOnly(s.tables, l, w, 0);
    SameParticipants(s.tables, s'.tables);
    RecordsFit(s, rides, l, w);
    RecordedAttributes(s, rides, l, w);
    DistinctAppend(s.txs, [TxOf(l)]);
  }

  lemma MintOneKeeps(s: Ledger, rides: Rides, reading: Reading, l: Live, w: World)
    requires Inv(s, rides) && LiveOk(s.tables, rides, l) && EntryFits(s, rides, l, w)
    ensures Inv(MintOne(s, reading, l, w).0, rides)
  {
    MintOneSends(s, reading, l, w);
    if Sends(l, w) { RecordedKeeps(s, rides, l, w, MintOne(s, reading, l, w).0); }
  }

  // ---- Batches ----

  /** Every live entry is of this date and of a different participant. */
  ghost predicate BatchOk(t: Tables, rides: Rides, ls: seq<Live>, date: string) {
    (forall l :: l in ls ==> LiveOk(t, rides, l) && l.date == date) && OncePerParticipant(ls)
  }

  ghost predicate BatchFits(s: Ledger, rides: Rides, ls: seq<Live>, world: nat -> World, k: nat) {
    forall i :: 0 <= i < |ls| ==> EntryFits(s, rides, ls[i], world(k + i))
  }

  /** A batch keeps the invariant and the people. `s'` is where it ends. */
  lemma {:induction false} BatchKeeps(s: Ledger, rides: Rides, reading: Reading, ls: seq<Live>, world: nat -> World,
        k: nat, date: string, s': Ledger)
    requires Inv(s, rides) && BatchOk(s.tables, rides, ls, date) && BatchFits(s, rides, ls, world, k)
    requires s' == Batch(s, reading, ls, world, k)
    ensures Inv(s', rides) && s'.tables.participants == s.tables.participants && s'.tables.users == s.tables.users
    decreases |ls|
  {
    BatchFirst(s, reading, ls, world, k);
    if ls != [] {
      var l := ls[0];
      assert LiveOk(s.tables, rides, l) && l.date == date;
      assert EntryFits(s, rides, ls[0], world(k + 0));
      MintOneKeeps(s, rides, reading, l, world(k));
      MintOneOnly(s, reading, l, world(k));
      var s1 := MintOne(s, reading, l, world(k)).0;
      RestStaysOk(s.tables, s1.tables, rides, ls, date);
      RestStillFits(s, s1, rides, ls, world, k);
      BatchKeeps(s1, rides, reading, ls[1..], world, k + 1, date, s');
    }
  }

  lemma OwnRidesStay(t: Tables, t': Tables, rides: Rides, l: Live)
    requires t.participants == t'.participants && t.users == t'.users && FirstRideOwn(t, rides, l)
    ensures FirstRideOwn(t', rides, l)
  {
    forall p: nat ensures OwnerUserId(t, p) == OwnerUserId(t', p) { OwnerSame(t, t', p); }
  }

  lemma RestStaysOk(t: Tables, t1: Tables, rides: Rides, ls: seq<Live>, date: string)
    requires ls != [] && BatchOk(t, rides, ls, date) && t1.participants == t.participants
    ensures BatchOk(t1, rides, ls[1..], date)
  {
    forall m | m in ls[1..] ensures LiveOk(t1, rides, m) && m.date == date { assert m in ls; }
    forall i, j | 0 <= i < j < |ls[1..]| ensures ls[1..][i].participantId != ls[1..][j].participantId {
      assert ls[i + 1].participantId != ls[j + 1].participantId;
    }
  }

  /** The first entry's transaction is nobody else's. */
  lemma RestStillFits(s: Ledger, s1: Ledger, rides: Rides, ls: seq<Live>, world: nat -> World, k: nat)
    requires ls != [] && OncePerParticipant(ls) && BatchFits(s, rides, ls, world, k)
    requires s1.tables.participants == s.tables.participants && s1.tables.users == s.tables.users
    requires s1.txs == s.txs || s1.txs == s.txs + [TxOf(ls[0])]
    ensures BatchFits(s1, rides, ls[1..], world, k + 1)
  {
    forall i | 0 <= i < |ls[1..]| ensures EntryFits(s1, rides, ls[1..][i], world(k + 1 + i)) {
      var m, w := ls[i + 1], world(k + (i + 1));
      assert EntryFits(s, rides, m, w);
      if Sends(m, w) {
        OwnRidesStay(s.tables, s1.tables, rides, m);
        assert ls[0].participantId != ls[i + 1].participantId;
      }
    }
  }

  // ---- From resolutions to batch ----

  lemma {:induction false} LivesAre(t: Tables, rs: seq<Resolution>, date: string, l: Live)
    requires l in Lives(t, rs, date)
    ensures l.date == date && !AlreadyMinted(t, l.participantId, date)
    ensures exists i :: 0 <= i < |rs| && MintReady(rs[i]) && l == LiveFor(rs[i], date)
    decreases |rs|
  {
    if !(MintReady(rs[0]) && l == LiveFor(rs[0], date) && !AlreadyMinted(t, rs[0].participantId, date)) {
      LivesAre(t, rs[1..], date, l);
      var i :| 0 <= i < |rs[1..]| && MintReady(rs[1..][i]) && l == LiveFor(rs[1..][i], date);
      assert rs[i + 1] == rs[1..][i];
    }
  }

  lemma {:induction false} LivesOnce(t: Tables, rs: seq<Resolution>, date: string)
    requires forall i, j :: 0 <= i < j < |rs| ==> rs[i].participantId < rs[j].participantId
    ensures OncePerParticipant(Lives(t, rs, date))
    decreases |rs|
  {
    if rs != [] {
      var rest := Lives(t, rs[1..], date);
      forall i, j | 0 <= i < j < |rs[1..]| ensures rs[1..][i].participantId < rs[1..][j].participantId {
        assert rs[i + 1].participantId < rs[j + 1].participantId;
      }
      LivesOnce(t, rs[1..], date);
      forall j | 0 <= j < |rest| ensures rest[j].participantId != rs[0].participantId {
        LivesAre(t, rs[1..], date, rest[j]);
        var i :| 0 <= i < |rs[1..]| && MintReady(rs[1..][i]) && rest[j] == LiveFor(rs[1..][i], date);
        assert rs[i + 1] == rs[1..][i];
      }
    }
  }

  lemma ShuffleKeepsOnce(ls: seq<Live>, shuffled: seq<Live>)
    requires multiset(ls) == multiset(shuffled) && OncePerParticipant(ls)
    ensures OncePerParticipant(shuffled)
    ensures forall l :: l in shuffled ==> l in ls
  {
    forall l | l in shuffled ensures l in ls { assert l in multiset(shuffled); }
    forall i, j | 0 <= i < j < |shuffled| ensures shuffled[i].participantId != shuffled[j].participantId {
      if shuffled[i] == shuffled[j] {
        AppearsTwice(shuffled, i, j);
        CountOnce(ls, shuffled[i]);
      } else {
        assert shuffled[i] in multiset(ls) && shuffled[j] in multiset(ls);
        var a :| 0 <= a < |ls| && ls[a] == shuffled[i];
        var b :| 0 <= b < |ls| && ls[b] == shuffled[j];
        assert a != b;
      }
    }
  }

  lemma AppearsTwice(ls: seq<Live>, i: nat, j: nat)
    requires i < j < |ls| && ls[i] == ls[j]
    ensures multiset(ls)[ls[i]] >= 2
  {
    assert ls == ls[..j] + ls[j..];
    assert ls[i] in ls[..j] && ls[j] in ls[j..];
    assert multiset(ls[..j])[ls[i]] >= 1 && multiset(ls[j..])[ls[i]] >= 1;
  }

  lemma {:induction false} CountOnce(ls: seq<Live>, l: Live)
    requires OncePerParticipant(ls)
    ensures multiset(ls)[l] <= 1
    decreases |ls|
  {
    if ls != [] {
      assert ls == [ls[0]] + ls[1..];
      forall i, j | 0 <= i < j < |ls[1..]| ensures ls[1..][i].participantId != ls[1..][j].participantId {
        assert ls[i + 1].participantId != ls[j + 1].participantId;
      }
      CountOnce(ls[1..], l);
      if ls[0] == l { assert l !in ls[1..]; }
    }
  }

  // ---- Runs ----

  /** Writing the ledger leaves everything the guard looks at alone. */
  lemma LedgerKeepsInv(s: Ledger, rides: Rides, t: Tables)
    requires Inv(s, rides) && t == s.tables.(pendings := t.pendings)
    ensures Inv(s.(tables := t), rides)
  {
    SameParticipants(s.tables, t);
    forall key | key in t.mints ensures RowFits(t, rides, key) {
      assert RowFits(s.tables, rides, key);
      OwnerSame(s.tables, t, t.mints[key].participantId);
    }
    forall x | x in s.txs ensures AlreadyMinted(t, x.participantId, x.date) {
      var key :| key in s.tables.mints && key.date == x.date && s.tables.mints[key].participantId == x.participantId;
      assert key in t.mints;
    }
  }

  lemma ResolutionsOfDay(t: Tables, rides: Attendance, date: string, script: nat -> DayFaults)
    requires RowsOk(t)
    ensures var end := ResolveDay(t, rides, date, script);
            && end.tables == t.(pendings := end.tables.pendings)
            && (!end.failed ==> end.resolutions == Resolutions(Listing(t, t.nextId), rides))
  {
    var ps := Listing(t, t.nextId);
    ListingIsOrdered(t, t.nextId);
    DayWritesOwed(t, ps, rides, date, script, 0, []);
    DayFinds(t, ps, rides, date, script, 0, []);
  }

  lemma Associate<T>(a: seq<T>, b: seq<T>, c: seq<T>)
    ensures a + b + c == a + (b + c)
  {}

  /** A pass that does not fail finds every owed resolution. */
  lemma {:induction false} DayFinds(t: Tables, ps: seq<Participant>, rides: Attendance, date: string,
        script: nat -> DayFaults, k: nat, found: seq<Resolution>)
    ensures var end := Day(t, ps, rides, date, script, k, found);
            !end.failed ==> end.resolutions == found + Resolutions(ps, rides)
    decreases |ps|
  {
    if ps == [] {
      assert found + [] == found;
    } else {
      DayFirst(t, ps, rides, date, script, k, found);
      var (t1, visit) := VisitOne(t, ps[0], rides(ps[0].id), date, script(k));
      if visit != Fail {
        var found1 := if visit == Skip then found else found + [ResolutionFor(ps[0], rides(ps[0].id))];
        DayFinds(t1, ps[1..], rides, date, script, k + 1, found1);
        Associate(found, found1[|found|..], Resolutions(ps[1..], rides));
        assert found1 == found + found1[|found|..];
      }
    }
  }

  /** What a driver mints of a day's resolutions, in any order: those mint-ready
      that `seen`, the mint logs it looks at, does not show as minted. */
  lemma DayBatchOk(t: Tables, rides: Rides, date: string, seen: Tables, shuffled: seq<Live>)
    requires Rooted(t)
    requires var rs := Resolutions(Listing(t, t.nextId), rides(date));
             multiset(shuffled) == multiset(Lives(seen, rs, date))
    ensures BatchOk(t, rides, shuffled, date)
    ensures forall l :: l in shuffled ==> !AlreadyMinted(seen, l.participantId, date)
  {
    var today := rides(date);
    var ps := Listing(t, t.nextId);
    var rs := Resolutions(ps, today);
    RootedRows(t);
    ListingIsOrdered(t, t.nextId);
    ResolutionsIncrease(t, ps, today);
    LivesOnce(seen, rs, date);
    ShuffleKeepsOnce(Lives(seen, rs, date), shuffled);
    forall l | l in shuffled
      ensures LiveOk(t, rides, l) && l.date == date && !AlreadyMinted(seen, l.participantId, date)
    {
      LivesAre(seen, rs, date, l);
      var i :| 0 <= i < |rs| && MintReady(rs[i]) && l == LiveFor(rs[i], date);
      ResolutionsSound(t, ps, today, rs[i]);
    }
  }

  /** What keeps one run from sending a second transaction: shuffling only reorders,
      and every entry that sends is recorded. */
  ghost predicate RunFits(t: Tables, rides: Rides, r: RunInput) {
    && (forall ls :: multiset(r.shuffle(ls)) == multiset(ls))
    && var ls := BatchOf(t, rides, r);
       forall k :: 0 <= k < |ls| ==> Records(t, rides, ls[k], r.world(k))
  }

  /** The ledger rows a resolved day writes matter to nobody's owner. */
  lemma RecordsStay(t: Tables, t': Tables, rides: Rides, l: Live, w: World)
    requires t.participants == t'.participants && t.users == t'.users && Records(t, rides, l, w)
    ensures Records(t', rides, l, w)
  {
    if Sends(l, w) { OwnRidesStay(t, t', rides, l); }
  }

  lemma BatchOfIsOk(s: Ledger, rides: Rides, r: RunInput)
    requires Inv(s, rides) && RunFits(s.tables, rides, r)
    ensures var s1 := s.(tables := ResolveDay(s.tables, rides(r.date), r.date, r.day).tables);
            var ls := BatchOf(s.tables, rides, r);
            && Inv(s1, rides) && s1.tables == s.tables.(pendings := s1.tables.pendings)
            && BatchOk(s1.tables, rides, ls, r.date) && BatchFits(s1, rides, ls, r.world, 0)
  {
    var end := ResolveDay(s.tables, rides(r.date), r.date, r.day);
    RootedRows(s.tables);
    ResolutionsOfDay(s.tables, rides(r.date), r.date, r.day);
    var s1 := s.(tables := end.tables);
    LedgerKeepsInv(s, rides, end.tables);
    var ls := BatchOf(s.tables, rides, r);
    if !end.failed && !ChecksFail(end.resolutions, r) {
      SameListing(s.tables, s1.tables, s.tables.nextId);
      DayBatchOk(s1.tables, rides, r.date, s1.tables, ls);
      forall k | 0 <= k < |ls| ensures EntryFits(s1, rides, ls[k], r.world(0 + k)) {
        RecordsStay(s.tables, s1.tables, rides, ls[k], r.world(k));
        assert ls[k] in ls;
      }
    }
  }

  lemma DemoRunKeeps(s: Ledger, rides: Rides, reading: Reading, r: RunInput)
    requires Inv(s, rides) && RunFits(s.tables, rides, r)
    ensures var s' := DemoRun(s, rides, reading, r);
            Inv(s', rides) && s'.tables.participants == s.tables.participants && s'.tables.users == s.tables.users
  {
    BatchOfIsOk(s, rides, r);
    var s1 := s.(tables := ResolveDay(s.tables, rides(r.date), r.date, r.day).tables);
    BatchKeeps(s1, rides, reading, BatchOf(s.tables, rides, r), r.world, 0, r.date, DemoRun(s, rides, reading, r));
  }

  // ---- The program ----

  lemma {:induction false} LivesSnoc(t: Tables, rs: seq<Resolution>, r: Resolution, date: string)
    ensures var live := MintReady(r) && !AlreadyMinted(t, r.participantId, date);
            Lives(t, rs + [r], date) == Lives(t, rs, date) + if live then [LiveFor(r, date)] else []
    decreases |rs|
  {
    if rs == [] {
      assert [] + [r] == [r] && [r][1..] == [];
    } else {
      assert (rs + [r])[1..] == rs[1..] + [r] && (rs + [r])[0] == rs[0];
      LivesSnoc(t, rs[1..], r, date);
    }
  }

  /** Resolving, checking and minting leave every row of participants as it was. */
  lemma RootedAfterDay(t: Tables, rides: Attendance, date: string, script: nat -> DayFaults)
    requires Rooted(t)
    ensures Rooted(ResolveDay(t, rides, date, script).tables)
  {
    RootedRows(t);
    ResolutionsOfDay(t, rides, date, script);
    SameParticipants(t, ResolveDay(t, rides, date, script).tables);
  }

  class Orchestrator {
    const resolver: DayResolver
    const batch: BatchMinter

    constructor (resolver: DayResolver, batch: BatchMinter)
      ensures this.resolver == resolver && this.batch == batch
    {
      this.resolver, this.batch := resolver, batch;
    }

    ghost predicate Wired() {
      resolver.wallets.repo == resolver.repo && batch.repo == resolver.repo
    }

    /** SELECT ... FROM mint_logs WHERE participant_id AND mint_date LIMIT 1. */
    method FindsMintLog(id: nat, date: string) returns (done: bool)
      ensures done <==> AlreadyMinted(batch.repo.View(), id, date)
    {
      done := exists key :: key in batch.repo.mints && key.date == date && batch.repo.mints[key].participantId == id;
    }

    /** The live list and the list of who is already minted; a failed check ends the run. */
    method Sort(rs: seq<Resolution>, r: RunInput) returns (lives: seq<Live>, already: seq<Resolution>, err: bool)
      ensures err <==> ChecksFail(rs, r)
      ensures !err ==> lives == Lives(batch.repo.View(), rs, r.date)
      ensures !err ==>
                forall a :: a in already <==>
                  a in rs && MintReady(a) && AlreadyMinted(batch.repo.View(), a.participantId, r.date)
    {
      lives, already, err := [], [], false;
      ghost var t := batch.repo.View();
      var i := 0;
      while i < |rs|
        invariant 0 <= i <= |rs| && !err
        invariant forall k :: 0 <= k < i && MintReady(rs[k]) ==> r.check(k) == Done
        invariant lives == Lives(t, rs[..i], r.date)
        invariant forall a :: a in already <==>
                    a in rs[..i] && MintReady(a) && AlreadyMinted(t, a.participantId, r.date)
      {
        LivesSnoc(t, rs[..i], rs[i], r.date);
        assert rs[..i + 1] == rs[..i] + [rs[i]];
        if MintReady(rs[i]) {
          if r.check(i) != Done { return lives, already, true; }
          var done := FindsMintLog(rs[i].participantId, r.date);
          if done {
            already := already + [rs[i]];
          } else {
            lives := lives + [LiveFor(rs[i], r.date)];
          }
        }
        i := i + 1;
      }
      assert rs[..i] == rs;
    }

    /** The full reset: table after table is truncated until a statement fails; the
        chain keeps what it has. `n` tables are empty afterwards. */
    method Reset(o: nat -> Outcome) returns (err: bool, ghost n: nat)
      modifies batch.repo
      ensures n <= |RESET_ORDER| && batch.View() == old(batch.View()).(tables := Wiped(old(batch.repo.View()), n))
      ensures err <==> exists k :: 0 <= k < |RESET_ORDER| && o(k) != Done
      ensures !err ==> n == |RESET_ORDER|
      ensures err ==> exists k :: 0 <= k < |RESET_ORDER| && o(k) != Done && n == (if o(k).Applied() then k + 1 else k)
                                  && forall j :: 0 <= j < k ==> o(j) == Done
    {
      n := 0;
      var k := 0;
      while k < |RESET_ORDER|
        invariant n == k <= |RESET_ORDER|
        invariant forall j :: 0 <= j < k ==> o(j) == Done
        invariant batch.repo.View() == Wiped(old(batch.repo.View()), n)
      {
        err := batch.repo.Truncate(RESET_ORDER[k], o(k));
        if o(k).Applied() { n := k + 1; }
        if err { return true, n; }
        k := k + 1;
      }
      err := false;
    }

    method RunMint(rides: Rides, reading: Reading, r: RunInput)
      requires Wired() && Rooted(batch.repo.View())
      modifies batch, batch.chain, batch.repo
      ensures batch.View() == DemoRun(old(batch.View()), rides, reading, r)
      ensures Rooted(batch.repo.View())
    {
      RootedAfterDay(batch.repo.View(), rides(r.date), r.date, r.day);
      var resolutions, failed := resolver.Resolve(rides(r.date), r.date, r.day);
      if failed { return; }
      var lives, _, unchecked := Sort(resolutions, r);
      if unchecked { return; }
      var _ := batch.Run(reading, r.shuffle(lives), r.world);
    }
  }
}
