/** The mint service's own driver, POST /mint/run-day: resolve the day, then mint
    every mint-ready participant, minted before or not. */
module MintDriver {
  import opened Repository
  import opened Vouchers
  import opened DayResolution
  import opened AttendanceNft
  import opened BatchMint
  import opened DemoRuns

  /** What one call meets. */
  datatype DayInput = DayInput(date: string, day: nat -> DayFaults, world: nat -> World)

  /** Every mint-ready resolution of the day. */
  function Ready(rs: seq<Resolution>, date: string): seq<Live> {
    if rs == [] then [] else (if MintReady(rs[0]) then [LiveFor(rs[0], date)] else []) + Ready(rs[1..], date)
  }

  /** The batch of a call: none when the date is missing or resolving failed. */
  ghost function ReadyOf(t: Tables, rides: Rides, r: DayInput): seq<Live> {
    var end := ResolveDay(t, rides(r.date), r.date, r.day);
    if r.date == "" || end.failed then [] else Ready(end.resolutions, r.date)
  }

  ghost function RunDay(s: Ledger, rides: Rides, reading: Reading, r: DayInput): Ledger {
    if r.date == "" then s
    else
      var s1 := s.(tables := ResolveDay(s.tables, rides(r.date), r.date, r.day).tables);
      Batch(s1, reading, ReadyOf(s.tables, rides, r), r.world, 0)
  }

  /** One result per entry of the batch. */
  ghost function RunDayResults(s: Ledger, rides: Rides, reading: Reading, r: DayInput): seq<MintResult> {
    var s1 := s.(tables := ResolveDay(s.tables, rides(r.date), r.date, r.day).tables);
    Results(s1, reading, ReadyOf(s.tables, rides, r), r.world, 0)
  }

  /** It mints whom the demo driver would mint if there were no mint logs to find. */
  lemma {:induction false} ReadyIsUnguarded(rs: seq<Resolution>, date: string)
    ensures Ready(rs, date) == Lives(EmptyTables, rs, date)
    decreases |rs|
  {
    if rs != [] { ReadyIsUnguarded(rs[1..], date); }
  }

  lemma ReadyOfIsOk(t: Tables, rides: Rides, r: DayInput)
    requires Rooted(t)
    ensures var t1 := ResolveDay(t, rides(r.date), r.date, r.day).tables;
            && t1 == t.(pendings := t1.pendings) && Rooted(t1)
            && BatchOk(t1, rides, ReadyOf(t, rides, r), r.date)
  {
    var end := ResolveDay(t, rides(r.date), r.date, r.day);
    RootedRows(t);
    ResolutionsOfDay(t, rides(r.date), r.date, r.day);
    SameParticipants(t, end.tables);
    SameListing(t, end.tables, t.nextId);
    if r.date != "" && !end.failed {
      ReadyIsUnguarded(end.resolutions, r.date);
      DayBatchOk(end.tables, rides, r.date, EmptyTables, ReadyOf(t, rides, r));
    }
  }

  /** A call repeats a transaction exactly when some mint-ready participant whose
      entry sends already has one for the date; the mint log does not matter. */
  lemma RunDayExact(s: Ledger, rides: Rides, reading: Reading, r: DayInput)
    requires Rooted(s.tables) && Distinct(s.txs)
    ensures var ls := ReadyOf(s.tables, rides, r);
            Distinct(RunDay(s, rides, reading, r).txs)
            <==> forall k :: 0 <= k < |ls| && Sends(ls[k], r.world(k)) ==> Tx(ls[k].participantId, r.date) !in s.txs
  {
    var ls := ReadyOf(s.tables, rides, r);
    ReadyOfIsOk(s.tables, rides, r);
    if r.date != "" {
      var s1 := s.(tables := ResolveDay(s.tables, rides(r.date), r.date, r.day).tables);
      RunDistinctExact(s1, reading, ls, r.world);
      forall k | 0 <= k < |ls| ensures TxOf(ls[k]) == Tx(ls[k].participantId, r.date) { assert ls[k] in ls; }
    }
  }

  /** What keeps a call from sending a second transaction: nobody it sends for has
      one, and every entry that sends is recorded. */
  ghost predicate DayFits(s: Ledger, rides: Rides, r: DayInput) {
    BatchFits(s, rides, ReadyOf(s.tables, rides, r), r.world, 0)
  }

  /** Resolving the day changes nothing a fitting batch depends on. */
  lemma FitsStay(s: Ledger, s1: Ledger, rides: Rides, ls: seq<Live>, world: nat -> World, k: nat)
    requires BatchFits(s, rides, ls, world, k) && s1.txs == s.txs
    requires s1.tables.participants == s.tables.participants && s1.tables.users == s.tables.users
    ensures BatchFits(s1, rides, ls, world, k)
  {
    forall i | 0 <= i < |ls| ensures EntryFits(s1, rides, ls[i], world(k + i)) {
      assert EntryFits(s, rides, ls[i], world(k + i));
      RecordsStay(s.tables, s1.tables, rides, ls[i], world(k + i));
    }
  }

  lemma RunDayKeeps(s: Ledger, rides: Rides, reading: Reading, r: DayInput)
    requires Inv(s, rides) && DayFits(s, rides, r)
    ensures Inv(RunDay(s, rides, reading, r), rides)
  {
    if r.date != "" {
      var ls := ReadyOf(s.tables, rides, r);
      var s1 := s.(tables := ResolveDay(s.tables, rides(r.date), r.date, r.day).tables);
      ReadyOfIsOk(s.tables, rides, r);
      LedgerKeepsInv(s, rides, s1.tables);
      FitsStay(s, s1, rides, ls, r.world, 0);
      BatchKeeps(s1, rides, reading, ls, r.world, 0, r.date, RunDay(s, rides, reading, r));
    }
  }

  // ---- The program ----

  lemma {:induction false} ReadySnoc(rs: seq<Resolution>, r: Resolution, date: string)
    ensures Ready(rs + [r], date) == Ready(rs, date) + if MintReady(r) then [LiveFor(r, date)] else []
    decreases |rs|
  {
    if rs == [] {
      assert [] + [r] == [r] && [r][1..] == [];
    } else {
      assert (rs + [r])[1..] == rs[1..] + [r] && (rs + [r])[0] == rs[0];
      ReadySnoc(rs[1..], r, date);
    }
  }

  class Minter {
    const resolver: DayResolver
    const batch: BatchMinter

    constructor (resolver: DayResolver, batch: BatchMinter)
      ensures this.resolver == resolver && this.batch == batch
    {
      this.resolver, this.batch := resolver, batch;
    }

    ghost predicate Wired() {
      resolver.wallets.repo == resolver.repo && batch.repo == resolver.repo
    }

    /** The mint-ready live set. */
    method Select(rs: seq<Resolution>, date: string) returns (lives: seq<Live>)
      ensures lives == Ready(rs, date)
    {
      lives := [];
      var i := 0;
      while i < |rs|
        invariant 0 <= i <= |rs|
        invariant lives == Ready(rs[..i], date)
      {
        ReadySnoc(rs[..i], rs[i], date);
        assert rs[..i + 1] == rs[..i] + [rs[i]];
        if MintReady(rs[i]) { lives := lives + [LiveFor(rs[i], date)]; }
        i := i + 1;
      }
      assert rs[..i] == rs;
    }

    /** An error for a missing date or a failed resolution, which mint nothing. */
    method RunForDay(rides: Rides, reading: Reading, r: DayInput) returns (results: seq<MintResult>, err: bool)
      requires Wired() && Rooted(batch.repo.View())
      modifies batch, batch.chain, batch.repo
      ensures batch.View() == RunDay(old(batch.View()), rides, reading, r)
      ensures err <==> r.date == "" || ResolveDay(old(batch.repo.View()), rides(r.date), r.date, r.day).failed
      ensures results == RunDayResults(old(batch.View()), rides, reading, r)
      ensures Rooted(batch.repo.View())
    {
      if r.date == "" { return [], true; }
      RootedAfterDay(batch.repo.View(), rides(r.date), r.date, r.day);
      var resolutions, failed := resolver.Resolve(rides(r.date), r.date, r.day);
      if failed { return [], true; }
      var lives := Select(resolutions, r.date);
      results := batch.Run(reading, lives, r.world);
      err := false;
    }
  }
}
