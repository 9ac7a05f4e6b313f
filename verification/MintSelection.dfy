/** Whom the two drivers mint, and what the chain gains by it. */
module MintSelection {
  import opened Core
  import opened Repository
  import opened Vouchers
  import opened Delegations
  import opened DayResolution
  import opened AttendanceNft
  import opened BatchMint
  import opened DemoRuns
  import opened MintDriver

  // ---- Whom ----

  /** The entry a day calls for: a participant who rode, with all their rides of the
      date, to the own or custodial wallet stored for them. */
  predicate Due(t: Tables, rides: Rides, date: string, l: Live) {
    && l.date == date && l.participantId in t.participants && rides(date)(l.participantId) != []
    && l.rideIds == RideIds(rides(date)(l.participantId))
    && var p := t.participants[l.participantId];
       p.walletState != NONE && l.walletAddress != "" && p.walletAddress == Some(l.walletAddress)
  }

  lemma {:induction false} LivesHas(seen: Tables, rs: seq<Resolution>, date: string, r: Resolution)
    requires r in rs && MintReady(r) && !AlreadyMinted(seen, r.participantId, date)
    ensures LiveFor(r, date) in Lives(seen, rs, date)
    decreases |rs|
  {
    assert rs == [rs[0]] + rs[1..];
    if r != rs[0] { LivesHas(seen, rs[1..], date, r); }
  }

  /** Of a whole day, the batch is exactly the due entries without a mint log seen. */
  lemma LivesExact(t: Tables, rides: Rides, date: string, seen: Tables, l: Live)
    requires Rooted(t)
    ensures l in Lives(seen, Resolutions(Listing(t, t.nextId), rides(date)), date)
            <==> Due(t, rides, date, l) && !AlreadyMinted(seen, l.participantId, date)
  {
    var ps := Listing(t, t.nextId);
    var rs := Resolutions(ps, rides(date));
    RootedRows(t);
    ListingIsOrdered(t, t.nextId);
    if l in Lives(seen, rs, date) {
      LivesAre(seen, rs, date, l);
      var i :| 0 <= i < |rs| && MintReady(rs[i]) && l == LiveFor(rs[i], date);
      ResolutionsSound(t, ps, rides(date), rs[i]);
      WalletResolves(t.participants[l.participantId]);
    }
    if Due(t, rides, date, l) && !AlreadyMinted(seen, l.participantId, date) {
      var p := t.participants[l.participantId];
      WalletResolves(p);
      assert ParticipantOk(t, l.participantId);
      ListingIsComplete(t, t.nextId, l.participantId);
      ResolutionsComplete(ps, rides(date), p);
      LivesHas(seen, rs, date, ResolutionFor(p, rides(date)(p.id)));
    }
  }

  /** The demo mints exactly the due participants without a mint log of the date, unless
      the day could not be resolved or some check failed; then it mints nobody. */
  lemma DemoMintsExactly(t: Tables, rides: Rides, r: RunInput, l: Live)
    requires Rooted(t) && forall ls :: multiset(r.shuffle(ls)) == multiset(ls)
    ensures var end := ResolveDay(t, rides(r.date), r.date, r.day);
            l in BatchOf(t, rides, r)
            <==> !end.failed && !ChecksFail(end.resolutions, r)
                 && Due(t, rides, r.date, l) && !AlreadyMinted(t, l.participantId, r.date)
  {
    var end := ResolveDay(t, rides(r.date), r.date, r.day);
    RootedRows(t);
    ResolutionsOfDay(t, rides(r.date), r.date, r.day);
    if !end.failed && !ChecksFail(end.resolutions, r) {
      var ls := Lives(end.tables, end.resolutions, r.date);
      assert l in r.shuffle(ls) <==> l in multiset(r.shuffle(ls));
      assert l in ls <==> l in multiset(ls);
      LivesExact(t, rides, r.date, end.tables, l);
      assert AlreadyMinted(end.tables, l.participantId, r.date) <==> AlreadyMinted(t, l.participantId, r.date);
    }
  }

  /** The mint service mints exactly the due participants, minted before or not, unless
      the date is missing or the day could not be resolved. */
  lemma ServiceMintsExactly(t: Tables, rides: Rides, r: DayInput, l: Live)
    requires Rooted(t)
    ensures var end := ResolveDay(t, rides(r.date), r.date, r.day);
            l in ReadyOf(t, rides, r) <==> r.date != "" && !end.failed && Due(t, rides, r.date, l)
  {
    var end := ResolveDay(t, rides(r.date), r.date, r.day);
    RootedRows(t);
    ResolutionsOfDay(t, rides(r.date), r.date, r.day);
    if r.date != "" && !end.failed {
      ReadyIsUnguarded(end.resolutions, r.date);
      LivesExact(t, rides, r.date, EmptyTables, l);
    }
  }

  // ---- What the chain gains ----

  /** The NFTs of one entry: one per ride if it sends and the Move call takes it. */
  ghost function NftsOf(reading: Reading, l: Live, w: World): seq<Nft> {
    if Sends(l, w) && Accepted(reading, l)
    then BatchNfts(l.walletAddress, l.rideIds, l.date, RideNames(l.rideIds), Uris(l, w)) else []
  }

  ghost function AllNfts(reading: Reading, ls: seq<Live>, world: nat -> World, k: nat): seq<Nft>
    decreases |ls|
  {
    if ls == [] then [] else NftsOf(reading, ls[0], world(k)) + AllNfts(reading, ls[1..], world, k + 1)
  }

  lemma MintOneGains(s: Ledger, reading: Reading, l: Live, w: World)
    ensures MintOne(s, reading, l, w).0.objects == s.objects + NftsOf(reading, l, w)
  {}

  lemma JoinNfts(a: seq<Nft>, b: seq<Nft>, c: seq<Nft>)
    ensures a + b + c == a + (b + c)
  {}

  /** A batch adds exactly the NFTs of its entries, in order, and removes none. */
  lemma {:induction false} BatchGains(s: Ledger, reading: Reading, ls: seq<Live>, world: nat -> World, k: nat)
    ensures Batch(s, reading, ls, world, k).objects == s.objects + AllNfts(reading, ls, world, k)
    decreases |ls|
  {
    BatchFirst(s, reading, ls, world, k);
    if ls != [] {
      MintOneGains(s, reading, ls[0], world(k));
      BatchGains(MintOne(s, reading, ls[0], world(k)).0, reading, ls[1..], world, k + 1);
      JoinNfts(s.objects, NftsOf(reading, ls[0], world(k)), AllNfts(reading, ls[1..], world, k + 1));
    }
  }

  /** The NFT is for a ride its entry lists, to that entry's wallet, on its date. */
  predicate IsOf(nft: Nft, l: Live) {
    && nft.recipient == l.walletAddress && nft.date == l.date
    && nft.rideId in l.rideIds && nft.name == RideName(nft.rideId)
  }

  lemma {:induction false} NftHasEntry(reading: Reading, ls: seq<Live>, world: nat -> World, k: nat, nft: Nft)
    returns (l: Live)
    requires nft in AllNfts(reading, ls, world, k)
    ensures l in ls && IsOf(nft, l)
    decreases |ls|
  {
    if nft in NftsOf(reading, ls[0], world(k)) {
      l := ls[0];
      var nfts := NftsOf(reading, l, world(k));
      var i :| 0 <= i < |nfts| && nfts[i] == nft;
      assert nft.rideId == l.rideIds[i];
    } else {
      l := NftHasEntry(reading, ls[1..], world, k + 1, nft);
      assert l in ls;
    }
  }

  /** The NFT is owed: some participant took that ride on that date, and it goes to the
      wallet stored for them. */
  ghost predicate Owed(t: Tables, rides: Rides, nft: Nft) {
    exists p: nat :: p in t.participants && t.participants[p].walletAddress == Some(nft.recipient)
                     && RodeOn(rides, p, nft.date, nft.rideId)
  }

  /** Every NFT a run of the demo adds to the chain is owed. */
  lemma DemoMintsOwed(s: Ledger, rides: Rides, reading: Reading, r: RunInput, nft: Nft)
    requires Rooted(s.tables) && forall ls :: multiset(r.shuffle(ls)) == multiset(ls)
    ensures var s' := DemoRun(s, rides, reading, r);
            && s.objects <= s'.objects
            && (nft in s'.objects[|s.objects|..] ==> Owed(s.tables, rides, nft))
  {
    var s1 := s.(tables := ResolveDay(s.tables, rides(r.date), r.date, r.day).tables);
    var ls := BatchOf(s.tables, rides, r);
    BatchGains(s1, reading, ls, r.world, 0);
    if nft in AllNfts(reading, ls, r.world, 0) {
      var l := NftHasEntry(reading, ls, r.world, 0, nft);
      DemoMintsExactly(s.tables, rides, r, l);
    }
  }

  /** And so is every NFT a call of the mint service adds. */
  lemma ServiceMintsOwed(s: Ledger, rides: Rides, reading: Reading, r: DayInput, nft: Nft)
    requires Rooted(s.tables)
    ensures var s' := RunDay(s, rides, reading, r);
            && s.objects <= s'.objects
            && (nft in s'.objects[|s.objects|..] ==> Owed(s.tables, rides, nft))
  {
    var s1 := s.(tables := ResolveDay(s.tables, rides(r.date), r.date, r.day).tables);
    var ls := ReadyOf(s.tables, rides, r);
    BatchGains(s1, reading, ls, r.world, 0);
    if r.date != "" && nft in AllNfts(reading, ls, r.world, 0) {
      var l := NftHasEntry(reading, ls, r.world, 0, nft);
      ServiceMintsExactly(s.tables, rides, r, l);
    }
  }
}
