/** Minting one participant's rides: metadata, one transaction, one mint-log
    record per ride. */
module BatchMint {
  import opened Core
  import opened Repository
  import opened Vouchers
  import opened VoucherService
  import opened AttendanceNft

  datatype Live = Live(participantId: nat, walletAddress: string, rideIds: seq<string>, date: string)

  /** How the outside calls for one participant will end: the metadata URI of each
      ride, the transaction, the records. */
  datatype World = World(uri: nat -> Option<string>, chain: Outcome, digest: string, record: nat -> Outcome)

  datatype MintResult = MintResult(participantId: nat, txDigest: string, minted: bool, failed: bool)

  /** A transaction that reached the chain. */
  datatype Tx = Tx(participantId: nat, date: string)

  datatype Ledger = Ledger(objects: seq<Nft>, tables: Tables, txs: seq<Tx>)

  function RideName(rideId: string): string { if rideId == "" then "Ride" else "Ride " + rideId }

  /** Names tell rides apart. */
  lemma NamesDiffer(a: string, b: string)
    ensures RideName(a) == RideName(b) <==> a == b
  {
    var p := "Ride ";
    if a != "" { assert RideName(a)[|p|..] == a; }
    if b != "" { assert RideName(b)[|p|..] == b; }
  }

  function RideNames(rides: seq<string>): (names: seq<string>)
    ensures |names| == |rides| && forall i :: 0 <= i < |rides| ==> names[i] == RideName(rides[i])
  {
    seq(|rides|, i requires 0 <= i < |rides| => RideName(rides[i]))
  }

  /** Metadata is available for every ride. */
  ghost predicate AllPinned(l: Live, w: World) { forall i :: 0 <= i < |l.rideIds| ==> w.uri(i).Some? }

  ghost function Uris(l: Live, w: World): seq<string>
    requires AllPinned(l, w)
  {
    seq(|l.rideIds|, i requires 0 <= i < |l.rideIds| => w.uri(i).value)
  }

  // ---- Records ----

  /** Records from the `i`-th on; an error stops them. */
  function RecordAll(t: Tables, l: Live, w: World, i: nat): (Tables, bool)
    requires i <= |l.rideIds|
    decreases |l.rideIds| - i
  {
    if i == |l.rideIds| then (t, false)
    else
      var owner := OwnerUserId(t, l.participantId);
      if owner == 0 then (t, true)
      else
        var t1 := if w.record(i).Applied()
            then UpsertMint(t, MintKey(owner, l.rideIds[i], l.date), l.participantId, w.digest) else t;
        if w.record(i) != Done then (t1, true) else RecordAll(t1, l, w, i + 1)
  }

  /** Some mint log of the date is attributed to the participant. */
  ghost predicate AlreadyMinted(t: Tables, id: nat, date: string) {
    exists key :: key in t.mints && key.date == date && t.mints[key].participantId == id
  }

  /** A record that is reached and whose row nobody has yet. */
  ghost predicate WinsRow(t: Tables, l: Live, w: World, from: nat) {
    OwnerUserId(t, l.participantId) != 0
    && exists i :: from <= i < |l.rideIds| && Reached(w, from, i) && w.record(i).Applied()
                   && MintKey(OwnerUserId(t, l.participantId), l.rideIds[i], l.date) !in t.mints
  }

  ghost predicate Reached(w: World, from: nat, i: nat) { forall j :: from <= j < i ==> w.record(j) == Done }

  /** Owners depend on participants and users only. */
  lemma {:induction false} HeadSame(t: Tables, t': Tables, id: nat)
    requires t.participants == t'.participants
    ensures Head(t, id) == Head(t', id)
    decreases id
  {
    if id in t.participants && t.participants[id].guardianId.Some? && t.participants[id].guardianId.value < id {
      HeadSame(t, t', t.participants[id].guardianId.value);
    }
  }

  lemma OwnerSame(t: Tables, t': Tables, id: nat)
    requires t.participants == t'.participants && t.users == t'.users
    ensures OwnerUserId(t, id) == OwnerUserId(t', id)
  {
    HeadSame(t, t', id);
  }

  /** Records touch the mint log only, never change who a row is attributed to,
      and add rows of this participant's owner, rides and date only. */
  lemma {:induction false} RecordsOnly(t: Tables, l: Live, w: World, i: nat)
    requires i <= |l.rideIds|
    ensures var t' := RecordAll(t, l, w, i).0;
            && t' == t.(mints := t'.mints)
            && (forall key :: key in t.mints ==>
                  key in t'.mints && t'.mints[key].participantId == t.mints[key].participantId)
            && (forall key :: key in t'.mints && key !in t.mints ==>
                  t'.mints[key].participantId == l.participantId && key.userId == OwnerUserId(t, l.participantId)
                  && key.date == l.date && key.rideId in l.rideIds)
    decreases |l.rideIds| - i
  {
    if i < |l.rideIds| && OwnerUserId(t, l.participantId) != 0 {
      var key := MintKey(OwnerUserId(t, l.participantId), l.rideIds[i], l.date);
      var t1 := if w.record(i).Applied() then UpsertMint(t, key, l.participantId, w.digest) else t;
      OwnerSame(t, t1, l.participantId);
      if w.record(i) == Done { RecordsOnly(t1, l, w, i + 1); }
    }
  }

  /** Recording leaves the participant attributed exactly when it was before or
      some reached record found its row free: a row taken by another family
      member keeps that member's name. */
  lemma {:induction false} AttributionExact(t: Tables, l: Live, w: World, i: nat)
    requires i <= |l.rideIds|
    ensures AlreadyMinted(RecordAll(t, l, w, i).0, l.participantId, l.date)
            <==> AlreadyMinted(t, l.participantId, l.date) || WinsRow(t, l, w, i)
    decreases |l.rideIds| - i
  {
    var owner := OwnerUserId(t, l.participantId);
    if i < |l.rideIds| && owner != 0 {
      var key := MintKey(owner, l.rideIds[i], l.date);
      var t1 := if w.record(i).Applied() then UpsertMint(t, key, l.participantId, w.digest) else t;
      OwnerSame(t, t1, l.participantId);
      FirstRecord(t, t1, l, w, i);
      if w.record(i) == Done { AttributionExact(t1, l, w, i + 1); }
    }
  }

  /** What the `i`-th record alone contributes. */
  lemma FirstRecord(t: Tables, t1: Tables, l: Live, w: World, i: nat)
    requires i < |l.rideIds| && OwnerUserId(t, l.participantId) != 0
             && OwnerUserId(t1, l.participantId) == OwnerUserId(t, l.participantId)
    requires var key := MintKey(OwnerUserId(t, l.participantId), l.rideIds[i], l.date);
             t1 == if w.record(i).Applied() then UpsertMint(t, key, l.participantId, w.digest) else t
    ensures var here := w.record(i).Applied()
            && MintKey(OwnerUserId(t, l.participantId), l.rideIds[i], l.date) !in t.mints;
            && (AlreadyMinted(t1, l.participantId, l.date) <==> AlreadyMinted(t, l.participantId, l.date) || here)
            && (w.record(i) != Done ==> (WinsRow(t, l, w, i) <==> here))
            && (w.record(i) == Done && !AlreadyMinted(t1, l.participantId, l.date) ==>
                  (WinsRow(t, l, w, i) <==> WinsRow(t1, l, w, i + 1)))
            && (w.record(i) == Done && WinsRow(t1, l, w, i + 1) ==> WinsRow(t, l, w, i))
  {
    var owner := OwnerUserId(t, l.participantId);
    var key := MintKey(owner, l.rideIds[i], l.date);
    var here := w.record(i).Applied() && key !in t.mints;
    if AlreadyMinted(t, l.participantId, l.date) {
      var k :| k in t.mints && k.date == l.date && t.mints[k].participantId == l.participantId;
      assert k in t1.mints && t1.mints[k].participantId == l.participantId;
    }
    if here { assert key in t1.mints && t1.mints[key].participantId == l.participantId; assert Reached(w, i, i); }
    if WinsRow(t, l, w, i) {
      var j :| i <= j < |l.rideIds| && Reached(w, i, j) && w.record(j).Applied()
          && MintKey(owner, l.rideIds[j], l.date) !in t.mints;
      if j > i {
        assert w.record(i) == Done;
        assert Reached(w, i + 1, j);
        if MintKey(owner, l.rideIds[j], l.date) in t1.mints { assert MintKey(owner, l.rideIds[j], l.date) == key; }
      }
    }
    if w.record(i) == Done && WinsRow(t1, l, w, i + 1) {
      var j :| i + 1 <= j < |l.rideIds| && Reached(w, i + 1, j) && w.record(j).Applied()
          && MintKey(owner, l.rideIds[j], l.date) !in t1.mints;
      assert Reached(w, i, j);
      assert MintKey(owner, l.rideIds[j], l.date) !in t.mints;
    }
  }

  // ---- One participant ----

  /** The Sui client refuses an empty list; otherwise the transaction runs, and
      its digest is returned whether or not the Move call aborted. */
  ghost function MintOne(s: Ledger, reading: Reading, l: Live, w: World): (Ledger, MintResult) {
    var none := MintResult(l.participantId, "", false, true);
    if !AllPinned(l, w) || l.rideIds == [] then (s, none)
    else
      var names := RideNames(l.rideIds);
      var nfts := BatchNfts(l.walletAddress, l.rideIds, l.date, names, Uris(l, w));
      var ran := AbortOf(reading, l.walletAddress, l.rideIds, names, Uris(l, w)).None?;
      var s1 := if w.chain.Applied()
                then s.(objects := if ran then s.objects + nfts else s.objects,
                        txs := s.txs + [Tx(l.participantId, l.date)])
                else s;
      if w.chain != Done then (s1, none)
      else
        var (t, err) := RecordAll(s1.tables, l, w, 0);
        (s1.(tables := t), MintResult(l.participantId, w.digest, true, err))
  }

  /** The Move call takes the batch: the recipient is not the zero address, in
      whatever spelling, and every ride name is UTF-8. */
  ghost predicate Accepted(reading: Reading, l: Live) {
    !reading.isZero(l.walletAddress) && forall i :: 0 <= i < |l.rideIds| ==> reading.utf8(RideName(l.rideIds[i]))
  }

  /** The chain gains one NFT per ride, index by index, all to the resolved wallet. */
  ghost predicate Delivered(s: Ledger, s': Ledger, l: Live, w: World)
    requires AllPinned(l, w)
  {
    && |s'.objects| == |s.objects| + |l.rideIds|
    && s'.objects[..|s.objects|] == s.objects
    && forall i :: 0 <= i < |l.rideIds| ==>
         s'.objects[|s.objects| + i]
         == Nft(l.walletAddress, l.rideIds[i], l.date, RideName(l.rideIds[i]), w.uri(i).value)
  }

  /** What reaches the chain: a metadata failure mints nothing; the arity asserts
      never fire; a result that says minted has a non-empty batch, and delivered
      it exactly when the Move call takes it -- otherwise the chain is unchanged
      although the result says minted. */
  lemma MintCorrespondence(s: Ledger, reading: Reading, l: Live, w: World)
    ensures var (s', r) := MintOne(s, reading, l, w);
            && (!AllPinned(l, w) ==> s' == s && !r.minted)
            && (AllPinned(l, w) ==>
                  var abort := AbortOf(reading, l.walletAddress, l.rideIds, RideNames(l.rideIds), Uris(l, w));
                  abort != Some(NamesArity) && abort != Some(UrlsArity))
            && (r.minted ==>
                  && l.rideIds != []
                  && (Delivered(s, s', l, w) <==> Accepted(reading, l))
                  && (!Accepted(reading, l) ==> s'.objects == s.objects))
  {}

  /** Minting one participant sends at most one transaction and touches the mint log only. */
  lemma MintOneOnly(s: Ledger, reading: Reading, l: Live, w: World)
    ensures var s' := MintOne(s, reading, l, w).0;
            && s'.tables == s.tables.(mints := s'.tables.mints)
            && (s'.txs == s.txs || s'.txs == s.txs + [Tx(l.participantId, l.date)])
  {
    RecordsOnly(s.tables, l, w, 0);
  }

  // ---- A batch ----

  /** `Run`: every live participant in turn; one failure does not stop the rest. */
  ghost function Batch(s: Ledger, reading: Reading, ls: seq<Live>, world: nat -> World, k: nat): Ledger
    decreases |ls|
  {
    if ls == [] then s else Batch(MintOne(s, reading, ls[0], world(k)).0, reading, ls[1..], world, k + 1)
  }

  lemma BatchFirst(s: Ledger, reading: Reading, ls: seq<Live>, world: nat -> World, k: nat)
    ensures ls == [] ==> Batch(s, reading, ls, world, k) == s
    ensures ls != [] ==>
              var first := MintOne(s, reading, ls[0], world(k)).0;
              Batch(s, reading, ls, world, k) == Batch(first, reading, ls[1..], world, k + 1)
  {}

  /** What `Run` answers: one result per entry, each minted where the one before left off. */
  ghost function Results(s: Ledger, reading: Reading, ls: seq<Live>, world: nat -> World, k: nat): seq<MintResult>
    decreases |ls|
  {
    if ls == [] then []
    else
      var (s1, r) := MintOne(s, reading, ls[0], world(k));
      [r] + Results(s1, reading, ls[1..], world, k + 1)
  }

  lemma ResultsFirst(s: Ledger, reading: Reading, ls: seq<Live>, world: nat -> World, k: nat, before: seq<MintResult>)
    requires ls != []
    ensures var (s1, r) := MintOne(s, reading, ls[0], world(k));
            before + Results(s, reading, ls, world, k)
            == before + [r] + Results(s1, reading, ls[1..], world, k + 1)
  {}

  function TxOf(l: Live): Tx { Tx(l.participantId, l.date) }

  /** The entry sends its transaction: there is metadata for every ride, there is a
      ride, and the call takes effect. The mint log has no say. */
  ghost predicate Sends(l: Live, w: World) { AllPinned(l, w) && l.rideIds != [] && w.chain.Applied() }

  ghost function OneSent(l: Live, w: World): seq<Tx> { if Sends(l, w) then [TxOf(l)] else [] }

  /** The transactions a batch sends, in order. */
  ghost function Sent(ls: seq<Live>, world: nat -> World, k: nat): seq<Tx>
    decreases |ls|
  {
    if ls == [] then [] else OneSent(ls[0], world(k)) + Sent(ls[1..], world, k + 1)
  }

  /** An entry that sends nothing changes nothing. */
  lemma MintOneSends(s: Ledger, reading: Reading, l: Live, w: World)
    ensures var s' := MintOne(s, reading, l, w).0;
            s'.txs == s.txs + OneSent(l, w) && (!Sends(l, w) ==> s' == s)
  {}

  lemma Associate(a: seq<Tx>, b: seq<Tx>, c: seq<Tx>)
    ensures a + b + c == a + (b + c)
  {}

  lemma {:induction false} BatchSends(s: Ledger, reading: Reading, ls: seq<Live>, world: nat -> World, k: nat)
    ensures Batch(s, reading, ls, world, k).txs == s.txs + Sent(ls, world, k)
    decreases |ls|
  {
    BatchFirst(s, reading, ls, world, k);
    if ls != [] {
      var s1 := MintOne(s, reading, ls[0], world(k)).0;
      MintOneSends(s, reading, ls[0], world(k));
      BatchSends(s1, reading, ls[1..], world, k + 1);
      Associate(s.txs, OneSent(ls[0], world(k)), Sent(ls[1..], world, k + 1));
    }
  }

  /** The entry sends this transaction. */
  ghost predicate SendsTx(l: Live, w: World, x: Tx) { TxOf(l) == x && Sends(l, w) }

  lemma SentAt(ls: seq<Live>, world: nat -> World, k: nat, x: Tx) returns (i: nat)
    requires x in Sent(ls, world, k)
    ensures i < |ls| && SendsTx(ls[i], world(k + i), x)
    decreases |ls|
  {
    if x in OneSent(ls[0], world(k)) {
      i := 0;
    } else {
      i := SentAt(ls[1..], world, k + 1, x);
      assert ls[1..][i] == ls[i + 1];
      i := i + 1;
    }
  }

  lemma {:induction false} SentHas(ls: seq<Live>, world: nat -> World, k: nat, i: nat)
    requires i < |ls| && Sends(ls[i], world(k + i))
    ensures TxOf(ls[i]) in Sent(ls, world, k)
    decreases |ls|
  {
    if i > 0 {
      assert ls[1..][i - 1] == ls[i];
      SentHas(ls[1..], world, k + 1, i - 1);
    }
  }

  predicate Distinct(txs: seq<Tx>) { forall i, j :: 0 <= i < j < |txs| ==> txs[i] != txs[j] }

  lemma DistinctAppend(a: seq<Tx>, b: seq<Tx>)
    ensures Distinct(a + b) <==> Distinct(a) && Distinct(b) && forall x :: x in b ==> x !in a
  {
    var all := a + b;
    if Distinct(all) {
      forall i, j | 0 <= i < j < |a| ensures a[i] != a[j] { assert all[i] != all[j]; }
      forall i, j | 0 <= i < j < |b| ensures b[i] != b[j] { assert all[|a| + i] != all[|a| + j]; }
      forall x | x in b ensures x !in a {
        var j :| 0 <= j < |b| && b[j] == x;
        forall i | 0 <= i < |a| ensures a[i] != x { assert all[i] != all[|a| + j]; }
      }
    }
    if Distinct(a) && Distinct(b) && forall x :: x in b ==> x !in a {
      forall i, j | 0 <= i < j < |all| ensures all[i] != all[j] {
        if i < |a| <= j { assert b[j - |a|] in b && all[i] in a; }
      }
    }
  }

  /** A participant appears in a batch at most once. */
  ghost predicate OncePerParticipant(ls: seq<Live>) {
    forall i, j :: 0 <= i < j < |ls| ==> ls[i].participantId != ls[j].participantId
  }

  lemma {:induction false} SentDistinct(ls: seq<Live>, world: nat -> World, k: nat)
    requires OncePerParticipant(ls)
    ensures Distinct(Sent(ls, world, k))
    decreases |ls|
  {
    if ls != [] {
      forall i, j | 0 <= i < j < |ls[1..]| ensures ls[1..][i].participantId != ls[1..][j].participantId {
        assert ls[i + 1].participantId != ls[j + 1].participantId;
      }
      SentDistinct(ls[1..], world, k + 1);
      var rest := Sent(ls[1..], world, k + 1);
      forall x | x in rest ensures x !in OneSent(ls[0], world(k)) {
        var i := SentAt(ls[1..], world, k + 1, x);
        assert ls[i + 1] == ls[1..][i];
      }
      DistinctAppend(OneSent(ls[0], world(k)), rest);
    }
  }

  /** Running a batch repeats a transaction of the chain exactly when an entry that
      sends is of a participant and date already there. */
  lemma RunDistinctExact(s: Ledger, reading: Reading, ls: seq<Live>, world: nat -> World)
    requires Distinct(s.txs) && OncePerParticipant(ls)
    ensures Distinct(Batch(s, reading, ls, world, 0).txs)
            <==> forall i :: 0 <= i < |ls| && Sends(ls[i], world(i)) ==> TxOf(ls[i]) !in s.txs
  {
    BatchSends(s, reading, ls, world, 0);
    SentDistinct(ls, world, 0);
    DistinctAppend(s.txs, Sent(ls, world, 0));
    forall i | 0 <= i < |ls| && Sends(ls[i], world(i)) ensures TxOf(ls[i]) in Sent(ls, world, 0) {
      SentHas(ls, world, 0, i);
    }
    forall x | x in Sent(ls, world, 0)
      ensures exists i :: 0 <= i < |ls| && Sends(ls[i], world(i)) && TxOf(ls[i]) == x
    {
      var i := SentAt(ls, world, 0, x);
    }
  }

  /** Only the entry itself can have sent its transaction. */
  lemma SentByItself(ls: seq<Live>, world: nat -> World, k: nat, i: nat)
    requires OncePerParticipant(ls) && i < |ls| && TxOf(ls[i]) in Sent(ls, world, k)
    ensures Sends(ls[i], world(k + i))
  {
    var j := SentAt(ls, world, k, TxOf(ls[i]));
    assert ls[j].participantId == ls[i].participantId;
    assert j == i;
  }

  lemma SentOwn(ls: seq<Live>, world: nat -> World, i: nat)
    requires OncePerParticipant(ls) && i < |ls|
    ensures TxOf(ls[i]) in Sent(ls, world, 0) <==> Sends(ls[i], world(i))
  {
    if Sends(ls[i], world(i)) {
      SentHas(ls, world, 0, i);
    } else if TxOf(ls[i]) in Sent(ls, world, 0) {
      SentByItself(ls, world, 0, i);
    }
  }

  lemma SentTwiceExact(ls: seq<Live>, first: nat -> World, second: nat -> World)
    requires OncePerParticipant(ls)
    ensures Distinct(Sent(ls, first, 0) + Sent(ls, second, 0))
            <==> forall i :: 0 <= i < |ls| ==> !(Sends(ls[i], first(i)) && Sends(ls[i], second(i)))
  {
    SentDistinct(ls, first, 0);
    SentDistinct(ls, second, 0);
    DistinctAppend(Sent(ls, first, 0), Sent(ls, second, 0));
    forall i | 0 <= i < |ls|
      ensures TxOf(ls[i]) in Sent(ls, first, 0) <==> Sends(ls[i], first(i))
      ensures TxOf(ls[i]) in Sent(ls, second, 0) <==> Sends(ls[i], second(i))
    {
      SentOwn(ls, first, i);
      SentOwn(ls, second, i);
    }
    forall x | x in Sent(ls, second, 0) ensures exists i :: 0 <= i < |ls| && TxOf(ls[i]) == x {
      var i := SentAt(ls, second, 0, x);
    }
  }

  /** Running one batch twice sends every transaction of both passes, whatever the
      mint log holds; one is repeated exactly when some entry sends both times. */
  lemma RunTwiceExact(s: Ledger, reading: Reading, ls: seq<Live>, first: nat -> World, second: nat -> World)
    requires OncePerParticipant(ls)
    ensures var s1 := Batch(s, reading, ls, first, 0);
            Batch(s1, reading, ls, second, 0).txs == s.txs + (Sent(ls, first, 0) + Sent(ls, second, 0))
    ensures Distinct(Sent(ls, first, 0) + Sent(ls, second, 0))
            <==> forall i :: 0 <= i < |ls| ==> !(Sends(ls[i], first(i)) && Sends(ls[i], second(i)))
  {
    BatchSends(s, reading, ls, first, 0);
    BatchSends(Batch(s, reading, ls, first, 0), reading, ls, second, 0);
    Associate(s.txs, Sent(ls, first, 0), Sent(ls, second, 0));
    SentTwiceExact(ls, first, second);
  }

  // ---- The program ----

  class BatchMinter {
    const chain: Chain
    const repo: Repo
    ghost var txs: seq<Tx>

    constructor (chain: Chain, repo: Repo)
      ensures this.chain == chain && this.repo == repo && txs == []
    {
      this.chain, this.repo, txs := chain, repo, [];
    }

    ghost function View(): Ledger
      reads this, chain, repo
    {
      Ledger(chain.objects, repo.View(), txs)
    }

    /** Resolve the owning account, then write one mint-log row. */
    method RecordMintForParticipant(id: nat, ride: string, date: string, digest: string, o: Outcome) returns (err: bool)
      requires Rooted(repo.View())
      modifies repo
      ensures var owner := OwnerUserId(old(repo.View()), id);
              && repo.View() == (if owner != 0 && o.Applied()
                                 then UpsertMint(old(repo.View()), MintKey(owner, ride, date), id, digest)
                                     else old(repo.View()))
              && (err <==> owner == 0 || o != Done)
    {
      var owner := repo.OwnerUserIDForParticipant(id);
      if owner == 0 { return true; }
      err := repo.RecordMint(MintKey(owner, ride, date), id, digest, o);
    }

    /** Fill names and URLs ride by ride; the first missing metadata stops it. */
    method FillMetadata(l: Live, w: World) returns (names: array<string>, urls: array<string>, ok: bool)
      ensures fresh(names) && fresh(urls)
      ensures ok <==> AllPinned(l, w)
      ensures ok ==> names[..] == RideNames(l.rideIds) && urls[..] == Uris(l, w)
    {
      var n := |l.rideIds|;
      names, urls, ok := new string[n], new string[n], true;
      var i := 0;
      while i < n
        invariant 0 <= i <= n
        invariant forall k :: 0 <= k < i ==>
                    w.uri(k).Some? && names[k] == RideName(l.rideIds[k]) && urls[k] == w.uri(k).value
      {
        if w.uri(i).None? { return names, urls, false; }
        names[i] := RideName(l.rideIds[i]);
        urls[i] := w.uri(i).value;
        i := i + 1;
      }
    }

    /** Record ride by ride; an error stops it. */
    method RecordRides(l: Live, w: World) returns (err: bool)
      requires Rooted(repo.View())
      modifies repo
      ensures RecordAll(old(repo.View()), l, w, 0) == (repo.View(), err)
      ensures Rooted(repo.View())
    {
      var i := 0;
      while i < |l.rideIds|
        invariant 0 <= i <= |l.rideIds| && Rooted(repo.View())
        invariant RecordAll(old(repo.View()), l, w, 0) == RecordAll(repo.View(), l, w, i)
      {
        ghost var t := repo.View();
        err := RecordMintForParticipant(l.participantId, l.rideIds[i], l.date, w.digest, w.record(i));
        SameParticipants(t, repo.View());
        if err { return; }
        i := i + 1;
      }
      err := false;
    }

    /** Metadata for every ride, one transaction, then the records. */
    method MintParticipant(reading: Reading, l: Live, w: World) returns (r: MintResult)
      requires Rooted(repo.View())
      modifies this, chain, repo
      ensures (View(), r) == MintOne(old(View()), reading, l, w)
      ensures Rooted(repo.View())
    {
      var names, urls, pinned := FillMetadata(l, w);
      if !pinned || l.rideIds == [] { return MintResult(l.participantId, "", false, true); }
      if w.chain.Applied() {
        var _ := chain.MintBatch(reading, l.walletAddress, l.rideIds, l.date, names[..], urls[..]);
        txs := txs + [Tx(l.participantId, l.date)];
      }
      if w.chain != Done { return MintResult(l.participantId, "", false, true); }
      var err := RecordRides(l, w);
      r := MintResult(l.participantId, w.digest, true, err);
    }

    /** Every live participant in turn, one result each. */
    method Run(reading: Reading, lives: seq<Live>, world: nat -> World) returns (results: seq<MintResult>)
      requires Rooted(repo.View())
      modifies this, chain, repo
      ensures View() == Batch(old(View()), reading, lives, world, 0)
      ensures Rooted(repo.View())
      ensures results == Results(old(View()), reading, lives, world, 0)
    {
      results := [];
      ghost var goal, answers := Batch(View(), reading, lives, world, 0), Results(View(), reading, lives, world, 0);
      var k := 0;
      assert lives[k..] == lives;
      while k < |lives|
        invariant 0 <= k <= |lives| && |results| == k && Rooted(repo.View())
        invariant goal == Batch(View(), reading, lives[k..], world, k)
        invariant answers == results + Results(View(), reading, lives[k..], world, k)
      {
        assert lives[k..][0] == lives[k] && lives[k..][1..] == lives[k + 1..];
        BatchFirst(View(), reading, lives[k..], world, k);
        ResultsFirst(View(), reading, lives[k..], world, k, results);
        var res := MintParticipant(reading, lives[k], world(k));
        results := results + [res];
        k := k + 1;
      }
    }
  }
}
