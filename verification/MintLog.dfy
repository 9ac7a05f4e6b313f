/** What a mint answers and what the mint log says afterwards: which transaction
    each row names. */
module MintLog {
  import opened Core
  import opened Repository
  import opened Vouchers
  import opened AttendanceNft
  import opened BatchMint

  // ---- One participant ----

  /** The key of the `j`-th record. */
  function KeyOf(t: Tables, l: Live, j: nat): MintKey
    requires j < |l.rideIds|
  {
    MintKey(OwnerUserId(t, l.participantId), l.rideIds[j], l.date)
  }

  /** Some record from the `from`-th on is for this key, is reached and takes effect. */
  ghost predicate Writes(t: Tables, l: Live, w: World, from: nat, key: MintKey) {
    && OwnerUserId(t, l.participantId) != 0
    && exists j :: from <= j < |l.rideIds| && Reached(w, from, j) && w.record(j).Applied() && KeyOf(t, l, j) == key
  }

  /** What the records leave of one row. */
  function RowAfter(t: Tables, l: Live, w: World, key: MintKey): MintRow {
    MintRow(if key in t.mints then t.mints[key].participantId else l.participantId, w.digest)
  }

  /** Every row a record is reached for and takes effect on names this transaction, and
      whoever had it before; every other row is as it was. */
  lemma {:induction false} RecordsExact(t: Tables, l: Live, w: World, i: nat, key: MintKey)
    requires i <= |l.rideIds|
    ensures var t' := RecordAll(t, l, w, i).0;
            if Writes(t, l, w, i, key) then key in t'.mints && t'.mints[key] == RowAfter(t, l, w, key)
            else (key in t'.mints <==> key in t.mints) && (key in t.mints ==> t'.mints[key] == t.mints[key])
    decreases |l.rideIds| - i
  {
    if i < |l.rideIds| && OwnerUserId(t, l.participantId) != 0 {
      var t1 := if w.record(i).Applied() then UpsertMint(t, KeyOf(t, l, i), l.participantId, w.digest) else t;
      OwnerSame(t, t1, l.participantId);
      WritesFirst(t, t1, l, w, i, key);
      if w.record(i) == Done { RecordsExact(t1, l, w, i + 1, key); }
    }
  }

  /** A key is written by the first record or by a later one. */
  lemma WritesFirst(t: Tables, t1: Tables, l: Live, w: World, i: nat, key: MintKey)
    requires i < |l.rideIds| && OwnerUserId(t, l.participantId) != 0
    requires OwnerUserId(t1, l.participantId) == OwnerUserId(t, l.participantId)
    ensures Writes(t, l, w, i, key)
            <==> (w.record(i).Applied() && KeyOf(t, l, i) == key)
                 || (w.record(i) == Done && Writes(t1, l, w, i + 1, key))
  {
    if w.record(i).Applied() && KeyOf(t, l, i) == key { assert Reached(w, i, i); }
    if Writes(t, l, w, i, key) { WrittenLater(t, t1, l, w, i, key); }
    if w.record(i) == Done && Writes(t1, l, w, i + 1, key) {
      var j :| i + 1 <= j < |l.rideIds| && Reached(w, i + 1, j) && w.record(j).Applied() && KeyOf(t1, l, j) == key;
      assert Reached(w, i, j) && KeyOf(t, l, j) == key;
    }
  }

  lemma WrittenLater(t: Tables, t1: Tables, l: Live, w: World, i: nat, key: MintKey)
    requires i < |l.rideIds| && Writes(t, l, w, i, key)
    requires OwnerUserId(t1, l.participantId) == OwnerUserId(t, l.participantId)
    ensures (w.record(i).Applied() && KeyOf(t, l, i) == key)
            || (w.record(i) == Done && Writes(t1, l, w, i + 1, key))
  {
    var j :| i <= j < |l.rideIds| && Reached(w, i, j) && w.record(j).Applied() && KeyOf(t, l, j) == key;
    if j > i {
      assert w.record(i) == Done;
      assert Reached(w, i + 1, j) && KeyOf(t1, l, j) == key;
    }
  }

  /** Recording fails exactly when there is something to record and either nobody owns
      the participant or some record is not done. */
  lemma {:induction false} RecordsFail(t: Tables, l: Live, w: World, i: nat)
    requires i <= |l.rideIds|
    ensures RecordAll(t, l, w, i).1
            <==> i < |l.rideIds|
                 && (OwnerUserId(t, l.participantId) == 0 || exists j :: i <= j < |l.rideIds| && w.record(j) != Done)
    decreases |l.rideIds| - i
  {
    if i < |l.rideIds| && OwnerUserId(t, l.participantId) != 0 {
      var t1 := if w.record(i).Applied() then UpsertMint(t, KeyOf(t, l, i), l.participantId, w.digest) else t;
      OwnerSame(t, t1, l.participantId);
      if w.record(i) == Done { RecordsFail(t1, l, w, i + 1); }
    }
  }

  /** When the answer says minted, with which digest, and when it carries an error; one
      without an error has a row for every ride, naming that transaction. */
  lemma MintAnswers(s: Ledger, reading: Reading, l: Live, w: World)
    ensures var (s', r) := MintOne(s, reading, l, w);
            && r.participantId == l.participantId
            && (r.minted <==> AllPinned(l, w) && l.rideIds != [] && w.chain == Done)
            && r.txDigest == (if r.minted then w.digest else "")
            && (r.failed <==> !r.minted || OwnerUserId(s.tables, l.participantId) == 0
                              || exists j :: 0 <= j < |l.rideIds| && w.record(j) != Done)
            && (!r.failed ==> forall j :: 0 <= j < |l.rideIds| ==>
                  var key := KeyOf(s.tables, l, j);
                  key in s'.tables.mints && s'.tables.mints[key].txDigest == w.digest)
  {
    RecordsFail(s.tables, l, w, 0);
    var r := MintOne(s, reading, l, w).1;
    if !r.failed {
      forall j | 0 <= j < |l.rideIds|
        ensures KeyOf(s.tables, l, j) in RecordAll(s.tables, l, w, 0).0.mints
                && RecordAll(s.tables, l, w, 0).0.mints[KeyOf(s.tables, l, j)].txDigest == w.digest
      {
        assert Reached(w, 0, j) && w.record(j).Applied();
        RecordsExact(s.tables, l, w, 0, KeyOf(s.tables, l, j));
      }
    }
  }

  // ---- A batch ----

  /** The entry is minted and writes the key. */
  ghost predicate EntryWrites(t: Tables, l: Live, w: World, key: MintKey) {
    AllPinned(l, w) && l.rideIds != [] && w.chain == Done && Writes(t, l, w, 0, key)
  }

  lemma EntryExact(s: Ledger, reading: Reading, l: Live, w: World, key: MintKey)
    ensures var t' := MintOne(s, reading, l, w).0.tables;
            && t' == s.tables.(mints := t'.mints)
            && if EntryWrites(s.tables, l, w, key)
               then key in t'.mints && t'.mints[key] == RowAfter(s.tables, l, w, key)
               else (key in t'.mints <==> key in s.tables.mints)
                    && (key in s.tables.mints ==> t'.mints[key] == s.tables.mints[key])
  {
    MintOneOnly(s, reading, l, w);
    RecordsExact(s.tables, l, w, 0, key);
  }

  /** One result per entry, in order, each saying minted exactly when its entry's
      metadata, rides and transaction allow it, whatever became of the others. */
  lemma {:induction false} ResultsExact(s: Ledger, reading: Reading, ls: seq<Live>, world: nat -> World, k: nat, i: nat)
    requires i < |ls|
    ensures var rs := Results(s, reading, ls, world, k);
            && |rs| == |ls| && rs[i].participantId == ls[i].participantId
            && (rs[i].minted <==> AllPinned(ls[i], world(k + i)) && ls[i].rideIds != [] && world(k + i).chain == Done)
            && rs[i].txDigest == (if rs[i].minted then world(k + i).digest else "")
    decreases |ls|
  {
    var s1 := MintOne(s, reading, ls[0], world(k)).0;
    MintAnswers(s, reading, ls[0], world(k));
    ResultsFirst(s, reading, ls, world, k, []);
    if i == 0 {
      if ls[1..] != [] { ResultsExact(s1, reading, ls[1..], world, k + 1, 0); }
    } else {
      ResultsExact(s1, reading, ls[1..], world, k + 1, i - 1);
      assert k + 1 + (i - 1) == k + i;
    }
  }

  /** Who writes a key depends on participants and users only. */
  lemma WritesSame(t: Tables, t1: Tables, l: Live, w: World, key: MintKey)
    requires t1.participants == t.participants && t1.users == t.users
    ensures EntryWrites(t1, l, w, key) <==> EntryWrites(t, l, w, key)
  {
    OwnerSame(t, t1, l.participantId);
    forall j | 0 <= j < |l.rideIds| ensures KeyOf(t1, l, j) == KeyOf(t, l, j) {}
  }

  /** The digest of the last entry of the batch that writes the key. */
  ghost function LastWritten(t: Tables, ls: seq<Live>, world: nat -> World, k: nat, key: MintKey): Option<string>
    decreases |ls|
  {
    if ls == [] then None
    else
      var later := LastWritten(t, ls[1..], world, k + 1, key);
      if later.Some? then later
      else if EntryWrites(t, ls[0], world(k), key) then Some(world(k).digest) else None
  }

  lemma {:induction false} LastWrittenSame(t: Tables, t1: Tables, ls: seq<Live>, world: nat -> World, k: nat,
        key: MintKey)
    requires t1.participants == t.participants && t1.users == t.users
    ensures LastWritten(t1, ls, world, k, key) == LastWritten(t, ls, world, k, key)
    decreases |ls|
  {
    if ls != [] {
      WritesSame(t, t1, ls[0], world(k), key);
      LastWrittenSame(t, t1, ls[1..], world, k + 1, key);
    }
  }

  /** How a batch can leave one row: with this digest, or untouched. */
  predicate RowBecomes(t: Tables, t': Tables, key: MintKey, digest: Option<string>) {
    if digest.Some?
    then && key in t'.mints && t'.mints[key].txDigest == digest.value
         && (key in t.mints ==> t'.mints[key].participantId == t.mints[key].participantId)
    else (key in t'.mints <==> key in t.mints) && (key in t.mints ==> t'.mints[key] == t.mints[key])
  }

  lemma EntryBecomes(s: Ledger, reading: Reading, l: Live, w: World, key: MintKey)
    ensures var s1 := MintOne(s, reading, l, w).0;
            && s1.tables.participants == s.tables.participants && s1.tables.users == s.tables.users
            && RowBecomes(s.tables, s1.tables, key, if EntryWrites(s.tables, l, w, key) then Some(w.digest) else None)
  {
    EntryExact(s, reading, l, w, key);
  }

  lemma Becomes(t: Tables, t1: Tables, t2: Tables, key: MintKey, first: Option<string>, rest: Option<string>)
    requires RowBecomes(t, t1, key, first) && RowBecomes(t1, t2, key, rest)
    ensures RowBecomes(t, t2, key, if rest.Some? then rest else first)
  {}

  /** After a batch every row that some entry wrote names the transaction of the last
      one that did, and the participant who had it first; every other row is as it was. */
  lemma {:induction false} BatchDigests(s: Ledger, reading: Reading, ls: seq<Live>, world: nat -> World, k: nat,
        key: MintKey)
    ensures RowBecomes(s.tables, Batch(s, reading, ls, world, k).tables, key,
                LastWritten(s.tables, ls, world, k, key))
    decreases |ls|
  {
    BatchFirst(s, reading, ls, world, k);
    if ls != [] {
      var s1 := MintOne(s, reading, ls[0], world(k)).0;
      EntryBecomes(s, reading, ls[0], world(k), key);
      BatchDigests(s1, reading, ls[1..], world, k + 1, key);
      LastWrittenSame(s.tables, s1.tables, ls[1..], world, k + 1, key);
      Becomes(s.tables, s1.tables, Batch(s1, reading, ls[1..], world, k + 1).tables, key,
          if EntryWrites(s.tables, ls[0], world(k), key) then Some(world(k).digest) else None,
          LastWritten(s.tables, ls[1..], world, k + 1, key));
    }
  }

  /** Entry `j` of the batch writes the key. */
  ghost predicate WritesAt(t: Tables, ls: seq<Live>, world: nat -> World, k: nat, j: nat, key: MintKey) {
    j < |ls| && EntryWrites(t, ls[j], world(k + j), key)
  }

  lemma WritesAtRest(t: Tables, ls: seq<Live>, world: nat -> World, k: nat, j: nat, key: MintKey)
    requires ls != []
    ensures WritesAt(t, ls[1..], world, k + 1, j, key) <==> WritesAt(t, ls, world, k, j + 1, key)
  {
    assert k + 1 + j == k + (j + 1);
  }

  /** No entry after `from` writes the key, counted from the rest of the batch. */
  lemma RestUnwritten(t: Tables, ls: seq<Live>, world: nat -> World, k: nat, from: nat, key: MintKey)
    requires ls != [] && forall j :: from < j < |ls| ==> !WritesAt(t, ls, world, k, j, key)
    ensures var rest, next := ls[1..], k + 1;
            forall j :: from <= j < |rest| ==> !WritesAt(t, rest, world, next, j, key)
  {
    var rest, next := ls[1..], k + 1;
    forall j | from <= j < |rest| ensures !WritesAt(t, rest, world, next, j, key) {
      WritesAtRest(t, ls, world, k, j, key);
      assert !WritesAt(t, ls, world, k, j + 1, key);
    }
  }

  lemma {:induction false} NoneWritten(t: Tables, ls: seq<Live>, world: nat -> World, k: nat, key: MintKey)
    requires forall j :: 0 <= j < |ls| ==> !WritesAt(t, ls, world, k, j, key)
    ensures LastWritten(t, ls, world, k, key) == None
    decreases |ls|
  {
    if ls != [] {
      assert !WritesAt(t, ls, world, k, 0, key);
      RestUnwritten(t, ls, world, k, 0, key);
      NoneWritten(t, ls[1..], world, k + 1, key);
    }
  }

  lemma LastWrittenFirst(t: Tables, ls: seq<Live>, world: nat -> World, k: nat, key: MintKey)
    requires ls != []
    ensures var later := LastWritten(t, ls[1..], world, k + 1, key);
            && (later.Some? ==> LastWritten(t, ls, world, k, key) == later)
            && (later.None? && WritesAt(t, ls, world, k, 0, key) ==>
                  LastWritten(t, ls, world, k, key) == Some(world(k).digest))
  {}

  /** And that digest is the one of entry `i` when it writes the key and no later one does. */
  lemma {:induction false} LastWrittenIs(t: Tables, ls: seq<Live>, world: nat -> World, k: nat, i: nat, key: MintKey)
    requires WritesAt(t, ls, world, k, i, key)
    requires forall j :: i < j < |ls| ==> !WritesAt(t, ls, world, k, j, key)
    ensures LastWritten(t, ls, world, k, key) == Some(world(k + i).digest)
    decreases |ls|
  {
    RestUnwritten(t, ls, world, k, i, key);
    LastWrittenFirst(t, ls, world, k, key);
    if i == 0 {
      NoneWritten(t, ls[1..], world, k + 1, key);
    } else {
      WritesAtRest(t, ls, world, k, i - 1, key);
      LastWrittenIs(t, ls[1..], world, k + 1, i - 1, key);
    }
  }
}
