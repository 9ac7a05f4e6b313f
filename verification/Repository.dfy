/** The Postgres tables of participants, vouchers, users, pending mints and mint
    logs, with the statements the program sends to them. */
module Repository {
  import opened Core

  datatype WalletState = NONE | OWN_NON_CUSTODIAL | CUSTODIAL_PROXY

  datatype Participant = Participant(
    id: nat,
    name: string,
    accountEmail: Option<string>,
    guardianId: Option<nat>,
    walletState: WalletState,
    walletAddress: Option<string>
  )

  datatype Voucher = Voucher(claimed: bool, participantId: Option<nat>)

  datatype PendingMint = PendingMint(rideIds: seq<string>, scannedAts: seq<int>, walletState: WalletState)

  datatype MintRow = MintRow(participantId: nat, txDigest: string)

  /** The UNIQUE key of mint_logs. */
  datatype MintKey = MintKey(userId: nat, rideId: string, date: string)

  datatype PendingKey = PendingKey(participantId: nat, date: string)

  datatype Tables = Tables(
    participants: map<nat, Participant>,
    nextId: nat,                            // the participants sequence
    users: map<string, nat>,                // users by email
    vouchers: map<string, Voucher>,
    pendings: map<PendingKey, PendingMint>,
    mints: map<MintKey, MintRow>
  )

  const EmptyTables := Tables(map[], 1, map[], map[], map[], map[])

  // ---- Statements ----

  /** The tables the reset truncates, in its order; the first two and the tickets
      are not among `Tables`. */
  datatype TableName =
    | ScanEvents | ScanEventsOutbox | MintLogs | PendingMints | TicketVouchers | Participants | Tickets | Users

  const RESET_ORDER: seq<TableName> :=
    [ScanEvents, ScanEventsOutbox, MintLogs, PendingMints, TicketVouchers, Participants, Tickets, Users]

  /** TRUNCATE ... RESTART IDENTITY: no rows, and ids start over. */
  function Emptied(t: Tables, name: TableName): Tables {
    match name
    case MintLogs => t.(mints := map[])
    case PendingMints => t.(pendings := map[])
    case TicketVouchers => t.(vouchers := map[])
    case Participants => t.(participants := map[], nextId := 1)
    case Users => t.(users := map[])
    case _ => t
  }

  /** The reset stopped after its first `n` tables. */
  function Wiped(t: Tables, n: nat): Tables
    requires n <= |RESET_ORDER|
  {
    if n == 0 then t else Emptied(Wiped(t, n - 1), RESET_ORDER[n - 1])
  }

  /** INSERT INTO participants ... RETURNING *. */
  function Create(t: Tables, name: string, email: Option<string>, guardian: Option<nat>): (Tables, Participant) {
    var p := Participant(t.nextId, name, email, guardian, NONE, None);
    (t.(participants := t.participants[t.nextId := p], nextId := t.nextId + 1), p)
  }

  function SetWallet(t: Tables, id: nat, state: WalletState, addr: string): Tables {
    if id in t.participants
    then t.(participants :=
        t.participants[id := t.participants[id].(walletState := state, walletAddress := Some(addr))])
    else t
  }

  predicate HasEmail(t: Tables, id: nat, email: string) {
    id in t.participants && t.participants[id].accountEmail == Some(email)
  }

  /** SELECT ... WHERE account_email; the column is unique. */
  function ByEmail(t: Tables, email: string): Option<nat>
  {
    FirstWithEmail(t, email, 0)
  }

  function FirstWithEmail(t: Tables, email: string, from: nat): (id: Option<nat>)
    ensures id.Some? ==> HasEmail(t, id.value, email)
    ensures id.None? ==> forall k: nat :: from <= k < t.nextId ==> !HasEmail(t, k, email)
    decreases t.nextId - from
  {
    if from >= t.nextId then None
    else if HasEmail(t, from, email) then Some(from)
    else FirstWithEmail(t, email, from + 1)
  }

  /** UPDATE ticket_vouchers SET participant_id WHERE status='UNCLAIMED' AND participant_id IS NULL. */
  function Allocate(t: Tables, voucher: string, id: nat): Option<Tables> {
    if voucher in t.vouchers && !t.vouchers[voucher].claimed && t.vouchers[voucher].participantId.None?
    then Some(t.(vouchers := t.vouchers[voucher := t.vouchers[voucher].(participantId := Some(id))]))
    else None
  }

  /** INSERT ... ON CONFLICT (participant_id, mint_date) DO UPDATE. */
  function UpsertPending(t: Tables, key: PendingKey, row: PendingMint): Tables {
    t.(pendings := t.pendings[key := row])
  }

  /** INSERT ... ON CONFLICT (user_id, ride_id, mint_date) DO UPDATE: the digest
      is replaced, the participant is not. */
  function UpsertMint(t: Tables, key: MintKey, participant: nat, digest: string): Tables {
    var owner := if key in t.mints then t.mints[key].participantId else participant;
    t.(mints := t.mints[key := MintRow(owner, digest)])
  }
}
