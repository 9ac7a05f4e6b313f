/** The repository and the voucher service as the program runs them, each method
    proved to make exactly its statement's or operation's change. */
module VoucherService {
  import opened Core
  import opened Repository
  import opened Vouchers

  /** The Postgres repository: the tables, changed in place. */
  class Repo {
    var participants: map<nat, Participant>
    var nextId: nat
    var users: map<string, nat>
    var vouchers: map<string, Voucher>
    var pendings: map<PendingKey, PendingMint>
    var mints: map<MintKey, MintRow>

    ghost function View(): Tables
      reads this
    {
      Tables(participants, nextId, users, vouchers, pendings, mints)
    }

    constructor ()
      ensures View() == EmptyTables
    {
      participants, nextId, users, vouchers, pendings, mints := map[], 1, map[], map[], map[], map[];
    }

    method GetParticipantByEmail(email: string) returns (id: Option<nat>)
      ensures id == ByEmail(View(), email)
    {
      var k := 0;
      while k < nextId
        invariant 0 <= k <= nextId
        invariant ByEmail(View(), email) == FirstWithEmail(View(), email, k)
      {
        if k in participants && participants[k].accountEmail == Some(email) { return Some(k); }
        k := k + 1;
      }
      id := None;
    }

    method CreateParticipant(name: string, email: Option<string>, guardian: Option<nat>, o: Outcome)
      returns (id: nat, err: bool)
      modifies this
      ensures View() == if o.Applied() then Create(old(View()), name, email, guardian).0 else old(View())
      ensures id == old(nextId) && (err <==> o != Done)
    {
      id, err := nextId, o != Done;
      if o.Applied() {
        participants := participants[nextId := Participant(nextId, name, email, guardian, NONE, None)];
        nextId := nextId + 1;
      }
    }

    method SetParticipantWallet(id: nat, state: WalletState, addr: string, o: Outcome) returns (err: bool)
      modifies this
      ensures View() == if o.Applied() then SetWallet(old(View()), id, state, addr) else old(View())
      ensures err <==> o != Done
    {
      err := o != Done;
      if o.Applied() && id in participants {
        participants := participants[id := participants[id].(walletState := state, walletAddress := Some(addr))];
      }
    }

    /** Zero rows affected means the voucher is unknown, claimed or already allocated. */
    method DelegateVoucher(voucher: string, id: nat, o: Outcome) returns (taken: bool, err: bool)
      modifies this
      ensures View() == if o.Applied() && Allocate(old(View()), voucher, id).Some?
                        then Allocate(old(View()), voucher, id).value else old(View())
      ensures (err <==> o != Done) && (!err ==> (taken <==> Allocate(old(View()), voucher, id).None?))
    {
      err := o != Done;
      taken := !(voucher in vouchers && !vouchers[voucher].claimed && vouchers[voucher].participantId.None?);
      if o.Applied() && !taken {
        vouchers := vouchers[voucher := vouchers[voucher].(participantId := Some(id))];
      }
    }

    method UpsertPendingMint(key: PendingKey, row: PendingMint, o: Outcome) returns (err: bool)
      modifies this
      ensures View() == if o.Applied() then UpsertPending(old(View()), key, row) else old(View())
      ensures err <==> o != Done
    {
      err := o != Done;
      if o.Applied() { pendings := pendings[key := row]; }
    }

    method RecordMint(key: MintKey, participant: nat, digest: string, o: Outcome) returns (err: bool)
      modifies this
      ensures View() == if o.Applied() then UpsertMint(old(View()), key, participant, digest) else old(View())
      ensures err <==> o != Done
    {
      err := o != Done;
      if o.Applied() {
        if key in mints {
          mints := mints[key := MintRow(mints[key].participantId, digest)];
        } else {
          mints := mints[key := MintRow(participant, digest)];
        }
      }
    }

    /** INSERT INTO users ... ON CONFLICT (email): an existing user keeps its id. */
    method CreateUser(email: string, newId: nat, o: Outcome) returns (err: bool)
      requires newId != 0
      modifies this
      ensures View() == if o.Applied() then Step(old(View()), UserOp(email, newId)) else old(View())
      ensures err <==> o != Done
    {
      err := o != Done;
      if o.Applied() && email !in users { users := users[email := newId]; }
    }

    /** SELECT ... WHERE name AND guardian_id LIMIT 1: any one of them. */
    method FindDependent(name: string, guardianId: nat) returns (id: Option<nat>)
      ensures id.Some? <==> HasChild(View(), name, guardianId)
      ensures id.Some? ==> IsChild(View(), id.value, name, guardianId)
    {
      if exists k :: k in participants && participants[k].name == name
          && participants[k].guardianId == Some(guardianId) {
        var k :| k in participants && participants[k].name == name && participants[k].guardianId == Some(guardianId);
        assert IsChild(View(), k, name, guardianId);
        id := Some(k);
      } else {
        id := None;
        assert forall k :: k in participants ==> !IsChild(View(), k, name, guardianId);
      }
    }

    method Truncate(name: TableName, o: Outcome) returns (err: bool)
      modifies this
      ensures View() == if o.Applied() then Emptied(old(View()), name) else old(View())
      ensures err <==> o != Done
    {
      err := o != Done;
      if o.Applied() {
        match name {
          case MintLogs => mints := map[];
          case PendingMints => pendings := map[];
          case TicketVouchers => vouchers := map[];
          case Participants => participants, nextId := map[], 1;
          case Users => users := map[];
          case _ =>
        }
      }
    }

    /** The recursive query: up the guardians to the head, then its user; 0 if there is none. */
    method OwnerUserIDForParticipant(id: nat) returns (userId: nat)
      requires Rooted(View())
      ensures userId == OwnerUserId(View(), id)
      ensures forall u :: MayAnswer(View(), id, u) ==> u == userId
    {
      GuardianWalk(View(), id);
      var at := id;
      while at in participants && participants[at].guardianId.Some?
        invariant Head(View(), at) == Head(View(), id)
        decreases at
      {
        assert ParticipantOk(View(), at);
        at := participants[at].guardianId.value;
      }
      userId := 0;
      if at in participants && participants[at].accountEmail.Some? && participants[at].accountEmail.value in users {
        userId := users[participants[at].accountEmail.value];
      }
    }
  }

  class Service {
    const repo: Repo

    constructor (repo: Repo)
      ensures this.repo == repo
    {
      this.repo := repo;
    }

    /** Allocate a voucher to an account or to a new dependent. */
    method DelegateVoucher(req: Request, f: DelegateFaults) returns (r: Result<Response, DelegateError>)
      requires Rooted(repo.View())
      modifies repo
      ensures (repo.View(), r) == Delegate(old(repo.View()), req, f)
      ensures Rooted(repo.View())
    {
      ghost var before := repo.View();
      ResolveKeepsRooted(before, req, f);
      var id: nat;
      match req.mode {
        case Account =>
          if req.accountEmail == "" { return Err(InvalidDelegation); }
          if f.lookup != Done { return Err(Infra); }
          var known := repo.GetParticipantByEmail(req.accountEmail);
          if known.Some? {
            id := known.value;
          } else {
            var err: bool;
            id, err := repo.CreateParticipant(req.accountEmail, Some(req.accountEmail), None, f.create);
            if err { return Err(Infra); }
          }
        case Dependent =>
          if req.guardianId == 0 { return Err(InvalidDelegation); }
          if f.lookup != Done { return Err(Infra); }
          if req.guardianId !in repo.participants { return Err(ParticipantNotFound); }
          var err: bool;
          id, err := repo.CreateParticipant(req.name, None, Some(req.guardianId), f.create);
          if err { return Err(Infra); }
          err := repo.SetParticipantWallet(id, CUSTODIAL_PROXY, CustodialWalletFor(id), f.wallet);
          if err { return Err(Infra); }
        case OtherMode =>
          return Err(InvalidDelegation);
      }
      ghost var resolved := repo.View();
      assert Resolve(before, req, f) == (resolved, Ok(id));
      var taken, err := repo.DelegateVoucher(req.voucherId, id, f.allocate);
      SameParticipants(resolved, repo.View());
      if err { return Err(Infra); }
      if taken { return Err(VoucherAllocated); }
      r := Ok(Response(id, ResolveMintWallet(repo.participants[id])));
    }

    /** Persist a participant's rides for a mint date with its current wallet state. */
    method RecordPendingMint(id: nat, date: string, rides: seq<string>, ats: seq<int>, get: Outcome,
          o: Outcome) returns (err: bool)
      modifies repo
      ensures get != Done || id !in old(repo.participants) ==> err && repo.View() == old(repo.View())
      ensures get == Done && id in old(repo.participants) ==>
                && (err <==> o != Done)
                && var row := PendingMint(rides, ats, ResolveMintWallet(old(repo.participants)[id]).walletState);
                   repo.View() == if o.Applied() then UpsertPending(old(repo.View()), PendingKey(id, date), row)
                       else old(repo.View())
    {
      if get != Done || id !in repo.participants { return true; }
      var state := ResolveMintWallet(repo.participants[id]).walletState;
      err := repo.UpsertPendingMint(PendingKey(id, date), PendingMint(rides, ats, state), o);
    }

    /** A dependent's custody moves to their own wallet; nobody else's can. */
    method TakeCustody(id: nat, ownWallet: string, o: Outcome) returns (err: bool)
      modifies repo
      ensures repo.View() == if o.Applied() then ClaimCustody(old(repo.View()), id, ownWallet) else old(repo.View())
      ensures err <==>
                o != Done || id !in old(repo.participants) || old(repo.participants)[id].walletState != CUSTODIAL_PROXY
    {
      if id !in repo.participants || repo.participants[id].walletState != CUSTODIAL_PROXY { return true; }
      err := repo.SetParticipantWallet(id, OWN_NON_CUSTODIAL, ownWallet, o);
    }
  }
}
