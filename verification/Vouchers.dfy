/** Voucher delegation, participants' wallets, and the walk from a dependent to
    the account that owns it. */
module Vouchers {
  import opened Core
  import opened Decimals
  import opened Repository

  datatype Mode = Account | Dependent | OtherMode

  datatype Request = Request(voucherId: string, mode: Mode, accountEmail: string, name: string, guardianId: nat)

  datatype DelegateError = InvalidDelegation | ParticipantNotFound | VoucherAllocated | Infra

  datatype MintResolution = MintResolution(walletState: WalletState, walletAddress: string, pending: bool)

  datatype Response = Response(participantId: nat, resolution: MintResolution)

  datatype DelegateFaults = DelegateFaults(lookup: Outcome, create: Outcome, wallet: Outcome, allocate: Outcome)

  /** The dependent's dedicated custodial wallet. */
  function CustodialWalletFor(id: nat): string { "0xguardian-custodial-" + Decimal(id) }

  /** An own or custodial wallet with an address is mint-ready; an account without one is pending. */
  function ResolveMintWallet(p: Participant): MintResolution {
    var addr := if p.walletAddress.Some? then p.walletAddress.value else "";
    match p.walletState
    case OWN_NON_CUSTODIAL => MintResolution(OWN_NON_CUSTODIAL, addr, addr == "")
    case CUSTODIAL_PROXY => MintResolution(CUSTODIAL_PROXY, addr, false)
    case NONE => MintResolution(NONE, "", true)
  }

  // ---- Delegation ----

  /** The participant a request is for, created if need be. */
  function Resolve(t: Tables, req: Request, f: DelegateFaults): (Tables, Result<nat, DelegateError>) {
    match req.mode
    case Account =>
      if req.accountEmail == "" then (t, Err(InvalidDelegation))
      else if f.lookup != Done then (t, Err(Infra))
      else
        var known := ByEmail(t, req.accountEmail);
        if known.Some? then (t, Ok(known.value))
        else
          var (t1, p) := Create(t, req.accountEmail, Some(req.accountEmail), None);
          (if f.create.Applied() then t1 else t, if f.create == Done then Ok(p.id) else Err(Infra))
    case Dependent =>
      if req.guardianId == 0 then (t, Err(InvalidDelegation))
      else if f.lookup != Done then (t, Err(Infra))
      else if req.guardianId !in t.participants then (t, Err(ParticipantNotFound))
      else
        var (t1, p) := Create(t, req.name, None, Some(req.guardianId));
        if f.create != Done then (if f.create.Applied() then t1 else t, Err(Infra))
        else
          (if f.wallet.Applied() then SetWallet(t1, p.id, CUSTODIAL_PROXY, CustodialWalletFor(p.id)) else t1,
           if f.wallet == Done then Ok(p.id) else Err(Infra))
    case OtherMode => (t, Err(InvalidDelegation))
  }

  function Delegate(t: Tables, req: Request, f: DelegateFaults): (Tables, Result<Response, DelegateError>) {
    var (t1, target) := Resolve(t, req, f);
    if target.Err? then (t1, Err(target.error))
    else
      var linked := Allocate(t1, req.voucherId, target.value);
      var t2 := if f.allocate.Applied() && linked.Some? then linked.value else t1;
      if f.allocate != Done then (t2, Err(Infra))
      else if linked.None? then (t2, Err(VoucherAllocated))
      else if target.value in t2.participants
          then (t2, Ok(Response(target.value, ResolveMintWallet(t2.participants[target.value]))))
      else (t2, Err(ParticipantNotFound))
  }

  // ---- The other operations on participants and vouchers ----

  datatype Op =
    | DelegateOp(req: Request, f: DelegateFaults)
    | CustodyOp(id: nat, ownWallet: string)       // a dependent attaches their own wallet
    | AttachOp(email: string, ownWallet: string)  // an account attaches its own wallet
    | UserOp(email: string, id: nat)              // an account signs up
    | IssueOp(voucher: string)                    // a voucher is bought
    | ClaimOp(voucher: string)                    // a voucher is claimed by its owner
    | AccountOp(email: string)                    // seeding: get or create an account's participant
    | ChildOp(name: string, guardianId: nat)      // seeding: get or create a dependent
    | ChildWalletOp(id: nat, wallet: string)      // seeding: a dependent gets its guardian's address

  function ClaimCustody(t: Tables, id: nat, ownWallet: string): Tables {
    if id in t.participants && t.participants[id].walletState == CUSTODIAL_PROXY
    then SetWallet(t, id, OWN_NON_CUSTODIAL, ownWallet) else t
  }

  function Step(t: Tables, op: Op): Tables {
    match op
    case DelegateOp(req, f) => Delegate(t, req, f).0
    case CustodyOp(id, w) => ClaimCustody(t, id, w)
    case AttachOp(email, w) =>
      var id := ByEmail(t, email);
      if id.Some? then SetWallet(t, id.value, OWN_NON_CUSTODIAL, w) else t
    case UserOp(email, id) => if email in t.users || id == 0 then t else t.(users := t.users[email := id])
    case IssueOp(v) => if v in t.vouchers then t else t.(vouchers := t.vouchers[v := Voucher(false, None)])
    case ClaimOp(v) =>
      if v in t.vouchers && !t.vouchers[v].claimed
          then t.(vouchers := t.vouchers[v := t.vouchers[v].(claimed := true)]) else t
    case AccountOp(email) =>
      if email == "" || ByEmail(t, email).Some? then t else Create(t, email, Some(email), None).0
    case ChildOp(name, g) =>
      if g !in t.participants || HasChild(t, name, g) then t else Create(t, name, None, Some(g)).0
    case ChildWalletOp(id, w) => if TakesWallet(t, id, w) then SetWallet(t, id, CUSTODIAL_PROXY, w) else t
  }

  predicate IsChild(t: Tables, id: nat, name: string, guardianId: nat) {
    id in t.participants && t.participants[id].name == name && t.participants[id].guardianId == Some(guardianId)
  }

  /** SELECT ... WHERE name AND guardian_id. */
  predicate HasChild(t: Tables, name: string, guardianId: nat) {
    exists id :: id in t.participants && IsChild(t, id, name, guardianId)
  }

  predicate TakesWallet(t: Tables, id: nat, wallet: string) {
    id in t.participants && t.participants[id].guardianId.Some? && wallet != ""
  }

  function Run(t: Tables, ops: seq<Op>): Tables
    decreases |ops|
  {
    if ops == [] then t else Run(Step(t, ops[0]), ops[1..])
  }

  // ---- The family forest ----

  /** Ids come from the sequence; a participant has an account or an older
      guardian, never both; emails are unique; a custodial wallet has an address. */
  ghost predicate Rooted(t: Tables) {
    && (forall id {:trigger ParticipantOk(t, id)} :: id in t.participants ==> ParticipantOk(t, id))
    && (forall i, j | i in t.participants && j in t.participants ::
          t.participants[i].accountEmail.Some? && t.participants[i].accountEmail == t.participants[j].accountEmail ==>
            i == j)
  }

  ghost predicate ParticipantOk(t: Tables, id: nat)
    requires id in t.participants
  {
    var p := t.participants[id];
    && p.id == id < t.nextId
    && (p.accountEmail.Some? <==> p.guardianId.None?)
    && (p.accountEmail.Some? ==> p.accountEmail.value != "")
    && (p.guardianId.Some? ==> p.guardianId.value < id && p.guardianId.value in t.participants)
    && (p.walletState == CUSTODIAL_PROXY ==> p.walletAddress.Some? && p.walletAddress.value != "")
  }

  lemma CreateKeepsRooted(t: Tables, name: string, email: Option<string>, guardian: Option<nat>)
    requires Rooted(t)
    requires email.Some? <==> guardian.None?
    requires email.Some? ==> email.value != "" && forall k: nat :: !HasEmail(t, k, email.value)
    requires guardian.Some? ==> guardian.value in t.participants
    ensures Rooted(Create(t, name, email, guardian).0)
  {
    var t' := Create(t, name, email, guardian).0;
    if guardian.Some? { assert ParticipantOk(t, guardian.value); }
    forall id | id in t'.participants ensures ParticipantOk(t', id) {
      if id in t.participants { assert ParticipantOk(t, id); }
    }
    forall k | k in t.participants && email.Some? ensures t.participants[k].accountEmail != email {
      assert !HasEmail(t, k, email.value);
    }
    forall i, j | i in t'.participants && j in t'.participants
      && t'.participants[i].accountEmail.Some? && t'.participants[i].accountEmail == t'.participants[j].accountEmail
      ensures i == j
    {
      if i in t.participants { assert ParticipantOk(t, i); }
      if j in t.participants { assert ParticipantOk(t, j); }
    }
  }

  lemma SetWalletKeepsRooted(t: Tables, id: nat, state: WalletState, addr: string)
    requires Rooted(t) && (state == CUSTODIAL_PROXY ==> addr != "")
    ensures Rooted(SetWallet(t, id, state, addr))
  {
    var t' := SetWallet(t, id, state, addr);
    forall k | k in t'.participants ensures ParticipantOk(t', k) { assert ParticipantOk(t, k); }
  }

  /** An unknown email is nobody's. */
  lemma UnknownEmail(t: Tables, email: string)
    requires Rooted(t) && ByEmail(t, email).None?
    ensures forall k: nat :: !HasEmail(t, k, email)
  {
    forall k: nat ensures !HasEmail(t, k, email) {
      if k in t.participants { assert ParticipantOk(t, k); }
    }
  }

  /** What creating the participant a request asks for keeps. */
  lemma AccountKeepsRooted(t: Tables, email: string)
    requires Rooted(t) && email != "" && ByEmail(t, email).None?
    ensures Rooted(Create(t, email, Some(email), None).0)
  {
    UnknownEmail(t, email);
    CreateKeepsRooted(t, email, Some(email), None);
  }

  lemma DependentKeepsRooted(t: Tables, name: string, guardian: nat)
    requires Rooted(t) && guardian in t.participants
    ensures var t1 := Create(t, name, None, Some(guardian)).0;
            Rooted(t1) && Rooted(SetWallet(t1, t.nextId, CUSTODIAL_PROXY, CustodialWalletFor(t.nextId)))
  {
    CreateKeepsRooted(t, name, None, Some(guardian));
    SetWalletKeepsRooted(Create(t, name, None, Some(guardian)).0, t.nextId, CUSTODIAL_PROXY,
        CustodialWalletFor(t.nextId));
  }

  /** Everything a request can leave behind. */
  lemma ResolveCases(t: Tables, req: Request, f: DelegateFaults)
    ensures var (t1, target) := Resolve(t, req, f);
            || t1 == t
            || (req.accountEmail != "" && ByEmail(t, req.accountEmail).None?
                && t1 == Create(t, req.accountEmail, Some(req.accountEmail), None).0)
            || (req.guardianId in t.participants
                && var t2 := Create(t, req.name, None, Some(req.guardianId)).0;
                   t1 == t2 || t1 == SetWallet(t2, t.nextId, CUSTODIAL_PROXY, CustodialWalletFor(t.nextId)))
    ensures Resolve(t, req, f).1.Ok? ==> Resolve(t, req, f).1.value in Resolve(t, req, f).0.participants
  {}

  lemma ResolveKeepsRooted(t: Tables, req: Request, f: DelegateFaults)
    requires Rooted(t)
    ensures Rooted(Resolve(t, req, f).0)
  {
    ResolveCases(t, req, f);
    if req.accountEmail != "" && ByEmail(t, req.accountEmail).None? { AccountKeepsRooted(t, req.accountEmail); }
    if req.guardianId in t.participants { DependentKeepsRooted(t, req.name, req.guardianId); }
  }

  lemma {:induction false} RunKeepsRooted(t: Tables, ops: seq<Op>)
    requires Rooted(t)
    ensures Rooted(Run(t, ops))
    decreases |ops|
  {
    if ops != [] {
      var t' := Step(t, ops[0]);
      match ops[0] {
        case DelegateOp(req, f) =>
          ResolveKeepsRooted(t, req, f);
          assert t'.participants == Resolve(t, req, f).0.participants && t'.nextId == Resolve(t, req, f).0.nextId;
          SameParticipants(Resolve(t, req, f).0, t');
        case CustodyOp(id, w) => SetWalletKeepsRooted(t, id, OWN_NON_CUSTODIAL, w);
        case AttachOp(email, w) =>
          var id := ByEmail(t, email);
          if id.Some? { SetWalletKeepsRooted(t, id.value, OWN_NON_CUSTODIAL, w); }
        case AccountOp(email) => if email != "" && ByEmail(t, email).None? { AccountKeepsRooted(t, email); }
        case ChildOp(name, g) => if g in t.participants { CreateKeepsRooted(t, name, None, Some(g)); }
        case ChildWalletOp(id, w) => if w != "" { SetWalletKeepsRooted(t, id, CUSTODIAL_PROXY, w); }
        case _ => SameParticipants(t, t');
      }
      RunKeepsRooted(t', ops[1..]);
    }
  }

  lemma SameParticipants(t: Tables, t': Tables)
    requires Rooted(t) && t'.participants == t.participants && t'.nextId == t.nextId
    ensures Rooted(t')
  {
    forall id | id in t'.participants ensures ParticipantOk(t', id) { assert ParticipantOk(t, id); }
  }

  // ---- The guardian walk ----

  /** What the recursive query holds after `k` rounds of joining guardians. */
  ghost function Level(t: Tables, start: nat, k: nat): set<nat> {
    if k == 0 then set id | id == start && id in t.participants
    else set id | id in t.participants && IsGuardianOf(t, id, Level(t, start, k - 1))
  }

  ghost predicate IsGuardianOf(t: Tables, id: nat, below: set<nat>) {
    exists c :: c in below && c in t.participants && t.participants[c].guardianId == Some(id)
  }

  /** A user id the query may return: LIMIT 1 over the joined rows, in no fixed order. */
  ghost predicate MayAnswer(t: Tables, start: nat, userId: nat) {
    exists k, id :: id in Level(t, start, k) && Answers(t, id, userId)
  }

  predicate Answers(t: Tables, id: nat, userId: nat) {
    id in t.participants && t.participants[id].accountEmail.Some?
    && t.participants[id].accountEmail.value in t.users && t.users[t.participants[id].accountEmail.value] == userId
  }

  /** The head of the family, found by walking guardians. */
  function Head(t: Tables, id: nat): nat
    decreases id
  {
    if id in t.participants && t.participants[id].guardianId.Some? && t.participants[id].guardianId.value < id
    then Head(t, t.participants[id].guardianId.value) else id
  }

  /** Zero when the head of the family has no user yet. */
  function OwnerUserId(t: Tables, id: nat): nat {
    var head := Head(t, id);
    if head in t.participants && t.participants[head].accountEmail.Some?
        && t.participants[head].accountEmail.value in t.users
    then t.users[t.participants[head].accountEmail.value] else 0
  }

  /** Whoever a round holds is the guardian of someone in the round before. */
  lemma OneDown(t: Tables, start: nat, k: nat, i: nat) returns (c: nat)
    requires Rooted(t) && k > 0 && i in Level(t, start, k)
    ensures c in Level(t, start, k - 1) && c in t.participants && t.participants[c].guardianId == Some(i)
    ensures i < c && Head(t, c) == Head(t, i)
  {
    assert IsGuardianOf(t, i, Level(t, start, k - 1));
    c :| c in Level(t, start, k - 1) && c in t.participants && t.participants[c].guardianId == Some(i);
    assert ParticipantOk(t, c);
  }

  /** An ancestor met in some round has the family's head, and a smaller id every time. */
  lemma {:induction false} LevelShrinks(t: Tables, start: nat, k: nat, i: nat)
    requires Rooted(t) && i in Level(t, start, k)
    ensures i + k <= start && Head(t, i) == Head(t, start)
    decreases k
  {
    if k > 0 {
      var c := OneDown(t, start, k, i);
      LevelShrinks(t, start, k - 1, c);
    }
  }

  /** Each round holds at most one ancestor. */
  lemma {:induction false} LevelIsOneAncestor(t: Tables, start: nat, k: nat, i: nat, j: nat)
    requires Rooted(t) && i in Level(t, start, k) && j in Level(t, start, k)
    ensures i == j
    decreases k
  {
    if k > 0 {
      var c := OneDown(t, start, k, i);
      var d := OneDown(t, start, k, j);
      LevelIsOneAncestor(t, start, k - 1, c, d);
    }
  }

  lemma GuardianIsNext(t: Tables, start: nat, k: nat, id: nat)
    requires Rooted(t) && id in Level(t, start, k) && t.participants[id].guardianId.Some?
    ensures t.participants[id].guardianId.value < id && t.participants[id].guardianId.value in Level(t, start, k + 1)
  {
    assert ParticipantOk(t, id);
    assert IsGuardianOf(t, t.participants[id].guardianId.value, Level(t, start, k));
  }

  /** Walking up from a participant reaches its head in some round. */
  lemma {:induction false} HeadIsReached(t: Tables, start: nat, k: nat, id: nat) returns (n: nat)
    requires Rooted(t) && id in Level(t, start, k)
    ensures Head(t, id) in Level(t, start, n)
    decreases id
  {
    if t.participants[id].guardianId.Some? {
      GuardianIsNext(t, start, k, id);
      n := HeadIsReached(t, start, k + 1, t.participants[id].guardianId.value);
    } else {
      n := k;
    }
  }

  /** The recursive query ends, and although its LIMIT 1 is unordered it has one
      possible answer: the user of the family's head. */
  lemma GuardianWalk(t: Tables, start: nat)
    requires Rooted(t)
    ensures forall k: nat :: k > start ==> Level(t, start, k) == {}
    ensures forall u :: MayAnswer(t, start, u) ==> u == OwnerUserId(t, start)
    ensures start in t.participants ==>
              ((exists u :: MayAnswer(t, start, u))
               <==> (Head(t, start) in t.participants && t.participants[Head(t, start)].accountEmail.Some?
                     && t.participants[Head(t, start)].accountEmail.value in t.users))
  {
    forall k: nat | k > start ensures Level(t, start, k) == {} {
      forall i ensures i !in Level(t, start, k) { if i in Level(t, start, k) { LevelShrinks(t, start, k, i); } }
    }
    forall u | MayAnswer(t, start, u) ensures u == OwnerUserId(t, start) && Answers(t, Head(t, start), u) {
      var k, id :| id in Level(t, start, k) && Answers(t, id, u);
      LevelShrinks(t, start, k, id);
      assert ParticipantOk(t, id);
      assert Head(t, id) == id;
    }
    if start in t.participants && Answers(t, Head(t, start), OwnerUserId(t, start)) {
      assert start in Level(t, start, 0);
      var _ := HeadIsReached(t, start, 0, start);
      assert MayAnswer(t, start, OwnerUserId(t, start));
    }
  }

  /** The head of every family has an account, and nobody between it and the start does. */
  lemma {:induction false} OnlyHeadHasAccount(t: Tables, id: nat)
    requires Rooted(t) && id in t.participants
    ensures Head(t, id) in t.participants && t.participants[Head(t, id)].accountEmail.Some?
    ensures t.participants[id].accountEmail.Some? <==> Head(t, id) == id
    decreases id
  {
    assert ParticipantOk(t, id);
    if t.participants[id].guardianId.Some? {
      var g := t.participants[id].guardianId.value;
      OnlyHeadHasAccount(t, g);
      HeadBelow(t, g);
    }
  }

  lemma {:induction false} HeadBelow(t: Tables, id: nat)
    ensures Head(t, id) <= id
    decreases id
  {
    if id in t.participants && t.participants[id].guardianId.Some? && t.participants[id].guardianId.value < id {
      HeadBelow(t, t.participants[id].guardianId.value);
    }
  }

  /** In every state reachable by delegation and the other operations, from empty
      tables, the walk ends with the one possible answer. */
  lemma WalkInEveryState(ops: seq<Op>, start: nat)
    ensures var t := Run(EmptyTables, ops);
            && Rooted(t)
            && (forall k: nat :: k > start ==> Level(t, start, k) == {})
            && (forall u :: MayAnswer(t, start, u) ==> u == OwnerUserId(t, start))
  {
    RunKeepsRooted(EmptyTables, ops);
    GuardianWalk(Run(EmptyTables, ops), start);
  }

  // ---- Vouchers and dedicated wallets ----

  /** Once a voucher is allocated, nothing reallocates it. */
  lemma {:induction false} AllocationIsFinal(t: Tables, ops: seq<Op>, v: string)
    requires v in t.vouchers && t.vouchers[v].participantId.Some?
    ensures v in Run(t, ops).vouchers && Run(t, ops).vouchers[v].participantId == t.vouchers[v].participantId
    decreases |ops|
  {
    if ops != [] {
      VoucherStays(t, ops[0], v);
      AllocationIsFinal(Step(t, ops[0]), ops[1..], v);
    }
  }

  lemma VoucherStays(t: Tables, op: Op, v: string)
    requires v in t.vouchers && t.vouchers[v].participantId.Some?
    ensures v in Step(t, op).vouchers && Step(t, op).vouchers[v].participantId == t.vouchers[v].participantId
  {
    if op.DelegateOp? { DelegateVouchers(t, op.req, op.f); }
  }

  /** Delegation leaves allocated vouchers alone. */
  lemma DelegateVouchers(t: Tables, req: Request, f: DelegateFaults)
    ensures var t' := Delegate(t, req, f).0;
            forall v :: v in t.vouchers && t.vouchers[v].participantId.Some? ==>
              v in t'.vouchers && t'.vouchers[v] == t.vouchers[v]
  {
    ResolveKeepsVouchers(t, req, f);
    var (t1, target) := Resolve(t, req, f);
    if target.Ok? { AllocateKeeps(t1, req.voucherId, target.value); }
    DelegateAllocates(t, req, f);
  }

  /** All a delegation does to vouchers: perhaps allocate the one asked for. */
  lemma DelegateAllocates(t: Tables, req: Request, f: DelegateFaults)
    ensures var (t1, target) := Resolve(t, req, f);
            var t' := Delegate(t, req, f).0;
            || t'.vouchers == t1.vouchers
            || (target.Ok? && Allocate(t1, req.voucherId, target.value).Some?
                && t'.vouchers == Allocate(t1, req.voucherId, target.value).value.vouchers)
  {}

  lemma AllocateKeeps(t: Tables, voucher: string, id: nat)
    ensures Allocate(t, voucher, id).Some? ==>
              forall v :: v in t.vouchers && t.vouchers[v].participantId.Some? ==>
                v in Allocate(t, voucher, id).value.vouchers
                && Allocate(t, voucher, id).value.vouchers[v] == t.vouchers[v]
  {}

  lemma ResolveKeepsVouchers(t: Tables, req: Request, f: DelegateFaults)
    ensures Resolve(t, req, f).0.vouchers == t.vouchers
  {}

  // ---- Whose wallet a custodial wallet is ----

  /** The addresses seeding has given to dependents, by participant. */
  function Given(t: Tables, ops: seq<Op>, given: map<nat, string>): map<nat, string>
    decreases |ops|
  {
    if ops == [] then given else Given(Step(t, ops[0]), ops[1..], GivenBy(t, ops[0], given))
  }

  function GivenBy(t: Tables, op: Op, given: map<nat, string>): map<nat, string> {
    if op.ChildWalletOp? && TakesWallet(t, op.id, op.wallet) then given[op.id := op.wallet] else given
  }

  /** The seeded address, or else the dedicated one. */
  function WalletOf(given: map<nat, string>, id: nat): string {
    if id in given then given[id] else CustodialWalletFor(id)
  }

  ghost predicate Tracks(t: Tables, given: map<nat, string>) {
    && (forall id :: id in given ==> id in t.participants)
    && (forall id :: id in t.participants ==> TracksOne(t, given, id))
  }

  predicate TracksOne(t: Tables, given: map<nat, string>, id: nat)
    requires id in t.participants
  {
    t.participants[id].walletState == CUSTODIAL_PROXY ==> t.participants[id].walletAddress == Some(WalletOf(given, id))
  }

  lemma NextIsFree(t: Tables)
    requires Rooted(t)
    ensures t.nextId !in t.participants
  {
    forall id | id in t.participants ensures id < t.nextId { assert ParticipantOk(t, id); }
  }

  /** A participant about to be created has been given nothing. */
  lemma NextIsNew(t: Tables, given: map<nat, string>)
    requires Rooted(t) && Tracks(t, given)
    ensures t.nextId !in given && t.nextId !in t.participants
  {
    NextIsFree(t);
  }

  lemma CreateTracks(t: Tables, name: string, email: Option<string>, guardian: Option<nat>, given: map<nat, string>)
    requires Rooted(t) && Tracks(t, given)
    ensures Tracks(Create(t, name, email, guardian).0, given)
  {
    NextIsNew(t, given);
    var t' := Create(t, name, email, guardian).0;
    forall id | id in t'.participants ensures TracksOne(t', given, id) {
      if id in t.participants { assert TracksOne(t, given, id); }
    }
  }

  lemma SetWalletTracks(t: Tables, id: nat, state: WalletState, wallet: string, given: map<nat, string>)
    requires Tracks(t, given) && (state == CUSTODIAL_PROXY ==> wallet == WalletOf(given, id))
    ensures Tracks(SetWallet(t, id, state, wallet), given)
  {
    var t' := SetWallet(t, id, state, wallet);
    forall k | k in t'.participants ensures TracksOne(t', given, k) { assert TracksOne(t, given, k); }
  }

  lemma ResolveTracks(t: Tables, req: Request, f: DelegateFaults, given: map<nat, string>)
    requires Rooted(t) && Tracks(t, given)
    ensures Tracks(Resolve(t, req, f).0, given)
  {
    ResolveCases(t, req, f);
    NextIsNew(t, given);
    CreateTracks(t, req.accountEmail, Some(req.accountEmail), None, given);
    CreateTracks(t, req.name, None, Some(req.guardianId), given);
    var t2 := Create(t, req.name, None, Some(req.guardianId)).0;
    SetWalletTracks(t2, t.nextId, CUSTODIAL_PROXY, CustodialWalletFor(t.nextId), given);
  }

  lemma SameTracks(t: Tables, t': Tables, given: map<nat, string>)
    requires Tracks(t, given) && t'.participants == t.participants
    ensures Tracks(t', given)
  {
    forall id | id in t'.participants ensures TracksOne(t', given, id) { assert TracksOne(t, given, id); }
  }

  lemma GivenTracks(t: Tables, id: nat, wallet: string, given: map<nat, string>)
    requires Tracks(t, given) && TakesWallet(t, id, wallet)
    ensures Tracks(SetWallet(t, id, CUSTODIAL_PROXY, wallet), given[id := wallet])
  {
    var t' := SetWallet(t, id, CUSTODIAL_PROXY, wallet);
    forall k | k in t'.participants ensures TracksOne(t', given[id := wallet], k) { assert TracksOne(t, given, k); }
  }

  lemma StepTracks(t: Tables, op: Op, given: map<nat, string>)
    requires Rooted(t) && Tracks(t, given)
    ensures Tracks(Step(t, op), GivenBy(t, op, given))
  {
    match op
    case DelegateOp(req, f) =>
      ResolveTracks(t, req, f, given);
      SameTracks(Resolve(t, req, f).0, Step(t, op), given);
    case CustodyOp(id, w) => SetWalletTracks(t, id, OWN_NON_CUSTODIAL, w, given);
    case AttachOp(email, w) =>
      var id := ByEmail(t, email);
      if id.Some? { SetWalletTracks(t, id.value, OWN_NON_CUSTODIAL, w, given); }
    case AccountOp(email) => CreateTracks(t, email, Some(email), None, given);
    case ChildOp(name, g) => CreateTracks(t, name, None, Some(g), given);
    case ChildWalletOp(id, w) => if TakesWallet(t, id, w) { GivenTracks(t, id, w, given); }
    case _ => SameTracks(t, Step(t, op), given);
  }

  lemma {:induction false} RunTracks(t: Tables, ops: seq<Op>, given: map<nat, string>)
    requires Rooted(t) && Tracks(t, given)
    ensures Tracks(Run(t, ops), Given(t, ops, given))
    decreases |ops|
  {
    if ops != [] {
      StepTracks(t, ops[0], given);
      RunKeepsRooted(t, [ops[0]]);
      OneStep(t, ops[0]);
      RunTracks(Step(t, ops[0]), ops[1..], GivenBy(t, ops[0], given));
    }
  }

  predicate Custodial(t: Tables, id: nat) {
    id in t.participants && t.participants[id].walletState == CUSTODIAL_PROXY
  }

  /** Two custodial wallets are one exactly when seeding gave both one address, or
      gave one the address dedicated to the other; those that delegation
      provisioned always differ. */
  lemma CustodialWalletsExact(ops: seq<Op>, i: nat, j: nat)
    requires i != j && Custodial(Run(EmptyTables, ops), i) && Custodial(Run(EmptyTables, ops), j)
    ensures var t := Run(EmptyTables, ops);
            var given := Given(EmptyTables, ops, map[]);
            && (t.participants[i].walletAddress == t.participants[j].walletAddress
               <==> WalletOf(given, i) == WalletOf(given, j))
            && (i !in given && j !in given ==> t.participants[i].walletAddress != t.participants[j].walletAddress)
  {
    RunTracks(EmptyTables, ops, map[]);
    var given := Given(EmptyTables, ops, map[]);
    assert TracksOne(Run(EmptyTables, ops), given, i) && TracksOne(Run(EmptyTables, ops), given, j);
    DecimalInjective(i, j);
    var p := "0xguardian-custodial-";
    assert CustodialWalletFor(i)[|p|..] == Decimal(i) && CustodialWalletFor(j)[|p|..] == Decimal(j);
  }

  /** Seeding an account with its own wallet. */
  function SeedAccount(email: string, userId: nat, wallet: string): seq<Op> {
    [UserOp(email, userId), AccountOp(email), AttachOp(email, wallet)]
  }

  /** Seeding a dependent of participant 1 with that participant's address. */
  function SeedChild(name: string, id: nat, wallet: string): seq<Op> {
    [ChildOp(name, 1), ChildWalletOp(id, wallet)]
  }

  function OneAccount(email: string, userId: nat, wallet: string): Tables {
    EmptyTables.(participants := map[1 := Participant(1, email, Some(email), None, OWN_NON_CUSTODIAL, Some(wallet))],
                 nextId := 2, users := map[email := userId])
  }

  function WithChild(t: Tables, name: string, wallet: string): Tables {
    t.(participants := t.participants[t.nextId :=
        Participant(t.nextId, name, None, Some(1), CUSTODIAL_PROXY, Some(wallet))],
       nextId := t.nextId + 1)
  }

  lemma {:induction false} RunSplit(t: Tables, a: seq<Op>, b: seq<Op>)
    ensures Run(t, a + b) == Run(Run(t, a), b)
    decreases |a|
  {
    if a == [] {
      assert a + b == b;
    } else {
      assert (a + b)[0] == a[0] && (a + b)[1..] == a[1..] + b;
      RunSplit(Step(t, a[0]), a[1..], b);
    }
  }

  lemma OneStep(t: Tables, a: Op)
    ensures Run(t, [a]) == Step(t, a)
  {
    assert [a][1..] == [];
  }

  lemma TwoSteps(t: Tables, a: Op, b: Op)
    ensures Run(t, [a, b]) == Step(Step(t, a), b)
  {
    assert [a, b][1..] == [b];
    OneStep(Step(t, a), b);
  }

  lemma AccountSeeded(email: string, userId: nat, wallet: string)
    requires email != "" && userId != 0
    ensures Run(EmptyTables, SeedAccount(email, userId, wallet)) == OneAccount(email, userId, wallet)
  {
    var ops := SeedAccount(email, userId, wallet);
    var t1 := Step(EmptyTables, ops[0]);
    var t2 := Step(t1, ops[1]);
    assert HasEmail(t2, 1, email);
    assert Step(t2, ops[2]) == OneAccount(email, userId, wallet);
    TwoSteps(t1, ops[1], ops[2]);
    assert ops[1..] == [ops[1], ops[2]];
  }

  lemma ChildSeeded(t: Tables, name: string, wallet: string)
    requires 1 in t.participants && !HasChild(t, name, 1) && t.nextId !in t.participants && wallet != ""
    ensures Run(t, SeedChild(name, t.nextId, wallet)) == WithChild(t, name, wallet)
  {
    TwoSteps(t, ChildOp(name, 1), ChildWalletOp(t.nextId, wallet));
  }

  /** Seeding two dependents of one account does give both one wallet: its own. */
  lemma SeededSiblingsShare(email: string, userId: nat, wallet: string)
    requires email != "" && wallet != "" && userId != 0
    ensures var t := Run(EmptyTables,
            SeedAccount(email, userId, wallet) + (SeedChild("a", 2, wallet) + SeedChild("b", 3, wallet)));
            && 1 in t.participants && Custodial(t, 2) && Custodial(t, 3)
            && t.participants[2].walletAddress == t.participants[3].walletAddress == t.participants[1].walletAddress
  {
    var t1 := OneAccount(email, userId, wallet);
    AccountSeeded(email, userId, wallet);
    ChildSeeded(t1, "a", wallet);
    var t2 := WithChild(t1, "a", wallet);
    ChildSeeded(t2, "b", wallet);
    RunSplit(t1, SeedChild("a", 2, wallet), SeedChild("b", 3, wallet));
    RunSplit(EmptyTables, SeedAccount(email, userId, wallet), SeedChild("a", 2, wallet) + SeedChild("b", 3, wallet));
  }
}
