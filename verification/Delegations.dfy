/** What a delegation answers and what the answer means; how wallets resolve. */
module Delegations {
  import opened Core
  import opened Repository
  import opened Vouchers

  /** A voucher that can be delegated. */
  predicate Free(t: Tables, voucher: string) {
    voucher in t.vouchers && !t.vouchers[voucher].claimed && t.vouchers[voucher].participantId.None?
  }

  predicate Malformed(req: Request) {
    match req.mode
    case Account => req.accountEmail == ""
    case Dependent => req.guardianId == 0
    case OtherMode => true
  }

  /** When a delegation gives which answer. */
  lemma DelegateAnswers(t: Tables, req: Request, f: DelegateFaults)
    requires Rooted(t)
    ensures var r, resolved := Delegate(t, req, f).1, Resolve(t, req, f).1.Ok?;
            && (r.Ok? <==> resolved && f.allocate == Done && Free(t, req.voucherId))
            && (r == Err(VoucherAllocated) <==> resolved && f.allocate == Done && !Free(t, req.voucherId))
            && (r == Err(InvalidDelegation) <==> Malformed(req))
            && (r == Err(ParticipantNotFound) <==>
                  !Malformed(req) && req.mode == Dependent && f.lookup == Done && req.guardianId !in t.participants)
            && (!Malformed(req) && f.lookup != Done ==> r == Err(Infra))
            && (resolved && f.allocate != Done ==> r == Err(Infra))
  {
    ResolveKeepsVouchers(t, req, f);
    ResolveCases(t, req, f);
  }

  /** An "ok" has allocated the voucher, free until then, to the participant named in
      the answer, and no other voucher changed. */
  lemma OkAllocates(t: Tables, req: Request, f: DelegateFaults)
    requires Delegate(t, req, f).1.Ok?
    ensures var (t', r) := Delegate(t, req, f);
            && Free(t, req.voucherId)
            && t'.vouchers == t.vouchers[req.voucherId := Voucher(false, Some(r.value.participantId))]
            && r.value.participantId in t'.participants
            && r.value.resolution == ResolveMintWallet(t'.participants[r.value.participantId])
  {
    ResolveKeepsVouchers(t, req, f);
    ResolveCases(t, req, f);
  }

  /** An error has allocated nothing, unless it is a lost reply of the allocation itself. */
  lemma ErrAllocates(t: Tables, req: Request, f: DelegateFaults)
    requires Delegate(t, req, f).1.Err?
    ensures f.allocate != FailedApplied ==> Delegate(t, req, f).0.vouchers == t.vouchers
  {
    ResolveKeepsVouchers(t, req, f);
  }

  /** Whom the answer names: the account's participant, known or new and still without
      a wallet; or a new dependent of that guardian, mint-ready at once with its own
      custodial wallet. */
  lemma OkNames(t: Tables, req: Request, f: DelegateFaults)
    requires Rooted(t) && Delegate(t, req, f).1.Ok?
    ensures var (t', r) := Delegate(t, req, f);
            var id := r.value.participantId;
            && (req.mode == Account ==> HasEmail(t', id, req.accountEmail))
            && (req.mode == Account && ByEmail(t, req.accountEmail).Some? ==>
                  t'.participants == t.participants && ByEmail(t, req.accountEmail) == Some(id))
            && (req.mode == Account && ByEmail(t, req.accountEmail).None? ==>
                  id !in t.participants && r.value.resolution == MintResolution(NONE, "", true))
            && (req.mode == Dependent ==>
                  && id !in t.participants && IsChild(t', id, req.name, req.guardianId)
                  && r.value.resolution == MintResolution(CUSTODIAL_PROXY, CustodialWalletFor(id), false))
            && (forall k :: k in t.participants ==> k in t'.participants && t'.participants[k] == t.participants[k])
  {
    NextIsFree(t);
  }

  // ---- Over runs ----

  /** The `i`-th operation of the run is a delegation of the voucher that succeeds. */
  predicate DelegatesAt(t: Tables, ops: seq<Op>, i: nat, voucher: string) {
    && i < |ops| && ops[i].DelegateOp? && ops[i].req.voucherId == voucher
    && Delegate(Run(t, ops[..i]), ops[i].req, ops[i].f).1.Ok?
  }

  lemma RunFrom(t: Tables, ops: seq<Op>, i: nat, j: nat)
    requires i < j <= |ops|
    ensures Run(t, ops[..j]) == Run(Step(Run(t, ops[..i]), ops[i]), ops[i + 1..j])
  {
    assert ops[..j] == ops[..i] + ops[i..j];
    RunSplit(t, ops[..i], ops[i..j]);
    assert ops[i..j][0] == ops[i] && ops[i..j][1..] == ops[i + 1..j];
  }

  /** In every run the voucher stays with the participant that answer named, and no
      second delegation of it succeeds. */
  lemma DelegatedOnce(t: Tables, ops: seq<Op>, i: nat, j: nat, voucher: string)
    requires i < j <= |ops| && DelegatesAt(t, ops, i, voucher)
    ensures var before := Run(t, ops[..i]);
            var after := Run(t, ops[..j]);
            && voucher in after.vouchers
            && after.vouchers[voucher].participantId
               == Some(Delegate(before, ops[i].req, ops[i].f).1.value.participantId)
    ensures !DelegatesAt(t, ops, j, voucher)
  {
    var before := Run(t, ops[..i]);
    OkAllocates(before, ops[i].req, ops[i].f);
    RunFrom(t, ops, i, j);
    AllocationIsFinal(Step(before, ops[i]), ops[i + 1..j], voucher);
    if DelegatesAt(t, ops, j, voucher) { OkAllocates(Run(t, ops[..j]), ops[j].req, ops[j].f); }
  }

  // ---- Wallets ----

  /** A participant is minted to their own stored address exactly when their wallet is
      own or custodial and has one; otherwise they are pending, except for a dependent
      without an address, who is neither. */
  lemma WalletResolves(p: Participant)
    ensures var r := ResolveMintWallet(p);
            var stored := p.walletAddress.Some? && p.walletAddress.value != "";
            && r.walletState == p.walletState
            && (!r.pending && r.walletAddress != "" <==> p.walletState != NONE && stored)
            && (r.walletAddress != "" ==> Some(r.walletAddress) == p.walletAddress)
            && (r.pending <==> p.walletState == NONE || (p.walletState == OWN_NON_CUSTODIAL && !stored))
  {}

  /** Custody moves for a dependent only: to the wallet given, which they are minted to
      from then on; nobody and nothing else changes. */
  lemma CustodyMoves(t: Tables, id: nat, wallet: string)
    ensures var t' := ClaimCustody(t, id, wallet);
            if id in t.participants && t.participants[id].walletState == CUSTODIAL_PROXY
            then && t' == t.(participants := t'.participants)
                 && t'.participants.Keys == t.participants.Keys
                 && (forall k :: k in t.participants && k != id ==> t'.participants[k] == t.participants[k])
                 && t'.participants[id]
                    == t.participants[id].(walletState := OWN_NON_CUSTODIAL, walletAddress := Some(wallet))
                 && ResolveMintWallet(t'.participants[id])
                    == MintResolution(OWN_NON_CUSTODIAL, wallet, wallet == "")
            else t' == t
  {}
}
