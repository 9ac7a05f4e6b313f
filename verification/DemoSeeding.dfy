/** What the demo driver seeds before a run, as the program does it: get or create
    accounts and dependents, statement by statement, any of which may fail. */
module DemoSeeding {
  import opened Core
  import opened Repository
  import opened Vouchers
  import opened VoucherService

  datatype SeedFaults = SeedFaults(user: Outcome, find: Outcome, create: Outcome, wallet: Outcome)

  /** The first `k` of a list of operations took effect. */
  ghost predicate Reached(t: Tables, ops: seq<Op>, k: nat, t': Tables) {
    k <= |ops| && t' == Run(t, ops[..k])
  }

  lemma ReachedNext(t: Tables, ops: seq<Op>, k: nat, t1: Tables)
    requires k < |ops| && Reached(t, ops, k, t1)
    ensures Reached(t, ops, k + 1, Step(t1, ops[k]))
  {
    RunSplit(t, ops[..k], [ops[k]]);
    OneStep(t1, ops[k]);
    assert ops[..k + 1] == ops[..k] + [ops[k]];
  }

  /** The participant with an email is the one a lookup finds. */
  lemma EmailFinds(t: Tables, email: string, id: nat)
    requires Rooted(t) && HasEmail(t, id, email)
    ensures ByEmail(t, email) == Some(id)
  {
    assert ParticipantOk(t, id);
  }

  class Seeder {
    const repo: Repo

    constructor (repo: Repo)
      ensures this.repo == repo
    {
      this.repo := repo;
    }

    /** An account with its own wallet; guardians are shared between scenarios. */
    method SeedGuardian(email: string, newUserId: nat, wallet: string, f: SeedFaults)
      returns (id: nat, err: bool, ghost k: nat)
      requires Rooted(repo.View()) && email != "" && newUserId != 0
      modifies repo
      ensures Reached(old(repo.View()), SeedAccount(email, newUserId, wallet), k, repo.View())
      ensures !err ==> k == 3 && HasEmail(repo.View(), id, email)
      ensures Rooted(repo.View())
    {
      ghost var t := repo.View();
      ghost var ops := SeedAccount(email, newUserId, wallet);
      k, id := 0, 0;
      assert ops[..0] == [];
      RunKeepsRooted(t, ops[..1]);
      RunKeepsRooted(t, ops[..2]);
      RunKeepsRooted(t, ops);
      err := repo.CreateUser(email, newUserId, f.user);
      if f.user.Applied() {
        ReachedNext(t, ops, k, t);
        k := 1;
      }
      if err { return; }
      if f.find != Done { return id, true, k; }
      ghost var t1 := repo.View();
      var known := repo.GetParticipantByEmail(email);
      if known.Some? {
        id := known.value;
      } else {
        id, err := repo.CreateParticipant(email, Some(email), None, f.create);
        if err && !f.create.Applied() { return; }
      }
      ReachedNext(t, ops, 1, t1);
      k := 2;
      if err { return; }
      ghost var t2 := repo.View();
      EmailFinds(t2, email, id);
      err := repo.SetParticipantWallet(id, OWN_NON_CUSTODIAL, wallet, f.wallet);
      if f.wallet.Applied() {
        ReachedNext(t, ops, 2, t2);
        k := 3;
        assert ops[..3] == ops;
      }
    }

    /** A dependent whose custodial wallet is the guardian's own. */
    method SeedDependent(name: string, guardianId: nat, wallet: string, f: SeedFaults)
      returns (id: nat, err: bool, ghost k: nat)
      requires Rooted(repo.View()) && guardianId in repo.participants && wallet != ""
      modifies repo
      ensures Reached(old(repo.View()), [ChildOp(name, guardianId), ChildWalletOp(id, wallet)], k, repo.View())
      ensures !err ==> k == 2 && IsChild(repo.View(), id, name, guardianId)
    {
      ghost var t := repo.View();
      k, id := 0, 0;
      err := true;
      assert Reached(t, [ChildOp(name, guardianId), ChildWalletOp(id, wallet)], 0, t);
      if f.find != Done { return; }
      var known := repo.FindDependent(name, guardianId);
      if known.Some? {
        id := known.value;
      } else {
        id, err := repo.CreateParticipant(name, None, Some(guardianId), f.create);
        if err && !f.create.Applied() {
          assert Reached(t, [ChildOp(name, guardianId), ChildWalletOp(id, wallet)], 0, t);
          return;
        }
      }
      ghost var ops := [ChildOp(name, guardianId), ChildWalletOp(id, wallet)];
      assert Reached(t, ops, 0, t);
      ReachedNext(t, ops, 0, t);
      k := 1;
      if known.None? && f.create != Done { return id, true, k; }
      ghost var t1 := repo.View();
      err := repo.SetParticipantWallet(id, CUSTODIAL_PROXY, wallet, f.wallet);
      if f.wallet.Applied() {
        ReachedNext(t, ops, 1, t1);
        k := 2;
      }
    }
  }
}
