/** One Kafka message from fetch to commit: the retry loop, the dead letter, the
    commit, and what a committed offset means after a restart. */
module Consumer {
  import opened Core
  import opened ScanStores
  import opened Ingestion
  import opened Pipeline

  /** How the calls made for one message will end; `cancelled(n)` says that
      shutdown interrupts the backoff after attempt `n`. */
  datatype Script = Script(handle: nat -> HandleFaults, cancelled: nat -> bool, bury: Outcome, commit: Outcome)

  /** No attempt leaves a marker behind. */
  ghost predicate Clean(script: Script) {
    forall n :: script.handle(n).clear.Applied() && script.handle(n).claim != FailedApplied
  }

  // ---- The specification: drive one worker of the protocol until it rests ----

  ghost function CommitRun(c: Config, s: State, w: nat, script: Script): State
    requires w < |s.workers| && s.workers[w].Settled? && WorkFits(c, s.workers[w])
  {
    Apply(c, s, Advance(w, script.commit))
  }

  ghost function BuryRun(c: Config, s: State, w: nat, script: Script): State
    requires w < |s.workers| && s.workers[w].Burying? && WorkFits(c, s.workers[w])
  {
    var s' := Apply(c, s, Advance(w, script.bury));
    if s'.workers[w].Idle? then s' else CommitRun(c, s', w, script)
  }

  /** From the start of an attempt. */
  ghost function AttemptRun(c: Config, s: State, w: nat, script: Script): State
    requires w < |s.workers| && s.workers[w].Claiming? && WorkFits(c, s.workers[w])
    requires s.workers[w].attempt <= c.maxRetries
    decreases c.maxRetries - s.workers[w].attempt
  {
    var m, n := s.workers[w].m, s.workers[w].attempt;
    var (st, end) := HandlerRun(c, s.stores, s.workers[w], script.handle(n));
    var s' := s.(stores := st, workers := s.workers[w := end]);
    HandlerOutcome(c, s.stores, m, n, script.handle(n));
    if end.Settled? then CommitRun(c, s', w, script)
    else if n < c.maxRetries then
      if script.cancelled(n) then Apply(c, s', Stop(w))
      else AttemptRun(c, Apply(c, s', Advance(w, Done)), w, script)
    else BuryRun(c, Apply(c, s', Advance(w, Done)), w, script)
  }

  ghost function MessageRun(c: Config, s: State, w: nat, m: nat, script: Script): State
    requires Enabled(c, s, Fetch(w, m))
  {
    var s' := Apply(c, s, Fetch(w, m));
    if IsScan(c, m) then AttemptRun(c, s', w, script) else BuryRun(c, s', w, script)
  }

  /** One attempt of a lone worker: commit, give up, try again or dead-letter. */
  lemma AttemptUnfolds(c: Config, s: State, m: nat, n: nat, script: Script)
    requires m < |c.log| && IsScan(c, m) && n <= c.maxRetries && s.workers == [Idle]
    ensures var (st, end) := HandlerRun(c, s.stores, Claiming(m, n), script.handle(n));
            var at := (w: Work) => s.(stores := st, workers := [w]);
            && (end == Settled(m, Duplicate) || end == Settled(m, Handled) || end == Failed(m, n)) && WorkFits(c, end)
            && AttemptRun(c, s.(workers := [Claiming(m, n)]), 0, script)
               == if end.Settled? then CommitRun(c, at(end), 0, script)
                  else if n < c.maxRetries
                      then (if script.cancelled(n) then at(Idle) else AttemptRun(c, at(Claiming(m, n + 1)), 0, script))
                  else BuryRun(c, at(Burying(m)), 0, script)
  {
    HandlerOutcome(c, s.stores, m, n, script.handle(n));
    var (st, end) := HandlerRun(c, s.stores, Claiming(m, n), script.handle(n));
    var s1 := s.(workers := [Claiming(m, n)]);
    assert s1.workers[0 := end] == [end];
    var s2 := s.(stores := st, workers := [end]);
    if end.Failed? {
      assert Apply(c, s2, Advance(0, Done)).workers == [if n < c.maxRetries then Claiming(m, n + 1) else Burying(m)];
    }
  }

  /** What the worker reports of a scan from attempt `n` on: how many attempts there
      were in all, and whether it ended in an error. */
  ghost function AttemptReply(c: Config, st: Stores, m: nat, n: nat, script: Script): (reply: (nat, bool))
    requires IsScan(c, m) && n <= c.maxRetries
    ensures n < reply.0 <= c.maxRetries + 1
    decreases c.maxRetries - n
  {
    var (st', end) := HandlerRun(c, st, Claiming(m, n), script.handle(n));
    if end.Settled? then (n + 1, script.commit != Done)
    else if n == c.maxRetries then (n + 1, script.bury != Done || script.commit != Done)
    else if script.cancelled(n) then (n + 1, true)
    else AttemptReply(c, st', m, n + 1, script)
  }

  // ---- How a message ends ----

  /** What the dead letter and the commit after it do to the log of message `m`. */
  function Buried(s: State, m: nat, script: Script): State {
    s.(dlq := if script.bury.Applied() then s.dlq + {m} else s.dlq,
       committed := if script.bury == Done && script.commit.Applied() then s.committed + {m} else s.committed)
  }

  /** A poison message never reaches the handler: it is dead-lettered, then committed. */
  lemma PoisonEnds(c: Config, s: State, w: nat, m: nat, script: Script)
    requires Enabled(c, s, Fetch(w, m)) && !IsScan(c, m)
    ensures MessageRun(c, s, w, m, script) == Buried(s, m, script)
  {
    assert MessageRun(c, s, w, m, script).workers == s.workers;
  }

  /** The stores after the first `k` attempts. */
  ghost function After(c: Config, st: Stores, m: nat, k: nat, script: Script): Stores
    requires IsScan(c, m)
  {
    if k == 0 then st
    else HandlerRun(c, After(c, st, m, k - 1, script), Claiming(m, k - 1), script.handle(k - 1)).0
  }

  /** The handler's `k`-th attempt returns an error. */
  ghost predicate Fails(c: Config, st: Stores, m: nat, k: nat, script: Script)
    requires IsScan(c, m)
  {
    !HandlerRun(c, After(c, st, m, k, script), Claiming(m, k), script.handle(k)).1.Settled?
  }

  /** The first `n` attempts failed and none was cancelled after. */
  ghost predicate KeepsFailing(c: Config, st: Stores, m: nat, n: nat, script: Script)
    requires IsScan(c, m)
  {
    forall k :: 0 <= k < n ==> Fails(c, st, m, k, script) && !script.cancelled(k)
  }

  /** Attempt `n` is the last one: every earlier one failed and was not cancelled
      after, and this one succeeds, is cancelled after, or uses up the retries. */
  ghost predicate StopsAt(c: Config, st: Stores, m: nat, n: nat, script: Script)
    requires IsScan(c, m)
  {
    && n <= c.maxRetries && KeepsFailing(c, st, m, n, script)
    && (!Fails(c, st, m, n, script) || n == c.maxRetries || script.cancelled(n))
  }

  /** The worker reports an error: a commit that failed, a cancelled retry, a dead
      letter or its commit that failed. */
  ghost predicate Errs(c: Config, st: Stores, m: nat, n: nat, script: Script)
    requires IsScan(c, m)
  {
    if !Fails(c, st, m, n, script) then script.commit != Done
    else n < c.maxRetries || script.bury != Done || script.commit != Done
  }

  /** There is a last attempt. */
  lemma {:induction false} SomeAttemptIsLast(c: Config, st: Stores, m: nat, from: nat, script: Script) returns (n: nat)
    requires IsScan(c, m) && from <= c.maxRetries && KeepsFailing(c, st, m, from, script)
    ensures StopsAt(c, st, m, n, script)
    decreases c.maxRetries - from
  {
    if !Fails(c, st, m, from, script) || from == c.maxRetries || script.cancelled(from) {
      n := from;
    } else {
      n := SomeAttemptIsLast(c, st, m, from + 1, script);
    }
  }

  /** The whole end of a scan whose last attempt is `n`: the stores as the attempts
      left them, and the message committed after a success, left alone after a
      cancelled retry, dead-lettered and then committed when the retries are used up. */
  lemma ScanEnds(c: Config, s: State, w: nat, m: nat, n: nat, script: Script)
    requires Enabled(c, s, Fetch(w, m)) && IsScan(c, m) && StopsAt(c, s.stores, m, n, script)
    ensures var done := s.(stores := After(c, s.stores, m, n + 1, script));
            MessageRun(c, s, w, m, script)
            == if !Fails(c, s.stores, m, n, script)
               then done.(committed := if script.commit.Applied() then s.committed + {m} else s.committed)
               else if n < c.maxRetries then done
               else Buried(done, m, script)
  {
    var s1 := s.(workers := s.workers[w := Claiming(m, 0)]);
    AttemptEnds(c, s1, s, w, m, 0, n, script);
    assert s.workers[w := Idle] == s.workers;
  }

  /** And what it reports: the number of that attempt, and an error exactly for a
      commit, a dead letter or a retry that did not go through. */
  lemma {:induction false} ReplyExact(c: Config, st: Stores, m: nat, k: nat, n: nat, script: Script)
    requires IsScan(c, m) && k <= n && StopsAt(c, st, m, n, script)
    ensures AttemptReply(c, After(c, st, m, k, script), m, k, script) == (n + 1, Errs(c, st, m, n, script))
    decreases n - k
  {
    if k < n {
      assert Fails(c, st, m, k, script) && !script.cancelled(k);
      ReplyExact(c, st, m, k + 1, n, script);
    }
  }

  /** The same from attempt `k` on; `s0` is where the message was fetched. */
  lemma {:induction false} AttemptEnds(c: Config, s: State, s0: State, w: nat, m: nat, k: nat, n: nat, script: Script)
    requires IsScan(c, m) && k <= n && StopsAt(c, s0.stores, m, n, script)
    requires w < |s0.workers|
    requires s == s0.(stores := After(c, s0.stores, m, k, script), workers := s0.workers[w := Claiming(m, k)])
    ensures var done := s0.(stores := After(c, s0.stores, m, n + 1, script), workers := s0.workers[w := Idle]);
            AttemptRun(c, s, w, script)
            == if !Fails(c, s0.stores, m, n, script)
               then done.(committed := if script.commit.Applied() then s0.committed + {m} else s0.committed)
               else if n < c.maxRetries then done
               else Buried(done, m, script)
    decreases n - k
  {
    var (st, end) := HandlerRun(c, s.stores, Claiming(m, k), script.handle(k));
    HandlerOutcome(c, s.stores, m, k, script.handle(k));
    assert st == After(c, s0.stores, m, k + 1, script);
    var s1 := s.(stores := st, workers := s.workers[w := end]);
    if k < n {
      assert Fails(c, s0.stores, m, k, script) && !script.cancelled(k);
      var s2 := Apply(c, s1, Advance(w, Done));
      assert s2.workers == s0.workers[w := Claiming(m, k + 1)];
      AttemptEnds(c, s2, s0, w, m, k + 1, n, script);
    } else if end.Settled? {
      assert CommitRun(c, s1, w, script).workers == s0.workers[w := Idle];
    } else if n < c.maxRetries {
      assert Apply(c, s1, Stop(w)).workers == s0.workers[w := Idle];
    } else {
      var s2 := Apply(c, s1, Advance(w, Done));
      assert BuryRun(c, s2, w, script).workers == s0.workers[w := Idle];
    }
  }

  // ---- That specification is a run of the protocol ----

  /** `s'` is reached from `s` by steps of worker `w`, faultless when the script is clean. */
  ghost predicate RunsTo(c: Config, s: State, s': State, clean: bool) {
    exists acts :: ValidRun(c, s, acts) && Exec(c, s, acts) == s' && (clean ==> FaultCount(c, s, acts) == 0)
  }

  lemma StepRunsTo(c: Config, s: State, a: Action, s': State, clean: bool)
    requires Enabled(c, s, a) && (clean ==> !Faulty(c, s, a)) && RunsTo(c, Apply(c, s, a), s', clean)
    ensures RunsTo(c, s, s', clean)
  {
    var acts :| ValidRun(c, Apply(c, s, a), acts) && Exec(c, Apply(c, s, a), acts) == s'
                && (clean ==> FaultCount(c, Apply(c, s, a), acts) == 0);
    Prepend(c, s, a, acts);
  }

  lemma LastStep(c: Config, s: State, a: Action, clean: bool)
    requires Enabled(c, s, a) && (clean ==> !Faulty(c, s, a))
    ensures RunsTo(c, s, Apply(c, s, a), clean)
  {
    var s' := Apply(c, s, a);
    assert ValidRun(c, s', []) && Exec(c, s', []) == s' && FaultCount(c, s', []) == 0;
    StepRunsTo(c, s, a, s', clean);
  }

  lemma BuryRefines(c: Config, s: State, w: nat, script: Script, clean: bool)
    requires w < |s.workers| && s.workers[w].Burying? && WorkFits(c, s.workers[w])
    ensures RunsTo(c, s, BuryRun(c, s, w, script), clean)
  {
    var a := Advance(w, script.bury);
    var s' := Apply(c, s, a);
    if s'.workers[w].Idle? {
      LastStep(c, s, a, clean);
    } else {
      LastStep(c, s', Advance(w, script.commit), clean);
      StepRunsTo(c, s, a, BuryRun(c, s, w, script), clean);
    }
  }

  lemma {:induction false} AttemptRefines(c: Config, s: State, w: nat, script: Script)
    requires w < |s.workers| && s.workers[w].Claiming? && WorkFits(c, s.workers[w])
    requires s.workers[w].attempt <= c.maxRetries
    ensures RunsTo(c, s, AttemptRun(c, s, w, script), Clean(script))
    decreases c.maxRetries - s.workers[w].attempt
  {
    var m, n := s.workers[w].m, s.workers[w].attempt;
    var f := script.handle(n);
    var (st, end) := HandlerRun(c, s.stores, s.workers[w], f);
    var s1 := s.(stores := st, workers := s.workers[w := end]);
    var goal := AttemptRun(c, s, w, script);
    HandlerOutcome(c, s.stores, m, n, f);
    if end.Settled? {
      LastStep(c, s1, Advance(w, script.commit), Clean(script));
    } else if n < c.maxRetries && script.cancelled(n) {
      LastStep(c, s1, Stop(w), Clean(script));
    } else {
      var s2 := Apply(c, s1, Advance(w, Done));
      if n < c.maxRetries { AttemptRefines(c, s2, w, script); } else { BuryRefines(c, s2, w, script, Clean(script)); }
      StepRunsTo(c, s1, Advance(w, Done), goal, Clean(script));
    }
    HandlerRefines(c, s, w, f);
    var first := HandlerActs(c, w, s.stores, s.workers[w], f);
    var rest :| ValidRun(c, s1, rest) && Exec(c, s1, rest) == goal && (Clean(script) ==> FaultCount(c, s1, rest) == 0);
    RunThen(c, s, first, rest);
  }

  /** Processing one message is a run of the protocol, so everything proved of
      all runs holds after it. */
  lemma MessageKeepsInv(c: Config, s: State, w: nat, m: nat, script: Script)
    requires TraceDeterminesRide(c.log) && Inv(c, s)
    requires Enabled(c, s, Fetch(w, m)) && !Held(s, m) && Clean(script)
    ensures Inv(c, MessageRun(c, s, w, m, script))
  {
    var s1 := Apply(c, s, Fetch(w, m));
    var end := MessageRun(c, s, w, m, script);
    if IsScan(c, m) { AttemptRefines(c, s1, w, script); } else { BuryRefines(c, s1, w, script, Clean(script)); }
    StepRunsTo(c, s, Fetch(w, m), end, Clean(script));
    var acts :| ValidRun(c, s, acts) && Exec(c, s, acts) == end && FaultCount(c, s, acts) == 0;
    NoFaultsFaultless(c, s, acts);
    RunKeepsInv(c, s, acts);
  }

  /** Redis refuses the claim on every attempt, and nobody shuts the consumer down. */
  ghost predicate RedisDown(script: Script) {
    forall n :: script.handle(n).claim == FailedClean && !script.cancelled(n)
  }

  /** Exhausted retries end in the dead letter, never in a silent commit. */
  lemma {:induction false} ExhaustedIsBuried(c: Config, s: State, w: nat, script: Script)
    requires w < |s.workers| && s.workers[w].Claiming? && WorkFits(c, s.workers[w])
    requires s.workers[w].attempt <= c.maxRetries && RedisDown(script)
    ensures var m := s.workers[w].m;
            var end := AttemptRun(c, s, w, script);
            end == s.(workers := s.workers[w := Idle],
                      dlq := if script.bury.Applied() then s.dlq + {m} else s.dlq,
                      committed := if script.bury == Done && script.commit.Applied() then s.committed + {m}
                          else s.committed)
    decreases c.maxRetries - s.workers[w].attempt
  {
    var m, n := s.workers[w].m, s.workers[w].attempt;
    assert HandlerRun(c, s.stores, s.workers[w], script.handle(n)) == (s.stores, Failed(m, n)) by {
      HandlerOutcome(c, s.stores, m, n, script.handle(n));
      assert HandlerRun(c, s.stores, Failed(m, n), script.handle(n)) == (s.stores, Failed(m, n));
    }
    if n < c.maxRetries {
      var s1 := s.(workers := s.workers[w := Failed(m, n)]);
      ExhaustedIsBuried(c, Apply(c, s1, Advance(w, Done)), w, script);
    }
  }

  // ---- The program ----

  /** What is left to do for message `m` by a lone worker at its `n`-th attempt,
      before the dead letter, and before the commit. */
  ghost function AttemptLeft(c: Config, s: State, m: nat, n: nat, script: Script): State
    requires IsScan(c, m) && n <= c.maxRetries
  {
    AttemptRun(c, s.(workers := [Claiming(m, n)]), 0, script)
  }

  ghost function BuryLeft(c: Config, s: State, m: nat, script: Script): State
    requires m < |c.log|
  {
    BuryRun(c, s.(workers := [Burying(m)]), 0, script)
  }

  ghost function CommitLeft(c: Config, s: State, m: nat, how: Settlement, script: Script): State
    requires m < |c.log|
  {
    CommitRun(c, s.(workers := [Settled(m, how)]), 0, script)
  }

  class KafkaConsumer {
    const handler: ScanHandler
    const maxRetries: nat
    const backoff: int          // base backoff in nanoseconds
    var dlq: set<nat>
    var committed: set<nat>

    /** Defaults for non-positive settings; a backoff beyond 2^63 nanoseconds wraps. */
    constructor (handler: ScanHandler, maxRetries: int, backoffMS: int)
      ensures var ms := if backoffMS <= 0 then 500 else backoffMS;
              && (backoff == ms * 1_000_000 <==> ms <= 9_223_372_036_854)
              && -TWO63 <= backoff < TWO63 && (ms * 1_000_000 - backoff) % TWO64 == 0
      ensures this.handler == handler && dlq == {} && committed == {}
      ensures this.maxRetries == if maxRetries <= 0 then 3 else maxRetries
    {
      this.handler := handler;
      this.maxRetries := if maxRetries <= 0 then 3 else maxRetries;
      this.backoff := Wrap64((if backoffMS <= 0 then 500 else backoffMS) * 1_000_000);
      dlq, committed := {}, {};
    }

    /** The protocol state seen by one worker between messages. */
    ghost function View(): State
      reads this, handler.store
    {
      State(handler.store.View(), [Idle], [], dlq, committed)
    }

    ghost predicate Wired(c: Config) { c.maxRetries == maxRetries && c.armed == handler.armed }

    /** Dead-letter a poison message at once, run a scan through the handler. */
    method ProcessAndCommit(c: Config, m: nat, script: Script) returns (err: bool, attempts: nat)
      requires m < |c.log| && m !in committed
      requires Wired(c)
      modifies this, handler.store
      ensures View() == MessageRun(c, old(View()), 0, m, script)
      ensures !IsScan(c, m) ==> attempts == 0 && (err <==> script.bury != Done || script.commit != Done)
      ensures attempts <= maxRetries + 1 && (attempts == 0 <==> !IsScan(c, m))
      ensures IsScan(c, m) ==> (attempts, err) == AttemptReply(c, old(View()).stores, m, 0, script)
      ensures !err ==> m in committed
    {
      ghost var goal := MessageRun(c, View(), 0, m, script);
      if c.log[m].Poison? {
        assert goal == BuryLeft(c, View(), m, script);
        attempts := 0;
        err := Bury(c, m, script, goal);
      } else {
        assert Apply(c, View(), Fetch(0, m)).workers == [Claiming(m, 0)];
        err, attempts := Retry(c, m, script, goal);
      }
    }

    /** Run the handler until it succeeds or retries run out, then dead-letter, then commit. */
    method Retry(c: Config, m: nat, script: Script, ghost goal: State) returns (err: bool, attempts: nat)
      requires m < |c.log| && IsScan(c, m)
      requires Wired(c)
      requires goal == AttemptLeft(c, View(), m, 0, script)
      modifies this, handler.store
      ensures View() == goal
      ensures (attempts, err) == AttemptReply(c, old(View()).stores, m, 0, script)
      ensures !err ==> m in committed
    {
      ghost var reply := AttemptReply(c, View().stores, m, 0, script);
      var attempt := 0;
      while true
        invariant 0 <= attempt <= maxRetries
        invariant dlq == old(dlq) && committed == old(committed)
        invariant reply == AttemptReply(c, handler.store.View(), m, attempt, script)
        invariant goal == AttemptLeft(c, View(), m, attempt, script)
        decreases maxRetries - attempt
      {
        var herr;
        ghost var how;
        herr, how := Once(c, m, attempt, script, reply, goal);
        if herr && attempt < maxRetries {
          if script.cancelled(attempt) { return true, attempt + 1; }
          attempt := attempt + 1;
          continue;
        }
        err := Conclude(c, m, script, herr, how, goal);
        return err, attempt + 1;
      }
    }

    /** No attempt is left: commit after a success, dead-letter after a failure. */
    method Conclude(c: Config, m: nat, script: Script, herr: bool, ghost how: Settlement, ghost goal: State)
      returns (err: bool)
      requires m < |c.log|
      requires goal == if herr then BuryLeft(c, View(), m, script) else CommitLeft(c, View(), m, how, script)
      modifies this
      ensures View() == goal && (!err ==> m in committed)
      ensures err <==> (herr && script.bury != Done) || script.commit != Done
    {
      if herr { err := Bury(c, m, script, goal); } else { err := Commit(c, m, script, how, goal); }
    }

    /** One attempt of the handler, and what is left to reach `goal`. */
    method Once(c: Config, m: nat, n: nat, script: Script, ghost reply: (nat, bool), ghost goal: State)
      returns (herr: bool, ghost how: Settlement)
      requires m < |c.log| && IsScan(c, m) && n <= maxRetries
      requires Wired(c)
      requires reply == AttemptReply(c, handler.store.View(), m, n, script)
      requires goal == AttemptLeft(c, View(), m, n, script)
      modifies handler.store
      ensures reply == if !herr then (n + 1, script.commit != Done)
                       else if n == maxRetries then (n + 1, script.bury != Done || script.commit != Done)
                       else if script.cancelled(n) then (n + 1, true)
                       else AttemptReply(c, handler.store.View(), m, n + 1, script)
      ensures !herr ==> goal == CommitLeft(c, View(), m, how, script)
      ensures herr && n < maxRetries ==>
                goal == if script.cancelled(n) then View() else AttemptLeft(c, View(), m, n + 1, script)
      ensures herr && n == maxRetries ==> goal == BuryLeft(c, View(), m, script)
    {
      ghost var before := View();
      AttemptUnfolds(c, before, m, n, script);
      herr := handler.Handle(c, m, n, script.handle(n));
      ghost var end := HandlerRun(c, before.stores, Claiming(m, n), script.handle(n)).1;
      how := if end.Settled? then end.how else DeadLettered;
    }

    /** Write the dead letter, then commit. */
    method Bury(c: Config, m: nat, script: Script, ghost goal: State) returns (err: bool)
      requires m < |c.log| && goal == BuryLeft(c, View(), m, script)
      modifies this
      ensures View() == goal && (!err ==> m in committed)
      ensures err <==> script.bury != Done || script.commit != Done
    {
      if script.bury.Applied() { dlq := dlq + {m}; }
      if script.bury != Done { return true; }
      err := Commit(c, m, script, DeadLettered, goal);
    }

    method Commit(c: Config, m: nat, script: Script, ghost how: Settlement, ghost goal: State) returns (err: bool)
      requires m < |c.log| && goal == CommitLeft(c, View(), m, how, script)
      modifies this
      ensures View() == goal && (!err ==> m in committed) && (err <==> script.commit != Done)
    {
      err := script.commit != Done;
      if script.commit.Applied() { committed := committed + {m}; }
    }

    /** base * 2^attempt in the 64-bit arithmetic of time.Duration: the documented
        doubling exactly while that fits, for a negative base as for a positive one. */
    method BackoffFor(attempt: nat) returns (d: int)
      ensures d == backoff * Pow2(attempt) <==> -TWO63 <= backoff * Pow2(attempt) < TWO63
      ensures -TWO63 <= d < TWO63 && (backoff * Pow2(attempt) - d) % TWO64 == 0
    {
      d := Wrap64(backoff);
      var i := 0;
      while i < attempt
        invariant 0 <= i <= attempt
        invariant d == Wrap64(backoff * Pow2(i))
      {
        WrapDouble(backoff * Pow2(i));
        assert backoff * Pow2(i) * 2 == backoff * Pow2(i + 1);
        d := Wrap64(d * 2);
        i := i + 1;
      }
    }
  }

  // ---- Doubling in 64 bits ----

  const TWO63 := 0x8000_0000_0000_0000
  const TWO64 := 0x1_0000_0000_0000_0000

  function Pow2(n: nat): nat { if n == 0 then 1 else 2 * Pow2(n - 1) }

  /** The two's-complement reading of the low 64 bits. */
  function Wrap64(x: int): (r: int)
    ensures -TWO63 <= r < TWO63 && (x - r) % TWO64 == 0
    ensures r == x <==> -TWO63 <= x < TWO63
  {
    (x + TWO63) % TWO64 - TWO63
  }

  lemma WrapDouble(x: int)
    ensures Wrap64(Wrap64(x) * 2) == Wrap64(x * 2)
  {
    var k := (x - Wrap64(x)) / TWO64;
    assert x * 2 == Wrap64(x) * 2 + 2 * k * TWO64;
    WrapShift(Wrap64(x) * 2, 2 * k);
  }

  lemma WrapShift(x: int, k: int)
    ensures Wrap64(x + k * TWO64) == Wrap64(x)
  {}

  // ---- Marks and offsets ----

  /** The group offset left by committing `marks`: one past the highest. */
  ghost predicate IsGroupOffset(marks: set<nat>, offset: nat) {
    && (forall m :: m in marks ==> m < offset)
    && (offset > 0 ==> offset - 1 in marks)
  }

  /** A restart from the group offset redelivers message `m`. */
  predicate Redelivered(offset: nat, m: nat) { offset <= m }

  /** "Left uncommitted, so reprocessed on restart" is true of a single group
      offset exactly when no message was committed past an uncommitted one. */
  lemma OffsetMatchesMarks(marks: set<nat>, offset: nat)
    requires IsGroupOffset(marks, offset)
    ensures (forall m: nat :: Redelivered(offset, m) <==> m !in marks)
            <==> (forall k: nat, m: nat :: m in marks && k < m ==> k in marks)
  {
    if forall m: nat :: Redelivered(offset, m) <==> m !in marks {
      forall k: nat, m: nat | m in marks && k < m ensures k in marks {
        assert !Redelivered(offset, k);
      }
    }
    if forall k: nat, m: nat :: m in marks && k < m ==> k in marks {
      forall m: nat ensures Redelivered(offset, m) <==> m !in marks {}
    }
  }

  /** The group offset says which messages come back: exactly the uncommitted ones. */
  ghost predicate OffsetHonest(s: State) {
    forall offset: nat, m: nat :: IsGroupOffset(s.committed, offset) ==> (Redelivered(offset, m) <==> m !in s.committed)
  }

  /** The step commits a message while a lower one is still uncommitted. */
  ghost predicate CommitsPast(c: Config, s: State, a: Action)
    requires Enabled(c, s, a)
  {
    a.Advance? && s.workers[a.w].Settled? && a.o.Applied() && exists k: nat :: k < s.workers[a.w].m && k !in s.committed
  }

  /** Every set of marks leaves one group offset. */
  lemma {:induction false} OffsetExists(marks: set<nat>) returns (offset: nat)
    ensures IsGroupOffset(marks, offset)
    decreases |marks|
  {
    if marks == {} {
      offset := 0;
    } else {
      var m :| m in marks;
      offset := OffsetExists(marks - {m});
      if offset <= m { offset := m + 1; }
      forall x | x in marks ensures x < offset { if x != m { assert x in marks - {m}; } }
    }
  }

  /** A step breaks "left uncommitted, so reprocessed on restart" exactly when it
      commits a message while a lower one is uncommitted. */
  lemma OffsetBreaksExact(c: Config, s: State, a: Action)
    requires Enabled(c, s, a) && OffsetHonest(s)
    ensures OffsetHonest(Apply(c, s, a)) <==> !CommitsPast(c, s, a)
  {
    var s' := Apply(c, s, a);
    var before := OffsetExists(s.committed);
    var after := OffsetExists(s'.committed);
    OffsetMatchesMarks(s.committed, before);
    OffsetMatchesMarks(s'.committed, after);
    if s'.committed != s.committed {
      var m := s.workers[a.w].m;
      assert s'.committed == s.committed + {m};
      if CommitsPast(c, s, a) {
        var k: nat :| k < m && k !in s.committed;
        assert !Redelivered(after, k) && k !in s'.committed;
      } else {
        forall offset: nat, x: nat | IsGroupOffset(s'.committed, offset)
          ensures Redelivered(offset, x) <==> x !in s'.committed
        {
          OffsetMatchesMarks(s'.committed, offset);
        }
      }
    }
  }

  /** No step of the run commits past an uncommitted message. */
  ghost predicate NeverPast(c: Config, s: State, acts: seq<Action>)
    requires ValidRun(c, s, acts)
    decreases |acts|
  {
    acts == [] || (!CommitsPast(c, s, acts[0]) && NeverPast(c, Apply(c, s, acts[0]), acts[1..]))
  }

  /** So the documented restart holds of every run that commits in order. */
  lemma {:induction false} InOrderRestarts(c: Config, s: State, acts: seq<Action>)
    requires ValidRun(c, s, acts) && OffsetHonest(s) && NeverPast(c, s, acts)
    ensures OffsetHonest(Exec(c, s, acts))
    decreases |acts|
  {
    if acts != [] {
      OffsetBreaksExact(c, s, acts[0]);
      InOrderRestarts(c, Apply(c, s, acts[0]), acts[1..]);
    }
  }

  /** The consumer does commit past a failure, whatever its retry limit: message 0
      stays uncommitted, message 1 is committed, and the group offset skips both. */
  lemma FailureIsSkipped(e: ScanEvent, g: ScanEvent, maxRetries: nat, armed: bool) returns (acts: seq<Action>)
    requires e.traceId != g.traceId
    ensures var c := Config([Scan(e), Scan(g)], maxRetries, armed);
            && ValidRun(c, Init(1, 0), acts) && Faultless(c, Init(1, 0), acts)
            && var s := Exec(c, Init(1, 0), acts);
            && s.workers == [Idle] && s.committed == {1}
            && IsGroupOffset(s.committed, 2) && !Redelivered(2, 0)
            && !Processed(s.stores, e.traceId) && s.dlq == {}
  {
    var c := Config([Scan(e), Scan(g)], maxRetries, armed);
    var first := BadRuns(c);
    var s2, second := GoodRuns(c);
    RunThen(c, Init(1, 0), first, second);
    NoFaultsFaultless(c, Init(1, 0), first + second);
    acts := first + second;
  }

  /** The first message, handled and dead-lettered in vain, leaves no mark at all. */
  lemma BadRuns(c: Config) returns (acts: seq<Action>)
    requires IsScan(c, 0)
    ensures var s := Init(1, 0);
            ValidRun(c, s, acts) && Exec(c, s, acts) == s && FaultCount(c, s, acts) == 0
  {
    var s0 := Init(1, 0);
    var s1 := Apply(c, s0, Fetch(0, 0));
    var bad := Script(_ => HandleFaults(FailedClean, Done, Done, Done, Done), _ => false, FailedClean, Done);
    ExhaustedIsBuried(c, s1, 0, bad);
    assert s1.workers[0 := Idle] == [Idle];
    AttemptRefines(c, s1, 0, bad);
    StepRunsTo(c, s0, Fetch(0, 0), s0, Clean(bad));
    acts :| ValidRun(c, s0, acts) && Exec(c, s0, acts) == s0 && FaultCount(c, s0, acts) == 0;
  }

  /** The second message goes through. */
  lemma GoodRuns(c: Config) returns (s': State, acts: seq<Action>)
    requires IsScan(c, 0) && IsScan(c, 1) && TraceOf(c, 0) != TraceOf(c, 1)
    ensures var s := Init(1, 0);
            ValidRun(c, s, acts) && Exec(c, s, acts) == s' && FaultCount(c, s, acts) == 0
    ensures s'.workers == [Idle] && s'.committed == {1} && s'.dlq == {} && TraceOf(c, 0) !in s'.stores.rows
  {
    var s0 := Init(1, 0);
    var good := Script(_ => HandleFaults(Done, Done, Done, Done, Done), _ => false, Done, Done);
    s' := MessageRun(c, s0, 0, 1, good);
    GoodCommits(c, s0, good);
    AttemptRefines(c, Apply(c, s0, Fetch(0, 1)), 0, good);
    StepRunsTo(c, s0, Fetch(0, 1), s', Clean(good));
    acts :| ValidRun(c, s0, acts) && Exec(c, s0, acts) == s' && FaultCount(c, s0, acts) == 0;
  }

  lemma GoodCommits(c: Config, s: State, good: Script)
    requires IsScan(c, 0) && IsScan(c, 1) && TraceOf(c, 0) != TraceOf(c, 1) && s == Init(1, 0)
    requires good.commit == Done && good.handle(0) == HandleFaults(Done, Done, Done, Done, Done)
    ensures var s' := MessageRun(c, s, 0, 1, good);
            s'.workers == [Idle] && s'.committed == {1} && s'.dlq == {} && TraceOf(c, 0) !in s'.stores.rows
  {
    var f := good.handle(0);
    var st := s.stores;
    HandlerOutcome(c, st, 1, 0, f);
    var st1 := Claim(st, TraceOf(c, 1));
    var st2 := InsertRow(st1, c.log[1].event);
    assert HandlerRun(c, st, Claiming(1, 0), f) == HandlerRun(c, st1, Inserting(1, 0), f);
    assert HandlerRun(c, st1, Inserting(1, 0), f) == HandlerRun(c, st2, Aggregating(1, 0), f);
    RunFromAggregating(c, st2, 1, 0, f);
  }
}
