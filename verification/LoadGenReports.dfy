/** What the load generator's run report means: when its duplicate count is the
    number of repeated ids, and that its shutdown always completes. */
module LoadGenReports {
  import opened Core
  import opened LoadGen

  // ---- Duplicates ----

  function IdSet(es: seq<Event>): set<string> { set e | e in es :: e.traceId }

  function FirstIssued(es: seq<Event>): set<string> { set e | e in es && !e.dup :: e.traceId }

  /** A log the generator can emit: a flagged event repeats an id unless there was
      none to repeat; every other id is fresh. */
  predicate Drawn(es: seq<Event>)
    decreases |es|
  {
    es == [] ||
    var init, e := es[..|es| - 1], es[|es| - 1];
    Drawn(init) && if e.dup && FirstIssued(init) != {} then e.traceId in FirstIssued(init)
        else e.traceId !in IdSet(init)
  }

  /** Events flagged as duplicates before there was an id to repeat. */
  function Mislabelled(es: seq<Event>): nat
    decreases |es|
  {
    if es == [] then 0
    else Mislabelled(es[..|es| - 1]) + if es[|es| - 1].dup && FirstIssued(es[..|es| - 1]) == {} then 1 else 0
  }

  lemma IdSetSnoc(es: seq<Event>, e: Event)
    ensures IdSet(es + [e]) == IdSet(es) + {e.traceId}
    ensures FirstIssued(es + [e]) == FirstIssued(es) + if e.dup then {} else {e.traceId}
  {
    forall x | x in IdSet(es) + {e.traceId} ensures x in IdSet(es + [e]) {
      if x in IdSet(es) { var y :| y in es && y.traceId == x; assert y in es + [e]; } else { assert e in es + [e]; }
    }
    forall x | x in FirstIssued(es) + (if e.dup then {} else {e.traceId}) ensures x in FirstIssued(es + [e]) {
      if x in FirstIssued(es) {
        var y :| y in es && !y.dup && y.traceId == x;
        assert y in es + [e];
      } else {
        assert e in es + [e];
      }
    }
  }

  /** Flagged events are the repeats plus the mislabelled ones. */
  lemma {:induction false} RepeatsOf(es: seq<Event>)
    requires Drawn(es)
    ensures CountDups(es) == |es| - |IdSet(es)| + Mislabelled(es)
    decreases |es|
  {
    if es != [] {
      var init, e := es[..|es| - 1], es[|es| - 1];
      assert es == init + [e];
      RepeatsOf(init);
      IdSetSnoc(init, e);
      if e.traceId in FirstIssued(init) { assert IdSet(es) == IdSet(init); }
    }
  }

  /** None is mislabelled exactly when the first event was not flagged. */
  lemma {:induction false} MislabelledExact(es: seq<Event>)
    ensures Mislabelled(es) == 0 <==> es == [] || !es[0].dup
    decreases |es|
  {
    if |es| > 1 {
      var init := es[..|es| - 1];
      MislabelledExact(init);
      if !es[0].dup { assert init[0] == es[0] && es[0].traceId in FirstIssued(init); }
    }
  }

  lemma DrawnStays(c: Config, s: State, a: Action)
    requires Drawn(s.emittedLog) && s.generated == FirstIssued(s.emittedLog) && Enabled(c, s, a)
    ensures Drawn(Apply(c, s, a).emittedLog) && Apply(c, s, a).generated == FirstIssued(Apply(c, s, a).emittedLog)
  {
    if a.Emit? {
      IdSetSnoc(s.emittedLog, a.e);
      assert (s.emittedLog + [a.e])[..|s.emittedLog|] == s.emittedLog;
    }
  }

  lemma {:induction false} RunIsDrawn(c: Config, s: State, run: seq<Action>)
    requires ValidRun(c, s, run) && Drawn(s.emittedLog) && s.generated == FirstIssued(s.emittedLog)
    ensures Drawn(Exec(c, s, run).emittedLog)
    decreases |run|
  {
    if run != [] {
      DrawnStays(c, s, run[0]);
      RunIsDrawn(c, Apply(c, s, run[0]), run[1..]);
    }
  }

  /** At shutdown the reported duplicates are the repeated ids exactly when the
      first event emitted was not flagged as a duplicate. */
  lemma DuplicatesExact(c: Config, run: seq<Action>)
    requires c.workers > 0 && ValidRun(c, Init(c), run) && Exec(c, Init(c), run).finished
    ensures var s := Exec(c, Init(c), run);
            s.duplicates == |s.emittedLog| - |IdSet(s.emittedLog)| <==> s.emittedLog == [] || !s.emittedLog[0].dup
  {
    ShutdownExact(c, run);
    RunIsDrawn(c, Init(c), run);
    RepeatsOf(Exec(c, Init(c), run).emittedLog);
    MislabelledExact(Exec(c, Init(c), run).emittedLog);
  }

  // ---- Shutdown ----

  /** A tick with an empty buffer does nothing. */
  predicate Idle(s: State, a: Action) {
    a.Tick? && a.w < |s.workers| && s.workers[a.w].batch == []
  }

  function PhaseRank(w: Worker): nat {
    match w.phase
    case Selecting => if w.batch == [] then 1 else 8
    case Publishing(_) => 7
    case Reporting(_, _) => 6
    case Reported(_) => 3
    case Counted(_) => 2
    case Exited => 0
  }

  function Ranks(): Worker -> nat { (w: Worker) => PhaseRank(w) }

  /** Work left for the manifest writer: take and write each list. */
  function WriterRank(s: State): nat { 2 * |s.toManifest| + if s.hand.Some? then 1 else 0 }

  /** Work left once the generator has closed the channel. */
  function Rank(s: State): nat {
    9 * |s.channel| + Sum(s.workers, Ranks()) + WriterRank(s)
    + (if s.manifestClosed then 0 else 1) + (if s.finished then 0 else 1)
  }

  lemma ActorRank(c: Config, s: State, a: Action)
    requires Enabled(c, s, a) && ActorOk(s, a) && Actor(a).Some? && !Idle(s, a)
    ensures var s', i := Apply(c, s, a), Actor(a).value;
            9 * |s'.channel| + PhaseRank(s'.workers[i]) + WriterRank(s') < 9 * |s.channel| + PhaseRank(s.workers[i])
                + WriterRank(s)
  {}

  /** After the generator has stopped, every step that does anything uses up work. */
  lemma WorkRunsOut(c: Config, s: State, a: Action)
    requires Inv(c, s) && s.gen.Closed? && Enabled(c, s, a) && !Idle(s, a)
    ensures Apply(c, s, a).gen.Closed? && Rank(Apply(c, s, a)) < Rank(s)
  {
    if Actor(a).Some? {
      var i := Actor(a).value;
      assert WorkerOk(s, s.workers[i]);
      SumMoves(s.workers, i, Apply(c, s, a).workers[i], Ranks());
      ActorRank(c, s, a);
      assert Apply(c, s, a).workers == s.workers[i := Apply(c, s, a).workers[i]];
    }
  }

  /** And until everything is finished, some such step is possible: the pool never
      deadlocks on a full channel, not even with an unbuffered one to the manifest writer. */
  lemma ShutdownProceeds(c: Config, s: State) returns (a: Action)
    requires Inv(c, s) && s.gen.Closed? && !s.finished
    ensures Enabled(c, s, a) && !Idle(s, a)
  {
    if s.hand.Some? { return Write; }
    if s.toManifest != [] { return Take; }
    if s.manifestClosed { return Finish; }
    if forall w :: 0 <= w < |s.workers| ==> s.workers[w].phase.Exited? { return CloseManifest; }
    var w :| 0 <= w < |s.workers| && !s.workers[w].phase.Exited?;
    assert WorkerOk(s, s.workers[w]);
    a := match s.workers[w].phase
      case Selecting => if s.channel != [] then Receive(w) else Drained(w)
      case Publishing(_) => Publish(w, Done)
      case Reporting(_, _) => Report(w)
      case Reported(_) => Count(w)
      case Counted(_) => Reset(w)
      case Exited => Write;
  }

  /** So from any reachable state in which the generator has stopped, the shutdown
      can be completed, within as many steps as there is work left. */
  lemma {:induction false} ShutdownCompletes(c: Config, s: State) returns (run: seq<Action>)
    requires Inv(c, s) && s.gen.Closed?
    ensures ValidRun(c, s, run) && Exec(c, s, run).finished && |run| <= Rank(s)
    decreases Rank(s)
  {
    if s.finished {
      run := [];
    } else {
      var a := ShutdownProceeds(c, s);
      WorkRunsOut(c, s, a);
      InvStays(c, s, a);
      var rest := ShutdownCompletes(c, Apply(c, s, a));
      run := [a] + rest;
      assert run[0] == a && run[1..] == rest;
    }
  }
}
