/** One producer of the pool as it runs: a fixed buffer, emptied and filled again,
    whose ids are copied out before every reuse. Each method is a run of the pool's
    machine with this producer as its only worker. */
module LoadGenProducer {
  import opened Core
  import opened LoadGen

  // ---- What a flush is to the machine ----

  function PublishActs(o: Outcome): seq<Action> {
    if o == Done then [Publish(0, Done), Report(0), Count(0), Reset(0)] else [Publish(0, o), Reset(0)]
  }

  /** A list can be handed over now: the queue has room, or the writer waits for one. */
  predicate Room(c: Config, s: State) { |s.toManifest| < c.manifestCap || WriterWaits(s) }

  /** A list handed over: queued, or straight to the waiting writer. */
  function Handed(c: Config, s: State, ids: seq<string>): State {
    if |s.toManifest| < c.manifestCap then s.(toManifest := s.toManifest + [ids]) else s.(hand := Some(ids))
  }

  /** What a flush does to the state the producers share. */
  function Shared(c: Config, s: State, es: seq<Event>, o: Outcome): State {
    if o == Done && es != [] then Handed(c, s, Ids(es)) else s
  }

  /** A lone producer's buffer published, counted, handed over and emptied. */
  function Flushed(c: Config, s: State, es: seq<Event>, o: Outcome, last: bool): State {
    var s1 := s.(workers := [Worker(if last then Exited else Selecting, [])]);
    if o == Done then Handed(c, s1, Ids(es)).(ok := s.ok + es, produced := s.produced + |es|)
    else s1.(bad := s.bad + es, errors := s.errors + |es|)
  }

  /** An event received and counted, the buffer aside. */
  function Received(s: State, e: Event): State {
    s.(receivedLog := s.receivedLog + [e], duplicates := s.duplicates + if e.dup then 1 else 0)
  }

  lemma Prepend(c: Config, s: State, a: Action, rest: seq<Action>)
    requires Enabled(c, s, a) && ValidRun(c, Apply(c, s, a), rest)
    ensures ValidRun(c, s, [a] + rest) && Exec(c, s, [a] + rest) == Exec(c, Apply(c, s, a), rest)
  {
    assert ([a] + rest)[1..] == rest;
  }

  lemma OneAction(c: Config, s: State, a: Action)
    requires Enabled(c, s, a)
    ensures ValidRun(c, s, [a]) && Exec(c, s, [a]) == Apply(c, s, a)
  {
    Prepend(c, s, a, []);
    assert [a] + [] == [a];
  }

  lemma ResetRuns(c: Config, s: State, es: seq<Event>, last: bool)
    requires s.workers == [Worker(Counted(last), es)]
    ensures ValidRun(c, s, [Reset(0)])
    ensures Exec(c, s, [Reset(0)]) == s.(workers := [Worker(if last then Exited else Selecting, [])])
  {
    OneAction(c, s, Reset(0));
    assert Apply(c, s, Reset(0)).workers == [Worker(if last then Exited else Selecting, [])];
  }

  lemma CountRuns(c: Config, s: State, es: seq<Event>, last: bool)
    requires s.workers == [Worker(Reported(last), es)]
    ensures ValidRun(c, s, [Count(0), Reset(0)])
    ensures Exec(c, s, [Count(0), Reset(0)])
            == s.(produced := s.produced + |es|, workers := [Worker(if last then Exited else Selecting, [])])
  {
    var s1 := Apply(c, s, Count(0));
    assert s1.workers == [Worker(Counted(last), es)];
    ResetRuns(c, s1, es, last);
    Prepend(c, s, Count(0), [Reset(0)]);
    assert [Count(0)] + [Reset(0)] == [Count(0), Reset(0)];
  }

  lemma ReportRuns(c: Config, s: State, es: seq<Event>, ids: seq<string>, last: bool)
    requires s.workers == [Worker(Reporting(ids, last), es)] && Room(c, s)
    ensures ValidRun(c, s, [Report(0), Count(0), Reset(0)])
    ensures Exec(c, s, [Report(0), Count(0), Reset(0)])
            == Handed(c, s, ids).(
               produced := s.produced + |es|, workers := [Worker(if last then Exited else Selecting, [])])
  {
    var s1 := Apply(c, s, Report(0));
    assert s1.workers == [Worker(Reported(last), es)];
    CountRuns(c, s1, es, last);
    Prepend(c, s, Report(0), [Count(0), Reset(0)]);
    assert [Report(0)] + [Count(0), Reset(0)] == [Report(0), Count(0), Reset(0)];
  }

  lemma PublishRuns(c: Config, s: State, es: seq<Event>, o: Outcome, last: bool)
    requires s.workers == [Worker(Publishing(last), es)] && (o == Done ==> Room(c, s))
    ensures ValidRun(c, s, PublishActs(o)) && Exec(c, s, PublishActs(o)) == Flushed(c, s, es, o, last)
  {
    var s1 := Apply(c, s, Publish(0, o));
    if o == Done {
      assert s1.workers == [Worker(Reporting(Ids(es), last), es)];
      ReportRuns(c, s1, es, Ids(es), last);
      Prepend(c, s, Publish(0, o), [Report(0), Count(0), Reset(0)]);
      assert [Publish(0, o)] + [Report(0), Count(0), Reset(0)] == PublishActs(o);
    } else {
      assert s1.workers == [Worker(Counted(last), es)];
      ResetRuns(c, s1, es, last);
      Prepend(c, s, Publish(0, o), [Reset(0)]);
      assert [Publish(0, o)] + [Reset(0)] == PublishActs(o);
    }
  }

  /** A tick with something in the buffer. */
  lemma TickRuns(c: Config, s: State, es: seq<Event>, o: Outcome)
    requires s.workers == [Worker(Selecting, es)] && es != [] && (o == Done ==> Room(c, s))
    ensures var acts := [Tick(0)] + PublishActs(o);
            ValidRun(c, s, acts) && Exec(c, s, acts) == Flushed(c, s, es, o, false)
  {
    var s1 := Apply(c, s, Tick(0));
    assert s1.workers == [Worker(Publishing(false), es)];
    PublishRuns(c, s1, es, o, false);
    Prepend(c, s, Tick(0), PublishActs(o));
  }

  /** The channel found closed and empty, with something in the buffer. */
  lemma DrainRuns(c: Config, s: State, es: seq<Event>, o: Outcome)
    requires s.workers == [Worker(Selecting, es)] && es != [] && (o == Done ==> Room(c, s))
    requires s.channel == [] && s.gen.Closed?
    ensures var acts := [Drained(0)] + PublishActs(o);
            ValidRun(c, s, acts) && Exec(c, s, acts) == Flushed(c, s, es, o, true)
  {
    var s1 := Apply(c, s, Drained(0));
    assert s1.workers == [Worker(Publishing(true), es)];
    PublishRuns(c, s1, es, o, true);
    Prepend(c, s, Drained(0), PublishActs(o));
  }

  /** An event that fills the buffer. */
  lemma ReceiveRuns(c: Config, s: State, es: seq<Event>, o: Outcome)
    requires s.workers == [Worker(Selecting, es)] && s.channel != [] && |es| + 1 >= BATCH
             && (o == Done ==> Room(c, s))
    ensures var acts := [Receive(0)] + PublishActs(o);
            var e := s.channel[0];
            ValidRun(c, s, acts)
            && Exec(c, s, acts) == Flushed(c, Received(s.(channel := s.channel[1..]), e), es + [e], o, false)
  {
    var s1 := Apply(c, s, Receive(0));
    assert s1.workers == [Worker(Publishing(false), es + [s.channel[0]])];
    PublishRuns(c, s1, es + [s.channel[0]], o, false);
    Prepend(c, s, Receive(0), PublishActs(o));
  }

  /** An event that leaves room in the buffer. */
  lemma AppendRuns(c: Config, s: State, es: seq<Event>)
    requires s.workers == [Worker(Selecting, es)] && s.channel != [] && |es| + 1 < BATCH
    ensures ValidRun(c, s, [Receive(0)])
    ensures var e := s.channel[0];
            Exec(c, s, [Receive(0)])
            == Received(s.(channel := s.channel[1..]), e).(workers := [Worker(Selecting, es + [e])])
  {
    OneAction(c, s, Receive(0));
    var e := s.channel[0];
    assert s.workers[0 := Worker(Selecting, es + [e])] == [Worker(Selecting, es + [e])];
  }

  lemma Associate<T>(a: seq<T>, b: seq<T>, c: seq<T>)
    ensures a + (b + c) == a + b + c
  {}

  // ---- The program ----

  class Producer {
    const batch: array<Event>
    var len: nat
    var produced: nat
    var errors: nat
    var duplicates: nat
    var handed: seq<array<string>>        // lists given to the manifest writer
    ghost var reported: seq<seq<string>>  // what they held when given
    ghost var received: seq<Event>
    ghost var ok: seq<Event>
    ghost var bad: seq<Event>

    /** The buffer never outgrows its capacity, and no list handed over has changed. */
    ghost predicate Valid()
      reads this, batch, handed
    {
      batch.Length == BATCH && len < BATCH && Intact()
    }

    /** Reusing the buffer has changed no list handed over. */
    ghost predicate Intact()
      reads this, handed
    {
      |handed| == |reported| && forall k :: 0 <= k < |handed| ==> handed[k][..] == reported[k]
    }

    ghost function Contents(): (es: seq<Event>)
      reads this, batch
      requires len <= batch.Length
    {
      batch[..len]
    }

    /** The pool's state: what is shared and what the others have added, in `env`,
        and what this producer adds. */
    ghost function View(env: State): State
      reads this, batch
      requires len <= batch.Length
    {
      env.(workers := [Worker(Selecting, Contents())],
           receivedLog := env.receivedLog + received, ok := env.ok + ok, bad := env.bad + bad,
           produced := env.produced + produced, errors := env.errors + errors,
           duplicates := env.duplicates + duplicates)
    }

    constructor ()
      ensures Valid() && Contents() == [] && handed == [] && produced == errors == duplicates == 0
      ensures received == ok == bad == []
      ensures fresh(batch)
    {
      batch := new Event[BATCH](_ => Event("", false));
      len, produced, errors, duplicates, handed, reported := 0, 0, 0, 0, [], [];
      received, ok, bad := [], [], [];
    }

    /** A fresh list of the buffered ids. */
    method CopyIds() returns (ids: array<string>)
      requires len <= batch.Length
      ensures fresh(ids) && ids[..] == Ids(Contents())
    {
      ids := new string[len];
      var j := 0;
      while j < len
        modifies ids
        invariant 0 <= j <= len
        invariant forall k :: 0 <= k < j ==> ids[k] == batch[k].traceId
      {
        ids[j] := batch[j].traceId;
        j := j + 1;
      }
    }

    /** A failed publish: everything buffered counts as errors. */
    method CountErrors(o: Outcome, ghost c: Config, ghost env: State)
      requires batch.Length == BATCH && 0 < len <= BATCH && Intact() && o != Done
      modifies `errors, `bad, `len
      ensures Valid() && View(env) == Flushed(c, old(View(env)), old(Contents()), o, false)
    {
      ghost var es := Contents();
      errors := errors + len;
      bad := bad + es;
      len := 0;
      Associate(env.bad, old(bad), es);
    }

    /** The buffered ids go out in a fresh list, which joins those handed over. */
    method Hand()
      requires len <= batch.Length && Intact()
      modifies `handed, `reported
      ensures Intact() && |handed| == |old(handed)| + 1 && old(handed) < handed
      ensures fresh(handed[|old(handed)|]) && handed[|old(handed)|][..] == Ids(Contents())
    {
      var ids := CopyIds();
      handed := handed + [ids];
      reported := reported + [Ids(Contents())];
    }

    /** A successful publish: everything buffered counts as produced, and a fresh
        list of its ids goes to the manifest writer. */
    method HandOver(ghost c: Config, ghost env: State)
      requires batch.Length == BATCH && 0 < len <= BATCH && Intact()
      modifies `produced, `ok, `handed, `reported, `len
      ensures Valid()
      ensures View(Handed(c, env, Ids(old(Contents())))) == Flushed(c, old(View(env)), old(Contents()), Done, false)
      ensures |handed| == |old(handed)| + 1 && old(handed) < handed
      ensures fresh(handed[|old(handed)|]) && handed[|old(handed)|][..] == Ids(old(Contents()))
    {
      ghost var es := Contents();
      Hand();
      produced := produced + len;
      ok := ok + es;
      len := 0;
      Associate(env.ok, old(ok), es);
    }

    /** Empty the buffer, if there is anything in it. */
    method Flush(o: Outcome, ghost c: Config, ghost env: State)
      requires batch.Length == BATCH && len <= BATCH && Intact()
      modifies this
      ensures Valid()
      ensures View(Shared(c, env, old(Contents()), o))
              == if old(Contents()) == [] then old(View(env))
                 else Flushed(c, old(View(env)), old(Contents()), o, false)
      ensures old(handed) <= handed
    {
      if len == 0 { return; }
      if o == Done { HandOver(c, env); } else { CountErrors(o, c, env); }
    }

    /** The ticker: nothing for an empty buffer, otherwise a flush. */
    method OnTick(o: Outcome, ghost c: Config, ghost env: State)
      requires Valid() && (Contents() != [] && o == Done ==> Room(c, env))
      modifies this
      ensures Valid() && old(handed) <= handed
      ensures var acts := if old(Contents()) == [] then [Tick(0)] else [Tick(0)] + PublishActs(o);
              && ValidRun(c, old(View(env)), acts)
              && Exec(c, old(View(env)), acts) == View(Shared(c, env, old(Contents()), o))
    {
      ghost var before, es := View(env), Contents();
      if es == [] {
        OneAction(c, before, Tick(0));
        assert before.workers[0 := before.workers[0]] == before.workers;
      } else {
        TickRuns(c, before, es, o);
      }
      Flush(o, c, env);
    }

    /** One more event in the buffer. */
    method Append(e: Event, ghost env: State)
      requires Valid()
      modifies `len, `received, `duplicates, batch
      ensures batch.Length == BATCH && len == old(len) + 1 && Contents() == old(Contents()) + [e] && Intact()
      ensures View(env) == Received(old(View(env)), e).(workers := [Worker(Selecting, old(Contents()) + [e])])
    {
      ghost var es := Contents();
      batch[len] := e;
      len := len + 1;
      received := received + [e];
      if e.dup { duplicates := duplicates + 1; }
      assert Contents() == es + [e];
      Associate(env.receivedLog, old(received), [e]);
    }

    /** One event from the channel; a full buffer is flushed at once. */
    method OnEvent(e: Event, o: Outcome, ghost c: Config, ghost env: State)
      requires Valid() && (|Contents()| + 1 >= BATCH && o == Done ==> Room(c, env))
      modifies this, batch
      ensures Valid() && old(handed) <= handed
      ensures var full := |old(Contents())| + 1 >= BATCH;
              var acts := if full then [Receive(0)] + PublishActs(o) else [Receive(0)];
              var s := old(View(env)).(channel := [e] + env.channel);
              var env' := if full then Shared(c, env, old(Contents()) + [e], o) else env;
              ValidRun(c, s, acts) && Exec(c, s, acts) == View(env')
    {
      ghost var before, es := View(env), Contents();
      ghost var s := before.(channel := [e] + env.channel);
      assert s.channel[1..] == env.channel && s.channel[0] == e;
      assert s.(channel := s.channel[1..]) == before;
      Append(e, env);
      if len >= BATCH {
        ReceiveRuns(c, s, es, o);
        Flush(o, c, env);
      } else {
        AppendRuns(c, s, es);
      }
    }

    /** The channel is closed and empty: a last flush, and the producer is done. */
    method OnClosed(o: Outcome, ghost c: Config, ghost env: State)
      requires Valid() && (Contents() != [] && o == Done ==> Room(c, env)) && env.channel == [] && env.gen.Closed?
      modifies this
      ensures Valid() && old(handed) <= handed
      ensures var acts := if old(Contents()) == [] then [Drained(0)] else [Drained(0)] + PublishActs(o);
              var env' := Shared(c, env, old(Contents()), o);
              ValidRun(c, old(View(env)), acts)
              && Exec(c, old(View(env)), acts) == View(env').(workers := [Worker(Exited, [])])
    {
      ghost var before, es := View(env), Contents();
      if es == [] {
        OneAction(c, before, Drained(0));
        assert before.workers[0 := Worker(Exited, [])] == [Worker(Exited, [])];
      } else {
        DrainRuns(c, before, es, o);
      }
      Flush(o, c, env);
    }
  }
}
