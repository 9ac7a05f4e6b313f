/** What callers of the pin-once cache are answered. */
module CidAnswers {
  import opened Core
  import opened CidCache

  /** A call nobody interrupts answers with assets exactly when the ride is cached or
      both pins report success: the cached ones, or the new ones, which are then
      cached. A failed call caches nothing. */
  lemma CallAnswers(s: State, ride: string, date: string, w: World)
    ensures var s' := WholeCall(s, ride, date, w);
            var pinned := Assets(w.artCid, w.metaCid);
            && |s'.answers| == |s.answers| + 1 && s'.answers[..|s.answers|] == s.answers
            && var a := s'.answers[|s.answers|];
               && a.ride == ride && a.date == date
               && (a.assets.Some? <==> ride in s.cache || (w.art == Done && w.meta == Done))
               && (ride in s.cache ==> a.assets == Some(s.cache[ride]) && s'.cache == s.cache && s'.pins == s.pins)
               && (ride !in s.cache && a.assets.Some? ==>
                     a.assets == Some(pinned) && s'.cache == s.cache[ride := pinned]
                     && s'.pins == s.pins + [Pin(ride, date, pinned)])
               && (a.assets.None? ==> s'.cache == s.cache && s'.pins == s.pins)
  {}

  // ---- In every interleaving ----

  /** A call is about to answer without assets. */
  predicate GivesUp(c: Call) { c.phase == Leaving(None) }

  /** A call gives up exactly in the step in which one of its own pins fails; and it
      answers without assets exactly when it had given up. */
  lemma GivesUpExact(s: State, a: Action)
    requires Inv(s) && Enabled(s, a) && a.Step?
    ensures var c, s' := s.calls[a.thread], Apply(s, a);
            && (a.thread in s'.calls ==>
                  (GivesUp(s'.calls[a.thread]) <==> (c.phase.Absent? || c.phase.ArtPinned?) && a.o != Done))
            && (a.thread !in s'.calls ==>
                  && s'.answers == s.answers + [Answer(c.ride, c.date, CidCache.Result(c.phase))]
                  && (CidCache.Result(c.phase).None? <==> GivesUp(c)))
  {
    assert CallOk(s, s.calls[a.thread]);
  }

  /** Nobody outstanding has given up on the ride. */
  ghost predicate Hopeful(s: State, ride: string) {
    forall t :: t in s.calls && s.calls[t].ride == ride ==> !GivesUp(s.calls[t])
  }

  /** From the `n`-th on, every answer for the ride is these assets. */
  ghost predicate AnsweredWith(answers: seq<Answer>, n: nat, ride: string, assets: Assets) {
    n <= |answers| && forall i :: n <= i < |answers| && answers[i].ride == ride ==> answers[i].assets == Some(assets)
  }

  lemma StaysHopeful(s: State, a: Action, ride: string)
    requires Inv(s) && Enabled(s, a) && ride in s.cache && Hopeful(s, ride)
    ensures Hopeful(Apply(s, a), ride)
    ensures s.answers <= Apply(s, a).answers
    ensures AnsweredWith(Apply(s, a).answers, |s.answers|, ride, s.cache[ride])
  {
    if a.Step? {
      assert CallOk(s, s.calls[a.thread]);
      GivesUpExact(s, a);
    }
  }

  /** Once a ride is cached and nobody outstanding has given up on it, every later
      answer for it, in every interleaving, is the cached assets. */
  lemma {:induction false} CachedIsAnswered(s: State, run: seq<Action>, ride: string)
    requires Inv(s) && ValidRun(s, run) && ride in s.cache && Hopeful(s, ride)
    ensures s.answers <= Exec(s, run).answers
    ensures AnsweredWith(Exec(s, run).answers, |s.answers|, ride, s.cache[ride])
    decreases |run|
  {
    if run != [] {
      InvStays(s, run[0]);
      CacheGrows(s, run[0]);
      StaysHopeful(s, run[0], ride);
      CachedIsAnswered(Apply(s, run[0]), run[1..], ride);
    }
  }
}
