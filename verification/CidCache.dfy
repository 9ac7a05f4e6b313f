/** The pin-once cache of ride assets: double-checked locking around a map,
    modelled step by step for any number of concurrent callers. */
module CidCache {
  import opened Core

  datatype Assets = Assets(artworkCid: string, metadataCid: string)

  /** Where a call of `GetOrPin` is. */
  datatype Phase =
    | Start                               // before RLock
    | Reading                             // read lock held
    | Peeked(found: Option<Assets>)       // read lock held, map looked up
    | Missed                              // no lock held, before Lock
    | Locked                              // write lock held
    | Absent                              // write lock held, second look-up missed
    | ArtPinned(art: string)              // write lock held, artwork pinned
    | MetaPinned(assets: Assets)          // write lock held, metadata pinned
    | Leaving(result: Option<Assets>)     // write lock held until the return

  datatype Call = Call(ride: string, date: string, phase: Phase)

  /** A metadata pin the client reported as successful. */
  datatype Pin = Pin(ride: string, date: string, assets: Assets)

  datatype Answer = Answer(ride: string, date: string, assets: Option<Assets>)

  datatype State = State(
    cache: map<string, Assets>,
    readers: set<nat>,
    writer: Option<nat>,
    calls: map<nat, Call>,
    pins: seq<Pin>,
    answers: seq<Answer>,
    arts: multiset<string>,               // artwork objects pinned, by ride
    metas: multiset<string>,              // metadata objects pinned, by ride
    wasted: multiset<string>,             // attempts given up after their artwork was pinned
    lost: multiset<string>                // metadata objects pinned by a call that reported failure
  )

  const EMPTY := State(map[], {}, None, map[], [], [], multiset{}, multiset{}, multiset{}, multiset{})

  /** A caller arrives, or a call takes its next step; `cid` and `o` are what a
      pin in that step returns. */
  datatype Action = Arrive(thread: nat, ride: string, date: string) | Step(thread: nat, cid: string, o: Outcome)

  predicate Enabled(s: State, a: Action) {
    match a
    case Arrive(t, _, _) => t !in s.calls
    case Step(t, _, _) =>
      && t in s.calls
      && (s.calls[t].phase.Start? ==> s.writer.None?)
      && (s.calls[t].phase.Missed? ==> s.writer.None? && s.readers == {})
  }

  function Found(cache: map<string, Assets>, ride: string): Option<Assets> {
    if ride in cache then Some(cache[ride]) else None
  }

  /** Where the call's next step leads; nowhere when the call returns. */
  function Next(cache: map<string, Assets>, c: Call, cid: string, o: Outcome): Option<Phase> {
    match c.phase
    case Start => Some(Reading)
    case Reading => Some(Peeked(Found(cache, c.ride)))
    case Peeked(found) => if found.Some? then None else Some(Missed)
    case Missed => Some(Locked)
    case Locked => Some(if c.ride in cache then Leaving(Found(cache, c.ride)) else Absent)
    case Absent => Some(if o == Done then ArtPinned(cid) else Leaving(None))
    case ArtPinned(art) => Some(if o == Done then MetaPinned(Assets(art, cid)) else Leaving(None))
    case MetaPinned(assets) => Some(Leaving(Some(assets)))
    case Leaving(_) => None
  }

  function Result(p: Phase): Option<Assets> {
    match p
    case Peeked(found) => found
    case Leaving(result) => result
    case _ => None
  }

  function Add(tally: multiset<string>, ride: string, yes: bool): multiset<string> {
    if yes then tally[ride := tally[ride] + 1] else tally
  }

  /** What a step of a call changes apart from the locks: cache, pins, answers. */
  function Logged(s: State, c: Call, cid: string, o: Outcome): State {
    var pinsMeta := c.phase.ArtPinned?;
    s.(
      cache := if c.phase.MetaPinned? then s.cache[c.ride := c.phase.assets] else s.cache,
      pins := if pinsMeta && o == Done then s.pins + [Pin(c.ride, c.date, Assets(c.phase.art, cid))] else s.pins,
      answers := if Next(s.cache, c, cid, o).None? then s.answers + [Answer(c.ride, c.date, Result(c.phase))]
          else s.answers,
      arts := Add(s.arts, c.ride, c.phase.Absent? && o.Applied()),
      metas := Add(s.metas, c.ride, pinsMeta && o.Applied()),
      wasted := Add(s.wasted, c.ride, (c.phase.Absent? && o == FailedApplied) || (pinsMeta && o != Done)),
      lost := Add(s.lost, c.ride, pinsMeta && o == FailedApplied)
    )
  }

  function Advance(s: State, t: nat, cid: string, o: Outcome): State
    requires t in s.calls
  {
    var c := s.calls[t];
    var next := Next(s.cache, c, cid, o);
    Logged(s, c, cid, o).(
      readers := if c.phase.Start? then s.readers + {t} else if c.phase.Peeked? then s.readers - {t} else s.readers,
      writer := if c.phase.Missed? then Some(t) else if c.phase.Leaving? then None else s.writer,
      calls := if next.Some? then s.calls[t := c.(phase := next.value)] else s.calls - {t}
    )
  }

  function Apply(s: State, a: Action): State
    requires Enabled(s, a)
  {
    match a
    case Arrive(t, ride, date) => s.(calls := s.calls[t := Call(ride, date, Start)])
    case Step(t, cid, o) => Advance(s, t, cid, o)
  }

  predicate ValidRun(s: State, run: seq<Action>)
    decreases |run|
  {
    run == [] || (Enabled(s, run[0]) && ValidRun(Apply(s, run[0]), run[1..]))
  }

  function Exec(s: State, run: seq<Action>): State
    requires ValidRun(s, run)
    decreases |run|
  {
    if run == [] then s else Exec(Apply(s, run[0]), run[1..])
  }

  // ---- The invariant ----

  predicate Reads(p: Phase) { p.Reading? || p.Peeked? }

  predicate Writes(p: Phase) { p.Locked? || p.Absent? || p.ArtPinned? || p.MetaPinned? || p.Leaving? }

  /** A thread is registered with the lock it holds. */
  predicate Registered(s: State, t: nat) {
    && (t in s.readers <==> t in s.calls && Reads(s.calls[t].phase))
    && (s.writer == Some(t) <==> t in s.calls && Writes(s.calls[t].phase))
  }

  /** The locks say who is where, and exclude each other. */
  ghost predicate LocksOk(s: State) {
    && (forall t: nat :: Registered(s, t))
    && (s.writer.Some? ==> s.readers == {})
  }

  predicate Holds(s: State, ride: string, r: Option<Assets>) {
    r.Some? ==> ride in s.cache && s.cache[ride] == r.value
  }

  /** What a call has seen is still so. */
  predicate CallOk(s: State, c: Call) {
    match c.phase
    case Peeked(found) => Holds(s, c.ride, found)
    case Leaving(result) => Holds(s, c.ride, result)
    case Absent => c.ride !in s.cache
    case ArtPinned(_) => c.ride !in s.cache
    case MetaPinned(a) => c.ride !in s.cache && exists p :: p in s.pins && p.ride == c.ride && p.assets == a
    case _ => true
  }

  /** The writer has pinned this ride's metadata and not stored it yet. */
  predicate Storing(s: State, ride: string) {
    s.writer.Some? && s.writer.value in s.calls && s.calls[s.writer.value].ride == ride
        && s.calls[s.writer.value].phase.MetaPinned?
  }

  /** The writer has pinned this ride's artwork and not stored the assets yet. */
  predicate Pinning(s: State, ride: string) {
    s.writer.Some? && s.writer.value in s.calls && s.calls[s.writer.value].ride == ride
    && (s.calls[s.writer.value].phase.ArtPinned? || s.calls[s.writer.value].phase.MetaPinned?)
  }

  predicate PinOk(s: State, p: Pin) {
    if p.ride in s.cache then s.cache[p.ride] == p.assets
    else Storing(s, p.ride) && s.calls[s.writer.value].phase.assets == p.assets
  }

  ghost predicate PinsOk(s: State) {
    && (forall i, j :: 0 <= i < j < |s.pins| ==> s.pins[i].ride != s.pins[j].ride)
    && (forall p :: p in s.pins ==> PinOk(s, p))
    && (forall ride :: ride in s.cache ==> exists p :: p in s.pins && p.ride == ride && p.assets == s.cache[ride])
  }

  ghost predicate Inv(s: State) {
    && LocksOk(s)
    && PinsOk(s)
    && (forall t :: t in s.calls ==> CallOk(s, s.calls[t]))
    && (forall a :: a in s.answers ==> Holds(s, a.ride, a.assets))
  }

  function Count(yes: bool): nat { if yes then 1 else 0 }

  /** Every object pinned at the provider is accounted for, ride by ride. */
  ghost predicate Conserved(s: State) {
    forall ride :: RidePaid(s, ride)
  }

  predicate RidePaid(s: State, ride: string) {
    && s.arts[ride] == s.wasted[ride] + Count(ride in s.cache) + Count(Pinning(s, ride))
    && s.metas[ride] == s.lost[ride] + Count(ride in s.cache) + Count(Storing(s, ride))
    && s.lost[ride] <= s.wasted[ride]
  }

  lemma LocksStay(s: State, a: Action)
    requires LocksOk(s) && Enabled(s, a)
    ensures LocksOk(Apply(s, a))
  {
    var s' := Apply(s, a);
    assert Registered(s, a.thread);
    forall t: nat ensures Registered(s', t) { assert Registered(s, t); }
    if s'.writer.Some? && s.writer.Some? { assert Registered(s, s.writer.value); }
  }

  /** A step never changes an entry of the cache. */
  lemma CacheGrows(s: State, a: Action)
    requires Inv(s) && Enabled(s, a)
    ensures forall ride :: ride in s.cache ==> ride in Apply(s, a).cache && Apply(s, a).cache[ride] == s.cache[ride]
  {
    if a.Step? { assert CallOk(s, s.calls[a.thread]); }
  }

  lemma PinsStay(s: State, a: Action)
    requires Inv(s) && Enabled(s, a)
    ensures PinsOk(Apply(s, a))
  {
    var s' := Apply(s, a);
    if a.Step? {
      var c := s.calls[a.thread];
      assert CallOk(s, c) && Registered(s, a.thread);
      forall p | p in s'.pins ensures PinOk(s', p) {
        if p in s.pins { assert PinOk(s, p); }
      }
      forall i, j | 0 <= i < j < |s'.pins| ensures s'.pins[i].ride != s'.pins[j].ride {
        if j == |s.pins| { assert s.pins[i] in s.pins && PinOk(s, s.pins[i]); }
      }
      forall ride | ride in s'.cache ensures exists p :: p in s'.pins && p.ride == ride && p.assets == s'.cache[ride] {
        if ride in s.cache {
          var p :| p in s.pins && p.ride == ride && p.assets == s.cache[ride];
          assert p in s'.pins;
        }
      }
    } else {
      forall p | p in s'.pins ensures PinOk(s', p) { assert PinOk(s, p); }
    }
  }

  lemma CallsStay(s: State, a: Action)
    requires Inv(s) && Enabled(s, a)
    ensures forall t :: t in Apply(s, a).calls ==> CallOk(Apply(s, a), Apply(s, a).calls[t])
  {
    var s' := Apply(s, a);
    CacheGrows(s, a);
    assert Registered(s, a.thread);
    forall t | t in s'.calls ensures CallOk(s', s'.calls[t]) {
      if t in s.calls {
        assert Registered(s, t);
        assert CallOk(s, s.calls[t]);
        if s.calls[t].phase.MetaPinned? && s'.calls[t].phase.MetaPinned? {
          var p :| p in s.pins && p.ride == s.calls[t].ride && p.assets == s.calls[t].phase.assets;
          assert p in s'.pins;
        }
        if a.Step? && t == a.thread && s'.calls[t].phase.MetaPinned? {
          assert s'.pins[|s.pins|] in s'.pins;
        }
      }
    }
  }

  lemma InvStays(s: State, a: Action)
    requires Inv(s) && Enabled(s, a)
    ensures Inv(Apply(s, a))
  {
    var s' := Apply(s, a);
    LocksStay(s, a);
    PinsStay(s, a);
    CallsStay(s, a);
    CacheGrows(s, a);
    forall x | x in s'.answers ensures Holds(s', x.ride, x.assets) {
      if x in s.answers { assert Holds(s, x.ride, x.assets); } else { assert CallOk(s, s.calls[a.thread]); }
    }
  }

  lemma ConservedStays(s: State, a: Action)
    requires Inv(s) && Conserved(s) && Enabled(s, a)
    ensures Conserved(Apply(s, a))
  {
    assert Registered(s, a.thread);
    if a.Step? { assert CallOk(s, s.calls[a.thread]); }
    forall ride ensures RidePaid(Apply(s, a), ride) {
      assert RidePaid(s, ride);
      RideStaysPaid(s, a, ride);
    }
  }

  lemma OneMore(m: multiset<string>, r: string, yes: bool, ride: string)
    ensures Add(m, r, yes)[ride] == m[ride] + Count(yes && r == ride)
  {}

  /** What a step adds to a ride's tallies. */
  lemma TalliesMove(s: State, a: Action, ride: string)
    requires Enabled(s, a) && a.Step?
    ensures var c, s' := s.calls[a.thread], Apply(s, a);
            var pinsArt, pinsMeta := c.ride == ride && c.phase.Absent?, c.ride == ride && c.phase.ArtPinned?;
            && s'.arts[ride] == s.arts[ride] + Count(pinsArt && a.o.Applied())
            && s'.metas[ride] == s.metas[ride] + Count(pinsMeta && a.o.Applied())
            && s'.wasted[ride] == s.wasted[ride] + Count((pinsArt && a.o == FailedApplied) || (pinsMeta && a.o != Done))
            && s'.lost[ride] == s.lost[ride] + Count(pinsMeta && a.o == FailedApplied)
            && (ride in s'.cache <==> ride in s.cache || (c.ride == ride && c.phase.MetaPinned?))
  {
    var c := s.calls[a.thread];
    var pinsMeta := c.phase.ArtPinned?;
    OneMore(s.arts, c.ride, c.phase.Absent? && a.o.Applied(), ride);
    OneMore(s.metas, c.ride, pinsMeta && a.o.Applied(), ride);
    OneMore(s.wasted, c.ride, (c.phase.Absent? && a.o == FailedApplied) || (pinsMeta && a.o != Done), ride);
    OneMore(s.lost, c.ride, pinsMeta && a.o == FailedApplied, ride);
  }

  lemma RideStaysPaid(s: State, a: Action, ride: string)
    requires Enabled(s, a) && RidePaid(s, ride) && Registered(s, a.thread)
    requires a.Step? ==> CallOk(s, s.calls[a.thread])
    ensures RidePaid(Apply(s, a), ride)
  {
    if a.Step? {
      TalliesMove(s, a, ride);
      HoldingMoves(s, a, ride);
    }
  }

  /** How a step changes what the writer holds of a ride. */
  lemma HoldingMoves(s: State, a: Action, ride: string)
    requires Enabled(s, a) && Registered(s, a.thread) && a.Step?
    ensures var c, s' := s.calls[a.thread], Apply(s, a);
            && (Pinning(s', ride) <==> (if c.ride == ride && (c.phase.Absent? || c.phase.ArtPinned?) then a.o == Done
                                        else Pinning(s, ride) && !(c.ride == ride && c.phase.MetaPinned?)))
            && (Storing(s', ride) <==> (if c.ride == ride && c.phase.ArtPinned? then a.o == Done
                                        else Storing(s, ride) && !(c.ride == ride && c.phase.MetaPinned?)))
            && (c.ride == ride && c.phase.Absent? ==> !Pinning(s, ride) && !Storing(s, ride))
            && (c.ride == ride && c.phase.ArtPinned? ==> Pinning(s, ride) && !Storing(s, ride))
            && (c.ride == ride && c.phase.MetaPinned? ==> Pinning(s, ride) && Storing(s, ride))
  {}

  // ---- Whole runs ----

  lemma {:induction false} RunKeepsInv(s: State, run: seq<Action>)
    requires Inv(s) && Conserved(s) && ValidRun(s, run)
    ensures Inv(Exec(s, run)) && Conserved(Exec(s, run))
    ensures forall ride :: ride in s.cache ==> ride in Exec(s, run).cache && Exec(s, run).cache[ride] == s.cache[ride]
    decreases |run|
  {
    if run != [] {
      InvStays(s, run[0]);
      ConservedStays(s, run[0]);
      CacheGrows(s, run[0]);
      RunKeepsInv(Apply(s, run[0]), run[1..]);
    }
  }

  /** Under every interleaving each ride has at most one successful metadata pin,
      and every successful call for the ride, on whatever date, returned that
      pin's assets: those of the date that got there first. */
  lemma PinOnce(run: seq<Action>)
    requires ValidRun(EMPTY, run)
    ensures var s := Exec(EMPTY, run);
            && (forall i, j :: 0 <= i < j < |s.pins| ==> s.pins[i].ride != s.pins[j].ride)
            && (forall a :: a in s.answers && a.assets.Some? ==>
                  exists p :: p in s.pins && p.ride == a.ride && p.assets == a.assets.value)
            && (forall a, b ::
                  a in s.answers && b in s.answers && a.ride == b.ride && a.assets.Some? && b.assets.Some? ==>
                    a.assets == b.assets)
  {
    RunKeepsInv(EMPTY, run);
    var s := Exec(EMPTY, run);
    forall a | a in s.answers && a.assets.Some?
      ensures exists p :: p in s.pins && p.ride == a.ride && p.assets == a.assets.value
    {
      assert Holds(s, a.ride, a.assets);
    }
    forall a, b | a in s.answers && b in s.answers && a.ride == b.ride && a.assets.Some? && b.assets.Some?
      ensures a.assets == b.assets
    {
      assert Holds(s, a.ride, a.assets) && Holds(s, b.ride, b.assets);
    }
  }

  /** What a ride costs at the pinning provider once nobody is pinning: two
      objects when cached, plus the artwork of each attempt given up and the
      metadata of each attempt whose reply was lost. So a cached ride costs
      exactly two iff no attempt on it ever got that far and failed. */
  lemma PinBudget(run: seq<Action>, ride: string)
    requires ValidRun(EMPTY, run) && Exec(EMPTY, run).writer.None?
    ensures var s := Exec(EMPTY, run);
            && s.arts[ride] + s.metas[ride] == (if ride in s.cache then 2 else 0) + s.wasted[ride] + s.lost[ride]
            && (ride in s.cache ==> (s.arts[ride] + s.metas[ride] == 2 <==> s.wasted[ride] == 0))
  {
    RunKeepsInv(EMPTY, run);
    assert RidePaid(Exec(EMPTY, run), ride);
  }

  /** The locks never deadlock: while any call is outstanding, some call can step. */
  lemma SomeoneMoves(run: seq<Action>)
    requires ValidRun(EMPTY, run)
    ensures var s := Exec(EMPTY, run);
            s.calls.Keys != {} ==> exists t :: t in s.calls && Enabled(s, Step(t, "", Done))
  {
    RunKeepsInv(EMPTY, run);
    var s := Exec(EMPTY, run);
    if s.writer.Some? {
      var t := s.writer.value;
      assert Registered(s, t);
      assert t in s.calls && Writes(s.calls[t].phase) && Enabled(s, Step(t, "", Done));
    } else if s.readers != {} {
      var t :| t in s.readers;
      assert Registered(s, t);
      assert Enabled(s, Step(t, "", Done));
    } else if s.calls.Keys != {} {
      var t :| t in s.calls.Keys;
      assert Enabled(s, Step(t, "", Done));
    }
  }

  /** How many steps a call still has to take, at most. */
  function Left(p: Phase): nat {
    match p
    case Start => 9 case Reading => 8 case Peeked(_) => 7 case Missed => 6 case Locked => 5
    case Absent => 4 case ArtPinned(_) => 3 case MetaPinned(_) => 2 case Leaving(_) => 1
  }

  /** And every step it takes brings it nearer the return. */
  lemma StepsRunOut(s: State, a: Action)
    requires Enabled(s, a) && a.Step?
    ensures a.thread in Apply(s, a).calls ==> Left(Apply(s, a).calls[a.thread].phase) < Left(s.calls[a.thread].phase)
    ensures a.thread !in Apply(s, a).calls ==> |Apply(s, a).answers| == |s.answers| + 1
    ensures forall t :: t != a.thread ==> (t in s.calls <==> t in Apply(s, a).calls)
    ensures forall t :: t != a.thread && t in s.calls ==> Apply(s, a).calls[t] == s.calls[t]
  {}

  // ---- The program ----

  lemma {:induction false} OneStepMore(s: State, run: seq<Action>, a: Action)
    requires ValidRun(s, run) && Enabled(Exec(s, run), a)
    ensures ValidRun(s, run + [a]) && Exec(s, run + [a]) == Apply(Exec(s, run), a)
    decreases |run|
  {
    if run == [] {
      assert run + [a] == [a] && [a][1..] == [];
    } else {
      assert (run + [a])[0] == run[0] && (run + [a])[1..] == run[1..] + [a];
      OneStepMore(Apply(s, run[0]), run[1..], a);
    }
  }

  predicate Quiet(s: State) { s.calls == map[] && s.readers == {} && s.writer == None }

  /** A quiet state in which one call is under way. */
  function Alone(s: State, c: Call): State {
    s.(calls := map[0 := c], readers := if Reads(c.phase) then {0} else {},
        writer := if Writes(c.phase) then Some(0) else None)
  }

  lemma AloneSteps(s: State, c: Call, cid: string, o: Outcome)
    requires Quiet(s)
    ensures Enabled(Alone(s, c), Step(0, cid, o))
    ensures var s1 := Logged(s, c, cid, o);
            var next := Next(s.cache, c, cid, o);
            && Quiet(s1)
            && Apply(Alone(s, c), Step(0, cid, o)) == if next.Some? then Alone(s1, c.(phase := next.value)) else s1
  {
    var s1 := Logged(s, c, cid, o);
    var s' := Advance(Alone(s, c), 0, cid, o);
    var next := Next(s.cache, c, cid, o);
    if next.Some? {
      assert s'.calls == map[0 := c.(phase := next.value)];
      assert s' == Alone(s1, c.(phase := next.value));
    } else {
      assert s'.calls == map[];
      assert s' == s1;
    }
  }

  /** A step that only moves between locks and look-ups logs nothing. */
  lemma NothingLogged(s: State, c: Call, o: Outcome)
    requires !c.phase.Absent? && !c.phase.ArtPinned? && !c.phase.MetaPinned? && Next(s.cache, c, "", o).Some?
    ensures Logged(s, c, "", o) == s
  {
  }

  /** Append one step to a run that has reached `s` with the call `c` under way. */
  lemma Log(s0: State, s: State, run: seq<Action>, c: Call, cid: string, o: Outcome)
    returns (run': seq<Action>, c': Call)
    requires Quiet(s) && ValidRun(s0, run) && Exec(s0, run) == Alone(s, c) && Next(s.cache, c, cid, o).Some?
    ensures ValidRun(s0, run') && Exec(s0, run') == Alone(Logged(s, c, cid, o), c')
    ensures c' == c.(phase := Next(s.cache, c, cid, o).value)
  {
    AloneSteps(s, c, cid, o);
    OneStepMore(s0, run, Step(0, cid, o));
    run', c' := run + [Step(0, cid, o)], c.(phase := Next(s.cache, c, cid, o).value);
  }

  lemma Pass(s0: State, s: State, run: seq<Action>, c: Call) returns (run': seq<Action>, c': Call)
    requires Quiet(s) && ValidRun(s0, run) && Exec(s0, run) == Alone(s, c) && Next(s.cache, c, "", Done).Some?
    requires !c.phase.Absent? && !c.phase.ArtPinned? && !c.phase.MetaPinned?
    ensures ValidRun(s0, run') && Exec(s0, run') == Alone(s, c')
    ensures c' == c.(phase := Next(s.cache, c, "", Done).value)
  {
    NothingLogged(s, c, Done);
    run', c' := Log(s0, s, run, c, "", Done);
  }

  lemma Begin(s0: State, c: Call) returns (run: seq<Action>)
    requires Quiet(s0) && c.phase == Start
    ensures ValidRun(s0, run) && Exec(s0, run) == Alone(s0, c)
  {
    run := [Arrive(0, c.ride, c.date)];
    assert ValidRun(Apply(s0, run[0]), run[1..]);
    assert Exec(s0, run) == Apply(s0, run[0]);
    assert Apply(s0, run[0]).calls == map[0 := c];
  }

  lemma Store(s0: State, s: State, run: seq<Action>, c: Call) returns (run': seq<Action>, c': Call)
    requires Quiet(s) && ValidRun(s0, run) && Exec(s0, run) == Alone(s, c) && c.phase.MetaPinned?
    ensures ValidRun(s0, run') && Exec(s0, run') == Alone(s.(cache := s.cache[c.ride := c.phase.assets]), c')
    ensures c' == c.(phase := Leaving(Some(c.phase.assets)))
  {
    run', c' := Log(s0, s, run, c, "", Done);
  }

  lemma Finish(s0: State, s: State, run: seq<Action>, c: Call) returns (run': seq<Action>)
    requires Quiet(s) && ValidRun(s0, run) && Exec(s0, run) == Alone(s, c) && Next(s.cache, c, "", Done).None?
    ensures ValidRun(s0, run') && Exec(s0, run') == s.(answers := s.answers + [Answer(c.ride, c.date, Result(c.phase))])
  {
    AloneSteps(s, c, "", Done);
    OneStepMore(s0, run, Step(0, "", Done));
    run' := run + [Step(0, "", Done)];
  }

  /** What the pinning provider answers to one call. */
  datatype World = World(artCid: string, art: Outcome, metaCid: string, meta: Outcome)

  function Answered(s: State, ride: string, date: string, r: Option<Assets>): State {
    s.(answers := s.answers + [Answer(ride, date, r)])
  }

  /** The slow path, under the write lock: pin both objects, then store. */
  function PinBoth(s: State, ride: string, date: string, w: World): (State, Option<Assets>) {
    var s1 := Logged(s, Call(ride, date, Absent), w.artCid, w.art);
    if w.art != Done then (s1, None)
    else
      var s2 := Logged(s1, Call(ride, date, ArtPinned(w.artCid)), w.metaCid, w.meta);
      if w.meta != Done then (s2, None)
      else
        var assets := Assets(w.artCid, w.metaCid);
        (s2.(cache := s2.cache[ride := assets]), Some(assets))
  }

  /** A call that nobody interrupts. */
  function WholeCall(s: State, ride: string, date: string, w: World): State {
    if ride in s.cache then Answered(s, ride, date, Some(s.cache[ride]))
    else Answered(PinBoth(s, ride, date, w).0, ride, date, PinBoth(s, ride, date, w).1)
  }

  lemma HitRuns(s: State, ride: string, date: string) returns (run: seq<Action>)
    requires Quiet(s) && ride in s.cache
    ensures ValidRun(s, run) && Exec(s, run) == Answered(s, ride, date, Some(s.cache[ride]))
  {
    var c := Call(ride, date, Start);
    run := Begin(s, c);
    run, c := Pass(s, s, run, c);             // RLock
    run, c := Pass(s, s, run, c);             // look up
    run := Finish(s, s, run, c);              // RUnlock
  }

  lemma MissReachesWriteLock(s: State, ride: string, date: string) returns (run: seq<Action>)
    requires Quiet(s) && ride !in s.cache
    ensures ValidRun(s, run) && Exec(s, run) == Alone(s, Call(ride, date, Absent))
  {
    var c := Call(ride, date, Start);
    run := Begin(s, c);
    run, c := Pass(s, s, run, c);             // RLock
    run, c := Pass(s, s, run, c);             // look up
    run, c := Pass(s, s, run, c);             // RUnlock
    run, c := Pass(s, s, run, c);             // Lock
    run, c := Pass(s, s, run, c);             // look up again
  }

  lemma PinBothRuns(s: State, ride: string, date: string, w: World, run0: seq<Action>) returns (run: seq<Action>)
    requires Quiet(s) && ValidRun(s, run0) && Exec(s, run0) == Alone(s, Call(ride, date, Absent))
    ensures var (s', r) := PinBoth(s, ride, date, w);
            ValidRun(s, run) && Exec(s, run) == Alone(s', Call(ride, date, Leaving(r)))
  {
    var c := Call(ride, date, Absent);
    run, c := Log(s, s, run0, c, w.artCid, w.art);
    if w.art == Done {
      var s1 := Logged(s, Call(ride, date, Absent), w.artCid, w.art);
      run, c := Log(s, s1, run, c, w.metaCid, w.meta);
      if w.meta == Done {
        run, c := Store(s, Logged(s1, Call(ride, date, ArtPinned(w.artCid)), w.metaCid, w.meta), run, c);
      }
    }
  }

  /** An uninterrupted call is a run of the machine. */
  lemma WholeCallRuns(s: State, ride: string, date: string, w: World) returns (run: seq<Action>)
    requires Quiet(s)
    ensures ValidRun(s, run) && Exec(s, run) == WholeCall(s, ride, date, w)
  {
    if ride in s.cache {
      run := HitRuns(s, ride, date);
    } else {
      run := MissReachesWriteLock(s, ride, date);
      run := PinBothRuns(s, ride, date, w, run);
      var (s', r) := PinBoth(s, ride, date, w);
      run := Finish(s, s', run, Call(ride, date, Leaving(r)));
    }
  }

  /** What a metadata pin logs. */
  lemma MetaLogged(s: State, c: Call, w: World)
    requires c.phase == ArtPinned(w.artCid)
    ensures var pin := Pin(c.ride, c.date, Assets(w.artCid, w.metaCid));
            Logged(s, c, w.metaCid, w.meta)
            == s.(pins := if w.meta == Done then s.pins + [pin] else s.pins,
                  metas := Add(s.metas, c.ride, w.meta.Applied()),
                  wasted := Add(s.wasted, c.ride, w.meta != Done),
                  lost := Add(s.lost, c.ride, w.meta == FailedApplied))
  {}

  class CIDCache {
    var cache: map<string, Assets>
    ghost var pins: seq<Pin>
    ghost var answers: seq<Answer>
    ghost var arts: multiset<string>
    ghost var metas: multiset<string>
    ghost var wasted: multiset<string>
    ghost var lost: multiset<string>

    constructor ()
      ensures View() == EMPTY
    {
      cache, pins, answers := map[], [], [];
      arts, metas, wasted, lost := multiset{}, multiset{}, multiset{}, multiset{};
    }

    /** Between calls: nobody holds a lock. */
    ghost function View(): State
      reads this
    {
      State(cache, {}, None, map[], pins, answers, arts, metas, wasted, lost)
    }

    method PinFile(c: Call, w: World) returns (err: bool)
      requires c.phase == Absent
      modifies `arts, `wasted
      ensures err <==> w.art != Done
      ensures View() == Logged(old(View()), c, w.artCid, w.art)
    {
      err := w.art != Done;
      arts, wasted := Add(arts, c.ride, w.art.Applied()), Add(wasted, c.ride, w.art == FailedApplied);
    }

    method PinJSON(c: Call, w: World) returns (err: bool)
      requires c.phase == ArtPinned(w.artCid)
      modifies `pins, `metas, `lost, `wasted
      ensures err <==> w.meta != Done
      ensures View() == Logged(old(View()), c, w.metaCid, w.meta)
    {
      ghost var s := View();
      err := w.meta != Done;
      if w.meta == Done { pins := pins + [Pin(c.ride, c.date, Assets(w.artCid, w.metaCid))]; }
      metas, lost := Add(metas, c.ride, w.meta.Applied()), Add(lost, c.ride, w.meta == FailedApplied);
      wasted := Add(wasted, c.ride, w.meta != Done);
      MetaLogged(s, c, w);
    }

    method PinAndStore(ride: string, date: string, w: World) returns (r: Option<Assets>)
      modifies `cache, `pins, `arts, `metas, `wasted, `lost
      ensures (View(), r) == PinBoth(old(View()), ride, date, w)
    {
      var err := PinFile(Call(ride, date, Absent), w);
      if err { return None; }
      err := PinJSON(Call(ride, date, ArtPinned(w.artCid)), w);
      if err { return None; }
      r := Some(Assets(w.artCid, w.metaCid));
      cache := cache[ride := r.value];
    }

    method GetOrPin(ride: string, date: string, w: World) returns (r: Option<Assets>)
      modifies this
      ensures View() == WholeCall(old(View()), ride, date, w)
      ensures answers == old(answers) + [Answer(ride, date, r)]
    {
      ghost var s := View();
      if ride in cache {
        r := Some(cache[ride]);
        answers := answers + [Answer(ride, date, r)];
      } else {
        r := PinAndStore(ride, date, w);
        ghost var s1 := View();
        answers := answers + [Answer(ride, date, r)];
        assert View() == Answered(s1, ride, date, r);
      }
    }
  }
}
