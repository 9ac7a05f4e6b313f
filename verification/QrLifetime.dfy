/** One-time use of QR tokens over all time: the used-token key expires, so it
    must outlive every moment at which its token could still be consumed. */
module QrLifetime {
  import opened Core
  import opened RedisStore
  import opened QrToken

  /** `rotation` and `graceSec` in seconds; `delay` is the longest time, in
      milliseconds, between a token's check and its consumption. */
  datatype Config = Config(rotation: nat, graceSec: nat, delay: nat)

  function Ttl(c: Config): nat { (c.graceSec + 30) * 1000 }

  /** A bind that has verified its token and is about to consume it. */
  datatype Waiting = Waiting(token: Token, verifiedAt: int)

  datatype Consumed = Consumed(token: Token, at: int)

  /** Each bind waits for itself, even two that checked one token at one moment. */
  datatype State = State(redis: Redis, issued: set<Token>, waiting: multiset<Waiting>, consumed: seq<Consumed>)

  datatype Action =
    | Issue(ticketId: string, uuid: string)
    | Present(token: Token)
    | Consume(w: Waiting)
    | Wait(until: int)

  function Seconds(millis: int): int { millis / 1000 }

  predicate Enabled(c: Config, s: State, a: Action) {
    match a
    // Fresh token ids, and issued ids without the payload's separator.
    case Issue(t, u) => BAR !in t && BAR !in u && forall x :: x in s.issued ==> x.uuid != u
    // Only signatures the gate has made can be presented.
    case Present(t) => exists x :: x in s.issued && x.signature == t.signature
    case Consume(w) => w in s.waiting && s.redis.now <= w.verifiedAt + c.delay
    case Wait(_) => true
  }

  function Apply(c: Config, s: State, a: Action): State
    requires Enabled(c, s, a)
  {
    match a
    case Issue(t, u) => s.(issued := s.issued + {Generate(t, u, Seconds(s.redis.now))})
    case Present(t) =>
      if Verify(t, Seconds(s.redis.now), c.rotation)
          then s.(waiting := s.waiting + multiset{Waiting(t, s.redis.now)}) else s
    case Consume(w) =>
      var (r, first) := MarkQR(s.redis, w.token.uuid, Ttl(c));
      s.(redis := r, waiting := s.waiting - multiset{w},
         consumed := if first then s.consumed + [Consumed(w.token, s.redis.now)] else s.consumed)
    case Wait(until) => s.(redis := Tick(s.redis, until))
  }

  predicate ValidRun(c: Config, s: State, acts: seq<Action>)
    decreases |acts|
  {
    acts == [] || (Enabled(c, s, acts[0]) && ValidRun(c, Apply(c, s, acts[0]), acts[1..]))
  }

  function Exec(c: Config, s: State, acts: seq<Action>): State
    requires ValidRun(c, s, acts)
    decreases |acts|
  {
    if acts == [] then s else Exec(c, Apply(c, s, acts[0]), acts[1..])
  }

  function Opening(now: int): State { State(EmptyRedis(now), {}, multiset{}, []) }

  /** No two consumptions carry one token. */
  ghost predicate SingleUse(s: State) {
    forall i, j | 0 <= i < j < |s.consumed| :: s.consumed[i].token != s.consumed[j].token
  }

  // ---- The invariant ----

  ghost predicate IssuedOk(s: State, t: Token) {
    && BAR !in t.ticketId && BAR !in t.uuid
    && t == Generate(t.ticketId, t.uuid, t.timestamp) && t.timestamp * 1000 <= s.redis.now
  }

  /** A waiting token was checked inside its window. */
  ghost predicate WaitingOk(c: Config, s: State, w: Waiting) {
    && w.token in s.issued
    && w.verifiedAt < (w.token.timestamp + c.rotation + 1) * 1000
  }

  /** A consumed token left a key that lives a full TTL from its consumption. */
  ghost predicate ConsumedOk(c: Config, s: State, x: Consumed) {
    && x.token in s.issued
    && x.token.timestamp * 1000 <= x.at
    && x.token.uuid in s.redis.qr && s.redis.qr[x.token.uuid].expiry == Some(x.at + Ttl(c))
  }

  ghost predicate Inv(c: Config, s: State) {
    && (forall t :: t in s.issued ==> IssuedOk(s, t))
    && (forall t, u :: t in s.issued && u in s.issued && t.uuid == u.uuid ==> t == u)
    && (forall w :: w in s.waiting ==> WaitingOk(c, s, w))
    && (forall x :: x in s.consumed ==> ConsumedOk(c, s, x))
    && SingleUse(s)
  }

  /** The used-token key outlives the token: rotation, a second of rounding and
      the check-to-consume delay fit inside the grace window plus thirty seconds. */
  predicate KeyOutlivesToken(c: Config) { (c.rotation + 1) * 1000 + c.delay <= Ttl(c) }

  lemma PresentKeeps(c: Config, s: State, a: Action)
    requires Inv(c, s) && a.Present? && Enabled(c, s, a)
    ensures Inv(c, Apply(c, s, a))
  {
    var x :| x in s.issued && x.signature == a.token.signature;
    if Verify(a.token, Seconds(s.redis.now), c.rotation) {
      assert IssuedOk(s, x);
      OnlyTheTokenVerifies(x, a.token, Seconds(s.redis.now), c.rotation);
    }
  }

  /** A token consumed before still has its key when it is presented for consumption again. */
  lemma KeyStillLives(c: Config, s: State, w: Waiting, x: Consumed)
    requires KeyOutlivesToken(c) && Inv(c, s) && w in s.waiting && s.redis.now <= w.verifiedAt + c.delay
    requires x in s.consumed && x.token.uuid == w.token.uuid
    ensures Get(s.redis.qr, w.token.uuid, s.redis.now).Some?
  {
    assert WaitingOk(c, s, w) && ConsumedOk(c, s, x);
    assert x.token == w.token;
  }

  /** So a token consumed before is not consumed again. */
  lemma ConsumedOnce(c: Config, s: State, a: Action)
    requires KeyOutlivesToken(c) && Inv(c, s) && a.Consume? && Enabled(c, s, a)
    ensures SingleUse(Apply(c, s, a))
  {
    forall x | x in s.consumed && x.token == a.w.token ensures Apply(c, s, a).consumed == s.consumed {
      KeyStillLives(c, s, a.w, x);
    }
  }

  lemma ConsumedStayOk(c: Config, s: State, a: Action)
    requires KeyOutlivesToken(c) && Inv(c, s) && a.Consume? && Enabled(c, s, a)
    ensures forall x :: x in Apply(c, s, a).consumed ==> ConsumedOk(c, Apply(c, s, a), x)
  {
    var s' := Apply(c, s, a);
    assert WaitingOk(c, s, a.w) && IssuedOk(s, a.w.token);
    forall x | x in s'.consumed ensures ConsumedOk(c, s', x) {
      if x in s.consumed {
        assert ConsumedOk(c, s, x);
        if x.token.uuid == a.w.token.uuid { KeyStillLives(c, s, a.w, x); }
      }
    }
  }

  lemma ConsumeKeeps(c: Config, s: State, a: Action)
    requires KeyOutlivesToken(c) && Inv(c, s) && a.Consume? && Enabled(c, s, a)
    ensures Inv(c, Apply(c, s, a))
  {
    var s' := Apply(c, s, a);
    ConsumedOnce(c, s, a);
    ConsumedStayOk(c, s, a);
    forall w | w in s'.waiting ensures WaitingOk(c, s', w) { assert w in s.waiting && WaitingOk(c, s, w); }
    forall t | t in s'.issued ensures IssuedOk(s', t) { assert IssuedOk(s, t); }
  }

  lemma {:induction false} RunKeepsInv(c: Config, s: State, acts: seq<Action>)
    requires KeyOutlivesToken(c) && Inv(c, s) && ValidRun(c, s, acts)
    ensures Inv(c, Exec(c, s, acts))
    decreases |acts|
  {
    if acts != [] {
      var a := acts[0];
      match a {
        case Present(_) => PresentKeeps(c, s, a);
        case Consume(_) => ConsumeKeeps(c, s, a);
        case _ =>
          var s' := Apply(c, s, a);
          forall x | x in s'.consumed ensures ConsumedOk(c, s', x) { assert ConsumedOk(c, s, x); }
          forall w | w in s'.waiting ensures WaitingOk(c, s', w) { assert WaitingOk(c, s, w); }
          forall t | t in s'.issued ensures IssuedOk(s', t) { if t in s.issued { assert IssuedOk(s, t); } }
      }
      RunKeepsInv(c, Apply(c, s, a), acts[1..]);
    }
  }

  // ---- And when the key does not outlive the token ----

  /** Consume a token at once, then check it again in the last millisecond of its
      window and consume it after the longest delay. */
  function Replay(c: Config, t: Token): seq<Action> {
    var late := c.rotation * 1000 + 999;
    [Issue(t.ticketId, t.uuid), Present(t), Consume(Waiting(t, 0)),
     Wait(late), Present(t), Wait(late + c.delay), Consume(Waiting(t, late))]
  }

  lemma Prepend(c: Config, s: State, a: Action, rest: seq<Action>)
    requires Enabled(c, s, a) && ValidRun(c, Apply(c, s, a), rest)
    ensures ValidRun(c, s, [a] + rest) && Exec(c, s, [a] + rest) == Exec(c, Apply(c, s, a), rest)
  {
    assert ([a] + rest)[1..] == rest;
  }

  lemma SecondConsumption(c: Config, s: State, t: Token)
    requires !KeyOutlivesToken(c) && t == Generate("t", "u", 0) && s.issued == {t} && s.waiting == multiset{}
    requires s.consumed == [Consumed(t, 0)] && s.redis == MarkQR(EmptyRedis(0), "u", Ttl(c)).0
    ensures var acts := Replay(c, t)[3..];
            ValidRun(c, s, acts) && !SingleUse(Exec(c, s, acts))
  {
    var late := c.rotation * 1000 + 999;
    var s1 := Apply(c, s, Wait(late));
    assert Seconds(late) == c.rotation;
    var s2 := Apply(c, s1, Present(t));
    var s3 := Apply(c, s2, Wait(late + c.delay));
    assert Waiting(t, late) in s3.waiting;
    var s4 := Apply(c, s3, Consume(Waiting(t, late)));
    assert s4.consumed == [Consumed(t, 0), Consumed(t, late + c.delay)];
    assert s4.consumed[0].token == s4.consumed[1].token;
    Prepend(c, s3, Consume(Waiting(t, late)), []);
    var r3 := [Consume(Waiting(t, late))] + [];
    Prepend(c, s2, Wait(late + c.delay), r3);
    var r2 := [Wait(late + c.delay)] + r3;
    Prepend(c, s1, Present(t), r2);
    var r1 := [Present(t)] + r2;
    Prepend(c, s, Wait(late), r1);
    assert [Wait(late)] + r1 == Replay(c, t)[3..];
  }

  lemma ReplayConsumesTwice(c: Config)
    requires !KeyOutlivesToken(c)
    ensures var acts := Replay(c, Generate("t", "u", 0));
            ValidRun(c, Opening(0), acts) && !SingleUse(Exec(c, Opening(0), acts))
  {
    var t := Generate("t", "u", 0);
    var s0 := Opening(0);
    var s1 := Apply(c, s0, Issue("t", "u"));
    assert t in s1.issued;
    var s2 := Apply(c, s1, Present(t));
    assert Waiting(t, 0) in s2.waiting;
    var s3 := Apply(c, s2, Consume(Waiting(t, 0)));
    assert s3.issued == {t} && s3.waiting == multiset{};
    SecondConsumption(c, s3, t);
    var rest := Replay(c, t)[3..];
    Prepend(c, s2, Consume(Waiting(t, 0)), rest);
    var r2 := [Consume(Waiting(t, 0))] + rest;
    Prepend(c, s1, Present(t), r2);
    var r1 := [Present(t)] + r2;
    Prepend(c, s0, Issue("t", "u"), r1);
    assert [Issue("t", "u")] + r1 == Replay(c, t);
  }

  /** No token is ever consumed twice, in any interleaving and for all time,
      exactly when the used-token key outlives the token. */
  lemma SingleUseExact(c: Config)
    ensures (forall now, acts :: ValidRun(c, Opening(now), acts) ==> SingleUse(Exec(c, Opening(now), acts)))
            <==> KeyOutlivesToken(c)
  {
    if KeyOutlivesToken(c) {
      forall now, acts | ValidRun(c, Opening(now), acts) ensures SingleUse(Exec(c, Opening(now), acts)) {
        RunKeepsInv(c, Opening(now), acts);
      }
    } else {
      ReplayConsumesTwice(c);
    }
  }
}
