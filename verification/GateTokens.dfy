/** One-time use of QR tokens at the gate itself: over every run of its calls, and
    for all time once the used-token key outlives the token. */
module GateTokens {
  import opened Core
  import opened RedisStore
  import opened Gate
  import opened GateReplies
  import opened QrToken
  import Q = QrLifetime

  // ---- While the used-token key lives ----

  /** No call touches a live used-token key. */
  lemma TokenStays(c: Config, s: State, call: Call, uuid: string)
    requires TokenUsed(s, uuid)
    ensures uuid in Step(c, s, call).redis.qr && Step(c, s, call).redis.qr[uuid] == s.redis.qr[uuid]
  {
    if call.CallBind? { BindBurns(c, s, call); }
  }

  lemma {:induction false} TokenPersists(c: Config, s: State, calls: seq<Call>, uuid: string)
    requires uuid in s.redis.qr && Alive(s.redis.qr[uuid].expiry, Run(c, s, calls).redis.now)
    ensures TokenUsed(Run(c, s, calls), uuid)
    decreases |calls|
  {
    TimeMovesOn(c, s, calls);
    if calls != [] {
      TimeMovesOn(c, Step(c, s, calls[0]), calls[1..]);
      TokenStays(c, s, calls[0], uuid);
      TokenPersists(c, Step(c, s, calls[0]), calls[1..], uuid);
    }
  }

  /** After a bind whose token write took effect, until the key expires and through
      any calls, a bind with the same token id changes no binding, ticket or token,
      and if it gets as far as the token, with that call done, the answer is replay. */
  lemma BurntIsRefused(c: Config, s: State, bind: Call, calls: seq<Call>, again: Call)
    requires bind.CallBind? && Consumes(s, bind) && bind.bf.mark.Applied() && !TokenUsed(s, bind.uuid)
    requires again.CallBind? && again.uuid == bind.uuid
    requires Run(c, Step(c, s, bind), calls).redis.now < s.redis.now + c.qrTtlMs
    ensures var s' := Run(c, Step(c, s, bind), calls);
            && Step(c, s', again) == s'
            && !Answer(c, s', again).value.Bound?
            && (Consumes(s', again) && again.bf.mark == Done ==> Answer(c, s', again) == Some(Failed(QRReplay)))
  {
    var s1 := Step(c, s, bind);
    BindBurns(c, s, bind);
    TokenPersists(c, s1, calls, bind.uuid);
    BindAnswers(c, Run(c, s1, calls), again);
    UsedChangesNothing(c, Run(c, s1, calls), again);
  }

  lemma UsedChangesNothing(c: Config, s: State, call: Call)
    requires call.CallBind? && TokenUsed(s, call.uuid)
    ensures Step(c, s, call) == s
  {}

  lemma {:induction false} RunPrefix(c: Config, s: State, a: seq<Call>, b: seq<Call>)
    ensures Run(c, s, a + b) == Run(c, Run(c, s, a), b)
    decreases |a|
  {
    if a == [] {
      assert a + b == b;
    } else {
      assert (a + b)[0] == a[0] && (a + b)[1..] == a[1..] + b;
      RunPrefix(c, Step(c, s, a[0]), a[1..], b);
    }
  }

  /** The state in which the `i`-th call of a run is made. */
  function At(c: Config, s: State, calls: seq<Call>, i: nat): State
    requires i <= |calls|
  {
    Run(c, s, calls[..i])
  }

  /** The `i`-th call of the run is a bind that succeeds. */
  predicate BindsAt(c: Config, s: State, calls: seq<Call>, i: nat) {
    i < |calls| && calls[i].CallBind? && Answer(c, At(c, s, calls, i), calls[i]).value.Bound?
  }

  lemma AtNext(c: Config, s: State, calls: seq<Call>, i: nat, j: nat)
    requires i < j <= |calls|
    ensures At(c, s, calls, j) == Run(c, Step(c, At(c, s, calls, i), calls[i]), calls[i + 1..j])
  {
    assert calls[..j] == calls[..i] + calls[i..j];
    RunPrefix(c, s, calls[..i], calls[i..j]);
    assert calls[i..j][0] == calls[i] && calls[i..j][1..] == calls[i + 1..j];
  }

  /** Two binds of one run succeed with one token id only if the whole lifetime of the
      used-token key lies between them. */
  lemma OneBindPerToken(c: Config, s: State, calls: seq<Call>, i: nat, j: nat)
    requires i < j && BindsAt(c, s, calls, i) && BindsAt(c, s, calls, j) && calls[i].uuid == calls[j].uuid
    ensures At(c, s, calls, i).redis.now + c.qrTtlMs <= At(c, s, calls, j).redis.now
  {
    var si := At(c, s, calls, i);
    AtNext(c, s, calls, i, j);
    BindAnswers(c, si, calls[i]);
    if At(c, s, calls, j).redis.now < si.redis.now + c.qrTtlMs {
      BurntIsRefused(c, si, calls[i], calls[i + 1..j], calls[j]);
    }
  }

  // ---- For all time ----

  /** The token shown to each bind of a run, and when it was checked. */
  datatype Shown = Shown(token: Token, checkedAt: int)

  /** Tokens as the gate issues them: separator-free, each id once. */
  ghost predicate Issued(issued: set<Token>) {
    && (forall t :: t in issued ==>
          BAR !in t.ticketId && BAR !in t.uuid && t == Generate(t.ticketId, t.uuid, t.timestamp))
    && (forall t, u :: t in issued && u in issued && t.uuid == u.uuid ==> t == u)
  }

  /** The bind was made with a token that carries an issued signature, which was
      checked within the delay before it and after the token was issued. */
  ghost predicate ShownOk(q: Q.Config, issued: set<Token>, call: Call, x: Shown, now: int) {
    call.CallBind? ==>
      && call.ticket == x.token.ticketId && call.uuid == x.token.uuid
      && call.verified == Verify(x.token, Q.Seconds(x.checkedAt), q.rotation)
      && x.checkedAt <= now <= x.checkedAt + q.delay
      && exists t :: t in issued && t.signature == x.token.signature && t.timestamp * 1000 <= x.checkedAt
  }

  /** A run of the gate in which every bind shows a token. */
  ghost predicate Showing(c: Config, q: Q.Config, issued: set<Token>, s: State, calls: seq<Call>, shown: seq<Shown>) {
    && c.qrTtlMs == Q.Ttl(q) && Issued(issued) && |shown| == |calls|
    && forall i :: 0 <= i < |calls| ==> ShownOk(q, issued, calls[i], shown[i], At(c, s, calls, i).redis.now)
  }

  /** A bind that succeeds showed an issued token inside its window. */
  lemma BoundShowsIssued(c: Config, q: Q.Config, issued: set<Token>, s: State, calls: seq<Call>, shown: seq<Shown>,
        i: nat)
    requires Showing(c, q, issued, s, calls, shown) && BindsAt(c, s, calls, i)
    ensures var t, now := shown[i].token, At(c, s, calls, i).redis.now;
            && t in issued && calls[i].uuid == t.uuid
            && t.timestamp * 1000 <= now < (t.timestamp + q.rotation + 1) * 1000 + q.delay
  {
    BindAnswers(c, At(c, s, calls, i), calls[i]);
    assert ShownOk(q, issued, calls[i], shown[i], At(c, s, calls, i).redis.now);
    var x := shown[i];
    var t :| t in issued && t.signature == x.token.signature && t.timestamp * 1000 <= x.checkedAt;
    OnlyTheTokenVerifies(t, x.token, Q.Seconds(x.checkedAt), q.rotation);
  }

  /** Two binds of the run succeed with one token. */
  ghost predicate BindsTwice(c: Config, q: Q.Config, issued: set<Token>, s: State, calls: seq<Call>, shown: seq<Shown>,
        i: nat, j: nat) {
    && Showing(c, q, issued, s, calls, shown)
    && i < j && BindsAt(c, s, calls, i) && BindsAt(c, s, calls, j) && calls[i].uuid == calls[j].uuid
  }

  /** While the key outlives the token, that never happens. */
  lemma TokenBindsOnce(c: Config, q: Q.Config, issued: set<Token>, s: State, calls: seq<Call>, shown: seq<Shown>,
        i: nat, j: nat)
    requires Q.KeyOutlivesToken(q)
    ensures !BindsTwice(c, q, issued, s, calls, shown, i, j)
  {
    if BindsTwice(c, q, issued, s, calls, shown, i, j) {
      BoundShowsIssued(c, q, issued, s, calls, shown, i);
      BoundShowsIssued(c, q, issued, s, calls, shown, j);
      OneBindPerToken(c, s, calls, i, j);
    }
  }

  const WELL_BOUND := BindFaults(Done, Done, Done, Done)

  /** The last millisecond of a token stamped zero, and then the longest delay. */
  function Late(q: Q.Config): nat { q.rotation * 1000 + 999 }

  /** Bind, reset, and bind another wristband with the same token as late as can be. */
  function Rebind(q: Q.Config): seq<Call> {
    var until := Late(q) + q.delay + 1;
    [CallSell("t", Some("owner")),
     CallBind("t", "u", "first", true, until, WELL_BOUND),
     CallReset("first", ResetFaults(Done, Done, Done, Done)),
     Pass(Late(q) + q.delay),
     CallBind("t", "u", "second", true, until, WELL_BOUND)]
  }

  function RebindShows(q: Q.Config): seq<Shown> {
    var t := Generate("t", "u", 0);
    [Shown(t, 0), Shown(t, 0), Shown(t, 0), Shown(t, 0), Shown(t, Late(q))]
  }

  lemma RebindStates(c: Config, q: Q.Config)
    ensures var s, calls := Opening(0), Rebind(q);
            && At(c, s, calls, 0) == s
            && At(c, s, calls, 1) == Step(c, s, calls[0])
            && At(c, s, calls, 2) == Step(c, Step(c, s, calls[0]), calls[1])
            && At(c, s, calls, 3) == Step(c, At(c, s, calls, 2), calls[2])
            && At(c, s, calls, 4) == Step(c, At(c, s, calls, 3), calls[3])
  {
    var s, calls := Opening(0), Rebind(q);
    AtOne(c, s, calls, 0);
    AtOne(c, s, calls, 1);
    AtOne(c, s, calls, 2);
    AtOne(c, s, calls, 3);
  }

  lemma AtOne(c: Config, s: State, calls: seq<Call>, i: nat)
    requires i < |calls|
    ensures At(c, s, calls, i + 1) == Step(c, At(c, s, calls, i), calls[i])
  {
    AtNext(c, s, calls, i, i + 1);
    assert calls[i + 1..i + 1] == [];
  }

  /** The first bind succeeds and the reset frees ticket and wristband; the used-token
      key is all that is left. */
  lemma FirstBind(c: Config, q: Q.Config)
    requires c.qrTtlMs == Q.Ttl(q)
    ensures var s, calls := Opening(0), Rebind(q);
            var s3 := At(c, s, calls, 3);
            && BindsAt(c, s, calls, 1)
            && s3.redis.now == At(c, s, calls, 1).redis.now == 0
            && s3.redis.fwd == map[] && s3.redis.rev == map[]
            && s3.redis.qr == map["u" := Keyed((), Some(Q.Ttl(q)))]
            && s3.tickets == map["t" := Ticket(Some("owner"), CLAIMED)]
  {
    var s, calls := Opening(0), Rebind(q);
    RebindStates(c, q);
    var s1, s2 := At(c, s, calls, 1), At(c, s, calls, 2);
    assert s1.tickets == map["t" := Ticket(Some("owner"), ACTIVE)];
    BindAnswers(c, s1, calls[1]);
    BoundMeans(c, s1, calls[1]);
    BindBurns(c, s1, calls[1]);
    assert s2.tickets == map["t" := Ticket(Some("owner"), PENDING_ENTRY)];
    assert s2.redis.fwd.Keys == {"first"} && s2.redis.rev.Keys == {"t"};
    ResetAnswers(c, s2, calls[2]);
  }

  /** By the last call the used-token key is gone, so that bind succeeds too. */
  lemma SecondBind(c: Config, q: Q.Config)
    requires c.qrTtlMs == Q.Ttl(q) && !Q.KeyOutlivesToken(q)
    ensures var s, calls := Opening(0), Rebind(q);
            BindsAt(c, s, calls, 4) && At(c, s, calls, 4).redis.now == Late(q) + q.delay
  {
    var s, calls := Opening(0), Rebind(q);
    FirstBind(c, q);
    RebindStates(c, q);
    var s4 := At(c, s, calls, 4);
    assert s4.tickets == map["t" := Ticket(Some("owner"), CLAIMED)];
    assert !TokenUsed(s4, "u") && Unclaimed(s4, "t", "second");
    BindAnswers(c, s4, calls[4]);
  }

  /** Both binds show the token inside its window. */
  lemma RebindIsShown(c: Config, q: Q.Config)
    requires At(c, Opening(0), Rebind(q), 1).redis.now == 0
    requires At(c, Opening(0), Rebind(q), 4).redis.now == Late(q) + q.delay && c.qrTtlMs == Q.Ttl(q)
    ensures Showing(c, q, {Generate("t", "u", 0)}, Opening(0), Rebind(q), RebindShows(q))
  {
    var s, calls, t := Opening(0), Rebind(q), Generate("t", "u", 0);
    GenerateThenVerify("t", "u", 0, 0, q.rotation);
    GenerateThenVerify("t", "u", 0, q.rotation, q.rotation);
    assert Q.Seconds(Late(q)) == q.rotation;
    assert t in {t};
    assert ShownOk(q, {t}, calls[1], RebindShows(q)[1], At(c, s, calls, 1).redis.now);
    assert ShownOk(q, {t}, calls[4], RebindShows(q)[4], At(c, s, calls, 4).redis.now);
    forall i | 0 <= i < |calls| ensures ShownOk(q, {t}, calls[i], RebindShows(q)[i], At(c, s, calls, i).redis.now) {
      assert calls[i].CallBind? ==> i == 1 || i == 4;
    }
  }

  /** When the key does not outlive the token, this run binds twice with one. */
  lemma RebindBindsTwice(c: Config, q: Q.Config)
    requires c.qrTtlMs == Q.Ttl(q) && !Q.KeyOutlivesToken(q)
    ensures BindsTwice(c, q, {Generate("t", "u", 0)}, Opening(0), Rebind(q), RebindShows(q), 1, 4)
  {
    FirstBind(c, q);
    SecondBind(c, q);
    RebindIsShown(c, q);
  }

  /** No run of the gate ever binds two wristbands with one token exactly when the
      used-token key outlives the token. */
  lemma BindOnceExact(c: Config, q: Q.Config)
    requires c.qrTtlMs == Q.Ttl(q)
    ensures (forall issued, now, calls, shown, i, j :: !BindsTwice(c, q, issued, Opening(now), calls, shown, i, j))
            <==> Q.KeyOutlivesToken(q)
  {
    if Q.KeyOutlivesToken(q) {
      forall issued, now, calls, shown, i, j ensures !BindsTwice(c, q, issued, Opening(now), calls, shown, i, j) {
        TokenBindsOnce(c, q, issued, Opening(now), calls, shown, i, j);
      }
    } else {
      RebindBindsTwice(c, q);
    }
  }

  // ---- And the token machine is the gate's ----

  /** A bind that gets as far as its token does to Redis' used tokens what consuming
      does in the token machine, and it is a first use there exactly when the gate does
      not answer replay. */
  lemma BindConsumes(c: Config, q: Q.Config, s: State, call: Call, m: Q.State, w: Q.Waiting)
    requires c.qrTtlMs == Q.Ttl(q) && Consumes(s, call) && call.bf.mark == Done
    requires m.redis == s.redis && w.token.uuid == call.uuid && Q.Enabled(q, m, Q.Consume(w))
    ensures var m' := Q.Apply(q, m, Q.Consume(w));
            && m'.redis.qr == Step(c, s, call).redis.qr
            && (|m'.consumed| > |m.consumed| <==> Answer(c, s, call) != Some(Failed(QRReplay)))
  {
    BindBurns(c, s, call);
    BindAnswers(c, s, call);
  }
}
