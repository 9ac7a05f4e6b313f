/** The gate's services over Redis and the tickets table: bind, NFC check, reset
    and ride scan, with the invariants that tie the two stores together. */
module Gate {
  import opened Core
  import opened RedisStore
  import opened ScanStores

  datatype TicketStatus = UNCLAIMED | CLAIMED | ACTIVE | PENDING_ENTRY | USED | EXPIRED

  /** A row of `tickets` joined with its owner's email, when it has an owner. */
  datatype Ticket = Ticket(owner: Option<string>, status: TicketStatus)

  /** What happened, in order; kept for the proofs only. */
  datatype Fact =
    | DidBind(uid: Uid, ticket: TicketId, email: string, until: int)
    | DidPass(uid: Uid)
    | DidReset(uid: Uid)
    | DidScan(uid: Uid, event: ScanEvent, at: int)

  datatype State = State(redis: Redis, tickets: map<TicketId, Ticket>, published: seq<ScanEvent>, history: seq<Fact>)

  datatype Config = Config(graceMs: int, qrTtlMs: int)

  datatype GateError = QRInvalid | QRReplay | TicketInvalid | NoBinding | NotBound | AlreadyBound | Infra

  datatype Reply =
    | Failed(error: GateError)
    | Bound(ticket: TicketId, email: string)
    | Checked(allowed: bool, reason: string, replayed: bool)
    | Unbound(ticket: TicketId)
    | Recorded(traceId: string)

  // ---- One record of outcomes per service call ----

  datatype BindFaults = BindFaults(owner: Outcome, mark: Outcome, bind: Outcome, ticket: Outcome)
  datatype CheckFaults = CheckFaults(lookup: Outcome, get: Outcome, promote: Outcome, ticket: Outcome, cache: Outcome)
  datatype ResetFaults = ResetFaults(get: Outcome, delete: Outcome, clear: Outcome, ticket: Outcome)
  datatype ScanFaults = ScanFaults(get: Outcome, publish: Outcome, ticket: Outcome)

  // ---- The tickets table ----

  /** UPDATE tickets SET status WHERE ticket_id. */
  function SetTicket(tickets: map<TicketId, Ticket>, t: TicketId, status: TicketStatus,
        o: Outcome): map<TicketId, Ticket> {
    if o.Applied() && t in tickets then tickets[t := tickets[t].(status := status)] else tickets
  }

  /** UPDATE ... WHERE status = 'ACTIVE'. */
  function RedeemTicket(tickets: map<TicketId, Ticket>, t: TicketId, o: Outcome): map<TicketId, Ticket> {
    if t in tickets && tickets[t].status == ACTIVE then SetTicket(tickets, t, USED, o) else tickets
  }

  /** The owner of a bindable ticket. */
  function OwnerEmail(tickets: map<TicketId, Ticket>, t: TicketId): Option<string> {
    if t in tickets && tickets[t].status != USED && tickets[t].status != EXPIRED then tickets[t].owner else None
  }

  // ---- The calls as transitions ----

  function BindCall(c: Config, s: State, ticket: TicketId, uuid: string, uid: Uid, verified: bool, until: int,
        f: BindFaults): (State, Reply) {
    if !verified then (s, Failed(QRInvalid))
    else if f.owner != Done then (s, Failed(Infra))
    else
      var email := OwnerEmail(s.tickets, ticket);
      if email.None? then (s, Failed(TicketInvalid))
      else
        var (r1, first) := MarkQR(s.redis, uuid, c.qrTtlMs);
        var s1 := if f.mark.Applied() then s.(redis := r1) else s;
        if f.mark != Done then (s1, Failed(Infra))
        else if !first then (s1, Failed(QRReplay))
        else
          var (r2, reply) := Bind(s1.redis, uid, ticket, email.value, until);
          var s2 := if f.bind.Applied() && reply == BindOk
                    then s1.(redis := r2, history := s1.history + [DidBind(uid, ticket, email.value, until)]) else s1;
          if f.bind != Done then (s2, Failed(Infra))
          else if reply != BindOk then (s2, Failed(AlreadyBound))
          else (s2.(tickets := SetTicket(s2.tickets, ticket, PENDING_ENTRY, f.ticket)), Bound(ticket, email.value))
  }

  function CheckCall(c: Config, s: State, uid: Uid, allowed: bool, reason: string, f: CheckFaults): (State, Reply) {
    var cached := Get(s.redis.grace, uid, s.redis.now);
    if f.lookup != Done then (s, Failed(Infra))
    else if cached.Some? then (s, Checked(cached.value.allowed, cached.value.reason, true))
    else if f.get != Done then (s, Failed(Infra))
    else
      var b := GetBinding(s.redis, uid);
      if b.None? then (s, Failed(NoBinding))
      else
        var s1 := if allowed && f.promote.Applied()
                  then s.(redis := WriteBinding(s.redis, uid, b.value.(status := BOUND)),
                      history := s.history + [DidPass(uid)]) else s;
        if allowed && f.promote != Done then (s1, Failed(Infra))
        else
          var s2 := if allowed then s1.(tickets := SetTicket(s1.tickets, b.value.ticketId, ACTIVE, f.ticket)) else s1;
          var d := Decision(allowed, if allowed then "" else reason, s.redis.fwd[uid].expiry);
          (if f.cache.Applied() then s2.(redis := SetGrace(s2.redis, uid, d, c.graceMs)) else s2,
           Checked(allowed, d.reason, false))
  }

  function ResetCall(s: State, uid: Uid, f: ResetFaults): (State, Reply) {
    var b := GetBinding(s.redis, uid);
    if f.get != Done then (s, Failed(Infra))
    else if b.None? then (s, Failed(NoBinding))
    else
      var s1 := if f.delete.Applied()
          then s.(redis := Unbind(s.redis, uid), history := s.history + [DidReset(uid)]) else s;
      if f.delete != Done then (s1, Failed(Infra))
      else
        var s2 := if f.clear.Applied() then s1.(redis := ClearGrace(s1.redis, uid)) else s1;
        (s2.(tickets := SetTicket(s2.tickets, b.value.ticketId, CLAIMED, f.ticket)), Unbound(b.value.ticketId))
  }

  function ScanCall(s: State, uid: Uid, ride: string, trace: string, f: ScanFaults): (State, Reply) {
    var b := GetBinding(s.redis, uid);
    if f.get != Done then (s, Failed(Infra))
    else if b.None? then (s, Failed(NoBinding))
    else if b.value.status != BOUND then (s, Failed(NotBound))
    else
      var e := ScanEvent(b.value.userEmail, ride, s.redis.now, trace, b.value.ticketId);
      var s1 := if f.publish.Applied()
                then s.(published := s.published + [e], history := s.history + [DidScan(uid, e, s.redis.now)]) else s;
      if f.publish != Done then (s1, Failed(Infra))
      else (s1.(tickets := RedeemTicket(s1.tickets, b.value.ticketId, f.ticket)), Recorded(trace))
  }

  /** A ticket sold with status ACTIVE; ticket ids are unique. */
  function SellCall(s: State, t: TicketId, owner: Option<string>): State {
    if t in s.tickets then s else s.(tickets := s.tickets[t := Ticket(owner, ACTIVE)])
  }

  datatype Call =
    | CallBind(ticket: TicketId, uuid: string, uid: Uid, verified: bool, until: int, bf: BindFaults)
    | CallCheck(uid: Uid, allowed: bool, reason: string, cf: CheckFaults)
    | CallReset(uid: Uid, rf: ResetFaults)
    | CallScan(uid: Uid, ride: string, trace: string, sf: ScanFaults)
    | CallSell(ticket: TicketId, owner: Option<string>)
    | Pass(later: int)

  function Step(c: Config, s: State, call: Call): State {
    match call
    case CallBind(ticket, uuid, uid, verified, until, f) => BindCall(c, s, ticket, uuid, uid, verified, until, f).0
    case CallCheck(uid, allowed, reason, f) => CheckCall(c, s, uid, allowed, reason, f).0
    case CallReset(uid, f) => ResetCall(s, uid, f).0
    case CallScan(uid, ride, trace, f) => ScanCall(s, uid, ride, trace, f).0
    case CallSell(t, owner) => SellCall(s, t, owner)
    case Pass(later) => s.(redis := Tick(s.redis, later))
  }

  function Run(c: Config, s: State, calls: seq<Call>): State
    decreases |calls|
  {
    if calls == [] then s else Run(c, Step(c, s, calls[0]), calls[1..])
  }

  function Opening(now: int): State { State(EmptyRedis(now), map[], [], []) }

  // ---- The indexes stay paired ----

  lemma StepKeepsBijection(c: Config, s: State, call: Call)
    requires Bijection(s.redis)
    ensures Bijection(Step(c, s, call).redis)
  {
    match call {
      case CallBind(ticket, uuid, uid, _, until, _) =>
        var email := OwnerEmail(s.tickets, ticket);
        if email.Some? {
          BindKeepsBijection(MarkQR(s.redis, uuid, c.qrTtlMs).0, uid, ticket, email.value, until);
        }
      case CallCheck(uid, _, _, _) =>
        if GetBinding(s.redis, uid).Some? { SetStatusKeepsBijection(s.redis, uid, BOUND); }
      case CallReset(uid, _) => UnbindKeepsBijection(s.redis, uid);
      case CallScan(_, _, _, _) =>
      case CallSell(_, _) =>
      case Pass(later) => TickKeepsBijection(s.redis, later);
    }
  }

  // ---- Redis and the tickets table agree ----

  /** A ticket status that fits a binding. */
  predicate Fits(status: BindingStatus, ticket: TicketStatus) {
    match status
    case BINDING => ticket == PENDING_ENTRY
    case BOUND => ticket == ACTIVE || ticket == USED
  }

  ghost predicate Coupled(s: State) {
    forall uid :: GetBinding(s.redis, uid).Some? ==> CoupledAt(s, GetBinding(s.redis, uid).value)
  }

  ghost predicate CoupledAt(s: State, b: Binding) {
    b.ticketId in s.tickets && Fits(b.status, s.tickets[b.ticketId].status)
  }

  /** The call changes a binding but its ticket write does not follow, and the
      ticket was not already where it should be. */
  ghost predicate Uncouples(c: Config, s: State, call: Call) {
    match call
    case CallBind(ticket, uuid, uid, verified, until, f) =>
      && verified && f.owner == Done && OwnerEmail(s.tickets, ticket).Some?
      && f.mark == Done && MarkQR(s.redis, uuid, c.qrTtlMs).1
      && f.bind.Applied() && GetBindingByTicket(s.redis, ticket).None? && GetBinding(s.redis, uid).None?
      && Alive(Some(until), s.redis.now)
      && !(f.bind == Done && f.ticket.Applied())
      && s.tickets[ticket].status != PENDING_ENTRY
    case CallCheck(uid, allowed, _, f) =>
      && f.lookup == Done && Get(s.redis.grace, uid, s.redis.now).None? && f.get == Done
      && allowed && f.promote.Applied() && GetBinding(s.redis, uid).Some?
      && !(f.promote == Done && f.ticket.Applied())
      && !CoupledAt(s, GetBinding(s.redis, uid).value.(status := BOUND))
    case _ => false
  }

  /** Under the pairing, a ticket seen through the reverse key and by search is the same. */
  lemma RevAgrees(r: Redis, ticket: TicketId)
    requires Bijection(r)
    ensures Get(r.rev, ticket, r.now).Some? <==> GetBindingByTicket(r, ticket).Some?
  {}

  /** No second wristband holds the ticket of a binding. */
  lemma OneHolder(r: Redis, u: Uid, v: Uid)
    requires Bijection(r) && GetBinding(r, u).Some? && GetBinding(r, v).Some?
    requires GetBinding(r, u).value.ticketId == GetBinding(r, v).value.ticketId
    ensures u == v
  {
    assert Paired(r, u) && Paired(r, v);
  }

  /** A bind leaves every other wristband coupled. */
  lemma BindOthersCoupled(c: Config, s: State, call: Call, u: Uid)
    requires Bijection(s.redis) && Coupled(s) && call.CallBind? && u != call.uid
    ensures var b := GetBinding(Step(c, s, call).redis, u);
            b.Some? ==> CoupledAt(Step(c, s, call), b.value)
  {
    var s' := Step(c, s, call);
    RevAgrees(s.redis, call.ticket);
    if GetBinding(s'.redis, u).Some? {
      assert GetBinding(s'.redis, u) == GetBinding(s.redis, u);
      assert CoupledAt(s, GetBinding(s.redis, u).value) && Paired(s.redis, u);
    }
  }

  lemma BindOwnCoupled(c: Config, s: State, call: Call)
    requires Bijection(s.redis) && Coupled(s) && call.CallBind?
    ensures var b := GetBinding(Step(c, s, call).redis, call.uid);
            b.Some? && !CoupledAt(Step(c, s, call), b.value) <==> Uncouples(c, s, call)
  {
    RevAgrees(s.redis, call.ticket);
    if GetBinding(s.redis, call.uid).Some? {
      assert CoupledAt(s, GetBinding(s.redis, call.uid).value) && Paired(s.redis, call.uid);
    }
  }

  lemma BindCoupling(c: Config, s: State, call: Call)
    requires Bijection(s.redis) && Coupled(s) && call.CallBind?
    ensures Coupled(Step(c, s, call)) <==> !Uncouples(c, s, call)
  {
    var s' := Step(c, s, call);
    BindOwnCoupled(c, s, call);
    forall u | u != call.uid && GetBinding(s'.redis, u).Some? ensures CoupledAt(s', GetBinding(s'.redis, u).value) {
      BindOthersCoupled(c, s, call, u);
    }
  }

  /** A check leaves every other wristband coupled. */
  lemma CheckOthersCoupled(c: Config, s: State, call: Call, u: Uid)
    requires Bijection(s.redis) && Coupled(s) && call.CallCheck? && u != call.uid
    ensures var b := GetBinding(Step(c, s, call).redis, u);
            b.Some? ==> CoupledAt(Step(c, s, call), b.value)
  {
    CheckElsewhere(c, s, call, u);
    var b := GetBinding(s.redis, u);
    if b.Some? {
      assert CoupledAt(s, b.value);
      if GetBinding(s.redis, call.uid).Some? && GetBinding(s.redis, call.uid).value.ticketId == b.value.ticketId {
        OneHolder(s.redis, call.uid, u);
      }
    }
  }

  lemma CheckOwnCoupled(c: Config, s: State, call: Call)
    requires Coupled(s) && call.CallCheck?
    ensures var b := GetBinding(Step(c, s, call).redis, call.uid);
            b.Some? && !CoupledAt(Step(c, s, call), b.value) <==> Uncouples(c, s, call)
  {
    var b := GetBinding(s.redis, call.uid);
    if b.Some? { assert CoupledAt(s, b.value); }
  }

  lemma CheckCoupling(c: Config, s: State, call: Call)
    requires Bijection(s.redis) && Coupled(s) && call.CallCheck?
    ensures Coupled(Step(c, s, call)) <==> !Uncouples(c, s, call)
  {
    var s' := Step(c, s, call);
    CheckOwnCoupled(c, s, call);
    forall u | u != call.uid && GetBinding(s'.redis, u).Some? ensures CoupledAt(s', GetBinding(s'.redis, u).value) {
      CheckOthersCoupled(c, s, call, u);
    }
  }

  lemma ResetCoupling(c: Config, s: State, call: Call)
    requires Bijection(s.redis) && Coupled(s) && call.CallReset?
    ensures Coupled(Step(c, s, call))
  {
    var s' := Step(c, s, call);
    UnbindKeepsBijection(s.redis, call.uid);
    var b := GetBinding(s.redis, call.uid);
    forall u | GetBinding(s'.redis, u).Some? ensures CoupledAt(s', GetBinding(s'.redis, u).value) {
      assert GetBinding(s'.redis, u) == GetBinding(s.redis, u);
      if u != call.uid && b.Some? && b.value.ticketId == GetBinding(s.redis, u).value.ticketId {
        OneHolder(s.redis, call.uid, u);
      }
    }
  }

  /** BINDING goes with PENDING_ENTRY and BOUND with ACTIVE or USED across every
      call, except exactly the calls whose best-effort ticket write is missing. */
  lemma CouplingExact(c: Config, s: State, call: Call)
    requires Bijection(s.redis) && Coupled(s)
    ensures Coupled(Step(c, s, call)) <==> !Uncouples(c, s, call)
  {
    match call {
      case CallBind(_, _, _, _, _, _) => BindCoupling(c, s, call);
      case CallCheck(_, _, _, _) => CheckCoupling(c, s, call);
      case CallReset(_, _) => ResetCoupling(c, s, call);
      case _ =>
        var s' := Step(c, s, call);
        forall u | GetBinding(s'.redis, u).Some? ensures CoupledAt(s', GetBinding(s'.redis, u).value) {
          assert GetBinding(s'.redis, u) == GetBinding(s.redis, u);
          assert CoupledAt(s, GetBinding(s.redis, u).value);
        }
    }
  }

  /** The ticket write of every call that reaches one takes effect. */
  predicate TicketWritesSucceed(call: Call) {
    match call
    case CallBind(_, _, _, _, _, f) => f.bind != FailedApplied && f.ticket.Applied()
    case CallCheck(_, _, _, f) => f.promote != FailedApplied && f.ticket.Applied()
    case _ => true
  }

  /** In every state reachable with working ticket writes the two stores agree. */
  lemma {:induction false} StoresStayCoupled(c: Config, s: State, calls: seq<Call>)
    requires Bijection(s.redis) && Coupled(s)
    requires forall call :: call in calls ==> TicketWritesSucceed(call)
    ensures Bijection(Run(c, s, calls).redis) && Coupled(Run(c, s, calls))
    decreases |calls|
  {
    if calls != [] {
      assert calls[0] in calls;
      StepKeepsBijection(c, s, calls[0]);
      CouplingExact(c, s, calls[0]);
      StoresStayCoupled(c, Step(c, s, calls[0]), calls[1..]);
    }
  }

  // ---- Grace replay ----

  /** A live entry stays what it is under every call but a reset of its wristband. */
  lemma {:induction false} EntryPersists(c: Config, s: State, calls: seq<Call>, uid: Uid)
    requires Get(s.redis.grace, uid, s.redis.now).Some?
    requires forall call :: call in calls ==> !(call.CallReset? && call.uid == uid)
    requires Alive(s.redis.grace[uid].expiry, Run(c, s, calls).redis.now)
    ensures Get(Run(c, s, calls).redis.grace, uid, Run(c, s, calls).redis.now) == Get(s.redis.grace, uid, s.redis.now)
    decreases |calls|
  {
    if calls != [] {
      assert calls[0] in calls;
      TimeMovesOn(c, Step(c, s, calls[0]), calls[1..]);
      EntryStays(c, s, calls[0], uid);
      EntryPersists(c, Step(c, s, calls[0]), calls[1..], uid);
    }
  }

  lemma CheckKeepsEntry(c: Config, s: State, call: Call, uid: Uid)
    requires Get(s.redis.grace, uid, s.redis.now).Some? && call.CallCheck?
    ensures uid in Step(c, s, call).redis.grace && Step(c, s, call).redis.grace[uid] == s.redis.grace[uid]
  {}

  lemma BindKeepsEntry(c: Config, s: State, call: Call)
    requires call.CallBind?
    ensures Step(c, s, call).redis.grace == s.redis.grace
  {}

  lemma ResetKeepsEntry(c: Config, s: State, call: Call, uid: Uid)
    requires uid in s.redis.grace && call.CallReset? && call.uid != uid
    ensures uid in Step(c, s, call).redis.grace && Step(c, s, call).redis.grace[uid] == s.redis.grace[uid]
  {}

  lemma EntryStays(c: Config, s: State, call: Call, uid: Uid)
    requires Get(s.redis.grace, uid, s.redis.now).Some? && !(call.CallReset? && call.uid == uid)
    ensures uid in Step(c, s, call).redis.grace && Step(c, s, call).redis.grace[uid] == s.redis.grace[uid]
  {
    if call.CallCheck? {
      CheckKeepsEntry(c, s, call, uid);
    } else if call.CallBind? {
      BindKeepsEntry(c, s, call);
    } else if call.CallReset? {
      ResetKeepsEntry(c, s, call, uid);
    }
  }

  lemma ClockMoves(c: Config, s: State, call: Call)
    ensures s.redis.now <= Step(c, s, call).redis.now
  {}

  lemma {:induction false} TimeMovesOn(c: Config, s: State, calls: seq<Call>)
    ensures s.redis.now <= Run(c, s, calls).redis.now
    decreases |calls|
  {
    if calls != [] {
      ClockMoves(c, s, calls[0]);
      TimeMovesOn(c, Step(c, s, calls[0]), calls[1..]);
    }
  }

  /** A check that decides, and whose decision reaches the cache. */
  predicate Decides(s: State, check: Call) {
    && check.CallCheck? && check.cf.lookup == Done && Get(s.redis.grace, check.uid, s.redis.now).None?
    && check.cf.get == Done && GetBinding(s.redis, check.uid).Some?
    && (check.allowed ==> check.cf.promote == Done) && check.cf.cache.Applied()
  }

  /** Over any calls after a deciding check, until its grace window ends or its
      wristband is reset, every further check whose look-up succeeds returns that
      decision and changes no state, whatever it would have decided itself. */
  lemma ReplayIsFaithful(c: Config, s: State, check: Call, calls: seq<Call>, again: Call)
    requires Decides(s, check) && again.CallCheck? && again.uid == check.uid && again.cf.lookup == Done
    requires forall call :: call in calls ==> !(call.CallReset? && call.uid == check.uid)
    requires Run(c, Step(c, s, check), calls).redis.now < s.redis.now + c.graceMs
    ensures var s' := Run(c, Step(c, s, check), calls);
            CheckCall(c, s', again.uid, again.allowed, again.reason, again.cf)
            == (s', Checked(check.allowed, if check.allowed then "" else check.reason, true))
  {
    var s1 := Step(c, s, check);
    TimeMovesOn(c, s1, calls);
    assert Get(s1.redis.grace, check.uid, s1.redis.now)
        == Some(Decision(check.allowed, if check.allowed then "" else check.reason, s.redis.fwd[check.uid].expiry));
    EntryPersists(c, s1, calls, check.uid);
  }

  predicate IsBound(s: State, uid: Uid) {
    GetBinding(s.redis, uid).Some? && GetBinding(s.redis, uid).value.status == BOUND
  }

  /** The wristband has a live cached "allowed". */
  predicate AllowCached(s: State, uid: Uid) {
    var d := Get(s.redis.grace, uid, s.redis.now);
    d.Some? && d.value.allowed
  }

  /** A cached "allowed" is backed by a BOUND binding exactly until that binding expires. */
  ghost predicate GraceHonest(s: State) {
    forall uid :: AllowCached(s, uid) ==> HonestAt(s, uid)
  }

  ghost predicate HonestAt(s: State, uid: Uid)
    requires AllowCached(s, uid)
  {
    var until := s.redis.grace[uid].value.bindingUntil;
    if Alive(until, s.redis.now) then IsBound(s, uid) && s.redis.fwd[uid].expiry == until else !IsBound(s, uid)
  }

  /** A reset that deletes the binding but leaves its live "allowed" behind. */
  ghost predicate LeavesStale(s: State, call: Call) {
    && call.CallReset? && call.rf.get == Done && GetBinding(s.redis, call.uid).Some?
    && call.rf.delete.Applied() && !(call.rf.delete == Done && call.rf.clear.Applied())
    && AllowCached(s, call.uid) && Alive(s.redis.grace[call.uid].value.bindingUntil, s.redis.now)
  }

  lemma HonestElsewhere(c: Config, s: State, call: Call, uid: Uid)
    requires GraceHonest(s) && AllowCached(Step(c, s, call), uid)
    requires (call.CallCheck? || call.CallReset? || call.CallBind?) ==> call.uid != uid
    ensures HonestAt(Step(c, s, call), uid)
  {
    var s' := Step(c, s, call);
    SameElsewhere(c, s, call, uid);
    assert AllowCached(s, uid);
    assert HonestAt(s, uid);
  }

  /** The wristband's binding and cached decision are the same keys, with time moved on at most. */
  ghost predicate SameKeys(r: Redis, r': Redis, uid: Uid) {
    && r.now <= r'.now
    && (uid in r.fwd <==> uid in r'.fwd) && (uid in r.fwd ==> r'.fwd[uid] == r.fwd[uid])
    && (uid in r.grace <==> uid in r'.grace) && (uid in r.grace ==> r'.grace[uid] == r.grace[uid])
  }

  /** A call on another wristband leaves this one's keys alone. */
  lemma SameElsewhere(c: Config, s: State, call: Call, uid: Uid)
    requires (call.CallCheck? || call.CallReset? || call.CallBind?) ==> call.uid != uid
    ensures SameKeys(s.redis, Step(c, s, call).redis, uid)
  {
    if call.CallBind? {
      BindElsewhere(c, s, call, uid);
    } else if call.CallCheck? {
      CheckElsewhere(c, s, call, uid);
    } else if call.CallReset? {
      ResetElsewhere(c, s, call, uid);
    }
  }

  lemma BindElsewhere(c: Config, s: State, call: Call, uid: Uid)
    requires call.CallBind? && call.uid != uid
    ensures SameKeys(s.redis, Step(c, s, call).redis, uid)
  {
    assert Step(c, s, call).redis.grace == s.redis.grace;
  }

  /** All a check does to Redis: perhaps promote the binding, perhaps cache a decision. */
  lemma CheckWrites(c: Config, s: State, call: Call)
    requires call.CallCheck?
    ensures var b := GetBinding(s.redis, call.uid);
            var r := Step(c, s, call).redis;
            || r == s.redis
            || (b.Some?
                && var promoted := if call.allowed then WriteBinding(s.redis, call.uid, b.value.(status := BOUND))
                   else s.redis;
                   var d := Decision(call.allowed, if call.allowed then "" else call.reason,
                       s.redis.fwd[call.uid].expiry);
                   r == promoted || r == SetGrace(promoted, call.uid, d, c.graceMs))
  {}

  lemma WriteElsewhere(r: Redis, u: Uid, b: Binding, uid: Uid)
    requires u != uid
    ensures SameKeys(r, WriteBinding(r, u, b), uid)
  {}

  lemma CacheElsewhere(r: Redis, u: Uid, d: Decision, ttl: int, uid: Uid)
    requires u != uid
    ensures SameKeys(r, SetGrace(r, u, d, ttl), uid)
  {}

  lemma CheckElsewhere(c: Config, s: State, call: Call, uid: Uid)
    requires call.CallCheck? && call.uid != uid
    ensures SameKeys(s.redis, Step(c, s, call).redis, uid)
  {
    CheckWrites(c, s, call);
    var b := GetBinding(s.redis, call.uid);
    if b.Some? {
      var promoted := if call.allowed then WriteBinding(s.redis, call.uid, b.value.(status := BOUND)) else s.redis;
      var d := Decision(call.allowed, if call.allowed then "" else call.reason, s.redis.fwd[call.uid].expiry);
      WriteElsewhere(s.redis, call.uid, b.value.(status := BOUND), uid);
      CacheElsewhere(promoted, call.uid, d, c.graceMs, uid);
    }
  }

  lemma ResetElsewhere(c: Config, s: State, call: Call, uid: Uid)
    requires call.CallReset? && call.uid != uid
    ensures SameKeys(s.redis, Step(c, s, call).redis, uid)
  {}

  /** A check leaves its own wristband's cached decision honest. */
  lemma CheckHonest(c: Config, s: State, call: Call)
    requires GraceHonest(s) && call.CallCheck? && AllowCached(Step(c, s, call), call.uid)
    ensures HonestAt(Step(c, s, call), call.uid)
  {
    if AllowCached(s, call.uid) { assert HonestAt(s, call.uid); }
  }

  /** So does a bind, which cannot succeed under a binding the decision was given for. */
  lemma BindHonest(c: Config, s: State, call: Call)
    requires GraceHonest(s) && call.CallBind? && AllowCached(Step(c, s, call), call.uid)
    ensures HonestAt(Step(c, s, call), call.uid)
  {
    BindKeepsEntry(c, s, call);
    assert AllowCached(s, call.uid);
    assert HonestAt(s, call.uid);
  }

  /** A reset does exactly when it leaves no stale decision behind. */
  lemma ResetHonest(c: Config, s: State, call: Call)
    requires GraceHonest(s) && call.CallReset?
    ensures (AllowCached(Step(c, s, call), call.uid) ==> HonestAt(Step(c, s, call), call.uid))
            <==> !LeavesStale(s, call)
  {
    if AllowCached(s, call.uid) { assert HonestAt(s, call.uid); }
  }

  /** Grace stays honest across every call, except exactly a reset that fails to
      clear the entry of a binding it has removed. */
  lemma GraceExact(c: Config, s: State, call: Call)
    requires GraceHonest(s)
    ensures GraceHonest(Step(c, s, call)) <==> !LeavesStale(s, call)
  {
    var s' := Step(c, s, call);
    if call.CallReset? { ResetHonest(c, s, call); }
    forall uid | AllowCached(s', uid) && !LeavesStale(s, call) ensures HonestAt(s', uid) {
      if call.CallCheck? && call.uid == uid {
        CheckHonest(c, s, call);
      } else if call.CallBind? && call.uid == uid {
        BindHonest(c, s, call);
      } else if !call.CallReset? || call.uid != uid {
        HonestElsewhere(c, s, call, uid);
      }
    }
  }

  predicate ClearsSucceed(call: Call) {
    call.CallReset? ==> call.rf.delete != FailedApplied && call.rf.clear.Applied()
  }

  /** With resets that clear, a replayed "allowed" means BOUND for as long as the
      binding it was given for has not expired. */
  lemma {:induction false} AllowedMeansBound(c: Config, s: State, calls: seq<Call>, uid: Uid)
    requires GraceHonest(s) && forall call :: call in calls ==> ClearsSucceed(call)
    ensures var s' := Run(c, s, calls);
            && GraceHonest(s')
            && (AllowCached(s', uid)
               ==> (IsBound(s', uid) <==> Alive(s'.redis.grace[uid].value.bindingUntil, s'.redis.now)))
    decreases |calls|
  {
    if calls == [] {
      if AllowCached(s, uid) { assert HonestAt(s, uid); }
    } else {
      assert calls[0] in calls;
      GraceExact(c, s, calls[0]);
      AllowedMeansBound(c, Step(c, s, calls[0]), calls[1..], uid);
    }
  }
}
