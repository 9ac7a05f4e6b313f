/** What the gate answers, call by call: when each reply is given, and what it says
    about the state it leaves. */
module GateReplies {
  import opened Core
  import opened RedisStore
  import opened ScanStores
  import opened Gate

  /** The reply to a call of a service; selling and waiting have none. */
  function Answer(c: Config, s: State, call: Call): Option<Reply> {
    match call
    case CallBind(ticket, uuid, uid, verified, until, f) =>
      Some(BindCall(c, s, ticket, uuid, uid, verified, until, f).1)
    case CallCheck(uid, allowed, reason, f) => Some(CheckCall(c, s, uid, allowed, reason, f).1)
    case CallReset(uid, f) => Some(ResetCall(s, uid, f).1)
    case CallScan(uid, ride, trace, f) => Some(ScanCall(s, uid, ride, trace, f).1)
    case _ => None
  }

  // ---- Bind ----

  predicate TokenUsed(s: State, uuid: string) { Get(s.redis.qr, uuid, s.redis.now).Some? }

  /** Neither the ticket nor the wristband is bound. */
  predicate Unclaimed(s: State, ticket: TicketId, uid: Uid) {
    Get(s.redis.rev, ticket, s.redis.now).None? && Get(s.redis.fwd, uid, s.redis.now).None?
  }

  /** The ticket exists, has an owner, and is neither used nor expired. */
  predicate Bindable(s: State, t: TicketId) {
    t in s.tickets && s.tickets[t].owner.Some? && s.tickets[t].status != USED && s.tickets[t].status != EXPIRED
  }

  /** The token is valid and the ticket can be bound, so the token gets consumed. */
  predicate Consumes(s: State, call: Call) {
    call.CallBind? && call.verified && call.bf.owner == Done && Bindable(s, call.ticket)
  }

  /** When a bind gives which reply. */
  lemma BindAnswers(c: Config, s: State, call: Call)
    requires call.CallBind?
    ensures var r, f := Answer(c, s, call).value, call.bf;
            var used, free := TokenUsed(s, call.uuid), Unclaimed(s, call.ticket, call.uid);
            && (r == Failed(QRInvalid) <==> !call.verified)
            && (r == Failed(TicketInvalid) <==>
                  call.verified && f.owner == Done && !Bindable(s, call.ticket))
            && (r == Failed(QRReplay) <==> Consumes(s, call) && f.mark == Done && used)
            && (r == Failed(AlreadyBound) <==> Consumes(s, call) && f.mark == Done && !used && f.bind == Done && !free)
            && (r.Bound? <==> Consumes(s, call) && f.mark == Done && !used && f.bind == Done && free)
            && (r == Failed(Infra) <==>
                  call.verified
                  && (f.owner != Done || (Consumes(s, call) && (f.mark != Done || (!used && f.bind != Done)))))
            && (r.Bound? ==> r == Bound(call.ticket, s.tickets[call.ticket].owner.value))
  {}

  /** "Bound" means both keys are there, for the ticket's owner, until the binding
      expires, and the ticket is pending entry if that write went through. */
  lemma BoundMeans(c: Config, s: State, call: Call)
    requires call.CallBind? && Answer(c, s, call).value.Bound?
    ensures Bindable(s, call.ticket)
    ensures var s', email := Step(c, s, call), s.tickets[call.ticket].owner;
            && call.uid in s'.redis.fwd && call.ticket in s'.redis.rev
            && s'.redis.fwd[call.uid]
               == Keyed(Binding(call.uid, call.ticket, email.value, BINDING, s.redis.now), Some(call.until))
            && s'.redis.rev[call.ticket] == Keyed(call.uid, Some(call.until))
            && (call.bf.ticket.Applied() ==> s'.tickets[call.ticket].status == PENDING_ENTRY)
            && (forall t :: t in s.tickets && t != call.ticket ==> t in s'.tickets && s'.tickets[t] == s.tickets[t])
  {}

  /** A refused bind changes no binding and no ticket. */
  lemma RefusedBinds(c: Config, s: State, call: Call)
    requires call.CallBind? && Answer(c, s, call).value.Failed? && Answer(c, s, call).value.error != Infra
    ensures var s' := Step(c, s, call);
            && s'.redis.fwd == s.redis.fwd && s'.redis.rev == s.redis.rev
            && s'.tickets == s.tickets && s'.history == s.history
  {}

  /** Whatever else comes of it, a bind that gets as far as consuming its token, with
      that write in effect, leaves the token used for its whole lifetime; any other
      bind leaves all tokens as they were. */
  lemma BindBurns(c: Config, s: State, call: Call)
    requires call.CallBind?
    ensures var s' := Step(c, s, call);
            if Consumes(s, call) && call.bf.mark.Applied() && !TokenUsed(s, call.uuid)
            then s'.redis.qr == s.redis.qr[call.uuid := Keyed((), Some(s.redis.now + c.qrTtlMs))]
            else s'.redis.qr == s.redis.qr
  {}

  // ---- Check ----

  /** The check decides for itself: there is no cached decision and there is a binding. */
  predicate DecidesAfresh(s: State, call: Call) {
    && call.CallCheck? && call.cf.lookup == Done && Get(s.redis.grace, call.uid, s.redis.now).None?
    && call.cf.get == Done && GetBinding(s.redis, call.uid).Some? && (call.allowed ==> call.cf.promote == Done)
  }

  /** When a check gives which reply: its own outcome and reason, a cached one, or an error. */
  lemma CheckAnswers(c: Config, s: State, call: Call)
    requires call.CallCheck?
    ensures var r, cached := Answer(c, s, call).value, Get(s.redis.grace, call.uid, s.redis.now);
            && (DecidesAfresh(s, call) <==>
                  r == Checked(call.allowed, if call.allowed then "" else call.reason, false))
            && (call.cf.lookup == Done && cached.Some? <==> r.Checked? && r.replayed)
            && (r.Checked? && r.replayed ==> r == Checked(cached.value.allowed, cached.value.reason, true))
            && (r == Failed(NoBinding) <==>
                  call.cf.lookup == Done && cached.None? && call.cf.get == Done && GetBinding(s.redis, call.uid).None?)
            && (r.Checked? || r == Failed(NoBinding) || r == Failed(Infra))
  {}

  /** A fresh allow means the binding is BOUND, with ticket, owner and expiry as they
      were, and its ticket active if that write went through; a fresh denial, a replay
      or a missing binding leaves every binding and ticket as it was. */
  lemma CheckMeans(c: Config, s: State, call: Call)
    requires call.CallCheck?
    ensures var r, s' := Answer(c, s, call).value, Step(c, s, call);
            && (r.Checked? && !r.replayed && r.allowed ==>
                  && IsBound(s', call.uid) && call.uid in s.redis.fwd
                  && s'.redis.fwd[call.uid]
                     == s.redis.fwd[call.uid].(value := s.redis.fwd[call.uid].value.(status := BOUND))
                  && var t := s.redis.fwd[call.uid].value.ticketId;
                     (call.cf.ticket.Applied() && t in s.tickets ==> s'.tickets[t].status == ACTIVE))
            && ((r.Checked? && (r.replayed || !r.allowed)) || r == Failed(NoBinding) ==>
                  s'.redis.fwd == s.redis.fwd && s'.tickets == s.tickets && s'.history == s.history)
  {}

  /** A check that decides, with the cache write in effect, caches its own decision for
      exactly the grace window; any other check leaves all cached decisions alone. */
  lemma CheckCaches(c: Config, s: State, call: Call)
    requires call.CallCheck?
    ensures var grace := Step(c, s, call).redis.grace;
            if DecidesAfresh(s, call) && call.cf.cache.Applied()
            then && grace.Keys == s.redis.grace.Keys + {call.uid}
                 && grace[call.uid].expiry == Some(s.redis.now + c.graceMs)
                 && grace[call.uid].value.allowed == call.allowed
                 && grace[call.uid].value.reason == (if call.allowed then "" else call.reason)
                 && (forall u :: u in s.redis.grace && u != call.uid ==> grace[u] == s.redis.grace[u])
            else grace == s.redis.grace
  {}

  /** Until the grace window ends or the wristband is reset, every later check whose
      look-up succeeds gives the answer of the fresh one, marked as a replay. */
  lemma ReplaysAgree(c: Config, s: State, check: Call, calls: seq<Call>, again: Call)
    requires DecidesAfresh(s, check) && check.cf.cache.Applied()
    requires again.CallCheck? && again.uid == check.uid && again.cf.lookup == Done
    requires forall call :: call in calls ==> !(call.CallReset? && call.uid == check.uid)
    requires Run(c, Step(c, s, check), calls).redis.now < s.redis.now + c.graceMs
    ensures var first := Answer(c, s, check).value;
            && first.Checked? && first.allowed == check.allowed
            && Answer(c, Run(c, Step(c, s, check), calls), again) == Some(first.(replayed := true))
  {
    CheckAnswers(c, s, check);
    ReplayIsFaithful(c, s, check, calls, again);
  }

  // ---- Reset ----

  /** When a reset gives which reply; "Unbound" names the ticket that was bound and
      means that neither key is left, that the cached decision is gone if that delete
      went through, and that the ticket is claimable again if that write did. */
  lemma ResetAnswers(c: Config, s: State, call: Call)
    requires call.CallReset?
    ensures var r, s', b := Answer(c, s, call).value, Step(c, s, call), GetBinding(s.redis, call.uid);
            && (r == Failed(NoBinding) <==> call.rf.get == Done && b.None?)
            && (r.Unbound? <==> call.rf.get == Done && b.Some? && call.rf.delete == Done)
            && (r.Failed? ==> r.error == NoBinding || r.error == Infra) && (r.Failed? || r.Unbound?)
            && (r.Unbound? ==>
                  && r.ticket == b.value.ticketId
                  && call.uid !in s'.redis.fwd && r.ticket !in s'.redis.rev
                  && (call.rf.clear.Applied() ==> call.uid !in s'.redis.grace)
                  && (call.rf.ticket.Applied() && r.ticket in s.tickets ==> s'.tickets[r.ticket].status == CLAIMED))
            && (r == Failed(NoBinding) ==> s' == s)
  {}

  /** After a reset the wristband and the ticket can be bound again, to anything. */
  lemma ResetFrees(c: Config, s: State, call: Call, uid: Uid, ticket: TicketId)
    requires Bijection(s.redis) && call.CallReset? && Answer(c, s, call).value.Unbound?
    ensures var freed := Answer(c, s, call).value.ticket;
            && (Unclaimed(s, ticket, uid) ==> Unclaimed(Step(c, s, call), ticket, uid))
            && Unclaimed(Step(c, s, call), freed, call.uid)
  {}

  // ---- Ride scan ----

  /** When a ride scan gives which reply. It publishes exactly from a BOUND binding,
      one event with the binding's owner and ticket and the scan's own ride, trace and
      time; it touches no binding. */
  lemma ScanAnswers(c: Config, s: State, call: Call)
    requires call.CallScan?
    ensures var r, s', b := Answer(c, s, call).value, Step(c, s, call), GetBinding(s.redis, call.uid);
            var ready := call.sf.get == Done && b.Some? && b.value.status == BOUND;
            && (r == Failed(NoBinding) <==> call.sf.get == Done && b.None?)
            && (r == Failed(NotBound) <==> call.sf.get == Done && b.Some? && b.value.status != BOUND)
            && (r == Recorded(call.trace) <==> ready && call.sf.publish == Done)
            && (r.Recorded? || r == Failed(NoBinding) || r == Failed(NotBound) || r == Failed(Infra))
            && s'.published == s.published +
               (if ready && call.sf.publish.Applied()
                then [ScanEvent(b.value.userEmail, call.ride, s.redis.now, call.trace, b.value.ticketId)] else [])
            && s'.redis == s.redis
  {}

  /** A recorded scan redeems its ticket: an active one becomes used if that write goes
      through, and no other ticket and no other status changes. */
  lemma ScanRedeems(c: Config, s: State, call: Call, t: TicketId)
    requires call.CallScan? && t in s.tickets
    ensures var s', b := Step(c, s, call), GetBinding(s.redis, call.uid);
            var redeemed := Answer(c, s, call).value.Recorded? && call.sf.ticket.Applied()
                            && b.value.ticketId == t && s.tickets[t].status == ACTIVE;
            t in s'.tickets
            && s'.tickets[t] == if redeemed then s.tickets[t].(status := USED) else s.tickets[t]
  {}

  // ---- The scripts underneath ----

  /** The bind script refuses exactly a ticket some wristband holds, and otherwise
      exactly a wristband that holds some ticket. */
  lemma BindScriptAnswers(r: Redis, uid: Uid, ticket: TicketId, email: string, expiry: int)
    requires Bijection(r)
    ensures var reply := Bind(r, uid, ticket, email, expiry).1;
            && (reply == TicketTaken <==> exists b :: FullSearch(r, ticket, b))
            && (reply == WristbandTaken <==> GetBinding(r, uid).Some? && !exists b :: FullSearch(r, ticket, b))
  {
    LookupIsSearch(r, ticket);
    if Get(r.rev, ticket, r.now).Some? { assert GetBindingByTicket(r, ticket).Some?; }
    if GetBindingByTicket(r, ticket).Some? {
      assert FullSearch(r, ticket, GetBindingByTicket(r, ticket).value);
    }
    forall b | FullSearch(r, ticket, b) ensures Get(r.rev, ticket, r.now).Some? {
      assert GetBindingByTicket(r, ticket) == Some(b);
    }
  }
}
