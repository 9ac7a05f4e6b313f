/** The gate services as the program runs them, each proved to make exactly the
    transition of its call. */
module GateServices {
  import opened Core
  import opened RedisStore
  import opened ScanStores
  import opened Gate

  /** The Postgres `tickets` table. */
  class TicketTable {
    var tickets: map<TicketId, Ticket>

    constructor ()
      ensures tickets == map[]
    {
      tickets := map[];
    }

    method OwnerOfBindable(t: TicketId, o: Outcome) returns (email: Option<string>, err: bool)
      ensures err <==> o != Done
      ensures !err ==> email == OwnerEmail(tickets, t)
    {
      err, email := o != Done, None;
      if t in tickets && tickets[t].status != USED && tickets[t].status != EXPIRED {
        email := tickets[t].owner;
      }
    }

    method SetStatus(t: TicketId, status: TicketStatus, o: Outcome)
      modifies this
      ensures tickets == SetTicket(old(tickets), t, status, o)
    {
      if o.Applied() && t in tickets { tickets := tickets[t := tickets[t].(status := status)]; }
    }

    method MarkUsed(t: TicketId, o: Outcome)
      modifies this
      ensures tickets == RedeemTicket(old(tickets), t, o)
    {
      if o.Applied() && t in tickets && tickets[t].status == ACTIVE {
        tickets := tickets[t := tickets[t].(status := USED)];
      }
    }
  }

  /** The ride-scans topic, with the proofs' record of what happened at the gate. */
  class Topic {
    var published: seq<ScanEvent>
    ghost var history: seq<Fact>

    constructor ()
      ensures published == [] && history == []
    {
      published, history := [], [];
    }

    ghost method Note(f: Fact)
      modifies this`history
      ensures history == old(history) + [f]
    {
      history := history + [f];
    }
  }

  class GateService {
    const redis: RedisClient
    const db: TicketTable
    const topic: Topic
    const cfg: Config

    constructor (redis: RedisClient, db: TicketTable, topic: Topic, cfg: Config)
      ensures this.redis == redis && this.db == db && this.topic == topic && this.cfg == cfg
    {
      this.redis, this.db, this.topic, this.cfg := redis, db, topic, cfg;
    }

    ghost function View(): State
      reads redis, db, topic
    {
      State(redis.View(), db.tickets, topic.published, topic.history)
    }

    /** The two indexes of Redis are paired. */
    ghost predicate Valid()
      reads redis
    {
      Bijection(redis.View())
    }

    /** First staff scan: QR, owner, one-time use, atomic bind, ticket to PENDING_ENTRY. */
    method Bind(ticket: TicketId, uuid: string, uid: Uid, verified: bool, until: int, f: BindFaults)
      returns (reply: Reply)
      requires Valid()
      modifies redis, db, topic
      ensures (View(), reply) == BindCall(cfg, old(View()), ticket, uuid, uid, verified, until, f)
      ensures Valid()
    {
      StepKeepsBijection(cfg, View(), CallBind(ticket, uuid, uid, verified, until, f));
      if !verified { return Failed(QRInvalid); }
      var email, ownerErr := db.OwnerOfBindable(ticket, f.owner);
      if ownerErr { return Failed(Infra); }
      if email.None? { return Failed(TicketInvalid); }
      var first, markErr := redis.MarkQRUsed(uuid, cfg.qrTtlMs, f.mark);
      if markErr { return Failed(Infra); }
      if !first { return Failed(QRReplay); }
      ghost var marked := redis.View();
      var bound := redis.BindWristband(uid, ticket, email.value, until, f.bind);
      ghost var answer := RedisStore.Bind(marked, uid, ticket, email.value, until).1;
      if f.bind.Applied() && answer == BindOk { topic.Note(DidBind(uid, ticket, email.value, until)); }
      if bound.Err? { return Failed(Infra); }
      if bound.value != BindOk { return Failed(AlreadyBound); }
      db.SetStatus(ticket, PENDING_ENTRY, f.ticket);
      reply := Bound(ticket, email.value);
    }

    /** Second staff scan: replay a cached decision, or check and promote. */
    method NFCCheck(uid: Uid, allowed: bool, reason: string, f: CheckFaults) returns (reply: Reply)
      requires Valid()
      modifies redis, db, topic
      ensures (View(), reply) == CheckCall(cfg, old(View()), uid, allowed, reason, f)
      ensures Valid()
    {
      StepKeepsBijection(cfg, View(), CallCheck(uid, allowed, reason, f));
      if f.lookup != Done { return Failed(Infra); }
      var cached := Get(redis.grace, uid, redis.now);
      if cached.Some? { return Checked(cached.value.allowed, cached.value.reason, true); }
      if f.get != Done { return Failed(Infra); }
      var b := GetBinding(redis.View(), uid);
      if b.None? { return Failed(NoBinding); }
      assert Paired(redis.View(), uid);
      ghost var expiry := redis.fwd[uid].expiry;
      if allowed {
        var err := redis.SetBindingStatus(b.value.uid, BOUND, f.promote);
        if f.promote.Applied() { topic.Note(DidPass(uid)); }
        if err { return Failed(Infra); }
        db.SetStatus(b.value.ticketId, ACTIVE, f.ticket);
      }
      var shown := if allowed then "" else reason;
      redis.SetWristbandGrace(uid, Decision(allowed, shown, redis.fwd[uid].expiry), cfg.graceMs, f.cache);
      reply := Checked(allowed, shown, false);
    }

    /** Admin override: unbind, drop the cached decision, ticket back to CLAIMED. */
    method Reset(uid: Uid, f: ResetFaults) returns (reply: Reply)
      requires Valid()
      modifies redis, db, topic
      ensures (View(), reply) == ResetCall(old(View()), uid, f)
      ensures Valid()
    {
      StepKeepsBijection(cfg, View(), CallReset(uid, f));
      if f.get != Done { return Failed(Infra); }
      var b := GetBinding(redis.View(), uid);
      if b.None? { return Failed(NoBinding); }
      var err := redis.DeleteBinding(uid, f.delete);
      if f.delete.Applied() { topic.Note(DidReset(uid)); }
      if err { return Failed(Infra); }
      redis.ClearWristbandGrace(uid, f.clear);
      db.SetStatus(b.value.ticketId, CLAIMED, f.ticket);
      reply := Unbound(b.value.ticketId);
    }

    /** A ride scan: only a BOUND wristband publishes; the ticket is then redeemed. */
    method Scan(uid: Uid, ride: string, trace: string, f: ScanFaults) returns (reply: Reply)
      requires Valid()
      modifies db, topic
      ensures (View(), reply) == ScanCall(old(View()), uid, ride, trace, f)
      ensures Valid()
    {
      if f.get != Done { return Failed(Infra); }
      var b := GetBinding(redis.View(), uid);
      if b.None? { return Failed(NoBinding); }
      if b.value.status != BOUND { return Failed(NotBound); }
      var e := ScanEvent(b.value.userEmail, ride, redis.now, trace, b.value.ticketId);
      if f.publish.Applied() {
        topic.published := topic.published + [e];
        topic.Note(DidScan(uid, e, redis.now));
      }
      if f.publish != Done { return Failed(Infra); }
      db.MarkUsed(b.value.ticketId, f.ticket);
      reply := Recorded(trace);
    }
  }
}
