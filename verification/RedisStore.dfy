/** The Redis keys of the gate: the wristband index and its reverse, the used QR
    tokens, and the cached NFC decisions. Keys carry an expiry; a key past its
    expiry is as good as absent. Times are milliseconds. */
module RedisStore {
  import opened Core

  type Uid = string
  type TicketId = string

  datatype BindingStatus = BINDING | BOUND

  datatype Binding = Binding(uid: Uid, ticketId: TicketId, userEmail: string, status: BindingStatus, boundAt: int)

  /** A value and when it dies; None is a key without TTL. */
  datatype Keyed<V> = Keyed(value: V, expiry: Option<int>)

  /** A cached NFC decision. `bindingUntil` is not stored in Redis: it remembers,
      for the proofs, when the binding the decision was made on expires. */
  datatype Decision = Decision(allowed: bool, reason: string, bindingUntil: Option<int>)

  datatype Redis = Redis(
    now: int,
    fwd: map<Uid, Keyed<Binding>>,     // bind:wristband:{uid}
    rev: map<TicketId, Keyed<Uid>>,    // bind:ticket:{ticket}
    qr: map<string, Keyed<()>>,        // qr:{uuid}
    grace: map<Uid, Keyed<Decision>>   // gracewb:{uid}
  )

  predicate Alive(expiry: Option<int>, now: int) { expiry.None? || now < expiry.value }

  /** GET on a key space: dead keys are absent. */
  function Get<K, V>(m: map<K, Keyed<V>>, k: K, now: int): Option<V> {
    if k in m && Alive(m[k].expiry, now) then Some(m[k].value) else None
  }

  datatype BindReply = BindOk | TicketTaken | WristbandTaken

  /** The bind script: refuse a bound ticket, then a bound wristband, else set both keys. */
  function Bind(r: Redis, uid: Uid, ticket: TicketId, email: string, expiry: int): (Redis, BindReply) {
    if Get(r.rev, ticket, r.now).Some? then (r, TicketTaken)
    else if Get(r.fwd, uid, r.now).Some? then (r, WristbandTaken)
    else
      var b := Binding(uid, ticket, email, BINDING, r.now);
      (r.(fwd := r.fwd[uid := Keyed(b, Some(expiry))], rev := r.rev[ticket := Keyed(uid, Some(expiry))]), BindOk)
  }

  /** The delete script: drop the wristband key, and the ticket key its value names. */
  function Unbind(r: Redis, uid: Uid): Redis {
    var b := Get(r.fwd, uid, r.now);
    r.(fwd := r.fwd - {uid}, rev := if b.Some? then r.rev - {b.value.ticketId} else r.rev)
  }

  function GetBinding(r: Redis, uid: Uid): Option<Binding> { Get(r.fwd, uid, r.now) }

  /** Through the reverse index. */
  function GetBindingByTicket(r: Redis, ticket: TicketId): Option<Binding> {
    var uid := Get(r.rev, ticket, r.now);
    if uid.None? then None else GetBinding(r, uid.value)
  }

  /** SET ... KEEPTTL: an absent key comes back without any TTL. */
  function WriteBinding(r: Redis, uid: Uid, b: Binding): Redis {
    var expiry := if Get(r.fwd, uid, r.now).Some? then r.fwd[uid].expiry else None;
    r.(fwd := r.fwd[uid := Keyed(b, expiry)])
  }

  /** The read and the write of SetBindingStatus with nothing in between; None when unbound. */
  function SetStatus(r: Redis, uid: Uid, status: BindingStatus): Option<Redis> {
    var b := GetBinding(r, uid);
    if b.None? then None else Some(WriteBinding(r, uid, b.value.(status := status)))
  }

  function Tick(r: Redis, later: int): Redis { if later > r.now then r.(now := later) else r }

  /** SETNX with a TTL of the grace window plus thirty seconds; true if the token was unused. */
  function MarkQR(r: Redis, uuid: string, ttl: int): (Redis, bool) {
    if Get(r.qr, uuid, r.now).Some? then (r, false)
    else (r.(qr := r.qr[uuid := Keyed((), Some(r.now + ttl))]), true)
  }

  function SetGrace(r: Redis, uid: Uid, d: Decision, ttl: int): Redis {
    r.(grace := r.grace[uid := Keyed(d, Some(r.now + ttl))])
  }

  function ClearGrace(r: Redis, uid: Uid): Redis { r.(grace := r.grace - {uid}) }

  // ---- The two indexes are one relation ----

  /** Forward and reverse keys pair up, each pair dying at one moment. */
  ghost predicate Bijection(r: Redis) {
    && (forall uid :: uid in r.fwd && Alive(r.fwd[uid].expiry, r.now) ==> Paired(r, uid))
    && (forall t :: t in r.rev && Alive(r.rev[t].expiry, r.now) ==>
          && r.rev[t].value in r.fwd
          && r.fwd[r.rev[t].value].value.ticketId == t
          && r.fwd[r.rev[t].value].expiry == r.rev[t].expiry)
  }

  ghost predicate Paired(r: Redis, uid: Uid)
    requires uid in r.fwd
  {
    var b := r.fwd[uid].value;
    b.uid == uid && b.ticketId in r.rev && r.rev[b.ticketId] == Keyed(uid, r.fwd[uid].expiry)
  }

  /** What a scan over every wristband key would find for the ticket. */
  ghost predicate FullSearch(r: Redis, ticket: TicketId, b: Binding) {
    exists uid :: uid in r.fwd && Alive(r.fwd[uid].expiry, r.now) && r.fwd[uid].value == b && b.ticketId == ticket
  }

  /** The reverse index answers exactly what a full search would, and a full
      search finds at most one binding. */
  lemma LookupIsSearch(r: Redis, ticket: TicketId)
    requires Bijection(r)
    ensures forall b :: GetBindingByTicket(r, ticket) == Some(b) <==> FullSearch(r, ticket, b)
  {
    forall b ensures GetBindingByTicket(r, ticket) == Some(b) <==> FullSearch(r, ticket, b) {
      if FullSearch(r, ticket, b) {
        var uid :| uid in r.fwd && Alive(r.fwd[uid].expiry, r.now) && r.fwd[uid].value == b && b.ticketId == ticket;
        assert Paired(r, uid);
      }
    }
  }

  lemma BindKeepsBijection(r: Redis, uid: Uid, ticket: TicketId, email: string, expiry: int)
    requires Bijection(r)
    ensures Bijection(Bind(r, uid, ticket, email, expiry).0)
  {
    var r' := Bind(r, uid, ticket, email, expiry).0;
    forall u | u in r'.fwd && Alive(r'.fwd[u].expiry, r'.now) ensures Paired(r', u) {
      if u != uid { assert Paired(r, u); }
    }
  }

  lemma UnbindKeepsBijection(r: Redis, uid: Uid)
    requires Bijection(r)
    ensures Bijection(Unbind(r, uid)) && GetBinding(Unbind(r, uid), uid).None?
    ensures forall u :: u != uid ==> GetBinding(Unbind(r, uid), u) == GetBinding(r, u)
    ensures GetBinding(r, uid).Some? ==> GetBindingByTicket(Unbind(r, uid), GetBinding(r, uid).value.ticketId).None?
  {
    var r' := Unbind(r, uid);
    forall u | u in r'.fwd && Alive(r'.fwd[u].expiry, r'.now) ensures Paired(r', u) {
      assert Paired(r, u);
      if GetBinding(r, uid).Some? { assert Paired(r, uid); }
    }
    forall t | t in r'.rev && Alive(r'.rev[t].expiry, r'.now)
      ensures r'.rev[t].value in r'.fwd
      ensures r'.fwd[r'.rev[t].value].value.ticketId == t && r'.fwd[r'.rev[t].value].expiry == r'.rev[t].expiry
    {
      assert r.rev[t].value in r.fwd;
    }
  }

  lemma TickKeepsBijection(r: Redis, later: int)
    requires Bijection(r)
    ensures Bijection(Tick(r, later))
  {
    var r' := Tick(r, later);
    forall u | u in r'.fwd && Alive(r'.fwd[u].expiry, r'.now) ensures Paired(r', u) {
      assert Alive(r.fwd[u].expiry, r.now);
      assert Paired(r, u);
    }
    forall t | t in r'.rev && Alive(r'.rev[t].expiry, r'.now) ensures Alive(r.rev[t].expiry, r.now) {}
  }

  /** The write half of SetBindingStatus keeps the indexes paired exactly when the
      wristband still holds a binding for the ticket that was read. After a reset
      or expiry it resurrects the wristband key alone, with no TTL; after a re-bind
      it points the wristband at a ticket that does not point back. */
  lemma WriteHalfExact(r: Redis, uid: Uid, read: Binding, status: BindingStatus)
    requires Bijection(r) && read.uid == uid
    ensures Bijection(WriteBinding(r, uid, read.(status := status)))
            <==> GetBinding(r, uid).Some? && GetBinding(r, uid).value.ticketId == read.ticketId
  {
    var r' := WriteBinding(r, uid, read.(status := status));
    if GetBinding(r, uid).Some? && GetBinding(r, uid).value.ticketId == read.ticketId {
      forall u | u in r'.fwd && Alive(r'.fwd[u].expiry, r'.now) ensures Paired(r', u) {
        assert Paired(r, u);
      }
    } else {
      assert Alive(r'.fwd[uid].expiry, r'.now);
      if GetBinding(r, uid).Some? { assert Paired(r, uid); }
      assert !Paired(r', uid);
    }
  }

  /** Promotion with both halves together keeps the pairing and the expiry. */
  lemma SetStatusKeepsBijection(r: Redis, uid: Uid, status: BindingStatus)
    requires Bijection(r) && GetBinding(r, uid).Some?
    ensures SetStatus(r, uid, status).Some? && Bijection(SetStatus(r, uid, status).value)
    ensures SetStatus(r, uid, status).value.fwd[uid] == r.fwd[uid].(value := r.fwd[uid].value.(status := status))
  {
    assert Paired(r, uid);
    WriteHalfExact(r, uid, r.fwd[uid].value, status);
  }

  /** A key without TTL outlives every moment. */
  lemma NoTtlIsForever(r: Redis, uid: Uid, b: Binding, later: int)
    requires GetBinding(r, uid).None?
    ensures GetBinding(Tick(WriteBinding(r, uid, b), later), uid) == Some(b)
  {}

  // ---- Over whole runs ----

  datatype IndexOp =
    | BindOp(uid: Uid, ticket: TicketId, email: string, expiry: int)
    | PromoteOp(uid: Uid, status: BindingStatus)
    | UnbindOp(uid: Uid)
    | TickOp(later: int)

  function IndexStep(r: Redis, op: IndexOp): Redis {
    match op
    case BindOp(uid, ticket, email, expiry) => Bind(r, uid, ticket, email, expiry).0
    case PromoteOp(uid, status) => var s := SetStatus(r, uid, status); if s.None? then r else s.value
    case UnbindOp(uid) => Unbind(r, uid)
    case TickOp(later) => Tick(r, later)
  }

  function IndexRun(r: Redis, ops: seq<IndexOp>): Redis
    decreases |ops|
  {
    if ops == [] then r else IndexRun(IndexStep(r, ops[0]), ops[1..])
  }

  function EmptyRedis(now: int): Redis { Redis(now, map[], map[], map[], map[]) }

  lemma {:induction false} RunKeepsBijection(r: Redis, ops: seq<IndexOp>)
    requires Bijection(r)
    ensures Bijection(IndexRun(r, ops))
    decreases |ops|
  {
    if ops != [] {
      match ops[0] {
        case BindOp(uid, ticket, email, expiry) => BindKeepsBijection(r, uid, ticket, email, expiry);
        case PromoteOp(uid, status) => if GetBinding(r, uid).Some? { SetStatusKeepsBijection(r, uid, status); }
        case UnbindOp(uid) => UnbindKeepsBijection(r, uid);
        case TickOp(later) => TickKeepsBijection(r, later);
      }
      RunKeepsBijection(IndexStep(r, ops[0]), ops[1..]);
    }
  }

  /** Whatever was bound, promoted, unbound or expired, looking a ticket up finds
      exactly the one binding that exists for it. */
  lemma IndexBijection(now: int, ops: seq<IndexOp>, ticket: TicketId)
    ensures var r := IndexRun(EmptyRedis(now), ops);
            Bijection(r) && forall b :: GetBindingByTicket(r, ticket) == Some(b) <==> FullSearch(r, ticket, b)
  {
    RunKeepsBijection(EmptyRedis(now), ops);
    LookupIsSearch(IndexRun(EmptyRedis(now), ops), ticket);
  }

  // ---- The client ----

  /** The Redis client of the gate; every method is one command or one script. */
  class RedisClient {
    var now: int
    var fwd: map<Uid, Keyed<Binding>>
    var rev: map<TicketId, Keyed<Uid>>
    var qr: map<string, Keyed<()>>
    var grace: map<Uid, Keyed<Decision>>

    function View(): Redis
      reads this
    {
      Redis(now, fwd, rev, qr, grace)
    }

    constructor (now: int)
      ensures View() == EmptyRedis(now)
    {
      this.now, fwd, rev, qr, grace := now, map[], map[], map[], map[];
    }

    method BindWristband(uid: Uid, ticket: TicketId, email: string, expiry: int, o: Outcome)
      returns (reply: Result<BindReply, ()>)
      modifies this`fwd, this`rev
      ensures View() == if o.Applied() then Bind(old(View()), uid, ticket, email, expiry).0 else old(View())
      ensures reply == if o == Done then Ok(Bind(old(View()), uid, ticket, email, expiry).1) else Err(())
    {
      if o == FailedClean { return Err(()); }
      var answer := BindOk;
      if ticket in rev && Alive(rev[ticket].expiry, now) {
        answer := TicketTaken;
      } else if uid in fwd && Alive(fwd[uid].expiry, now) {
        answer := WristbandTaken;
      } else {
        fwd := fwd[uid := Keyed(Binding(uid, ticket, email, BINDING, now), Some(expiry))];
        rev := rev[ticket := Keyed(uid, Some(expiry))];
      }
      reply := if o == Done then Ok(answer) else Err(());
    }

    method DeleteBinding(uid: Uid, o: Outcome) returns (err: bool)
      modifies this`fwd, this`rev
      ensures View() == if o.Applied() then Unbind(old(View()), uid) else old(View())
      ensures err <==> o != Done
    {
      err := o != Done;
      if o.Applied() {
        var b := Get(fwd, uid, now);
        fwd := fwd - {uid};
        if b.Some? { rev := rev - {b.value.ticketId}; }
      }
    }

    /** Read, then write; `err` also covers a wristband that is not bound. */
    method SetBindingStatus(uid: Uid, status: BindingStatus, o: Outcome) returns (err: bool)
      modifies this`fwd
      ensures View() == if o.Applied() && SetStatus(old(View()), uid, status).Some?
                        then SetStatus(old(View()), uid, status).value else old(View())
      ensures err <==> o != Done || GetBinding(old(View()), uid).None?
    {
      var b := Get(fwd, uid, now);
      err := o != Done || b.None?;
      if o.Applied() && b.Some? {
        fwd := fwd[uid := Keyed(b.value.(status := status), fwd[uid].expiry)];
      }
    }

    method MarkQRUsed(uuid: string, ttl: int, o: Outcome) returns (first: bool, err: bool)
      modifies this`qr
      ensures View() == if o.Applied() then MarkQR(old(View()), uuid, ttl).0 else old(View())
      ensures (err <==> o != Done) && (!err ==> first == MarkQR(old(View()), uuid, ttl).1)
    {
      err, first := o != Done, !(uuid in qr && Alive(qr[uuid].expiry, now));
      if o.Applied() && first { qr := qr[uuid := Keyed((), Some(now + ttl))]; }
    }

    method SetWristbandGrace(uid: Uid, d: Decision, ttl: int, o: Outcome)
      modifies this`grace
      ensures View() == if o.Applied() then SetGrace(old(View()), uid, d, ttl) else old(View())
    {
      if o.Applied() { grace := grace[uid := Keyed(d, Some(now + ttl))]; }
    }

    method ClearWristbandGrace(uid: Uid, o: Outcome)
      modifies this`grace
      ensures View() == if o.Applied() then ClearGrace(old(View()), uid) else old(View())
    {
      if o.Applied() { grace := grace - {uid}; }
    }
  }
}
