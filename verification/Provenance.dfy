/** Where every published ride scan comes from: a bind of the same wristband,
    then a passing check, and nothing that ended the binding before the scan. */
module Provenance {
  import opened Core
  import opened RedisStore
  import opened ScanStores
  import opened Gate

  /** What the history alone says about a wristband, expiry aside. */
  datatype Standing = Standing(ticket: TicketId, email: string, until: int, passed: bool)

  function Current(h: seq<Fact>, uid: Uid): Option<Standing> {
    if h == [] then None
    else
      var before := Current(h[..|h| - 1], uid);
      match h[|h| - 1]
      case DidBind(u, ticket, email, until) => if u == uid then Some(Standing(ticket, email, until, false)) else before
      case DidPass(u) => if u == uid && before.Some? then Some(before.value.(passed := true)) else before
      case DidReset(u) => if u == uid then None else before
      case DidScan(_, _, _) => before
  }

  /** The fact starts or ends a binding of the wristband. */
  predicate Changes(f: Fact, uid: Uid) { (f.DidBind? && f.uid == uid) || (f.DidReset? && f.uid == uid) }

  /** The bind at `i` made the standing, and no later fact up to `end` replaced it. */
  ghost predicate BoundAt(h: seq<Fact>, uid: Uid, i: nat, end: nat, ticket: TicketId, email: string, until: int) {
    && i < end <= |h| && h[i] == DidBind(uid, ticket, email, until)
    && forall l :: i < l < end ==> !Changes(h[l], uid)
  }

  ghost predicate PassedBetween(h: seq<Fact>, uid: Uid, i: nat, end: nat) {
    exists j :: i < j < end <= |h| && h[j] == DidPass(uid)
  }

  /** The replayed standing points at the facts that made it. */
  lemma {:induction false} CurrentIsWitnessed(h: seq<Fact>, uid: Uid) returns (i: nat)
    requires Current(h, uid).Some?
    ensures var st := Current(h, uid).value;
            && BoundAt(h, uid, i, |h|, st.ticket, st.email, st.until)
            && (st.passed ==> PassedBetween(h, uid, i, |h|))
    decreases |h|
  {
    var last := |h| - 1;
    var before := h[..last];
    if h[last].DidBind? && h[last].uid == uid {
      i := last;
    } else {
      i := CurrentIsWitnessed(before, uid);
      assert h[i] == before[i];
      forall l | i < l < |h| ensures !Changes(h[l], uid) {
        if l < last { assert h[l] == before[l]; }
      }
      if Current(before, uid).value.passed {
        var j :| i < j < |before| && before[j] == DidPass(uid);
        assert h[j] == DidPass(uid);
      }
      if h[last] == DidPass(uid) { assert PassedBetween(h, uid, i, |h|); }
    }
  }

  /** Redis holds, for every live binding, exactly what the history says. */
  ghost predicate Tracked(s: State) {
    forall uid :: GetBinding(s.redis, uid).Some? ==> TrackedAt(s, uid)
  }

  ghost predicate TrackedAt(s: State, uid: Uid)
    requires GetBinding(s.redis, uid).Some?
  {
    var b := GetBinding(s.redis, uid).value;
    && b.uid == uid && s.redis.fwd[uid].expiry.Some?
    && Current(s.history, uid)
       == Some(Standing(b.ticketId, b.userEmail, s.redis.fwd[uid].expiry.value, b.status == BOUND))
  }

  /** The scan at `k` of the history rests on a bind and a pass before it. */
  ghost predicate Backed(h: seq<Fact>, k: nat)
    requires k < |h| && h[k].DidScan?
  {
    var e := h[k].event;
    exists i, until {:trigger BoundAt(h, h[k].uid, i, k, e.ticketId, e.userId, until)} ::
      && BoundAt(h, h[k].uid, i, k, e.ticketId, e.userId, until)
      && PassedBetween(h, h[k].uid, i, k)
      && h[k].at < until
  }

  ghost predicate AllBacked(h: seq<Fact>) {
    forall k: nat :: k < |h| && h[k].DidScan? ==> Backed(h, k)
  }

  /** Every bind was made with the email of the ticket's owner. */
  ghost predicate OwnersBound(s: State) {
    forall k :: 0 <= k < |s.history| && s.history[k].DidBind? ==>
      s.history[k].ticket in s.tickets && s.tickets[s.history[k].ticket].owner == Some(s.history[k].email)
  }

  /** The events of the history's scans, in order. */
  function ScansOf(h: seq<Fact>): seq<ScanEvent> {
    if h == [] then []
    else ScansOf(h[..|h| - 1]) + if h[|h| - 1].DidScan? then [h[|h| - 1].event] else []
  }

  ghost predicate HistoryOk(s: State) {
    Tracked(s) && AllBacked(s.history) && OwnersBound(s) && s.published == ScansOf(s.history)
  }

  // ---- Preservation ----

  /** A call adds at most one fact, and sells or updates tickets without changing owners. */
  lemma OneFact(c: Config, s: State, call: Call)
    ensures var s' := Step(c, s, call);
            && s.history <= s'.history && |s'.history| <= |s.history| + 1
            && (forall t :: t in s.tickets ==> t in s'.tickets && s'.tickets[t].owner == s.tickets[t].owner)
  {}

  lemma BackedGrows(h: seq<Fact>, h': seq<Fact>)
    requires h <= h' && AllBacked(h)
    ensures forall k: nat :: k < |h| && h'[k].DidScan? ==> Backed(h', k)
  {
    forall k: nat | k < |h| && h'[k].DidScan? ensures Backed(h', k) {
      assert h[k] == h'[k];
      assert Backed(h, k);
      var e := h[k].event;
      var i: nat, until :| BoundAt(h, h[k].uid, i, k, e.ticketId, e.userId, until) && PassedBetween(h, h[k].uid, i, k)
          && h[k].at < until;
      var j: nat :| i < j < k && h[j] == DidPass(h[k].uid);
      assert h'[j] == h[j] && h'[i] == h[i];
      forall l | i < l < k ensures !Changes(h'[l], h[k].uid) { assert h'[l] == h[l]; }
      assert BoundAt(h', h[k].uid, i, k, e.ticketId, e.userId, until);
    }
  }

  /** One more fact moves only its own wristband's standing. */
  lemma CurrentAppend(h: seq<Fact>, f: Fact, uid: Uid)
    ensures Current(h + [f], uid) ==
            match f
            case DidBind(u, ticket, email, until) =>
              if u == uid then Some(Standing(ticket, email, until, false)) else Current(h, uid)
            case DidPass(u) =>
              if u == uid && Current(h, uid).Some? then Some(Current(h, uid).value.(passed := true))
                  else Current(h, uid)
            case DidReset(u) => if u == uid then None else Current(h, uid)
            case DidScan(_, _, _) => Current(h, uid)
  {
    assert (h + [f])[..|h|] == h;
  }

  lemma StandingElsewhere(c: Config, s: State, call: Call, uid: Uid)
    requires (call.CallCheck? || call.CallReset? || call.CallBind?) ==> call.uid != uid
    ensures Current(Step(c, s, call).history, uid) == Current(s.history, uid)
  {
    OneFact(c, s, call);
    var s' := Step(c, s, call);
    if s'.history != s.history {
      var f := s'.history[|s.history|];
      assert s'.history == s.history + [f];
      CurrentAppend(s.history, f, uid);
    }
  }

  /** A bind either leaves the wristband's binding and history alone or writes both. */
  lemma BindWrites(c: Config, s: State, call: Call)
    requires call.CallBind?
    ensures var s' := Step(c, s, call);
            || (s'.history == s.history
               && Get(s'.redis.fwd, call.uid, s'.redis.now) == Get(s.redis.fwd, call.uid, s.redis.now)
                && (Get(s.redis.fwd, call.uid, s.redis.now).Some? ==> s'.redis.fwd[call.uid] == s.redis.fwd[call.uid]))
            || (var email := OwnerEmail(s.tickets, call.ticket);
                && email.Some?
                && s'.history == s.history + [DidBind(call.uid, call.ticket, email.value, call.until)]
                && (GetBinding(s'.redis, call.uid).Some? ==>
                      && s'.redis.fwd[call.uid].expiry == Some(call.until)
                      && GetBinding(s'.redis, call.uid).value.uid == call.uid
                      && GetBinding(s'.redis, call.uid).value.ticketId == call.ticket
                      && GetBinding(s'.redis, call.uid).value.userEmail == email.value
                      && GetBinding(s'.redis, call.uid).value.status == BINDING))
  {}

  lemma TrackedAfterBind(c: Config, s: State, call: Call)
    requires Tracked(s) && call.CallBind? && GetBinding(Step(c, s, call).redis, call.uid).Some?
    ensures TrackedAt(Step(c, s, call), call.uid)
  {
    BindWrites(c, s, call);
    if GetBinding(s.redis, call.uid).Some? { assert TrackedAt(s, call.uid); }
    var email := OwnerEmail(s.tickets, call.ticket);
    if email.Some? { CurrentAppend(s.history, DidBind(call.uid, call.ticket, email.value, call.until), call.uid); }
  }

  lemma TrackedAfterCheck(c: Config, s: State, call: Call)
    requires Tracked(s) && call.CallCheck? && GetBinding(Step(c, s, call).redis, call.uid).Some?
    ensures TrackedAt(Step(c, s, call), call.uid)
  {
    assert GetBinding(s.redis, call.uid).Some?;
    assert TrackedAt(s, call.uid);
    CurrentAppend(s.history, DidPass(call.uid), call.uid);
  }

  lemma TrackedAfterReset(c: Config, s: State, call: Call)
    requires Tracked(s) && call.CallReset? && GetBinding(Step(c, s, call).redis, call.uid).Some?
    ensures TrackedAt(Step(c, s, call), call.uid)
  {
    assert GetBinding(s.redis, call.uid).Some?;
    assert TrackedAt(s, call.uid);
  }

  lemma TrackedStays(c: Config, s: State, call: Call)
    requires Tracked(s)
    ensures Tracked(Step(c, s, call))
  {
    var s' := Step(c, s, call);
    forall uid | GetBinding(s'.redis, uid).Some? ensures TrackedAt(s', uid) {
      if call.CallBind? && call.uid == uid {
        TrackedAfterBind(c, s, call);
      } else if call.CallCheck? && call.uid == uid {
        TrackedAfterCheck(c, s, call);
      } else if call.CallReset? && call.uid == uid {
        TrackedAfterReset(c, s, call);
      } else {
        SameElsewhere(c, s, call, uid);
        StandingElsewhere(c, s, call, uid);
        assert TrackedAt(s, uid);
      }
    }
  }

  /** A scan appended to a history that gives its wristband a standing with a pass,
      not yet expired, is backed. */
  lemma NewScanBacked(h: seq<Fact>, uid: Uid, e: ScanEvent, at: int)
    requires AllBacked(h) && Current(h, uid).Some?
    requires var st := Current(h, uid).value;
             st.passed && st.ticket == e.ticketId && st.email == e.userId && at < st.until
    ensures AllBacked(h + [DidScan(uid, e, at)])
  {
    var h', k := h + [DidScan(uid, e, at)], |h|;
    BackedGrows(h, h');
    var st := Current(h, uid).value;
    var i := CurrentIsWitnessed(h, uid);
    var j :| i < j < k && h[j] == DidPass(uid);
    assert h'[j] == h[j] && h'[i] == h[i];
    forall l | i < l < k ensures !Changes(h'[l], uid) { assert h'[l] == h[l]; }
    assert BoundAt(h', uid, i, k, st.ticket, st.email, st.until);
    assert PassedBetween(h', uid, i, k);
  }

  /** A scan is the only call that adds a scan, and then from a live BOUND binding. */
  lemma ScanReads(c: Config, s: State, call: Call)
    ensures var h' := Step(c, s, call).history;
            || (|h'| == |s.history| + 1 && h'[..|s.history|] == s.history && !h'[|s.history|].DidScan?)
            || h' == s.history
            || (call.CallScan? && GetBinding(s.redis, call.uid).Some?
                && var b := GetBinding(s.redis, call.uid).value;
                   b.status == BOUND
                   && h' == s.history + [DidScan(call.uid,
                      ScanEvent(b.userEmail, call.ride, s.redis.now, call.trace, b.ticketId), s.redis.now)])
  {}

  /** A scan is only ever published from a binding the history backs. */
  lemma ScanIsBacked(c: Config, s: State, call: Call)
    requires Tracked(s) && AllBacked(s.history)
    ensures AllBacked(Step(c, s, call).history)
  {
    var h' := Step(c, s, call).history;
    ScanReads(c, s, call);
    if |h'| == |s.history| + 1 && !h'[|s.history|].DidScan? {
      assert s.history <= h';
      BackedGrows(s.history, h');
    } else if h' != s.history {
      var b := GetBinding(s.redis, call.uid).value;
      assert TrackedAt(s, call.uid);
      NewScanBacked(s.history, call.uid, ScanEvent(b.userEmail, call.ride, s.redis.now, call.trace, b.ticketId),
          s.redis.now);
    }
  }

  /** A new bind names the owner's email; a new scan is what was published. */
  lemma NewFact(c: Config, s: State, call: Call)
    ensures var s', k := Step(c, s, call), |s.history|;
            && (|s'.history| == k ==> s'.published == s.published)
            && (|s'.history| > k && s'.history[k].DidBind? ==>
                  && s'.history[k].ticket in s.tickets
                  && s.tickets[s'.history[k].ticket].owner == Some(s'.history[k].email))
            && (|s'.history| > k ==>
                  s'.published == s.published + if s'.history[k].DidScan? then [s'.history[k].event] else [])
  {}

  lemma OwnersStay(c: Config, s: State, call: Call)
    requires OwnersBound(s)
    ensures OwnersBound(Step(c, s, call))
  {
    var s' := Step(c, s, call);
    OneFact(c, s, call);
    NewFact(c, s, call);
    forall k | 0 <= k < |s'.history| && s'.history[k].DidBind?
      ensures s'.history[k].ticket in s'.tickets && s'.tickets[s'.history[k].ticket].owner == Some(s'.history[k].email)
    {
      if k < |s.history| { assert s'.history[k] == s.history[k]; }
    }
  }

  lemma ScansStay(c: Config, s: State, call: Call)
    requires s.published == ScansOf(s.history)
    ensures Step(c, s, call).published == ScansOf(Step(c, s, call).history)
  {
    var h, h' := s.history, Step(c, s, call).history;
    OneFact(c, s, call);
    NewFact(c, s, call);
    if h' == h {} else { assert h'[..|h'| - 1] == h; }
  }

  lemma {:induction false} RunKeepsHistory(c: Config, s: State, calls: seq<Call>)
    requires HistoryOk(s)
    ensures HistoryOk(Run(c, s, calls))
    decreases |calls|
  {
    if calls != [] {
      TrackedStays(c, s, calls[0]);
      ScanIsBacked(c, s, calls[0]);
      OwnersStay(c, s, calls[0]);
      ScansStay(c, s, calls[0]);
      RunKeepsHistory(c, Step(c, s, calls[0]), calls[1..]);
    }
  }

  lemma {:induction false} ScanHasFact(h: seq<Fact>, e: ScanEvent) returns (k: nat)
    requires e in ScansOf(h)
    ensures k < |h| && h[k].DidScan? && h[k].event == e
    decreases |h|
  {
    var last := |h| - 1;
    if h[last].DidScan? && h[last].event == e {
      k := last;
    } else {
      k := ScanHasFact(h[..last], e);
    }
  }

  /** The event was published at `k` for a wristband bound at `i` to this ticket
      by its owner, passed after that, and neither reset, re-bound nor expired since. */
  ghost predicate Justified(s: State, e: ScanEvent, k: nat) {
    && k < |s.history| && s.history[k].DidScan? && s.history[k].event == e
    && Backed(s.history, k)
    && e.ticketId in s.tickets && s.tickets[e.ticketId].owner == Some(e.userId)
  }

  /** Every event ever published is justified, whatever calls failed along the way. */
  lemma EveryScanIsJustified(c: Config, now: int, calls: seq<Call>, e: ScanEvent)
    requires e in Run(c, Opening(now), calls).published
    ensures exists k :: Justified(Run(c, Opening(now), calls), e, k)
  {
    RunKeepsHistory(c, Opening(now), calls);
    var s := Run(c, Opening(now), calls);
    var k := ScanHasFact(s.history, e);
    assert Backed(s.history, k);
    var i: nat, until :| BoundAt(s.history, s.history[k].uid, i, k, e.ticketId, e.userId, until)
                    && PassedBetween(s.history, s.history[k].uid, i, k) && s.history[k].at < until;
    assert s.history[i].DidBind?;
    assert Justified(s, e, k);
  }
}
