/** The rotating QR token: its signed payload and its check. HMAC (section 2 of
    RFC 2104) is taken as ideal: a signature is known only for a payload that the
    gate has signed, and it signs nothing else. */
module QrToken {
  import opened Decimals

  datatype Signature = Signed(payload: string)

  datatype Token = Token(ticketId: string, uuid: string, timestamp: int, signature: Signature)

  const BAR := '|'

  // ---- The payload ----

  function Payload(ticketId: string, uuid: string, timestamp: int): string {
    ticketId + [BAR] + uuid + [BAR] + Decimal(timestamp)
  }

  /** The last bar of a string splits it one way only. */
  lemma SplitAtLast(a: string, x: string, b: string, y: string)
    requires a + [BAR] + x == b + [BAR] + y && BAR !in x && BAR !in y
    ensures a == b && x == y
  {
    var s := a + [BAR] + x;
    assert s[|a|] == BAR && s[|b|] == BAR;
    assert forall i | |a| < i < |s| :: s[i] == x[i - |a| - 1];
    assert forall i | |b| < i < |s| :: s[i] == y[i - |b| - 1];
    assert |a| == |b|;
    assert a == s[..|a|] && b == s[..|b|];
    assert x == s[|a| + 1..] && y == s[|b| + 1..];
  }

  /** A string with one bar splits one way only. */
  lemma SplitAtOnly(a: string, x: string, b: string, y: string)
    requires a + [BAR] + x == b + [BAR] + y && BAR !in a && BAR !in x
    ensures a == b && x == y
  {
    var s := a + [BAR] + x;
    assert s[|b|] == BAR;
    assert forall i | |a| < i < |s| :: s[i] == x[i - |a| - 1];
    assert forall i | 0 <= i < |a| :: s[i] == a[i];
    assert |a| == |b|;
    assert a == s[..|a|] && b == s[..|b|];
    assert x == s[|a| + 1..] && y == s[|b| + 1..];
  }

  lemma PayloadInjective(t: string, u: string, n: int, t': string, u': string, n': int)
    requires BAR !in t && BAR !in u
    requires Payload(t, u, n) == Payload(t', u', n')
    ensures t == t' && u == u' && n == n'
  {
    DecimalInjective(n, n');
    DecimalInjective(n', n);
    assert Payload(t, u, n) == (t + [BAR] + u) + [BAR] + Decimal(n);
    assert Payload(t', u', n') == (t' + [BAR] + u') + [BAR] + Decimal(n');
    SplitAtLast(t + [BAR] + u, Decimal(n), t' + [BAR] + u', Decimal(n'));
    SplitAtOnly(t, u, t', u');
  }

  /** No other fields render to the same payload. */
  ghost predicate Unambiguous(t: string, u: string, n: int) {
    forall t', u', n' :: Payload(t', u', n') == Payload(t, u, n) ==> t' == t && u' == u && n' == n
  }

  /** A bar in an id lets the same payload be read as another pair of ids. */
  lemma Retarget(t: string, u: string, n: int) returns (t': string, u': string)
    requires BAR in t || BAR in u
    ensures t' != t && Payload(t', u', n) == Payload(t, u, n)
  {
    if BAR in t {
      var i :| 0 <= i < |t| && t[i] == BAR;
      t', u' := t[..i], t[i + 1..] + [BAR] + u;
      assert t == t[..i] + [BAR] + t[i + 1..];
    } else {
      var i :| 0 <= i < |u| && u[i] == BAR;
      t', u' := t + [BAR] + u[..i], u[i + 1..];
      assert u == u[..i] + [BAR] + u[i + 1..];
    }
    assert t' + [BAR] + u' == t + [BAR] + u;
  }

  /** A signed token cannot be re-targeted exactly when neither id contains a bar. */
  lemma RetargetExact(t: string, u: string, n: int)
    ensures Unambiguous(t, u, n) <==> BAR !in t && BAR !in u
  {
    if BAR !in t && BAR !in u {
      forall t', u', n' | Payload(t', u', n') == Payload(t, u, n) ensures t' == t && u' == u && n' == n {
        PayloadInjective(t, u, n, t', u', n');
      }
    } else {
      var t', u' := Retarget(t, u, n);
    }
  }

  // ---- Issue and check ----

  function Generate(ticketId: string, uuid: string, nowSec: int): Token {
    Token(ticketId, uuid, nowSec, Signed(Payload(ticketId, uuid, nowSec)))
  }

  /** The signature fits the fields and the token is at most `rotation` seconds away from now. */
  predicate Verify(t: Token, nowSec: int, rotation: nat) {
    var age := nowSec - t.timestamp;
    && t.signature == Signed(Payload(t.ticketId, t.uuid, t.timestamp))
    && (if age < 0 then -age else age) <= rotation
  }

  /** An issued token verifies while the clock is within the rotation of its
      stamp, on either side, and at no other time. */
  lemma GenerateThenVerify(ticketId: string, uuid: string, issued: int, now: int, rotation: nat)
    ensures Verify(Generate(ticketId, uuid, issued), now, rotation) <==> issued - rotation <= now <= issued + rotation
  {}

  /** With bar-free ids nothing but the token itself verifies with its signature. */
  lemma OnlyTheTokenVerifies(t: Token, presented: Token, now: int, rotation: nat)
    requires t == Generate(t.ticketId, t.uuid, t.timestamp) && BAR !in t.ticketId && BAR !in t.uuid
    requires presented.signature == t.signature && Verify(presented, now, rotation)
    ensures presented == t
  {
    PayloadInjective(t.ticketId, t.uuid, t.timestamp, presented.ticketId, presented.uuid, presented.timestamp);
  }
}
