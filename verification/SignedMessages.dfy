/**
 The byte strings a paired device signs: its answer to a push challenge, and the replacement of
 its push target. Equal messages mean equal contents, and no message of one kind is ever one of
 the other.
*/
module SignedMessages {
  import opened Common

  // ---- decimal numbers ----------------------------------------------------------------------

  function Digit(d: nat): (c: char)
    requires d < 10
  {
    "0123456789"[d]
  }

  function Decimal(n: nat): string {
    if n < 10 then [Digit(n)] else Decimal(n / 10) + [Digit(n % 10)]
  }

  function FormatInt(n: int): string {
    if n < 0 then "-" + Decimal(-n) else Decimal(n)
  }

  function DigitValue(c: char): nat {
    if '0' <= c <= '9' then (c as int) - ('0' as int) else 0
  }

  function Value(s: string): nat {
    if s == "" then 0 else 10 * Value(s[..|s| - 1]) + DigitValue(s[|s| - 1])
  }

  predicate IsDigits(s: string) {
    s != "" && forall i :: 0 <= i < |s| ==> '0' <= s[i] <= '9'
  }

  lemma {:induction false} DecimalRoundTrip(n: nat)
    ensures Value(Decimal(n)) == n && IsDigits(Decimal(n))
  {
    if n >= 10 {
      DecimalRoundTrip(n / 10);
      var s := Decimal(n);
      assert s[..|s| - 1] == Decimal(n / 10);
    } else {
      assert Decimal(n)[..0] == "";
    }
  }

  lemma FormatIntInjective(m: int, n: int)
    requires FormatInt(m) == FormatInt(n)
    ensures m == n
  {
    var p, q := if m < 0 then -m else m, if n < 0 then -n else n;
    DecimalRoundTrip(p);
    DecimalRoundTrip(q);
    assert m < 0 <==> FormatInt(m)[0] == '-';
    assert n < 0 <==> FormatInt(n)[0] == '-';
    assert Decimal(p) == if m < 0 then FormatInt(m)[1..] else FormatInt(m);
    assert Decimal(q) == if n < 0 then FormatInt(n)[1..] else FormatInt(n);
  }

  lemma FormatIntIsField(n: int)
    ensures IsField(FormatInt(n))
  {
    DecimalRoundTrip(if n < 0 then -n else n);
  }

  // ---- fields joined by a bar ----------------------------------------------------------------

  predicate IsField(s: string) {
    '|' !in s
  }

  function Join(fields: seq<string>): string {
    if fields == [] then ""
    else if |fields| == 1 then fields[0]
    else fields[0] + "|" + Join(fields[1..])
  }

  predicate AllFields(fields: seq<string>) {
    forall i :: 0 <= i < |fields| ==> IsField(fields[i])
  }

  function BarIndex(s: string): nat {
    if s == "" || s[0] == '|' then 0 else 1 + BarIndex(s[1..])
  }

  lemma {:induction false} FieldEndsAtBar(a: string, x: string)
    requires IsField(a)
    ensures BarIndex(a + "|" + x) == |a|
  {
    if a != "" {
      FieldEndsAtBar(a[1..], x);
      assert (a + "|" + x)[1..] == a[1..] + "|" + x;
    }
  }

  /** Two strings cut at their first bar agree on what precedes and what follows it. */
  lemma FirstBar(a: string, b: string, x: string, y: string)
    requires IsField(a) && IsField(b) && a + "|" + x == b + "|" + y
    ensures a == b && x == y
  {
    FieldEndsAtBar(a, x);
    FieldEndsAtBar(b, y);
    var s := a + "|" + x;
    assert a == s[..|a|] && b == s[..|b|];
    assert x == s[|a| + 1..] && y == s[|b| + 1..];
  }

  lemma JoinHasBar(fields: seq<string>)
    requires |fields| > 1
    ensures '|' in Join(fields)
  {
    assert Join(fields)[|fields[0]|] == '|';
  }

  lemma {:induction false} JoinInjective(xs: seq<string>, ys: seq<string>)
    requires AllFields(xs) && AllFields(ys) && xs != [] && ys != []
    requires Join(xs) == Join(ys)
    ensures xs == ys
    decreases |xs|
  {
    if |xs| == 1 || |ys| == 1 {
      if |xs| > 1 {
        JoinHasBar(xs);
      }
      if |ys| > 1 {
        JoinHasBar(ys);
      }
      assert |xs| == |ys| == 1;
    } else {
      FirstBar(xs[0], ys[0], Join(xs[1..]), Join(ys[1..]));
      JoinInjective(xs[1..], ys[1..]);
      assert xs == [xs[0]] + xs[1..] && ys == [ys[0]] + ys[1..];
    }
  }

  // ---- the two messages -----------------------------------------------------------------------

  datatype PushBinding = PushBinding(
    origin: string,
    userId: string,
    deviceId: string,
    challengeId: string,
    purpose: string,
    expiresAtMs: int)

  const PUSH_TAG := "kyidentity-push-v2"
  const TOKEN_TAG := "kyidentity-push-token-v2"

  predicate BoundField(s: string) {
    s != "" && IsField(s)
  }

  predicate ValidBinding(b: PushBinding) {
    && (b.purpose == "login" || b.purpose == "step_up")
    && BoundField(b.origin) && BoundField(b.userId) && BoundField(b.deviceId) && BoundField(b.challengeId)
  }

  function ResponseFields(b: PushBinding, approve: bool, selectedDigits: string): seq<string> {
    [PUSH_TAG, b.origin, b.userId, b.deviceId, b.challengeId, b.purpose, FormatInt(b.expiresAtMs),
     if approve then "approve" else "deny", selectedDigits]
  }

  /** What a device signs to answer a challenge; None where the source refuses to build it. */
  function PushResponseMessage(b: PushBinding, approve: bool, selectedDigits: string): Option<string> {
    if ValidBinding(b) && IsField(selectedDigits) then Some(Join(ResponseFields(b, approve, selectedDigits)))
    else None
  }

  datatype PushTarget = PushTarget(
    origin: string,
    deviceId: string,
    issuedAtMs: int,
    transport: string,
    pushToken: string,
    p256dh: string,
    auth: string)

  predicate ValidTarget(t: PushTarget) {
    && BoundField(t.origin) && BoundField(t.deviceId) && BoundField(t.transport)
    && IsField(t.p256dh) && IsField(t.auth)
  }

  function TargetFields(t: PushTarget, hash: string -> string): seq<string> {
    [TOKEN_TAG, t.origin, t.deviceId, FormatInt(t.issuedAtMs), t.transport, hash(t.pushToken), t.p256dh, t.auth]
  }

  function PushTokenRefreshMessage(t: PushTarget, hash: string -> string): Option<string> {
    if ValidTarget(t) then Some(Join(TargetFields(t, hash))) else None
  }

  /** A collision-free hash whose output is hexadecimal, so never holds a bar. */
  ghost predicate GoodHash(hash: string -> string) {
    && (forall x, y :: hash(x) == hash(y) ==> x == y)
    && (forall x :: IsField(hash(x)))
  }

  lemma ResponseFieldsAreFields(b: PushBinding, approve: bool, selectedDigits: string)
    requires PushResponseMessage(b, approve, selectedDigits).Some?
    ensures AllFields(ResponseFields(b, approve, selectedDigits))
  {
    FormatIntIsField(b.expiresAtMs);
  }

  lemma TargetFieldsAreFields(t: PushTarget, hash: string -> string)
    requires GoodHash(hash) && ValidTarget(t)
    ensures AllFields(TargetFields(t, hash))
  {
    FormatIntIsField(t.issuedAtMs);
  }

  /** A response message spelled out: what is joined, in which order, and what refuses it. */
  lemma PushResponseSpelledOut(b: PushBinding, approve: bool, digits: string)
    ensures PushResponseMessage(b, approve, digits).Some? <==>
            && (b.purpose == "login" || b.purpose == "step_up")
            && b.origin != "" && b.userId != "" && b.deviceId != "" && b.challengeId != ""
            && '|' !in b.origin + b.userId + b.deviceId + b.challengeId + digits
    ensures PushResponseMessage(b, approve, digits).Some? ==>
              PushResponseMessage(b, approve, digits).value ==
              "kyidentity-push-v2" + "|" + (b.origin + "|" + (b.userId + "|" + (b.deviceId + "|" +
              (b.challengeId + "|" + (b.purpose + "|" + (FormatInt(b.expiresAtMs) + "|" +
              ((if approve then "approve" else "deny") + "|" + digits)))))))
  {
    var xs := ResponseFields(b, approve, digits);
    JoinsAre(xs, xs[1..]);
    JoinsAre(xs[1..], xs[2..]);
    JoinsAre(xs[2..], xs[3..]);
    JoinsAre(xs[3..], xs[4..]);
    JoinsAre(xs[4..], xs[5..]);
    JoinsAre(xs[5..], xs[6..]);
    JoinsAre(xs[6..], xs[7..]);
    JoinsAre(xs[7..], xs[8..]);
  }

  /** And a refresh message, the new target standing in it by its hash. */
  lemma PushTokenRefreshSpelledOut(t: PushTarget, hash: string -> string)
    ensures PushTokenRefreshMessage(t, hash).Some? <==>
            && t.origin != "" && t.deviceId != "" && t.transport != ""
            && '|' !in t.origin + t.deviceId + t.transport + t.p256dh + t.auth
    ensures PushTokenRefreshMessage(t, hash).Some? ==>
              PushTokenRefreshMessage(t, hash).value ==
              "kyidentity-push-token-v2" + "|" + (t.origin + "|" + (t.deviceId + "|" + (FormatInt(t.issuedAtMs) + "|" +
              (t.transport + "|" + (hash(t.pushToken) + "|" + (t.p256dh + "|" + t.auth))))))
  {
    var xs := TargetFields(t, hash);
    JoinsAre(xs, xs[1..]);
    JoinsAre(xs[1..], xs[2..]);
    JoinsAre(xs[2..], xs[3..]);
    JoinsAre(xs[3..], xs[4..]);
    JoinsAre(xs[4..], xs[5..]);
    JoinsAre(xs[5..], xs[6..]);
    JoinsAre(xs[6..], xs[7..]);
  }

  lemma JoinsAre(xs: seq<string>, rest: seq<string>)
    requires |xs| > 1 && rest == xs[1..]
    ensures Join(xs) == xs[0] + "|" + Join(rest)
    ensures |rest| == 1 ==> Join(rest) == xs[1]
  {
  }

  /** One signature states one server, account, device, challenge, purpose, deadline, verdict and number. */
  lemma PushResponseInjective(b: PushBinding, c: PushBinding, approve: bool, accept: bool, digits: string,
                              number: string)
    requires PushResponseMessage(b, approve, digits).Some?
    requires PushResponseMessage(b, approve, digits) == PushResponseMessage(c, accept, number)
    ensures b == c && approve == accept && digits == number
  {
    var xs, ys := ResponseFields(b, approve, digits), ResponseFields(c, accept, number);
    ResponseFieldsAreFields(b, approve, digits);
    ResponseFieldsAreFields(c, accept, number);
    JoinInjective(xs, ys);
    assert xs[1] == ys[1] && xs[2] == ys[2] && xs[3] == ys[3] && xs[4] == ys[4];
    assert xs[5] == ys[5] && xs[6] == ys[6] && xs[7] == ys[7] && xs[8] == ys[8];
    FormatIntInjective(b.expiresAtMs, c.expiresAtMs);
    assert "approve"[0] != "deny"[0];
  }

  lemma PushTokenRefreshInjective(t: PushTarget, u: PushTarget, hash: string -> string)
    requires GoodHash(hash) && PushTokenRefreshMessage(t, hash).Some?
    requires PushTokenRefreshMessage(t, hash) == PushTokenRefreshMessage(u, hash)
    ensures t == u
  {
    var xs, ys := TargetFields(t, hash), TargetFields(u, hash);
    TargetFieldsAreFields(t, hash);
    TargetFieldsAreFields(u, hash);
    JoinInjective(xs, ys);
    assert xs[1] == ys[1] && xs[2] == ys[2] && xs[3] == ys[3] && xs[4] == ys[4];
    assert xs[5] == ys[5] && xs[6] == ys[6] && xs[7] == ys[7];
    FormatIntInjective(t.issuedAtMs, u.issuedAtMs);
  }

  /** A signature given for one purpose can never be replayed for the other. */
  lemma MessagesAreSeparated(b: PushBinding, approve: bool, digits: string, t: PushTarget, hash: string -> string)
    requires GoodHash(hash) && PushResponseMessage(b, approve, digits).Some?
    ensures PushResponseMessage(b, approve, digits) != PushTokenRefreshMessage(t, hash)
  {
    if PushResponseMessage(b, approve, digits) == PushTokenRefreshMessage(t, hash) {
      ResponseFieldsAreFields(b, approve, digits);
      TargetFieldsAreFields(t, hash);
      JoinInjective(ResponseFields(b, approve, digits), TargetFields(t, hash));
    }
  }
}
