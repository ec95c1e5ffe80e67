/**
 Signing in with a device's own signed assertion (RFC 7523): which assertions are taken, what is
 remembered so that one is taken once, and how long the token that comes back may live.
*/
module DeviceAssertion {
  import opened Common

  type Jti = string

  /** Times are in nanoseconds; an assertion carries whole seconds. */
  type Time = int

  const SECOND: int := 1_000_000_000
  const SKEW: int := 60 * SECOND
  const MAX_WINDOW: int := 300 * SECOND
  const TOKEN_TTL: int := 900 * SECOND

  function Seconds(n: int): Time {
    n * SECOND
  }

  datatype Assertion = Assertion(jti: Jti, clientId: string, issuedAt: int, expiresAt: int)

  /** The claims' times against the server's clock, with a minute of tolerance either way. */
  predicate Timely(a: Assertion, now: Time) {
    now < Seconds(a.expiresAt) + SKEW && now >= Seconds(a.issuedAt) - SKEW
  }

  predicate WindowValid(a: Assertion) {
    a.issuedAt < a.expiresAt && Seconds(a.expiresAt) - Seconds(a.issuedAt) <= MAX_WINDOW
  }

  /** How long the assertion's id is remembered. */
  function RememberUntil(a: Assertion): Time {
    Seconds(a.expiresAt) + SKEW
  }

  // ---- what an application asks of a sign-in ------------------------------------------------------------

  datatype Evidence = Evidence(primaryAt: Option<Time>, factorAt: Option<Time>, factorMethod: string)

  datatype Policy = Policy(mode: string, primaryMaxAge: int, factor: string, factorMaxAge: int)

  predicate ValidPolicy(p: Policy) {
    && p.mode in ["reuse", "fresh", "max_age"] && p.factor in ["password", "mfa", "passkey"]
    && p.primaryMaxAge >= 0 && p.factorMaxAge >= 0
    && (p.mode == "max_age" <==> p.primaryMaxAge > 0)
    && (p.factor == "password" ==> p.factorMaxAge == 0)
  }

  /** The evidence satisfies the policy at this moment. */
  predicate Proves(p: Policy, e: Evidence, now: Time) {
    && (p.mode != "reuse" || p.factor != "password" ==> e.primaryAt.Some? && e.primaryAt.value <= now)
    && (p.mode == "max_age" ==> e.primaryAt.Some? && now <= e.primaryAt.value + Seconds(p.primaryMaxAge))
    && (p.factor != "password" ==>
          && e.factorAt.Some? && e.factorAt.value <= now
          && (p.factor == "passkey" ==> e.factorMethod == "webauthn")
          && e.factorMethod in ["totp", "push", "webauthn"]
          && (p.factorMaxAge > 0 ==> now <= e.factorAt.value + Seconds(p.factorMaxAge)))
  }

  function Earlier(a: Option<Time>, b: Option<Time>): Option<Time> {
    if a.Some? && b.Some? then (if b.value < a.value then b else a) else if a.Some? then a else b
  }

  function Deadline(p: Policy, e: Evidence): Option<Time> {
    var primary := if p.mode == "max_age" && e.primaryAt.Some?
                   then Some(e.primaryAt.value + Seconds(p.primaryMaxAge)) else None;
    var factor := if p.factorMaxAge > 0 && e.factorAt.Some?
                  then Some(e.factorAt.value + Seconds(p.factorMaxAge)) else None;
    Earlier(primary, factor)
  }

  /** Evidence that is good now stays good exactly through the policy's deadline. */
  lemma GoodUntilDeadline(p: Policy, e: Evidence, now: Time, later: Time)
    requires ValidPolicy(p) && Proves(p, e, now) && now <= later
    ensures Proves(p, e, later) <==> (Deadline(p, e).Some? ==> later <= Deadline(p, e).value)
  {
  }

  // ---- the exchange --------------------------------------------------------------------------------------

  datatype Refusal = BadTimes | WrongClient | BadWindow | SignOnDisabled | UnknownClient | UnregisteredOrigin
                   | Replayed | UserInactive | NoOpenIdScope | PolicyUnmet | NotRecorded

  datatype Device = Device(canSignOn: bool, approver: bool, attested: bool)

  /**
   What the tables say about the parties when the exchange reads them; the end of access is a column
   of whole seconds. `stillTrue` is what the last transaction finds: nothing the decision rested on
   has changed since.
  */
  datatype Facts = Facts(
    device: Device,
    clientEnabled: bool,
    originRegistered: bool,
    userActive: bool,
    openIdGranted: bool,
    policy: Policy,
    accessEndS: Option<int>,
    stillTrue: bool)

  datatype Token = Token(expiresAt: Time, evidence: Evidence)

  function EvidenceAt(a: Assertion, now: Time): Time {
    if Seconds(a.issuedAt) > now then now else Seconds(a.issuedAt)
  }

  function EvidenceOf(a: Assertion, attested: bool, now: Time): Evidence {
    var at := Some(EvidenceAt(a, now));
    if attested then Evidence(at, at, "push") else Evidence(at, None, "")
  }

  /** What is checked before the assertion's id is spent. */
  predicate Admissible(a: Assertion, clientId: string, f: Facts, now: Time) {
    && Timely(a, now) && a.clientId == clientId && WindowValid(a)
    && f.device.canSignOn && f.device.approver && f.clientEnabled && f.originRegistered
  }

  function AccessEnd(f: Facts): Option<Time> {
    if f.accessEndS.Some? then Some(Seconds(f.accessEndS.value)) else None
  }

  /** The least of the token's own life, the end of access and the policy's deadline. */
  function TokenEnd(f: Facts, e: Evidence, now: Time): Time {
    Earlier(Earlier(Some(now + TOKEN_TTL), AccessEnd(f)), Deadline(f.policy, e)).value
  }

  predicate Grantable(a: Assertion, f: Facts, now: Time) {
    var e := EvidenceOf(a, f.device.attested, now);
    && f.userActive && f.openIdGranted
    && ValidPolicy(f.policy) && (f.device.attested || f.policy.mode == "reuse") && Proves(f.policy, e, now)
    && TokenEnd(f, e, now) > now
  }

  /** The table of spent assertion ids, each with the time until which it is kept. */
  type Spent = map<Jti, Time>

  predicate Fresh(spent: Spent, jti: Jti, at: Time) {
    !(jti in spent && spent[jti] >= at)
  }

  function Unexpired(spent: Spent, at: Time): Spent {
    map j | j in spent && spent[j] >= at :: spent[j]
  }

  function AfterUse(spent: Spent, jti: Jti, until: Time, at: Time): Spent {
    var kept := Unexpired(spent, at);
    if jti in kept then kept else kept[jti := until]
  }

  /** One exchange: what is presented and read, when it began, and when it reaches the table of ids. */
  datatype Attempt = Attempt(a: Assertion, clientId: string, f: Facts, now: Time, at: Time)

  /** It gets as far as spending the id. */
  predicate Reaches(x: Attempt) {
    Admissible(x.a, x.clientId, x.f, x.now)
  }

  predicate Succeeds(spent: Spent, x: Attempt) {
    Reaches(x) && Fresh(spent, x.a.jti, x.at) && Grantable(x.a, x.f, x.now) && x.f.stillTrue
  }

  function AfterAttempt(spent: Spent, x: Attempt): Spent {
    if Reaches(x) then AfterUse(spent, x.a.jti, RememberUntil(x.a), x.at) else spent
  }

  // ---- the same decisions by the columns alone ------------------------------------------------------------

  /** The first check before the table that fails, if any does. */
  predicate AcceptedWith(a: Assertion, clientId: string, f: Facts, now: Time, refusal: Option<Refusal>) {
    refusal ==
    if now >= Seconds(a.expiresAt + 60) || now < Seconds(a.issuedAt - 60) then Some(BadTimes)
    else if a.clientId != clientId then Some(WrongClient)
    else if a.expiresAt <= a.issuedAt || a.expiresAt > a.issuedAt + 300 then Some(BadWindow)
    else if !f.device.canSignOn || !f.device.approver then Some(SignOnDisabled)
    else if !f.clientEnabled then Some(UnknownClient)
    else if !f.originRegistered then Some(UnregisteredOrigin)
    else None
  }

  /**
   A device meets a well-formed policy, and will for a while: an attested one earns a push factor, which is
   no passkey, as old as the assertion; another proves no factor and serves only applications that reuse
   a sign-in. Access must not have ended.
  */
  predicate PolicyMet(f: Facts, authAt: Time, now: Time) {
    var p := f.policy;
    && p.mode in {"reuse", "fresh", "max_age"} && p.factor in {"password", "mfa", "passkey"}
    && p.primaryMaxAge >= 0 && p.factorMaxAge >= 0 && (p.mode == "max_age" <==> p.primaryMaxAge > 0)
    && (p.factor == "password" ==> p.factorMaxAge == 0)
    && (if f.device.attested then
          && p.factor != "passkey"
          && (p.primaryMaxAge > 0 ==> now < authAt + Seconds(p.primaryMaxAge))
          && (p.factorMaxAge > 0 ==> now < authAt + Seconds(p.factorMaxAge))
        else p.mode == "reuse" && p.factor == "password")
    && (f.accessEndS.Some? ==> now < Seconds(f.accessEndS.value))
  }

  /** `end` is the first of a quarter of an hour from now, the end of access and the ages the policy allows. */
  predicate EndsFirst(f: Facts, authAt: Time, now: Time, end: Time) {
    var p := f.policy;
    && end <= now + Seconds(900)
    && (f.accessEndS.Some? ==> end <= Seconds(f.accessEndS.value))
    && (p.primaryMaxAge > 0 ==> end <= authAt + Seconds(p.primaryMaxAge))
    && (p.factorMaxAge > 0 ==> end <= authAt + Seconds(p.factorMaxAge))
    && (|| end == now + Seconds(900)
        || (f.accessEndS.Some? && end == Seconds(f.accessEndS.value))
        || (p.primaryMaxAge > 0 && end == authAt + Seconds(p.primaryMaxAge))
        || (p.factorMaxAge > 0 && end == authAt + Seconds(p.factorMaxAge)))
  }

  lemma GrantableByTheColumns(a: Assertion, f: Facts, now: Time)
    ensures var authAt := if Seconds(a.issuedAt) > now then now else Seconds(a.issuedAt);
      && (Grantable(a, f, now) <==> f.userActive && f.openIdGranted && PolicyMet(f, authAt, now))
      && (Grantable(a, f, now) ==> EndsFirst(f, authAt, now, TokenEnd(f, EvidenceOf(a, f.device.attested, now), now)))
  {
  }

  class SignOn {
    var spent: Spent

    constructor ()
      ensures spent == map[]
    {
      spent := map[];
    }

    /** Sweeps what has expired, then inserts unless the id is still there. */
    method ConsumeJti(jti: Jti, until: Time, at: Time) returns (first: bool)
      modifies this
      ensures first <==> Fresh(old(spent), jti, at)
      ensures spent == AfterUse(old(spent), jti, until, at)
      ensures first <==> (jti in old(spent) ==> old(spent)[jti] < at)
      ensures jti in spent && spent[jti] == if first then until else old(spent)[jti]
      ensures forall j :: j != jti ==> (j in spent <==> j in old(spent) && at <= old(spent)[j])
      ensures forall j :: j in spent && j != jti ==> spent[j] == old(spent)[j]
    {
      spent := map j | j in spent && spent[j] >= at :: spent[j];
      first := jti !in spent;
      if first {
        spent := spent[jti := until];
      }
    }

    /**
     One exchange: `now` is read once at the start, `at` when the id is spent. A refusal before that
     point leaves the id usable; one after it does not give it back.
    */
    method Exchange(a: Assertion, clientId: string, f: Facts, now: Time, at: Time) returns (r: Result<Token, Refusal>)
      modifies this
      ensures r.Ok? <==> Succeeds(old(spent), Attempt(a, clientId, f, now, at))
      ensures r.Ok? ==>
                var e := EvidenceOf(a, f.device.attested, now);
                r.value == Token(TokenEnd(f, e, now), e)
      ensures spent == AfterAttempt(old(spent), Attempt(a, clientId, f, now, at))
      ensures r == Err(Replayed) <==> Admissible(a, clientId, f, now) && !Fresh(old(spent), a.jti, at)
      ensures r.Err? && !AcceptedWith(a, clientId, f, now, None) ==> AcceptedWith(a, clientId, f, now, Some(r.error))
      ensures !AcceptedWith(a, clientId, f, now, None) ==> r.Err? && spent == old(spent)
      ensures AcceptedWith(a, clientId, f, now, None) ==>
                && (r == Err(Replayed) <==> a.jti in old(spent) && at <= old(spent)[a.jti])
                && (r != Err(Replayed) ==> a.jti in spent && spent[a.jti] == Seconds(a.expiresAt + 60))
    {
      if !Timely(a, now) {
        return Err(BadTimes);
      }
      if a.clientId != clientId {
        return Err(WrongClient);
      }
      if !WindowValid(a) {
        return Err(BadWindow);
      }
      if !f.device.canSignOn || !f.device.approver {
        return Err(SignOnDisabled);
      }
      if !f.clientEnabled {
        return Err(UnknownClient);
      }
      if !f.originRegistered {
        return Err(UnregisteredOrigin);
      }
      var first := ConsumeJti(a.jti, Seconds(a.expiresAt) + SKEW, at);
      if !first {
        return Err(Replayed);
      }
      r := Issue(a, f, now);
    }

    /** What is decided once the id is spent: a token within every bound, or the first refusal. */
    method Issue(a: Assertion, f: Facts, now: Time) returns (r: Result<Token, Refusal>)
      ensures r.Ok? <==> Grantable(a, f, now) && f.stillTrue
      ensures r.Ok? ==>
                var e := EvidenceOf(a, f.device.attested, now);
                r.value == Token(TokenEnd(f, e, now), e)
      ensures var authAt := if Seconds(a.issuedAt) > now then now else Seconds(a.issuedAt);
        match r
        case Ok(token) =>
          && token.evidence == (if f.device.attested then Evidence(Some(authAt), Some(authAt), "push")
                                else Evidence(Some(authAt), None, ""))
          && EndsFirst(f, authAt, now, token.expiresAt)
        case Err(e) =>
          e == if !f.userActive then UserInactive
               else if !f.openIdGranted then NoOpenIdScope
               else if !PolicyMet(f, authAt, now) then PolicyUnmet
               else NotRecorded
    {
      GrantableByTheColumns(a, f, now);
      if !f.userActive {
        return Err(UserInactive);
      }
      if !f.openIdGranted {
        return Err(NoOpenIdScope);
      }
      var authAt := Seconds(a.issuedAt);
      if authAt > now {
        authAt := now;
      }
      var evidence := Evidence(Some(authAt), None, "");
      if f.device.attested {
        evidence := evidence.(factorAt := Some(authAt), factorMethod := "push");
      }
      var modeOk := f.device.attested || f.policy.mode == "reuse";
      if !ValidPolicy(f.policy) || !modeOk || !Proves(f.policy, evidence, now) {
        return Err(PolicyUnmet);
      }
      var exp := now + TOKEN_TTL;
      if f.accessEndS.Some? && Seconds(f.accessEndS.value) < exp {
        exp := Seconds(f.accessEndS.value);
      }
      var deadline := Deadline(f.policy, evidence);
      if deadline.Some? && deadline.value < exp {
        exp := deadline.value;
      }
      if exp <= now {
        return Err(PolicyUnmet);
      }
      if !f.stillTrue {
        return Err(NotRecorded);
      }
      r := Ok(Token(exp, evidence));
    }
  }

  /**
   A granted exchange ends in a token by the columns alone: nothing else is asked of the assertion, the
   device, the application or the user.
  */
  lemma SucceedsByTheColumns(spent: Spent, x: Attempt)
    ensures var authAt := if Seconds(x.a.issuedAt) > x.now then x.now else Seconds(x.a.issuedAt);
      Succeeds(spent, x) <==>
      && AcceptedWith(x.a, x.clientId, x.f, x.now, None) && (x.a.jti in spent ==> spent[x.a.jti] < x.at)
      && x.f.userActive && x.f.openIdGranted && PolicyMet(x.f, authAt, x.now) && x.f.stillTrue
  {
    GrantableByTheColumns(x.a, x.f, x.now);
  }

  /**
   An issued token's end is after now and no later than its own life, the end of access and the
   policy's deadline, and it is one of the three; its evidence is never in the future, and satisfies
   the policy at every moment of the token's life.
  */
  lemma TokenStaysWithinBounds(a: Assertion, f: Facts, now: Time, later: Time)
    requires Grantable(a, f, now)
    ensures var e := EvidenceOf(a, f.device.attested, now);
            var end := TokenEnd(f, e, now);
      && now < end <= now + Seconds(900)
      && (f.accessEndS.Some? ==> end <= Seconds(f.accessEndS.value))
      && (Deadline(f.policy, e).Some? ==> end <= Deadline(f.policy, e).value)
      && (end == now + Seconds(900) || Some(end) == AccessEnd(f) || Some(end) == Deadline(f.policy, e))
      && e.primaryAt.value <= now && e.primaryAt.value <= Seconds(a.issuedAt)
      && (now <= later <= end ==> Proves(f.policy, e, later))
  {
    var e := EvidenceOf(a, f.device.attested, now);
    if now <= later {
      GoodUntilDeadline(f.policy, e, now, later);
    }
  }

  /** The whole seconds of a moment lie ahead of another exactly when they name a later second. */
  lemma AheadInWholeSecondsIff(end: Time, now: Time)
    ensures Seconds(end / SECOND) > now <==> end / SECOND > now / SECOND
  {
  }

  lemma WholeSeconds(n: int, now: Time)
    ensures Seconds(n) / SECOND == n && (now + Seconds(n)) / SECOND == now / SECOND + n
  {
  }

  /**
   The signed `exp` drops fractions of a second, and still lies ahead: each of the three ends a token
   can have is a whole second, or whole seconds after `now`.
  */
  lemma SignedExpiryLiesAhead(a: Assertion, f: Facts, now: Time)
    requires Grantable(a, f, now)
    ensures Seconds(TokenEnd(f, EvidenceOf(a, f.device.attested, now), now) / SECOND) > now
  {
    var e := EvidenceOf(a, f.device.attested, now);
    var end := TokenEnd(f, e, now);
    WholeSeconds(900, now);
    if f.accessEndS.Some? {
      WholeSeconds(f.accessEndS.value, now);
    }
    WholeSeconds(f.policy.primaryMaxAge, now);
    WholeSeconds(f.policy.factorMaxAge, now);
    WholeSeconds(a.issuedAt + f.policy.primaryMaxAge, now);
    WholeSeconds(a.issuedAt + f.policy.factorMaxAge, now);
    AheadInWholeSecondsIff(end, now);
    assert end > now;
  }

  // ---- replay ----------------------------------------------------------------------------------------------

  function Table(xs: seq<Attempt>, n: nat): Spent
    requires n <= |xs|
  {
    if n == 0 then map[] else AfterAttempt(Table(xs, n - 1), xs[n - 1])
  }

  /** The n-th exchange returns a token. */
  predicate Issues(xs: seq<Attempt>, n: nat)
    requires n < |xs|
  {
    Succeeds(Table(xs, n), xs[n])
  }

  /** The n-th exchange is the one that puts its id on file. */
  predicate Spends(xs: seq<Attempt>, n: nat)
    requires n < |xs|
  {
    Reaches(xs[n]) && Fresh(Table(xs, n), xs[n].a.jti, xs[n].at)
  }

  /** Exchanges listed as they reach the table, each after it began. */
  ghost predicate InOrder(xs: seq<Attempt>) {
    && (forall i, j :: 0 <= i <= j < |xs| ==> xs[i].at <= xs[j].at)
    && (forall i :: 0 <= i < |xs| ==> xs[i].now <= xs[i].at)
  }

  /** The id the j-th exchange spent is still kept at t. */
  ghost predicate Blocks(xs: seq<Attempt>, j: nat, jti: Jti, t: Time) {
    j < |xs| && Spends(xs, j) && xs[j].a.jti == jti && RememberUntil(xs[j].a) >= t
  }

  lemma {:induction false} TableIsWhatBlocks(xs: seq<Attempt>, n: nat, jti: Jti, t: Time)
    requires InOrder(xs) && n <= |xs| && (n > 0 ==> xs[n - 1].at <= t)
    ensures (jti in Table(xs, n) && Table(xs, n)[jti] >= t) <==> exists j: nat :: j < n && Blocks(xs, j, jti, t)
  {
    if n > 0 {
      var x := xs[n - 1];
      TableIsWhatBlocks(xs, n - 1, jti, t);
      TableIsWhatBlocks(xs, n - 1, jti, x.at);
      assert Blocks(xs, n - 1, jti, t) <==> Spends(xs, n - 1) && x.a.jti == jti && RememberUntil(x.a) >= t;
      assert forall j: nat :: Blocks(xs, j, jti, t) ==> Blocks(xs, j, jti, x.at);
    }
  }

  /**
   Whatever else is exchanged and swept in between, an exchange that would be granted returns a
   token exactly when no earlier exchange spent its id and still keeps it.
  */
  lemma TokenUnlessStillKept(xs: seq<Attempt>, n: nat)
    requires InOrder(xs) && n < |xs|
    requires Reaches(xs[n]) && Grantable(xs[n].a, xs[n].f, xs[n].now) && xs[n].f.stillTrue
    ensures Issues(xs, n) <==> !exists j: nat :: j < n && Blocks(xs, j, xs[n].a.jti, xs[n].at)
  {
    TableIsWhatBlocks(xs, n, xs[n].a.jti, xs[n].at);
  }

  /** The id stands for this one assertion throughout. */
  predicate OnlyFor(xs: seq<Attempt>, a: Assertion) {
    forall i :: 0 <= i < |xs| ==> xs[i].a.jti == a.jti ==> xs[i].a == a
  }

  /**
   Replay-once, and exactly when: after one exchange spent an assertion's id, a later one that would
   be granted returns another token if and only if it reaches the table after the assertion's expiry
   and skew have run out, which it can only by stalling, since it began in time.
  */
  lemma SecondTokenIff(xs: seq<Attempt>, i: nat, n: nat, a: Assertion)
    requires InOrder(xs) && i < n < |xs| && OnlyFor(xs, a) && xs[i].a == xs[n].a == a && Spends(xs, i)
    requires Reaches(xs[n]) && Grantable(a, xs[n].f, xs[n].now) && xs[n].f.stillTrue
    ensures Issues(xs, n) <==> xs[n].at > RememberUntil(a)
    ensures xs[n].now < RememberUntil(a)
  {
    TokenUnlessStillKept(xs, n);
    if xs[n].at <= RememberUntil(a) {
      assert Blocks(xs, i, a.jti, xs[n].at);
    }
  }

  /** Two tokens for one id, whatever the assertions: the later exchange outlived the first one's memory. */
  lemma TwoTokensMeanExpiry(xs: seq<Attempt>, i: nat, n: nat)
    requires InOrder(xs) && i < n < |xs| && xs[i].a.jti == xs[n].a.jti && Issues(xs, i) && Issues(xs, n)
    ensures xs[n].at > RememberUntil(xs[i].a)
  {
    TokenUnlessStillKept(xs, n);
    if xs[n].at <= RememberUntil(xs[i].a) {
      assert Blocks(xs, i, xs[n].a.jti, xs[n].at);
    }
  }

  /** Any exchange that gets a token gets a second one, if repeated at once and stalled before the table. */
  lemma StalledExchangeIssuesAgain(x: Attempt)
    requires Succeeds(map[], x) && x.now <= x.at <= RememberUntil(x.a)
    ensures var xs := [x, x.(at := RememberUntil(x.a) + 1)];
            InOrder(xs) && Issues(xs, 0) && Issues(xs, 1)
  {
    var xs := [x, x.(at := RememberUntil(x.a) + 1)];
    assert Table(xs, 0) == map[];
    assert Spends(xs, 0);
    SecondTokenIff(xs, 0, 1, x.a);
  }

  /** An id is remembered for at most seven minutes past its insertion. */
  lemma RememberedAtMostSevenMinutes(x: Attempt)
    requires Reaches(x) && x.now <= x.at
    ensures RememberUntil(x.a) - x.at <= 420 * SECOND
  {
  }
}
