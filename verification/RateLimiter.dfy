/**
 Token buckets in a map of bounded size. Only buckets that have refilled are ever dropped, by the
 periodic sweep or to make room, and the main result is that nobody can tell: every decision not
 refused for lack of room is the one a limiter that never drops a bucket would make.
*/
module RateLimiter {
  import opened Common

  /** Seconds. */
  type Time = real
  type Key = string

  /** A burst, and what an interval of some length earns. */
  datatype Policy = Policy(maxTokens: real, refill: Time -> real)

  /** The policies callers give: a burst and a number of tokens per second. */
  function ByRate(maxTokens: real, refillRate: real): Policy {
    Policy(maxTokens, (seconds: Time) => seconds * refillRate)
  }

  datatype Bucket = Bucket(tokens: real, policy: Policy, lastRefill: Time)

  type Buckets = map<Key, Bucket>

  const PROBE := 64
  const IDLE := 60.0

  function Full(p: Policy, now: Time): Bucket {
    Bucket(p.maxTokens, p, now)
  }

  function Accrued(b: Bucket, now: Time): real {
    b.tokens + b.policy.refill(now - b.lastRefill)
  }

  predicate Refilled(b: Bucket, now: Time) {
    Accrued(b, now) >= b.policy.maxTokens
  }

  /** What a bucket holds at a later moment. */
  function Level(b: Bucket, now: Time): real {
    if Refilled(b, now) then b.policy.maxTokens else Accrued(b, now)
  }

  function Taken(b: Bucket, now: Time): Bucket {
    var level := Level(b, now);
    Bucket(if level < 1.0 then level else level - 1.0, b.policy, now)
  }

  predicate Stale(b: Bucket, now: Time) {
    now - b.lastRefill > IDLE && Refilled(b, now)
  }

  function Swept(m: Buckets, now: Time): Buckets {
    map k | k in m && !Stale(m[k], now) :: m[k]
  }

  // ---- the two objects the middleware keeps ---------------------------------------------------------

  class RateLimiter {
    var tokens: real
    var lastRefill: Time
    const policy: Policy

    ghost function View(): Bucket reads this { Bucket(tokens, policy, lastRefill) }

    constructor (policy: Policy, now: Time)
      ensures View() == Full(policy, now)
    {
      this.policy, tokens, lastRefill := policy, policy.maxTokens, now;
    }

    method IsRefilled(now: Time) returns (full: bool)
      ensures full <==> Refilled(View(), now)
      ensures full <==> policy.maxTokens <= tokens + policy.refill(now - lastRefill)
    {
      full := tokens + policy.refill(now - lastRefill) >= policy.maxTokens;
    }

    method Take(now: Time) returns (allowed: bool)
      modifies this
      ensures allowed <==> Level(old(View()), now) >= 1.0
      ensures View() == Taken(old(View()), now)
      ensures var sum := old(tokens) + policy.refill(now - old(lastRefill));
              var level := if policy.maxTokens < sum then policy.maxTokens else sum;
        && (allowed <==> 1.0 <= level)
        && tokens == (if allowed then level - 1.0 else level) && lastRefill == now
    {
      tokens := tokens + policy.refill(now - lastRefill);
      if tokens > policy.maxTokens {
        tokens := policy.maxTokens;
      }
      lastRefill := now;
      if tokens < 1.0 {
        return false;
      }
      tokens := tokens - 1.0;
      allowed := true;
    }
  }

  class Middleware {
    var rateLimiters: map<Key, RateLimiter>
    const maxLimiters: nat

    /** No two keys share a bucket. */
    ghost predicate Valid() reads this {
      forall j, k :: j in rateLimiters && k in rateLimiters && rateLimiters[j] == rateLimiters[k] ==> j == k
    }

    ghost function View(): Buckets reads this, rateLimiters.Values {
      map k | k in rateLimiters :: rateLimiters[k].View()
    }

    constructor (maxLimiters: nat)
      ensures Valid() && View() == map[] && this.maxLimiters == maxLimiters
    {
      this.maxLimiters, rateLimiters := maxLimiters, map[];
    }

    method SweepLimiters(now: Time)
      requires Valid()
      modifies this
      ensures Valid() && View() == Swept(old(View()), now)
    {
      var todo := rateLimiters.Keys;
      ghost var all := rateLimiters;
      while todo != {}
        invariant Valid() && todo <= all.Keys
        invariant forall k :: k in rateLimiters <==> k in all && (k in todo || !Stale(all[k].View(), now))
        invariant forall k :: k in rateLimiters ==> rateLimiters[k] == all[k]
      {
        var key :| key in todo;
        var limiter := rateLimiters[key];
        var full := limiter.IsRefilled(now);
        if now - limiter.lastRefill > IDLE && full {
          rateLimiters := rateLimiters - {key};
        }
        todo := todo - {key};
      }
    }

    /** Looks for a refilled bucket among at most 64, in whatever order the map gives them. */
    method FindRefilled(now: Time) returns (found: Option<Key>)
      ensures found.Some? ==> found.value in View() && Refilled(View()[found.value], now)
      ensures found == None ==> ProbeCanFail(View(), now)
    {
      var probed := 0;
      var todo := rateLimiters.Keys;
      ghost var m, seen := View(), {};
      while todo != {} && probed < PROBE
        invariant todo <= m.Keys && seen == m.Keys - todo && probed == |seen|
        invariant forall k :: k in seen ==> !Refilled(m[k], now)
      {
        var key :| key in todo;
        var full := rateLimiters[key].IsRefilled(now);
        assert m[key] == rateLimiters[key].View();
        if full {
          return Some(key);
        }
        todo := todo - {key};
        seen := seen + {key};
        probed := probed + 1;
      }
      assert ProbeFailed(m, seen, now);
      found := None;
    }

    method Drop(key: Key)
      requires Valid()
      modifies this
      ensures Valid() && rateLimiters.Values <= old(rateLimiters.Values) && rateLimiters.Keys <= old(rateLimiters.Keys)
      ensures View() == old(View()) - {key}
    {
      var kept := map k | k in rateLimiters && k != key :: rateLimiters[k];
      rateLimiters := kept;
    }

    method EvictRefilled(now: Time) returns (evicted: Option<Key>)
      requires Valid()
      modifies this
      ensures Valid() && rateLimiters.Values <= old(rateLimiters.Values) && rateLimiters.Keys <= old(rateLimiters.Keys)
      ensures evicted.Some? ==> evicted.value in old(View()) && Refilled(old(View())[evicted.value], now)
      ensures View() == WithRoom(old(View()), evicted)
      ensures evicted == None ==> ProbeCanFail(old(View()), now)
    {
      evicted := FindRefilled(now);
      if evicted.Some? {
        Drop(evicted.value);
      }
    }

    method AddBucket(key: Key, policy: Policy, now: Time)
      requires Valid() && key !in rateLimiters
      modifies this
      ensures Valid() && fresh(rateLimiters.Values - old(rateLimiters.Values))
      ensures View() == old(View())[key := Full(policy, now)]
    {
      var limiter := new RateLimiter(policy, now);
      rateLimiters := rateLimiters[key := limiter];
    }

    method TakeFrom(key: Key, now: Time) returns (allowed: bool)
      requires Valid() && key in rateLimiters
      modifies rateLimiters[key]
      ensures allowed <==> Level(old(View())[key], now) >= 1.0
      ensures View() == old(View())[key := Taken(old(View())[key], now)]
    {
      allowed := rateLimiters[key].Take(now);
    }

    /** A new key gets a full bucket, in the place of a refilled one when the map is full. */
    method Admit(key: Key, policy: Policy, now: Time) returns (admitted: bool, evicted: Option<Key>)
      requires Valid() && key !in rateLimiters
      modifies this
      ensures Valid() && fresh(rateLimiters.Values - old(rateLimiters.Values))
      ensures Possible(maxLimiters, old(View()), Request(key, now, evicted))
      ensures admitted <==> !(NeedsRoom(maxLimiters, old(View()), key) && evicted == None)
      ensures View() == if admitted then WithRoom(old(View()), evicted)[key := Full(policy, now)] else old(View())
      ensures admitted ==> key in rateLimiters
    {
      assert View().Keys == rateLimiters.Keys;
      evicted := None;
      if |rateLimiters| >= maxLimiters {
        evicted := EvictRefilled(now);
        if evicted == None {
          return false, None;
        }
      }
      AddBucket(key, policy, now);
      assert key in View();
      admitted := true;
    }

    method AllowRateLimit(key: Key, policy: Policy, now: Time) returns (verdict: Verdict, evicted: Option<Key>)
      requires Valid()
      modifies this, rateLimiters.Values
      ensures Valid() && fresh(rateLimiters.Values - old(rateLimiters.Values))
      ensures Possible(maxLimiters, old(View()), Request(key, now, evicted))
      ensures verdict == Decide(maxLimiters, old(View()), key, policy, now, evicted)
      ensures View() == Served(maxLimiters, old(View()), key, policy, now, evicted)
    {
      evicted := None;
      if key !in rateLimiters {
        var admitted: bool;
        admitted, evicted := Admit(key, policy, now);
        if !admitted {
          return NoRoom, evicted;
        }
      }
      var allowed := TakeFrom(key, now);
      verdict := if allowed then Allowed else Denied;
    }
  }

  /** The sample held no refilled bucket, and was as large as the probe allows. */
  ghost predicate ProbeFailed(m: Buckets, probed: set<Key>, now: Time) {
    && probed <= m.Keys && (probed == m.Keys || |probed| >= PROBE)
    && forall k :: k in probed ==> !Refilled(m[k], now)
  }

  ghost predicate ProbeCanFail(m: Buckets, now: Time) {
    exists probed :: ProbeFailed(m, probed, now)
  }

  // ---- decisions and the state they leave -----------------------------------------------------------

  datatype Verdict = Allowed | Denied | NoRoom

  /** `evicted` records which refilled bucket, if any, the map's iteration order happened to offer. */
  datatype Event = Request(key: Key, now: Time, evicted: Option<Key>) | Sweep(now: Time)

  predicate NeedsRoom(cap: nat, m: Buckets, key: Key) {
    key !in m && |m| >= cap
  }

  ghost predicate Possible(cap: nat, m: Buckets, e: Event) {
    match e
    case Sweep(_) => true
    case Request(key, now, evicted) =>
      if !NeedsRoom(cap, m, key) then evicted == None
      else if evicted.Some? then evicted.value in m && Refilled(m[evicted.value], now)
      else ProbeCanFail(m, now)
  }

  function WithRoom(m: Buckets, evicted: Option<Key>): Buckets {
    if evicted.Some? then m - {evicted.value} else m
  }

  function BucketOf(m: Buckets, key: Key, policy: Policy, now: Time): Bucket {
    if key in m then m[key] else Full(policy, now)
  }

  function Decide(cap: nat, m: Buckets, key: Key, policy: Policy, now: Time, evicted: Option<Key>): Verdict {
    if NeedsRoom(cap, m, key) && evicted == None then NoRoom
    else if Level(BucketOf(m, key, policy, now), now) >= 1.0 then Allowed
    else Denied
  }

  function Served(cap: nat, m: Buckets, key: Key, policy: Policy, now: Time, evicted: Option<Key>): Buckets {
    if NeedsRoom(cap, m, key) && evicted == None then m
    else WithRoom(m, evicted)[key := Taken(BucketOf(m, key, policy, now), now)]
  }

  /** A request is turned away for room exactly when no bucket is dropped for it though the map is at its limit. */
  lemma NoRoomMeansNoRoom(cap: nat, m: Buckets, key: Key, policy: Policy, now: Time, evicted: Option<Key>)
    requires Possible(cap, m, Request(key, now, evicted))
    ensures Decide(cap, m, key, policy, now, evicted) == NoRoom <==> key !in m && cap <= |m| && evicted == None
    ensures Decide(cap, m, key, policy, now, evicted) == NoRoom ==>
              && Served(cap, m, key, policy, now, evicted) == m
              && exists probed: set<Key> ::
                   && probed <= m.Keys && (probed == m.Keys || 64 <= |probed|)
                   && forall k :: k in probed ==>
                                    m[k].tokens + m[k].policy.refill(now - m[k].lastRefill) < m[k].policy.maxTokens
    ensures evicted.Some? ==>
              && key !in m && cap <= |m| && evicted.value in m
              && var b := m[evicted.value];
                 b.policy.maxTokens <= b.tokens + b.policy.refill(now - b.lastRefill)
  {
    if Decide(cap, m, key, policy, now, evicted) == NoRoom {
      var probed :| ProbeFailed(m, probed, now);
      assert forall k :: k in probed ==>
                           m[k].tokens + m[k].policy.refill(now - m[k].lastRefill) < m[k].policy.maxTokens;
    }
  }

  /**
   One served request by the numbers: the bucket found, or a full new one, is refilled to the moment and
   capped; a whole token there is taken, and nothing else in the map moves but the bucket dropped for it.
  */
  lemma ServedByTheNumbers(cap: nat, m: Buckets, key: Key, policy: Policy, now: Time, evicted: Option<Key>)
    requires Decide(cap, m, key, policy, now, evicted) != NoRoom && evicted != Some(key)
    ensures var b := if key in m then m[key] else Bucket(policy.maxTokens, policy, now);
            var sum := b.tokens + b.policy.refill(now - b.lastRefill);
            var level := if b.policy.maxTokens < sum then b.policy.maxTokens else sum;
            var allowed := Decide(cap, m, key, policy, now, evicted) == Allowed;
            var after := Served(cap, m, key, policy, now, evicted);
      && (allowed <==> 1.0 <= level)
      && key in after && after[key] == Bucket(if allowed then level - 1.0 else level, b.policy, now)
      && forall k :: k != key ==> (k in after <==> k in m && evicted != Some(k)) && (k in after ==> after[k] == m[k])
  {
  }

  /** A sweep drops exactly the buckets untouched for over a minute that have refilled. */
  lemma SweptByTheNumbers(m: Buckets, now: Time, k: Key)
    requires k in m
    ensures k !in Swept(m, now) <==>
            && 60.0 < now - m[k].lastRefill
            && m[k].policy.maxTokens <= m[k].tokens + m[k].policy.refill(now - m[k].lastRefill)
    ensures k in Swept(m, now) ==> Swept(m, now)[k] == m[k]
  {
  }

  // ---- levels over time -------------------------------------------------------------------------------

  /** The allowance of each key; a key always comes with the same one. */
  type Rules = Key -> Policy

  /** Two intervals one after the other earn what they earn apart, and no interval costs anything. */
  ghost predicate EarnsApart(p: Policy, x: Time, y: Time) {
    p.refill(x + y) == p.refill(x) + p.refill(y) && (y >= 0.0 ==> p.refill(y) >= 0.0)
  }

  ghost predicate SanePolicy(p: Policy) {
    p.maxTokens >= 0.0 && forall x, y :: EarnsApart(p, x, y)
  }

  ghost predicate Sane(rules: Rules) {
    forall k :: SanePolicy(rules(k))
  }

  lemma RatesAreSane(maxTokens: real, refillRate: real)
    requires maxTokens >= 0.0 && refillRate >= 0.0
    ensures SanePolicy(ByRate(maxTokens, refillRate))
  {
    forall x: Time, y: Time ensures EarnsApart(ByRate(maxTokens, refillRate), x, y) {
      assert (x + y) * refillRate == x * refillRate + y * refillRate;
    }
  }

  ghost predicate InOrder(b: Bucket, policy: Policy, now: Time) {
    b.policy == policy && b.lastRefill <= now && 0.0 <= b.tokens <= policy.maxTokens
  }

  ghost predicate AllInOrder(rules: Rules, m: Buckets, now: Time) {
    forall k :: k in m ==> InOrder(m[k], rules(k), now)
  }

  /** What a key could still draw: a key without a bucket has its full allowance. */
  function LevelOf(rules: Rules, m: Buckets, k: Key, now: Time): real {
    if k in m then Level(m[k], now) else rules(k).maxTokens
  }

  function Capped(x: real, cap: real): real {
    if x >= cap then cap else x
  }

  lemma Accrual(b: Bucket, t: Time, u: Time)
    requires t <= u && SanePolicy(b.policy)
    ensures Accrued(b, u) == Accrued(b, t) + b.policy.refill(u - t)
    ensures b.policy.refill(u - t) >= 0.0
  {
    assert EarnsApart(b.policy, t - b.lastRefill, u - t);
    assert u - b.lastRefill == (t - b.lastRefill) + (u - t);
  }

  /** Waiting adds the refill and nothing else, whatever happened to the bucket meanwhile. */
  lemma LevelOfLater(rules: Rules, m: Buckets, k: Key, t: Time, u: Time)
    requires Sane(rules) && AllInOrder(rules, m, t) && t <= u
    ensures LevelOf(rules, m, k, u) == Capped(LevelOf(rules, m, k, t) + rules(k).refill(u - t), rules(k).maxTokens)
    ensures 0.0 <= LevelOf(rules, m, k, u) <= rules(k).maxTokens
  {
    var b := if k in m then m[k] else Full(rules(k), t);
    Accrual(b, t, u);
    Accrual(b, b.lastRefill, t);
  }

  /** A dropped bucket that had refilled leaves every key's level as it was, then and ever after. */
  lemma DroppingRefilledChangesNoLevel(rules: Rules, m: Buckets, dropped: set<Key>, now: Time, k: Key)
    requires Sane(rules) && AllInOrder(rules, m, now)
    requires forall d :: d in dropped && d in m ==> Refilled(m[d], now)
    ensures LevelOf(rules, m - dropped, k, now) == LevelOf(rules, m, k, now)
  {
  }

  lemma JustRefilled(b: Bucket)
    requires SanePolicy(b.policy)
    ensures Accrued(b, b.lastRefill) == b.tokens
  {
    assert EarnsApart(b.policy, 0.0, 0.0);
  }

  lemma FullLevel(p: Policy, now: Time)
    requires SanePolicy(p)
    ensures Level(Full(p, now), now) == p.maxTokens
  {
    JustRefilled(Full(p, now));
  }

  lemma TakingOne(b: Bucket, now: Time)
    requires SanePolicy(b.policy) && 0.0 <= Level(b, now) <= b.policy.maxTokens
    ensures var t := Taken(b, now);
      && Level(t, now) == t.tokens == Level(b, now) - (if Level(b, now) >= 1.0 then 1.0 else 0.0)
      && InOrder(t, b.policy, now)
  {
    JustRefilled(Taken(b, now));
  }

  lemma TakingLowersOneLevel(rules: Rules, m: Buckets, key: Key, now: Time, k: Key)
    requires Sane(rules) && AllInOrder(rules, m, now)
    ensures var level := LevelOf(rules, m, key, now);
            var taken := m[key := Taken(BucketOf(m, key, rules(key), now), now)];
      && AllInOrder(rules, taken, now)
      && LevelOf(rules, taken, k, now) ==
         if k == key && level >= 1.0 then level - 1.0 else LevelOf(rules, m, k, now)
  {
    LevelOfLater(rules, m, key, now, now);
    FullLevel(rules(key), now);
    TakingOne(BucketOf(m, key, rules(key), now), now);
  }

  // ---- steps --------------------------------------------------------------------------------------

  function Verdicts(rules: Rules, cap: nat, m: Buckets, e: Event): Verdict
    requires e.Request?
  {
    Decide(cap, m, e.key, rules(e.key), e.now, e.evicted)
  }

  function After(rules: Rules, cap: nat, m: Buckets, e: Event): Buckets {
    match e
    case Sweep(now) => Swept(m, now)
    case Request(key, now, evicted) => Served(cap, m, key, rules(key), now, evicted)
  }

  predicate Draws(rules: Rules, cap: nat, m: Buckets, e: Event, k: Key) {
    e.Request? && e.key == k && Verdicts(rules, cap, m, e) == Allowed
  }

  /** Whatever is swept or evicted, a step lowers the level of an allowed key by one and no other level. */
  lemma StepLevels(rules: Rules, cap: nat, m: Buckets, e: Event, k: Key)
    requires Sane(rules) && AllInOrder(rules, m, e.now) && Possible(cap, m, e)
    ensures AllInOrder(rules, After(rules, cap, m, e), e.now)
    ensures LevelOf(rules, After(rules, cap, m, e), k, e.now) ==
            LevelOf(rules, m, k, e.now) - if Draws(rules, cap, m, e, k) then 1.0 else 0.0
    ensures e.Request? && Verdicts(rules, cap, m, e) != NoRoom ==>
              (Verdicts(rules, cap, m, e) == Allowed <==> LevelOf(rules, m, e.key, e.now) >= 1.0)
  {
    match e
    case Sweep(now) =>
      var dropped := set d | d in m && Stale(m[d], now);
      assert Swept(m, now) == m - dropped;
      DroppingRefilledChangesNoLevel(rules, m, dropped, now, k);
    case Request(key, now, evicted) =>
      if Verdicts(rules, cap, m, e) != NoRoom {
        var dropped := if evicted.Some? then {evicted.value} else {};
        assert WithRoom(m, evicted) == m - dropped;
        DroppingRefilledChangesNoLevel(rules, m, dropped, now, k);
        DroppingRefilledChangesNoLevel(rules, m, dropped, now, key);
        TakingLowersOneLevel(rules, m - dropped, key, now, k);
        LevelOfLater(rules, m, key, now, now);
        FullLevel(rules(key), now);
      }
  }

  /** The map never grows past its limit. */
  lemma StepIsBounded(rules: Rules, cap: nat, m: Buckets, e: Event)
    requires |m| <= cap && Possible(cap, m, e)
    ensures |After(rules, cap, m, e)| <= cap
  {
    var t := After(rules, cap, m, e);
    if e.Sweep? {
      SubsetSize(t.Keys, m.Keys);
    } else if e.key in m {
      assert t.Keys == m.Keys;
    } else if e.evicted.Some? {
      assert t.Keys == m.Keys - {e.evicted.value} + {e.key};
    } else {
      assert t.Keys == m.Keys || t.Keys == m.Keys + {e.key};
    }
  }

  // ---- the limiter that never drops a bucket --------------------------------------------------------

  predicate UnboundedAllows(rules: Rules, u: Buckets, key: Key, now: Time) {
    Level(BucketOf(u, key, rules(key), now), now) >= 1.0
  }

  function UnboundedAfter(rules: Rules, u: Buckets, key: Key, now: Time): Buckets {
    u[key := Taken(BucketOf(u, key, rules(key), now), now)]
  }

  /** It sees the requests the bounded one had room for. */
  function Shadow(rules: Rules, cap: nat, m: Buckets, u: Buckets, e: Event): Buckets {
    if e.Request? && Verdicts(rules, cap, m, e) != NoRoom then UnboundedAfter(rules, u, e.key, e.now) else u
  }

  ghost predicate SameLevels(rules: Rules, m: Buckets, u: Buckets, now: Time) {
    forall k :: LevelOf(rules, m, k, now) == LevelOf(rules, u, k, now)
  }

  lemma StepShadows(rules: Rules, cap: nat, m: Buckets, u: Buckets, e: Event)
    requires Sane(rules) && AllInOrder(rules, m, e.now) && AllInOrder(rules, u, e.now) && Possible(cap, m, e)
    requires SameLevels(rules, m, u, e.now)
    ensures e.Request? && Verdicts(rules, cap, m, e) != NoRoom ==>
              (Verdicts(rules, cap, m, e) == Allowed <==> UnboundedAllows(rules, u, e.key, e.now))
    ensures AllInOrder(rules, After(rules, cap, m, e), e.now) && AllInOrder(rules, Shadow(rules, cap, m, u, e), e.now)
    ensures SameLevels(rules, After(rules, cap, m, e), Shadow(rules, cap, m, u, e), e.now)
  {
    forall k
      ensures AllInOrder(rules, After(rules, cap, m, e), e.now) && AllInOrder(rules, Shadow(rules, cap, m, u, e), e.now)
      ensures LevelOf(rules, After(rules, cap, m, e), k, e.now) == LevelOf(rules, Shadow(rules, cap, m, u, e), k, e.now)
    {
      StepLevels(rules, cap, m, e, k);
      assert LevelOf(rules, m, k, e.now) == LevelOf(rules, u, k, e.now);
      if e.Request? {
        TakingLowersOneLevel(rules, u, e.key, e.now, k);
      }
    }
    if e.Request? {
      StepLevels(rules, cap, m, e, e.key);
      FullLevel(rules(e.key), e.now);
      assert LevelOf(rules, m, e.key, e.now) == LevelOf(rules, u, e.key, e.now);
    }
  }

  // ---- runs -------------------------------------------------------------------------------------------

  /** `ms` is what the bounded limiter goes through on these events, `us` what the unbounded one does. */
  ghost predicate IsRun(rules: Rules, cap: nat, ms: seq<Buckets>, us: seq<Buckets>, events: seq<Event>) {
    && Sane(rules)
    && |ms| == |us| == |events| + 1 && ms[0] == us[0] == map[]
    && forall i :: 0 <= i < |events| ==> StepAt(rules, cap, ms, us, events, i)
  }

  ghost predicate StepAt(rules: Rules, cap: nat, ms: seq<Buckets>, us: seq<Buckets>, events: seq<Event>, i: nat)
    requires i < |events| && |ms| == |us| == |events| + 1
  {
    && (i + 1 < |events| ==> events[i].now <= events[i + 1].now)
    && Possible(cap, ms[i], events[i])
    && ms[i + 1] == After(rules, cap, ms[i], events[i])
    && us[i + 1] == Shadow(rules, cap, ms[i], us[i], events[i])
  }

  lemma SameLevelsLater(rules: Rules, m: Buckets, u: Buckets, now: Time, later: Time)
    requires Sane(rules) && AllInOrder(rules, m, now) && AllInOrder(rules, u, now) && now <= later
    requires SameLevels(rules, m, u, now)
    ensures SameLevels(rules, m, u, later) && AllInOrder(rules, m, later) && AllInOrder(rules, u, later)
  {
    forall k ensures LevelOf(rules, m, k, later) == LevelOf(rules, u, k, later) {
      LevelOfLater(rules, m, k, now, later);
      LevelOfLater(rules, u, k, now, later);
      assert LevelOf(rules, m, k, now) == LevelOf(rules, u, k, now);
    }
  }

  lemma {:induction false} RunShadows(rules: Rules, cap: nat, ms: seq<Buckets>, us: seq<Buckets>, events: seq<Event>,
                                      i: nat)
    requires IsRun(rules, cap, ms, us, events) && i < |events|
    ensures AllInOrder(rules, ms[i], events[i].now) && AllInOrder(rules, us[i], events[i].now)
    ensures SameLevels(rules, ms[i], us[i], events[i].now)
  {
    if i > 0 {
      assert StepAt(rules, cap, ms, us, events, i - 1);
      RunShadows(rules, cap, ms, us, events, i - 1);
      StepShadows(rules, cap, ms[i - 1], us[i - 1], events[i - 1]);
      SameLevelsLater(rules, ms[i], us[i], events[i - 1].now, events[i].now);
    }
  }

  /**
   For any requests, sweeps and evictions, every decision not refused for room is the decision of
   the limiter that never drops a bucket.
  */
  lemma BoundedDecidesLikeUnbounded(rules: Rules, cap: nat, ms: seq<Buckets>, us: seq<Buckets>, events: seq<Event>,
                                    i: nat)
    requires IsRun(rules, cap, ms, us, events) && i < |events| && events[i].Request?
    requires Verdicts(rules, cap, ms[i], events[i]) != NoRoom
    ensures Verdicts(rules, cap, ms[i], events[i]) == Allowed <==>
            UnboundedAllows(rules, us[i], events[i].key, events[i].now)
  {
    assert StepAt(rules, cap, ms, us, events, i);
    RunShadows(rules, cap, ms, us, events, i);
    StepShadows(rules, cap, ms[i], us[i], events[i]);
  }

  lemma {:induction false} MapIsBounded(rules: Rules, cap: nat, ms: seq<Buckets>, us: seq<Buckets>,
                                        events: seq<Event>, i: nat)
    requires IsRun(rules, cap, ms, us, events) && i < |ms|
    ensures |ms[i]| <= cap
  {
    if i > 0 {
      assert StepAt(rules, cap, ms, us, events, i - 1);
      MapIsBounded(rules, cap, ms, us, events, i - 1);
      StepIsBounded(rules, cap, ms[i - 1], events[i - 1]);
    }
  }

  // ---- the rate bound -----------------------------------------------------------------------------------

  function CountTrue(flags: seq<bool>, i: nat, j: nat): nat
    requires i <= j <= |flags|
    decreases j - i
  {
    if i == j then 0 else CountTrue(flags, i, j - 1) + if flags[j - 1] then 1 else 0
  }

  /** From one event to the next a level loses its draw and regains at most the refill. */
  ghost predicate Covered(levels: seq<real>, times: seq<Time>, drawn: seq<bool>, p: Policy, n: nat) {
    && 0 < n < |levels| && |levels| == |times| == |drawn|
    && levels[n] + (if drawn[n - 1] then 1.0 else 0.0) <= levels[n - 1] + p.refill(times[n] - times[n - 1])
  }

  /** Levels that lose one per draw and regain at most the refill cover the draws. */
  lemma {:induction false} LevelsCoverDraws(levels: seq<real>, times: seq<Time>, drawn: seq<bool>, p: Policy, i: nat,
                                            j: nat)
    requires SanePolicy(p) && |levels| == |times| == |drawn| && i <= j < |levels|
    requires forall n :: 0 < n < |levels| ==> Covered(levels, times, drawn, p, n)
    ensures levels[j] + CountTrue(drawn, i, j) as real <= levels[i] + p.refill(times[j] - times[i])
    decreases j - i
  {
    if i < j {
      LevelsCoverDraws(levels, times, drawn, p, i, j - 1);
      assert Covered(levels, times, drawn, p, j);
      assert EarnsApart(p, times[j - 1] - times[i], times[j] - times[j - 1]);
      assert (times[j - 1] - times[i]) + (times[j] - times[j - 1]) == times[j] - times[i];
    } else {
      assert EarnsApart(p, 0.0, 0.0);
    }
  }

  lemma OneEventLevels(rules: Rules, cap: nat, m: Buckets, e: Event, k: Key, later: Time)
    requires Sane(rules) && AllInOrder(rules, m, e.now) && Possible(cap, m, e) && e.now <= later
    ensures LevelOf(rules, After(rules, cap, m, e), k, later) + (if Draws(rules, cap, m, e, k) then 1.0 else 0.0) <=
            LevelOf(rules, m, k, e.now) + rules(k).refill(later - e.now)
  {
    StepLevels(rules, cap, m, e, k);
    LevelOfLater(rules, After(rules, cap, m, e), k, e.now, later);
  }

  /** Which events were allowed requests of `k`. */
  ghost function Drawn(rules: Rules, cap: nat, ms: seq<Buckets>, events: seq<Event>, k: Key): seq<bool>
    requires |ms| > |events|
  {
    seq(|events|, n requires 0 <= n < |events| => Draws(rules, cap, ms[n], events[n], k))
  }

  ghost function Levels(rules: Rules, ms: seq<Buckets>, events: seq<Event>, k: Key): seq<real>
    requires |ms| > |events|
  {
    seq(|events|, n requires 0 <= n < |events| => LevelOf(rules, ms[n], k, events[n].now))
  }

  ghost function Times(events: seq<Event>): seq<Time> {
    seq(|events|, n requires 0 <= n < |events| => events[n].now)
  }

  lemma RunLevels(rules: Rules, cap: nat, ms: seq<Buckets>, us: seq<Buckets>, events: seq<Event>, k: Key, n: nat)
    requires IsRun(rules, cap, ms, us, events) && 0 < n < |events|
    ensures Covered(Levels(rules, ms, events, k), Times(events), Drawn(rules, cap, ms, events, k), rules(k), n)
  {
    assert StepAt(rules, cap, ms, us, events, n - 1);
    RunShadows(rules, cap, ms, us, events, n - 1);
    OneEventLevels(rules, cap, ms[n - 1], events[n - 1], k, events[n].now);
  }

  lemma RunCoversDraws(rules: Rules, cap: nat, ms: seq<Buckets>, us: seq<Buckets>, events: seq<Event>, k: Key,
                       i: nat, j: nat)
    requires IsRun(rules, cap, ms, us, events) && i <= j < |events|
    ensures Levels(rules, ms, events, k)[j] + CountTrue(Drawn(rules, cap, ms, events, k), i, j) as real <=
            Levels(rules, ms, events, k)[i] + rules(k).refill(Times(events)[j] - Times(events)[i])
  {
    var levels, times, drawn := Levels(rules, ms, events, k), Times(events), Drawn(rules, cap, ms, events, k);
    forall n | 0 < n < |events|
      ensures Covered(levels, times, drawn, rules(k), n)
    {
      RunLevels(rules, cap, ms, us, events, k, n);
    }
    LevelsCoverDraws(levels, times, drawn, rules(k), i, j);
  }

  /**
   Across any sweeps, evictions and re-creations of its bucket, the requests of a key allowed from
   event i through event j number at most its burst plus the refill of the time between them.
  */
  lemma AllowedIsRateBounded(rules: Rules, cap: nat, ms: seq<Buckets>, us: seq<Buckets>, events: seq<Event>, k: Key,
                             i: nat, j: nat)
    requires IsRun(rules, cap, ms, us, events) && i <= j < |events|
    ensures CountTrue(Drawn(rules, cap, ms, events, k), i, j + 1) as real <=
            rules(k).maxTokens + rules(k).refill(events[j].now - events[i].now)
  {
    RunCoversDraws(rules, cap, ms, us, events, k, i, j);
    RunLevelInRange(rules, cap, ms, us, events, k, i);
    RunLevelInRange(rules, cap, ms, us, events, k, j);
  }

  lemma RunLevelInRange(rules: Rules, cap: nat, ms: seq<Buckets>, us: seq<Buckets>, events: seq<Event>, k: Key, n: nat)
    requires IsRun(rules, cap, ms, us, events) && n < |events|
    ensures 0.0 <= Levels(rules, ms, events, k)[n] <= rules(k).maxTokens
    ensures Drawn(rules, cap, ms, events, k)[n] ==> Levels(rules, ms, events, k)[n] >= 1.0
  {
    assert StepAt(rules, cap, ms, us, events, n);
    RunShadows(rules, cap, ms, us, events, n);
    LevelOfLater(rules, ms[n], k, events[n].now, events[n].now);
    StepLevels(rules, cap, ms[n], events[n], k);
  }

  /** In the middleware's own terms: burst plus elapsed seconds times rate. */
  lemma AllowedPerWindow(rules: Rules, cap: nat, ms: seq<Buckets>, us: seq<Buckets>, events: seq<Event>, k: Key,
                         i: nat, j: nat,
                         maxTokens: real, refillRate: real, window: Time)
    requires IsRun(rules, cap, ms, us, events) && i <= j < |events| && rules(k) == ByRate(maxTokens, refillRate)
    requires window == events[j].now - events[i].now
    ensures CountTrue(Drawn(rules, cap, ms, events, k), i, j + 1) as real <= maxTokens + window * refillRate
  {
    AllowedIsRateBounded(rules, cap, ms, us, events, k, i, j);
    RateRefill(rules(k), maxTokens, refillRate, window);
  }

  lemma RateRefill(p: Policy, maxTokens: real, refillRate: real, seconds: Time)
    requires p == ByRate(maxTokens, refillRate)
    ensures p.maxTokens == maxTokens && p.refill(seconds) == seconds * refillRate
  {
  }

  /** Tokens on file stay between none and the allowance, in every state of a run. */
  lemma TokensInRange(rules: Rules, cap: nat, ms: seq<Buckets>, us: seq<Buckets>, events: seq<Event>, i: nat, k: Key)
    requires IsRun(rules, cap, ms, us, events) && i < |ms| && k in ms[i]
    ensures 0.0 <= ms[i][k].tokens <= rules(k).maxTokens
  {
    if i > 0 {
      assert StepAt(rules, cap, ms, us, events, i - 1);
      RunShadows(rules, cap, ms, us, events, i - 1);
      StepLevels(rules, cap, ms[i - 1], events[i - 1], k);
    }
  }
}
