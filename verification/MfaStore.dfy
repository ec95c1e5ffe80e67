/**
 The store's second-factor statements. Each is one SQL statement, so one atomic step; the login
 protocol relies on exactly what these say about racing callers.
*/
module MfaStore {
  import opened Common

  type Id = string

  datatype Status = Pending | Approved | Refused | Expired

  datatype Challenge = Challenge(
    user: Id,
    purpose: string,
    matchDigits: string,
    status: Status,
    expiresAt: int,
    verifiedAt: Option<int>)

  datatype Token = Token(user: Id, challenge: Option<Id>, attempts: nat, expiresAt: int, used: bool)

  type Challenges = map<Id, Challenge>
  type Tokens = map<Id, Token>

  const MAX_MFA_ATTEMPTS: nat := 5
  /** Five minutes, in milliseconds: how long a challenge and a token live. */
  const TTL_MS := 300_000
  const HOUR_MS := 3_600_000

  /** A login push of `user` that someone could still answer. */
  predicate LiveLoginPush(c: Challenge, user: Id, now: int) {
    c.user == user && c.purpose == "login" && c.status == Pending && c.expiresAt > now
  }

  predicate HasLiveLoginPush(cs: Challenges, user: Id, now: int) {
    exists id :: id in cs && LiveLoginPush(cs[id], user, now)
  }

  function Transition(cs: Challenges, id: Id, from: Status, to: Status, now: int): Challenges {
    if id in cs && cs[id].status == from then
      cs[id := cs[id].(status := to, verifiedAt := if to == Approved then Some(now) else None)]
    else cs
  }

  predicate ValidToken(ts: Tokens, id: Id, now: int) {
    id in ts && !ts[id].used && ts[id].expiresAt > now && ts[id].attempts < MAX_MFA_ATTEMPTS
  }

  function Reserved(ts: Tokens, id: Id, now: int): Tokens {
    if ValidToken(ts, id, now) then ts[id := ts[id].(attempts := ts[id].attempts + 1)] else ts
  }

  predicate Spendable(ts: Tokens, id: Id) {
    id in ts && !ts[id].used
  }

  function Consumed(ts: Tokens, id: Id): Tokens {
    if Spendable(ts, id) then ts[id := ts[id].(used := true)] else ts
  }

  /** The named challenge is approved, unexpired, and the token's user's. */
  predicate Approves(challenges: Challenges, challenge: Option<Id>, user: Id, now: int) {
    && challenge.Some? && challenge.value in challenges
    && var c := challenges[challenge.value];
       c.status == Approved && c.verifiedAt.Some? && c.expiresAt > now && c.user == user
  }

  /** Challenges are kept an hour past their expiry. */
  function KeptChallenges(cs: Challenges, now: int): Challenges {
    map id | id in cs && cs[id].expiresAt >= now - HOUR_MS :: cs[id]
  }

  function KeptTokens(ts: Tokens, now: int): Tokens {
    map id | id in ts && ts[id].expiresAt >= now :: ts[id]
  }

  /** A sweep is never noticed: then or later, it takes nothing a login, a device or a finish could still use. */
  lemma SweepsSpareTheLiving(cs: Challenges, ts: Tokens, swept: int, now: int, id: Id, user: Id)
    requires swept <= now
    ensures HasLiveLoginPush(KeptChallenges(cs, swept), user, now) == HasLiveLoginPush(cs, user, now)
    ensures Approves(KeptChallenges(cs, swept), Some(id), user, now) == Approves(cs, Some(id), user, now)
    ensures ValidToken(KeptTokens(ts, swept), id, now) == ValidToken(ts, id, now)
    ensures ValidToken(ts, id, now) ==> KeptTokens(ts, swept)[id] == ts[id]
  {
    if g :| g in cs && LiveLoginPush(cs[g], user, now) {
      assert g in KeptChallenges(cs, swept) && LiveLoginPush(KeptChallenges(cs, swept)[g], user, now);
    }
    if g :| g in KeptChallenges(cs, swept) && LiveLoginPush(KeptChallenges(cs, swept)[g], user, now) {
      assert g in cs && LiveLoginPush(cs[g], user, now);
    }
  }

  class Store {
    var challenges: Challenges
    var tokens: Tokens

    constructor ()
      ensures challenges == map[] && tokens == map[]
    {
      challenges, tokens := map[], map[];
    }

    method HasPendingLoginPush(user: Id, now: int) returns (pending: bool)
      ensures pending <==> HasLiveLoginPush(challenges, user, now)
      ensures pending <==>
              exists id :: && id in challenges && challenges[id].user == user && challenges[id].purpose == "login"
                           && challenges[id].status == Pending && now < challenges[id].expiresAt
    {
      pending := exists id :: id in challenges && LiveLoginPush(challenges[id], user, now);
    }

    /** Inserts only while the user has no live login push. */
    method CreateLoginPushChallenge(id: Id, c: Challenge, now: int) returns (created: bool)
      requires id !in challenges && c.purpose == "login"
      modifies this`challenges
      ensures created <==> !HasLiveLoginPush(old(challenges), c.user, now)
      ensures challenges == if created then old(challenges)[id := c] else old(challenges)
      ensures created <==>
              forall g :: g in old(challenges) ==>
                            var p := old(challenges)[g];
                            !(p.user == c.user && p.purpose == "login" && p.status == Pending && now < p.expiresAt)
    {
      if exists g :: g in challenges && LiveLoginPush(challenges[g], c.user, now) {
        return false;
      }
      challenges := challenges[id := c];
      created := true;
    }

    method TransitionMFAChallengeStatus(id: Id, from: Status, to: Status, now: int) returns (moved: bool)
      modifies this`challenges
      ensures challenges == Transition(old(challenges), id, from, to, now)
      ensures moved <==> id in old(challenges) && old(challenges)[id].status == from
      ensures !moved ==> challenges == old(challenges)
      ensures moved ==>
                var verifiedAt := if to == Approved then Some(now) else None;
                challenges == old(challenges)[id := old(challenges)[id].(status := to, verifiedAt := verifiedAt)]
    {
      moved := id in challenges && challenges[id].status == from;
      if moved {
        var verifiedAt := if to == Approved then Some(now) else None;
        challenges := challenges[id := challenges[id].(status := to, verifiedAt := verifiedAt)];
      }
    }

    method GetValidMFAToken(id: Id, now: int) returns (token: Option<Token>)
      ensures token == if ValidToken(tokens, id, now) then Some(tokens[id]) else None
      ensures token.Some? <==> id in tokens && !tokens[id].used && now < tokens[id].expiresAt && tokens[id].attempts < 5
      ensures token.Some? ==> token.value == tokens[id]
    {
      token := None;
      if id in tokens {
        var t := tokens[id];
        if !t.used && t.expiresAt > now && t.attempts < MAX_MFA_ATTEMPTS {
          token := Some(t);
        }
      }
    }

    /** Returns the attempts used so far, or 0 when none is left. */
    method ReserveMFAAttempt(id: Id, now: int) returns (attempts: nat)
      modifies this`tokens
      ensures tokens == Reserved(old(tokens), id, now)
      ensures attempts == if ValidToken(old(tokens), id, now) then old(tokens)[id].attempts + 1 else 0
      ensures attempts > 0 <==>
              id in old(tokens) && var t := old(tokens)[id]; !t.used && now < t.expiresAt && t.attempts < 5
      ensures attempts == 0 ==> tokens == old(tokens)
      ensures attempts > 0 ==>
                && attempts == old(tokens)[id].attempts + 1
                && tokens == old(tokens)[id := old(tokens)[id].(attempts := attempts)]
    {
      attempts := 0;
      if id in tokens && !tokens[id].used && tokens[id].expiresAt > now && tokens[id].attempts < MAX_MFA_ATTEMPTS {
        attempts := tokens[id].attempts + 1;
        tokens := tokens[id := tokens[id].(attempts := attempts)];
      }
    }

    method ConsumeMFAToken(id: Id) returns (spent: bool)
      modifies this`tokens
      ensures tokens == Consumed(old(tokens), id)
      ensures spent <==> Spendable(old(tokens), id)
      ensures spent <==> id in old(tokens) && !old(tokens)[id].used
      ensures tokens == if spent then old(tokens)[id := old(tokens)[id].(used := true)] else old(tokens)
    {
      spent := id in tokens && !tokens[id].used;
      if spent {
        tokens := tokens[id := tokens[id].(used := true)];
      }
    }

    method DeleteExpiredMFAChallenges(now: int)
      modifies this`challenges
      ensures challenges == KeptChallenges(old(challenges), now)
      ensures forall id ::
                id in challenges <==> id in old(challenges) && now - 3_600_000 <= old(challenges)[id].expiresAt
      ensures forall id :: id in challenges ==> challenges[id] == old(challenges)[id]
      ensures forall user, later :: later >= now ==>
                HasLiveLoginPush(challenges, user, later) == HasLiveLoginPush(old(challenges), user, later)
      ensures forall id, user, later :: later >= now ==>
                Approves(challenges, Some(id), user, later) == Approves(old(challenges), Some(id), user, later)
    {
      ghost var before, kept := challenges, KeptChallenges(challenges, now);
      forall user, later | later >= now
        ensures HasLiveLoginPush(kept, user, later) == HasLiveLoginPush(before, user, later)
      {
        SweepsSpareTheLiving(challenges, tokens, now, later, "", user);
      }
      forall id, user, later | later >= now
        ensures Approves(kept, Some(id), user, later) == Approves(before, Some(id), user, later)
      {
        SweepsSpareTheLiving(challenges, tokens, now, later, id, user);
      }
      challenges := map id | id in challenges && challenges[id].expiresAt >= now - HOUR_MS :: challenges[id];
    }

    method DeleteExpiredMFATokens(now: int)
      modifies this`tokens
      ensures tokens == KeptTokens(old(tokens), now)
      ensures forall id :: id in tokens <==> id in old(tokens) && now <= old(tokens)[id].expiresAt
      ensures forall id :: id in tokens ==> tokens[id] == old(tokens)[id]
      ensures forall id, later :: later >= now ==> ValidToken(tokens, id, later) == ValidToken(old(tokens), id, later)
    {
      forall id, later | later >= now {
        SweepsSpareTheLiving(challenges, tokens, now, later, id, "");
      }
      tokens := map id | id in tokens && tokens[id].expiresAt >= now :: tokens[id];
    }
  }
}
