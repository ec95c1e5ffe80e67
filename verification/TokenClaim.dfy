/**
 One token instance of the relay coordinator: which key owns a device token, and the per-claim
 bookkeeping that makes releasing the claim safe. Every method is one atomic turn.
*/
module TokenClaim {
  import opened Common

  type KeyId = string

  /** The instance's storage; a field is None while its storage key is absent. */
  datatype Token = Token(
    seeded: bool,
    owner: Option<KeyId>,
    confirmed: Option<bool>,
    inflight: Option<nat>,
    claimedAt: Option<int>)

  datatype Claim = Claim(token: Token, owner: KeyId, claimedAt: int)

  function Seed(t: Token, legacyOwner: Option<KeyId>, now: int): Token {
    if t.seeded then t
    else if legacyOwner.Some? then
      t.(seeded := true, owner := legacyOwner, confirmed := Some(true), claimedAt := Some(now))
    else t.(seeded := true)
  }

  function OwnerOf(t: Token, legacyOwner: Option<KeyId>): Option<KeyId> {
    if t.seeded then t.owner else legacyOwner
  }

  function Taken(t: Token, keyId: KeyId, now: int): Token {
    t.(owner := Some(keyId), claimedAt := Some(now), confirmed := Some(false), inflight := Some(1))
  }

  function Stamped(t: Token, now: int): Token {
    t.(claimedAt := Some(t.claimedAt.GetOr(now)))
  }

  function ClaimFor(t: Token, keyId: KeyId, legacyOwner: Option<KeyId>, takeoverFrom: Option<KeyId>, now: int): Claim {
    var s := Seed(t, legacyOwner, now);
    match OwnerOf(t, legacyOwner)
    case None => Claim(Taken(s, keyId, now), keyId, now)
    case Some(owner) =>
      if owner == keyId then
        var counted := Stamped(s.(inflight := Some(s.inflight.GetOr(0) + 1)), now);
        Claim(counted, owner, counted.claimedAt.value)
      else if takeoverFrom == Some(owner) then
        Claim(Taken(s, keyId, now), keyId, now)
      else
        Claim(Stamped(s, now), owner, Stamped(s, now).claimedAt.value)
  }

  function Released(t: Token): Token {
    t.(owner := None, confirmed := None, inflight := None, claimedAt := None)
  }

  function CountedOut(t: Token): nat {
    var inflight := t.inflight.GetOr(1);
    if inflight == 0 then 0 else inflight - 1
  }

  /** Settling this send would release the claim. */
  predicate Releases(t: Token, keyId: KeyId, delivered: bool) {
    && t.owner == Some(keyId)
    && !delivered
    && !t.confirmed.GetOr(true)
    && CountedOut(t) == 0
  }

  function Settle(t: Token, keyId: KeyId, delivered: bool): Token {
    if t.owner != Some(keyId) then t
    else if Releases(t, keyId, delivered) then Released(t)
    else if delivered then t.(confirmed := Some(true), inflight := Some(CountedOut(t)))
    else t.(inflight := Some(CountedOut(t)))
  }

  class TokenInstance {
    var seeded: bool
    var owner: Option<KeyId>
    var confirmed: Option<bool>
    var inflight: Option<nat>
    var claimedAt: Option<int>

    ghost function View(): Token reads this {
      Token(seeded, owner, confirmed, inflight, claimedAt)
    }

    constructor ()
      ensures View() == Token(false, None, None, None, None)
    {
      seeded, owner, confirmed, inflight, claimedAt := false, None, None, None, None;
    }

    method CurrentOwner(legacyOwner: Option<KeyId>, now: int) returns (current: Option<KeyId>)
      modifies this
      ensures View() == Seed(old(View()), legacyOwner, now)
      ensures current == OwnerOf(old(View()), legacyOwner)
    {
      if seeded {
        return owner;
      }
      current := legacyOwner;
      seeded := true;
      if current.Some? {
        owner, confirmed, claimedAt := current, Some(true), Some(now);
      }
    }

    method ClaimedAt(now: int) returns (at: int)
      modifies this`claimedAt
      ensures View() == Stamped(old(View()), now) && claimedAt == Some(at)
    {
      if claimedAt.Some? {
        return claimedAt.value;
      }
      claimedAt := Some(now);
      at := now;
    }

    method TakeClaim(keyId: KeyId, now: int) returns (current: KeyId, at: int)
      modifies this
      ensures View() == Taken(old(View()), keyId, now)
      ensures current == keyId && at == now
    {
      owner, claimedAt, confirmed, inflight := Some(keyId), Some(now), Some(false), Some(1);
      current, at := keyId, now;
    }

    method ClaimToken(keyId: KeyId, legacyOwner: Option<KeyId>, takeoverFrom: Option<KeyId>, now: int)
      returns (current: KeyId, at: int)
      modifies this
      ensures Claim(View(), current, at) == ClaimFor(old(View()), keyId, legacyOwner, takeoverFrom, now)
      ensures seeded && owner == Some(current) && claimedAt == Some(at)
      ensures var before := if old(seeded) then old(owner) else legacyOwner;
        if before == None || (before != Some(keyId) && before == takeoverFrom) then
          current == keyId && at == now && confirmed == Some(false) && inflight == Some(1)
        else
          && current == before.value
          && confirmed == (if old(seeded) then old(confirmed) else Some(true))
          && at == (if old(seeded) then old(claimedAt).GetOr(now) else now)
          && inflight == if current == keyId then Some(old(inflight).GetOr(0) + 1) else old(inflight)
    {
      var holder := CurrentOwner(legacyOwner, now);
      if holder == None {
        current, at := TakeClaim(keyId, now);
        return;
      }
      current := holder.value;
      if current == keyId {
        inflight := Some(inflight.GetOr(0) + 1);
        at := ClaimedAt(now);
      } else if takeoverFrom == Some(current) {
        current, at := TakeClaim(keyId, now);
      } else {
        at := ClaimedAt(now);
      }
    }

    method SettleToken(keyId: KeyId, delivered: bool) returns (released: bool)
      modifies this
      ensures View() == Settle(old(View()), keyId, delivered)
      ensures released == Releases(old(View()), keyId, delivered)
      ensures seeded == old(seeded)
      ensures released <==> old(owner) == Some(keyId) && !delivered && old(confirmed) == Some(false) &&
                            old(inflight).GetOr(1) <= 1
      ensures released ==> owner == None && confirmed == None && inflight == None && claimedAt == None
      ensures !released ==>
                && owner == old(owner) && claimedAt == old(claimedAt)
                && (old(owner) != Some(keyId) ==> confirmed == old(confirmed) && inflight == old(inflight))
                && (old(owner) == Some(keyId) ==>
                      && confirmed == (if delivered then Some(true) else old(confirmed))
                      && inflight == Some(if old(inflight).GetOr(1) == 0 then 0 else old(inflight).GetOr(1) - 1))
    {
      if owner != Some(keyId) {
        return false;
      }
      var left := if inflight.GetOr(1) == 0 then 0 else inflight.GetOr(1) - 1;
      if delivered {
        confirmed, inflight := Some(true), Some(left);
        return false;
      }
      if confirmed.GetOr(true) || left > 0 {
        inflight := Some(left);
        return false;
      }
      owner, confirmed, inflight, claimedAt := None, None, None, None;
      released := true;
    }
  }
}
