/**
 Sends racing for one device token. A send claims the token in up to three turns: claim, ask the
 registry about the owner, compare-and-swap. Other sends, settles, registrations, imports and
 revocations interleave between the turns. The results are about every interleaving.
*/
module TokenOwnership {
  import opened Common
  import opened TokenClaim
  import KeyRegistry

  /** No send asks whether the owner is live before its claim has reached this age, in milliseconds. */
  const CLAIM_TAKEOVER_GRACE_MS := 60_000

  /** What never changes: the KV records and the owner the KV index recorded for this token. */
  datatype World = World(kv: KeyRegistry.Kv, legacyOwner: Option<KeyId>)

  /** Where one /send stands. `claim` numbers the claim the send was counted into. */
  datatype Send =
    | Checking(key: KeyId, owner: KeyId, seenAt: int)
    | TakingOver(key: KeyId, owner: KeyId, seenAt: int)
    | Denied(key: KeyId)
    | Allowed(key: KeyId, claim: nat)
    | Settled(key: KeyId, claim: nat)

  /**
   `claim` numbers the claims taken so far; 0 is one that predates them all. `delivered` holds the
   claims under which some send delivered.
  */
  datatype System = System(
    token: Token,
    table: KeyRegistry.Table,
    now: int,
    sends: map<nat, Send>,
    claim: nat,
    delivered: set<nat>)

  datatype Event =
    | Begin(id: nat, key: KeyId)
    | Check(id: nat)
    | TakeOver(id: nat)
    | Settle(id: nat, delivers: bool)
    | Registry(op: KeyRegistry.Op)
    | Wait(until: int)

  ghost predicate LiveKey(w: World, s: System, id: KeyId) {
    KeyRegistry.Live(KeyRegistry.ResolveId(s.table, w.kv, id), s.now)
  }

  /** Asking about an id copies its KV record into the table when only KV has it. */
  ghost function Consulted(t: KeyRegistry.Table, kv: KeyRegistry.Kv, id: KeyId): KeyRegistry.Table {
    if KeyRegistry.IdTaken(t, id) then t
    else if h :| h in kv && kv[h].id == id then KeyRegistry.Import(t, h, kv[h])
    else t
  }

  ghost predicate Mentions(w: World, s: System, id: KeyId) {
    || s.token.owner == Some(id)
    || w.legacyOwner == Some(id)
    || exists i :: i in s.sends && (s.sends[i].key == id ||
                                    (s.sends[i].Checking? && s.sends[i].owner == id) ||
                                    (s.sends[i].TakingOver? && s.sends[i].owner == id))
  }

  ghost predicate Enabled(w: World, s: System, e: Event) {
    match e
    case Begin(id, _) => id !in s.sends
    case Check(id) => id in s.sends && s.sends[id].Checking?
    case TakeOver(id) => id in s.sends && s.sends[id].TakingOver?
    case Settle(id, _) => id in s.sends && s.sends[id].Allowed?
    case Registry(op) =>
      && KeyRegistry.Genuine(s.table, w.kv, op)
      && (op.RegisterOp? ==> !Mentions(w, s, op.key.id))
    case Wait(until) => s.now <= until
  }

  /** The claim turn of a send takes a claim of its own, rather than riding one or being refused. */
  predicate Takes(w: World, s: System, e: Event) {
    match e
    case Begin(_, key) => OwnerOf(s.token, w.legacyOwner) == None
    case TakeOver(id) =>
      id in s.sends && s.sends[id].TakingOver? &&
      (s.token.owner == None || (s.token.owner == Some(s.sends[id].owner) && s.sends[id].owner != s.sends[id].key))
    case _ => false
  }

  ghost function Step(w: World, s: System, e: Event): System
    requires Enabled(w, s, e)
  {
    var claim := if Takes(w, s, e) then s.claim + 1 else s.claim;
    match e
    case Begin(id, key) =>
      var c := ClaimFor(s.token, key, w.legacyOwner, None, s.now);
      s.(token := c.token, claim := claim,
         sends := s.sends[id := if c.owner == key then Allowed(key, claim) else Checking(key, c.owner, c.claimedAt)])
    case Check(id) =>
      var Checking(key, owner, seenAt) := s.sends[id];
      if s.now - seenAt < CLAIM_TAKEOVER_GRACE_MS then s.(sends := s.sends[id := Denied(key)])
      else s.(table := Consulted(s.table, w.kv, owner),
              sends := s.sends[id := if LiveKey(w, s, owner) then Denied(key) else TakingOver(key, owner, seenAt)])
    case TakeOver(id) =>
      var TakingOver(key, owner, _) := s.sends[id];
      var c := ClaimFor(s.token, key, None, Some(owner), s.now);
      s.(token := c.token, claim := claim,
         sends := s.sends[id := if c.owner == key then Allowed(key, claim) else Denied(key)])
    case Settle(id, delivers) =>
      var Allowed(key, its) := s.sends[id];
      s.(token := TokenClaim.Settle(s.token, key, delivers),
         sends := s.sends[id := Settled(key, its)],
         delivered := if delivers then s.delivered + {its} else s.delivered)
    case Registry(op) => s.(table := KeyRegistry.Apply(s.table, w.kv, op))
    case Wait(until) => s.(now := until)
  }

  /** A token instance nobody has sent through yet: new, or written by an earlier version. */
  ghost predicate Init(w: World, s: System) {
    && s.sends == map[] && s.claim == 0 && s.delivered == {}
    && KeyRegistry.Coherent(s.table, w.kv)
    && (!s.token.seeded ==> s.token.owner == None)
    && (s.token.owner == None ==>
          s.token.confirmed == None && s.token.inflight == None && s.token.claimedAt == None)
    && (s.token.owner.Some? ==>
          && s.token.confirmed.GetOr(true) && s.token.inflight == None
          && (s.token.claimedAt.Some? ==> s.token.claimedAt.value <= s.now))
  }

  // ---- what every step keeps --------------------------------------------------------------

  /** The sends of `key` that were let through and have not settled. */
  ghost function Unsettled(s: System, key: KeyId): set<nat> {
    set i | i in s.sends && s.sends[i].Allowed? && s.sends[i].key == key
  }

  ghost predicate TokenShape(s: System) {
    && (!s.token.seeded ==> s.token.owner == None && s.sends == map[] && s.claim == 0)
    && (s.token.owner == None ==>
          s.token.confirmed == None && s.token.inflight == None && s.token.claimedAt == None)
    && (s.token.claimedAt.Some? ==> s.token.claimedAt.value <= s.now)
    && (s.claim == 0 && s.token.owner.Some? ==> s.token.confirmed.GetOr(true))
  }

  /** The counter never exceeds `unsettled`, and an unconfirmed claim has a send counted in. */
  ghost predicate Counts(t: Token, unsettled: nat) {
    && t.inflight.GetOr(0) <= unsettled
    && (t.inflight == None ==> unsettled == 0)
    && (!t.confirmed.GetOr(true) ==> t.inflight.GetOr(0) >= 1)
  }

  ghost predicate CountShape(s: System) {
    s.token.owner.Some? ==> Counts(s.token, |Unsettled(s, s.token.owner.value)|)
  }

  ghost predicate SendShape(w: World, s: System) {
    forall i :: i in s.sends ==>
      match s.sends[i]
      case Checking(key, owner, seenAt) => owner != key
      case TakingOver(key, owner, seenAt) =>
        owner != key && !LiveKey(w, s, owner) && seenAt + CLAIM_TAKEOVER_GRACE_MS <= s.now
      case Allowed(_, claim) => claim <= s.claim
      case _ => true
  }

  ghost predicate Inv(w: World, s: System) {
    KeyRegistry.Coherent(s.table, w.kv) && TokenShape(s) && CountShape(s) && SendShape(w, s)
  }

  lemma InitInv(w: World, s: System)
    requires Init(w, s)
    ensures Inv(w, s)
  {
    if s.token.owner.Some? {
      assert Unsettled(s, s.token.owner.value) == {};
    }
  }

  /** Asking about an owner changes nothing, or is an import like any other. */
  lemma ConsultedIsImport(t: KeyRegistry.Table, kv: KeyRegistry.Kv, id: KeyId)
    ensures Consulted(t, kv, id) == t ||
            exists h :: Consulted(t, kv, id) == KeyRegistry.Apply(t, kv, KeyRegistry.ImportOp(h))
  {
    if !KeyRegistry.IdTaken(t, id) && exists h :: h in kv && kv[h].id == id {
      var h :| h in kv && kv[h].id == id && Consulted(t, kv, id) == KeyRegistry.Import(t, h, kv[h]);
      assert Consulted(t, kv, id) == KeyRegistry.Apply(t, kv, KeyRegistry.ImportOp(h));
    }
  }

  lemma StepKeepsCoherent(w: World, s: System, e: Event)
    requires KeyRegistry.Coherent(s.table, w.kv) && Enabled(w, s, e)
    ensures KeyRegistry.Coherent(Step(w, s, e).table, w.kv)
  {
    if e.Registry? {
      KeyRegistry.StepKeepsCoherent(s.table, w.kv, e.op);
    } else if e.Check? {
      var owner := s.sends[e.id].owner;
      ConsultedIsImport(s.table, w.kv, owner);
      if h :| Consulted(s.table, w.kv, owner) == KeyRegistry.Apply(s.table, w.kv, KeyRegistry.ImportOp(h)) {
        KeyRegistry.StepKeepsCoherent(s.table, w.kv, KeyRegistry.ImportOp(h));
      }
    }
  }

  /** A key that is not live stays so through every event that does not mint that very id. */
  lemma DeadStaysDead(w: World, s: System, e: Event, id: KeyId)
    requires KeyRegistry.Coherent(s.table, w.kv) && Enabled(w, s, e) && !LiveKey(w, s, id)
    requires e.Registry? && e.op.RegisterOp? ==> e.op.key.id != id
    ensures !LiveKey(w, Step(w, s, e), id)
  {
    var s' := Step(w, s, e);
    if e.Registry? {
      KeyRegistry.DeadOwnerStaysDead(s.table, w.kv, e.op, id, s.now, s'.now);
    } else if e.Check? {
      var owner := s.sends[e.id].owner;
      ConsultedIsImport(s.table, w.kv, owner);
      if h :| Consulted(s.table, w.kv, owner) == KeyRegistry.Apply(s.table, w.kv, KeyRegistry.ImportOp(h)) {
        KeyRegistry.DeadOwnerStaysDead(s.table, w.kv, KeyRegistry.ImportOp(h), id, s.now, s'.now);
      }
    }
  }

  lemma StepKeepsSendShape(w: World, s: System, e: Event)
    requires Inv(w, s) && Enabled(w, s, e)
    ensures SendShape(w, Step(w, s, e))
  {
    var s' := Step(w, s, e);
    forall i | i in s.sends && i in s'.sends && s'.sends[i] == s.sends[i] && s.sends[i].TakingOver?
      ensures !LiveKey(w, s', s.sends[i].owner)
    {
      assert Mentions(w, s, s.sends[i].owner);
      DeadStaysDead(w, s, e, s.sends[i].owner);
    }
    if e.Check? && s'.sends[e.id].TakingOver? {
      DeadStaysDead(w, s, e, s.sends[e.id].owner);
    }
  }

  lemma StepKeepsTokenShape(w: World, s: System, e: Event)
    requires Inv(w, s) && Enabled(w, s, e)
    ensures TokenShape(Step(w, s, e))
  {
  }

  // ---- counting sends in and out ----------------------------------------------------------

  /** The unsettled sends of `key` after one event. */
  ghost function UnsettledAfter(w: World, s: System, e: Event, key: KeyId): set<nat>
    requires Enabled(w, s, e)
  {
    var s' := Step(w, s, e);
    match e
    case Begin(id, _) =>
      if s'.sends[id].Allowed? && s'.sends[id].key == key then Unsettled(s, key) + {id} else Unsettled(s, key)
    case TakeOver(id) =>
      if s'.sends[id].Allowed? && s'.sends[id].key == key then Unsettled(s, key) + {id} else Unsettled(s, key)
    case Settle(id, _) => if s.sends[id].key == key then Unsettled(s, key) - {id} else Unsettled(s, key)
    case _ => Unsettled(s, key)
  }

  lemma UnsettledStep(w: World, s: System, e: Event, key: KeyId)
    requires Enabled(w, s, e)
    ensures Unsettled(Step(w, s, e), key) == UnsettledAfter(w, s, e, key)
  {
  }

  lemma UnsettledCountStep(w: World, s: System, e: Event, key: KeyId)
    requires Enabled(w, s, e)
    ensures
      var n, n' := |Unsettled(s, key)|, |Unsettled(Step(w, s, e), key)|;
      n' == if Allows(w, s, e, key) then n + 1
            else if e.Settle? && s.sends[e.id].key == key then n - 1
            else n
  {
    UnsettledStep(w, s, e, key);
    match e
    case Begin(id, _) => assert id !in Unsettled(s, key);
    case TakeOver(id) => assert id !in Unsettled(s, key);
    case Settle(id, _) => assert s.sends[id].key == key ==> id in Unsettled(s, key);
    case _ =>
  }

  lemma StepKeepsCountShape(w: World, s: System, e: Event)
    requires Inv(w, s) && Enabled(w, s, e)
    ensures CountShape(Step(w, s, e))
  {
    var s' := Step(w, s, e);
    if s'.token.owner.Some? {
      var key := s'.token.owner.value;
      UnsettledCountStep(w, s, e, key);
      if e.Begin? && !s.token.seeded {
        assert Unsettled(s, key) == {};
      }
    }
  }

  lemma StepKeepsInv(w: World, s: System, e: Event)
    requires Inv(w, s) && Enabled(w, s, e)
    ensures Inv(w, Step(w, s, e))
  {
    StepKeepsCoherent(w, s, e);
    StepKeepsTokenShape(w, s, e);
    StepKeepsCountShape(w, s, e);
    StepKeepsSendShape(w, s, e);
  }

  // ---- runs ---------------------------------------------------------------------------------

  ghost predicate IsRun(w: World, states: seq<System>, events: seq<Event>) {
    && |states| == |events| + 1
    && Init(w, states[0])
    && forall i :: 0 <= i < |events| ==>
                     Enabled(w, states[i], events[i]) && states[i + 1] == Step(w, states[i], events[i])
  }

  lemma {:induction false} RunInv(w: World, states: seq<System>, events: seq<Event>, i: nat)
    requires IsRun(w, states, events) && i < |states|
    ensures Inv(w, states[i])
  {
    if i == 0 {
      InitInv(w, states[0]);
    } else {
      RunInv(w, states, events, i - 1);
      StepKeepsInv(w, states[i - 1], events[i - 1]);
    }
  }

  /** This event lets a send of `key` through. */
  ghost predicate Allows(w: World, s: System, e: Event, key: KeyId) {
    && Enabled(w, s, e)
    && (e.Begin? || e.TakeOver?)
    && Step(w, s, e).sends[e.id].Allowed?
    && Step(w, s, e).sends[e.id].key == key
  }

  /** This event releases the claim of `key`: its settle found nothing delivered and nothing in flight. */
  ghost predicate ReleasedBySettle(w: World, s: System, e: Event, key: KeyId) {
    && Enabled(w, s, e) && e.Settle? && s.sends[e.id].key == key
    && Releases(s.token, key, e.delivers)
  }

  /** This event displaces `key` by compare-and-swap, at a moment when that key is not live. */
  ghost predicate DisplacedWhileDead(w: World, s: System, e: Event, key: KeyId) {
    && Enabled(w, s, e) && e.TakeOver? && s.sends[e.id].owner == key
    && s.token.owner == Some(key)
    && Step(w, s, e).token.owner == Some(s.sends[e.id].key)
    && !LiveKey(w, s, key)
  }

  lemma AllowedOwns(w: World, s: System, e: Event, key: KeyId)
    requires Allows(w, s, e, key)
    ensures Step(w, s, e).token.owner == Some(key)
  {
  }

  /** A key stops owning the token in two ways only; in particular a live key is never displaced. */
  lemma LosesOwnership(w: World, s: System, e: Event, key: KeyId)
    requires Inv(w, s) && Enabled(w, s, e)
    requires s.token.owner == Some(key) && Step(w, s, e).token.owner != Some(key)
    ensures ReleasedBySettle(w, s, e, key) || DisplacedWhileDead(w, s, e, key)
  {
  }

  lemma {:induction false} OwnershipLost(w: World, states: seq<System>, events: seq<Event>, i: nat, j: nat, key: KeyId)
    returns (k: nat)
    requires IsRun(w, states, events) && i <= j < |states|
    requires states[i].token.owner == Some(key) && states[j].token.owner != Some(key)
    ensures i <= k < j
    ensures forall n :: i <= n <= k ==> states[n].token.owner == Some(key)
    ensures ReleasedBySettle(w, states[k], events[k], key) || DisplacedWhileDead(w, states[k], events[k], key)
    decreases j - i
  {
    if states[i + 1].token.owner == Some(key) {
      k := OwnershipLost(w, states, events, i + 1, j, key);
    } else {
      k := i;
      RunInv(w, states, events, i);
      LosesOwnership(w, states[i], events[i], key);
    }
  }

  /**
   Token ownership over every interleaving: when key b is let through after a different key a was,
   then in between a's claim was released by a settle, or a was displaced while its key was not live.
  */
  lemma OwnerChangesHandsSafely(w: World, states: seq<System>, events: seq<Event>, i: nat, j: nat, a: KeyId, b: KeyId)
    requires IsRun(w, states, events) && i < j < |events| && a != b
    requires Allows(w, states[i], events[i], a) && Allows(w, states[j], events[j], b)
    ensures exists k :: i < k <= j && (ReleasedBySettle(w, states[k], events[k], a) ||
                                       DisplacedWhileDead(w, states[k], events[k], a))
  {
    AllowedOwns(w, states[i], events[i], a);
    AllowedOwns(w, states[j], events[j], b);
    var k := OwnershipLost(w, states, events, i + 1, j + 1, a);
  }

  /** A settle never releases a claim under which something delivered. */
  lemma ConfirmedSurvivesSettles(w: World, s: System, e: Event)
    requires Enabled(w, s, e) && e.Settle? && s.token.owner.Some? && s.token.confirmed.GetOr(true)
    ensures Step(w, s, e).token.owner == s.token.owner && Step(w, s, e).token.confirmed.GetOr(true)
  {
  }

  lemma {:induction false} ConfirmedUntilLost(w: World, states: seq<System>, events: seq<Event>, i: nat, j: nat,
                                              key: KeyId)
    requires IsRun(w, states, events) && i <= j < |states|
    requires forall n :: i <= n <= j ==> states[n].token.owner == Some(key)
    requires states[i].token.confirmed.GetOr(true)
    ensures states[j].token.confirmed.GetOr(true)
    decreases j - i
  {
    if i < j {
      assert states[i + 1].token.owner == Some(key);
      RunInv(w, states, events, i);
      ConfirmedUntilLost(w, states, events, i + 1, j, key);
    }
  }

  /** Once a send of the owner delivered, another key gets through only by displacing a dead one. */
  lemma DeliveredOwnerIsOnlyDisplaced(w: World, states: seq<System>, events: seq<Event>, i: nat, j: nat, a: KeyId,
                                      b: KeyId)
    requires IsRun(w, states, events) && i < j < |events| && a != b
    requires events[i].Settle? && events[i].delivers && states[i].sends[events[i].id].key == a
    requires states[i].token.owner == Some(a) && Allows(w, states[j], events[j], b)
    ensures exists k :: i < k <= j && DisplacedWhileDead(w, states[k], events[k], a)
  {
    AllowedOwns(w, states[j], events[j], b);
    var k := OwnershipLost(w, states, events, i + 1, j + 1, a);
    ConfirmedUntilLost(w, states, events, i + 1, k, a);
  }

  // ---- the owner recorded in KV ---------------------------------------------------------------

  /** This event adopts the KV index's owner. */
  ghost predicate Adopts(w: World, s: System, e: Event) {
    e.Begin? && !s.token.seeded && w.legacyOwner.Some?
  }

  lemma {:induction false} SeededForGood(w: World, states: seq<System>, events: seq<Event>, i: nat, j: nat)
    requires IsRun(w, states, events) && i <= j < |states| && states[i].token.seeded
    ensures states[j].token.seeded
    decreases j - i
  {
    if i < j {
      SeededForGood(w, states, events, i + 1, j);
    }
  }

  /** The KV owner is adopted at most once, so a released token never falls back to it. */
  lemma LegacyOwnerAdoptedOnce(w: World, states: seq<System>, events: seq<Event>, i: nat, j: nat)
    requires IsRun(w, states, events) && i < j < |events|
    requires Adopts(w, states[i], events[i])
    ensures !Adopts(w, states[j], events[j])
    ensures states[i + 1].token.owner == w.legacyOwner
  {
    SeededForGood(w, states, events, i + 1, j);
  }

  /** Apart from that one adoption, a key comes to own the token only through a send of its own. */
  lemma OwnershipIsEarned(w: World, s: System, e: Event, key: KeyId)
    requires Inv(w, s) && Enabled(w, s, e)
    requires s.token.owner != Some(key) && Step(w, s, e).token.owner == Some(key)
    ensures Allows(w, s, e, key) || (Adopts(w, s, e) && w.legacyOwner == Some(key))
  {
  }

  // ---- releases are exact ---------------------------------------------------------------------

  predicate TakesFor(w: World, s: System, e: Event, key: KeyId) {
    Takes(w, s, e) && match e case Begin(_, k) => k == key case TakeOver(id) => s.sends[id].key == key case _ => false
  }

  /** No key takes the claim anew while sends of its earlier claim are still unsettled. */
  ghost predicate Clean(w: World, s: System, e: Event) {
    forall key :: TakesFor(w, s, e, key) ==> Unsettled(s, key) == {}
  }

  /** The in-flight counter is the number of the owner's unsettled sends. */
  ghost predicate Exact(s: System) {
    s.token.owner.Some? ==> s.token.inflight.GetOr(0) == |Unsettled(s, s.token.owner.value)|
  }

  lemma ExactStep(w: World, s: System, e: Event)
    requires Inv(w, s) && Enabled(w, s, e) && Exact(s)
    ensures Exact(Step(w, s, e)) <==> Clean(w, s, e)
  {
    var s' := Step(w, s, e);
    if s'.token.owner.Some? {
      var key := s'.token.owner.value;
      UnsettledCountStep(w, s, e, key);
      if e.Begin? && !s.token.seeded {
        assert Unsettled(s, key) == {};
      }
      assert Takes(w, s, e) ==> TakesFor(w, s, e, key) && s'.token.inflight == Some(1);
    }
  }

  lemma {:induction false} ExactPrefix(w: World, states: seq<System>, events: seq<Event>, n: nat)
    requires IsRun(w, states, events) && n < |states|
    ensures (forall i :: 0 <= i <= n ==> Exact(states[i])) <==>
            (forall i :: 0 <= i < n ==> Clean(w, states[i], events[i]))
  {
    if n == 0 {
      if states[0].token.owner.Some? {
        assert Unsettled(states[0], states[0].token.owner.value) == {};
      }
    } else {
      ExactPrefix(w, states, events, n - 1);
      RunInv(w, states, events, n - 1);
      if forall i :: 0 <= i <= n - 1 ==> Exact(states[i]) {
        assert states[n] == Step(w, states[n - 1], events[n - 1]);
        ExactStep(w, states[n - 1], events[n - 1]);
        assert Exact(states[n]) <==> Clean(w, states[n - 1], events[n - 1]);
      } else {
        var i :| 0 <= i <= n - 1 && !Exact(states[i]);
        var j :| 0 <= j < n - 1 && !Clean(w, states[j], events[j]);
      }
    }
  }

  /**
   The counter is exact throughout a run if and only if no key in it takes the claim again while
   sends of an earlier claim of its own are still out.
  */
  lemma CounterExactIff(w: World, states: seq<System>, events: seq<Event>)
    requires IsRun(w, states, events)
    ensures (forall i :: 0 <= i < |states| ==> Exact(states[i])) <==>
            (forall i :: 0 <= i < |events| ==> Clean(w, states[i], events[i]))
  {
    ExactPrefix(w, states, events, |events|);
  }

  /** What clean runs keep: the owner's unsettled sends are exactly those of the current claim. */
  ghost predicate Ledger(s: System) {
    && Exact(s)
    && (forall i :: i in s.sends && s.sends[i].Allowed? ==> OwnClaim(s, i))
    && (forall c :: c in s.delivered ==> c <= s.claim)
    && (s.token.owner.Some? && s.claim > 0 ==>
          s.token.confirmed == Some(s.claim in s.delivered))
  }

  ghost predicate OwnClaim(s: System, i: nat)
    requires i in s.sends && s.sends[i].Allowed?
  {
    s.sends[i].claim == s.claim <==> s.token.owner == Some(s.sends[i].key)
  }

  lemma LedgerSendStep(w: World, s: System, e: Event, i: nat)
    requires Inv(w, s) && Enabled(w, s, e) && Ledger(s) && Clean(w, s, e)
    requires i in Step(w, s, e).sends && Step(w, s, e).sends[i].Allowed?
    ensures OwnClaim(Step(w, s, e), i)
  {
    var s' := Step(w, s, e);
    if i in s.sends && s'.sends[i] == s.sends[i] {
      assert OwnClaim(s, i);
      if Takes(w, s, e) {
        var key := s'.token.owner.value;
        assert TakesFor(w, s, e, key);
        assert i !in Unsettled(s, key);
      } else if e.Settle? && s.token.owner == Some(s.sends[e.id].key) {
        LastOut(s, e.id);
        assert s.token.owner == Some(s.sends[i].key) ==> i in Unsettled(s, s.sends[e.id].key);
      }
    }
  }

  lemma LedgerStep(w: World, s: System, e: Event)
    requires Inv(w, s) && Enabled(w, s, e) && Ledger(s) && Clean(w, s, e)
    ensures Ledger(Step(w, s, e))
  {
    ExactStep(w, s, e);
    var s' := Step(w, s, e);
    forall i | i in s'.sends && s'.sends[i].Allowed?
      ensures OwnClaim(s', i)
    {
      LedgerSendStep(w, s, e, i);
    }
    if e.Settle? {
      assert OwnClaim(s, e.id);
    }
  }

  /** Counted down to the last one, no other send of the owner is out. */
  lemma LastOut(s: System, id: nat)
    requires Exact(s) && id in s.sends && s.sends[id].Allowed? && s.token.owner == Some(s.sends[id].key)
    ensures CountedOut(s.token) == 0 <==> Unsettled(s, s.sends[id].key) == {id}
  {
    var out := Unsettled(s, s.sends[id].key);
    assert id in out;
    if CountedOut(s.token) == 0 {
      assert |out - {id}| == 0;
      assert out == {id};
    }
  }

  lemma {:induction false} CleanRunLedger(w: World, states: seq<System>, events: seq<Event>, n: nat)
    requires IsRun(w, states, events) && n < |states|
    requires forall i :: 0 <= i < n ==> Clean(w, states[i], events[i])
    ensures Ledger(states[n])
  {
    if n == 0 {
      ExactPrefix(w, states, events, 0);
    } else {
      CleanRunLedger(w, states, events, n - 1);
      RunInv(w, states, events, n - 1);
      LedgerStep(w, states[n - 1], events[n - 1]);
    }
  }

  // ---- which runs are clean, told by their events -------------------------------------------------

  /** A send of `key` let through before step i has still not settled at step j. */
  ghost predicate StillOut(states: seq<System>, i: nat, j: nat, key: KeyId)
    requires i < |states| && j < |states|
  {
    exists x :: x in Unsettled(states[i], key) && x in Unsettled(states[j], key)
  }

  /** Displaced at step i, `key` takes the claim again at step j while a send from before is still out. */
  ghost predicate ComesBackEarly(w: World, states: seq<System>, events: seq<Event>, i: nat, j: nat, key: KeyId)
    requires |states| == |events| + 1
  {
    && i < j < |events|
    && DisplacedWhileDead(w, states[i], events[i], key)
    && TakesFor(w, states[j], events[j], key) && StillOut(states, i, j, key)
  }

  ghost predicate NobodyComesBackEarly(w: World, states: seq<System>, events: seq<Event>, n: nat)
    requires |states| == |events| + 1
  {
    forall i: nat, j: nat, key :: j < n ==> !ComesBackEarly(w, states, events, i, j, key)
  }

  /** The step that let a send through, and that the send has been out ever since. */
  lemma {:induction false} OutSince(w: World, states: seq<System>, events: seq<Event>, j: nat, x: nat, key: KeyId)
    returns (m: nat)
    requires IsRun(w, states, events) && j < |states| && x in Unsettled(states[j], key)
    ensures m < j && Allows(w, states[m], events[m], key)
    ensures forall n :: m < n <= j ==> x in Unsettled(states[n], key)
  {
    if x in Unsettled(states[j - 1], key) {
      m := OutSince(w, states, events, j - 1, x, key);
    } else {
      m := j - 1;
      UnsettledStep(w, states[m], events[m], key);
    }
  }

  lemma TakerDoesNotOwn(w: World, s: System, e: Event, key: KeyId)
    requires Inv(w, s) && TakesFor(w, s, e, key)
    ensures s.token.owner != Some(key)
  {
  }

  /** The first unclean step of a run is a displaced key coming back early. */
  lemma FirstUnclean(w: World, states: seq<System>, events: seq<Event>, j: nat, key: KeyId) returns (i: nat)
    requires IsRun(w, states, events) && j < |events| && forall n :: 0 <= n < j ==> Clean(w, states[n], events[n])
    requires TakesFor(w, states[j], events[j], key) && Unsettled(states[j], key) != {}
    ensures ComesBackEarly(w, states, events, i, j, key)
  {
    var x :| x in Unsettled(states[j], key);
    var m := OutSince(w, states, events, j, x, key);
    AllowedOwns(w, states[m], events[m], key);
    RunInv(w, states, events, j);
    TakerDoesNotOwn(w, states[j], events[j], key);
    i := OwnershipLost(w, states, events, m + 1, j, key);
    if ReleasedBySettle(w, states[i], events[i], key) {
      NotReleasedWhileOut(w, states, events, i, x, key);
    }
    assert x in Unsettled(states[i], key);
  }

  /** In a clean run a claim is never released while another send of its owner stays out. */
  lemma NotReleasedWhileOut(w: World, states: seq<System>, events: seq<Event>, i: nat, x: nat, key: KeyId)
    requires IsRun(w, states, events) && i < |events| && forall n :: 0 <= n < i ==> Clean(w, states[n], events[n])
    requires x in Unsettled(states[i], key) && x in Unsettled(states[i + 1], key)
    ensures !ReleasedBySettle(w, states[i], events[i], key)
  {
    if ReleasedBySettle(w, states[i], events[i], key) {
      CleanRunLedger(w, states, events, i);
      LastOut(states[i], events[i].id);
      UnsettledStep(w, states[i], events[i], key);
    }
  }

  lemma {:induction false} CleanUnlessComesBack(w: World, states: seq<System>, events: seq<Event>, n: nat)
    requires IsRun(w, states, events) && n <= |events|
    ensures NobodyComesBackEarly(w, states, events, n) <==> forall j :: 0 <= j < n ==> Clean(w, states[j], events[j])
  {
    if n > 0 {
      CleanUnlessComesBack(w, states, events, n - 1);
      var j := n - 1;
      if (forall m :: 0 <= m < j ==> Clean(w, states[m], events[m])) && !Clean(w, states[j], events[j]) {
        var key :| TakesFor(w, states[j], events[j], key) && Unsettled(states[j], key) != {};
        var i := FirstUnclean(w, states, events, j, key);
      }
    }
  }

  /**
   The counter is exact throughout a run if and only if no key that was displaced takes the claim
   again while a send it was let through before is still out.
  */
  lemma CounterExactUnlessComesBack(w: World, states: seq<System>, events: seq<Event>)
    requires IsRun(w, states, events)
    ensures (forall i :: 0 <= i < |states| ==> Exact(states[i])) <==> NobodyComesBackEarly(w, states, events, |events|)
  {
    CounterExactIff(w, states, events);
    CleanUnlessComesBack(w, states, events, |events|);
  }

  /** So it is enough that a displaced key never takes the claim again at all. */
  lemma DisplacedForGood(w: World, states: seq<System>, events: seq<Event>)
    requires IsRun(w, states, events)
    requires forall i, j, key :: 0 <= i < j < |events| && DisplacedWhileDead(w, states[i], events[i], key) ==>
                                   !TakesFor(w, states[j], events[j], key)
    ensures NobodyComesBackEarly(w, states, events, |events|)
  {
  }

  /** `key` is not live, and send x was made with it. */
  ghost predicate DeadSender(w: World, s: System, x: nat, key: KeyId) {
    x in s.sends && s.sends[x].key == key && !LiveKey(w, s, key)
  }

  lemma DeadSenderStep(w: World, s: System, e: Event, x: nat, key: KeyId)
    requires KeyRegistry.Coherent(s.table, w.kv) && Enabled(w, s, e) && DeadSender(w, s, x, key)
    ensures DeadSender(w, Step(w, s, e), x, key)
  {
    assert Mentions(w, s, key);
    DeadStaysDead(w, s, e, key);
    SenderStays(w, s, e, x);
  }

  lemma SenderStays(w: World, s: System, e: Event, x: nat)
    requires Enabled(w, s, e) && x in s.sends
    ensures x in Step(w, s, e).sends && Step(w, s, e).sends[x].key == s.sends[x].key
  {
  }

  lemma RunKeepsDead(w: World, states: seq<System>, events: seq<Event>, x: nat, key: KeyId)
    requires IsRun(w, states, events)
    ensures forall j :: 0 <= j < |states| - 1 && DeadSender(w, states[j], x, key) ==>
                          DeadSender(w, states[j + 1], x, key)
  {
    forall j | 0 <= j < |events| && DeadSender(w, states[j], x, key) ensures DeadSender(w, states[j + 1], x, key) {
      RunInv(w, states, events, j);
      DeadSenderStep(w, states[j], events[j], x, key);
    }
  }

  /** A key that some send was made with, once not live, is never live again. */
  lemma {:induction false} DeadForGood(w: World, states: seq<System>, i: nat, j: nat, x: nat, key: KeyId)
    requires i <= j < |states| && DeadSender(w, states[i], x, key)
    requires forall j :: 0 <= j < |states| - 1 && DeadSender(w, states[j], x, key) ==>
                           DeadSender(w, states[j + 1], x, key)
    ensures DeadSender(w, states[j], x, key)
    decreases j - i
  {
    if i < j {
      DeadForGood(w, states, i, j - 1, x, key);
    }
  }

  /** And enough, too, that every key is live at the moment it takes a claim: what a caller checks before it sends. */
  lemma LiveTakersNeverComeBack(w: World, states: seq<System>, events: seq<Event>)
    requires IsRun(w, states, events)
    requires forall j, key :: 0 <= j < |events| && TakesFor(w, states[j], events[j], key) ==> LiveKey(w, states[j], key)
    ensures NobodyComesBackEarly(w, states, events, |events|)
  {
    forall i: nat, j: nat, key | ComesBackEarly(w, states, events, i, j, key) ensures false {
      var x :| x in Unsettled(states[i], key) && x in Unsettled(states[j], key);
      RunKeepsDead(w, states, events, x, key);
      DeadForGood(w, states, i, j, x, key);
    }
  }

  /**
   Where nobody comes back early a settle releases the owner's claim exactly when the claim was taken
   here, the send is the last one out, and nothing sent under the claim delivered, in whatever order
   the sends settle.
  */
  lemma ReleasedExactlyAtTheLastSettle(w: World, states: seq<System>, events: seq<Event>, n: nat)
    requires IsRun(w, states, events) && n < |events| && NobodyComesBackEarly(w, states, events, n)
    requires events[n].Settle? && states[n].token.owner == Some(states[n].sends[events[n].id].key)
    ensures
      var s, id := states[n], events[n].id;
      ReleasedBySettle(w, s, events[n], s.sends[id].key) <==>
      && s.claim > 0
      && (forall i :: i in s.sends && s.sends[i].Allowed? && s.sends[i].claim == s.claim ==> i == id)
      && !events[n].delivers && s.claim !in s.delivered
  {
    var s, id := states[n], events[n].id;
    CleanUnlessComesBack(w, states, events, n);
    RunInv(w, states, events, n);
    CleanRunLedger(w, states, events, n);
    LastOut(s, id);
    var out := Unsettled(s, s.sends[id].key);
    if forall i :: i in s.sends && s.sends[i].Allowed? && s.sends[i].claim == s.claim ==> i == id {
      assert out == {id};
    }
    if out == {id} {
      forall i | i in s.sends && s.sends[i].Allowed? && s.sends[i].claim == s.claim ensures i == id {
        assert i in out;
      }
    }
  }

  /** With no side condition at all: an unconfirmed claim is always in use by an unsettled send of its owner. */
  lemma UnconfirmedClaimIsInUse(w: World, states: seq<System>, events: seq<Event>, n: nat)
    requires IsRun(w, states, events) && n < |states|
    requires states[n].token.owner.Some? && !states[n].token.confirmed.GetOr(true)
    ensures Unsettled(states[n], states[n].token.owner.value) != {}
  {
    RunInv(w, states, events, n);
  }

  // ---- the takeover grace -----------------------------------------------------------------------

  /** What a send learned in its claim turn stays with it until it swaps or gives up. */
  lemma {:induction false} SeenIsKept(w: World, states: seq<System>, events: seq<Event>, i: nat, n: nat, id: nat)
    requires IsRun(w, states, events) && i < n < |states| && events[i].Begin? && events[i].id == id
    ensures id in states[n].sends
    ensures states[n].sends[id].Checking? || states[n].sends[id].TakingOver? ==>
              && states[i + 1].sends[id].Checking?
              && states[n].sends[id].owner == states[i + 1].sends[id].owner
              && states[n].sends[id].seenAt == states[i + 1].sends[id].seenAt
    decreases n - i
  {
    if i + 1 < n {
      SeenIsKept(w, states, events, i, n - 1, id);
    }
  }

  ghost predicate TakenBetween(w: World, states: seq<System>, events: seq<Event>, i: nat, n: nat, k: nat)
    requires |states| == |events| + 1 && n <= |events|
  {
    i < k < n && Takes(w, states[k], events[k])
  }

  /** The last step in between that took a claim, if any did. */
  ghost predicate IsLastTaken(w: World, states: seq<System>, events: seq<Event>, i: nat, n: nat, last: Option<nat>)
    requires |states| == |events| + 1 && n <= |events|
  {
    && (last.Some? ==> TakenBetween(w, states, events, i, n, last.value))
    && forall k: nat :: TakenBetween(w, states, events, i, n, k) ==> last.Some? && k <= last.value
  }

  lemma LastTakenStep(w: World, states: seq<System>, events: seq<Event>, i: nat, n: nat, last: Option<nat>)
    requires |states| == |events| + 1 && i < n < |events| && IsLastTaken(w, states, events, i, n, last)
    ensures IsLastTaken(w, states, events, i, n + 1, if Takes(w, states[n], events[n]) then Some(n) else last)
  {
    var m := n + 1;
    var now := if Takes(w, states[n], events[n]) then Some(n) else last;
    if now.Some? {
      assert TakenBetween(w, states, events, i, m, now.value);
    }
    forall k: nat | TakenBetween(w, states, events, i, m, k) ensures now.Some? && k <= now.value {
      assert k < n ==> TakenBetween(w, states, events, i, n, k);
    }
  }

  /** Past the adoption a step stamps the claim exactly when it takes one. */
  lemma StampStep(w: World, s: System, e: Event)
    requires Inv(w, s) && Enabled(w, s, e) && s.token.seeded
    ensures var t := Step(w, s, e);
      && t.token.seeded && t.claim == s.claim + (if Takes(w, s, e) then 1 else 0)
      && (t.token.owner.Some? && Takes(w, s, e) ==> t.token.claimedAt == Some(s.now))
      && (t.token.owner.Some? && !Takes(w, s, e) && s.token.claimedAt.Some? ==> t.token.claimedAt == s.token.claimedAt)
      && (t.token.owner.Some? && !Takes(w, s, e) ==> s.token.owner.Some?)
  {
  }

  /** The stamp the claim bears, if any: the one the send saw, or that of the last claim taken since. */
  ghost predicate StampFrom(states: seq<System>, i: nat, n: nat, seenAt: int, last: Option<nat>)
    requires i + 1 < |states| && n < |states| && (last.Some? ==> last.value < |states|)
  {
    && states[n].token.seeded
    && (states[n].token.owner.Some? ==>
          states[n].token.claimedAt == Some(if last.Some? then states[last.value].now else seenAt))
    && states[n].claim >= states[i + 1].claim && (states[n].claim == states[i + 1].claim <==> last == None)
  }

  lemma StampFromStep(w: World, states: seq<System>, events: seq<Event>, i: nat, n: nat, seenAt: int, last: Option<nat>)
    requires IsRun(w, states, events) && i < n < |events| && (last.Some? ==> last.value < |states|)
    requires StampFrom(states, i, n, seenAt, last)
    ensures StampFrom(states, i, n + 1, seenAt, if Takes(w, states[n], events[n]) then Some(n) else last)
  {
    RunInv(w, states, events, n);
    StampStep(w, states[n], events[n]);
  }

  lemma {:induction false} StampIsLastTaken(w: World, states: seq<System>, events: seq<Event>, i: nat, n: nat,
                                            seenAt: int)
    returns (last: Option<nat>)
    requires IsRun(w, states, events) && i < n <= |events| && StampFrom(states, i, i + 1, seenAt, None)
    ensures IsLastTaken(w, states, events, i, n, last) && StampFrom(states, i, n, seenAt, last)
    decreases n - i
  {
    if i + 1 == n {
      last := None;
    } else {
      last := StampIsLastTaken(w, states, events, i, n - 1, seenAt);
      LastTakenStep(w, states, events, i, n - 1, last);
      StampFromStep(w, states, events, i, n - 1, seenAt, last);
      last := if Takes(w, states[n - 1], events[n - 1]) then Some(n - 1) else last;
    }
  }

  lemma {:induction false} ClockRises(w: World, states: seq<System>, events: seq<Event>, i: nat, j: nat)
    requires IsRun(w, states, events) && i <= j < |states|
    ensures states[i].now <= states[j].now
    decreases j - i
  {
    if i < j {
      ClockRises(w, states, events, i, j - 1);
    }
  }

  /**
   When the grace protects, exactly: the claim a swap displaces is the very claim its send looked at,
   and older than the grace, if and only if no claim was taken in between; and it is younger than
   the grace if and only if one was taken in between, less than the grace before the swap.
  */
  lemma GraceMissesIff(w: World, states: seq<System>, events: seq<Event>, i: nat, n: nat, owner: KeyId)
    requires IsRun(w, states, events) && i < n < |events| && events[i].Begin? && events[n] == TakeOver(events[i].id)
    requires DisplacedWhileDead(w, states[n], events[n], owner)
    ensures states[n].token.claimedAt.Some?
    ensures states[n].claim == states[i + 1].claim <==> forall k: nat :: !TakenBetween(w, states, events, i, n, k)
    ensures states[n].now - states[n].token.claimedAt.value < CLAIM_TAKEOVER_GRACE_MS <==>
            exists k: nat :: TakenBetween(w, states, events, i, n, k) &&
                             states[n].now - states[k].now < CLAIM_TAKEOVER_GRACE_MS
  {
    SeenIsKept(w, states, events, i, n, events[i].id);
    var last := StampIsLastTaken(w, states, events, i, n, states[i + 1].sends[events[i].id].seenAt);
    RunInv(w, states, events, n);
    if last.Some? {
      assert TakenBetween(w, states, events, i, n, last.value);
      forall k: nat | TakenBetween(w, states, events, i, n, k) ensures states[k].now <= states[last.value].now {
        ClockRises(w, states, events, k, last.value);
      }
    }
  }

  /** A claim's stamp is set when the claim is taken or first seen, and never slides afterwards. */
  lemma StampNeverSlides(w: World, s: System, e: Event)
    requires Inv(w, s) && Enabled(w, s, e)
    requires Step(w, s, e).token.owner.Some?
    ensures
      var before, after := s.token.claimedAt, Step(w, s, e).token.claimedAt;
      if Takes(w, s, e) || Adopts(w, s, e) then after == Some(s.now)
      else if before.Some? then after == before
      else after == (if e.Begin? || e.TakeOver? then Some(s.now) else None)
  {
  }

  // ---- one send on its own ---------------------------------------------------------------------

  /** The three turns of one send with nothing in between. */
  ghost function Uninterrupted(w: World, s: System, id: nat, key: KeyId): System
    requires id !in s.sends
  {
    var s1 := Step(w, s, Begin(id, key));
    if !s1.sends[id].Checking? then s1
    else
      var s2 := Step(w, s1, Check(id));
      if s2.sends[id].TakingOver? then Step(w, s2, TakeOver(id)) else s2
  }

  /**
   Uninterrupted, a send is let through exactly when the token is free, is its key's already, or
   belongs to a key that is not live by a claim that has outlived the grace.
  */
  lemma LoneSendAllowedIff(w: World, s: System, id: nat, key: KeyId)
    requires Inv(w, s) && id !in s.sends
    ensures
      var owner := OwnerOf(s.token, w.legacyOwner);
      Uninterrupted(w, s, id, key).sends[id].Allowed? <==>
      || owner == None
      || owner == Some(key)
      || (s.token.owner.Some? && s.token.claimedAt.Some? &&
          s.now - s.token.claimedAt.value >= CLAIM_TAKEOVER_GRACE_MS && !LiveKey(w, s, owner.value))
  {
  }

  /**
   The same decision told by the tables alone. A send is let through at once by a free token or its
   own; past a claim of less than a minute never; and past an older one exactly when the owner's row
   is not active or has expired, or its KV record is disabled, outdated or expired, or there is
   neither.
  */
  lemma LoneSendByTheTables(w: World, s: System, id: nat, key: KeyId, owner: KeyId)
    requires Inv(w, s) && id !in s.sends && s.token.seeded && s.token.owner == Some(owner)
    ensures var allowed := Uninterrupted(w, s, id, key).sends[id].Allowed?;
            var ripe := s.token.claimedAt.Some? && s.now - s.token.claimedAt.value >= 60_000;
      && (owner == key ==> allowed)
      && (owner != key && !ripe ==> !allowed)
      && (owner != key && ripe ==>
            && (forall h :: h in s.table && s.table[h].id == owner ==>
                  var row := s.table[h];
                  (allowed <==> || row.status != KeyRegistry.Active
                                || (row.expiresAt.Some? && row.expiresAt.value <= s.now)))
            && (forall h :: h in w.kv && h !in s.table && w.kv[h].id == owner ==>
                  var k := w.kv[h];
                  (allowed <==> || !k.enabled || KeyRegistry.RegisteredAfter(s.table, k.ip, k.createdAt)
                                || (k.expiresAt.Some? && k.expiresAt.value <= s.now)))
            && ((forall h :: (h in s.table ==> s.table[h].id != owner) && (h in w.kv ==> w.kv[h].id != owner)) ==>
                  allowed))
  {
    LoneSendAllowedIff(w, s, id, key);
    forall h | h in s.table && s.table[h].id == owner
      ensures LiveKey(w, s, owner) <==>
              s.table[h].status == KeyRegistry.Active &&
              (s.table[h].expiresAt == None || s.table[h].expiresAt.value > s.now)
    {
      KeyRegistry.LiveInTable(s.table, w.kv, h, s.now);
    }
    forall h | h in w.kv && h !in s.table && w.kv[h].id == owner
      ensures LiveKey(w, s, owner) <==>
              && w.kv[h].enabled && !KeyRegistry.RegisteredAfter(s.table, w.kv[h].ip, w.kv[h].createdAt)
              && (w.kv[h].expiresAt == None || w.kv[h].expiresAt.value > s.now)
    {
      KeyRegistry.LiveInKv(s.table, w.kv, h, s.now);
    }
    if forall h :: (h in s.table ==> s.table[h].id != owner) && (h in w.kv ==> w.kv[h].id != owner) {
      KeyRegistry.LiveNowhere(s.table, w.kv, owner, s.now);
    }
  }

  /** A token nobody owns lets the first send through; one with only the KV index's owner lets that key through. */
  lemma LoneSendOnFreshToken(w: World, s: System, id: nat, key: KeyId)
    requires Inv(w, s) && id !in s.sends && s.token.owner == None
    ensures Uninterrupted(w, s, id, key).sends[id].Allowed? <==>
            s.token.seeded || w.legacyOwner == None || w.legacyOwner == Some(key)
  {
    LoneSendAllowedIff(w, s, id, key);
  }

  // ---- two runs in which the code does less than its comments promise -------------------------

  const FRESH := Token(false, None, None, None, None)

  function KeyRow(id: KeyId): KeyRegistry.Row {
    KeyRegistry.Row(id, "", Some("198.51.100.7"), 0, None, "self", false, KeyRegistry.Active, None)
  }

  /** An empty world with two active keys, "a" and "b". */
  const EMPTY := World(map[], None)
  const KEYS: KeyRegistry.Table := map["ha" := KeyRow("a"), "hb" := KeyRow("b").(ip := Some("203.0.113.9"))]
  const START := System(FRESH, KEYS, 0, map[], 0, {})

  /** "a" sends, a grace period passes, and its key is revoked. */
  lemma RevokedRun() returns (states: seq<System>, events: seq<Event>)
    ensures IsRun(EMPTY, states, events) && |events| == 3
    ensures events[0] == Begin(0, "a")
    ensures states[3].token == Token(true, Some("a"), Some(false), Some(1), Some(0))
    ensures states[3].table == START.table["ha" := KeyRow("a").(status := KeyRegistry.Revoked)]
    ensures states[3].now == 60_000 && states[3].claim == 1 && states[3].delivered == {}
    ensures states[3].sends == map[0 := Allowed("a", 1)]
  {
    states, events := [START], [];
    states, events := Extend(states, events, Begin(0, "a"));
    states, events := Extend(states, events, Wait(60_000));
    states, events := Extend(states, events, Registry(KeyRegistry.RevokeOp("ha")));
  }

  /** Then "b" asks for the token and finds its owner's key gone. */
  lemma RevokedOwnerRun() returns (states: seq<System>, events: seq<Event>)
    ensures IsRun(EMPTY, states, events) && |events| == 5
    ensures events[0] == Begin(0, "a")
    ensures states[5].token == Token(true, Some("a"), Some(false), Some(1), Some(0))
    ensures states[5].now == 60_000 && states[5].claim == 1 && states[5].delivered == {}
    ensures states[5].sends == map[0 := Allowed("a", 1), 1 := TakingOver("b", "a", 0)]
  {
    states, events := RevokedRun();
    states, events := Extend(states, events, Begin(1, "b"));
    KeyRegistry.ResolveIdIsResolve(states[4].table, map[], "a", "ha");
    states, events := Extend(states, events, Check(1));
  }

  lemma Extend(states: seq<System>, events: seq<Event>, e: Event) returns (states': seq<System>, events': seq<Event>)
    requires IsRun(EMPTY, states, events) && Enabled(EMPTY, states[|events|], e)
    ensures states' == states + [Step(EMPTY, states[|events|], e)] && events' == events + [e]
    ensures IsRun(EMPTY, states', events')
  {
    states', events' := states + [Step(EMPTY, states[|events|], e)], events + [e];
  }

  /**
   "b" displaces "a", fails, and so frees the token; a request of "a" that still passed on a cached
   key claims again. The first send of "a", settling late, is counted out of the new claim and
   releases it while the newer send is still on its way.
  */
  lemma EarlyReleaseRun() returns (states: seq<System>, events: seq<Event>)
    ensures IsRun(EMPTY, states, events) && |events| == 9
    ensures ReleasedBySettle(EMPTY, states[8], events[8], "a")
    ensures Unsettled(states[9], "a") == {2} && states[9].sends[2] == Allowed("a", states[8].claim)
  {
    states, events := RevokedOwnerRun();
    states, events := Extend(states, events, TakeOver(1));
    states, events := Extend(states, events, Settle(1, false));
    states, events := Extend(states, events, Begin(2, "a"));
    states, events := Extend(states, events, Settle(0, false));
  }

  /**
   The same start, but "a"'s own claim is released and taken again, by "a", before the swap: the
   swap then displaces a claim of age zero, well inside the grace.
  */
  lemma YoungClaimDisplacedRun() returns (states: seq<System>, events: seq<Event>)
    ensures IsRun(EMPTY, states, events) && |events| == 8
    ensures DisplacedWhileDead(EMPTY, states[7], events[7], "a")
    ensures states[7].token.claimedAt == Some(states[7].now)
  {
    states, events := RevokedOwnerRun();
    states, events := Extend(states, events, Settle(0, false));
    states, events := Extend(states, events, Begin(2, "a"));
    states, events := Extend(states, events, TakeOver(1));
    RunInv(EMPTY, states, events, 7);
  }
}
