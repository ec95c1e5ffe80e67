/**
 A server's side of the push relay: many sends share one self-registered key, and when the relay
 says the key is superseded or unknown, one of them registers a new one while the others wait.
 Composed here with the relay's own registry, so that what the endpoint holds can be compared with
 what the relay honours.
*/
module RelayRenewal {
  import opened Common
  import opened KeyRegistry

  datatype Answer = Accepted | Refused | Renewable

  // ---- the endpoint ---------------------------------------------------------------------------------------

  /** What becomes of one registration request. */
  datatype Delivery = Unreached | AnswerLost | Delivered

  /** The endpoint's key and the relay's table afterwards, and the key to send again with, if any. */
  datatype Renewal = Renewal(key: Hash, table: Table, renewed: Option<Hash>)

  ghost function Renewed(key: Hash, t: Table, stale: Hash, minted: NewKey, delivery: Delivery): Renewal {
    if key != stale then Renewal(key, t, Some(key))
    else if delivery == Unreached || Register(t, minted).Err? then Renewal(key, t, None)
    else
      var after := Register(t, minted).value;
      if delivery == AnswerLost then Renewal(key, after, None) else Renewal(minted.hash, after, Some(minted.hash))
  }

  class RelayEndpoint {
    var key: Hash
    /** False for an operator-supplied key, which registering again would discard. */
    const renewable: bool

    constructor (key: Hash, renewable: bool)
      ensures this.key == key && this.renewable == renewable
    {
      this.key, this.renewable := key, renewable;
    }

    /**
     Under the endpoint's lock: a key somebody else already replaced is not replaced again. Otherwise
     one registration, which may fail to reach the relay, or take effect there and lose its answer.
    */
    method Renew(stale: Hash, relay: KeyTable, minted: NewKey, delivery: Delivery) returns (renewed: Option<Hash>)
      requires relay.Valid()
      modifies this, relay
      ensures relay.Valid()
      ensures Renewal(key, relay.rows, renewed) == Renewed(old(key), old(relay.rows), stale, minted, delivery)
      ensures old(key) != stale ==> renewed == Some(old(key)) && key == old(key) && relay.rows == old(relay.rows)
      ensures old(key) == stale ==>
                var taken := minted.hash in old(relay.rows) ||
                             exists h :: h in old(relay.rows) && old(relay.rows)[h].id == minted.id;
                if delivery == Unreached || taken then
                  renewed == None && key == stale && relay.rows == old(relay.rows)
                else
                  && minted.hash in relay.rows && relay.rows[minted.hash].status == Active
                  && relay.rows[minted.hash].ip == Some(minted.ip)
                  && (forall h :: h in relay.rows && h != minted.hash && relay.rows[h].ip == Some(minted.ip) ==>
                                    relay.rows[h].status != Active)
                  && (delivery == AnswerLost ==> renewed == None && key == stale)
                  && (delivery == Delivered ==> renewed == Some(minted.hash) && key == minted.hash)
    {
      if key != stale {
        return Some(key);
      }
      if delivery == Unreached {
        return None;
      }
      var registered := relay.RegisterKey(minted);
      if registered.Err? || delivery == AnswerLost {
        return None;
      }
      key := minted.hash;
      renewed := Some(key);
    }
  }

  // ---- concurrent sends -----------------------------------------------------------------------------------

  /** The address the relay sees the server at, the relay's KV records, and whether the key may be renewed. */
  datatype World = World(ip: string, kv: Kv, renewable: bool)

  datatype Phase =
    | Sending(key: Hash)
    | Renewing(stale: Hash)
    | Registering(stale: Hash)
    | Answered(stale: Hash, key: Hash)
    | Resending(key: Hash)
    | Over

  datatype Sender = Sender(phase: Phase, sends: nat, registrations: nat)

  /**
   `used`, `successions` and `renewals` are history: every key the endpoint saw, who replaced whom, and
   how many registrations succeeded.
  */
  datatype State = State(
    table: Table,
    key: Hash,
    holder: Option<nat>,
    senders: map<nat, Sender>,
    used: set<Hash>,
    successions: seq<(Hash, Hash)>,
    renewals: nat)

  datatype Event =
    | Begin(r: nat)
    | Send(r: nat, answer: Answer)
    | TakeLock(r: nat)
    | RegisterNew(r: nat, minted: NewKey)
    | RegisterFails(r: nat)
    | Deliver(r: nat)
    | Lose(r: nat)
    | Registry(op: Op)

  function PhaseOf(s: State, r: nat): Phase {
    if r in s.senders then s.senders[r].phase else Over
  }

  /** The relay tells a key to renew only when it is superseded or on no record. */
  ghost predicate Unhonoured(w: World, s: State, key: Hash) {
    var row := Resolve(s.table, w.kv, key);
    row == None || row.value.status == Superseded
  }

  ghost predicate Enabled(w: World, s: State, e: Event) {
    match e
    case Begin(r) => r !in s.senders && s.holder == None
    case Send(r, answer) =>
      && (PhaseOf(s, r).Sending? || PhaseOf(s, r).Resending?)
      && (answer == Renewable ==> Unhonoured(w, s, PhaseOf(s, r).key))
    case TakeLock(r) => PhaseOf(s, r).Renewing? && s.holder == None
    case RegisterNew(r, k) =>
      s.holder == Some(r) && PhaseOf(s, r).Registering? && k.ip == w.ip && Minted(s.table, w.kv, k) && k.hash !in s.used
    case RegisterFails(r) => s.holder == Some(r) && PhaseOf(s, r).Registering?
    case Deliver(r) => s.holder == Some(r) && PhaseOf(s, r).Answered?
    case Lose(r) => s.holder == Some(r) && PhaseOf(s, r).Answered?
    case Registry(op) => Genuine(s.table, w.kv, op) && (op.RegisterOp? ==> op.key.hash !in s.used)
  }

  function Moved(s: State, r: nat, q: Sender): map<nat, Sender> {
    s.senders[r := q]
  }

  ghost function Step(w: World, s: State, e: Event): State
    requires Enabled(w, s, e)
  {
    match e
    case Begin(r) => s.(senders := Moved(s, r, Sender(Sending(s.key), 0, 0)))
    case Send(r, answer) =>
      var q := s.senders[r];
      var again := q.phase.Sending? && answer == Renewable && w.renewable;
      s.(senders := Moved(s, r, q.(phase := if again then Renewing(q.phase.key) else Over, sends := q.sends + 1)))
    case TakeLock(r) =>
      var q := s.senders[r];
      s.(holder := if s.key == q.phase.stale then Some(r) else None,
         senders := Moved(s, r, q.(phase := if s.key == q.phase.stale then Registering(s.key) else Resending(s.key))))
    case RegisterNew(r, k) =>
      var q := s.senders[r];
      s.(table := Apply(s.table, w.kv, RegisterOp(k)), used := s.used + {k.hash}, renewals := s.renewals + 1,
         senders := Moved(s, r, Sender(Answered(q.phase.stale, k.hash), q.sends, q.registrations + 1)))
    case RegisterFails(r) =>
      var q := s.senders[r];
      s.(holder := None, senders := Moved(s, r, Sender(Over, q.sends, q.registrations + 1)))
    case Deliver(r) =>
      var q := s.senders[r];
      s.(holder := None, key := q.phase.key, successions := s.successions + [(q.phase.stale, q.phase.key)],
         senders := Moved(s, r, q.(phase := Resending(q.phase.key))))
    case Lose(r) => s.(holder := None, senders := Moved(s, r, s.senders[r].(phase := Over)))
    case Registry(op) => s.(table := Apply(s.table, w.kv, op))
  }

  ghost predicate Init(w: World, s: State) {
    && Coherent(s.table, w.kv)
    && s.holder == None && s.senders == map[] && s.used == {s.key} && s.successions == [] && s.renewals == 0
  }

  // ---- one renewal with nothing in between --------------------------------------------------------------------

  /** Take the lock; register, unless the key has moved on; and deliver or lose the answer. */
  ghost function RenewAlone(w: World, s: State, r: nat, minted: NewKey, delivery: Delivery): State
    requires Enabled(w, s, TakeLock(r))
    requires minted.ip == w.ip && Minted(s.table, w.kv, minted) && minted.hash !in s.used
  {
    var a := Step(w, s, TakeLock(r));
    if a.holder == None then a
    else if delivery == Unreached then Step(w, a, RegisterFails(r))
    else
      var b := Step(w, a, RegisterNew(r, minted));
      Step(w, b, if delivery == AnswerLost then Lose(r) else Deliver(r))
  }

  /** The machine's renewal steps in a row do what Renew does, and the sender goes on with the key it returns. */
  lemma RenewAloneIsRenew(w: World, s: State, r: nat, minted: NewKey, delivery: Delivery)
    requires Enabled(w, s, TakeLock(r))
    requires minted.ip == w.ip && Minted(s.table, w.kv, minted) && minted.hash !in s.used
    ensures var t := RenewAlone(w, s, r, minted, delivery);
            var done := Renewed(s.key, s.table, s.senders[r].phase.stale, minted, delivery);
      && t.holder == None && t.key == done.key && t.table == done.table
      && PhaseOf(t, r) == if done.renewed.Some? then Resending(done.renewed.value) else Over
  {
    assert Register(s.table, minted).Ok?;
  }

  // ---- what every step keeps --------------------------------------------------------------------------------

  predicate Counted(q: Sender) {
    match q.phase
    case Sending(_) => q.sends == 0 && q.registrations == 0
    case Renewing(_) => q.sends == 1 && q.registrations == 0
    case Registering(_) => q.sends == 1 && q.registrations == 0
    case Answered(_, _) => q.sends == 1 && q.registrations == 1
    case Resending(_) => q.sends == 1 && q.registrations <= 1
    case Over => q.sends <= 2 && q.registrations <= 1
  }

  /** Only the holder registers, and the key stays the stale one until it is done. */
  ghost predicate Locked(s: State, r: nat, q: Sender) {
    && (q.phase.Registering? || q.phase.Answered? <==> s.holder == Some(r))
    && (q.phase.Registering? ==> q.phase.stale == s.key)
    && (q.phase.Answered? ==> q.phase.stale == s.key && q.phase.key != s.key && q.phase.key in s.used &&
                              forall i :: 0 <= i < |s.successions| ==> s.successions[i].0 != q.phase.key)
  }

  ghost predicate CountedInv(s: State) {
    forall r :: r in s.senders ==> Counted(s.senders[r])
  }

  ghost predicate LockedInv(s: State) {
    && (s.holder.Some? ==> s.holder.value in s.senders)
    && forall r :: r in s.senders ==> Locked(s, r, s.senders[r])
  }

  ghost predicate SuccessionInv(s: State) {
    && s.key in s.used
    && (forall i :: 0 <= i < |s.successions| ==> s.successions[i].0 in s.used && s.successions[i].0 != s.key)
    && (forall i, j :: 0 <= i < j < |s.successions| ==> s.successions[i].0 != s.successions[j].0)
  }

  lemma StepKeepsCounts(w: World, s: State, e: Event)
    requires Enabled(w, s, e) && CountedInv(s)
    ensures CountedInv(Step(w, s, e))
  {
  }

  lemma StepKeepsLock(w: World, s: State, e: Event)
    requires Enabled(w, s, e) && LockedInv(s) && SuccessionInv(s)
    ensures LockedInv(Step(w, s, e))
  {
  }

  lemma StepKeepsSuccession(w: World, s: State, e: Event)
    requires Enabled(w, s, e) && LockedInv(s) && SuccessionInv(s)
    ensures SuccessionInv(Step(w, s, e))
  {
  }

  ghost predicate Inv(w: World, s: State) {
    Coherent(s.table, w.kv) && CountedInv(s) && LockedInv(s) && SuccessionInv(s)
  }

  lemma StepKeepsInv(w: World, s: State, e: Event)
    requires Inv(w, s) && Enabled(w, s, e)
    ensures Inv(w, Step(w, s, e))
  {
    StepKeepsCounts(w, s, e);
    StepKeepsLock(w, s, e);
    StepKeepsSuccession(w, s, e);
    TableStaysCoherent(w, s, e);
  }

  lemma TableStaysCoherent(w: World, s: State, e: Event)
    requires Coherent(s.table, w.kv) && Enabled(w, s, e)
    ensures Coherent(Step(w, s, e).table, w.kv)
  {
    match e
    case RegisterNew(_, k) => StepKeepsCoherent(s.table, w.kv, RegisterOp(k));
    case Registry(op) => StepKeepsCoherent(s.table, w.kv, op);
    case _ =>
  }

  ghost predicate StepAt(w: World, states: seq<State>, events: seq<Event>, i: nat)
    requires i < |events| && |states| == |events| + 1
  {
    Enabled(w, states[i], events[i]) && states[i + 1] == Step(w, states[i], events[i])
  }

  ghost predicate IsRun(w: World, states: seq<State>, events: seq<Event>) {
    && |states| == |events| + 1 && Init(w, states[0])
    && forall i :: 0 <= i < |events| ==> StepAt(w, states, events, i)
  }

  lemma {:induction false} RunInv(w: World, states: seq<State>, events: seq<Event>, i: nat)
    requires IsRun(w, states, events) && i < |states|
    ensures Inv(w, states[i])
  {
    if i > 0 {
      assert StepAt(w, states, events, i - 1);
      RunInv(w, states, events, i - 1);
      StepKeepsInv(w, states[i - 1], events[i - 1]);
    }
  }

  /** However many sends meet the same stale key, each key value is replaced at most once, and never comes back. */
  lemma EachKeyIsReplacedOnce(w: World, states: seq<State>, events: seq<Event>, n: nat, i: nat, j: nat)
    requires IsRun(w, states, events) && n < |states| && i < j < |states[n].successions|
    ensures states[n].successions[i].0 != states[n].successions[j].0
    ensures states[n].successions[i].0 != states[n].key
  {
    RunInv(w, states, events, n);
  }

  /** One push costs at most two sends and one registration. */
  lemma EachPushIsBounded(w: World, states: seq<State>, events: seq<Event>, n: nat, r: nat)
    requires IsRun(w, states, events) && n < |states| && r in states[n].senders
    ensures states[n].senders[r].sends <= 2 && states[n].senders[r].registrations <= 1
  {
    RunInv(w, states, events, n);
  }

  // ---- the endpoint's key against the relay's registry --------------------------------------------------------

  /** The key the endpoint holds, or is just being told. */
  function Latest(s: State): Hash {
    if s.holder.Some? && PhaseOf(s, s.holder.value).Answered? then PhaseOf(s, s.holder.value).key else s.key
  }

  /** `key` is a key registered here, and the only one its address answers with. */
  ghost predicate SoleActive(w: World, t: Table, key: Hash) {
    && key in t && !t[key].fromKv && ActiveAt(t[key], w.ip)
    && forall h :: ActiveFrom(t, w.kv, h, w.ip) ==> h == key
  }

  /**
   Nobody else registers from this address, an operator does not revoke the endpoint's keys, no
   registration's answer is lost, and KV holds nothing of this address younger than a registration.
  */
  ghost predicate Calm(w: World, s: State, e: Event) {
    match e
    case Lose(_) => false
    case RegisterNew(_, k) => Outdates(s.table, w.kv, k)
    case Registry(op) =>
      && (op.RegisterOp? ==> op.key.ip != w.ip)
      && (op.RevokeOp? ==> op.hash !in s.used)
    case _ => true
  }

  lemma OthersLeaveSoleActive(w: World, t: Table, op: Op, key: Hash)
    requires Coherent(t, w.kv) && Genuine(t, w.kv, op) && SoleActive(w, t, key)
    requires (op.RegisterOp? ==> op.key.ip != w.ip) && (op.RevokeOp? ==> op.hash != key)
    ensures SoleActive(w, Apply(t, w.kv, op), key)
  {
    forall h | ActiveFrom(Apply(t, w.kv, op), w.kv, h, w.ip) ensures h == key {
      ActiveWasActive(t, w.kv, op, h, w.ip);
    }
  }

  lemma RegistrationIsSoleActive(w: World, t: Table, k: NewKey)
    requires Coherent(t, w.kv) && Minted(t, w.kv, k) && Outdates(t, w.kv, k) && k.ip == w.ip
    ensures SoleActive(w, Apply(t, w.kv, RegisterOp(k)), k.hash)
  {
    forall h | ActiveFrom(Apply(t, w.kv, RegisterOp(k)), w.kv, h, w.ip) ensures h == k.hash {
      RegistrationLeavesOne(t, w.kv, k, h);
    }
  }

  ghost predicate Inactive(w: World, t: Table, key: Hash) {
    var row := Resolve(t, w.kv, key);
    row == None || row.value.status != Active
  }

  /** A key somebody is renewing is not active at the relay, and never will be again. */
  ghost predicate DoomedInv(w: World, s: State) {
    forall r :: r in s.senders && (s.senders[r].phase.Renewing? || s.senders[r].phase.Registering?) ==>
                  Inactive(w, s.table, s.senders[r].phase.stale) && s.senders[r].phase.stale in s.used
  }

  predicate Uses(s: State) {
    forall r :: r in s.senders && s.senders[r].phase.Sending? ==> s.senders[r].phase.key in s.used
  }

  /** Once a registration has succeeded, the endpoint's latest key is its address's one active key. */
  ghost predicate SettledInv(w: World, s: State) {
    s.renewals > 0 ==> SoleActive(w, s.table, Latest(s))
  }

  lemma TableKeepsInactive(w: World, t: Table, op: Op, key: Hash)
    requires Coherent(t, w.kv) && Genuine(t, w.kv, op) && Inactive(w, t, key)
    requires op.RegisterOp? ==> op.key.hash != key
    ensures Inactive(w, Apply(t, w.kv, op), key)
  {
    InactiveStaysInactive(t, w.kv, op, key);
  }

  lemma StepKeepsDoomed(w: World, s: State, e: Event)
    requires Inv(w, s) && Uses(s) && DoomedInv(w, s) && Enabled(w, s, e)
    ensures Uses(Step(w, s, e)) && DoomedInv(w, Step(w, s, e))
  {
    var t := Step(w, s, e);
    forall r | r in t.senders && (t.senders[r].phase.Renewing? || t.senders[r].phase.Registering?)
      ensures Inactive(w, t.table, t.senders[r].phase.stale) && t.senders[r].phase.stale in t.used
    {
      match e
      case RegisterNew(_, k) => TableKeepsInactive(w, s.table, RegisterOp(k), t.senders[r].phase.stale);
      case Registry(op) => TableKeepsInactive(w, s.table, op, t.senders[r].phase.stale);
      case _ =>
    }
  }

  lemma LatestIsUsed(s: State)
    requires LockedInv(s) && SuccessionInv(s)
    ensures Latest(s) in s.used
  {
  }

  lemma StepKeepsSettled(w: World, s: State, e: Event)
    requires Inv(w, s) && SettledInv(w, s) && Enabled(w, s, e) && Calm(w, s, e)
    ensures SettledInv(w, Step(w, s, e))
  {
    match e
    case RegisterNew(_, k) => RegistrationIsSoleActive(w, s.table, k);
    case Registry(op) =>
      if s.renewals > 0 {
        LatestIsUsed(s);
        OthersLeaveSoleActive(w, s.table, op, Latest(s));
      }
    case _ => LatestMovesOnlyByRenewal(w, s, e);
  }

  lemma LatestMovesOnlyByRenewal(w: World, s: State, e: Event)
    requires LockedInv(s) && Enabled(w, s, e) && !e.RegisterNew? && !e.Lose?
    ensures Latest(Step(w, s, e)) == Latest(s)
  {
  }

  /** A sender past the lock holds the endpoint's own key, so a settled endpoint registers nothing more. */
  lemma SettledRegistersNothing(w: World, s: State, e: Event)
    requires Inv(w, s) && DoomedInv(w, s) && Enabled(w, s, e) && SoleActive(w, s.table, Latest(s))
    ensures !e.RegisterNew?
  {
    assert !Inactive(w, s.table, Latest(s));
  }

  ghost predicate CalmRun(w: World, states: seq<State>, events: seq<Event>) {
    && IsRun(w, states, events)
    && forall i :: 0 <= i < |events| ==> Calm(w, states[i], events[i])
  }

  lemma {:induction false} CalmInv(w: World, states: seq<State>, events: seq<Event>, i: nat)
    requires CalmRun(w, states, events) && i < |states|
    ensures Inv(w, states[i]) && Uses(states[i]) && DoomedInv(w, states[i]) && SettledInv(w, states[i])
    ensures states[i].renewals <= 1
  {
    RunInv(w, states, events, i);
    if i > 0 {
      assert StepAt(w, states, events, i - 1) && Calm(w, states[i - 1], events[i - 1]);
      CalmInv(w, states, events, i - 1);
      StepKeepsDoomed(w, states[i - 1], events[i - 1]);
      StepKeepsSettled(w, states[i - 1], events[i - 1]);
      if states[i - 1].renewals > 0 {
        SettledRegistersNothing(w, states[i - 1], events[i - 1]);
      }
    }
  }

  /**
   With fresh keys, no answer lost and nobody else on the address, whatever the state the endpoint
   started from and however many sends run at once: at most one registration ever succeeds, and from
   then on the key the endpoint holds, or is being told, is its address's one active native key.
  */
  lemma RenewalSettles(w: World, states: seq<State>, events: seq<Event>, n: nat)
    requires CalmRun(w, states, events) && n < |states|
    ensures states[n].renewals <= 1
    ensures states[n].renewals == 1 ==> SoleActive(w, states[n].table, Latest(states[n]))
    ensures states[n].renewals == 1 && states[n].holder == None ==> SoleActive(w, states[n].table, states[n].key)
  {
    CalmInv(w, states, events, n);
  }

  lemma StepKeepsActive(w: World, s: State, e: Event)
    requires Inv(w, s) && DoomedInv(w, s) && Enabled(w, s, e) && Calm(w, s, e) && SoleActive(w, s.table, Latest(s))
    ensures SoleActive(w, Step(w, s, e).table, Latest(Step(w, s, e))) && Step(w, s, e).renewals == s.renewals
  {
    SettledRegistersNothing(w, s, e);
    LatestMovesOnlyByRenewal(w, s, e);
    if e.Registry? {
      LatestIsUsed(s);
      OthersLeaveSoleActive(w, s.table, e.op, Latest(s));
    }
  }

  /**
   And from an endpoint whose key is its address's one active native key to begin with: nothing is
   ever registered, and it stays that.
  */
  lemma {:induction false} ActiveStaysActive(w: World, states: seq<State>, events: seq<Event>, n: nat)
    requires CalmRun(w, states, events) && n < |states| && SoleActive(w, states[0].table, states[0].key)
    ensures SoleActive(w, states[n].table, Latest(states[n])) && states[n].renewals == 0
  {
    if n > 0 {
      assert StepAt(w, states, events, n - 1) && Calm(w, states[n - 1], events[n - 1]);
      ActiveStaysActive(w, states, events, n - 1);
      CalmInv(w, states, events, n - 1);
      StepKeepsActive(w, states[n - 1], events[n - 1]);
    }
  }

  /**
   One push whose key the relay no longer knows, or calls superseded, on its own: a renewable endpoint
   ends up about to send again with a key that is the address's one active key, after one registration;
   an operator's own key is left alone and the push ends.
  */
  lemma LonePush(w: World, s: State, r: nat, minted: NewKey)
    requires Inv(w, s) && r !in s.senders && s.holder == None
    requires Resolve(s.table, w.kv, s.key) == None || Resolve(s.table, w.kv, s.key).value.status == Superseded
    requires minted.ip == w.ip && Minted(s.table, w.kv, minted) && minted.hash !in s.used
    requires Outdates(s.table, w.kv, minted)
    ensures Enabled(w, s, Begin(r)) && Enabled(w, Step(w, s, Begin(r)), Send(r, Renewable))
    ensures var a := Step(w, Step(w, s, Begin(r)), Send(r, Renewable));
      if w.renewable then
        && Enabled(w, a, TakeLock(r))
        && var t := RenewAlone(w, a, r, minted, Delivered);
           && PhaseOf(t, r) == Resending(minted.hash) && t.key == minted.hash && SoleActive(w, t.table, minted.hash)
           && t.senders[r].sends == 1 && t.senders[r].registrations == 1 && t.renewals == s.renewals + 1
      else PhaseOf(a, r) == Over && a.key == s.key && a.table == s.table
  {
    RegistrationIsSoleActive(w, s.table, minted);
  }

  /** An operator's own key is never replaced and nothing is registered for it, whatever the relay answers. */
  lemma {:induction false} FixedKeyIsKept(w: World, states: seq<State>, events: seq<Event>, n: nat)
    requires IsRun(w, states, events) && n < |states| && !w.renewable
    ensures states[n].key == states[0].key && states[n].renewals == 0 && states[n].holder == None
    ensures forall r :: r in states[n].senders ==>
                          states[n].senders[r].registrations == 0 && states[n].senders[r].sends <= 1 &&
                          (states[n].senders[r].phase.Sending? || states[n].senders[r].phase.Over?)
  {
    if n > 0 {
      assert StepAt(w, states, events, n - 1);
      FixedKeyIsKept(w, states, events, n - 1);
      RunInv(w, states, events, n - 1);
    }
  }

  /** A registration whose answer is lost leaves the endpoint with a key its address no longer answers with. */
  lemma LostAnswerLeavesStaleKey(w: World, s: State, r: nat, k: NewKey)
    requires Inv(w, s) && Enabled(w, s, RegisterNew(r, k)) && Outdates(s.table, w.kv, k)
    ensures var t := Step(w, s, RegisterNew(r, k));
      && Enabled(w, t, Lose(r))
      && var u := Step(w, t, Lose(r));
         && u.holder == None && u.key != k.hash
         && SoleActive(w, u.table, k.hash) && !ActiveFrom(u.table, w.kv, u.key, w.ip)
  {
    RegistrationIsSoleActive(w, s.table, k);
  }
}
