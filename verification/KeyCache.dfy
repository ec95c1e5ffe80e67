/**
 The 30-second cache of active keys in front of the registry. Lookups take several turns, and other
 lookups, registrations and clock ticks fall between them; still, whatever a lookup is served was
 the registry's own answer less than 30 seconds before the lookup began.
*/
module KeyCache {
  import opened Common
  import opened KeyRegistry

  const TTL_MS := 30_000
  const MAX_ENTRIES := 1024

  datatype Entry = Entry(row: Row, until: int)

  /** A map that remembers insertion order. */
  datatype Cache = Cache(entries: map<Hash, Entry>, order: seq<Hash>)

  const EMPTY := Cache(map[], [])

  predicate NoRepeats(s: seq<Hash>) {
    forall i, j :: 0 <= i < j < |s| ==> s[i] != s[j]
  }

  ghost predicate WellFormed(c: Cache) {
    && NoRepeats(c.order)
    && (forall h :: h in c.entries <==> h in c.order)
    && |c.order| <= MAX_ENTRIES
  }

  function Remove(s: seq<Hash>, hash: Hash): seq<Hash> {
    if s == [] then [] else (if s[0] == hash then [] else [s[0]]) + Remove(s[1..], hash)
  }

  function Without(c: Cache, hash: Hash): Cache {
    Cache(c.entries - {hash}, Remove(c.order, hash))
  }

  function With(c: Cache, hash: Hash, e: Entry): Cache {
    Cache(c.entries[hash := e], if hash in c.entries then c.order else c.order + [hash])
  }

  /** The oldest entry makes room when the cache is full. */
  function Kept(c: Cache, hash: Hash, e: Entry): Cache {
    With(if |c.order| >= MAX_ENTRIES then Without(c, c.order[0]) else c, hash, e)
  }

  predicate Expired(row: Row, now: int) {
    row.expiresAt.Some? && row.expiresAt.value <= now
  }

  function Hit(c: Cache, hash: Hash, now: int): Option<Row> {
    if hash in c.entries && c.entries[hash].until > now && !Expired(c.entries[hash].row, now)
    then Some(c.entries[hash].row) else None
  }

  lemma {:induction false} RemoveDrops(s: seq<Hash>, hash: Hash)
    requires NoRepeats(s)
    ensures var r := Remove(s, hash);
            NoRepeats(r) && |r| == (if hash in s then |s| - 1 else |s|) && forall h :: h in r <==> h in s && h != hash
  {
    if s != [] {
      RemoveDrops(s[1..], hash);
      assert s == [s[0]] + s[1..];
      var rest := Remove(s[1..], hash);
      assert s[0] !in s[1..] && s[0] !in rest;
      assert Remove(s, hash) == if s[0] == hash then rest else [s[0]] + rest;
    }
  }

  lemma WithoutIsWellFormed(c: Cache, hash: Hash)
    requires WellFormed(c)
    ensures WellFormed(Without(c, hash))
  {
    RemoveDrops(c.order, hash);
  }

  /** Keeping an answer never grows the cache past its limit, and costs at most the oldest entry. */
  lemma KeptIsWellFormed(c: Cache, hash: Hash, e: Entry)
    requires WellFormed(c)
    ensures var k := Kept(c, hash, e);
      && WellFormed(k) && hash in k.entries && k.entries[hash] == e
      && (forall h :: h in k.entries && h != hash ==> h in c.entries && k.entries[h] == c.entries[h])
      && (forall h :: h in c.entries && h != hash && h !in k.entries ==> |c.order| == MAX_ENTRIES && h == c.order[0])
  {
    if |c.order| >= MAX_ENTRIES {
      RemoveDrops(c.order, c.order[0]);
    }
  }

  lemma SizeIsOrder(c: Cache)
    requires WellFormed(c)
    ensures |c.entries| <= MAX_ENTRIES
  {
    SizeOfDistinct(c.order);
    assert c.entries.Keys == set h | h in c.order;
  }

  lemma {:induction false} SizeOfDistinct(s: seq<Hash>)
    requires NoRepeats(s)
    ensures |set h | h in s| == |s|
  {
    if s != [] {
      SizeOfDistinct(s[1..]);
      assert (set h | h in s) == (set h | h in s[1..]) + {s[0]};
    }
  }

  class KeyCacheMap {
    var entries: map<Hash, Entry>
    var order: seq<Hash>

    ghost function View(): Cache reads this { Cache(entries, order) }

    constructor ()
      ensures View() == EMPTY && WellFormed(View())
    {
      entries, order := map[], [];
    }

    /** The first turn of a lookup: a hit, or the stale entry goes. */
    method Lookup(hash: Hash, now: int) returns (row: Option<Row>)
      requires WellFormed(View())
      modifies this
      ensures WellFormed(View())
      ensures row == Hit(old(View()), hash, now)
      ensures View() == if row.Some? then old(View()) else Without(old(View()), hash)
      ensures row.Some? <==>
                && hash in old(entries) && now < old(entries)[hash].until
                && (old(entries)[hash].row.expiresAt == None || now < old(entries)[hash].row.expiresAt.value)
      ensures row.Some? ==> row.value == old(entries)[hash].row && entries == old(entries)
      ensures row == None ==>
                forall h :: (h in entries <==> h in old(entries) && h != hash) &&
                            (h in entries ==> entries[h] == old(entries)[h])
    {
      if hash in entries && entries[hash].until > now && !Expired(entries[hash].row, now) {
        return Some(entries[hash].row);
      }
      WithoutIsWellFormed(View(), hash);
      entries, order := entries - {hash}, Remove(order, hash);
      row := None;
    }

    /** The last turn: remember the registry's answer. */
    method Keep(hash: Hash, row: Row, now: int)
      requires WellFormed(View())
      modifies this
      ensures WellFormed(View())
      ensures View() == Kept(old(View()), hash, Entry(row, now + TTL_MS))
      ensures hash in entries && entries[hash] == Entry(row, now + 30_000)
      ensures forall h :: h in entries && h != hash ==> h in old(entries) && entries[h] == old(entries)[h]
      ensures forall h :: h in old(entries) && h !in entries ==> |old(order)| == 1024 && h == old(order)[0]
    {
      KeptIsWellFormed(View(), hash, Entry(row, now + TTL_MS));
      if |order| >= MAX_ENTRIES {
        var oldest := order[0];
        entries, order := entries - {oldest}, Remove(order, oldest);
      }
      if hash !in entries {
        order := order + [hash];
      }
      entries := entries[hash := Entry(row, now + TTL_MS)];
    }
  }

  // ---- lookups and registrations on one isolate, turn by turn -----------------------------------

  datatype Answer = Served(row: Row) | Refused(status: Status) | OutOfDate | Unknown

  datatype Lookup =
    | Asking(hash: Hash, start: int)
    | Copying(hash: Hash, start: int)
    | Told(hash: Hash, start: int, row: Row, at: int)
    | Done(hash: Hash, start: int, answer: Answer, at: int)

  /** `source` and `answers` are history: when each cached row was read, and every active answer the registry gave. */
  datatype State = State(
    now: int,
    table: Table,
    cache: Cache,
    lookups: map<nat, Lookup>,
    source: map<Hash, int>,
    answers: set<(Hash, Row, int)>)

  datatype Event =
    | Start(l: nat, hash: Hash)
    | Find(l: nat)
    | Copy(l: nat)
    | Conclude(l: nat)
    | Registry(op: Op)
    | Forget(hash: Hash)
    | ForgetAll
    | Wait(until: int)

  ghost predicate Enabled(kv: Kv, s: State, e: Event) {
    match e
    case Start(l, _) => l !in s.lookups
    case Find(l) => l in s.lookups && s.lookups[l].Asking?
    case Copy(l) => l in s.lookups && s.lookups[l].Copying?
    case Conclude(l) => l in s.lookups && s.lookups[l].Told?
    case Registry(op) => Genuine(s.table, kv, op)
    case Wait(until) => s.now <= until
    case _ => true
  }

  function ReadAt(s: State, hash: Hash): int {
    if hash in s.source then s.source[hash] else s.now
  }

  function Noted(s: State, hash: Hash, row: Row): set<(Hash, Row, int)> {
    if row.status == Active then s.answers + {(hash, row, s.now)} else s.answers
  }

  function DoStart(s: State, l: nat, hash: Hash): State {
    var hit := Hit(s.cache, hash, s.now);
    s.(cache := if hit.Some? then s.cache else Without(s.cache, hash),
       lookups := s.lookups[l := if hit.Some? then Done(hash, s.now, Served(hit.value), ReadAt(s, hash))
                                 else Asking(hash, s.now)])
  }

  function DoFind(s: State, l: nat): State
    requires l in s.lookups && s.lookups[l].Asking?
  {
    var Asking(hash, start) := s.lookups[l];
    match ByHash(s.table, hash)
    case Some(row) => s.(lookups := s.lookups[l := Told(hash, start, row, s.now)], answers := Noted(s, hash, row))
    case None => s.(lookups := s.lookups[l := Copying(hash, start)])
  }

  ghost function DoCopy(kv: Kv, s: State, l: nat): State
    requires l in s.lookups && s.lookups[l].Copying?
  {
    var Copying(hash, start) := s.lookups[l];
    var t := Apply(s.table, kv, ImportOp(hash));
    match if hash in kv then ByHash(t, hash) else None
    case Some(row) =>
      s.(table := t, lookups := s.lookups[l := Told(hash, start, row, s.now)], answers := Noted(s, hash, row))
    case None => s.(table := t, lookups := s.lookups[l := Done(hash, start, Unknown, s.now)])
  }

  function DoConclude(s: State, l: nat): State
    requires l in s.lookups && s.lookups[l].Told?
  {
    var Told(hash, start, row, at) := s.lookups[l];
    var served := row.status == Active && !Expired(row, start);
    var answer := if row.status != Active then Refused(row.status)
                  else if Expired(row, start) then OutOfDate
                  else Served(row);
    s.(lookups := s.lookups[l := Done(hash, start, answer, at)],
       cache := if served then Kept(s.cache, hash, Entry(row, start + TTL_MS)) else s.cache,
       source := if served then s.source[hash := at] else s.source)
  }

  ghost function Step(kv: Kv, s: State, e: Event): State
    requires Enabled(kv, s, e)
  {
    match e
    case Start(l, hash) => DoStart(s, l, hash)
    case Find(l) => DoFind(s, l)
    case Copy(l) => DoCopy(kv, s, l)
    case Conclude(l) => DoConclude(s, l)
    case Registry(op) => s.(table := Apply(s.table, kv, op))
    case Forget(hash) => s.(cache := Without(s.cache, hash))
    case ForgetAll => s.(cache := EMPTY)
    case Wait(until) => s.(now := until)
  }

  ghost predicate Init(kv: Kv, s: State) {
    Coherent(s.table, kv) && s.cache == EMPTY && s.lookups == map[] && s.answers == {}
  }

  // ---- what every turn keeps --------------------------------------------------------------------

  /** A cached row was an active answer, and stops being served within 30 seconds of it. */
  ghost predicate CachedInv(s: State) {
    && WellFormed(s.cache)
    && forall h :: h in s.cache.entries ==>
                     && h in s.source && (h, s.cache.entries[h].row, s.source[h]) in s.answers
                     && s.cache.entries[h].until <= s.source[h] + TTL_MS
  }

  ghost predicate LookupInv(s: State, q: Lookup) {
    match q
    case Asking(_, start) => start <= s.now
    case Copying(_, start) => start <= s.now
    case Told(hash, start, row, at) => start <= at && (row.status == Active ==> (hash, row, at) in s.answers)
    case Done(hash, start, answer, at) =>
      answer.Served? ==> (hash, answer.row, at) in s.answers && start < at + TTL_MS && !Expired(answer.row, start)
  }

  ghost predicate Inv(kv: Kv, s: State) {
    && Coherent(s.table, kv)
    && CachedInv(s)
    && forall l :: l in s.lookups ==> LookupInv(s, s.lookups[l])
  }

  lemma TurnKeepsCoherent(kv: Kv, s: State, e: Event)
    requires Coherent(s.table, kv) && Enabled(kv, s, e)
    ensures Coherent(Step(kv, s, e).table, kv)
  {
    match e
    case Copy(l) => StepKeepsCoherent(s.table, kv, ImportOp(s.lookups[l].hash));
    case Registry(op) => StepKeepsCoherent(s.table, kv, op);
    case _ =>
  }

  lemma ConcludeKeepsCached(s: State, l: nat)
    requires CachedInv(s) && l in s.lookups && s.lookups[l].Told? && LookupInv(s, s.lookups[l])
    ensures CachedInv(DoConclude(s, l))
  {
    var Told(hash, start, row, _) := s.lookups[l];
    KeptIsWellFormed(s.cache, hash, Entry(row, start + TTL_MS));
  }

  lemma TurnKeepsCached(kv: Kv, s: State, e: Event)
    requires CachedInv(s) && Enabled(kv, s, e)
    requires forall l :: l in s.lookups ==> LookupInv(s, s.lookups[l])
    ensures CachedInv(Step(kv, s, e))
  {
    match e
    case Start(l, hash) => WithoutIsWellFormed(s.cache, hash);
    case Conclude(l) => ConcludeKeepsCached(s, l);
    case Forget(hash) => WithoutIsWellFormed(s.cache, hash);
    case _ =>
  }

  lemma TurnKeepsLookups(kv: Kv, s: State, e: Event)
    requires CachedInv(s) && Enabled(kv, s, e)
    requires forall l :: l in s.lookups ==> LookupInv(s, s.lookups[l])
    ensures var t := Step(kv, s, e); forall l :: l in t.lookups ==> LookupInv(t, t.lookups[l])
  {
  }

  lemma StepKeepsInv(kv: Kv, s: State, e: Event)
    requires Inv(kv, s) && Enabled(kv, s, e)
    ensures Inv(kv, Step(kv, s, e))
  {
    TurnKeepsCoherent(kv, s, e);
    TurnKeepsCached(kv, s, e);
    TurnKeepsLookups(kv, s, e);
  }

  // ---- runs -------------------------------------------------------------------------------------

  ghost predicate IsRun(kv: Kv, states: seq<State>, events: seq<Event>) {
    && |states| == |events| + 1
    && Init(kv, states[0])
    && forall i :: 0 <= i < |events| ==>
                     Enabled(kv, states[i], events[i]) && states[i + 1] == Step(kv, states[i], events[i])
  }

  lemma {:induction false} RunInv(kv: Kv, states: seq<State>, events: seq<Event>, i: nat)
    requires IsRun(kv, states, events) && i < |states|
    ensures Inv(kv, states[i])
  {
    if i > 0 {
      RunInv(kv, states, events, i - 1);
      StepKeepsInv(kv, states[i - 1], events[i - 1]);
    }
  }

  lemma {:induction false} ClockRises(kv: Kv, states: seq<State>, events: seq<Event>, i: nat, j: nat)
    requires IsRun(kv, states, events) && i <= j < |states|
    ensures states[i].now <= states[j].now
    decreases j - i
  {
    if i < j {
      ClockRises(kv, states, events, i, j - 1);
      assert states[j] == Step(kv, states[j - 1], events[j - 1]);
    }
  }

  /** The registry, asked in state s, answers `row` for `hash`. */
  ghost predicate RegistrySays(kv: Kv, s: State, hash: Hash, row: Row) {
    Resolve(s.table, kv, hash) == Some(row)
  }

  lemma AnswerIsTheRegistrys(kv: Kv, s: State, e: Event, hash: Hash, row: Row, at: int)
    requires Enabled(kv, s, e) && (hash, row, at) in Step(kv, s, e).answers && (hash, row, at) !in s.answers
    ensures at == s.now && row.status == Active && RegistrySays(kv, s, hash, row)
  {
  }

  lemma {:induction false} FirstNoted(states: seq<State>, i: nat, answer: (Hash, Row, int)) returns (k: nat)
    requires i < |states| && answer !in states[0].answers && answer in states[i].answers
    ensures k < i && answer !in states[k].answers && answer in states[k + 1].answers
  {
    k := i - 1;
    if answer in states[i - 1].answers {
      k := FirstNoted(states, i - 1, answer);
    }
  }

  /**
   Whatever a lookup is served, cached or not, is a row the registry itself answered as active at
   some turn j less than 30 seconds before the lookup began, and it has not expired since.
  */
  lemma ServedAnswersAreRecent(kv: Kv, states: seq<State>, events: seq<Event>, i: nat, l: nat) returns (j: nat)
    requires IsRun(kv, states, events) && i < |states|
    requires l in states[i].lookups && states[i].lookups[l].Done? && states[i].lookups[l].answer.Served?
    ensures var q := states[i].lookups[l]; var row := q.answer.row;
      && j < i && q.start < states[j].now + 30_000
      && RegistrySays(kv, states[j], q.hash, row) && row.status == Active
      && (row.expiresAt == None || q.start < row.expiresAt.value)
  {
    RunInv(kv, states, events, i);
    var q := states[i].lookups[l];
    assert LookupInv(states[i], q);
    j := FirstNoted(states, i, (q.hash, q.answer.row, q.at));
    AnswerIsTheRegistrys(kv, states[j], events[j], q.hash, q.answer.row, q.at);
  }

  /** What the registry says of the lookup's key in state s is what the lookup was told, or turned away with. */
  ghost predicate Said(kv: Kv, s: State, q: Lookup) {
    match q
    case Asking(_, _) => false
    case Copying(hash, start) => start <= s.now && hash !in s.table
    case Told(hash, start, row, _) => start <= s.now && RegistrySays(kv, s, hash, row)
    case Done(hash, start, answer, _) =>
      && start <= s.now
      && match Resolve(s.table, kv, hash)
         case None => answer == Unknown
         case Some(row) =>
           if row.status != Active then answer == Refused(row.status)
           else row.expiresAt.Some? && row.expiresAt.value <= start && answer == OutOfDate
  }

  predicate ToldOrTurnedAway(q: Lookup) {
    q.Copying? || q.Told? || (q.Done? && !q.answer.Served?)
  }

  lemma FoundIsSaid(kv: Kv, s: State, l: nat)
    requires l in s.lookups && s.lookups[l].Asking? && LookupInv(s, s.lookups[l])
    ensures Said(kv, s, DoFind(s, l).lookups[l])
  {
  }

  /** A key that neither the table nor KV has may be registered before KV is asked: the miss in the table stands. */
  lemma CopiedIsSaid(kv: Kv, missed: State, s: State, l: nat)
    requires Coherent(s.table, kv) && l in s.lookups && s.lookups[l].Copying? && LookupInv(s, s.lookups[l])
    requires Said(kv, missed, s.lookups[l])
    ensures var q := DoCopy(kv, s, l).lookups[l]; Said(kv, if q.Told? then s else missed, q)
  {
    ResolveIsOnFile(s.table, kv, s.lookups[l].hash);
  }

  lemma ToldIsConcluded(kv: Kv, told: State, s: State, l: nat)
    requires l in s.lookups && s.lookups[l].Told? && Said(kv, told, s.lookups[l])
    requires !DoConclude(s, l).lookups[l].answer.Served?
    ensures Said(kv, told, DoConclude(s, l).lookups[l])
  {
  }

  lemma OtherTurnsLeaveIt(kv: Kv, s: State, e: Event, l: nat)
    requires Enabled(kv, s, e) && l in Step(kv, s, e).lookups && ToldOrTurnedAway(Step(kv, s, e).lookups[l])
    requires e != Find(l)
    ensures l in s.lookups && ToldOrTurnedAway(s.lookups[l])
    ensures e != Copy(l) && e != Conclude(l) ==> Step(kv, s, e).lookups[l] == s.lookups[l]
  {
  }

  /** From s to t the lookup learns what s says, or still holds what it was told before. */
  ghost predicate StillSaid(kv: Kv, s: State, t: State, l: nat) {
    l in t.lookups && ToldOrTurnedAway(t.lookups[l]) ==>
      || Said(kv, s, t.lookups[l])
      || (&& l in s.lookups && ToldOrTurnedAway(s.lookups[l])
          && forall told :: Said(kv, told, s.lookups[l]) ==> Said(kv, told, t.lookups[l]))
  }

  lemma TurnSays(kv: Kv, s: State, e: Event, l: nat)
    requires Inv(kv, s) && Enabled(kv, s, e)
    ensures StillSaid(kv, s, Step(kv, s, e), l)
  {
    var t := Step(kv, s, e);
    if l in t.lookups && ToldOrTurnedAway(t.lookups[l]) {
      if e == Find(l) {
        FoundIsSaid(kv, s, l);
      } else {
        OtherTurnsLeaveIt(kv, s, e, l);
        forall told | Said(kv, told, s.lookups[l])
          ensures Said(kv, s, t.lookups[l]) || Said(kv, told, t.lookups[l])
        {
          if e == Copy(l) {
            CopiedIsSaid(kv, told, s, l);
          } else if e == Conclude(l) {
            ToldIsConcluded(kv, told, s, l);
          }
        }
      }
    }
  }

  lemma RunSays(kv: Kv, states: seq<State>, events: seq<Event>, l: nat)
    requires IsRun(kv, states, events)
    ensures forall i :: 0 <= i < |states| - 1 ==> StillSaid(kv, states[i], states[i + 1], l)
  {
    forall i | 0 <= i < |events| ensures StillSaid(kv, states[i], states[i + 1], l) {
      RunInv(kv, states, events, i);
      TurnSays(kv, states[i], events[i], l);
    }
  }

  lemma {:induction false} ToldWasSaid(kv: Kv, states: seq<State>, i: nat, l: nat) returns (k: nat)
    requires i < |states| && states[0].lookups == map[]
    requires forall i :: 0 <= i < |states| - 1 ==> StillSaid(kv, states[i], states[i + 1], l)
    requires l in states[i].lookups && ToldOrTurnedAway(states[i].lookups[l])
    ensures k < i && Said(kv, states[k], states[i].lookups[l])
  {
    k := i - 1;
    assert StillSaid(kv, states[k], states[k + 1], l);
    if !Said(kv, states[k], states[i].lookups[l]) {
      k := ToldWasSaid(kv, states, k, l);
    }
  }

  /**
   And no lookup is turned away for nothing: whatever it is refused with, the registry itself said at
   some turn after the lookup began that the key is superseded or revoked, expired, or unknown.
  */
  lemma RefusalsAreTrue(kv: Kv, states: seq<State>, events: seq<Event>, i: nat, l: nat) returns (k: nat)
    requires IsRun(kv, states, events) && i < |states|
    requires l in states[i].lookups && states[i].lookups[l].Done? && !states[i].lookups[l].answer.Served?
    ensures var q := states[i].lookups[l];
      && k < i && q.start <= states[k].now
      && match Resolve(states[k].table, kv, q.hash)
         case None => q.answer == Unknown
         case Some(row) =>
           if row.status != Active then q.answer == Refused(row.status)
           else row.expiresAt.Some? && row.expiresAt.value <= q.start && q.answer == OutOfDate
  {
    RunSays(kv, states, events, l);
    k := ToldWasSaid(kv, states, i, l);
  }

  lemma {:induction false} RunKeepsCopies(kv: Kv, states: seq<State>, events: seq<Event>, i: nat)
    requires IsRun(kv, states, events) && i < |states| && CopiesAreTrue(states[0].table, kv)
    ensures CopiesAreTrue(states[i].table, kv)
  {
    if i > 0 {
      RunKeepsCopies(kv, states, events, i - 1);
      match events[i - 1]
      case Copy(l) => StepKeepsCopies(states[i - 1].table, kv, ImportOp(states[i - 1].lookups[l].hash));
      case Registry(op) => StepKeepsCopies(states[i - 1].table, kv, op);
      case _ =>
    }
  }

  /** A key KV recorded with an expiry is served to no lookup that begins at that moment or later. */
  lemma ExpiredRecordsAreRefused(kv: Kv, states: seq<State>, events: seq<Event>, i: nat, l: nat)
    requires IsRun(kv, states, events) && i < |states| && CopiesAreTrue(states[0].table, kv)
    requires l in states[i].lookups && states[i].lookups[l].Done? && states[i].lookups[l].hash in kv
    requires kv[states[i].lookups[l].hash].expiresAt.Some?
    requires kv[states[i].lookups[l].hash].expiresAt.value <= states[i].lookups[l].start
    ensures !states[i].lookups[l].answer.Served?
  {
    if states[i].lookups[l].answer.Served? {
      var j := ServedAnswersAreRecent(kv, states, events, i, l);
      RunInv(kv, states, events, j);
      RunKeepsCopies(kv, states, events, j);
      ResolveIsOnFile(states[j].table, kv, states[i].lookups[l].hash);
      assert false;
    }
  }

  // ---- one lookup on its own --------------------------------------------------------------------

  /** The turns of one lookup with nothing in between. */
  ghost function Alone(kv: Kv, s: State, l: nat, hash: Hash): State
    requires l !in s.lookups
  {
    var s1 := DoStart(s, l, hash);
    if s1.lookups[l].Done? then s1
    else
      var s2 := DoFind(s1, l);
      var s3 := if s2.lookups[l].Copying? then DoCopy(kv, s2, l) else s2;
      if s3.lookups[l].Told? then DoConclude(s3, l) else s3
  }

  /**
   On its own, a lookup the cache cannot answer serves a key on file exactly while it is active and
   unexpired, names the status of an ended one, and remembers only what it serves.
  */
  lemma LoneLookup(kv: Kv, s: State, l: nat, hash: Hash)
    requires Inv(kv, s) && l !in s.lookups && hash !in s.cache.entries && (hash in s.table || hash !in kv)
    ensures var t := Alone(kv, s, l, hash);
      && t.table == s.table && l in t.lookups && t.lookups[l].Done?
      && var answer := t.lookups[l].answer;
      && (hash !in s.table ==> answer == Unknown)
      && (hash in s.table ==>
            var row := s.table[hash];
            var ahead := row.expiresAt == None || s.now < row.expiresAt.value;
            && (answer == Served(row) <==> row.status == Active && ahead)
            && (answer == OutOfDate <==> row.status == Active && !ahead)
            && (row.status != Active ==> answer == Refused(row.status)))
      && (hash in t.cache.entries <==> answer.Served?)
      && (answer.Served? ==> t.cache.entries[hash] == Entry(answer.row, s.now + 30_000))
  {
    var s1 := DoStart(s, l, hash);
    WithoutIsWellFormed(s.cache, hash);
    if hash in s.table {
      KeptIsWellFormed(s1.cache, hash, Entry(s.table[hash], s.now + TTL_MS));
    }
  }

  /** The first lookup of a key that only KV has copies it in, and decides by the record and the table it met. */
  lemma LoneFirstLookup(kv: Kv, s: State, l: nat, hash: Hash)
    requires Inv(kv, s) && l !in s.lookups && hash !in s.cache.entries && hash !in s.table && hash in kv
    ensures var t := Alone(kv, s, l, hash); var k := kv[hash];
      && hash in t.table && HoldsRecord(t.table[hash], k)
      && l in t.lookups && t.lookups[l].Done?
      && var answer := t.lookups[l].answer;
      && (answer == Refused(Revoked) <==> !k.enabled)
      && (answer == Refused(Superseded) <==> k.enabled && RegisteredAfter(s.table, k.ip, k.createdAt))
      && (answer == Served(t.table[hash]) <==>
            && k.enabled && !RegisteredAfter(s.table, k.ip, k.createdAt)
            && (k.expiresAt == None || s.now < k.expiresAt.value))
  {
    var s1 := DoStart(s, l, hash);
    assert s1.table == s.table;
    ResolveIsOnFile(s.table, kv, hash);
    assert ByHash(Apply(s.table, kv, ImportOp(hash)), hash) == Some(ImportedRow(s.table, kv[hash]));
  }

  /**
   Forgetting takes effect at once: the isolate that told a key it was displaced refuses the next lookup
   of it, 30 seconds or not.
  */
  lemma ForgottenKeysAreAsked(kv: Kv, s: State, l: nat, hash: Hash)
    requires Inv(kv, s) && l !in s.lookups && hash in s.table && s.table[hash].status != Active
    ensures var t := Alone(kv, Step(kv, s, Forget(hash)), l, hash);
            l in t.lookups && t.lookups[l].Done? && t.lookups[l].answer == Refused(s.table[hash].status)
    ensures var t := Alone(kv, Step(kv, s, ForgetAll), l, hash);
            l in t.lookups && t.lookups[l].Done? && t.lookups[l].answer == Refused(s.table[hash].status)
  {
    RemoveDrops(s.cache.order, hash);
    StepKeepsInv(kv, s, Forget(hash));
    StepKeepsInv(kv, s, ForgetAll);
    LoneLookup(kv, Step(kv, s, Forget(hash)), l, hash);
    LoneLookup(kv, Step(kv, s, ForgetAll), l, hash);
  }

  /** The cache never holds more than its limit, however lookups overlap. */
  lemma CacheIsBounded(kv: Kv, states: seq<State>, events: seq<Event>, i: nat)
    requires IsRun(kv, states, events) && i < |states|
    ensures |states[i].cache.entries| <= 1024
  {
    RunInv(kv, states, events, i);
    SizeIsOrder(states[i].cache);
  }

  lemma TurnKeepsEnded(kv: Kv, s: State, e: Event, hash: Hash)
    requires Coherent(s.table, kv) && Enabled(kv, s, e) && EndedKey(Resolve(s.table, kv, hash))
    ensures EndedKey(Resolve(Step(kv, s, e).table, kv, hash))
  {
    match e
    case Copy(l) => InactiveStaysInactive(s.table, kv, ImportOp(s.lookups[l].hash), hash);
    case Registry(op) => InactiveStaysInactive(s.table, kv, op, hash);
    case _ =>
  }

  lemma {:induction false} StaysEnded(kv: Kv, states: seq<State>, events: seq<Event>, i: nat, j: nat, hash: Hash)
    requires IsRun(kv, states, events) && i <= j < |states| && EndedKey(Resolve(states[i].table, kv, hash))
    ensures EndedKey(Resolve(states[j].table, kv, hash))
    decreases j - i
  {
    if i < j {
      StaysEnded(kv, states, events, i, j - 1, hash);
      RunInv(kv, states, events, j - 1);
      TurnKeepsEnded(kv, states[j - 1], events[j - 1], hash);
    }
  }

  /** A key superseded or revoked at turn i is refused to every lookup that begins 30 seconds later. */
  lemma EndedKeysAreRefused(kv: Kv, states: seq<State>, events: seq<Event>, i: nat, j: nat, l: nat)
    requires IsRun(kv, states, events) && i < |states| && j < |states|
    requires l in states[j].lookups && states[j].lookups[l].Done?
    requires EndedKey(Resolve(states[i].table, kv, states[j].lookups[l].hash))
    requires states[j].lookups[l].start >= states[i].now + 30_000
    ensures !states[j].lookups[l].answer.Served?
  {
    if states[j].lookups[l].answer.Served? {
      var k := ServedAnswersAreRecent(kv, states, events, j, l);
      if k <= i {
        ClockRises(kv, states, events, k, i);
      } else {
        StaysEnded(kv, states, events, i, k, states[j].lookups[l].hash);
      }
      assert false;
    }
  }
}
