/**
 Preparing an installer setup: intent, credentials, receipt, native record and bundle are each
 created once, in that order. A preparation run is cut here at every point where it touches the
 disk or the database, so that runs may crash or overlap between any two of them.
*/
module SetupStage {
  import opened Common

  type Bytes = string
  type Name = string

  /** A directory listing this long refuses an unclaimed directory. */
  const LISTING := 16

  /**
   The names of the credentials a bundle has generated, the receipt's bytes for a bundle, its
   credentials and the secrets issued elsewhere, the digest kept in the database, and the check a
   credential read back must pass.
  */
  datatype World = World(
    names: Bytes -> seq<Name>,
    seal: (Bytes, map<Name, Bytes>, Bytes) -> Bytes,
    digest: Bytes -> Bytes,
    wellFormed: Bytes -> bool)

  ghost predicate Collisionless(w: World) {
    && (forall a, b, x, y, e, f :: w.seal(a, x, e) == w.seal(b, y, f) ==> a == b && x == y && e == f)
    && (forall a, b :: w.digest(a) == w.digest(b) ==> a == b)
  }

  /** What a run is given: the canonical bundle, the external secrets, and whether it may write. */
  datatype Job = Job(canonical: Bytes, external: Bytes, check: bool)

  /** The preparation directory, and the setup's rows: its preparation record and whether it owns any other. */
  datatype Disk = Disk(
    intent: Option<Bytes>,
    creds: map<Name, Bytes>,
    receipt: Option<Bytes>,
    bundle: Option<Bytes>,
    strays: seq<nat>,
    record: Option<Bytes>,
    owned: bool)

  datatype Process =
    | Starting(job: Job)
    | Opened(job: Job, applied: bool)
    | Clearing(job: Job, applied: bool, todo: seq<nat>)
    | Claimed(job: Job, applied: bool)
    | Noticed(job: Job, applied: bool, complete: bool)
    | Minting(job: Job, applied: bool, complete: bool, next: nat, seen: map<Name, Bytes>)
    | Reading(job: Job, applied: bool, complete: bool, next: nat, seen: map<Name, Bytes>)
    | Sealing(job: Job, complete: bool, seen: map<Name, Bytes>)
    | Recording(job: Job, seen: map<Name, Bytes>)
    | Publishing(job: Job, seen: map<Name, Bytes>)
    | Done(job: Job, seen: map<Name, Bytes>, created: bool)
    | Failed

  function Applied(d: Disk): bool {
    d.record.Some? || d.owned
  }

  predicate HoldsNoFiles(d: Disk) {
    d.intent == None && d.creds == map[] && d.receipt == None && d.bundle == None
  }

  function Without(s: seq<nat>, id: nat): seq<nat> {
    if s == [] then [] else if s[0] == id then s[1..] else [s[0]] + Without(s[1..], id)
  }

  /** An exclusive create that, finding the file there, insists on the same bytes. */
  predicate Publishable(file: Option<Bytes>, raw: Bytes) {
    file == None || file == Some(raw)
  }

  function Seal(w: World, job: Job, seen: map<Name, Bytes>): Bytes {
    w.seal(job.canonical, seen, job.external)
  }

  predicate Finished(p: Process) {
    p.Done? || p.Failed?
  }

  /** The next disk or database access of a run; `mint` is what it would generate for each credential. */
  function Advance(w: World, d: Disk, p: Process, mint: Name -> Bytes): (Disk, Process) {
    match p
    case Starting(job) => (d, Opened(job, Applied(d)))
    case Opened(job, applied) =>
      if d.intent.Some? then (d, if d.intent == Some(job.canonical) then Claimed(job, applied) else Failed)
      else if job.check || applied then (d, Failed)
      else if !HoldsNoFiles(d) || |d.strays| >= LISTING then (d, Failed)
      else (d, Clearing(job, applied, d.strays))
    case Clearing(job, applied, todo) =>
      if todo != [] then
        (d.(strays := Without(d.strays, todo[0])),
         if todo[0] in d.strays then Clearing(job, applied, todo[1..]) else Failed)
      else if Publishable(d.intent, job.canonical) then (d.(intent := Some(job.canonical)), Claimed(job, applied))
      else (d, Failed)
    case Claimed(job, applied) => (d, Noticed(job, applied, d.receipt.Some?))
    case Noticed(job, applied, complete) =>
      (d, if !complete && (job.check || applied || d.bundle.Some?) then Failed
          else Minting(job, applied, complete, 0, map[]))
    case Minting(job, applied, complete, next, seen) =>
      var names := w.names(job.canonical);
      if next >= |names| then (d, Sealing(job, complete, seen))
      else if names[next] in d.creds then (d, Reading(job, applied, complete, next, seen))
      else if job.check || applied || complete then (d, Failed)
      else (d.(creds := d.creds[names[next] := mint(names[next])]), Reading(job, applied, complete, next, seen))
    case Reading(job, applied, complete, next, seen) =>
      var names := w.names(job.canonical);
      if next < |names| && names[next] in d.creds && w.wellFormed(d.creds[names[next]]) then
        (d, Minting(job, applied, complete, next + 1, seen[names[next] := d.creds[names[next]]]))
      else (d, Failed)
    case Sealing(job, complete, seen) =>
      if complete then (d, if d.receipt == Some(Seal(w, job, seen)) then Recording(job, seen) else Failed)
      else if Publishable(d.receipt, Seal(w, job, seen)) then
        (d.(receipt := Some(Seal(w, job, seen))), Recording(job, seen))
      else (d, Failed)
    case Recording(job, seen) =>
      var contract := w.digest(Seal(w, job, seen));
      if d.record.Some? then (d, if d.record == Some(contract) then Publishing(job, seen) else Failed)
      else if job.check then (d, Failed)
      else (d.(record := Some(contract)), Publishing(job, seen))
    case Publishing(job, seen) =>
      if job.check then (d, if d.bundle == Some(job.canonical) then Done(job, seen, false) else Failed)
      else if Publishable(d.bundle, job.canonical) then
        (d.(bundle := Some(job.canonical)), Done(job, seen, d.bundle == None))
      else (d, Failed)
    case _ => (d, p)
  }

  // ---- any number of runs, crashing and overlapping -------------------------------------------------

  datatype File = Intent | Receipt | Bundle | Credential(name: Name)

  /** `recorded` is history: what the first preparation record was made from. */
  datatype State = State(disk: Disk, runs: map<nat, Process>, recorded: Option<(Bytes, map<Name, Bytes>, Bytes)>)

  datatype Event =
    | Launch(r: nat, job: Job)
    | Go(r: nat, mint: Name -> Bytes)
    | Crash(r: nat)
    | Litter(stray: nat)
    | Tidy(stray: nat)
    | Delete(file: File)

  ghost predicate Enabled(w: World, s: State, e: Event) {
    match e
    case Launch(r, _) => r !in s.runs
    case Go(r, mint) => r in s.runs && forall n :: w.wellFormed(mint(n))
    case Crash(r) => r in s.runs
    case _ => true
  }

  function Deleted(d: Disk, file: File): Disk {
    match file
    case Intent => d.(intent := None)
    case Receipt => d.(receipt := None)
    case Bundle => d.(bundle := None)
    case Credential(n) => d.(creds := d.creds - {n})
  }

  function DoGo(w: World, s: State, r: nat, mint: Name -> Bytes): State
    requires r in s.runs
  {
    var p := s.runs[r];
    var (d, q) := Advance(w, s.disk, p, mint);
    State(d, s.runs[r := q],
          if p.Recording? && s.disk.record == None && d.record.Some?
          then Some((p.job.canonical, p.seen, p.job.external))
          else s.recorded)
  }

  function Step(w: World, s: State, e: Event): State
    requires e.Go? || e.Crash? ==> e.r in s.runs
  {
    match e
    case Launch(r, job) => s.(runs := s.runs[r := Starting(job)])
    case Go(r, mint) => DoGo(w, s, r, mint)
    case Crash(r) => s.(runs := s.runs[r := Failed])
    case Litter(stray) => s.(disk := s.disk.(strays := s.disk.strays + [stray]))
    case Tidy(stray) => s.(disk := s.disk.(strays := Without(s.disk.strays, stray)))
    case Delete(file) => s.(disk := Deleted(s.disk, file))
  }

  ghost predicate Init(s: State) {
    HoldsNoFiles(s.disk) && s.disk.record == None && s.runs == map[] && s.recorded == None
  }

  // ---- the chain ----------------------------------------------------------------------------------

  /** The generated credentials of the claimed bundle that are on disk. */
  function Held(w: World, d: Disk): map<Name, Bytes>
    requires d.intent.Some?
  {
    map n | n in w.names(d.intent.value) && n in d.creds :: d.creds[n]
  }

  ghost predicate AllMinted(w: World, d: Disk) {
    d.intent.Some? && forall n :: n in w.names(d.intent.value) ==> n in d.creds
  }

  ghost predicate SealedWith(w: World, d: Disk, external: Bytes) {
    d.intent.Some? && d.receipt == Some(w.seal(d.intent.value, Held(w, d), external))
  }

  /** Each link of the chain presupposes the one before it, and agrees with it. */
  ghost predicate Chain(w: World, d: Disk) {
    && (d.intent == None ==> HoldsNoFiles(d))
    && (forall n :: n in d.creds ==> w.wellFormed(d.creds[n]))
    && (d.receipt.Some? ==> AllMinted(w, d) && exists external :: SealedWith(w, d, external))
    && (d.record.Some? ==> d.receipt.Some? && d.record == Some(w.digest(d.receipt.value)))
    && (d.bundle.Some? ==> d.record.Some? && d.bundle == d.intent)
  }

  /** Nothing published is ever taken back or changed. */
  ghost predicate Keeps(a: Disk, b: Disk) {
    && (a.intent.Some? ==> b.intent == a.intent)
    && (forall n :: n in a.creds ==> n in b.creds && b.creds[n] == a.creds[n])
    && (a.receipt.Some? ==> b.receipt == a.receipt)
    && (a.record.Some? ==> b.record == a.record)
    && (a.bundle.Some? ==> b.bundle == a.bundle)
  }

  ghost predicate SeenUpTo(w: World, d: Disk, job: Job, next: nat, seen: map<Name, Bytes>) {
    var names := w.names(job.canonical);
    && d.intent == Some(job.canonical) && next <= |names|
    && (forall n :: n in seen <==> n in names[..next])
    && (forall n :: n in seen ==> n in d.creds && d.creds[n] == seen[n])
  }

  ghost predicate SeenAll(w: World, d: Disk, job: Job, seen: map<Name, Bytes>) {
    d.intent == Some(job.canonical) && AllMinted(w, d) && seen == Held(w, d)
  }

  /** What a run that got past a step can count on. */
  ghost predicate Progress(w: World, d: Disk, p: Process) {
    match p
    case Claimed(job, _) => d.intent == Some(job.canonical)
    case Noticed(job, _, complete) => d.intent == Some(job.canonical) && (complete ==> d.receipt.Some?)
    case Minting(job, _, complete, next, seen) => SeenUpTo(w, d, job, next, seen) && (complete ==> d.receipt.Some?)
    case Reading(job, _, complete, next, seen) =>
      && SeenUpTo(w, d, job, next, seen) && (complete ==> d.receipt.Some?)
      && next < |w.names(job.canonical)| && w.names(job.canonical)[next] in d.creds
    case Sealing(job, complete, seen) => SeenAll(w, d, job, seen) && (complete ==> d.receipt.Some?)
    case Recording(job, seen) => SeenAll(w, d, job, seen) && d.receipt == Some(Seal(w, job, seen))
    case Publishing(job, seen) =>
      SeenAll(w, d, job, seen) && d.receipt == Some(Seal(w, job, seen)) && d.record.Some?
    case Done(job, seen, _) => SeenAll(w, d, job, seen) && d.bundle == Some(job.canonical)
    case _ => true
  }

  lemma AdvanceKeepsFiles(w: World, d: Disk, p: Process, mint: Name -> Bytes)
    ensures Keeps(d, Advance(w, d, p, mint).0)
  {
  }

  /** Once all credentials are there, later files change neither them nor the seal over them. */
  lemma HeldIsSettled(w: World, a: Disk, b: Disk)
    requires AllMinted(w, a) && Keeps(a, b)
    ensures AllMinted(w, b) && Held(w, b) == Held(w, a)
    ensures forall external :: a.receipt.Some? && SealedWith(w, a, external) ==> SealedWith(w, b, external)
  {
  }

  lemma SealedKeepsChain(w: World, a: Disk, b: Disk)
    requires Chain(w, a) && a.receipt.Some? && Keeps(a, b) && b.creds == a.creds
    requires b.record.Some? ==> b.record == Some(w.digest(a.receipt.value))
    requires b.bundle.Some? ==> b.record.Some? && b.bundle == a.intent
    ensures Chain(w, b)
  {
    HeldIsSettled(w, a, b);
    var external :| SealedWith(w, a, external);
    assert SealedWith(w, b, external);
  }

  lemma SealKeepsChain(w: World, d: Disk, p: Process, mint: Name -> Bytes)
    requires Chain(w, d) && Progress(w, d, p) && p.Sealing?
    ensures var (d', p') := Advance(w, d, p, mint); Chain(w, d') && Progress(w, d', p')
  {
    var (d', p') := Advance(w, d, p, mint);
    if d.receipt == None && p'.Recording? {
      assert SealedWith(w, d', p.job.external);
    }
  }

  lemma MintKeepsChain(w: World, d: Disk, p: Process, mint: Name -> Bytes)
    requires Chain(w, d) && Progress(w, d, p) && p.Minting? && forall n :: w.wellFormed(mint(n))
    ensures var (d', p') := Advance(w, d, p, mint); Chain(w, d') && Progress(w, d', p')
  {
    var (d', p') := Advance(w, d, p, mint);
    assert d' != d ==> d.receipt == None;
  }

  lemma ReadKeepsChain(w: World, d: Disk, p: Process, mint: Name -> Bytes)
    requires Chain(w, d) && Progress(w, d, p) && p.Reading?
    ensures var (d', p') := Advance(w, d, p, mint); d' == d && Progress(w, d, p')
    ensures Advance(w, d, p, mint).1.Minting?
  {
  }

  lemma EarlyKeepsChain(w: World, d: Disk, p: Process, mint: Name -> Bytes)
    requires Chain(w, d) && Progress(w, d, p)
    requires p.Starting? || p.Opened? || p.Clearing? || p.Claimed? || p.Noticed? || p.Done? || p.Failed?
    ensures var (d', p') := Advance(w, d, p, mint); Chain(w, d') && Progress(w, d', p')
  {
    var (d', _) := Advance(w, d, p, mint);
    if d.receipt.Some? {
      SealedKeepsChain(w, d, d');
    }
  }

  lemma LateKeepsChain(w: World, d: Disk, p: Process, mint: Name -> Bytes)
    requires Chain(w, d) && Progress(w, d, p) && (p.Recording? || p.Publishing?)
    ensures var (d', p') := Advance(w, d, p, mint); Chain(w, d') && Progress(w, d', p')
  {
    SealedKeepsChain(w, d, Advance(w, d, p, mint).0);
  }

  lemma AdvanceKeepsChain(w: World, d: Disk, p: Process, mint: Name -> Bytes)
    requires Chain(w, d) && Progress(w, d, p) && forall n :: w.wellFormed(mint(n))
    ensures var (d', p') := Advance(w, d, p, mint); Chain(w, d') && Progress(w, d', p')
  {
    match p
    case Minting(_, _, _, _, _) => MintKeepsChain(w, d, p, mint);
    case Reading(_, _, _, _, _) => ReadKeepsChain(w, d, p, mint);
    case Sealing(_, _, _) => SealKeepsChain(w, d, p, mint);
    case Recording(_, _) => LateKeepsChain(w, d, p, mint);
    case Publishing(_, _) => LateKeepsChain(w, d, p, mint);
    case _ => EarlyKeepsChain(w, d, p, mint);
  }

  lemma OthersKeepProgress(w: World, a: Disk, b: Disk, p: Process)
    requires Keeps(a, b) && Progress(w, a, p)
    ensures Progress(w, b, p)
  {
  }

  // ---- runs without deletions -----------------------------------------------------------------------

  ghost predicate Inv(w: World, s: State) {
    Chain(w, s.disk) && forall r :: r in s.runs ==> Progress(w, s.disk, s.runs[r])
  }

  lemma StepKeepsInv(w: World, s: State, e: Event)
    requires Inv(w, s) && Enabled(w, s, e) && !e.Delete?
    ensures Inv(w, Step(w, s, e)) && Keeps(s.disk, Step(w, s, e).disk)
  {
    var t := Step(w, s, e);
    if e.Go? {
      AdvanceKeepsChain(w, s.disk, s.runs[e.r], e.mint);
      AdvanceKeepsFiles(w, s.disk, s.runs[e.r], e.mint);
    } else if s.disk.receipt.Some? {
      SealedKeepsChain(w, s.disk, t.disk);
    }
    forall r | r in t.runs ensures Progress(w, t.disk, t.runs[r]) {
      if r in s.runs && t.runs[r] == s.runs[r] {
        OthersKeepProgress(w, s.disk, t.disk, s.runs[r]);
      }
    }
  }

  ghost predicate StepAt(w: World, states: seq<State>, events: seq<Event>, i: nat)
    requires i < |events| && |states| == |events| + 1
  {
    Enabled(w, states[i], events[i]) && states[i + 1] == Step(w, states[i], events[i])
  }

  ghost predicate IsRun(w: World, states: seq<State>, events: seq<Event>) {
    && |states| == |events| + 1 && Init(states[0])
    && forall i :: 0 <= i < |events| ==> StepAt(w, states, events, i)
  }

  ghost predicate NothingDeleted(events: seq<Event>) {
    forall i :: 0 <= i < |events| ==> !events[i].Delete?
  }

  /**
   However runs crash and overlap, the bundle is there only with the record, the record only with
   the receipt it digests, the receipt only with every generated credential, and any of them only
   with the intent; and every run past the intent is for exactly that bundle.
  */
  lemma {:induction false} ChainOverRuns(w: World, states: seq<State>, events: seq<Event>, i: nat)
    requires IsRun(w, states, events) && NothingDeleted(events) && i < |states|
    ensures Inv(w, states[i])
  {
    if i > 0 {
      assert StepAt(w, states, events, i - 1);
      ChainOverRuns(w, states, events, i - 1);
      StepKeepsInv(w, states[i - 1], events[i - 1]);
    }
  }

  /** No published file is ever changed. */
  lemma {:induction false} FilesNeverChange(w: World, states: seq<State>, events: seq<Event>, i: nat, j: nat)
    requires IsRun(w, states, events) && NothingDeleted(events) && i <= j < |states|
    ensures Keeps(states[i].disk, states[j].disk)
    decreases j - i
  {
    if i < j {
      assert StepAt(w, states, events, j - 1);
      FilesNeverChange(w, states, events, i, j - 1);
      ChainOverRuns(w, states, events, j - 1);
      StepKeepsInv(w, states[j - 1], events[j - 1]);
    }
  }

  predicate PastIntent(p: Process) {
    !p.Starting? && !p.Opened? && !p.Clearing? && !p.Failed?
  }

  /** Once an intent exists, a run for another bundle gets no further, and leaves every published file alone. */
  lemma DifferentBundleIsRefused(w: World, states: seq<State>, events: seq<Event>, i: nat, j: nat, r: nat)
    requires IsRun(w, states, events) && NothingDeleted(events) && i <= j < |states|
    requires states[i].disk.intent.Some? && r in states[j].runs && !states[j].runs[r].Failed?
    requires Some(states[j].runs[r].job.canonical) != states[i].disk.intent
    ensures !PastIntent(states[j].runs[r])
  {
    FilesNeverChange(w, states, events, i, j);
    ChainOverRuns(w, states, events, j);
    assert Progress(w, states[j].disk, states[j].runs[r]);
  }

  // ---- one run on its own ---------------------------------------------------------------------------

  function Phase(p: Process): nat {
    match p
    case Starting(_) => 9
    case Opened(_, _) => 8
    case Clearing(_, _, _) => 7
    case Claimed(_, _) => 6
    case Noticed(_, _, _) => 5
    case Minting(_, _, _, _, _) => 4
    case Reading(_, _, _, _, _) => 4
    case Sealing(_, _, _) => 3
    case Recording(_, _) => 2
    case Publishing(_, _) => 1
    case _ => 0
  }

  function Left(w: World, p: Process): nat {
    match p
    case Clearing(_, _, todo) => |todo|
    case Minting(job, _, _, next, _) =>
      if next < |w.names(job.canonical)| then 2 * (|w.names(job.canonical)| - next) else 0
    case Reading(job, _, _, next, _) =>
      if next < |w.names(job.canonical)| then 2 * (|w.names(job.canonical)| - next) - 1 else 0
    case _ => 0
  }

  /** Where a run that nothing interrupts ends up. */
  function Alone(w: World, d: Disk, p: Process, mint: Name -> Bytes): (Disk, Process)
    decreases Phase(p), Left(w, p)
  {
    if Finished(p) then (d, p)
    else
      var (d', p') := Advance(w, d, p, mint);
      Alone(w, d', p', mint)
  }

  lemma StopsHere(w: World, d: Disk, p: Process, mint: Name -> Bytes)
    requires !Finished(p) && Finished(Advance(w, d, p, mint).1)
    ensures Alone(w, d, p, mint) == Advance(w, d, p, mint)
  {
  }

  lemma {:induction false} ClearingAlone(w: World, d: Disk, job: Job, applied: bool, mint: Name -> Bytes)
    requires d.intent == None
    ensures Alone(w, d, Clearing(job, applied, d.strays), mint) ==
            Alone(w, d.(strays := [], intent := Some(job.canonical)), Claimed(job, applied), mint)
    decreases |d.strays|
  {
    if d.strays != [] {
      ClearingAlone(w, d.(strays := d.strays[1..]), job, applied, mint);
    }
  }

  lemma AloneStep(w: World, d: Disk, p: Process, mint: Name -> Bytes)
    requires !Finished(p)
    ensures var (d', p') := Advance(w, d, p, mint); Alone(w, d, p, mint) == Alone(w, d', p', mint)
  {
  }

  /** What is on disk once every name has been found there or minted. */
  function Filled(creds: map<Name, Bytes>, names: seq<Name>, mint: Name -> Bytes): map<Name, Bytes> {
    creds + map n | n in names && n !in creds :: mint(n)
  }

  /** Every name can be had: it is there and well formed, or it may be minted. */
  predicate Collectable(w: World, creds: map<Name, Bytes>, names: seq<Name>, mayMint: bool) {
    forall n :: n in names ==> if n in creds then w.wellFormed(creds[n]) else mayMint
  }

  /** One credential is looked for, minted if need be and allowed, and read back. */
  lemma CollectSteps(w: World, d: Disk, job: Job, applied: bool, complete: bool, next: nat, seen: map<Name, Bytes>,
                     mint: Name -> Bytes)
    requires next < |w.names(job.canonical)| && forall n :: w.wellFormed(mint(n))
    ensures var n := w.names(job.canonical)[next];
            var creds := if n in d.creds then d.creds else d.creds[n := mint(n)];
            var (d1, q) := Advance(w, d, Minting(job, applied, complete, next, seen), mint);
      if n !in d.creds && (job.check || applied || complete) then q.Failed?
      else
        && q == Reading(job, applied, complete, next, seen)
        && var (d2, q2) := Advance(w, d1, q, mint);
           if n in d.creds && !w.wellFormed(d.creds[n]) then q2.Failed?
           else d2 == d.(creds := creds) && q2 == Minting(job, applied, complete, next + 1, seen[n := creds[n]])
  {
  }

  lemma CollectOne(w: World, d: Disk, job: Job, applied: bool, complete: bool, next: nat, seen: map<Name, Bytes>,
                   mint: Name -> Bytes)
    requires next < |w.names(job.canonical)| && forall n :: w.wellFormed(mint(n))
    ensures var n := w.names(job.canonical)[next];
            var creds := if n in d.creds then d.creds else d.creds[n := mint(n)];
            var (d', p') := Alone(w, d, Minting(job, applied, complete, next, seen), mint);
      if (if n in d.creds then w.wellFormed(d.creds[n]) else !(job.check || applied || complete)) then
        (d', p') ==
        Alone(w, d.(creds := creds), Minting(job, applied, complete, next + 1, seen[n := creds[n]]), mint)
      else p'.Failed?
  {
    var p := Minting(job, applied, complete, next, seen);
    CollectSteps(w, d, job, applied, complete, next, seen, mint);
    var (d1, q) := Advance(w, d, p, mint);
    if q.Failed? {
      StopsHere(w, d, p, mint);
    } else {
      AloneStep(w, d, p, mint);
      if Advance(w, d1, q, mint).1.Failed? {
        StopsHere(w, d1, q, mint);
      } else {
        AloneStep(w, d1, q, mint);
      }
    }
  }

  lemma FillOne(creds: map<Name, Bytes>, n: Name, rest: seq<Name>, mint: Name -> Bytes)
    ensures Filled(if n in creds then creds else creds[n := mint(n)], rest, mint) == Filled(creds, [n] + rest, mint)
  {
  }

  lemma CollectableOne(w: World, creds: map<Name, Bytes>, n: Name, rest: seq<Name>, mint: Name -> Bytes, mayMint: bool)
    requires w.wellFormed(mint(n))
    ensures Collectable(w, creds, [n] + rest, mayMint) <==>
            && (if n in creds then w.wellFormed(creds[n]) else mayMint)
            && Collectable(w, if n in creds then creds else creds[n := mint(n)], rest, mayMint)
  {
    assert n in [n] + rest;
    assert forall m :: m in rest ==> m in [n] + rest;
  }

  /** `seen` holds what the disk has under exactly these names. */
  ghost predicate Seen(creds: map<Name, Bytes>, names: seq<Name>, seen: map<Name, Bytes>) {
    && (forall n :: n in seen <==> n in names)
    && (forall n :: n in seen ==> n in creds && creds[n] == seen[n])
  }

  lemma SeeOne(creds: map<Name, Bytes>, names: seq<Name>, seen: map<Name, Bytes>, n: Name, value: Bytes)
    requires Seen(creds, names, seen) && (n in creds ==> creds[n] == value)
    ensures Seen(creds[n := value], names + [n], seen[n := value])
  {
  }

  /** The collecting of the credentials, on any disk: all of them, found or minted, or a failure. */
  lemma {:induction false} MintingAlone(w: World, d: Disk, job: Job, applied: bool, complete: bool, next: nat,
                                        seen: map<Name, Bytes>, mint: Name -> Bytes)
    requires d.intent == Some(job.canonical) && next <= |w.names(job.canonical)|
    requires Seen(d.creds, w.names(job.canonical)[..next], seen) && forall n :: w.wellFormed(mint(n))
    ensures var rest := w.names(job.canonical)[next..];
            var filled := d.(creds := Filled(d.creds, rest, mint));
            var (d', p') := Alone(w, d, Minting(job, applied, complete, next, seen), mint);
      if Collectable(w, d.creds, rest, !(job.check || applied || complete)) then
        (d', p') == Alone(w, filled, Sealing(job, complete, Held(w, filled)), mint)
      else p'.Failed?
    decreases |w.names(job.canonical)| - next
  {
    var names := w.names(job.canonical);
    if next == |names| {
      AloneStep(w, d, Minting(job, applied, complete, next, seen), mint);
      assert names[..next] == names;
      assert Filled(d.creds, names[next..], mint) == d.creds;
      assert seen == Held(w, d);
    } else {
      var n, rest := names[next], names[next + 1..];
      var creds := if n in d.creds then d.creds else d.creds[n := mint(n)];
      assert names[next..] == [n] + rest;
      assert names[..next + 1] == names[..next] + [n];
      CollectOne(w, d, job, applied, complete, next, seen, mint);
      CollectableOne(w, d.creds, n, rest, mint, !(job.check || applied || complete));
      FillOne(d.creds, n, rest, mint);
      SeeOne(d.creds, names[..next], seen, n, creds[n]);
      assert d.creds[n := creds[n]] == creds;
      MintingAlone(w, d.(creds := creds), job, applied, complete, next + 1, seen[n := creds[n]], mint);
    }
  }

  lemma RecordingAlone(w: World, d: Disk, job: Job, seen: map<Name, Bytes>, mint: Name -> Bytes)
    ensures var (d', p') := Alone(w, d, Recording(job, seen), mint); var contract := w.digest(Seal(w, job, seen));
      if && Publishable(d.record, contract) && Publishable(d.bundle, job.canonical)
         && (job.check ==> d.record.Some? && d.bundle.Some?)
      then
        && p' == Done(job, seen, d.bundle == None)
        && d' == d.(record := Some(contract), bundle := Some(job.canonical))
      else p'.Failed?
  {
    var p := Recording(job, seen);
    AloneStep(w, d, p, mint);
    var (d1, p1) := Advance(w, d, p, mint);
    if p1.Publishing? {
      StopsHere(w, d1, p1, mint);
    }
  }

  /** From the collected credentials on: receipt, record and bundle, each created or found as expected. */
  lemma SealingAlone(w: World, d: Disk, job: Job, complete: bool, seen: map<Name, Bytes>, mint: Name -> Bytes)
    requires complete <==> d.receipt.Some?
    ensures var (d', p') := Alone(w, d, Sealing(job, complete, seen), mint); var sealed := Seal(w, job, seen);
      if && Publishable(d.receipt, sealed) && Publishable(d.record, w.digest(sealed))
         && Publishable(d.bundle, job.canonical) && (job.check ==> d.record.Some? && d.bundle.Some?)
      then
        && p' == Done(job, seen, d.bundle == None)
        && d' == d.(receipt := Some(sealed), record := Some(w.digest(sealed)), bundle := Some(job.canonical))
      else p'.Failed?
  {
    var p := Sealing(job, complete, seen);
    AloneStep(w, d, p, mint);
    var (d1, p1) := Advance(w, d, p, mint);
    if p1.Recording? {
      RecordingAlone(w, d1, job, seen, mint);
    }
  }

  /** A run past the intent, on any disk. */
  lemma ClaimedAlone(w: World, d: Disk, job: Job, applied: bool, mint: Name -> Bytes)
    requires d.intent == Some(job.canonical) && forall n :: w.wellFormed(mint(n))
    ensures var (d', p') := Alone(w, d, Claimed(job, applied), mint);
            var names, complete := w.names(job.canonical), d.receipt.Some?;
            var filled := d.(creds := Filled(d.creds, names, mint));
            var sealed := Seal(w, job, Held(w, filled));
      if && (complete || !(job.check || applied || d.bundle.Some?))
         && Collectable(w, d.creds, names, !(job.check || applied || complete))
         && Publishable(d.receipt, sealed) && Publishable(d.record, w.digest(sealed))
         && Publishable(d.bundle, job.canonical) && (job.check ==> d.record.Some? && d.bundle.Some?)
      then
        && p' == Done(job, Held(w, filled), d.bundle == None)
        && d' == filled.(receipt := Some(sealed), record := Some(w.digest(sealed)), bundle := Some(job.canonical))
      else p'.Failed?
  {
    var names, complete := w.names(job.canonical), d.receipt.Some?;
    AloneStep(w, d, Claimed(job, applied), mint);
    AloneStep(w, d, Noticed(job, applied, complete), mint);
    if complete || !(job.check || applied || d.bundle.Some?) {
      assert names[0..] == names;
      MintingAlone(w, d, job, applied, complete, 0, map[], mint);
      var filled := d.(creds := Filled(d.creds, names, mint));
      SealingAlone(w, filled, job, complete, Held(w, filled), mint);
    }
  }

  /**
   The whole of one uninterrupted run, whatever the disk holds, files deleted or damaged included: when
   it succeeds, told by the files alone, and what a success leaves.
  */
  lemma StageOnAnyDisk(w: World, d: Disk, job: Job, mint: Name -> Bytes)
    requires forall n :: w.wellFormed(mint(n))
    ensures var (d', p') := Alone(w, d, Starting(job), mint);
            var names := w.names(job.canonical);
            var creds := d.creds + map n | n in names && n !in d.creds :: mint(n);
            var sealed := w.seal(job.canonical, (map n | n in names && n in creds :: creds[n]), job.external);
            var untouched := !job.check && d.record == None && !d.owned;
      && (p'.Done? <==>
            && (d.intent == None ==>
                  untouched && d.creds == map[] && d.receipt == None && d.bundle == None && |d.strays| < 16)
            && (d.receipt == None ==> untouched && d.bundle == None)
            && (d.receipt.Some? || !untouched ==> forall n :: n in names ==> n in d.creds)
            && (forall n :: n in names && n in d.creds ==> w.wellFormed(d.creds[n]))
            && (d.intent == None || d.intent == Some(job.canonical))
            && (d.receipt == None || d.receipt == Some(sealed))
            && (d.record == None || d.record == Some(w.digest(sealed)))
            && (d.bundle == None || d.bundle == Some(job.canonical))
            && (job.check ==> d.record.Some? && d.bundle.Some?))
      && (p'.Done? ==>
            && p' == Done(job, (map n | n in names && n in creds :: creds[n]), d.bundle == None)
            && d' == Disk(Some(job.canonical), creds, Some(sealed), Some(job.canonical),
                          if d.intent == None then [] else d.strays, Some(w.digest(sealed)), d.owned))
  {
    var applied := Applied(d);
    AloneStep(w, d, Starting(job), mint);
    AloneStep(w, d, Opened(job, applied), mint);
    var (_, p1) := Advance(w, d, Opened(job, applied), mint);
    if p1.Claimed? {
      ClaimedAlone(w, d, job, applied, mint);
    } else if p1.Clearing? {
      ClearingAlone(w, d, job, applied, mint);
      ClaimedAlone(w, d.(strays := [], intent := Some(job.canonical)), job, applied, mint);
    }
  }

  // ---- a recorded or sealed setup never mints -------------------------------------------------------

  /** The run has seen, or will see, that it may not mint; or it is past minting. */
  ghost predicate Frozen(d: Disk, p: Process) {
    match p
    case Starting(job) => job.check || Applied(d) || d.receipt.Some?
    case Opened(job, applied) => job.check || applied || d.receipt.Some?
    case Clearing(_, _, _) => false
    case Claimed(job, applied) => job.check || applied || d.receipt.Some?
    case Noticed(job, applied, complete) => job.check || applied || complete
    case Minting(job, applied, complete, _, _) => job.check || applied || complete
    case Reading(job, applied, complete, _, _) => job.check || applied || complete
    case _ => true
  }

  lemma FrozenStep(w: World, d: Disk, p: Process, mint: Name -> Bytes)
    requires Frozen(d, p)
    ensures var (d', p') := Advance(w, d, p, mint); d'.creds == d.creds && Frozen(d', p')
  {
  }

  lemma {:induction false} FrozenAlone(w: World, d: Disk, p: Process, mint: Name -> Bytes)
    requires Frozen(d, p)
    ensures Alone(w, d, p, mint).0.creds == d.creds
    decreases Phase(p), Left(w, p)
  {
    if !Finished(p) {
      FrozenStep(w, d, p, mint);
      var (d', p') := Advance(w, d, p, mint);
      FrozenAlone(w, d', p', mint);
    }
  }

  /**
   Replacement refused: on any disk, a run that is a check, or finds a receipt, a record or other rows of
   its own, leaves the credentials exactly as they were, and fails if one of the bundle's is missing.
  */
  lemma ReplacementRefused(w: World, d: Disk, job: Job, mint: Name -> Bytes)
    requires forall n :: w.wellFormed(mint(n))
    requires job.check || d.receipt.Some? || d.record.Some? || d.owned
    ensures var (d', p') := Alone(w, d, Starting(job), mint);
            d'.creds == d.creds && ((exists n :: n in w.names(job.canonical) && n !in d.creds) ==> p'.Failed?)
  {
    FrozenAlone(w, d, Starting(job), mint);
    StageOnAnyDisk(w, d, job, mint);
    AloneFinishes(w, d, Starting(job), mint);
  }

  lemma {:induction false} AloneFinishes(w: World, d: Disk, p: Process, mint: Name -> Bytes)
    ensures Finished(Alone(w, d, p, mint).1)
    decreases Phase(p), Left(w, p)
  {
    if !Finished(p) {
      var (d', p') := Advance(w, d, p, mint);
      AloneFinishes(w, d', p', mint);
    }
  }

  /**
   Everything a caller can check beforehand: an intent for this bundle, or room to claim one, and
   unchanged secrets; and a setup already applied by other means must have its receipt.
  */
  ghost predicate Rerunnable(w: World, d: Disk, job: Job) {
    && (d.intent == None ==> |d.strays| < LISTING)
    && (d.intent.Some? ==> d.intent == Some(job.canonical))
    && (d.receipt.Some? ==> SealedWith(w, d, job.external))
    && (d.owned ==> d.receipt.Some?)
  }

  /**
   From every state that crashed and overlapping runs can leave behind, one uninterrupted run
   succeeds exactly when rerunnable; it keeps every file published before it and leaves all of the
   chain in place.
  */
  lemma RerunSucceedsIff(w: World, d: Disk, job: Job, mint: Name -> Bytes)
    requires Chain(w, d) && !job.check && forall n :: w.wellFormed(mint(n))
    ensures var (d', p') := Alone(w, d, Starting(job), mint);
      && (p'.Done? <==> Rerunnable(w, d, job))
      && (p'.Done? ==> Keeps(d, d') && Chain(w, d'))
      && (p'.Done? ==> d'.bundle == Some(job.canonical) && SealedWith(w, d', job.external))
      && (p'.Done? ==> p'.created == (d.bundle == None))
  {
    StageOnAnyDisk(w, d, job, mint);
    var creds := Filled(d.creds, w.names(job.canonical), mint);
    if d.receipt.Some? && d.intent == Some(job.canonical) {
      assert creds == d.creds;
    }
    var (d', p') := Alone(w, d, Starting(job), mint);
    if p'.Done? {
      assert d'.creds == creds;
      assert SealedWith(w, d', job.external);
    }
  }

  /** A check run after a successful one finds everything present and writes nothing. */
  lemma CheckAfterSuccess(w: World, d: Disk, job: Job, mint: Name -> Bytes)
    requires Chain(w, d) && d.bundle == Some(job.canonical) && SealedWith(w, d, job.external) && job.check
    requires forall n :: w.wellFormed(mint(n))
    ensures Alone(w, d, Starting(job), mint) == (d, Done(job, Held(w, d), false))
  {
    StageOnAnyDisk(w, d, job, mint);
    assert Filled(d.creds, w.names(job.canonical), mint) == d.creds;
  }

  /** So: a run from whatever crashes left, and then a check. */
  lemma RerunThenCheck(w: World, d: Disk, job: Job, mint: Name -> Bytes)
    requires Chain(w, d) && !job.check && Rerunnable(w, d, job) && forall n :: w.wellFormed(mint(n))
    ensures var (d', _) := Alone(w, d, Starting(job), mint);
      && Keeps(d, d') && d'.intent == Some(job.canonical)
      && Alone(w, d', Starting(job.(check := true)), mint) == (d', Done(job.(check := true), Held(w, d'), false))
  {
    RerunSucceedsIff(w, d, job, mint);
    CheckAfterSuccess(w, Alone(w, d, Starting(job), mint).0, job.(check := true), mint);
  }

  /** Every run was launched on the same bundle and the same external secrets, as a check or not. */
  predicate SameInputs(events: seq<Event>, job: Job) {
    forall i :: 0 <= i < |events| && events[i].Launch? ==>
                  events[i].job.canonical == job.canonical && events[i].job.external == job.external
  }

  /** Whatever such runs have left was made from those inputs. */
  ghost predicate MadeFrom(w: World, s: State, job: Job) {
    && (forall r :: r in s.runs && !s.runs[r].Failed? ==>
                      s.runs[r].job.canonical == job.canonical && s.runs[r].job.external == job.external)
    && (s.disk.intent.Some? ==> s.disk.intent == Some(job.canonical))
    && (s.disk.receipt.Some? ==> SealedWith(w, s.disk, job.external))
  }

  lemma AdvanceKeepsReceipt(w: World, d: Disk, p: Process, mint: Name -> Bytes, job: Job)
    requires Chain(w, d) && Progress(w, d, p) && !p.Failed?
    requires p.job.canonical == job.canonical && p.job.external == job.external
    requires d.intent.Some? ==> d.intent == Some(job.canonical)
    requires d.receipt.Some? ==> SealedWith(w, d, job.external)
    ensures var (d', p') := Advance(w, d, p, mint);
      && (!p'.Failed? ==> p'.job == p.job)
      && (d'.intent.Some? ==> d'.intent == Some(job.canonical))
      && (d'.receipt.Some? ==> SealedWith(w, d', job.external))
  {
    var (d', _) := Advance(w, d, p, mint);
    AdvanceKeepsFiles(w, d, p, mint);
    if d.receipt.Some? {
      HeldIsSettled(w, d, d');
    }
  }

  lemma StepKeepsMadeFrom(w: World, s: State, e: Event, job: Job)
    requires Inv(w, s) && MadeFrom(w, s, job) && Enabled(w, s, e) && !e.Delete?
    requires e.Launch? ==> e.job.canonical == job.canonical && e.job.external == job.external
    ensures MadeFrom(w, Step(w, s, e), job)
  {
    if e.Go? && !s.runs[e.r].Failed? {
      AdvanceKeepsReceipt(w, s.disk, s.runs[e.r], e.mint, job);
    } else if s.disk.receipt.Some? {
      HeldIsSettled(w, s.disk, Step(w, s, e).disk);
    }
  }

  lemma {:induction false} MadeFromOverRuns(w: World, states: seq<State>, events: seq<Event>, job: Job, i: nat)
    requires IsRun(w, states, events) && NothingDeleted(events) && SameInputs(events, job) && i < |states|
    ensures MadeFrom(w, states[i], job)
  {
    if i > 0 {
      assert StepAt(w, states, events, i - 1);
      MadeFromOverRuns(w, states, events, job, i - 1);
      ChainOverRuns(w, states, events, i - 1);
      StepKeepsMadeFrom(w, states[i - 1], events[i - 1], job);
    }
  }

  /**
   Resumable, and exactly when: wherever runs on unchanged inputs have crashed or overlapped, one more
   uninterrupted run succeeds if and only if the directory is claimed or not crowded with strays, and
   a setup applied by other means has its receipt. It then keeps every file published before it, and a
   check that follows reports present.
  */
  lemma RerunOnUnchangedInputs(w: World, states: seq<State>, events: seq<Event>, i: nat, job: Job, mint: Name -> Bytes)
    requires IsRun(w, states, events) && NothingDeleted(events) && SameInputs(events, job) && i < |states|
    requires !job.check && forall n :: w.wellFormed(mint(n))
    ensures var d := states[i].disk; var (d', p') := Alone(w, d, Starting(job), mint);
      && (p'.Done? <==> (d.intent == None ==> |d.strays| < LISTING) && (d.owned ==> d.receipt.Some?))
      && (p'.Done? ==>
            && Keeps(d, d') && d'.intent == Some(job.canonical)
            && Alone(w, d', Starting(job.(check := true)), mint) == (d', Done(job.(check := true), Held(w, d'), false)))
  {
    ChainOverRuns(w, states, events, i);
    MadeFromOverRuns(w, states, events, job, i);
    var d := states[i].disk;
    RerunSucceedsIff(w, d, job, mint);
    if Rerunnable(w, d, job) {
      RerunThenCheck(w, d, job, mint);
    }
  }

  /** A check run can only be at a step that reads. */
  predicate ReadsOnly(p: Process) {
    !Finished(p) && p.job.check ==>
      && !p.Clearing?
      && (p.Minting? || p.Reading? || p.Sealing? ==> p.complete)
  }

  lemma CheckStepWritesNothing(w: World, d: Disk, p: Process, mint: Name -> Bytes)
    requires !Finished(p) && p.job.check && ReadsOnly(p)
    ensures var (d', p') := Advance(w, d, p, mint); d' == d && ReadsOnly(p') && (!Finished(p') ==> p'.job == p.job)
  {
  }

  /** Whatever it finds, a check run leaves disk and database as they were. */
  lemma {:induction false} CheckWritesNothing(w: World, d: Disk, p: Process, mint: Name -> Bytes)
    requires !Finished(p) ==> p.job.check && ReadsOnly(p)
    ensures Alone(w, d, p, mint).0 == d
    decreases Phase(p), Left(w, p)
  {
    if !Finished(p) {
      CheckStepWritesNothing(w, d, p, mint);
      CheckWritesNothing(w, d, Advance(w, d, p, mint).1, mint);
    }
  }

  // ---- files deleted under the runs -------------------------------------------------------------------

  /** Runs that got past the record, and the bundle, all stand for what was first recorded. */
  ghost predicate RecordInv(w: World, s: State) {
    && (s.disk.record.Some? <==> s.recorded.Some?)
    && (s.recorded.Some? ==> var (canonical, creds, external) := s.recorded.value;
                             s.disk.record == Some(w.digest(w.seal(canonical, creds, external))))
    && (s.disk.bundle.Some? ==> s.recorded.Some? && s.disk.bundle == Some(s.recorded.value.0))
    && forall r :: r in s.runs ==> Settled(s, s.runs[r])
  }

  ghost predicate Settled(s: State, p: Process) {
    p.Publishing? || p.Done? ==> s.recorded == Some((p.job.canonical, p.seen, p.job.external))
  }

  lemma OneContract(w: World, a: Bytes, b: Bytes, x: map<Name, Bytes>, y: map<Name, Bytes>, e: Bytes, f: Bytes)
    requires Collisionless(w) && w.digest(w.seal(a, x, e)) == w.digest(w.seal(b, y, f))
    ensures a == b && x == y && e == f
  {
    assert w.seal(a, x, e) == w.seal(b, y, f);
  }

  lemma GoKeepsRecord(w: World, s: State, r: nat, mint: Name -> Bytes)
    requires Collisionless(w) && RecordInv(w, s) && r in s.runs
    ensures RecordInv(w, DoGo(w, s, r, mint))
    ensures s.recorded.Some? ==>
              DoGo(w, s, r, mint).recorded == s.recorded && DoGo(w, s, r, mint).disk.record == s.disk.record
  {
    var p := s.runs[r];
    assert Settled(s, p);
    if p.Recording? && s.recorded.Some? && s.disk.record == Some(w.digest(Seal(w, p.job, p.seen))) {
      var (canonical, creds, external) := s.recorded.value;
      OneContract(w, canonical, p.job.canonical, creds, p.seen, external, p.job.external);
    }
  }

  lemma StepKeepsRecord(w: World, s: State, e: Event)
    requires Collisionless(w) && RecordInv(w, s) && Enabled(w, s, e)
    ensures RecordInv(w, Step(w, s, e))
    ensures s.recorded.Some? ==> Step(w, s, e).recorded == s.recorded && Step(w, s, e).disk.record == s.disk.record
  {
    if e.Go? {
      GoKeepsRecord(w, s, e.r, e.mint);
    }
  }

  lemma {:induction false} RecordOverRuns(w: World, states: seq<State>, events: seq<Event>, i: nat)
    requires Collisionless(w) && IsRun(w, states, events) && i < |states|
    ensures RecordInv(w, states[i])
  {
    if i > 0 {
      assert StepAt(w, states, events, i - 1);
      RecordOverRuns(w, states, events, i - 1);
      StepKeepsRecord(w, states[i - 1], events[i - 1]);
    }
  }

  /**
   No silent replacement: whatever preparation files are deleted between and during runs, every run
   that ever succeeds saw the same bundle, credentials and external secrets as the first record,
   and no other bundle is ever published.
  */
  lemma NoSilentReplacement(w: World, states: seq<State>, events: seq<Event>, i: nat, j: nat, q: nat, r: nat)
    requires Collisionless(w) && IsRun(w, states, events) && i <= j < |states|
    requires q in states[i].runs && states[i].runs[q].Done? && r in states[j].runs && states[j].runs[r].Done?
    ensures var a, b := states[i].runs[q], states[j].runs[r];
            a.job.canonical == b.job.canonical && a.seen == b.seen && a.job.external == b.job.external
    ensures states[j].disk.bundle.Some? ==> states[j].disk.bundle == Some(states[i].runs[q].job.canonical)
  {
    RecordOverRuns(w, states, events, i);
    RecordOverRuns(w, states, events, j);
    assert Settled(states[i], states[i].runs[q]) && Settled(states[j], states[j].runs[r]);
    RecordedForGood(w, states, events, i, j);
  }

  lemma {:induction false} RecordedForGood(w: World, states: seq<State>, events: seq<Event>, i: nat, j: nat)
    requires Collisionless(w) && IsRun(w, states, events) && i <= j < |states| && states[i].recorded.Some?
    ensures states[j].recorded == states[i].recorded
    decreases j - i
  {
    if i < j {
      assert StepAt(w, states, events, j - 1);
      RecordedForGood(w, states, events, i, j - 1);
      RecordOverRuns(w, states, events, j - 1);
      StepKeepsRecord(w, states[j - 1], events[j - 1]);
    }
  }

  /** The run was launched on a recorded setup, and knows it. */
  ghost predicate KnowsApplied(d: Disk, p: Process) {
    match p
    case Starting(_) => d.record.Some?
    case Opened(_, applied) => applied
    case Clearing(_, _, _) => false
    case Claimed(_, applied) => applied
    case Noticed(_, applied, _) => applied
    case Minting(_, applied, _, _, _) => applied
    case Reading(_, applied, _, _, _) => applied
    case _ => true
  }

  lemma AdvanceKeepsApplied(w: World, d: Disk, p: Process, mint: Name -> Bytes)
    requires d.record.Some? && KnowsApplied(d, p)
    ensures var (d', p') := Advance(w, d, p, mint);
            d'.record == d.record && d'.creds == d.creds && KnowsApplied(d', p')
  {
  }

  lemma StepKeepsApplied(w: World, s: State, e: Event, r: nat)
    requires Enabled(w, s, e) && s.disk.record.Some?
    requires if r in s.runs then KnowsApplied(s.disk, s.runs[r]) else e.Launch? && e.r == r
    ensures var t := Step(w, s, e);
      && t.disk.record.Some? && r in t.runs && KnowsApplied(t.disk, t.runs[r])
      && (e.Go? && e.r == r ==> t.disk.creds == s.disk.creds)
  {
    if e.Go? && e.r == r {
      AdvanceKeepsApplied(w, s.disk, s.runs[r], e.mint);
    } else if e.Go? {
      AdvanceKeepsFiles(w, s.disk, s.runs[e.r], e.mint);
    }
  }

  lemma {:induction false} AppliedIsKnown(w: World, states: seq<State>, events: seq<Event>, i: nat, j: nat, r: nat)
    requires IsRun(w, states, events) && i < j < |states|
    requires events[i].Launch? && events[i].r == r && states[i].disk.record.Some?
    ensures states[j].disk.record.Some? && r in states[j].runs && KnowsApplied(states[j].disk, states[j].runs[r])
    decreases j - i
  {
    assert StepAt(w, states, events, j - 1);
    if i + 1 < j {
      AppliedIsKnown(w, states, events, i, j - 1, r);
    }
    StepKeepsApplied(w, states[j - 1], events[j - 1], r);
  }

  /**
   The record outlives the files: whatever is deleted or runs beside it, a run launched on a recorded
   setup never writes a credential.
  */
  lemma RecordedSetupNeverMints(w: World, states: seq<State>, events: seq<Event>, i: nat, j: nat, r: nat)
    requires IsRun(w, states, events) && i < j < |events|
    requires events[i].Launch? && events[i].r == r && states[i].disk.record.Some?
    requires events[j].Go? && events[j].r == r
    ensures states[j + 1].disk.creds == states[j].disk.creds
  {
    AppliedIsKnown(w, states, events, i, j, r);
    assert StepAt(w, states, events, j);
    StepKeepsApplied(w, states[j], events[j], r);
  }

  // ---- the run as it is written -----------------------------------------------------------------------

  datatype Refusal = IntentMissing | Occupied | IntentChanged | ReceiptMissing | CredentialMissing | CredentialMalformed
                   | CredentialsChanged | RecordChanged | BundleChanged

  class Preparation {
    var intent: Option<Bytes>
    var creds: map<Name, Bytes>
    var receipt: Option<Bytes>
    var bundle: Option<Bytes>
    var strays: seq<nat>
    var record: Option<Bytes>
    var owned: bool

    ghost function View(): Disk reads this { Disk(intent, creds, receipt, bundle, strays, record, owned) }

    /** Claims an unclaimed directory: nothing but a few interrupted temporary files may be there. */
    method Claim(w: World, job: Job, applied: bool, mint: Name -> Bytes) returns (refusal: Option<Refusal>)
      modifies this
      ensures Alone(w, old(View()), Opened(job, applied), mint) ==
              if refusal == None then Alone(w, View(), Claimed(job, applied), mint) else (View(), Failed)
    {
      ghost var whole := Alone(w, View(), Opened(job, applied), mint);
      if intent.Some? {
        return if intent.value == job.canonical then None else Some(IntentChanged);
      }
      if job.check || applied {
        return Some(IntentMissing);
      }
      if creds != map[] || receipt.Some? || bundle.Some? || |strays| >= LISTING {
        return Some(Occupied);
      }
      var entries := strays;
      while entries != []
        invariant intent == None && entries == strays
        invariant whole == Alone(w, View(), Clearing(job, applied, entries), mint)
        decreases |entries|
      {
        strays := Without(strays, entries[0]);
        entries := entries[1..];
      }
      intent := Some(job.canonical);
      refusal := None;
    }

    /** One credential: minted where that is allowed, then read back. */
    method Collect(w: World, job: Job, applied: bool, complete: bool, next: nat,
                   digests: map<Name, Bytes>, mint: Name -> Bytes)
      returns (refusal: Option<Refusal>, digest: Bytes)
      requires next < |w.names(job.canonical)|
      modifies this
      ensures Alone(w, old(View()), Minting(job, applied, complete, next, digests), mint) ==
              if refusal.Some? then (View(), Failed)
              else
                var seen := digests[w.names(job.canonical)[next] := digest];
                Alone(w, View(), Minting(job, applied, complete, next + 1, seen), mint)
    {
      var path := w.names(job.canonical)[next];
      if path !in creds {
        if job.check || applied || complete {
          StopsHere(w, View(), Minting(job, applied, complete, next, digests), mint);
          return Some(CredentialMissing), "";
        }
        creds := creds[path := mint(path)];
      }
      digest := creds[path];
      if !w.wellFormed(digest) {
        StopsHere(w, View(), Reading(job, applied, complete, next, digests), mint);
        return Some(CredentialMalformed), digest;
      }
      refusal := None;
    }

    /** Mints what is missing, where that is allowed, and reads back every credential. */
    method CollectCredentials(w: World, job: Job, applied: bool, complete: bool, mint: Name -> Bytes)
      returns (refusal: Option<Refusal>, digests: map<Name, Bytes>)
      modifies this
      ensures Alone(w, old(View()), Minting(job, applied, complete, 0, map[]), mint) ==
              if refusal == None then Alone(w, View(), Sealing(job, complete, digests), mint) else (View(), Failed)
    {
      ghost var whole := Alone(w, View(), Minting(job, applied, complete, 0, map[]), mint);
      var generated := w.names(job.canonical);
      digests := map[];
      var next := 0;
      while next < |generated|
        invariant next <= |generated| && whole == Alone(w, View(), Minting(job, applied, complete, next, digests), mint)
      {
        var digest;
        refusal, digest := Collect(w, job, applied, complete, next, digests, mint);
        if refusal.Some? {
          return;
        }
        digests := digests[generated[next] := digest];
        next := next + 1;
      }
      refusal := None;
    }

    /** Receipt, then the native record, then the usable bundle. */
    method SealAndPublish(w: World, job: Job, complete: bool, digests: map<Name, Bytes>, mint: Name -> Bytes)
      returns (status: Result<bool, Refusal>)
      modifies this
      ensures var (d, p) := Alone(w, old(View()), Sealing(job, complete, digests), mint);
              View() == d &&
              (match status case Ok(created) => p == Done(job, digests, created) case Err(_) => p.Failed?)
    {
      ghost var whole := Alone(w, View(), Sealing(job, complete, digests), mint);
      var sealed := Seal(w, job, digests);
      if complete {
        if receipt != Some(sealed) {
          return Err(CredentialsChanged);
        }
      } else {
        if !Publishable(receipt, sealed) {
          return Err(CredentialsChanged);
        }
        receipt := Some(sealed);
      }
      assert whole == Alone(w, View(), Recording(job, digests), mint);
      if record.Some? {
        if record != Some(w.digest(sealed)) {
          StopsHere(w, View(), Recording(job, digests), mint);
          return Err(RecordChanged);
        }
      } else {
        if job.check {
          StopsHere(w, View(), Recording(job, digests), mint);
          return Err(RecordChanged);
        }
        record := Some(w.digest(sealed));
      }
      assert whole == Alone(w, View(), Publishing(job, digests), mint);
      StopsHere(w, View(), Publishing(job, digests), mint);
      if job.check {
        return if bundle == Some(job.canonical) then Ok(false) else Err(BundleChanged);
      }
      if !Publishable(bundle, job.canonical) {
        return Err(BundleChanged);
      }
      var created := bundle == None;
      bundle := Some(job.canonical);
      status := Ok(created);
    }

    /** The whole run: `created` or `present`, or the first refusal; exactly the run the proofs above follow. */
    method StageSetup(w: World, job: Job, mint: Name -> Bytes) returns (status: Result<bool, Refusal>)
      modifies this
      ensures var (d, p) := Alone(w, old(View()), Starting(job), mint);
              View() == d && (match status case Ok(created) => p.Done? && p.created == created case Err(_) => p.Failed?)
    {
      ghost var whole := Alone(w, View(), Starting(job), mint);
      var applied := record.Some? || owned;
      assert whole == Alone(w, View(), Opened(job, applied), mint);
      var refusal := Claim(w, job, applied, mint);
      if refusal.Some? {
        return Err(refusal.value);
      }
      var complete := receipt.Some?;
      assert whole == Alone(w, View(), Noticed(job, applied, complete), mint);
      if !complete && (job.check || applied || bundle.Some?) {
        StopsHere(w, View(), Noticed(job, applied, complete), mint);
        return Err(ReceiptMissing);
      }
      var digests;
      refusal, digests := CollectCredentials(w, job, applied, complete, mint);
      if refusal.Some? {
        return Err(refusal.value);
      }
      status := SealAndPublish(w, job, complete, digests, mint);
    }
  }
}
