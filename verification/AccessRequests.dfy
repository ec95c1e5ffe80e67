/**
 Asking for an application and being granted it. Each operation is one database transaction; an
 error rolls everything back, including the expiry mark a late decision writes.
*/
module AccessRequests {
  import opened Common

  type Id = string
  type User = string
  type App = string

  /** Times are in milliseconds, except where a column holds whole seconds. */
  type Time = int

  const MAX_PENDING := 5
  const MAX_REASON := 500
  const MAX_DURATION_S := 90 * 24 * 3600
  const REQUEST_TTL_MS := 14 * 24 * 3600 * 1000

  datatype Status = Pending | Approved | Denied | Cancelled | Expired

  datatype Request = Request(
    app: App,
    user: User,
    durationS: nat,
    status: Status,
    createdAt: Time,
    expiresAtS: int,
    decidedAt: Option<Time>,
    decidedBy: User)

  datatype Error = InvalidRequest | NotRequestable | AlreadyHasAccess | TooManyRequests | DuplicateRequest
                 | NotPending | SelfApproval | CannotDecide

  /** A direct assignment; None means it does not end. */
  type Expiry = Option<int>

  datatype Db = Db(requests: map<Id, Request>, grants: map<(App, User), Expiry>)

  /** What a transaction reads elsewhere: app settings, current access, and who may decide, at a moment. */
  datatype World = World(
    open: (App, Time) -> bool,
    reachable: (App, User, Time) -> bool,
    mayDecide: (User, App, Time) -> bool)

  function PendingOf(db: Db, user: User): set<Id> {
    set id | id in db.requests && db.requests[id].user == user && db.requests[id].status == Pending
  }

  predicate HasPending(db: Db, app: App, user: User) {
    exists id :: id in db.requests && db.requests[id].app == app && db.requests[id].user == user &&
                 db.requests[id].status == Pending
  }

  function Filed(app: App, user: User, durationS: nat, now: Time): Request {
    Request(app, user, durationS, Pending, now, (now + REQUEST_TTL_MS) / 1000, None, "")
  }

  function Created(w: World, db: Db, id: Id, app: App, user: User, reason: string, durationS: int, now: Time)
    : Result<Db, Error>
  {
    if reason == "" || |reason| > MAX_REASON || durationS < 0 || durationS > MAX_DURATION_S then Err(InvalidRequest)
    else if !w.open(app, now) then Err(NotRequestable)
    else if w.reachable(app, user, now) then Err(AlreadyHasAccess)
    else if |PendingOf(db, user)| >= MAX_PENDING then Err(TooManyRequests)
    else if HasPending(db, app, user) then Err(DuplicateRequest)
    else Ok(db.(requests := db.requests[id := Filed(app, user, durationS, now)]))
  }

  function Withdrawn(db: Db, id: Id, user: User, now: Time): Result<Db, Error> {
    if id in db.requests && db.requests[id].user == user && db.requests[id].status == Pending then
      Ok(db.(requests := db.requests[id := db.requests[id].(status := Cancelled, decidedAt := Some(now))]))
    else Err(NotPending)
  }

  /** The longer of two lives. */
  function Longer(a: Expiry, b: Expiry): Expiry {
    if a == None || b == None then None else if a.value >= b.value then a else b
  }

  predicate NoShorter(a: Expiry, b: Expiry) {
    Longer(a, b) == a
  }

  function Requested(r: Request, now: Time): Expiry {
    if r.durationS > 0 then Some((now + 1000 * r.durationS) / 1000) else None
  }

  function Granted(db: Db, r: Request, now: Time): map<(App, User), Expiry> {
    var key := (r.app, r.user);
    db.grants[key := if key in db.grants then Longer(db.grants[key], Requested(r, now)) else Requested(r, now)]
  }

  function Decided(w: World, db: Db, id: Id, actor: User, approve: bool, note: string, now: Time): Result<Db, Error> {
    if |note| > MAX_REASON then Err(InvalidRequest)
    else if id !in db.requests || db.requests[id].status != Pending then Err(NotPending)
    else
      var r := db.requests[id];
      if 1000 * r.expiresAtS <= now then Err(NotPending)
      else if r.user == actor then Err(SelfApproval)
      else if !w.mayDecide(actor, r.app, now) then Err(CannotDecide)
      else if approve && !w.open(r.app, now) then Err(NotRequestable)
      else Ok(Db(db.requests[id := r.(status := if approve then Approved else Denied,
                                     decidedAt := Some(now), decidedBy := actor)],
                 if approve then Granted(db, r, now) else db.grants))
  }

  function Swept(db: Db, now: Time): Db {
    db.(requests := map id | id in db.requests ::
      if db.requests[id].status == Pending && db.requests[id].expiresAtS <= now / 1000
      then db.requests[id].(status := Expired, decidedAt := Some(now)) else db.requests[id])
  }

  // ---- the transactions -------------------------------------------------------------------------------

  class Store {
    var requests: map<Id, Request>
    var grants: map<(App, User), Expiry>

    ghost function View(): Db reads this { Db(requests, grants) }

    constructor ()
      ensures View() == Db(map[], map[])
    {
      requests, grants := map[], map[];
    }

    method CountPending(user: User) returns (n: nat)
      ensures n == |PendingOf(View(), user)|
    {
      n := 0;
      var todo := requests.Keys;
      ghost var counted := {};
      while todo != {}
        invariant todo <= requests.Keys && n == |counted|
        invariant forall id :: id in counted <==> id in PendingOf(View(), user) && id !in todo
      {
        var id :| id in todo;
        todo := todo - {id};
        if requests[id].user == user && requests[id].status == Pending {
          n := n + 1;
          counted := counted + {id};
        }
      }
      assert counted == PendingOf(View(), user);
    }

    method CreateAccessRequest(w: World, id: Id, app: App, user: User, reason: string, durationS: int, now: Time)
      returns (error: Option<Error>)
      requires id !in requests
      modifies this
      ensures match Created(w, old(View()), id, app, user, reason, durationS, now)
              case Ok(db) => error == None && View() == db
              case Err(e) => error == Some(e) && View() == old(View())
      ensures var mine := set r | r in old(requests) && old(requests)[r].user == user &&
                                  old(requests)[r].status == Pending;
        error ==
        if reason == "" || |reason| > 500 || durationS < 0 || durationS > 7_776_000 then Some(InvalidRequest)
        else if !w.open(app, now) then Some(NotRequestable)
        else if w.reachable(app, user, now) then Some(AlreadyHasAccess)
        else if |mine| >= 5 then Some(TooManyRequests)
        else if exists r :: r in mine && old(requests)[r].app == app then Some(DuplicateRequest)
        else None
      ensures grants == old(grants)
      ensures error.Some? ==> requests == old(requests)
      ensures error == None ==>
                durationS >= 0 &&
                requests == old(requests)[id := Request(app, user, durationS, Pending, now,
                                                        (now + 1_209_600_000) / 1000, None, "")]
    {
      assert PendingOf(View(), user) ==
             set r | r in requests && requests[r].user == user && requests[r].status == Pending;
      if reason == "" || |reason| > MAX_REASON || durationS < 0 || durationS > MAX_DURATION_S {
        return Some(InvalidRequest);
      }
      if !w.open(app, now) {
        return Some(NotRequestable);
      }
      if w.reachable(app, user, now) {
        return Some(AlreadyHasAccess);
      }
      var pending := CountPending(user);
      if pending >= MAX_PENDING {
        return Some(TooManyRequests);
      }
      if exists other :: other in requests && requests[other].app == app && requests[other].user == user &&
                         requests[other].status == Pending {
        return Some(DuplicateRequest);
      }
      requests := requests[id := Request(app, user, durationS, Pending, now, (now + REQUEST_TTL_MS) / 1000, None, "")];
      error := None;
    }

    method CancelAccessRequest(id: Id, user: User, now: Time) returns (error: Option<Error>)
      modifies this
      ensures match Withdrawn(old(View()), id, user, now)
              case Ok(db) => error == None && View() == db
              case Err(e) => error == Some(e) && View() == old(View())
      ensures grants == old(grants)
      ensures if id in old(requests) && old(requests)[id].user == user && old(requests)[id].status == Pending then
                && error == None
                && requests == old(requests)[id := old(requests)[id].(status := Cancelled, decidedAt := Some(now))]
              else error == Some(NotPending) && requests == old(requests)
    {
      if id !in requests || requests[id].user != user || requests[id].status != Pending {
        return Some(NotPending);
      }
      requests := requests[id := requests[id].(status := Cancelled, decidedAt := Some(now))];
      error := None;
    }

    method DecideAccessRequest(w: World, id: Id, actor: User, approve: bool, note: string, now: Time)
      returns (error: Option<Error>)
      modifies this
      ensures match Decided(w, old(View()), id, actor, approve, note, now)
              case Ok(db) => error == None && View() == db
              case Err(e) => error == Some(e) && View() == old(View())
      ensures error ==
              if |note| > 500 then Some(InvalidRequest)
              else if id !in old(requests) || old(requests)[id].status != Pending ||
                      1000 * old(requests)[id].expiresAtS <= now then Some(NotPending)
              else if old(requests)[id].user == actor then Some(SelfApproval)
              else if !w.mayDecide(actor, old(requests)[id].app, now) then Some(CannotDecide)
              else if approve && !w.open(old(requests)[id].app, now) then Some(NotRequestable)
              else None
      ensures error.Some? ==> requests == old(requests)
      ensures error == None ==>
                requests == old(requests)[id := old(requests)[id].(status := if approve then Approved else Denied,
                                                                   decidedAt := Some(now), decidedBy := actor)]
      ensures error.Some? || !approve ==> grants == old(grants)
      ensures error == None && approve ==>
                var r := old(requests)[id];
                var wanted: Expiry := if r.durationS > 0 then Some((now + 1000 * r.durationS) / 1000) else None;
                var kept := (r.app, r.user) in old(grants) && var held := old(grants)[(r.app, r.user)];
                            held == None || (wanted.Some? && wanted.value <= held.value);
                grants == if kept then old(grants) else old(grants)[(r.app, r.user) := wanted]
    {
      if |note| > MAX_REASON {
        return Some(InvalidRequest);
      }
      if id !in requests || requests[id].status != Pending {
        return Some(NotPending);
      }
      var req := requests[id];
      if 1000 * req.expiresAtS <= now {
        return Some(NotPending);
      }
      if req.user == actor {
        return Some(SelfApproval);
      }
      if !w.mayDecide(actor, req.app, now) {
        return Some(CannotDecide);
      }
      var status := Denied;
      if approve {
        if !w.open(req.app, now) {
          return Some(NotRequestable);
        }
        var expiresAt: Expiry := None;
        if req.durationS > 0 {
          expiresAt := Some((now + 1000 * req.durationS) / 1000);
        }
        var key := (req.app, req.user);
        var keep := key in grants && (grants[key] == None || (expiresAt.Some? && grants[key].value >= expiresAt.value));
        if !keep {
          grants := grants[key := expiresAt];
        }
        status := Approved;
      }
      requests := requests[id := req.(status := status, decidedAt := Some(now), decidedBy := actor)];
      error := None;
    }

    method ExpireAccessRequests(now: Time)
      modifies this
      ensures View() == Swept(old(View()), now)
      ensures grants == old(grants) && requests.Keys == old(requests).Keys
      ensures forall id :: id in requests ==>
                var r := old(requests)[id];
                requests[id] == if r.status == Pending && r.expiresAtS <= now / 1000
                                then r.(status := Expired, decidedAt := Some(now)) else r
    {
      requests := map id | id in requests ::
        if requests[id].status == Pending && requests[id].expiresAtS <= now / 1000
        then requests[id].(status := Expired, decidedAt := Some(now)) else requests[id];
    }
  }

  // ---- runs ---------------------------------------------------------------------------------------------

  datatype Event =
    | Create(id: Id, app: App, user: User, reason: string, durationS: int, now: Time)
    | Cancel(id: Id, user: User, now: Time)
    | Decide(id: Id, actor: User, approve: bool, note: string, now: Time)
    | Sweep(now: Time)
    | SetGrant(app: App, user: User, expiry: Expiry)
    | RemoveGrant(app: App, user: User)

  function OrKept(r: Result<Db, Error>, db: Db): Db {
    match r
    case Ok(after) => after
    case Err(_) => db
  }

  function Step(w: World, db: Db, e: Event): Db {
    match e
    case Create(id, app, user, reason, durationS, now) =>
      if id in db.requests then db else OrKept(Created(w, db, id, app, user, reason, durationS, now), db)
    case Cancel(id, user, now) => OrKept(Withdrawn(db, id, user, now), db)
    case Decide(id, actor, approve, note, now) => OrKept(Decided(w, db, id, actor, approve, note, now), db)
    case Sweep(now) => Swept(db, now)
    case SetGrant(app, user, expiry) => db.(grants := db.grants[(app, user) := expiry])
    case RemoveGrant(app, user) => db.(grants := db.grants - {(app, user)})
  }

  function Run(w: World, db: Db, events: seq<Event>): Db
    decreases |events|
  {
    if events == [] then db else Run(w, Step(w, db, events[0]), events[1..])
  }

  /** A decision was made by somebody else who had the authority then, before the deadline. */
  ghost predicate ProperlyDecided(w: World, r: Request) {
    r.status == Approved || r.status == Denied ==>
      && r.decidedAt.Some? && r.decidedAt.value < 1000 * r.expiresAtS
      && r.decidedBy != r.user && w.mayDecide(r.decidedBy, r.app, r.decidedAt.value)
      && (r.status == Approved ==> w.open(r.app, r.decidedAt.value))
  }

  predicate SameAsk(a: Request, b: Request) {
    a.status == Pending && b.status == Pending && a.app == b.app && a.user == b.user
  }

  ghost predicate OnePerApp(db: Db) {
    forall i, j :: i in db.requests && j in db.requests && SameAsk(db.requests[i], db.requests[j]) ==> i == j
  }

  ghost predicate Inv(w: World, db: Db) {
    && (forall user :: |PendingOf(db, user)| <= MAX_PENDING)
    && OnePerApp(db)
    && forall id :: id in db.requests ==> ProperlyDecided(w, db.requests[id])
  }

  lemma StepKeepsBound(w: World, db: Db, e: Event, user: User)
    requires |PendingOf(db, user)| <= MAX_PENDING
    ensures |PendingOf(Step(w, db, e), user)| <= MAX_PENDING
  {
    var after := Step(w, db, e);
    if e.Create? && e.user == user && after != db {
      assert PendingOf(after, user) == PendingOf(db, user) + {e.id};
    } else {
      SubsetSize(PendingOf(after, user), PendingOf(db, user));
    }
  }

  lemma StepKeepsDecisions(w: World, db: Db, e: Event)
    requires OnePerApp(db) && forall id :: id in db.requests ==> ProperlyDecided(w, db.requests[id])
    ensures var after := Step(w, db, e);
            OnePerApp(after) && forall id :: id in after.requests ==> ProperlyDecided(w, after.requests[id])
  {
  }

  /**
   In every state any run reaches, no user has more than five pending requests or two for one app,
   and no request was decided by its requester, without authority, or past its deadline.
  */
  lemma {:induction false} RequestsStayWithinRules(w: World, db: Db, events: seq<Event>)
    requires Inv(w, db)
    ensures Inv(w, Run(w, db, events))
    decreases |events|
  {
    if events != [] {
      forall user ensures |PendingOf(Step(w, db, events[0]), user)| <= MAX_PENDING {
        StepKeepsBound(w, db, events[0], user);
      }
      StepKeepsDecisions(w, db, events[0]);
      RequestsStayWithinRules(w, Step(w, db, events[0]), events[1..]);
    }
  }

  /** Approved, denied, cancelled and expired requests never change again. */
  lemma {:induction false} TerminalIsFinal(w: World, db: Db, events: seq<Event>, id: Id)
    requires id in db.requests && db.requests[id].status != Pending
    ensures var after := Run(w, db, events); id in after.requests && after.requests[id] == db.requests[id]
    decreases |events|
  {
    if events != [] {
      TerminalIsFinal(w, Step(w, db, events[0]), events[1..], id);
    }
  }

  predicate ByRequestOnly(events: seq<Event>) {
    forall i :: 0 <= i < |events| ==> !events[i].SetGrant? && !events[i].RemoveGrant?
  }

  predicate Covers(db: Db, key: (App, User), expiry: Expiry) {
    key in db.grants && NoShorter(db.grants[key], expiry)
  }

  lemma StepNeverShortens(w: World, db: Db, e: Event, key: (App, User), expiry: Expiry)
    requires Covers(db, key, expiry) && !e.SetGrant? && !e.RemoveGrant?
    ensures Covers(Step(w, db, e), key, expiry)
  {
  }

  /** However many requests are filed and decided, no one's access ends sooner than it did. */
  lemma ApprovalsNeverShorten(w: World, db: Db, events: seq<Event>, key: (App, User))
    requires ByRequestOnly(events) && key in db.grants
    ensures Covers(Run(w, db, events), key, db.grants[key])
  {
    CoverLasts(w, db, events, key, db.grants[key]);
  }

  lemma {:induction false} CoverLasts(w: World, db: Db, events: seq<Event>, key: (App, User), expiry: Expiry)
    requires ByRequestOnly(events) && Covers(db, key, expiry)
    ensures Covers(Run(w, db, events), key, expiry)
    decreases |events|
  {
    if events != [] {
      StepNeverShortens(w, db, events[0], key, expiry);
      CoverLasts(w, Step(w, db, events[0]), events[1..], key, expiry);
    }
  }

  /**
   An approval leaves exactly the later of the old and the requested end, touches no one else, and the
   access lasts.
  */
  lemma ApprovalGrantsTheLonger(w: World, db: Db, id: Id, actor: User, note: string, now: Time, events: seq<Event>)
    requires Decided(w, db, id, actor, true, note, now).Ok? && ByRequestOnly(events)
    ensures id in db.requests
    ensures var r := db.requests[id]; var key := (r.app, r.user);
            var after := Decided(w, db, id, actor, true, note, now).value;
      && Covers(after, key, Requested(r, now))
      && (key in db.grants ==> Covers(after, key, db.grants[key]))
      && (after.grants[key] == Requested(r, now) || (key in db.grants && after.grants[key] == db.grants[key]))
      && after.grants - {key} == db.grants - {key}
      && Covers(Run(w, after, events), key, Requested(r, now))
  {
    var r := db.requests[id];
    CoverLasts(w, Decided(w, db, id, actor, true, note, now).value, events, (r.app, r.user), Requested(r, now));
  }

  /** What an account's direct assignment to an app is, if it has one. */
  function GrantAt(db: Db, key: (App, User)): Option<Expiry> {
    if key in db.grants then Some(db.grants[key]) else None
  }

  /**
   The step may change this assignment: an administrator's own edit of it, or the approval, in time
   and with authority, of a pending request of this very user for this very app.
  */
  ghost predicate MayMoveGrant(w: World, db: Db, e: Event, key: (App, User)) {
    match e
    case SetGrant(app, user, _) => (app, user) == key
    case RemoveGrant(app, user) => (app, user) == key
    case Decide(id, actor, approve, _, now) =>
      && approve && id in db.requests
      && var r := db.requests[id];
         && (r.app, r.user) == key && r.status == Pending && now < 1000 * r.expiresAtS
         && actor != r.user && w.mayDecide(actor, r.app, now) && w.open(r.app, now)
    case _ => false
  }

  lemma OnlyThatMoves(w: World, db: Db, e: Event, key: (App, User))
    requires GrantAt(Step(w, db, e), key) != GrantAt(db, key)
    ensures MayMoveGrant(w, db, e, key)
  {
  }

  /**
   Nobody's access appears, disappears or changes its end by anything else: whenever a run leaves an
   assignment other than it was, some step of it was such an edit or approval. Denials, withdrawals,
   refused decisions and sweeps move nothing.
  */
  lemma {:induction false} GrantsMoveOnlyByApproval(w: World, db: Db, events: seq<Event>, key: (App, User))
    returns (i: nat)
    requires GrantAt(Run(w, db, events), key) != GrantAt(db, key)
    ensures i < |events| && MayMoveGrant(w, Run(w, db, events[..i]), events[i], key)
    decreases |events|
  {
    var after := Step(w, db, events[0]);
    if GrantAt(after, key) != GrantAt(db, key) {
      i := 0;
      OnlyThatMoves(w, db, events[0], key);
    } else {
      i := GrantsMoveOnlyByApproval(w, after, events[1..], key);
      assert events[..i + 1][1..] == events[1..][..i];
      i := i + 1;
    }
  }

  /** A decision after the deadline changes nothing: the expiry it notes is rolled back with the error. */
  lemma LateDecisionChangesNothing(w: World, db: Db, id: Id, actor: User, approve: bool, note: string, now: Time)
    requires id in db.requests && now >= 1000 * db.requests[id].expiresAtS
    ensures Step(w, db, Decide(id, actor, approve, note, now)) == db
    ensures db.requests[id].status == Pending ==> Swept(db, now).requests[id].status == Expired
  {
  }
}
