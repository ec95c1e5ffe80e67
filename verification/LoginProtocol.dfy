/**
 Signing in with a second factor. A login accepts a password, may create a push challenge, and
 issues a token bound to it; a device answers the challenge with a signature; a finish trades the
 token for one session. Any number of logins, answers, polls, finishes, sweeps and device edits
 run at once, interleaving between any two store statements.
*/
module LoginProtocol {
  import opened Common
  import opened MfaStore
  import opened SignedMessages

  datatype Factor = Totp | Recovery | Passkey | Push

  datatype Device = Device(user: Id, approver: bool, publicKey: string)

  datatype Session = Session(user: Id, factor: Factor, token: Id, challenge: Option<Id>)

  /**
   What let a challenge be approved: the device that answered, its key, what it signed, and when the
   server read the challenge.
  */
  datatype Approval = Approval(device: Id, key: string, message: string, readAt: int)

  /** Where one HTTP request stands between two store statements. */
  datatype Request =
    | SignedIn(user: Id)
    | Prompted(user: Id, challenge: Option<Id>)
    | Finishing(token: Id, user: Id, factor: Factor, challenge: Option<Id>)
    | Guessing(token: Id, user: Id, factor: Factor)
    | Proven(token: Id, user: Id, factor: Factor, challenge: Option<Id>)
    | Spent(token: Id, user: Id, factor: Factor, challenge: Option<Id>)
    | Answering(asked: Id, seen: Challenge, readAt: int, device: Id, digits: string, approve: bool)
    | Verified(asked: Id, seen: Challenge, digits: string, approve: bool, proof: Approval)
    | Over

  /** Who a challenge is bound to, or who spent a token. */
  datatype Holder = ByRequest(r: nat) | ByToken(id: Id) | BySession(n: nat)

  /**
   The tables, the requests in progress, and a history no request reads: every challenge and token
   ever created, every message a key signed, every device record ever paired, who holds each login
   challenge, who spent each token, each user's latest login push, why a challenge was approved, and
   how many proofs were checked against a token.
  */
  datatype State = State(
    now: int,
    challenges: Challenges,
    tokens: Tokens,
    devices: map<Id, Device>,
    sessions: seq<Session>,
    requests: map<nat, Request>,
    signed: set<(string, string)>,
    enrolled: set<(Id, Device)>,
    created: Challenges,
    issued: map<Id, Token>,
    holders: map<Id, Holder>,
    spenders: map<Id, Holder>,
    latest: map<Id, Id>,
    approvals: map<Id, Approval>,
    checked: map<Id, nat>)

  /** The password step: a challenge for the phone if none is live, then a token bound to it. */
  datatype LoginEvent =
    | PasswordOk(r: nat, user: Id)
    | SendPush(r: nat, id: Id, digits: string)
    | SkipPush(r: nat)
    | IssueToken(r: nat, id: Id)
    | StepUpPush(id: Id, user: Id, digits: string)

  /** Trading a token for a session, by a code, a passkey or the approved challenge. */
  datatype FinishEvent =
    | Resolve(r: nat, token: Id, factor: Factor, named: Id)
    | ReserveAttempt(r: nat)
    | CheckProof(r: nat, valid: bool)
    | CheckApproval(r: nat)
    | SpendToken(r: nat)
    | OpenSession(r: nat)

  /** A device answers a challenge; a poll or an answer that comes late expires it. */
  datatype AnswerEvent =
    | Respond(r: nat, challenge: Id, device: Id, digits: string, approve: bool)
    | VerifySignature(r: nat)
    | Decide(r: nat)
    | Expire(challenge: Id)

  /** Everything else: cleaning up, a credential change, keys signing anything, devices, time, crashes. */
  datatype OtherEvent =
    | SweepChallenges
    | SweepTokens
    | SpendPending(user: Id)
    | Sign(key: string, message: string)
    | EnrolDevice(id: Id, record: Device)
    | RemoveDevice(id: Id)
    | Wait(until: int)
    | Abandon(r: nat)

  datatype Event =
    | Login(login: LoginEvent)
    | Finish(finish: FinishEvent)
    | Answer(answer: AnswerEvent)
    | Other(other: OtherEvent)

  /** The server's own origin, and how it builds the string a device must have signed. */
  datatype World = World(origin: string, message: (PushBinding, bool, string) -> Option<string>)

  function Count(m: map<Id, nat>, id: Id): nat {
    if id in m then m[id] else 0
  }

  function Binding(origin: string, id: Id, c: Challenge, device: Id): PushBinding {
    PushBinding(origin, c.user, device, id, c.purpose, c.expiresAt)
  }

  /** The response verifies under the one device it names, an approver of the challenge's user. */
  predicate SignatureHolds(w: World, s: State, id: Id, c: Challenge, device: Id, approve: bool, digits: string) {
    && device in s.devices
    && s.devices[device].user == c.user && s.devices[device].approver && s.devices[device].publicKey != ""
    && var message := w.message(Binding(w.origin, id, c, device), approve, digits);
       message.Some? && (s.devices[device].publicKey, message.value) in s.signed
  }

  function StandsAt(s: State, r: nat): Request {
    if r in s.requests then s.requests[r] else Over
  }

  predicate LoginEnabled(s: State, e: LoginEvent) {
    match e
    case PasswordOk(r, _) => r !in s.requests
    case SendPush(r, id, _) => StandsAt(s, r).SignedIn? && id !in s.created
    case SkipPush(r) => StandsAt(s, r).SignedIn?
    case IssueToken(r, id) => StandsAt(s, r).Prompted? && id !in s.issued
    case StepUpPush(id, _, _) => id !in s.created
  }

  predicate FinishEnabled(s: State, e: FinishEvent) {
    match e
    case Resolve(r, _, _, _) => r !in s.requests
    case ReserveAttempt(r) => StandsAt(s, r).Finishing? && !StandsAt(s, r).factor.Push?
    case CheckProof(r, _) => StandsAt(s, r).Guessing?
    case CheckApproval(r) => StandsAt(s, r).Finishing? && StandsAt(s, r).factor.Push?
    case SpendToken(r) => StandsAt(s, r).Proven?
    case OpenSession(r) => StandsAt(s, r).Spent?
  }

  predicate AnswerEnabled(s: State, e: AnswerEvent) {
    match e
    case Respond(r, _, _, _, _) => r !in s.requests
    case VerifySignature(r) => StandsAt(s, r).Answering?
    case Decide(r) => StandsAt(s, r).Verified?
    case Expire(_) => true
  }

  predicate OtherEnabled(s: State, e: OtherEvent) {
    match e
    case Wait(until) => s.now <= until
    case Abandon(r) => r in s.requests
    case _ => true
  }

  predicate Enabled(s: State, e: Event) {
    match e
    case Login(l) => LoginEnabled(s, l)
    case Finish(f) => FinishEnabled(s, f)
    case Answer(a) => AnswerEnabled(s, a)
    case Other(o) => OtherEnabled(s, o)
  }

  function Move(s: State, r: nat, q: Request): State {
    s.(requests := s.requests[r := q])
  }

  /** A challenge's deadline holds whole seconds. */
  function Deadline(now: int): int {
    (now + TTL_MS) / 1000 * 1000
  }

  /** Password accepted, then one push challenge unless the user already has a live one. */
  function DoSendPush(s: State, r: nat, id: Id, digits: string): State
    requires StandsAt(s, r).SignedIn?
  {
    var user := s.requests[r].user;
    var sent := !HasLiveLoginPush(s.challenges, user, s.now);
    var c := Challenge(user, "login", digits, Pending, Deadline(s.now), None);
    s.(requests := s.requests[r := Prompted(user, if sent then Some(id) else None)],
       challenges := if sent then s.challenges[id := c] else s.challenges,
       created := if sent then s.created[id := c] else s.created,
       holders := if sent then s.holders[id := ByRequest(r)] else s.holders,
       latest := if sent then s.latest[user := id] else s.latest)
  }

  function DoIssueToken(s: State, r: nat, id: Id): State
    requires StandsAt(s, r).Prompted?
  {
    var challenge := s.requests[r].challenge;
    var t := Token(s.requests[r].user, challenge, 0, s.now + TTL_MS, false);
    Move(s, r, Over).(
      tokens := s.tokens[id := t], issued := s.issued[id := t],
      holders := if challenge.Some? then s.holders[challenge.value := ByToken(id)] else s.holders)
  }

  function DoStepUp(s: State, id: Id, user: Id, digits: string): State {
    var c := Challenge(user, "step_up", digits, Pending, Deadline(s.now), None);
    s.(challenges := s.challenges[id := c], created := s.created[id := c])
  }

  /** The token resolves to its stored user; a push finish must name the token's own challenge. */
  function DoResolve(s: State, r: nat, id: Id, factor: Factor, named: Id): State {
    Move(s, r,
         if !ValidToken(s.tokens, id, s.now) then Over
         else if !factor.Push? then Finishing(id, s.tokens[id].user, factor, None)
         else if s.tokens[id].challenge == Some(named) then Finishing(id, s.tokens[id].user, Push, Some(named))
         else Over)
  }

  function DoReserve(s: State, r: nat): State
    requires StandsAt(s, r).Finishing?
  {
    var Finishing(id, user, factor, _) := s.requests[r];
    Move(s, r, if ValidToken(s.tokens, id, s.now) then Guessing(id, user, factor) else Over)
      .(tokens := Reserved(s.tokens, id, s.now))
  }

  function DoCheckProof(s: State, r: nat, valid: bool): State
    requires StandsAt(s, r).Guessing?
  {
    var Guessing(id, user, factor) := s.requests[r];
    Move(s, r, if valid then Proven(id, user, factor, None) else Over)
      .(checked := s.checked[id := Count(s.checked, id) + 1])
  }

  function DoCheckApproval(s: State, r: nat): State
    requires StandsAt(s, r).Finishing?
  {
    var Finishing(id, user, factor, challenge) := s.requests[r];
    Move(s, r, if Approves(s.challenges, challenge, user, s.now) then Proven(id, user, factor, challenge) else Over)
  }

  function DoSpend(s: State, r: nat): State
    requires StandsAt(s, r).Proven?
  {
    var Proven(id, user, factor, challenge) := s.requests[r];
    s.(requests := s.requests[r := if Spendable(s.tokens, id) then Spent(id, user, factor, challenge) else Over],
       tokens := Consumed(s.tokens, id),
       spenders := if Spendable(s.tokens, id) then s.spenders[id := ByRequest(r)] else s.spenders)
  }

  function DoOpenSession(s: State, r: nat): State
    requires StandsAt(s, r).Spent?
  {
    var Spent(id, user, factor, challenge) := s.requests[r];
    Move(s, r, Over).(
      sessions := s.sessions + [Session(user, factor, id, challenge)],
      spenders := s.spenders[id := BySession(|s.sessions|)])
  }

  /** Reads the challenge; one found past its deadline is moved to expired. */
  function DoRespond(s: State, r: nat, id: Id, device: Id, digits: string, approve: bool): State {
    var pending := id in s.challenges && s.challenges[id].status == Pending;
    var late := pending && s.now > s.challenges[id].expiresAt;
    s.(requests := s.requests[r := if !pending || late then Over
                                   else Answering(id, s.challenges[id], s.now, device, digits, approve)],
       challenges := if late then Transition(s.challenges, id, Pending, Expired, s.now) else s.challenges)
  }

  function DoVerify(w: World, s: State, r: nat): State
    requires StandsAt(s, r).Answering?
  {
    var Answering(id, seen, readAt, device, digits, approve) := s.requests[r];
    var message := w.message(Binding(w.origin, id, seen, device), approve, digits);
    Move(s, r,
         if SignatureHolds(w, s, id, seen, device, approve, digits) then
           Verified(id, seen, digits, approve, Approval(device, s.devices[device].publicKey, message.value, readAt))
         else Over)
  }

  function DoDecide(s: State, r: nat): State
    requires StandsAt(s, r).Verified?
  {
    var Verified(id, seen, digits, approve, proof) := s.requests[r];
    var verdict := if approve && digits == seen.matchDigits then Approved else Refused;
    var won := id in s.challenges && s.challenges[id].status == Pending;
    Move(s, r, Over).(
      challenges := Transition(s.challenges, id, Pending, verdict, s.now),
      approvals := if won && verdict == Approved then s.approvals[id := proof] else s.approvals)
  }

  function StepLogin(s: State, e: LoginEvent): State
    requires LoginEnabled(s, e)
  {
    match e
    case PasswordOk(r, user) => Move(s, r, SignedIn(user))
    case SendPush(r, id, digits) => DoSendPush(s, r, id, digits)
    case SkipPush(r) => Move(s, r, Prompted(s.requests[r].user, None))
    case IssueToken(r, id) => DoIssueToken(s, r, id)
    case StepUpPush(id, user, digits) => DoStepUp(s, id, user, digits)
  }

  function StepFinish(s: State, e: FinishEvent): State
    requires FinishEnabled(s, e)
  {
    match e
    case Resolve(r, id, factor, named) => DoResolve(s, r, id, factor, named)
    case ReserveAttempt(r) => DoReserve(s, r)
    case CheckProof(r, valid) => DoCheckProof(s, r, valid)
    case CheckApproval(r) => DoCheckApproval(s, r)
    case SpendToken(r) => DoSpend(s, r)
    case OpenSession(r) => DoOpenSession(s, r)
  }

  function StepAnswer(w: World, s: State, e: AnswerEvent): State
    requires AnswerEnabled(s, e)
  {
    match e
    case Respond(r, id, device, digits, approve) => DoRespond(s, r, id, device, digits, approve)
    case VerifySignature(r) => DoVerify(w, s, r)
    case Decide(r) => DoDecide(s, r)
    case Expire(id) =>
      s.(challenges := if id in s.challenges && s.now > s.challenges[id].expiresAt then
                         Transition(s.challenges, id, Pending, Expired, s.now)
                       else s.challenges)
  }

  function StepOther(s: State, e: OtherEvent): State
    requires OtherEnabled(s, e)
  {
    match e
    case SweepChallenges =>
      s.(challenges := KeptChallenges(s.challenges, s.now))
    case SweepTokens => s.(tokens := KeptTokens(s.tokens, s.now))
    case SpendPending(user) =>
      s.(tokens := map id | id in s.tokens ::
           if s.tokens[id].user == user then s.tokens[id].(used := true) else s.tokens[id])
    case Sign(key, message) => s.(signed := s.signed + {(key, message)})
    case EnrolDevice(id, device) => s.(devices := s.devices[id := device], enrolled := s.enrolled + {(id, device)})
    case RemoveDevice(id) => s.(devices := s.devices - {id})
    case Wait(until) => s.(now := until)
    case Abandon(r) => Move(s, r, Over)
  }

  function Step(w: World, s: State, e: Event): State
    requires Enabled(s, e)
  {
    match e
    case Login(l) => StepLogin(s, l)
    case Finish(f) => StepFinish(s, f)
    case Answer(a) => StepAnswer(w, s, a)
    case Other(o) => StepOther(s, o)
  }

  predicate Init(s: State) {
    && s.challenges == map[] && s.tokens == map[] && s.sessions == [] && s.requests == map[]
    && s.created == map[] && s.issued == map[] && s.holders == map[] && s.spenders == map[] && s.latest == map[]
    && s.approvals == map[] && s.checked == map[]
    && (forall id :: id in s.devices ==> (id, s.devices[id]) in s.enrolled)
  }

  // ---- challenges keep what they were created with, and are approved only by proof ------------

  ghost predicate SameChallenge(a: Challenge, b: Challenge) {
    a.user == b.user && a.purpose == b.purpose && a.matchDigits == b.matchDigits && a.expiresAt == b.expiresAt
  }

  ghost predicate ChallengesInv(s: State) {
    && (forall id :: id in s.challenges ==> id in s.created && SameChallenge(s.challenges[id], s.created[id]))
    && (forall id :: id in s.challenges && s.challenges[id].status == Approved ==> id in s.approvals)
  }

  /** The message was signed with the key of a device paired as an approver of `user`. */
  ghost predicate ByApprover(s: State, user: Id, a: Approval) {
    a.key != "" && (a.device, Device(user, true, a.key)) in s.enrolled && (a.key, a.message) in s.signed
  }

  /** `a` is evidence that the challenge's own user approved exactly this challenge. */
  ghost predicate Evidence(w: World, s: State, id: Id, a: Approval) {
    && id in s.created
    && w.message(Binding(w.origin, id, s.created[id], a.device), true, s.created[id].matchDigits) == Some(a.message)
    && ByApprover(s, s.created[id].user, a) && a.readAt <= s.created[id].expiresAt
  }

  ghost predicate AnsweringInv(w: World, s: State, q: Request) {
    match q
    case Answering(id, seen, readAt, _, _, _) =>
      id in s.created && SameChallenge(seen, s.created[id]) && readAt <= seen.expiresAt
    case Verified(id, seen, digits, approve, proof) =>
      && id in s.created && SameChallenge(seen, s.created[id])
      && w.message(Binding(w.origin, id, seen, proof.device), approve, digits) == Some(proof.message)
      && ByApprover(s, seen.user, proof) && proof.readAt <= seen.expiresAt
    case _ => true
  }

  ghost predicate ApprovalsInv(w: World, s: State) {
    && (forall id :: id in s.devices ==> (id, s.devices[id]) in s.enrolled)
    && (forall id :: id in s.approvals ==> Evidence(w, s, id, s.approvals[id]))
    && (forall r :: r in s.requests ==> AnsweringInv(w, s, s.requests[r]))
  }

  /** A user's only live login push is the latest one. */
  ghost predicate LatestInv(s: State) {
    forall id, user :: id in s.challenges && LiveLoginPush(s.challenges[id], user, s.now) ==>
                         user in s.latest && s.latest[user] == id
  }

  // ---- one token per challenge, one session per token -------------------------------------------

  ghost predicate IsLoginOf(s: State, id: Id, user: Id) {
    id in s.created && s.created[id].purpose == "login" && s.created[id].user == user
  }

  /** The challenge of `user`, if there is one, is a login push of that user held by `holder`. */
  ghost predicate HeldBy(s: State, challenge: Option<Id>, user: Id, holder: Holder) {
    challenge.Some? ==>
      IsLoginOf(s, challenge.value, user) && challenge.value in s.holders && s.holders[challenge.value] == holder
  }

  ghost predicate BindingInv(s: State) {
    && (forall id :: id in s.issued ==> HeldBy(s, s.issued[id].challenge, s.issued[id].user, ByToken(id)))
    && (forall r :: r in s.requests && s.requests[r].Prompted? ==>
                      HeldBy(s, s.requests[r].challenge, s.requests[r].user, ByRequest(r)))
    && s.holders.Keys <= s.created.Keys
  }

  /** A token row keeps the user and the challenge it was issued with. */
  ghost predicate TokensInv(s: State) {
    forall id :: id in s.tokens ==>
                   id in s.issued && s.tokens[id].user == s.issued[id].user &&
                   s.tokens[id].challenge == s.issued[id].challenge
  }

  /** The token is its user's, and a push proof is the approval of the token's own challenge. */
  ghost predicate Earned(s: State, id: Id, user: Id, factor: Factor, challenge: Option<Id>) {
    && id in s.issued && s.issued[id].user == user
    && (factor.Push? ==> challenge.Some? && s.issued[id].challenge == challenge && challenge.value in s.approvals)
  }

  ghost predicate SpentBy(s: State, id: Id, holder: Holder) {
    id in s.spenders && s.spenders[id] == holder
  }

  /** What a request that got past a step has established. */
  ghost predicate FinishInv(s: State, r: nat, q: Request) {
    match q
    case Finishing(id, user, factor, challenge) =>
      && id in s.issued && s.issued[id].user == user
      && (factor.Push? ==> challenge.Some? && s.issued[id].challenge == challenge)
    case Guessing(id, user, factor) => id in s.issued && s.issued[id].user == user && !factor.Push?
    case Proven(id, user, factor, challenge) => Earned(s, id, user, factor, challenge)
    case Spent(id, user, factor, challenge) => Earned(s, id, user, factor, challenge) && SpentBy(s, id, ByRequest(r))
    case _ => true
  }

  ghost predicate ProgressInv(s: State) {
    forall r :: r in s.requests ==> FinishInv(s, r, s.requests[r])
  }

  ghost predicate SpendersInv(s: State) {
    forall id :: id in s.spenders ==> id in s.issued && (id in s.tokens ==> s.tokens[id].used)
  }

  ghost predicate SessionsInv(s: State) {
    forall n :: 0 <= n < |s.sessions| ==>
                  var x := s.sessions[n];
                  Earned(s, x.token, x.user, x.factor, x.challenge) && SpentBy(s, x.token, BySession(n))
  }

  // ---- attempts -------------------------------------------------------------------------------

  /** The requests that have reserved an attempt on the token and not had their proof checked yet. */
  ghost function Guesses(requests: map<nat, Request>, id: Id): set<nat> {
    set r | r in requests && requests[r].Guessing? && requests[r].token == id
  }

  ghost predicate AttemptsInv(s: State) {
    forall id :: AttemptsAt(s, id)
  }

  /** Proofs checked and proofs about to be checked never outnumber the attempts reserved. */
  ghost predicate AttemptsAt(s: State, id: Id) {
    var spent := Count(s.checked, id) + |Guesses(s.requests, id)|;
    && spent <= MAX_MFA_ATTEMPTS
    && (id in s.tokens ==> spent <= s.tokens[id].attempts <= MAX_MFA_ATTEMPTS && id in s.issued)
    && (id !in s.issued ==> spent == 0)
  }

  lemma GuessesAfterMove(requests: map<nat, Request>, r: nat, q: Request, id: Id)
    ensures Guesses(requests[r := q], id) ==
            if q.Guessing? && q.token == id then Guesses(requests, id) + {r} else Guesses(requests, id) - {r}
  {
  }

  lemma LoginKeepsChallenges(s: State, e: LoginEvent)
    requires LoginEnabled(s, e) && ChallengesInv(s)
    ensures ChallengesInv(StepLogin(s, e))
  {
  }

  /** Only answers touch what an approval rests on; a request elsewhere can at most leave the answering. */
  lemma FrameKeepsApprovals(w: World, s: State, t: State, r: nat)
    requires ApprovalsInv(w, s)
    requires forall id :: id in s.created ==> id in t.created && t.created[id] == s.created[id]
    requires t.devices == s.devices && t.enrolled == s.enrolled && t.signed == s.signed && t.approvals == s.approvals
    requires forall q :: q in t.requests && q != r ==> q in s.requests && t.requests[q] == s.requests[q]
    requires var q := StandsAt(t, r); !q.Answering? && !q.Verified?
    ensures ApprovalsInv(w, t)
  {
    assert r in t.requests ==> t.requests[r] == StandsAt(t, r);
  }

  lemma LoginKeepsApprovals(w: World, s: State, e: LoginEvent)
    requires LoginEnabled(s, e) && ApprovalsInv(w, s)
    ensures ApprovalsInv(w, StepLogin(s, e))
  {
    if e.StepUpPush? {
      StepUpKeepsApprovals(w, s, e.id, e.user, e.digits);
    } else {
      FrameKeepsApprovals(w, s, StepLogin(s, e), e.r);
    }
  }

  lemma StepUpKeepsApprovals(w: World, s: State, id: Id, user: Id, digits: string)
    requires id !in s.created && ApprovalsInv(w, s)
    ensures ApprovalsInv(w, DoStepUp(s, id, user, digits))
  {
  }

  lemma SendPushKeepsBinding(s: State, r: nat, id: Id, digits: string)
    requires LoginEnabled(s, SendPush(r, id, digits)) && BindingInv(s)
    ensures BindingInv(DoSendPush(s, r, id, digits))
  {
  }

  lemma LoginKeepsBinding(s: State, e: LoginEvent)
    requires LoginEnabled(s, e) && BindingInv(s)
    ensures BindingInv(StepLogin(s, e))
  {
    if e.SendPush? {
      SendPushKeepsBinding(s, e.r, e.id, e.digits);
    }
  }

  lemma LoginKeepsRows(s: State, e: LoginEvent)
    requires LoginEnabled(s, e) && LatestInv(s) && TokensInv(s)
    ensures var t := StepLogin(s, e); LatestInv(t) && TokensInv(t)
  {
  }

  lemma LoginKeepsProgress(s: State, e: LoginEvent)
    requires LoginEnabled(s, e) && ChallengesInv(s) && TokensInv(s) && SpendersInv(s) && ProgressInv(s)
    ensures ProgressInv(StepLogin(s, e))
  {
  }

  lemma LoginKeepsSessions(s: State, e: LoginEvent)
    requires LoginEnabled(s, e) && TokensInv(s) && SpendersInv(s) && ProgressInv(s) && SessionsInv(s)
    ensures var t := StepLogin(s, e); SpendersInv(t) && SessionsInv(t)
  {
  }

  lemma LoginKeepsAttempts(s: State, e: LoginEvent)
    requires LoginEnabled(s, e) && TokensInv(s) && ProgressInv(s) && AttemptsInv(s)
    ensures AttemptsInv(StepLogin(s, e))
  {
    var t := StepLogin(s, e);
    forall id ensures AttemptsAt(t, id) {
      assert AttemptsAt(s, id);
      if !e.StepUpPush? {
        GuessesAfterMove(s.requests, e.r, t.requests[e.r], id);
      }
    }
  }

  lemma FinishKeepsPrompts(w: World, s: State, e: FinishEvent)
    requires FinishEnabled(s, e) && ChallengesInv(s) && ApprovalsInv(w, s)
    ensures var t := StepFinish(s, e); ChallengesInv(t) && ApprovalsInv(w, t)
  {
    FinishLeavesChallenges(s, e);
    FrameKeepsApprovals(w, s, StepFinish(s, e), e.r);
  }

  lemma FinishKeepsBinding(s: State, e: FinishEvent)
    requires FinishEnabled(s, e) && BindingInv(s)
    ensures BindingInv(StepFinish(s, e))
  {
  }

  lemma FinishKeepsRows(s: State, e: FinishEvent)
    requires FinishEnabled(s, e) && LatestInv(s) && TokensInv(s)
    ensures var t := StepFinish(s, e); LatestInv(t) && TokensInv(t)
  {
  }

  lemma SpendKeepsProgress(s: State, r: nat)
    requires FinishEnabled(s, SpendToken(r)) && SpendersInv(s) && ProgressInv(s) && TokensInv(s)
    ensures ProgressInv(DoSpend(s, r))
  {
  }

  lemma FinishKeepsProgress(s: State, e: FinishEvent)
    requires FinishEnabled(s, e) && ChallengesInv(s) && TokensInv(s) && SpendersInv(s) && ProgressInv(s)
    ensures ProgressInv(StepFinish(s, e))
  {
    if e.SpendToken? {
      SpendKeepsProgress(s, e.r);
    }
  }

  lemma FinishKeepsSessions(s: State, e: FinishEvent)
    requires FinishEnabled(s, e) && TokensInv(s) && SpendersInv(s) && ProgressInv(s) && SessionsInv(s)
    ensures var t := StepFinish(s, e); SpendersInv(t) && SessionsInv(t)
  {
  }

  lemma ReserveKeepsAttempts(s: State, r: nat, id: Id)
    requires FinishEnabled(s, ReserveAttempt(r)) && TokensInv(s) && ProgressInv(s) && AttemptsAt(s, id)
    ensures AttemptsAt(DoReserve(s, r), id)
  {
    GuessesAfterMove(s.requests, r, DoReserve(s, r).requests[r], id);
  }

  lemma CheckProofKeepsAttempts(s: State, r: nat, valid: bool, id: Id)
    requires FinishEnabled(s, CheckProof(r, valid)) && ProgressInv(s) && AttemptsAt(s, id)
    ensures AttemptsAt(DoCheckProof(s, r, valid), id)
  {
    GuessesAfterMove(s.requests, r, DoCheckProof(s, r, valid).requests[r], id);
  }

  /** A request that does not start guessing, and touches no attempt count, leaves room as it was. */
  lemma MoveKeepsAttempts(s: State, t: State, r: nat, id: Id)
    requires AttemptsAt(s, id) && r in t.requests && !t.requests[r].Guessing?
    requires t.requests == s.requests[r := t.requests[r]] && t.checked == s.checked && t.issued == s.issued
    requires t.tokens.Keys == s.tokens.Keys && (id in s.tokens ==> t.tokens[id].attempts == s.tokens[id].attempts)
    ensures AttemptsAt(t, id)
  {
    GuessesAfterMove(s.requests, r, t.requests[r], id);
  }

  lemma FinishKeepsAttemptsAt(s: State, e: FinishEvent, id: Id)
    requires FinishEnabled(s, e) && TokensInv(s) && ProgressInv(s) && AttemptsAt(s, id)
    ensures AttemptsAt(StepFinish(s, e), id)
  {
    match e
    case ReserveAttempt(r) => ReserveKeepsAttempts(s, r, id);
    case CheckProof(r, valid) => CheckProofKeepsAttempts(s, r, valid, id);
    case Resolve(r, token, factor, named) => MoveKeepsAttempts(s, DoResolve(s, r, token, factor, named), r, id);
    case CheckApproval(r) => MoveKeepsAttempts(s, DoCheckApproval(s, r), r, id);
    case SpendToken(r) => MoveKeepsAttempts(s, DoSpend(s, r), r, id);
    case OpenSession(r) => MoveKeepsAttempts(s, DoOpenSession(s, r), r, id);
  }

  lemma FinishKeepsAttempts(s: State, e: FinishEvent)
    requires FinishEnabled(s, e) && TokensInv(s) && ProgressInv(s) && AttemptsInv(s)
    ensures AttemptsInv(StepFinish(s, e))
  {
    var t := StepFinish(s, e);
    forall id ensures AttemptsAt(t, id) {
      FinishKeepsAttemptsAt(s, e, id);
    }
  }

  lemma AnswerKeepsChallenges(w: World, s: State, e: AnswerEvent)
    requires AnswerEnabled(s, e) && ChallengesInv(s)
    ensures ChallengesInv(StepAnswer(w, s, e))
  {
  }

  lemma VerifyKeepsApprovals(w: World, s: State, r: nat)
    requires AnswerEnabled(s, VerifySignature(r)) && ApprovalsInv(w, s)
    ensures ApprovalsInv(w, DoVerify(w, s, r))
  {
    assert AnsweringInv(w, s, s.requests[r]);
  }

  lemma DecideKeepsApprovals(w: World, s: State, r: nat)
    requires AnswerEnabled(s, Decide(r)) && ApprovalsInv(w, s)
    ensures ApprovalsInv(w, DoDecide(s, r))
  {
    assert AnsweringInv(w, s, s.requests[r]);
  }

  lemma AnswerKeepsApprovals(w: World, s: State, e: AnswerEvent)
    requires AnswerEnabled(s, e) && ChallengesInv(s) && ApprovalsInv(w, s)
    ensures ApprovalsInv(w, StepAnswer(w, s, e))
  {
    match e
    case VerifySignature(r) => VerifyKeepsApprovals(w, s, r);
    case Decide(r) => DecideKeepsApprovals(w, s, r);
    case _ =>
  }

  lemma AnswerKeepsLatest(w: World, s: State, e: AnswerEvent)
    requires AnswerEnabled(s, e) && LatestInv(s)
    ensures LatestInv(StepAnswer(w, s, e))
  {
  }

  lemma AnswerKeepsBinding(w: World, s: State, e: AnswerEvent)
    requires AnswerEnabled(s, e) && BindingInv(s)
    ensures BindingInv(StepAnswer(w, s, e))
  {
  }

  lemma AnswerKeepsTokens(w: World, s: State, e: AnswerEvent)
    requires AnswerEnabled(s, e) && TokensInv(s)
    ensures TokensInv(StepAnswer(w, s, e))
  {
  }

  lemma AnswerKeepsProgress(w: World, s: State, e: AnswerEvent)
    requires AnswerEnabled(s, e) && ChallengesInv(s) && TokensInv(s) && SpendersInv(s) && ProgressInv(s)
    ensures ProgressInv(StepAnswer(w, s, e))
  {
  }

  lemma AnswerKeepsSessions(w: World, s: State, e: AnswerEvent)
    requires AnswerEnabled(s, e) && TokensInv(s) && SpendersInv(s) && ProgressInv(s) && SessionsInv(s)
    ensures var t := StepAnswer(w, s, e); SpendersInv(t) && SessionsInv(t)
  {
  }

  lemma AnswerKeepsAttempts(w: World, s: State, e: AnswerEvent)
    requires AnswerEnabled(s, e) && TokensInv(s) && ProgressInv(s) && AttemptsInv(s)
    ensures AttemptsInv(StepAnswer(w, s, e))
  {
    var t := StepAnswer(w, s, e);
    forall id ensures AttemptsAt(t, id) {
      assert AttemptsAt(s, id);
      if !e.Expire? {
        GuessesAfterMove(s.requests, e.r, t.requests[e.r], id);
      }
    }
  }

  lemma OtherKeepsPrompts(w: World, s: State, e: OtherEvent)
    requires OtherEnabled(s, e) && ChallengesInv(s) && ApprovalsInv(w, s)
    ensures var t := StepOther(s, e); ChallengesInv(t) && ApprovalsInv(w, t)
  {
  }

  lemma OtherKeepsLatest(s: State, e: OtherEvent)
    requires OtherEnabled(s, e) && LatestInv(s)
    ensures LatestInv(StepOther(s, e))
  {
  }

  lemma OtherKeepsBinding(s: State, e: OtherEvent)
    requires OtherEnabled(s, e) && BindingInv(s)
    ensures BindingInv(StepOther(s, e))
  {
  }

  lemma OtherKeepsTokens(s: State, e: OtherEvent)
    requires OtherEnabled(s, e) && TokensInv(s)
    ensures TokensInv(StepOther(s, e))
  {
  }

  lemma OtherKeepsProgress(s: State, e: OtherEvent)
    requires OtherEnabled(s, e) && ChallengesInv(s) && TokensInv(s) && SpendersInv(s) && ProgressInv(s)
    ensures ProgressInv(StepOther(s, e))
  {
  }

  lemma OtherKeepsSessions(s: State, e: OtherEvent)
    requires OtherEnabled(s, e) && TokensInv(s) && SpendersInv(s) && ProgressInv(s) && SessionsInv(s)
    ensures var t := StepOther(s, e); SpendersInv(t) && SessionsInv(t)
  {
  }

  lemma OtherKeepsAttempts(s: State, e: OtherEvent)
    requires OtherEnabled(s, e) && TokensInv(s) && ProgressInv(s) && AttemptsInv(s)
    ensures AttemptsInv(StepOther(s, e))
  {
    var t := StepOther(s, e);
    forall id ensures AttemptsAt(t, id) {
      assert AttemptsAt(s, id);
      if e.Abandon? {
        GuessesAfterMove(s.requests, e.r, t.requests[e.r], id);
      }
    }
  }

  // ---- every run --------------------------------------------------------------------------------

  ghost predicate Inv(w: World, s: State) {
    && ChallengesInv(s) && ApprovalsInv(w, s) && LatestInv(s) && BindingInv(s) && TokensInv(s)
    && SpendersInv(s) && ProgressInv(s) && SessionsInv(s) && AttemptsInv(s)
  }

  lemma LoginKeepsInv(w: World, s: State, e: LoginEvent)
    requires Inv(w, s) && LoginEnabled(s, e)
    ensures Inv(w, StepLogin(s, e))
  {
    LoginKeepsChallenges(s, e);
    LoginKeepsApprovals(w, s, e);
    LoginKeepsBinding(s, e);
    LoginKeepsRows(s, e);
    LoginKeepsProgress(s, e);
    LoginKeepsSessions(s, e);
    LoginKeepsAttempts(s, e);
  }

  lemma FinishKeepsInv(w: World, s: State, e: FinishEvent)
    requires Inv(w, s) && FinishEnabled(s, e)
    ensures Inv(w, StepFinish(s, e))
  {
    FinishKeepsPrompts(w, s, e);
    FinishKeepsBinding(s, e);
    FinishKeepsRows(s, e);
    FinishKeepsProgress(s, e);
    FinishKeepsSessions(s, e);
    FinishKeepsAttempts(s, e);
  }

  lemma AnswerKeepsInv(w: World, s: State, e: AnswerEvent)
    requires Inv(w, s) && AnswerEnabled(s, e)
    ensures Inv(w, StepAnswer(w, s, e))
  {
    AnswerKeepsChallenges(w, s, e);
    AnswerKeepsApprovals(w, s, e);
    AnswerKeepsLatest(w, s, e);
    AnswerKeepsBinding(w, s, e);
    AnswerKeepsTokens(w, s, e);
    AnswerKeepsProgress(w, s, e);
    AnswerKeepsSessions(w, s, e);
    AnswerKeepsAttempts(w, s, e);
  }

  lemma OtherKeepsInv(w: World, s: State, e: OtherEvent)
    requires Inv(w, s) && OtherEnabled(s, e)
    ensures Inv(w, StepOther(s, e))
  {
    OtherKeepsPrompts(w, s, e);
    OtherKeepsLatest(s, e);
    OtherKeepsBinding(s, e);
    OtherKeepsTokens(s, e);
    OtherKeepsProgress(s, e);
    OtherKeepsSessions(s, e);
    OtherKeepsAttempts(s, e);
  }

  lemma InitInv(w: World, s: State)
    requires Init(s)
    ensures Inv(w, s)
  {
    forall id ensures AttemptsAt(s, id) {
      assert Guesses(s.requests, id) == {};
    }
  }

  lemma StepKeepsInv(w: World, s: State, e: Event)
    requires Inv(w, s) && Enabled(s, e)
    ensures Inv(w, Step(w, s, e))
  {
    match e
    case Login(l) => LoginKeepsInv(w, s, l);
    case Finish(f) => FinishKeepsInv(w, s, f);
    case Answer(a) => AnswerKeepsInv(w, s, a);
    case Other(o) => OtherKeepsInv(w, s, o);
  }

  ghost predicate IsRun(w: World, states: seq<State>, events: seq<Event>) {
    && |states| == |events| + 1
    && Init(states[0])
    && forall i :: 0 <= i < |events| ==> Enabled(states[i], events[i]) && states[i + 1] == Step(w, states[i], events[i])
  }

  lemma {:induction false} RunInv(w: World, states: seq<State>, events: seq<Event>, i: nat)
    requires IsRun(w, states, events) && i < |states|
    ensures Inv(w, states[i])
  {
    if i == 0 {
      InitInv(w, states[0]);
    } else {
      RunInv(w, states, events, i - 1);
      StepKeepsInv(w, states[i - 1], events[i - 1]);
    }
  }

  // ---- what holds of every run --------------------------------------------------------------------

  /** The message function is the one the devices sign. */
  ghost predicate Genuine(w: World) {
    forall b, approve, digits :: w.message(b, approve, digits) == PushResponseMessage(b, approve, digits)
  }

  /** The challenge a push session was opened by, and what its approval rests on. */
  ghost predicate ApprovedFor(w: World, s: State, x: Session) {
    && x.challenge.Some?
    && var id := x.challenge.value;
       IsLoginOf(s, id, x.user) && id in s.approvals && Evidence(w, s, id, s.approvals[id])
  }

  lemma PushSessionsDiffer(w: World, s: State, m: nat, n: nat)
    requires Inv(w, s) && m < |s.sessions| && n < |s.sessions| && m != n
    requires s.sessions[m].factor.Push? && s.sessions[n].factor.Push?
    ensures ApprovedFor(w, s, s.sessions[m]) && ApprovedFor(w, s, s.sessions[n])
    ensures s.sessions[m].challenge != s.sessions[n].challenge
  {
    var x, y := s.sessions[m], s.sessions[n];
    assert HeldBy(s, s.issued[x.token].challenge, x.user, ByToken(x.token));
    assert HeldBy(s, s.issued[y.token].challenge, y.user, ByToken(y.token));
  }

  /** Over code, recovery, passkey and push finishes a token opens one session at most, for its own user. */
  lemma OneSessionPerToken(w: World, states: seq<State>, events: seq<Event>, i: nat, m: nat, n: nat)
    requires IsRun(w, states, events) && i < |states|
    requires m < |states[i].sessions| && n < |states[i].sessions| && m != n
    ensures var s := states[i]; var x, y := s.sessions[m], s.sessions[n];
      && x.token != y.token
      && x.token in s.issued && s.issued[x.token].user == x.user
  {
    RunInv(w, states, events, i);
  }

  /** However many finishes race on a token, at most five of its proofs are ever checked. */
  lemma AttemptsAreBounded(w: World, states: seq<State>, events: seq<Event>, i: nat, token: Id)
    requires IsRun(w, states, events) && i < |states|
    ensures Count(states[i].checked, token) <= 5
  {
    RunInv(w, states, events, i);
    assert AttemptsAt(states[i], token);
  }

  /** A user never has two login pushes that could still be answered. */
  lemma OneLiveLoginPush(w: World, states: seq<State>, events: seq<Event>, i: nat, user: Id, a: Id, b: Id)
    requires IsRun(w, states, events) && i < |states|
    requires a in states[i].challenges && b in states[i].challenges
    requires var c := states[i].challenges[a];
             c.user == user && c.purpose == "login" && c.status == Pending && states[i].now < c.expiresAt
    requires var c := states[i].challenges[b];
             c.user == user && c.purpose == "login" && c.status == Pending && states[i].now < c.expiresAt
    ensures a == b
  {
    RunInv(w, states, events, i);
    var s := states[i];
    assert s.latest[user] == a && s.latest[user] == b;
  }

  /** This event is the decision of a request whose device signature over `id` was verified. */
  ghost predicate DecidesFor(s: State, e: Event, id: Id) {
    && e.Answer? && e.answer.Decide? && id in s.created
    && var q := StandsAt(s, e.answer.r);
       q.Verified? && q.asked == id && q.approve && q.digits == s.created[id].matchDigits
  }

  lemma LoginOnlyAddsPending(s: State, e: LoginEvent, id: Id)
    requires ChallengesInv(s) && LoginEnabled(s, e) && id in StepLogin(s, e).challenges
    ensures var c := StepLogin(s, e).challenges[id];
            if id in s.challenges then c == s.challenges[id] else c.status == Pending
  {
  }

  lemma FinishLeavesChallenges(s: State, e: FinishEvent)
    requires FinishEnabled(s, e)
    ensures StepFinish(s, e).challenges == s.challenges && StepFinish(s, e).approvals == s.approvals
  {
  }

  lemma AnswerMovesPending(w: World, s: State, e: AnswerEvent, id: Id)
    requires ChallengesInv(s) && ApprovalsInv(w, s) && AnswerEnabled(s, e) && id in StepAnswer(w, s, e).challenges
    ensures id in s.challenges
    ensures var c := StepAnswer(w, s, e).challenges[id];
            || c == s.challenges[id]
            || (s.challenges[id].status == Pending && (c.status == Approved ==> DecidesFor(s, Answer(e), id)))
  {
  }

  lemma OtherOnlySweeps(s: State, e: OtherEvent, id: Id)
    requires OtherEnabled(s, e) && id in StepOther(s, e).challenges
    ensures id in s.challenges && StepOther(s, e).challenges[id] == s.challenges[id]
  {
  }

  /** Once answered or expired a challenge never changes again; its row can only be swept away. */
  lemma AnsweredOnce(w: World, s: State, e: Event, id: Id)
    requires ChallengesInv(s) && ApprovalsInv(w, s) && Enabled(s, e)
    requires id in s.challenges && s.challenges[id].status != Pending
    ensures id in Step(w, s, e).challenges ==> Step(w, s, e).challenges[id] == s.challenges[id]
  {
    if id !in Step(w, s, e).challenges {
      return;
    }
    match e
    case Login(l) => LoginOnlyAddsPending(s, l, id);
    case Finish(f) => FinishLeavesChallenges(s, f);
    case Answer(a) => AnswerMovesPending(w, s, a, id);
    case Other(o) => OtherOnlySweeps(s, o, id);
  }

  /**
   A challenge turns approved only from pending, by the decision of a request that carried a
   verified signature of one of the user's approver devices over this challenge, approving it with
   the matching digits, and that read the challenge before its deadline had passed.
  */
  lemma ApprovedOnlyByDecision(w: World, s: State, e: Event, id: Id)
    requires ChallengesInv(s) && ApprovalsInv(w, s) && Enabled(s, e)
    requires id in s.challenges ==> s.challenges[id].status != Approved
    ensures id in Step(w, s, e).challenges && Step(w, s, e).challenges[id].status == Approved ==>
              && id in s.challenges && s.challenges[id].status == Pending
              && DecidesFor(s, e, id) && Evidence(w, s, id, StandsAt(s, e.answer.r).proof)
  {
    if id !in Step(w, s, e).challenges {
      return;
    }
    match e
    case Login(l) => LoginOnlyAddsPending(s, l, id);
    case Finish(f) => FinishLeavesChallenges(s, f);
    case Answer(a) =>
      AnswerMovesPending(w, s, a, id);
      if a.Decide? {
        assert AnsweringInv(w, s, s.requests[a.r]);
      }
    case Other(o) => OtherOnlySweeps(s, o, id);
  }

  lemma LoginLeavesApprovals(s: State, e: LoginEvent)
    requires LoginEnabled(s, e)
    ensures StepLogin(s, e).approvals == s.approvals
  {
  }

  lemma OtherLeavesApprovals(s: State, e: OtherEvent)
    requires OtherEnabled(s, e)
    ensures StepOther(s, e).approvals == s.approvals
  {
  }

  lemma AnswerRecordsDecision(w: World, s: State, e: AnswerEvent, id: Id)
    requires ChallengesInv(s) && ApprovalsInv(w, s) && AnswerEnabled(s, e)
    requires id in StepAnswer(w, s, e).approvals && id !in s.approvals
    ensures id in s.challenges && s.challenges[id].status == Pending && DecidesFor(s, Answer(e), id)
    ensures var t := StepAnswer(w, s, e); id in t.challenges && t.challenges[id].status == Approved
  {
  }

  /** Step k of the run moves the challenge from pending to approved by such a decision. */
  ghost predicate ApprovesAt(states: seq<State>, events: seq<Event>, k: nat, id: Id) {
    && k < |events| && k + 1 < |states|
    && DecidesFor(states[k], events[k], id)
    && id in states[k].challenges && states[k].challenges[id].status == Pending
    && id in states[k + 1].challenges && states[k + 1].challenges[id].status == Approved
  }

  lemma FirstRecordedAt(w: World, states: seq<State>, events: seq<Event>, k: nat, id: Id)
    requires IsRun(w, states, events) && k < |events|
    requires id in states[k + 1].approvals && id !in states[k].approvals
    ensures ApprovesAt(states, events, k, id)
  {
    RunInv(w, states, events, k);
    match events[k]
    case Login(l) => LoginLeavesApprovals(states[k], l);
    case Finish(f) => FinishLeavesChallenges(states[k], f);
    case Answer(a) => AnswerRecordsDecision(w, states[k], a, id);
    case Other(o) => OtherLeavesApprovals(states[k], o);
  }

  lemma {:induction false} FirstRecord(states: seq<State>, i: nat, id: Id) returns (k: nat)
    requires i < |states| && id !in states[0].approvals && id in states[i].approvals
    ensures k < i && id !in states[k].approvals && id in states[k + 1].approvals
  {
    k := i - 1;
    if id in states[i - 1].approvals {
      k := FirstRecord(states, i - 1, id);
    }
  }

  /** Behind every recorded approval lies the step of the run that approved the challenge. */
  lemma ApprovalHappened(w: World, states: seq<State>, events: seq<Event>, i: nat, id: Id) returns (k: nat)
    requires IsRun(w, states, events) && i < |states| && id in states[i].approvals
    ensures k < i && ApprovesAt(states, events, k, id)
  {
    k := FirstRecord(states, i, id);
    FirstRecordedAt(w, states, events, k, id);
  }

  /**
   One approval signs in at most one login. Every push session was opened by a login challenge of
   its own user that one of the user's approver devices signed, verdict and matching digits
   included. Two push sessions never share the challenge, nor the signed message, nor the step of
   the run that approved it.
  */
  lemma OneApprovalOneLogin(w: World, states: seq<State>, events: seq<Event>, i: nat, m: nat, n: nat)
    returns (j: nat, k: nat)
    requires IsRun(w, states, events) && i < |states| && Genuine(w)
    requires m < |states[i].sessions| && n < |states[i].sessions| && m != n
    requires states[i].sessions[m].factor.Push? && states[i].sessions[n].factor.Push?
    ensures var s := states[i]; var x, y := s.sessions[m], s.sessions[n];
      && ApprovedFor(w, s, x) && ApprovedFor(w, s, y)
      && x.challenge != y.challenge
      && s.approvals[x.challenge.value].message != s.approvals[y.challenge.value].message
      && j < i && k < i && j != k
      && ApprovesAt(states, events, j, x.challenge.value) && ApprovesAt(states, events, k, y.challenge.value)
  {
    RunInv(w, states, events, i);
    var s := states[i];
    PushSessionsDiffer(w, s, m, n);
    var c, d := s.sessions[m].challenge.value, s.sessions[n].challenge.value;
    MessagesDiffer(w, s, c, d);
    j := ApprovalHappened(w, states, events, i, c);
    k := ApprovalHappened(w, states, events, i, d);
  }

  lemma MessagesDiffer(w: World, s: State, c: Id, d: Id)
    requires Genuine(w) && c in s.approvals && d in s.approvals && c != d
    requires Evidence(w, s, c, s.approvals[c]) && Evidence(w, s, d, s.approvals[d])
    ensures s.approvals[c].message != s.approvals[d].message
  {
    var p, q := s.approvals[c], s.approvals[d];
    if p.message == q.message {
      PushResponseInjective(Binding(w.origin, c, s.created[c], p.device), Binding(w.origin, d, s.created[d], q.device),
                            true, true, s.created[c].matchDigits, s.created[d].matchDigits);
    }
  }

  /** A request that was given up goes no further, and leaves the tables as it found them. */
  lemma AbandonedGoesNoFurther(s: State, r: nat, later: Event)
    requires r in s.requests && Enabled(StepOther(s, Abandon(r)), later)
    ensures StepOther(s, Abandon(r)) == s.(requests := StepOther(s, Abandon(r)).requests)
    ensures later.Login? && !later.login.StepUpPush? ==> later.login.r != r
    ensures later.Finish? ==> later.finish.r != r
    ensures later.Answer? && !later.answer.Expire? ==> later.answer.r != r
  {
  }

  // ---- a credential change ends the sign-ins under way --------------------------------------------

  /** The token was issued and can no longer be spent: it is used, or its row was swept. */
  ghost predicate Closed(s: State, token: Id) {
    token in s.issued && (token in s.tokens ==> s.tokens[token].used)
  }

  /** From s to t the token stays closed, and no request gets past the spending of it. */
  ghost predicate StaysShut(s: State, t: State, token: Id) {
    Closed(s, token) ==>
      && Closed(t, token)
      && forall r :: StandsAt(t, r).Spent? && t.requests[r].token == token ==> StandsAt(s, r) == StandsAt(t, r)
  }

  lemma LoginOpensNothing(s: State, e: LoginEvent, token: Id)
    requires LoginEnabled(s, e)
    ensures StepLogin(s, e).sessions == s.sessions && StaysShut(s, StepLogin(s, e), token)
  {
  }

  lemma AnswerOpensNothing(w: World, s: State, e: AnswerEvent, token: Id)
    requires AnswerEnabled(s, e)
    ensures StepAnswer(w, s, e).sessions == s.sessions && StaysShut(s, StepAnswer(w, s, e), token)
  {
  }

  lemma OtherOpensNothing(s: State, e: OtherEvent, token: Id)
    requires OtherEnabled(s, e)
    ensures StepOther(s, e).sessions == s.sessions && StaysShut(s, StepOther(s, e), token)
  {
  }

  /** The request in state s has spent its token; its session is the only new one in t. */
  ghost predicate Opens(s: State, t: State, r: nat) {
    && StandsAt(s, r).Spent?
    && var q := s.requests[r];
       t.sessions == s.sessions + [Session(q.user, q.factor, q.token, q.challenge)]
  }

  lemma FinishOpensSpent(s: State, e: FinishEvent, token: Id)
    requires FinishEnabled(s, e)
    ensures StaysShut(s, StepFinish(s, e), token)
    ensures if e.OpenSession? then Opens(s, StepFinish(s, e), e.r) else StepFinish(s, e).sessions == s.sessions
  {
  }

  lemma StepOpens(w: World, s: State, e: Event, token: Id)
    requires Enabled(s, e)
    ensures StaysShut(s, Step(w, s, e), token)
    ensures Step(w, s, e).sessions == s.sessions || exists r :: Opens(s, Step(w, s, e), r)
  {
    match e
    case Login(l) => LoginOpensNothing(s, l, token);
    case Finish(f) => FinishOpensSpent(s, f, token);
    case Answer(a) => AnswerOpensNothing(w, s, a, token);
    case Other(o) => OtherOpensNothing(s, o, token);
  }

  ghost predicate ShutRun(states: seq<State>, token: Id) {
    forall i :: 0 <= i < |states| - 1 ==> StaysShut(states[i], states[i + 1], token)
  }

  lemma RunIsShut(w: World, states: seq<State>, events: seq<Event>, token: Id)
    requires IsRun(w, states, events)
    ensures ShutRun(states, token)
  {
    forall i | 0 <= i < |events| ensures StaysShut(states[i], states[i + 1], token) {
      StepOpens(w, states[i], events[i], token);
    }
  }

  lemma {:induction false} SpentBefore(states: seq<State>, k: nat, j: nat, token: Id)
    requires ShutRun(states, token) && k <= j < |states| && Closed(states[k], token)
    ensures Closed(states[j], token)
    ensures forall r :: StandsAt(states[j], r).Spent? && states[j].requests[r].token == token ==>
                          StandsAt(states[k], r) == StandsAt(states[j], r)
    decreases j - k
  {
    if k < j {
      SpentBefore(states, k, j - 1, token);
      assert StaysShut(states[j - 1], states[j - 1 + 1], token);
    }
  }

  /** The step that opened session n. */
  lemma {:induction false} OpenedAt(w: World, states: seq<State>, events: seq<Event>, k: nat, i: nat, n: nat)
    returns (j: nat, r: nat)
    requires IsRun(w, states, events) && k <= i < |states| && |states[k].sessions| <= n < |states[i].sessions|
    ensures k <= j < i && StandsAt(states[j], r).Spent?
    ensures var q, x := states[j].requests[r], states[i].sessions[n]; q.token == x.token && q.user == x.user
    decreases i
  {
    StepOpens(w, states[i - 1], events[i - 1], "");
    if n < |states[i - 1].sessions| {
      j, r := OpenedAt(w, states, events, k, i - 1, n);
    } else {
      j := i - 1;
      r :| Opens(states[j], states[i], r);
    }
  }

  /**
   When a password or factor change spends a user's pending sign-ins, every token of theirs then on
   file is finished: a session that still opens by one belongs to a request that had spent it before,
   and everyone else's tokens are as they were.
  */
  lemma CredentialChangeEndsPending(w: World, states: seq<State>, events: seq<Event>, k: nat, user: Id, i: nat, n: nat)
    returns (r: nat)
    requires IsRun(w, states, events) && k < |events| && events[k] == Other(SpendPending(user))
    requires k < i < |states| && |states[k].sessions| <= n < |states[i].sessions|
    requires var token := states[i].sessions[n].token; token in states[k].tokens && states[k].tokens[token].user == user
    ensures StandsAt(states[k], r).Spent? && states[k].requests[r].token == states[i].sessions[n].token
    ensures forall id :: id in states[k].tokens && states[k].tokens[id].user != user ==>
                           id in states[k + 1].tokens && states[k + 1].tokens[id] == states[k].tokens[id]
  {
    RunInv(w, states, events, k);
    var token := states[i].sessions[n].token;
    assert states[k + 1].sessions == states[k].sessions && states[k + 1].requests == states[k].requests;
    assert Closed(states[k + 1], token);
    var j: nat;
    j, r := OpenedAt(w, states, events, k + 1, i, n);
    RunIsShut(w, states, events, token);
    SpentBefore(states, k + 1, j, token);
  }
}
