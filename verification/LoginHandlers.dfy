/**
 The second-factor handlers, each run without interruption on the store: which requests succeed,
 and what every branch leaves in the tables. LoginProtocol cuts the same statements into steps.
*/
module LoginHandlers {
  import opened Common
  import opened MfaStore
  import opened SignedMessages
  import LP = LoginProtocol

  datatype Verdict = NotFound | NotPending | TooLate | BadSignature | LostRace | Denied | Accepted

  datatype Push = Sent | AlreadyPending | Capped

  /** A login push goes out exactly when the user has no live one and is within the hourly allowance. */
  method LoginPush(store: Store, id: Id, c: Challenge, withinAllowance: bool, now: int) returns (push: Push)
    requires id !in store.challenges && c.purpose == "login"
    modifies store`challenges
    ensures push == if HasLiveLoginPush(old(store.challenges), c.user, now) then AlreadyPending
                    else if !withinAllowance then Capped else Sent
    ensures store.challenges == if push == Sent then old(store.challenges)[id := c] else old(store.challenges)
    ensures push == AlreadyPending <==>
            exists g :: && g in old(store.challenges)
                        && var p := old(store.challenges)[g];
                           p.user == c.user && p.purpose == "login" && p.status == Pending && now < p.expiresAt
    ensures push == Capped ==> !withinAllowance
    ensures push == Sent ==> withinAllowance
  {
    var pending := store.HasPendingLoginPush(c.user, now);
    if pending {
      return AlreadyPending;
    }
    if !withinAllowance {
      return Capped;
    }
    var created := store.CreateLoginPushChallenge(id, c, now);
    push := if created then Sent else AlreadyPending;
  }

  predicate FinishAllowed(challenges: Challenges, tokens: Tokens, token: Id, named: Id, now: int) {
    && ValidToken(tokens, token, now) && tokens[token].challenge == Some(named)
    && Approves(challenges, Some(named), tokens[token].user, now)
  }

  /** A session for the token's own user, exactly when its own challenge is approved; the token goes with it. */
  method FinishPushLogin(store: Store, token: Id, named: Id, now: int) returns (user: Option<Id>)
    modifies store`tokens
    ensures user == if FinishAllowed(store.challenges, old(store.tokens), token, named, now)
                    then Some(old(store.tokens)[token].user) else None
    ensures store.tokens == if user.Some? then Consumed(old(store.tokens), token) else old(store.tokens)
    ensures user.Some? <==>
            && token in old(store.tokens) && named in store.challenges
            && var t, c := old(store.tokens)[token], store.challenges[named];
            && !t.used && now < t.expiresAt && t.attempts < 5 && t.challenge == Some(named)
            && c.status == Approved && c.verifiedAt.Some? && now < c.expiresAt && c.user == t.user
    ensures user.Some? ==>
              && user.value == old(store.tokens)[token].user
              && store.tokens == old(store.tokens)[token := old(store.tokens)[token].(used := true)]
    ensures user == None ==> store.tokens == old(store.tokens)
  {
    var row := store.GetValidMFAToken(token, now);
    if row.None? || row.value.challenge != Some(named) {
      return None;
    }
    if named !in store.challenges {
      return None;
    }
    var c := store.challenges[named];
    if c.status != Approved || c.verifiedAt.None? || c.expiresAt <= now || c.user != row.value.user {
      return None;
    }
    var spent := store.ConsumeMFAToken(token);
    if !spent {
      return None;
    }
    user := Some(row.value.user);
  }

  /** A code costs an attempt before it is looked at, right or wrong; only a right one spends the token. */
  method VerifyCode(store: Store, token: Id, valid: bool, now: int) returns (user: Option<Id>)
    modifies store`tokens
    ensures user == if ValidToken(old(store.tokens), token, now) && valid
                    then Some(old(store.tokens)[token].user) else None
    ensures var reserved := Reserved(old(store.tokens), token, now);
            store.tokens == if user.Some? then Consumed(reserved, token) else reserved
    ensures var open := token in old(store.tokens) && var t := old(store.tokens)[token];
                        !t.used && now < t.expiresAt && t.attempts < 5;
      if !open then user == None && store.tokens == old(store.tokens)
      else
        var t := old(store.tokens)[token];
        && user == (if valid then Some(t.user) else None)
        && store.tokens == old(store.tokens)[token := t.(attempts := t.attempts + 1, used := valid)]
  {
    var row := store.GetValidMFAToken(token, now);
    if row.None? {
      return None;
    }
    var attempts := store.ReserveMFAAttempt(token, now);
    if attempts == 0 || !valid {
      return None;
    }
    var spent := store.ConsumeMFAToken(token);
    user := if spent then Some(row.value.user) else None;
  }

  /** An answer moves a pending, timely, properly signed challenge once, and approves only the matching number. */
  method RespondPushChallenge(store: Store, id: Id, digits: string, approve: bool, verified: bool, now: int)
    returns (verdict: Verdict)
    modifies store`challenges
    ensures verdict == Accepted <==>
            && id in old(store.challenges)
            && var c := old(store.challenges)[id];
               c.status == Pending && now <= c.expiresAt && verified && approve && digits == c.matchDigits
    ensures verdict == Denied <==>
            && id in old(store.challenges)
            && var c := old(store.challenges)[id];
               c.status == Pending && now <= c.expiresAt && verified && !(approve && digits == c.matchDigits)
    ensures verdict == TooLate <==>
            && id in old(store.challenges)
            && old(store.challenges)[id].status == Pending && old(store.challenges)[id].expiresAt < now
    ensures verdict != LostRace
    ensures verdict in {Accepted, Denied, TooLate} ==>
              && id in old(store.challenges)
              && store.challenges ==
                 old(store.challenges)[id := old(store.challenges)[id].(
                   status := if verdict == Accepted then Approved else if verdict == Denied then Refused else Expired,
                   verifiedAt := if verdict == Accepted then Some(now) else None)]
    ensures store.challenges ==
            match verdict
            case Accepted => Transition(old(store.challenges), id, Pending, Approved, now)
            case Denied => Transition(old(store.challenges), id, Pending, Refused, now)
            case TooLate => Transition(old(store.challenges), id, Pending, Expired, now)
            case _ => old(store.challenges)
  {
    if id !in store.challenges {
      return NotFound;
    }
    var c := store.challenges[id];
    if c.status != Pending {
      return NotPending;
    }
    if now > c.expiresAt {
      var _ := store.TransitionMFAChallengeStatus(id, Pending, Expired, now);
      return TooLate;
    }
    if !verified {
      return BadSignature;
    }
    var moved: bool;
    if !approve || digits != c.matchDigits {
      moved := store.TransitionMFAChallengeStatus(id, Pending, Refused, now);
      return if moved then Denied else LostRace;
    }
    moved := store.TransitionMFAChallengeStatus(id, Pending, Approved, now);
    verdict := if moved then Accepted else LostRace;
  }

  /** A poll with the challenge's own token: its status as it stands, a late pending one expired on the way. */
  method PollPushChallenge(store: Store, token: Id, named: Id, now: int) returns (status: Option<Status>)
    modifies store`challenges
    ensures var open := token in store.tokens && var t := store.tokens[token];
                        !t.used && now < t.expiresAt && t.attempts < 5 && t.challenge == Some(named);
            var late := named in old(store.challenges) && var c := old(store.challenges)[named];
                        c.status == Pending && c.expiresAt < now;
      && (!open || named !in old(store.challenges) ==> status == None)
      && (open && named in old(store.challenges) ==>
            status == Some(if late then Expired else old(store.challenges)[named].status))
      && (store.challenges == if open && late then
            old(store.challenges)[named := old(store.challenges)[named].(status := Expired, verifiedAt := None)]
          else old(store.challenges))
  {
    var row := store.GetValidMFAToken(token, now);
    if row.None? || row.value.challenge != Some(named) || named !in store.challenges {
      return None;
    }
    var c := store.challenges[named];
    if c.status == Pending && now > c.expiresAt {
      var moved := store.TransitionMFAChallengeStatus(named, Pending, Expired, now);
      if moved {
        return Some(Expired);
      }
    }
    status := Some(c.status);
  }

  /** The token after n wrong codes in a row. */
  function AfterGuesses(tokens: Tokens, token: Id, now: int, n: nat): Tokens {
    if n == 0 then tokens else Reserved(AfterGuesses(tokens, token, now, n - 1), token, now)
  }

  /** A fresh token takes exactly five wrong codes; the sixth is refused unread, though the token is unspent. */
  lemma {:induction false} FiveGuesses(tokens: Tokens, token: Id, now: int, n: nat)
    requires ValidToken(tokens, token, now) && tokens[token].attempts == 0
    ensures var after := AfterGuesses(tokens, token, now, n);
      && token in after
      && after[token] == tokens[token].(attempts := if n < 5 then n else 5)
      && (ValidToken(after, token, now) <==> n < 5)
      && Spendable(after, token)
  {
    if n > 0 {
      FiveGuesses(tokens, token, now, n - 1);
    }
  }

  // ---- the handlers are the protocol's steps with nothing in between --------------------------------

  ghost predicate SameTables(s: LP.State, t: LP.State) {
    t.now == s.now && t.challenges == s.challenges && t.tokens == s.tokens && t.sessions == s.sessions
  }

  /** Resolve, check the approval, spend, open: as far as the request gets. */
  ghost function PushFinishAlone(s: LP.State, r: nat, token: Id, named: Id): LP.State {
    var a := LP.DoResolve(s, r, token, LP.Factor.Push, named);
    if LP.StandsAt(a, r).Finishing? then SpendAlone(LP.DoCheckApproval(a, r), r) else a
  }

  ghost function SpendAlone(s: LP.State, r: nat): LP.State {
    if LP.StandsAt(s, r).Proven? then
      var c := LP.DoSpend(s, r);
      if LP.StandsAt(c, r).Spent? then LP.DoOpenSession(c, r) else c
    else s
  }

  lemma SpendAloneOpens(s: LP.State, r: nat)
    requires LP.StandsAt(s, r).Proven? && Spendable(s.tokens, LP.StandsAt(s, r).token)
    ensures var q := s.requests[r]; var t := SpendAlone(s, r);
      && t.tokens == Consumed(s.tokens, q.token) && t.challenges == s.challenges
      && t.sessions == s.sessions + [LP.Session(q.user, q.factor, q.token, q.challenge)]
  {
  }

  lemma PushProof(s: LP.State, r: nat, token: Id, named: Id)
    ensures var a := LP.DoResolve(s, r, token, LP.Factor.Push, named);
      && SameTables(s, a)
      && if ValidToken(s.tokens, token, s.now) && s.tokens[token].challenge == Some(named) then
           LP.StandsAt(a, r) == LP.Finishing(token, s.tokens[token].user, LP.Factor.Push, Some(named))
         else LP.StandsAt(a, r) == LP.Over
  {
  }

  lemma PushApproval(s: LP.State, r: nat)
    requires LP.StandsAt(s, r).Finishing?
    ensures var q := s.requests[r]; var b := LP.DoCheckApproval(s, r);
      && SameTables(s, b)
      && if Approves(s.challenges, q.challenge, q.user, s.now) then
           LP.StandsAt(b, r) == LP.Proven(q.token, q.user, q.factor, q.challenge)
         else LP.StandsAt(b, r) == LP.Over
  {
  }

  /** The steps of a push finish, taken in a row, do what FinishPushLogin does, and open the one session. */
  lemma PushFinishIsTheHandler(s: LP.State, r: nat, token: Id, named: Id)
    ensures PushFinishAlone(s, r, token, named).challenges == s.challenges
    ensures var t := PushFinishAlone(s, r, token, named);
      if && token in s.tokens && named in s.challenges
         && var k, c := s.tokens[token], s.challenges[named];
            && !k.used && s.now < k.expiresAt && k.attempts < 5 && k.challenge == Some(named)
            && c.status == Approved && c.verifiedAt.Some? && s.now < c.expiresAt && c.user == k.user
      then
        && t.tokens == s.tokens[token := s.tokens[token].(used := true)]
        && t.sessions == s.sessions + [LP.Session(s.tokens[token].user, LP.Factor.Push, token, Some(named))]
      else t.tokens == s.tokens && t.sessions == s.sessions
  {
    PushProof(s, r, token, named);
    var a := LP.DoResolve(s, r, token, LP.Factor.Push, named);
    if LP.StandsAt(a, r).Finishing? {
      PushApproval(a, r);
      var b := LP.DoCheckApproval(a, r);
      if LP.StandsAt(b, r).Proven? {
        SpendAloneOpens(b, r);
      }
    }
  }

  /** Resolve, reserve, check the code, spend, open: as far as the request gets. */
  ghost function CodeFinishAlone(s: LP.State, r: nat, token: Id, factor: LP.Factor, valid: bool): LP.State
    requires !factor.Push?
  {
    var a := LP.DoResolve(s, r, token, factor, "");
    if LP.StandsAt(a, r).Finishing? then
      var b := LP.DoReserve(a, r);
      if LP.StandsAt(b, r).Guessing? then SpendAlone(LP.DoCheckProof(b, r, valid), r) else b
    else a
  }

  lemma CodeReserved(s: LP.State, r: nat, token: Id, factor: LP.Factor)
    requires !factor.Push? && ValidToken(s.tokens, token, s.now)
    ensures var a := LP.DoResolve(s, r, token, factor, "");
      && LP.StandsAt(a, r).Finishing?
      && var b := LP.DoReserve(a, r);
         && LP.StandsAt(b, r) == LP.Guessing(token, s.tokens[token].user, factor)
         && b.tokens == Reserved(s.tokens, token, s.now) && b.challenges == s.challenges && b.sessions == s.sessions
  {
  }

  /** Likewise for a code: what VerifyCode does to the tokens, and the one session. */
  lemma CodeFinishIsTheHandler(s: LP.State, r: nat, token: Id, factor: LP.Factor, valid: bool)
    requires !factor.Push?
    ensures var t := CodeFinishAlone(s, r, token, factor, valid);
      if token in s.tokens && var k := s.tokens[token]; !k.used && s.now < k.expiresAt && k.attempts < 5 then
        var k := s.tokens[token];
        && t.tokens == s.tokens[token := k.(attempts := k.attempts + 1, used := valid)]
        && t.sessions == s.sessions + if valid then [LP.Session(k.user, factor, token, None)] else []
      else t.tokens == s.tokens && t.sessions == s.sessions
  {
    if ValidToken(s.tokens, token, s.now) {
      CodeReserved(s, r, token, factor);
      var b := LP.DoReserve(LP.DoResolve(s, r, token, factor, ""), r);
      var c := LP.DoCheckProof(b, r, valid);
      if valid {
        assert LP.StandsAt(c, r) == LP.Proven(token, s.tokens[token].user, factor, None);
        SpendAloneOpens(c, r);
      } else {
        assert LP.StandsAt(c, r) == LP.Over;
      }
    }
  }

  /** Read, verify, decide: as far as the answer gets. */
  ghost function AnswerAlone(w: LP.World, s: LP.State, r: nat, id: Id, device: Id, digits: string, approve: bool)
    : LP.State
  {
    var a := LP.DoRespond(s, r, id, device, digits, approve);
    if LP.StandsAt(a, r).Answering? then
      var b := LP.DoVerify(w, a, r);
      if LP.StandsAt(b, r).Verified? then LP.DoDecide(b, r) else b
    else a
  }

  /** And for an answer: RespondPushChallenge's verdicts, the signature checked against devices and messages signed. */
  lemma AnswerIsTheHandler(w: LP.World, s: LP.State, r: nat, id: Id, device: Id, digits: string, approve: bool)
    ensures var t := AnswerAlone(w, s, r, id, device, digits, approve);
      t.challenges ==
      if id !in s.challenges || s.challenges[id].status != Pending then s.challenges
      else
        var c := s.challenges[id];
        var message := w.message(PushBinding(w.origin, c.user, device, id, c.purpose, c.expiresAt), approve, digits);
        if c.expiresAt < s.now then s.challenges[id := c.(status := Expired, verifiedAt := None)]
        else if !(&& device in s.devices && s.devices[device].user == c.user && s.devices[device].approver
                  && s.devices[device].publicKey != ""
                  && message.Some? && (s.devices[device].publicKey, message.value) in s.signed) then s.challenges
        else if approve && digits == c.matchDigits then
          s.challenges[id := c.(status := Approved, verifiedAt := Some(s.now))]
        else s.challenges[id := c.(status := Refused, verifiedAt := None)]
  {
    var a := LP.DoRespond(s, r, id, device, digits, approve);
    if LP.StandsAt(a, r).Answering? {
      assert a.challenges == s.challenges && a.devices == s.devices && a.signed == s.signed;
    }
  }

  /** The machine's poll and sweeps move and drop exactly the rows PollPushChallenge and the store's sweeps do. */
  lemma PollAndSweepsAreTheHandlers(w: LP.World, s: LP.State, id: Id)
    ensures LP.StepAnswer(w, s, LP.Expire(id)) ==
            if id in s.challenges && s.challenges[id].status == Pending && s.challenges[id].expiresAt < s.now then
              s.(challenges := s.challenges[id := s.challenges[id].(status := Expired, verifiedAt := None)])
            else s
    ensures var t := LP.StepOther(s, LP.SweepChallenges);
      && t == s.(challenges := t.challenges)
      && (id in t.challenges <==> id in s.challenges && s.now - 3_600_000 <= s.challenges[id].expiresAt)
      && (id in t.challenges ==> t.challenges[id] == s.challenges[id])
    ensures var t := LP.StepOther(s, LP.SweepTokens);
      && t == s.(tokens := t.tokens)
      && (id in t.tokens <==> id in s.tokens && s.now <= s.tokens[id].expiresAt)
      && (id in t.tokens ==> t.tokens[id] == s.tokens[id])
  {
  }

  /** An unpaired device decides nothing from that moment on; one just paired as an approver does at once. */
  lemma DeviceEditsTakeEffect(w: LP.World, s: LP.State, r: nat, id: Id, device: Id, record: LP.Device, digits: string)
    requires id in s.challenges && s.challenges[id].status == Pending && s.now <= s.challenges[id].expiresAt
    ensures AnswerAlone(w, LP.StepOther(s, LP.RemoveDevice(device)), r, id, device, digits, true).challenges ==
            s.challenges
    ensures var c := s.challenges[id];
            var message := w.message(PushBinding(w.origin, c.user, device, id, c.purpose, c.expiresAt), true, digits);
            var t := AnswerAlone(w, LP.StepOther(s, LP.EnrolDevice(device, record)), r, id, device, digits, true);
      record.user == c.user && record.approver && record.publicKey != "" && digits == c.matchDigits &&
      message.Some? && (record.publicKey, message.value) in s.signed ==>
        id in t.challenges && t.challenges[id].status == Approved
    ensures forall d :: d != device ==>
              var removed, added := LP.StepOther(s, LP.RemoveDevice(device)).devices,
                                    LP.StepOther(s, LP.EnrolDevice(device, record)).devices;
              && (d in removed <==> d in s.devices) && (d in added <==> d in s.devices)
              && (d in s.devices ==> removed[d] == s.devices[d] == added[d])
  {
    AnswerIsTheHandler(w, LP.StepOther(s, LP.RemoveDevice(device)), r, id, device, digits, true);
    AnswerIsTheHandler(w, LP.StepOther(s, LP.EnrolDevice(device, record)), r, id, device, digits, true);
  }

  // ---- a genuine push login succeeds ------------------------------------------------------------------

  /** A password login that sends a push and is given a token. */
  ghost function Prompted(s: LP.State, r: nat, user: Id, id: Id, digits: string, token: Id): LP.State {
    LP.DoIssueToken(LP.DoSendPush(LP.Move(s, r, LP.SignedIn(user)), r, id, digits), r, token)
  }

  lemma PromptedRows(s: LP.State, r: nat, user: Id, id: Id, digits: string, token: Id)
    requires forall g :: g in s.challenges ==>
                           var p := s.challenges[g];
                           !(p.user == user && p.purpose == "login" && p.status == Pending && s.now < p.expiresAt)
    ensures var t := Prompted(s, r, user, id, digits, token);
            var deadline := (s.now + 300_000) / 1000 * 1000;
      && t.challenges == s.challenges[id := Challenge(user, "login", digits, Pending, deadline, None)]
      && t.tokens == s.tokens[token := Token(user, Some(id), 0, s.now + 300_000, false)]
      && t.devices == s.devices && t.sessions == s.sessions && t.signed == s.signed && t.now == s.now
  {
    assert !HasLiveLoginPush(s.challenges, user, s.now);
  }

  /**
   The whole of it: a user with no login push pending signs in with the password, an approver device
   of theirs signs the approval with the number shown, the answer comes by the deadline and the finish
   before it. One session opens, for that user, by that challenge. Whoever else is signing in, and
   whatever else the tables hold, makes no difference.
  */
  lemma GenuinePushLoginSucceeds(w: LP.World, s: LP.State, user: Id, id: Id, digits: string, token: Id, device: Id,
                                 login: nat, answer: nat, finish: nat, answered: int, finished: int)
    requires forall g :: g in s.challenges ==>
                           var p := s.challenges[g];
                           !(p.user == user && p.purpose == "login" && p.status == Pending && s.now < p.expiresAt)
    requires device in s.devices && s.devices[device].user == user && s.devices[device].approver
    requires s.devices[device].publicKey != ""
    requires answered <= finished < (s.now + 300_000) / 1000 * 1000
    requires w.message(PushBinding(w.origin, user, device, id, "login", (s.now + 300_000) / 1000 * 1000),
                       true, digits).Some?
    ensures
      var deadline := (s.now + 300_000) / 1000 * 1000;
      var message := w.message(PushBinding(w.origin, user, device, id, "login", deadline), true, digits).value;
      var prompted := Prompted(s, login, user, id, digits, token);
      var signed := prompted.(now := answered, signed := prompted.signed + {(s.devices[device].publicKey, message)});
      var approved := AnswerAlone(w, signed, answer, id, device, digits, true);
      var t := PushFinishAlone(approved.(now := finished), finish, token, id);
      && t.sessions == s.sessions + [LP.Session(user, LP.Factor.Push, token, Some(id))]
      && token in t.tokens && t.tokens[token].used
  {
    PromptedRows(s, login, user, id, digits, token);
    var deadline := (s.now + 300_000) / 1000 * 1000;
    var message := w.message(PushBinding(w.origin, user, device, id, "login", deadline), true, digits).value;
    var prompted := Prompted(s, login, user, id, digits, token);
    var signed := prompted.(now := answered, signed := prompted.signed + {(s.devices[device].publicKey, message)});
    AnswerIsTheHandler(w, signed, answer, id, device, digits, true);
    AnswerAloneFrame(w, signed, answer, id, device, digits, true);
    var approved := AnswerAlone(w, signed, answer, id, device, digits, true);
    PushFinishIsTheHandler(approved.(now := finished), finish, token, id);
  }

  lemma AnswerAloneFrame(w: LP.World, s: LP.State, r: nat, id: Id, device: Id, digits: string, approve: bool)
    ensures var t := AnswerAlone(w, s, r, id, device, digits, approve);
            t.tokens == s.tokens && t.sessions == s.sessions && t.now == s.now
  {
  }
}
