/**
 The relay-wide daily budget: one counter that starts over at the UTC day. Calls carry their own
 clock, so a late one can name a day that is already closed.
*/
module DailyBudget {
  import opened Common

  const DAY_MS := 86_400_000

  /** Days since 1970; the source compares the date part of the ISO timestamp. */
  function Day(now: int): int {
    now / DAY_MS
  }

  datatype Budget = Budget(day: Option<int>, used: nat)

  const UNUSED := Budget(None, 0)

  /** What the counter says has been drawn on a day. */
  function Count(b: Budget, day: int): nat {
    if b.day == Some(day) then b.used else 0
  }

  predicate Allows(b: Budget, limit: nat, today: int) {
    Count(b, today) < limit
  }

  function Spent(b: Budget, limit: nat, today: int): Budget {
    Budget(Some(today), Count(b, today) + if Allows(b, limit, today) then 1 else 0)
  }

  function Refunded(b: Budget, today: int): Budget {
    if b.day == Some(today) then b.(used := if b.used == 0 then 0 else b.used - 1) else b
  }

  class BudgetInstance {
    var day: Option<int>
    var used: nat

    ghost function View(): Budget reads this { Budget(day, used) }

    constructor ()
      ensures View() == UNUSED
    {
      day, used := None, 0;
    }

    method SpendDailyBudget(limit: nat, now: int) returns (allowed: bool, drawn: nat)
      modifies this
      ensures View() == Spent(old(View()), limit, Day(now))
      ensures allowed <==> Allows(old(View()), limit, Day(now))
      ensures drawn == Count(View(), Day(now))
      ensures var today := now / 86_400_000; var before := if old(day) == Some(today) then old(used) else 0;
        && (allowed <==> before < limit) && drawn == before + (if allowed then 1 else 0)
        && day == Some(today) && used == drawn
    {
      var today := Day(now);
      var stored := day;
      drawn := if stored == Some(today) then used else 0;
      if drawn >= limit {
        if stored != Some(today) {
          day, used := Some(today), 0;
        }
        return false, drawn;
      }
      drawn := drawn + 1;
      day, used := Some(today), drawn;
      allowed := true;
    }

    method RefundDailyBudget(now: int)
      modifies this
      ensures View() == Refunded(old(View()), Day(now))
      ensures day == old(day)
      ensures used == if old(day) == Some(now / 86_400_000) && old(used) > 0 then old(used) - 1 else old(used)
    {
      if day != Some(Day(now)) {
        return;
      }
      used := if used == 0 then 0 else used - 1;
    }
  }

  // ---- the draws behind the count ------------------------------------------------------------------

  /** One allowed draw: the day it was counted on, and whether it has been given back. */
  datatype Draw = Draw(day: int, returned: bool)

  /** The draws of a day that were not given back. */
  function Outstanding(draws: seq<Draw>, day: int): nat {
    if draws == [] then 0
    else Outstanding(draws[..|draws| - 1], day) + if draws[|draws| - 1] == Draw(day, false) then 1 else 0
  }

  datatype Ledger = Ledger(budget: Budget, draws: seq<Draw>)

  /** Calls by the day their clock shows. */
  datatype Call = Spend(today: int) | Refund(draw: nat, today: int)

  /** A refund gives back one allowed draw, once. */
  predicate Enabled(l: Ledger, c: Call) {
    c.Refund? ==> c.draw < |l.draws| && !l.draws[c.draw].returned
  }

  function Apply(l: Ledger, limit: nat, c: Call): Ledger
    requires Enabled(l, c)
  {
    match c
    case Spend(today) =>
      Ledger(Spent(l.budget, limit, today),
             if Allows(l.budget, limit, today) then l.draws + [Draw(today, false)] else l.draws)
    case Refund(d, today) => Ledger(Refunded(l.budget, today), l.draws[d := l.draws[d].(returned := true)])
  }

  /** From the day the counter is at onwards, it counts exactly the outstanding draws. */
  ghost predicate Exact(l: Ledger) {
    && (l.budget.day == None ==> l.draws == [] && l.budget.used == 0)
    && forall day ::
         l.budget.day.Some? && day >= l.budget.day.value ==> Count(l.budget, day) == Outstanding(l.draws, day)
  }

  lemma {:induction false} OutstandingAppend(draws: seq<Draw>, d: Draw, day: int)
    ensures Outstanding(draws + [d], day) == Outstanding(draws, day) + if d == Draw(day, false) then 1 else 0
  {
    assert (draws + [d])[..|draws|] == draws;
  }

  lemma {:induction false} OutstandingReturn(draws: seq<Draw>, i: nat, day: int)
    requires i < |draws| && !draws[i].returned
    ensures Outstanding(draws[i := draws[i].(returned := true)], day) ==
            Outstanding(draws, day) - if draws[i].day == day then 1 else 0
    ensures draws[i].day == day ==> Outstanding(draws, day) > 0
  {
    var n := |draws| - 1;
    var after := draws[i := draws[i].(returned := true)];
    if i == n {
      assert after[..n] == draws[..n];
    } else {
      OutstandingReturn(draws[..n], i, day);
      assert after[..n] == draws[..n][i := draws[i].(returned := true)];
    }
  }

  lemma {:induction false} OutstandingNone(draws: seq<Draw>, day: int)
    ensures Outstanding(draws, day) == 0 <==> forall i :: 0 <= i < |draws| ==> draws[i] != Draw(day, false)
  {
    if draws != [] {
      OutstandingNone(draws[..|draws| - 1], day);
    }
  }

  /** Nothing drawn on `day` or later is still outstanding. */
  predicate ClosedFrom(draws: seq<Draw>, day: int) {
    forall i :: 0 <= i < |draws| ==> draws[i].day < day || draws[i].returned
  }

  /**
   A spend keeps the count exact exactly when it does not go back behind the counter's day, or
   nothing outstanding lies in the days it would forget.
  */
  lemma SpendKeepsExactIff(l: Ledger, limit: nat, today: int)
    requires Exact(l)
    ensures Exact(Apply(l, limit, Spend(today))) <==>
            l.budget.day == None || today >= l.budget.day.value || ClosedFrom(l.draws, today)
  {
    var after := Apply(l, limit, Spend(today));
    forall day
      ensures Outstanding(after.draws, day) ==
              Outstanding(l.draws, day) + if day == today && Allows(l.budget, limit, today) then 1 else 0
    {
      if Allows(l.budget, limit, today) {
        OutstandingAppend(l.draws, Draw(today, false), day);
      }
      OutstandingNone(l.draws, day);
    }
    if ClosedFrom(l.draws, today) {
      forall day | day >= today ensures Outstanding(l.draws, day) == 0 {
        OutstandingNone(l.draws, day);
      }
    } else {
      var i :| 0 <= i < |l.draws| && l.draws[i].day >= today && !l.draws[i].returned;
      OutstandingNone(l.draws, l.draws[i].day);
    }
  }

  /**
   A refund keeps the count exact exactly when it is stamped with the counter's day just when its
   draw was counted on it; an empty counter, which the subtraction cannot take below zero, is the
   one exception.
  */
  lemma RefundKeepsExactIff(l: Ledger, limit: nat, draw: nat, today: int)
    requires Exact(l) && Enabled(l, Refund(draw, today))
    ensures Exact(Apply(l, limit, Refund(draw, today))) <==>
            (l.budget.day == Some(today) <==> l.budget.day == Some(l.draws[draw].day)) || l.budget.used == 0
  {
    var after := Apply(l, limit, Refund(draw, today));
    forall day
      ensures Outstanding(after.draws, day) == Outstanding(l.draws, day) - if l.draws[draw].day == day then 1 else 0
      ensures l.draws[draw].day == day ==> Outstanding(l.draws, day) > 0
    {
      OutstandingReturn(l.draws, draw, day);
    }
    var stored := l.budget.day.value;
    assert Count(l.budget, stored) == Outstanding(l.draws, stored);
    assert l.draws[draw].day > stored ==> Count(l.budget, l.draws[draw].day) == 0;
  }

  // ---- whole runs -----------------------------------------------------------------------------------

  /** Spends never go back a day, and a refund carries the day of its own draw. */
  predicate Orderly(l: Ledger, c: Call) {
    && Enabled(l, c)
    && match c
       case Spend(today) => l.budget.day.Some? ==> today >= l.budget.day.value
       case Refund(d, today) => today == l.draws[d].day
  }

  ghost predicate OrderlyRun(l: Ledger, limit: nat, calls: seq<Call>)
    decreases |calls|
  {
    calls == [] || (Orderly(l, calls[0]) && OrderlyRun(Apply(l, limit, calls[0]), limit, calls[1..]))
  }

  ghost function Run(l: Ledger, limit: nat, calls: seq<Call>): Ledger
    requires OrderlyRun(l, limit, calls)
    decreases |calls|
  {
    if calls == [] then l else Run(Apply(l, limit, calls[0]), limit, calls[1..])
  }

  /** No day's outstanding draws pass the limit. */
  ghost predicate WithinLimit(l: Ledger, limit: nat) {
    forall day :: Outstanding(l.draws, day) <= limit
  }

  lemma OrderlyCallKeeps(l: Ledger, limit: nat, c: Call)
    requires Exact(l) && WithinLimit(l, limit) && Orderly(l, c)
    ensures Exact(Apply(l, limit, c)) && WithinLimit(Apply(l, limit, c), limit)
  {
    var after := Apply(l, limit, c);
    match c
    case Spend(today) =>
      SpendKeepsExactIff(l, limit, today);
      forall day ensures Outstanding(after.draws, day) <= limit {
        assert Outstanding(l.draws, day) <= limit;
        OutstandingAppend(l.draws, Draw(today, false), day);
        if l.budget.day.Some? {
          assert Count(l.budget, today) == Outstanding(l.draws, today);
        }
      }
    case Refund(d, today) =>
      RefundKeepsExactIff(l, limit, d, today);
      forall day ensures Outstanding(after.draws, day) <= limit {
        OutstandingReturn(l.draws, d, day);
      }
  }

  /**
   Conservation: over every orderly run from an unused budget, the count of the counter's day is
   that day's allowed draws minus its refunds, and no day ever has more than the limit outstanding.
  */
  lemma {:induction false} BudgetIsConserved(l: Ledger, limit: nat, calls: seq<Call>)
    requires Exact(l) && WithinLimit(l, limit) && OrderlyRun(l, limit, calls)
    ensures Exact(Run(l, limit, calls)) && WithinLimit(Run(l, limit, calls), limit)
    decreases |calls|
  {
    if calls != [] {
      OrderlyCallKeeps(l, limit, calls[0]);
      BudgetIsConserved(Apply(l, limit, calls[0]), limit, calls[1..]);
    }
  }

  lemma BudgetFromUnused(limit: nat, calls: seq<Call>)
    requires OrderlyRun(Ledger(UNUSED, []), limit, calls)
    ensures var l := Run(Ledger(UNUSED, []), limit, calls);
            l.budget.day.Some? ==> l.budget.used == Outstanding(l.draws, l.budget.day.value) && l.budget.used <= limit
  {
    BudgetIsConserved(Ledger(UNUSED, []), limit, calls);
    var l := Run(Ledger(UNUSED, []), limit, calls);
    if l.budget.day.Some? {
      assert Count(l.budget, l.budget.day.value) == Outstanding(l.draws, l.budget.day.value);
    }
  }

  /**
   A draw is refused for no other reason than a full day: after any orderly run, a spend that does not
   go back a day is allowed exactly while that day's outstanding draws are fewer than the limit.
  */
  lemma SpendAllowedIff(limit: nat, calls: seq<Call>, today: int)
    requires OrderlyRun(Ledger(UNUSED, []), limit, calls)
    requires var l := Run(Ledger(UNUSED, []), limit, calls); l.budget.day.Some? ==> l.budget.day.value <= today
    ensures var l := Run(Ledger(UNUSED, []), limit, calls); var after := Apply(l, limit, Spend(today));
            var drawn := Outstanding(l.draws, today);
      if drawn < limit then
        after.draws == l.draws + [Draw(today, false)] && after.budget == Budget(Some(today), drawn + 1)
      else after.draws == l.draws && after.budget == Budget(Some(today), drawn)
  {
    BudgetIsConserved(Ledger(UNUSED, []), limit, calls);
    var l := Run(Ledger(UNUSED, []), limit, calls);
    assert l.budget.day.Some? ==> Count(l.budget, today) == Outstanding(l.draws, today);
  }

  /** An orderly refund on the live day always finds something to take off: the clamp at zero never acts. */
  lemma OrderlyRefundNeverClamps(l: Ledger, limit: nat, draw: nat, today: int)
    requires Exact(l) && Orderly(l, Refund(draw, today)) && l.budget.day == Some(today)
    ensures l.budget.used > 0 && Count(Refunded(l.budget, today), today) == l.budget.used - 1
  {
    OutstandingReturn(l.draws, draw, today);
    assert Count(l.budget, today) == Outstanding(l.draws, today);
  }

  /** A refused draw on the live day, and any refund for a closed day, leave the counter as it was. */
  lemma RefusedAndLateCallsChangeNothing(b: Budget, limit: nat, today: int)
    requires b.day.Some?
    ensures b.day == Some(today) && !Allows(b, limit, today) ==> Spent(b, limit, today) == b
    ensures today < b.day.value ==> Refunded(b, today) == b
    ensures today > b.day.value && !Allows(b, limit, today) ==> Count(Spent(b, limit, today), today) == 0 == limit
  {
  }

  /** One spend that arrives late from before midnight empties the new day's count: a limit of one lets two through. */
  lemma LateSpendOvershoots(today: int)
    ensures var first := Apply(Ledger(UNUSED, []), 1, Spend(today));
            var late := Apply(first, 1, Spend(today - 1));
            Outstanding(Apply(late, 1, Spend(today)).draws, today) == 2
  {
    var first := Apply(Ledger(UNUSED, []), 1, Spend(today));
    OutstandingAppend([], Draw(today, false), today);
    OutstandingAppend(first.draws, Draw(today - 1, false), today);
    OutstandingAppend(first.draws + [Draw(today - 1, false)], Draw(today, false), today);
  }

  // ---- when a refused caller may come back --------------------------------------------------------

  function SecondsUntilMidnight(now: int): int {
    var midnight := (Day(now) + 1) * DAY_MS;
    var seconds := (midnight - now + 999) / 1000;
    if seconds < 1 then 1 else seconds
  }

  /** The advertised wait ends in the next day, by less than a second, and no shorter whole wait does. */
  lemma RetryLandsOnNextDay(now: int)
    ensures var wait := SecondsUntilMidnight(now);
            Day(now + 1000 * wait) == Day(now) + 1 && Day(now + 1000 * (wait - 1)) == Day(now)
  {
  }
}
