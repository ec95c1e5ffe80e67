/**
 The numbers shown at a login push: the one to tap and three decoys, drawn until all four differ.
*/
module PushDigits {
  import opened Common

  const DECOYS := 3
  /** The loop gives up at the draw after this many. */
  const MAX_TRIES := 200

  datatype DrawError = OutOfTries

  /** The numbers other than `match` among the first n draws, each where it first appeared. */
  function Fresh(draws: nat -> int, shown: int, n: nat): seq<int> {
    if n == 0 then []
    else
      var before := Fresh(draws, shown, n - 1);
      if draws(n - 1) == shown || draws(n - 1) in before then before else before + [draws(n - 1)]
  }

  predicate Distinct(numbers: seq<int>) {
    forall i, j :: 0 <= i < j < |numbers| ==> numbers[i] != numbers[j]
  }

  /** Nothing repeats, nothing equals the number shown, and everything drawn is there. */
  lemma {:induction false} FreshIsDistinct(draws: nat -> int, shown: int, n: nat)
    ensures Distinct([shown] + Fresh(draws, shown, n))
    ensures forall k :: 0 <= k < n ==> draws(k) == shown || draws(k) in Fresh(draws, shown, n)
    ensures forall d :: d in Fresh(draws, shown, n) ==> exists k :: 0 <= k < n && draws(k) == d
  {
    if n > 0 {
      FreshIsDistinct(draws, shown, n - 1);
      var before := Fresh(draws, shown, n - 1);
      var all := Fresh(draws, shown, n);
      forall i, j | 0 <= i < j < |all| + 1 ensures ([shown] + all)[i] != ([shown] + all)[j] {
        assert j <= |before| ==> ([shown] + before)[i] != ([shown] + before)[j];
        assert i > 0 && i - 1 < |before| ==> all[i - 1] in before;
      }
      forall k | 0 <= k < n ensures draws(k) == shown || draws(k) in all {
        assert k < n - 1 ==> draws(k) == shown || draws(k) in before;
      }
    }
  }

  lemma {:induction false} FreshGrows(draws: nat -> int, shown: int, m: nat, n: nat)
    requires m <= n
    ensures Fresh(draws, shown, m) <= Fresh(draws, shown, n)
  {
    if m < n {
      FreshGrows(draws, shown, m, n - 1);
    }
  }

  /** Three decoys, or a refusal exactly when the allowed draws hold too few different numbers. */
  method Decoys(draws: nat -> int, shown: int) returns (r: Result<seq<int>, DrawError>)
    ensures var offered := Fresh(draws, shown, 201); r == if |offered| >= 3 then Ok(offered[..3]) else Err(OutOfTries)
    ensures r.Ok? ==> Distinct([shown] + r.value)
  {
    var seen := {shown};
    var decoys := [];
    var attempts := 0;
    while |decoys| < DECOYS
      invariant attempts <= MAX_TRIES + 1 && |decoys| <= DECOYS
      invariant decoys == Fresh(draws, shown, attempts)
      invariant forall d :: d in seen <==> d == shown || d in decoys
      decreases MAX_TRIES + 1 - attempts
    {
      if attempts > MAX_TRIES {
        return Err(OutOfTries);
      }
      var drawn := draws(attempts);
      attempts := attempts + 1;
      if drawn !in seen {
        seen := seen + {drawn};
        decoys := decoys + [drawn];
      }
    }
    FreshGrows(draws, shown, attempts, MAX_TRIES + 1);
    assert Fresh(draws, shown, MAX_TRIES + 1)[..DECOYS] == decoys;
    FreshIsDistinct(draws, shown, attempts);
    r := Ok(decoys);
  }
}
