/** The fetch driver `fetchDataFromImgurStatic`: rounds of consecutive page
    requests, stopping at the first failed step, pausing longer after each
    full round, and saving unless the user cancelled. What one step does is
    given by the loader; here a step is known only by its outcome. */
module Fetch {
  const HARD_MAX_PAGES := 10
  const MAX_POST_PAGES_PER_LOOP := 30
  const FIRST_DELAY := 500
  const MAX_DELAY := 2000

  /** How a session ended: the risk prompt was declined, there was no
      signed-in user, the user cancelled, or the data was saved. */
  datatype Outcome = Declined | NeedSignin | Cancelled | Saved

  /** What a session did: the page index of every step in order, the pause
      (in ms) after every successful step, the number of ten-second
      breathers between rounds, and how it ended. */
  datatype Session = Session(requested: seq<nat>, pacing: seq<nat>, breathers: nat, end: Outcome)

  /** Outer rounds: one when merging, otherwise `HARD_MAX_PAGES`. */
  function Rounds(merge: bool): (r: nat)
    ensures merge ==> r == 1
    ensures !merge ==> r == 10
  {
    if merge then 1 else HARD_MAX_PAGES
  }

  /** The pause between requests during round `j` of a session that is not
      merging: doubled after each round, at most `MAX_DELAY`. */
  function DelayOf(j: nat): (r: nat)
    ensures FIRST_DELAY <= r <= MAX_DELAY
  {
    if j == 0 then FIRST_DELAY
    else
      var d := 2 * DelayOf(j - 1);
      if d < MAX_DELAY then d else MAX_DELAY
  }

  /** The pause goes 500, 1000, then stays at 2000. */
  lemma {:induction false} DelaySchedule(j: nat)
    ensures DelayOf(j) == if j == 0 then 500 else if j == 1 then 1000 else 2000
  {
    if j >= 2 {
      DelaySchedule(j - 1);
    }
  }

  /** Steps in `j` full rounds of `m` steps. */
  function Steps(j: nat, m: nat): nat
  {
    if j == 0 then 0 else Steps(j - 1, m) + m
  }

  lemma {:induction false} StepsIsProduct(j: nat, m: nat)
    ensures Steps(j, m) == j * m
  {
    if j > 0 {
      StepsIsProduct(j - 1, m);
    }
  }

  /** Round of step `k` when each round has `m` steps. */
  function Round(k: nat, m: nat): nat
    decreases k
  {
    if m == 0 || k < m then 0 else 1 + Round(k - m, m)
  }

  lemma {:induction false} RoundOfStep(j: nat, i: nat, m: nat)
    requires i < m
    ensures Round(Steps(j, m) + i, m) == j
  {
    if j > 0 {
      RoundOfStep(j - 1, i, m);
    }
  }

  lemma {:induction false} StepsMonotone(j: nat, rounds: nat, m: nat)
    requires j < rounds
    ensures Steps(j, m) + m <= Steps(rounds, m)
    decreases rounds - j
  {
    if j + 1 < rounds {
      StepsMonotone(j + 1, rounds, m);
    }
  }

  /** The first step at or after `n` (and before `limit`) that was
      cancelled or failed; `limit` when every step went through. */
  function FirstStop(outcome: nat -> bool, cancel: nat -> bool, n: nat, limit: nat): (r: nat)
    requires n <= limit
    ensures n <= r <= limit
    ensures forall k :: n <= k < r ==> outcome(k) && !cancel(k)
    ensures r < limit ==> cancel(r) || !outcome(r)
    decreases limit - n
  {
    if n == limit then limit
    else if cancel(n) || !outcome(n) then n
    else FirstStop(outcome, cancel, n + 1, limit)
  }

  /** The page indices `0, 1, ..., n - 1`. */
  function Indices(n: nat): seq<nat>
  {
    if n == 0 then [] else Indices(n - 1) + [n - 1]
  }

  /** The pauses after the first `n` steps when rounds have `m` steps. */
  function PacingOf(n: nat, m: nat): seq<nat>
  {
    if n == 0 then [] else PacingOf(n - 1, m) + [DelayOf(Round(n - 1, m))]
  }

  /** The requested pages are consecutive from 0, with no gap or repeat. */
  lemma {:induction false} IndicesConsecutive(n: nat)
    ensures |Indices(n)| == n && forall k :: 0 <= k < n ==> Indices(n)[k] == k
  {
    if n > 0 {
      IndicesConsecutive(n - 1);
    }
  }

  /** Step `k` is followed by the pause of its round. */
  lemma {:induction false} PacingOfRounds(n: nat, m: nat)
    ensures |PacingOf(n, m)| == n && forall k :: 0 <= k < n ==> PacingOf(n, m)[k] == DelayOf(Round(k, m))
  {
    if n > 0 {
      PacingOfRounds(n - 1, m);
    }
  }

  /** How one round of steps ended. */
  datatype RoundEnd = Completed | DataEnd | CancelledNow

  /** The inner loop of one round: steps `base`, `base + 1`, ... of round
      `jj`, each followed by the round's pause when it succeeded. */
  method RunRound(outcome: nat -> bool, cancel: nat -> bool, ghost limit: nat, ghost stop: nat,
                  m: nat, jj: nat, base: nat, delay: nat, requested: seq<nat>, pacing: seq<nat>)
    returns (requested': seq<nat>, pacing': seq<nat>, e: RoundEnd)
    requires stop <= limit && base + m <= limit && base <= stop
    requires forall k :: 0 <= k < stop ==> outcome(k) && !cancel(k)
    requires stop < limit ==> cancel(stop) || !outcome(stop)
    requires base == Steps(jj, m) && (m > 0 ==> delay == DelayOf(jj))
    requires requested == Indices(base) && pacing == PacingOf(base, m)
    ensures e == Completed ==> base + m <= stop && requested' == Indices(base + m) && pacing' == PacingOf(base + m, m)
    ensures e != Completed ==> stop < limit && requested' == Indices(stop + 1) && pacing' == PacingOf(stop, m) && Round(stop, m) == jj
    ensures e == DataEnd ==> !cancel(stop) && !outcome(stop)
    ensures e == CancelledNow ==> cancel(stop)
  {
    requested', pacing' := requested, pacing;
    var ii := 0;
    while ii < m
      invariant 0 <= ii <= m
      invariant base + ii <= stop
      invariant requested' == Indices(base + ii) && pacing' == PacingOf(base + ii, m)
    {
      var total := ii + base;
      RoundOfStep(jj, ii, m);
      requested' := requested' + [total];
      var success := outcome(total);
      if cancel(total) {
        assert total == stop;
        return requested', pacing', CancelledNow;
      }
      if !success {
        assert total == stop;
        return requested', pacing', DataEnd;
      }
      pacing' := pacing' + [delay];
      ii := ii + 1;
    }
    e := Completed;
  }

  /** The state between two rounds: `jj` rounds done, every step so far
      successful, the pause and the breathers of round `jj`. */
  ghost predicate Between(m: nat, merge: bool, stop: nat, jj: nat, requested: seq<nat>, pacing: seq<nat>,
                          sleepDelay: nat, breathers: nat)
  {
    && Steps(jj, m) <= stop && requested == Indices(Steps(jj, m)) && pacing == PacingOf(Steps(jj, m), m)
    && sleepDelay == DelayOf(if merge then 0 else jj) && breathers == (if merge then 0 else jj)
  }

  /** The state after the step `stop` failed or was cancelled. */
  ghost predicate Stopped(m: nat, merge: bool, limit: nat, stop: nat, requested: seq<nat>, pacing: seq<nat>, breathers: nat)
  {
    stop < limit && requested == Indices(stop + 1) && pacing == PacingOf(stop, m)
    && breathers == (if merge then 0 else Round(stop, m))
  }

  /** One pass of the outer loop: a round of steps and, when the round
      completed in a session that is not merging, the doubled pause and a
      breather. */
  method OuterStep(outcome: nat -> bool, cancel: nat -> bool, ghost limit: nat, ghost stop: nat,
                   m: nat, merge: bool, jj: nat, sleepDelay: nat, breathers: nat,
                   requested: seq<nat>, pacing: seq<nat>)
    returns (requested': seq<nat>, pacing': seq<nat>, sleepDelay': nat, breathers': nat, e: RoundEnd)
    requires stop <= limit && Steps(jj, m) + m <= limit && jj < Rounds(merge)
    requires forall k :: 0 <= k < stop ==> outcome(k) && !cancel(k)
    requires stop < limit ==> cancel(stop) || !outcome(stop)
    requires Between(m, merge, stop, jj, requested, pacing, sleepDelay, breathers)
    ensures e == Completed ==> Between(m, merge, stop, jj + 1, requested', pacing', sleepDelay', breathers')
    ensures e != Completed ==> Stopped(m, merge, limit, stop, requested', pacing', breathers')
    ensures e == DataEnd ==> !cancel(stop) && !outcome(stop)
    ensures e == CancelledNow ==> cancel(stop)
  {
    requested', pacing', e := RunRound(outcome, cancel, limit, stop, m, jj, Steps(jj, m), sleepDelay, requested, pacing);
    sleepDelay', breathers' := sleepDelay, breathers;
    if e == Completed && !merge {
      sleepDelay' := if 2 * sleepDelay < MAX_DELAY then 2 * sleepDelay else MAX_DELAY;
      breathers' := breathers + 1;
    }
    assert Steps(jj + 1, m) == Steps(jj, m) + m;
  }

  /** The two nested loops of a session that went ahead: rounds of
      `m` steps, at most `Rounds(merge)` of them. `cancelled` is whether
      the session stopped at a cancelled step. */
  method RunSteps(m: nat, merge: bool, outcome: nat -> bool, cancel: nat -> bool)
    returns (requested: seq<nat>, pacing: seq<nat>, breathers: nat, cancelled: bool)
    ensures var limit := Steps(Rounds(merge), m);
            var stop := FirstStop(outcome, cancel, 0, limit);
            && requested == Indices(if stop < limit then stop + 1 else limit)
            && (cancelled <==> stop < limit && cancel(stop))
            && pacing == PacingOf(stop, m)
            && breathers == (if merge then 0 else if stop < limit then Round(stop, m) else Rounds(merge))
  {
    var retries := Rounds(merge);
    ghost var limit := Steps(retries, m);
    ghost var stop := FirstStop(outcome, cancel, 0, limit);
    var hitDataEnd := false;
    var sleepDelay: nat := FIRST_DELAY;
    requested, pacing, breathers := [], [], 0;
    var jj := 0;
    while jj < retries && !hitDataEnd
      invariant 0 <= jj <= retries
      invariant !hitDataEnd ==> Between(m, merge, stop, jj, requested, pacing, sleepDelay, breathers)
      invariant hitDataEnd ==> Stopped(m, merge, limit, stop, requested, pacing, breathers) && !cancel(stop)
      decreases retries - jj
    {
      StepsMonotone(jj, retries, m);
      var e;
      requested, pacing, sleepDelay, breathers, e :=
        OuterStep(outcome, cancel, limit, stop, m, merge, jj, sleepDelay, breathers, requested, pacing);
      if e == CancelledNow {
        return requested, pacing, breathers, true;
      }
      hitDataEnd := e == DataEnd;
      jj := jj + 1;
    }
    cancelled := false;
  }

  /** One session. `outcome(k)` is whether step `k` (page `k`) succeeded;
      `cancel(k)` is whether the cancel button had been pressed when step
      `k` returned. Steps 0, 1, 2, ... run in order until the first one
      that failed or was cancelled, at most `Rounds(merge) * maxpostpages`
      of them; a cancelled session is not saved. */
  method RunSession(username: string, maxpostpages: nat, merge: bool, confirmed: bool,
                    outcome: nat -> bool, cancel: nat -> bool) returns (s: Session)
    ensures s.end == Declined <==> !merge && !confirmed
    ensures s.end == NeedSignin <==> (merge || confirmed) && username == ""
    ensures s.end in {Declined, NeedSignin} ==> s.requested == [] && s.pacing == [] && s.breathers == 0
    ensures s.end in {Cancelled, Saved} ==>
              var limit := Steps(Rounds(merge), maxpostpages);
              var stop := FirstStop(outcome, cancel, 0, limit);
              && s.requested == Indices(if stop < limit then stop + 1 else limit)
              && (s.end == Cancelled <==> stop < limit && cancel(stop))
              && s.pacing == PacingOf(stop, maxpostpages)
              && s.breathers == (if merge then 0 else if stop < limit then Round(stop, maxpostpages) else Rounds(merge))
  {
    if !merge && !confirmed {
      return Session([], [], 0, Declined);
    }
    if username == "" {
      return Session([], [], 0, NeedSignin);
    }
    var requested, pacing, breathers, cancelled := RunSteps(maxpostpages, merge, outcome, cancel);
    s := Session(requested, pacing, breathers, if cancelled then Cancelled else Saved);
  }
}
