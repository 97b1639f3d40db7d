/**
 * Time bookkeeping shared by the components: the cooldown gate with its
 * "never fired" start value, the spacing of accepted actions that the gates
 * guarantee, and the countdowns that stand for coroutines waiting on
 * WaitForSeconds.
 */
module Timing {

  /** A recorded time, or the initial `-Mathf.Infinity`. */
  datatype Stamp = NegInfinity | At(t: real)

  /**
   * `now - last >= cooldown`, where now minus minus infinity is plus
   * infinity, which passes every finite cooldown.
   */
  function CooldownElapsed(now: real, last: Stamp, cooldown: real): (ready: bool)
    ensures last == NegInfinity ==> ready
    ensures last.At? ==> (ready <==> now >= last.t + cooldown)
  {
    match last
    case NegInfinity => true
    case At(t) => now - t >= cooldown
  }

  /** Once the cooldown has elapsed it stays elapsed while no new attack is recorded. */
  lemma CooldownStaysElapsed(now: real, later: real, last: Stamp, cooldown: real)
    requires now <= later && CooldownElapsed(now, last, cooldown)
    ensures CooldownElapsed(later, last, cooldown)
  {
  }

  /**
   * The initial `lastAttackTime = -Infinity` lets the first attack through
   * at any time: CooldownElapsed's contract, instantiated at that value.
   */
  lemma NeverFiredIsReady(now: real, cooldown: real)
    ensures CooldownElapsed(now, NegInfinity, cooldown)
  {
  }

  /** Consecutive entries of `ts` are at least `gap` apart. */
  ghost predicate SpacedAtLeast(ts: seq<real>, gap: real) {
    forall i :: 0 < i < |ts| ==> ts[i] - ts[i - 1] >= gap
  }

  /** Consecutive entries of `ts` are more than `gap` apart. */
  ghost predicate SpacedMoreThan(ts: seq<real>, gap: real) {
    forall i :: 0 < i < |ts| ==> ts[i] - ts[i - 1] > gap
  }

  /** An event that passes the gate against the last one keeps the spacing. */
  lemma AppendSpacedAtLeast(ts: seq<real>, gap: real, t: real)
    requires SpacedAtLeast(ts, gap)
    requires ts != [] ==> t - ts[|ts| - 1] >= gap
    ensures SpacedAtLeast(ts + [t], gap)
  {
  }

  lemma AppendSpacedMoreThan(ts: seq<real>, gap: real, t: real)
    requires SpacedMoreThan(ts, gap)
    requires ts != [] ==> t - ts[|ts| - 1] > gap
    ensures SpacedMoreThan(ts + [t], gap)
  {
  }

  /** A gate of "at least gap" between consecutive events bounds every pair. */
  lemma {:induction false} SpacedAtLeastPairwise(ts: seq<real>, gap: real, i: nat, j: nat)
    requires SpacedAtLeast(ts, gap)
    requires i <= j < |ts|
    ensures ts[j] - ts[i] >= (j - i) as real * gap
    decreases j - i
  {
    if i < j {
      SpacedAtLeastPairwise(ts, gap, i, j - 1);
      assert ts[j] - ts[j - 1] >= gap;
      assert (j - i) as real * gap == (j - 1 - i) as real * gap + gap;
    }
  }

  /** A gate of "more than gap" between consecutive events bounds every pair. */
  lemma {:induction false} SpacedMoreThanPairwise(ts: seq<real>, gap: real, i: nat, j: nat)
    requires SpacedMoreThan(ts, gap)
    requires i < j < |ts|
    ensures ts[j] - ts[i] > (j - i) as real * gap
    decreases j - i
  {
    if i + 1 < j {
      SpacedMoreThanPairwise(ts, gap, i, j - 1);
      assert ts[j] - ts[j - 1] > gap;
      assert (j - i) as real * gap == (j - 1 - i) as real * gap + gap;
    }
  }

  /** With a non-negative gap, any two distinct events are at least gap apart. */
  lemma AnyTwoAtLeast(ts: seq<real>, gap: real, i: nat, j: nat)
    requires SpacedAtLeast(ts, gap) && gap >= 0.0
    requires i < j < |ts|
    ensures ts[j] - ts[i] >= gap
  {
    SpacedAtLeastPairwise(ts, gap, i, j);
    ScaledGapAtLeastGap((j - i) as real, gap);
  }

  /** With a non-negative gap, any two distinct events are more than gap apart. */
  lemma AnyTwoMoreThan(ts: seq<real>, gap: real, i: nat, j: nat)
    requires SpacedMoreThan(ts, gap) && gap >= 0.0
    requires i < j < |ts|
    ensures ts[j] - ts[i] > gap
  {
    SpacedMoreThanPairwise(ts, gap, i, j);
    ScaledGapAtLeastGap((j - i) as real, gap);
  }

  lemma ScaledGapAtLeastGap(n: real, gap: real)
    requires n >= 1.0 && gap >= 0.0
    ensures n * gap >= gap
  {
    assert n * gap - gap == (n - 1.0) * gap;
    assert (n - 1.0) * gap >= 0.0;
  }

  /** Some waiting coroutine's remaining time runs out within a frame of length dt. */
  predicate AnyFinishes(waits: seq<real>, dt: real) {
    exists k :: 0 <= k < |waits| && waits[k] - dt <= 0.0
  }

  /**
   * The remaining waits of the coroutines still suspended after a frame of
   * length dt: each wait shrinks by dt and those that reach 0 resume and end.
   */
  function Advance(waits: seq<real>, dt: real): (r: seq<real>)
    ensures |r| <= |waits|
    ensures |r| == |waits| <==> !AnyFinishes(waits, dt)
    ensures !AnyFinishes(waits, dt) ==> forall k :: 0 <= k < |r| ==> r[k] == waits[k] - dt
    ensures forall k :: 0 <= k < |r| ==> r[k] > 0.0
  {
    if waits == [] then []
    else
      var rest := Advance(waits[1..], dt);
      assert AnyFinishes(waits, dt) <==> waits[0] - dt <= 0.0 || AnyFinishes(waits[1..], dt) by {
        if AnyFinishes(waits[1..], dt) {
          var k :| 0 <= k < |waits[1..]| && waits[1..][k] - dt <= 0.0;
          assert waits[k + 1] - dt <= 0.0;
        }
        if AnyFinishes(waits, dt) && waits[0] - dt > 0.0 {
          var k :| 0 <= k < |waits| && waits[k] - dt <= 0.0;
          assert k > 0 && waits[1..][k - 1] - dt <= 0.0;
        }
      }
      if waits[0] - dt > 0.0 then [waits[0] - dt] + rest else rest
  }

  /** Every wait still positive after dt is kept by Advance, reduced by dt. */
  lemma {:induction false} AdvanceKeepsSurvivors(waits: seq<real>, dt: real, k: nat)
    requires k < |waits| && waits[k] - dt > 0.0
    ensures waits[k] - dt in Advance(waits, dt)
    decreases k
  {
    var rest := Advance(waits[1..], dt);
    assert Advance(waits, dt) == if waits[0] - dt > 0.0 then [waits[0] - dt] + rest else rest;
    if k > 0 {
      assert waits[k] == waits[1..][k - 1];
      AdvanceKeepsSurvivors(waits[1..], dt, k - 1);
    }
  }

  /** Every wait Advance keeps is some wait reduced by dt. */
  lemma {:induction false} AdvanceKeepsNothingElse(waits: seq<real>, dt: real, x: real)
    requires x in Advance(waits, dt)
    ensures exists k :: 0 <= k < |waits| && x == waits[k] - dt
    decreases |waits|
  {
    var rest := Advance(waits[1..], dt);
    assert Advance(waits, dt) == if waits[0] - dt > 0.0 then [waits[0] - dt] + rest else rest;
    if x in rest {
      AdvanceKeepsNothingElse(waits[1..], dt, x);
      var k :| 0 <= k < |waits[1..]| && x == waits[1..][k] - dt;
      assert x == waits[k + 1] - dt;
    } else {
      assert x == waits[0] - dt;
    }
  }
}
