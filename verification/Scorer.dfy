/** `risk/scorer.py`: the decayed risk score over an agent's resolved actions. The decay is
    any function with the laws of `0.5 ** (age / half-life)` that the claims need. */
module Scorer {
  import opened Records
  import opened Tables
  import StoreModule

  const HALF_LIFE := 600.0

  type Decay = real -> real

  ghost predicate IsHalfLifeDecay(decay: Decay) {
    && (forall a :: a <= 0.0 ==> decay(a) == 1.0)
    && (forall a, b :: a >= 0.0 && b == a + HALF_LIFE ==> decay(b) == decay(a) / 2.0)
    && (forall a, b :: a <= b ==> decay(b) <= decay(a))
    && (forall a :: decay(a) > 0.0)
  }

  /** A decay with these laws: straight lines between the powers of one half. */
  function LinearDecay(a: real): (d: real)
    ensures 0.0 < d <= 1.0
    ensures a <= 0.0 ==> d == 1.0
    decreases if a <= 0.0 then 0.0 else a
  {
    if a <= 0.0 then 1.0
    else if a < HALF_LIFE then 1.0 - a / (2.0 * HALF_LIFE)
    else LinearDecay(a - HALF_LIFE) / 2.0
  }

  lemma {:induction false} LinearDecayFalls(a: real, b: real)
    requires a <= b
    ensures LinearDecay(b) <= LinearDecay(a)
    decreases if b <= 0.0 then 0.0 else b
  {
    if b >= HALF_LIFE && a >= HALF_LIFE {
      LinearDecayFalls(a - HALF_LIFE, b - HALF_LIFE);
    } else if b >= HALF_LIFE && a > 0.0 {
      assert LinearDecay(b) <= 0.5;
      assert LinearDecay(a) >= 0.5;
    }
  }

  lemma {:induction false} DecayExists()
    ensures IsHalfLifeDecay(LinearDecay)
  {
    forall a: real, b: real | a <= b ensures LinearDecay(b) <= LinearDecay(a) {
      LinearDecayFalls(a, b);
    }
    forall a, b | a >= 0.0 && b == a + HALF_LIFE ensures LinearDecay(b) == LinearDecay(a) / 2.0 {
    }
  }

  function BaseWeight(level: RiskLevel): real {
    match level
    case LOW => 1.0
    case MEDIUM => 5.0
    case HIGH => 25.0
  }

  /** `_event_weight` */
  function EventWeight(a: Action): real {
    if a.riskLevel == HIGH && a.status == DENIED then 50.0 else BaseWeight(a.riskLevel)
  }

  /** The event's weight plus the novel-resource bonus. */
  function Weight(a: Action): real {
    EventWeight(a) + if a.novel then 20.0 else 0.0
  }

  predicate Counts(a: Action, agentId: string) {
    a.agentId == agentId && a.status != PENDING
  }

  /** `action.resolved_at or action.requested_at`: a zero time counts as missing. */
  function ScoredAt(a: Action): real {
    if a.resolvedAt.Some? && a.resolvedAt.value != 0.0 then a.resolvedAt.value else a.requestedAt
  }

  ghost function Contribution(a: Action, agentId: string, now: real, decay: Decay): real {
    if Counts(a, agentId) then Weight(a) * decay(now - ScoredAt(a)) else 0.0
  }

  ghost function Score(rows: seq<Action>, agentId: string, now: real, decay: Decay): real {
    if rows == [] then 0.0
    else Score(rows[..|rows| - 1], agentId, now, decay) + Contribution(rows[|rows| - 1], agentId, now, decay)
  }

  lemma {:induction false} ScoreStep(rows: seq<Action>, n: nat, agentId: string, now: real, decay: Decay)
    requires n < |rows|
    ensures Score(rows[..n + 1], agentId, now, decay) ==
      Score(rows[..n], agentId, now, decay) + Contribution(rows[n], agentId, now, decay)
  {
    assert rows[..n + 1][..n] == rows[..n];
  }

  lemma {:induction false} Contributes(a: Action, agentId: string, now: real, decay: Decay, weight: real, age: real)
    requires Counts(a, agentId) && weight == Weight(a) && age == now - ScoredAt(a)
    ensures weight * decay(age) == Contribution(a, agentId, now, decay)
  {
  }

  class RiskScorer {
    const store: StoreModule.Store

    constructor (store: StoreModule.Store)
      ensures this.store == store
    {
      this.store := store;
    }

    /** `compute_score` */
    method ComputeScore(agentId: string, now: real, decay: Decay) returns (score: real)
      requires Indexed(store.actions)
      ensures exists rows :: Lists(rows, store.actions, None) && score == Score(rows, agentId, now, decay)
    {
      var actions := store.ListActions(None);
      score := 0.0;
      for n := 0 to |actions|
        invariant score == Score(actions[..n], agentId, now, decay)
      {
        var action := actions[n];
        ScoreStep(actions, n, agentId, now, decay);
        if action.agentId == agentId && action.status != PENDING {
          var age := now - ScoredAt(action);
          var weight := EventWeight(action);
          if action.novel {
            weight := weight + 20.0;
          }
          Contributes(action, agentId, now, decay, weight, age);
          score := score + weight * decay(age);
        }
      }
      assert actions[..|actions|] == actions;
    }
  }

  // ---- One action -------------------------------------------------------------

  /** When an action counts from: its resolution, or its request where there is none on record. */
  ghost predicate CountsFrom(a: Action, at: real) {
    || (a.resolvedAt == Some(at) && at != 0.0)
    || ((a.resolvedAt == None || a.resolvedAt == Some(0.0)) && a.requestedAt == at)
  }

  /** What one action alone scores at the time it counts from: 1, 5 or 25 by its level, but 50 for
      a denied HIGH one, and 20 more if it is novel. Another agent's action and one that is still
      PENDING score nothing at any time. */
  lemma {:induction false} OneActionScores(a: Action, agentId: string, at: real, decay: Decay)
    requires IsHalfLifeDecay(decay) && CountsFrom(a, at)
    ensures a.agentId == agentId && a.status != PENDING ==>
      Score([a], agentId, at, decay) ==
        (if a.riskLevel == LOW then 1.0
         else if a.riskLevel == MEDIUM then 5.0
         else if a.status == DENIED then 50.0
         else 25.0)
        + (if a.novel then 20.0 else 0.0)
    ensures a.agentId != agentId || a.status == PENDING ==> forall now :: Score([a], agentId, now, decay) == 0.0
  {
    assert [a][..0] == [];
    assert decay(at - at) == 1.0;
  }

  // ---- Decay over whole half-lives --------------------------------------------

  function TwoTo(k: nat): real {
    if k == 0 then 1.0 else 2.0 * TwoTo(k - 1)
  }

  ghost predicate NothingInTheFuture(rows: seq<Action>, agentId: string, now: real) {
    forall i :: 0 <= i < |rows| && Counts(rows[i], agentId) ==> ScoredAt(rows[i]) <= now
  }

  lemma {:induction false} OneHalfLife(rows: seq<Action>, agentId: string, now: real, decay: Decay)
    requires IsHalfLifeDecay(decay) && NothingInTheFuture(rows, agentId, now)
    ensures Score(rows, agentId, now + HALF_LIFE, decay) == Score(rows, agentId, now, decay) / 2.0
  {
    if rows != [] {
      var rest, a := rows[..|rows| - 1], rows[|rows| - 1];
      OneHalfLife(rest, agentId, now, decay);
      if Counts(a, agentId) {
        var age := now - ScoredAt(a);
        assert decay(age + HALF_LIFE) == decay(age) / 2.0;
        assert (now + HALF_LIFE) - ScoredAt(a) == age + HALF_LIFE;
        assert Weight(a) * (decay(age) / 2.0) == (Weight(a) * decay(age)) / 2.0;
      }
    }
  }

  /** x halved k times. */
  function Halved(x: real, k: nat): real {
    if k == 0 then x else Halved(x, k - 1) / 2.0
  }

  lemma {:induction false} HalvedIsDivided(x: real, k: nat)
    ensures Halved(x, k) * TwoTo(k) == x && TwoTo(k) > 0.0
  {
    if k > 0 {
      HalvedIsDivided(x, k - 1);
    }
  }

  lemma {:induction false} FutureStaysEmpty(rows: seq<Action>, agentId: string, now: real, later: real)
    requires NothingInTheFuture(rows, agentId, now) && now <= later
    ensures NothingInTheFuture(rows, agentId, later)
  {
  }

  function After(now: real, k: nat): real {
    now + k as real * HALF_LIFE
  }

  lemma {:induction false} AfterStep(now: real, k: nat)
    requires k > 0
    ensures After(now, k) == After(now, k - 1) + HALF_LIFE && now <= After(now, k - 1)
  {
  }

  /** With no new actions and no new flags, letting k half-lives pass halves the score k
      times, which divides it by exactly 2^k. */
  lemma {:induction false} HalfLivesHalve(rows: seq<Action>, agentId: string, now: real, decay: Decay, k: nat)
    requires IsHalfLifeDecay(decay) && NothingInTheFuture(rows, agentId, now)
    ensures Score(rows, agentId, After(now, k), decay) == Halved(Score(rows, agentId, now, decay), k)
  {
    if k == 0 {
      assert After(now, 0) == now;
    } else {
      AfterStep(now, k);
      HalfLivesHalve(rows, agentId, now, decay, k - 1);
      FutureStaysEmpty(rows, agentId, now, After(now, k - 1));
      OneHalfLife(rows, agentId, After(now, k - 1), decay);
    }
  }

  // ---- The bound --------------------------------------------------------------

  ghost function DecaySum(ages: seq<real>, decay: Decay): real {
    if ages == [] then 0.0 else decay(ages[0]) + DecaySum(ages[1..], decay)
  }

  ghost predicate Spaced(ages: seq<real>) {
    && (forall i :: 0 <= i < |ages| ==> ages[i] >= 0.0)
    && (forall i, j :: 0 <= i < j < |ages| ==> ages[i] >= ages[j] + HALF_LIFE || ages[j] >= ages[i] + HALF_LIFE)
  }

  lemma {:induction false} SumWithout(ages: seq<real>, m: nat, decay: Decay)
    requires m < |ages|
    ensures DecaySum(ages, decay) == decay(ages[m]) + DecaySum(ages[..m] + ages[m + 1..], decay)
  {
    if m == 0 {
      assert ages[..0] + ages[1..] == ages[1..];
    } else {
      SumWithout(ages[1..], m - 1, decay);
      assert (ages[..m] + ages[m + 1..])[1..] == ages[1..][..m - 1] + ages[1..][m..];
    }
  }

  function Younger(ages: seq<real>): seq<real> {
    seq(|ages|, i requires 0 <= i < |ages| => ages[i] - HALF_LIFE)
  }

  lemma {:induction false} SumYounger(ages: seq<real>, decay: Decay)
    requires IsHalfLifeDecay(decay) && forall i :: 0 <= i < |ages| ==> ages[i] >= HALF_LIFE
    ensures DecaySum(Younger(ages), decay) == 2.0 * DecaySum(ages, decay)
  {
    if ages != [] {
      SumYounger(ages[1..], decay);
      assert Younger(ages)[1..] == Younger(ages[1..]);
      assert decay((ages[0] - HALF_LIFE) + HALF_LIFE) == decay(ages[0] - HALF_LIFE) / 2.0;
    }
  }

  lemma {:induction false} Youngest(ages: seq<real>) returns (m: nat)
    requires ages != []
    ensures m < |ages| && forall i :: 0 <= i < |ages| ==> ages[m] <= ages[i]
  {
    m := 0;
    for n := 1 to |ages|
      invariant m < |ages| && forall i :: 0 <= i < n ==> ages[m] <= ages[i]
    {
      if ages[n] < ages[m] { m := n; }
    }
  }

  lemma {:induction false} OthersAreYounger(ages: seq<real>, m: nat)
    requires Spaced(ages) && m < |ages| && forall i :: 0 <= i < |ages| ==> ages[m] <= ages[i]
    ensures var rest := ages[..m] + ages[m + 1..];
      (forall i :: 0 <= i < |rest| ==> rest[i] >= HALF_LIFE) && Spaced(Younger(rest))
  {
    var rest := ages[..m] + ages[m + 1..];
    assert forall i :: 0 <= i < |rest| ==> rest[i] == if i < m then ages[i] else ages[i + 1];
  }

  /** Ages at least one half-life apart, in any order, decay to less than 2 in all. */
  lemma {:induction false} SpacedSum(ages: seq<real>, decay: Decay)
    requires IsHalfLifeDecay(decay) && Spaced(ages)
    ensures DecaySum(ages, decay) < 2.0
    decreases |ages|
  {
    if ages != [] {
      var m := Youngest(ages);
      var rest := ages[..m] + ages[m + 1..];
      OthersAreYounger(ages, m);
      SumWithout(ages, m, decay);
      SumYounger(rest, decay);
      SpacedSum(Younger(rest), decay);
      assert decay(ages[m]) <= decay(0.0) == 1.0;
    }
  }

  ghost function AgesOf(rows: seq<Action>, agentId: string, now: real): seq<real> {
    if rows == [] then []
    else
      var a := rows[|rows| - 1];
      (if Counts(a, agentId) then [now - ScoredAt(a)] else []) + AgesOf(rows[..|rows| - 1], agentId, now)
  }

  lemma {:induction false} WeightBound(w: real, d: real)
    requires 0.0 <= w <= 70.0 && d > 0.0
    ensures 0.0 <= w * d <= 70.0 * d
  {
  }

  lemma {:induction false} ContributionBound(a: Action, agentId: string, now: real, decay: Decay)
    requires IsHalfLifeDecay(decay)
    ensures 0.0 <= Contribution(a, agentId, now, decay)
    ensures Counts(a, agentId) ==> Contribution(a, agentId, now, decay) <= 70.0 * decay(now - ScoredAt(a))
    ensures !Counts(a, agentId) ==> Contribution(a, agentId, now, decay) == 0.0
  {
    WeightBound(Weight(a), decay(now - ScoredAt(a)));
  }

  lemma {:induction false} ScoreWithinSum(rows: seq<Action>, agentId: string, now: real, decay: Decay)
    requires IsHalfLifeDecay(decay)
    ensures 0.0 <= Score(rows, agentId, now, decay) <= 70.0 * DecaySum(AgesOf(rows, agentId, now), decay)
  {
    if rows != [] {
      var a := rows[|rows| - 1];
      var rest := rows[..|rows| - 1];
      ScoreWithinSum(rest, agentId, now, decay);
      ContributionBound(a, agentId, now, decay);
      var ages := AgesOf(rest, agentId, now);
      if Counts(a, agentId) {
        assert AgesOf(rows, agentId, now) == [now - ScoredAt(a)] + ages;
        assert ([now - ScoredAt(a)] + ages)[1..] == ages;
      } else {
        assert AgesOf(rows, agentId, now) == ages;
      }
    }
  }

  /** An agent's scored actions are resolved by now, pairwise at least one half-life apart. */
  ghost predicate SpacedOut(rows: seq<Action>, agentId: string, now: real) {
    && NothingInTheFuture(rows, agentId, now)
    && forall i, j :: 0 <= i < j < |rows| && Counts(rows[i], agentId) && Counts(rows[j], agentId) ==>
         ScoredAt(rows[i]) >= ScoredAt(rows[j]) + HALF_LIFE || ScoredAt(rows[j]) >= ScoredAt(rows[i]) + HALF_LIFE
  }

  ghost predicate AgeOfSome(x: real, rows: seq<Action>, agentId: string, now: real) {
    exists i :: 0 <= i < |rows| && Counts(rows[i], agentId) && x == now - ScoredAt(rows[i])
  }

  lemma {:induction false} AgesAreOfRows(rows: seq<Action>, agentId: string, now: real, k: nat)
    requires k < |AgesOf(rows, agentId, now)|
    ensures AgeOfSome(AgesOf(rows, agentId, now)[k], rows, agentId, now)
  {
    var rest, last := rows[..|rows| - 1], rows[|rows| - 1];
    if Counts(last, agentId) && k == 0 {
      assert Counts(rows[|rows| - 1], agentId);
    } else {
      var k' := if Counts(last, agentId) then k - 1 else k;
      AgesAreOfRows(rest, agentId, now, k');
      var x := AgesOf(rest, agentId, now)[k'];
      var i :| 0 <= i < |rest| && Counts(rest[i], agentId) && x == now - ScoredAt(rest[i]);
      assert rows[i] == rest[i];
    }
  }

  ghost predicate Apart(age: real, ages: seq<real>) {
    forall k :: 0 <= k < |ages| ==> age >= ages[k] + HALF_LIFE || ages[k] >= age + HALF_LIFE
  }

  lemma {:induction false} SpacedCons(age: real, ages: seq<real>)
    requires age >= 0.0 && Spaced(ages)
    requires Apart(age, ages)
    ensures Spaced([age] + ages)
  {
    var all := [age] + ages;
    assert forall i :: 0 < i < |all| ==> all[i] == ages[i - 1];
  }

  lemma {:induction false} LastIsSpaced(rows: seq<Action>, agentId: string, now: real)
    requires SpacedOut(rows, agentId, now) && rows != [] && Counts(rows[|rows| - 1], agentId)
    ensures var age := now - ScoredAt(rows[|rows| - 1]); var ages := AgesOf(rows[..|rows| - 1], agentId, now);
      age >= 0.0 && Apart(age, ages)
  {
    var rest := rows[..|rows| - 1];
    var age, ages := now - ScoredAt(rows[|rows| - 1]), AgesOf(rest, agentId, now);
    forall k | 0 <= k < |ages| ensures age >= ages[k] + HALF_LIFE || ages[k] >= age + HALF_LIFE {
      AgesAreOfRows(rest, agentId, now, k);
      var i :| 0 <= i < |rest| && Counts(rest[i], agentId) && ages[k] == now - ScoredAt(rest[i]);
      assert rows[i] == rest[i];
    }
  }

  lemma {:induction false} AgesSpaced(rows: seq<Action>, agentId: string, now: real)
    requires SpacedOut(rows, agentId, now)
    ensures Spaced(AgesOf(rows, agentId, now))
  {
    if rows != [] {
      var rest, last := rows[..|rows| - 1], rows[|rows| - 1];
      assert forall i :: 0 <= i < |rest| ==> rest[i] == rows[i];
      AgesSpaced(rest, agentId, now);
      var ages := AgesOf(rest, agentId, now);
      if Counts(last, agentId) {
        LastIsSpaced(rows, agentId, now);
        SpacedCons(now - ScoredAt(last), ages);
        assert AgesOf(rows, agentId, now) == [now - ScoredAt(last)] + ages;
      } else {
        assert AgesOf(rows, agentId, now) == ages;
      }
    }
  }

  /** However many actions there are, if their resolution times are at least one half-life
      apart the score stays strictly below 140. */
  lemma {:induction false} SparseScoreIsBounded(rows: seq<Action>, agentId: string, now: real, decay: Decay)
    requires IsHalfLifeDecay(decay) && SpacedOut(rows, agentId, now)
    ensures 0.0 <= Score(rows, agentId, now, decay) < 140.0
  {
    AgesSpaced(rows, agentId, now);
    SpacedSum(AgesOf(rows, agentId, now), decay);
    ScoreWithinSum(rows, agentId, now, decay);
  }
}
