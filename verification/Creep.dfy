/** `gateway/creep.py`: novelty checks that run in the background while rows keep coming,
    and what their flags add to the score of `risk/scorer.py`. */
module Creep {
  import opened Records
  import opened Scorer
  import opened Tables

  /** A check is scheduled, or has found its action novel and is about to flag it. */
  datatype Task = Scheduled | Marking

  /** Rows in insertion order, the background tasks by action id, and the ids of the checks
      that were lost to an error or a restart. */
  datatype State = State(rows: seq<Action>, tasks: map<string, Task>, lost: set<string>)

  const START := State([], map[], {})

  datatype Step =
    | Insert(row: Action)
    | Resolve(n: nat, outcome: Outcome)
    | Schedule(n: nat)
    | Look(n: nat)
    | Mark(n: nat)
    | Lose(id: string)

  predicate SamePair(a: Action, b: Action) {
    a.agentId == b.agentId && a.resourceName == b.resourceName
  }

  predicate HasRow(rows: seq<Action>, id: string) {
    exists i :: 0 <= i < |rows| && rows[i].actionId == id
  }

  /** `_is_novel`: no other action of the same agent on the same resource. */
  predicate IsNovel(rows: seq<Action>, action: Action) {
    !exists i :: 0 <= i < |rows| && SamePair(rows[i], action) && rows[i].actionId != action.actionId
  }

  /** The check of row `n` is at the given point. */
  predicate TaskAt(s: State, n: nat, task: Task) {
    n < |s.rows| && s.rows[n].actionId in s.tasks && s.tasks[s.rows[n].actionId] == task
  }

  /** One step; None where it is not enabled. Any row may be inserted, with or without a check:
      compensation rows have none. */
  function Take(s: State, step: Step): Option<State> {
    match step
    case Insert(row) =>
      if HasRow(s.rows, row.actionId) || row.novel then None else Some(s.(rows := s.rows + [row]))
    case Resolve(n, o) =>
      if n < |s.rows| && s.rows[n].status == PENDING
      then Some(s.(rows := s.rows[n := s.rows[n].(status := o.status, decidedBy := o.decidedBy,
        resolvedAt := o.resolvedAt)]))
      else None
    case Schedule(n) =>
      if n < |s.rows| && s.rows[n].resourceName.Some? && s.rows[n].resourceName.value != ""
        && s.rows[n].actionId !in s.tasks
      then Some(s.(tasks := s.tasks[s.rows[n].actionId := Scheduled]))
      else None
    case Look(n) =>
      if TaskAt(s, n, Scheduled) then
        var id := s.rows[n].actionId;
        Some(s.(tasks := if IsNovel(s.rows, s.rows[n]) then s.tasks[id := Marking] else s.tasks - {id}))
      else None
    case Mark(n) =>
      if TaskAt(s, n, Marking)
      then Some(s.(rows := s.rows[n := s.rows[n].(novel := true)], tasks := s.tasks - {s.rows[n].actionId}))
      else None
    case Lose(id) =>
      if id in s.tasks then Some(s.(tasks := s.tasks - {id}, lost := s.lost + {id})) else None
  }

  ghost predicate Next(s: State, t: State) {
    exists step :: Take(s, step) == Some(t)
  }

  ghost predicate StepsAt(run: seq<State>, i: nat)
    requires i + 1 < |run|
  {
    Next(run[i], run[i + 1])
  }

  ghost predicate IsRun(run: seq<State>) {
    run != [] && run[0] == START && forall i :: 0 <= i < |run| - 1 ==> StepsAt(run, i)
  }

  // ---- The invariant ----------------------------------------------------------

  /** No earlier row is of the same agent on the same resource. */
  ghost predicate FirstOfPair(rows: seq<Action>, n: nat)
    requires n < |rows|
  {
    forall i :: 0 <= i < n ==> !SamePair(rows[i], rows[n])
  }

  ghost predicate Marked(s: State, n: nat)
    requires n < |s.rows|
  {
    s.rows[n].novel || TaskAt(s, n, Marking)
  }

  ghost predicate Inv(s: State) {
    && DistinctIds(s.rows)
    && (forall id :: id in s.tasks ==> HasRow(s.rows, id))
    && (forall n :: 0 <= n < |s.rows| && Marked(s, n) ==> FirstOfPair(s.rows, n))
  }

  /** A row keeps its id and its pair, and a flag once set. */
  predicate SameRow(a: Action, b: Action) {
    a.actionId == b.actionId && SamePair(a, b) && (a.novel ==> b.novel)
  }

  /** New rows come last, old ones only gain the novel flag, and no loss is forgotten. */
  ghost predicate Grows(s: State, t: State) {
    && |s.rows| <= |t.rows| && s.lost <= t.lost
    && forall n :: 0 <= n < |s.rows| ==> SameRow(s.rows[n], t.rows[n])
  }

  lemma {:induction false} HasRowAfter(s: State, t: State, id: string)
    requires Grows(s, t) && HasRow(s.rows, id)
    ensures HasRow(t.rows, id)
  {
    var i :| 0 <= i < |s.rows| && s.rows[i].actionId == id;
    assert t.rows[i].actionId == id;
  }

  lemma {:induction false} StepGrows(s: State, step: Step, t: State)
    requires Take(s, step) == Some(t)
    ensures Grows(s, t)
  {
  }

  lemma {:induction false} GrowsFurther(s: State, t: State, u: State)
    requires Grows(s, t) && Grows(t, u)
    ensures Grows(s, u)
  {
    forall n | 0 <= n < |s.rows| ensures SameRow(s.rows[n], u.rows[n]) {
      assert SameRow(s.rows[n], t.rows[n]) && SameRow(t.rows[n], u.rows[n]);
    }
  }

  lemma {:induction false} IdsStayDistinct(s: State, step: Step, t: State)
    requires DistinctIds(s.rows) && Take(s, step) == Some(t)
    ensures DistinctIds(t.rows)
  {
  }

  lemma {:induction false} TasksHaveRows(s: State, step: Step, t: State)
    requires (forall id :: id in s.tasks ==> HasRow(s.rows, id)) && Take(s, step) == Some(t) && Grows(s, t)
    ensures forall id :: id in t.tasks ==> HasRow(t.rows, id)
  {
    forall id | id in t.tasks ensures HasRow(t.rows, id) {
      if id in s.tasks {
        HasRowAfter(s, t, id);
      } else {
        assert t.rows[step.n].actionId == id;
      }
    }
  }

  /** No other row is of the same agent on the same resource. */
  ghost predicate Alone(rows: seq<Action>, n: nat)
    requires n < |rows|
  {
    forall m :: 0 <= m < |rows| && m != n ==>
      rows[m].agentId != rows[n].agentId || rows[m].resourceName != rows[n].resourceName
  }

  lemma {:induction false} NovelIsAlone(rows: seq<Action>, n: nat)
    requires DistinctIds(rows) && n < |rows|
    ensures IsNovel(rows, rows[n]) <==> Alone(rows, n)
  {
  }

  /** The check of row `n` looks in this step and finds its row alone in its pair. */
  ghost predicate LooksAlone(s: State, t: State, n: nat) {
    n < |s.rows| && Take(s, Look(n)) == Some(t) && Alone(s.rows, n)
  }

  /** Only such a look marks a row. */
  lemma {:induction false} NewlyMarked(s: State, step: Step, t: State, n: nat)
    requires Inv(s) && Take(s, step) == Some(t) && n < |t.rows|
    ensures Marked(t, n) ==> n < |s.rows| && (Marked(s, n) || LooksAlone(s, t, n))
  {
    if n < |s.rows| {
      NovelIsAlone(s.rows, n);
    }
  }

  lemma {:induction false} MarkedIsFirst(s: State, step: Step, t: State, n: nat)
    requires Inv(s) && Take(s, step) == Some(t) && Grows(s, t) && n < |t.rows| && Marked(t, n)
    ensures FirstOfPair(t.rows, n)
  {
    NewlyMarked(s, step, t, n);
    assert FirstOfPair(s.rows, n);
    forall i | 0 <= i < n ensures !SamePair(t.rows[i], t.rows[n]) {
      assert SameRow(s.rows[i], t.rows[i]) && SameRow(s.rows[n], t.rows[n]);
    }
  }

  lemma {:induction false} StepKeeps(s: State, step: Step, t: State)
    requires Inv(s) && Take(s, step) == Some(t)
    ensures Inv(t) && Grows(s, t)
  {
    StepGrows(s, step, t);
    IdsStayDistinct(s, step, t);
    TasksHaveRows(s, step, t);
    forall n | 0 <= n < |t.rows| && Marked(t, n) ensures FirstOfPair(t.rows, n) {
      MarkedIsFirst(s, step, t, n);
    }
  }

  lemma {:induction false} NextKeeps(s: State, t: State)
    requires Inv(s) && Next(s, t)
    ensures Inv(t) && Grows(s, t)
  {
    var step :| Take(s, step) == Some(t);
    StepKeeps(s, step, t);
  }

  lemma {:induction false} RunSteps(run: seq<State>, i: nat)
    requires IsRun(run) && i + 1 < |run|
    ensures Next(run[i], run[i + 1])
  {
    assert StepsAt(run, i);
  }

  lemma {:induction false} RunKeeps(run: seq<State>, i: nat)
    requires IsRun(run) && i < |run|
    ensures Inv(run[i])
  {
    if i > 0 {
      RunKeeps(run, i - 1);
      RunSteps(run, i - 1);
      NextKeeps(run[i - 1], run[i]);
    }
  }

  lemma {:induction false} RunGrows(run: seq<State>, i: nat, j: nat)
    requires IsRun(run) && i <= j < |run|
    ensures Grows(run[i], run[j])
    decreases j - i
  {
    if i < j {
      RunGrows(run, i, j - 1);
      RunKeeps(run, j - 1);
      RunSteps(run, j - 1);
      NextKeeps(run[j - 1], run[j]);
      GrowsFurther(run[i], run[j - 1], run[j]);
    }
  }

  // ---- Who is flagged ---------------------------------------------------------

  /** In every interleaving a flagged action is the earliest inserted one of its agent on its
      resource, so at most one per pair is ever flagged. */
  lemma {:induction false} FlaggedIsTheEarliest(run: seq<State>, i: nat, n: nat)
    requires IsRun(run) && i < |run| && n < |run[i].rows| && run[i].rows[n].novel
    ensures FirstOfPair(run[i].rows, n)
    ensures var rows := run[i].rows;
      forall m :: 0 <= m < |rows| && m != n
                  && rows[m].agentId == rows[n].agentId && rows[m].resourceName == rows[n].resourceName ==>
        n < m && !rows[m].novel
  {
    RunKeeps(run, i);
    assert Marked(run[i], n);
    forall m | 0 <= m < |run[i].rows| && m != n && SamePair(run[i].rows[m], run[i].rows[n])
      ensures !run[i].rows[m].novel {
      if run[i].rows[m].novel { assert Marked(run[i], m); }
    }
  }

  ghost predicate LooksAloneAt(run: seq<State>, i: nat, n: nat) {
    i + 1 < |run| && LooksAlone(run[i], run[i + 1], n)
  }

  lemma {:induction false} MarkedHasLooked(run: seq<State>, j: nat, n: nat)
    requires IsRun(run) && j < |run| && n < |run[j].rows| && Marked(run[j], n)
    ensures exists i :: 0 <= i < j && LooksAloneAt(run, i, n)
  {
    if j > 0 {
      RunKeeps(run, j - 1);
      RunSteps(run, j - 1);
      var step :| Take(run[j - 1], step) == Some(run[j]);
      NewlyMarked(run[j - 1], step, run[j], n);
      if Marked(run[j - 1], n) {
        MarkedHasLooked(run, j - 1, n);
      } else {
        assert LooksAloneAt(run, j - 1, n);
      }
    }
  }

  lemma {:induction false} MarkedStays(s: State, step: Step, t: State, n: nat)
    requires Inv(s) && Take(s, step) == Some(t) && n < |s.rows| && Marked(s, n) && s.rows[n].actionId !in t.lost
    ensures n < |t.rows| && Marked(t, n)
  {
    StepGrows(s, step, t);
    assert SameRow(s.rows[n], t.rows[n]);
  }

  lemma {:induction false} LookMarks(s: State, t: State, n: nat)
    requires Inv(s) && LooksAlone(s, t, n)
    ensures n < |t.rows| && Marked(t, n)
  {
    NovelIsAlone(s.rows, n);
  }

  lemma {:induction false} MarkedNext(s: State, t: State, n: nat)
    requires Inv(s) && Next(s, t) && n < |s.rows| && Marked(s, n) && s.rows[n].actionId !in t.lost
    ensures n < |t.rows| && Marked(t, n)
  {
    var step :| Take(s, step) == Some(t);
    MarkedStays(s, step, t, n);
  }

  /** The row is where it was, with the id it had. */
  lemma {:induction false} RowStays(run: seq<State>, i: nat, j: nat, n: nat)
    requires IsRun(run) && i <= j < |run| && n < |run[i].rows|
    ensures n < |run[j].rows| && run[j].rows[n].actionId == run[i].rows[n].actionId && run[i].lost <= run[j].lost
  {
    RunGrows(run, i, j);
    assert SameRow(run[i].rows[n], run[j].rows[n]);
  }

  lemma {:induction false} LookedStaysMarked(run: seq<State>, i: nat, j: nat, n: nat)
    requires IsRun(run) && i < j < |run| && LooksAloneAt(run, i, n)
    requires run[i].rows[n].actionId !in run[j].lost
    ensures n < |run[j].rows| && Marked(run[j], n)
    decreases j
  {
    RunKeeps(run, j - 1);
    if i == j - 1 {
      LookMarks(run[i], run[j], n);
    } else {
      RowStays(run, i, j - 1, n);
      RowStays(run, j - 1, j, n);
      RunSteps(run, j - 1);
      LookedStaysMarked(run, i, j - 1, n);
      MarkedNext(run[j - 1], run[j], n);
    }
  }

  /** In every run, an action whose check was not lost is flagged, or about to be, exactly when
      its check has looked while the action was alone in its pair; once the check is over, it
      is flagged exactly then. Whatever was inserted after the look makes no difference. */
  lemma {:induction false} LookDecides(run: seq<State>, j: nat, n: nat)
    requires IsRun(run) && j < |run| && n < |run[j].rows| && run[j].rows[n].actionId !in run[j].lost
    ensures Marked(run[j], n) <==> exists i :: 0 <= i < j && LooksAloneAt(run, i, n)
    ensures run[j].rows[n].actionId !in run[j].tasks ==>
      (run[j].rows[n].novel <==> exists i :: 0 <= i < j && LooksAloneAt(run, i, n))
  {
    if Marked(run[j], n) {
      MarkedHasLooked(run, j, n);
    }
    if i :| 0 <= i < j && LooksAloneAt(run, i, n) {
      RowStays(run, i, j, n);
      LookedStaysMarked(run, i, j, n);
    }
  }

  /** While the row is alone, a check goes away only by flagging it or by being lost. */
  lemma {:induction false} CheckGoesOn(s: State, step: Step, t: State, n: nat)
    requires Inv(s) && Take(s, step) == Some(t) && n < |s.rows| && Alone(s.rows, n)
    requires s.rows[n].actionId in s.tasks || s.rows[n].novel
    ensures n < |t.rows| && (s.rows[n].actionId in t.lost || s.rows[n].actionId in t.tasks || t.rows[n].novel)
  {
    StepGrows(s, step, t);
    assert SameRow(s.rows[n], t.rows[n]);
    NovelIsAlone(s.rows, n);
  }

  lemma {:induction false} AloneBefore(s: State, t: State, n: nat)
    requires Grows(s, t) && n < |s.rows| && Alone(t.rows, n)
    ensures Alone(s.rows, n)
  {
    forall m | 0 <= m < |s.rows| && m != n ensures !SamePair(s.rows[m], s.rows[n]) {
      assert SameRow(s.rows[m], t.rows[m]) && SameRow(s.rows[n], t.rows[n]);
    }
  }

  lemma {:induction false} CheckNext(s: State, t: State, n: nat)
    requires Inv(s) && Next(s, t) && n < |s.rows| && n < |t.rows| && Alone(t.rows, n)
    requires s.rows[n].actionId in s.tasks || s.rows[n].novel
    ensures s.rows[n].actionId in t.lost || s.rows[n].actionId in t.tasks || t.rows[n].novel
  {
    var step :| Take(s, step) == Some(t);
    StepGrows(s, step, t);
    AloneBefore(s, t, n);
    CheckGoesOn(s, step, t, n);
  }

  lemma {:induction false} CheckOfLoneRow(run: seq<State>, i: nat, j: nat, n: nat)
    requires IsRun(run) && i <= j < |run| && n < |run[i].rows| && run[i].rows[n].actionId in run[i].tasks
    requires n < |run[j].rows| && Alone(run[j].rows, n) && run[i].rows[n].actionId !in run[j].lost
    ensures run[i].rows[n].actionId in run[j].tasks || run[j].rows[n].novel
    decreases j
  {
    if i < j {
      RunKeeps(run, j - 1);
      RowStays(run, i, j - 1, n);
      RowStays(run, j - 1, j, n);
      RunGrows(run, j - 1, j);
      AloneBefore(run[j - 1], run[j], n);
      CheckOfLoneRow(run, i, j - 1, n);
      RunSteps(run, j - 1);
      CheckNext(run[j - 1], run[j], n);
    }
  }

  /** An action is flagged if its check is over without a loss before the second insert of its
      pair, whatever else was inserted or checked meanwhile. */
  lemma {:induction false} CheckedInTimeIsFlagged(run: seq<State>, i: nat, j: nat, n: nat)
    requires IsRun(run) && i <= j < |run| && n < |run[i].rows| && run[i].rows[n].actionId in run[i].tasks
    requires run[i].rows[n].actionId !in run[j].tasks && run[i].rows[n].actionId !in run[j].lost
    requires n < |run[j].rows| && Alone(run[j].rows, n)
    ensures run[j].rows[n].novel
  {
    CheckOfLoneRow(run, i, j, n);
  }

  /** The action names a resource. */
  predicate NamesResource(a: Action) {
    a.resourceName.Some? && a.resourceName.value != ""
  }

  /** Checks and flags are for actions that name a resource. */
  ghost predicate OnlyResources(s: State) {
    forall n :: 0 <= n < |s.rows| && (s.rows[n].actionId in s.tasks || s.rows[n].novel) ==> NamesResource(s.rows[n])
  }

  lemma {:induction false} StepOnlyResources(s: State, step: Step, t: State)
    requires Inv(s) && OnlyResources(s) && Take(s, step) == Some(t)
    ensures OnlyResources(t)
  {
  }

  lemma {:induction false} NextOnlyResources(s: State, t: State)
    requires Inv(s) && OnlyResources(s) && Next(s, t)
    ensures OnlyResources(t)
  {
    var step :| Take(s, step) == Some(t);
    StepOnlyResources(s, step, t);
  }

  lemma {:induction false} RunOnlyResources(run: seq<State>, i: nat)
    requires IsRun(run) && i < |run|
    ensures OnlyResources(run[i])
  {
    if i > 0 {
      RunOnlyResources(run, i - 1);
      RunKeeps(run, i - 1);
      RunSteps(run, i - 1);
      NextOnlyResources(run[i - 1], run[i]);
    }
  }

  /** An action that names no resource is never flagged. */
  lemma {:induction false} FlaggedNamesResource(run: seq<State>, i: nat, n: nat)
    requires IsRun(run) && i < |run| && n < |run[i].rows| && run[i].rows[n].novel
    ensures run[i].rows[n].resourceName != None && run[i].rows[n].resourceName != Some("")
  {
    RunOnlyResources(run, i);
  }

  // ---- Races ------------------------------------------------------------------

  /** A pair with two rows and nobody marked yet. */
  ghost predicate Raced(s: State, m: nat, n: nat) {
    && m < n < |s.rows| && SamePair(s.rows[m], s.rows[n])
    && forall k :: 0 <= k < |s.rows| && SamePair(s.rows[k], s.rows[n]) ==> !Marked(s, k)
  }

  lemma {:induction false} RacedIsNotAlone(s: State, m: nat, n: nat, k: nat)
    requires Raced(s, m, n) && k < |s.rows| && SamePair(s.rows[k], s.rows[n])
    ensures !Alone(s.rows, k) && !Marked(s, k)
  {
    var other := if k == m then n else m;
    assert SamePair(s.rows[other], s.rows[k]);
  }

  lemma {:induction false} RacedRow(s: State, step: Step, t: State, m: nat, n: nat, k: nat)
    requires Inv(s) && Take(s, step) == Some(t) && Grows(s, t) && Raced(s, m, n)
    requires k < |t.rows| && SamePair(t.rows[k], t.rows[n])
    ensures !Marked(t, k)
  {
    NewlyMarked(s, step, t, k);
    if k < |s.rows| {
      assert SameRow(s.rows[k], t.rows[k]) && SameRow(s.rows[n], t.rows[n]);
      RacedIsNotAlone(s, m, n, k);
    }
  }

  lemma {:induction false} RacedNext(s: State, t: State, m: nat, n: nat)
    requires Inv(s) && Next(s, t) && Raced(s, m, n)
    ensures Raced(t, m, n)
  {
    var step :| Take(s, step) == Some(t);
    StepGrows(s, step, t);
    assert SameRow(s.rows[m], t.rows[m]) && SameRow(s.rows[n], t.rows[n]);
    forall k | 0 <= k < |t.rows| && SamePair(t.rows[k], t.rows[n]) ensures !Marked(t, k) {
      RacedRow(s, step, t, m, n, k);
    }
  }

  /** If the second action on a resource comes before the first one's check has looked, no
      action on that resource is ever flagged: the novelty is lost for good. */
  lemma {:induction false} RacedPairIsNeverFlagged(run: seq<State>, i: nat, j: nat, m: nat, n: nat)
    requires IsRun(run) && i <= j < |run| && Raced(run[i], m, n)
    ensures Raced(run[j], m, n)
    decreases j - i
  {
    if i < j {
      RacedPairIsNeverFlagged(run, i, j - 1, m, n);
      RunKeeps(run, j - 1);
      RunSteps(run, j - 1);
      RacedNext(run[j - 1], run[j], m, n);
    }
  }

  lemma {:induction false} RunOn(run: seq<State>, step: Step)
    requires IsRun(run) && Take(run[|run| - 1], step).Some?
    ensures IsRun(run + [Take(run[|run| - 1], step).value])
  {
    var next := run + [Take(run[|run| - 1], step).value];
    forall i | 0 <= i < |next| - 1 ensures StepsAt(next, i) {
      if i < |run| - 1 {
        assert StepsAt(run, i);
        assert next[i] == run[i] && next[i + 1] == run[i + 1];
      } else {
        assert Take(next[i], step) == Some(next[i + 1]);
      }
    }
  }

  /** Two first touches do race: there is such a run for any two new actions of one agent on one
      resource. Both checks are still to come, and both actions miss their flag for good. */
  lemma {:induction false} RacedHappens(a: Action, b: Action) returns (run: seq<State>)
    requires a.agentId == b.agentId && a.resourceName == b.resourceName
    requires a.actionId != b.actionId && !a.novel && !b.novel
    requires a.resourceName.Some? && a.resourceName.value != ""
    ensures IsRun(run)
    ensures run[|run| - 1] == State([a, b], map[a.actionId := Scheduled, b.actionId := Scheduled], {})
    ensures Raced(run[|run| - 1], 0, 1)
  {
    assert START.rows + [a] == [a] && [a] + [b] == [a, b];
    run := [START];
    RunOn(run, Insert(a));
    run := run + [State([a], map[], {})];
    RunOn(run, Schedule(0));
    run := run + [State([a], map[][a.actionId := Scheduled], {})];
    RunOn(run, Insert(b));
    run := run + [State([a, b], map[][a.actionId := Scheduled], {})];
    RunOn(run, Schedule(1));
    run := run + [State([a, b], map[][a.actionId := Scheduled][b.actionId := Scheduled], {})];
  }

  /** A lone first touch is flagged: there is such a run for any new action with a resource. */
  lemma {:induction false} FlagHappens(a: Action) returns (run: seq<State>)
    requires a.resourceName.Some? && a.resourceName.value != "" && !a.novel
    ensures IsRun(run) && run[|run| - 1] == State([a.(novel := true)], map[], {})
  {
    assert START.rows + [a] == [a];
    run := [START];
    RunOn(run, Insert(a));
    run := run + [State([a], map[], {})];
    RunOn(run, Schedule(0));
    run := run + [State([a], map[][a.actionId := Scheduled], {})];
    RunOn(run, Look(0));
    run := run + [State([a], map[][a.actionId := Scheduled][a.actionId := Marking], {})];
    RunOn(run, Mark(0));
    assert map[][a.actionId := Scheduled][a.actionId := Marking] - {a.actionId} == map[];
    run := run + [State([a][0 := a.(novel := true)], map[], {})];
  }

  // ---- The bonus --------------------------------------------------------------

  /** What the flags add to an agent's score before decay. */
  ghost function Bonus(listed: seq<Action>, agentId: string): real {
    if listed == [] then 0.0
    else
      var a := listed[|listed| - 1];
      Bonus(listed[..|listed| - 1], agentId) + if Counts(a, agentId) then Weight(a) - EventWeight(a) else 0.0
  }

  /** The resources the agent has touched. */
  ghost function Resources(listed: seq<Action>, agentId: string): set<Option<string>> {
    set a | a in listed && a.agentId == agentId :: a.resourceName
  }

  ghost function FlaggedResources(listed: seq<Action>, agentId: string): set<Option<string>> {
    set a | a in listed && a.agentId == agentId && a.novel :: a.resourceName
  }

  ghost predicate OneFlagPerPair(listed: seq<Action>) {
    forall m, n :: 0 <= m < n < |listed| && listed[m].novel && listed[n].novel ==> !SamePair(listed[m], listed[n])
  }

  lemma {:induction false} LastFlagIsNew(listed: seq<Action>, agentId: string)
    requires listed != [] && OneFlagPerPair(listed)
    requires listed[|listed| - 1].novel && listed[|listed| - 1].agentId == agentId
    ensures listed[|listed| - 1].resourceName !in FlaggedResources(listed[..|listed| - 1], agentId)
  {
    var rest, a := listed[..|listed| - 1], listed[|listed| - 1];
    forall b | b in rest && b.agentId == agentId && b.novel ensures b.resourceName != a.resourceName {
      var m :| 0 <= m < |rest| && rest[m] == b;
      assert !SamePair(listed[m], a);
    }
  }

  lemma {:induction false} LastFlagged(listed: seq<Action>, agentId: string)
    requires listed != []
    ensures var rest, a := listed[..|listed| - 1], listed[|listed| - 1];
      FlaggedResources(listed, agentId)
      == FlaggedResources(rest, agentId) + if a.novel && a.agentId == agentId then {a.resourceName} else {}
  {
    assert listed == listed[..|listed| - 1] + [listed[|listed| - 1]];
  }

  lemma {:induction false} LastFlag(listed: seq<Action>, agentId: string)
    requires listed != [] && OneFlagPerPair(listed)
    ensures var rest, a := listed[..|listed| - 1], listed[|listed| - 1];
      && OneFlagPerPair(rest)
      && |FlaggedResources(rest, agentId)| + (if a.novel && a.agentId == agentId then 1 else 0) ==
        |FlaggedResources(listed, agentId)|
  {
    var rest, a := listed[..|listed| - 1], listed[|listed| - 1];
    assert forall n :: 0 <= n < |rest| ==> rest[n] == listed[n];
    LastFlagged(listed, agentId);
    if a.novel && a.agentId == agentId {
      LastFlagIsNew(listed, agentId);
    }
  }

  lemma {:induction false} BonusWithinFlags(listed: seq<Action>, agentId: string)
    requires OneFlagPerPair(listed)
    ensures Bonus(listed, agentId) <= 20.0 * |FlaggedResources(listed, agentId)| as real
  {
    if listed != [] {
      LastFlag(listed, agentId);
      BonusWithinFlags(listed[..|listed| - 1], agentId);
    }
  }

  lemma {:induction false} FlaggedAreTouched(listed: seq<Action>, agentId: string)
    ensures |FlaggedResources(listed, agentId)| <= |Resources(listed, agentId)|
  {
    var flagged, all := FlaggedResources(listed, agentId), Resources(listed, agentId);
    assert flagged <= all;
    assert |all - flagged| == |all| - |flagged|;
  }

  /** The same actions with their flags taken off. */
  function Unflagged(listed: seq<Action>): seq<Action> {
    seq(|listed|, i requires 0 <= i < |listed| => listed[i].(novel := false))
  }

  lemma {:induction false} DecayedBonus(a: Action, agentId: string, now: real, decay: Decay)
    requires IsHalfLifeDecay(decay)
    ensures Contribution(a, agentId, now, decay) <=
      Contribution(a.(novel := false), agentId, now, decay) + if Counts(a,
        agentId) then Weight(a) - EventWeight(a) else 0.0
  {
    var d := decay(now - ScoredAt(a));
    assert d <= 1.0 by {
      assert decay(0.0) == 1.0;
      if now - ScoredAt(a) > 0.0 { assert d <= decay(0.0); }
    }
  }

  lemma {:induction false} ScoreWithinBonus(listed: seq<Action>, agentId: string, now: real, decay: Decay)
    requires IsHalfLifeDecay(decay)
    ensures Score(listed, agentId, now, decay) <= Score(Unflagged(listed), agentId, now, decay) + Bonus(listed, agentId)
  {
    if listed != [] {
      var rest := listed[..|listed| - 1];
      ScoreWithinBonus(rest, agentId, now, decay);
      DecayedBonus(listed[|listed| - 1], agentId, now, decay);
      assert Unflagged(listed)[..|listed| - 1] == Unflagged(rest);
    }
  }

  lemma {:induction false} ListedFlags(run: seq<State>, i: nat, listed: seq<Action>)
    requires IsRun(run) && i < |run| && DistinctIds(listed) && forall a :: a in listed ==> a in run[i].rows
    ensures OneFlagPerPair(listed)
  {
    forall m, n | 0 <= m < n < |listed| && listed[m].novel && listed[n].novel ensures !SamePair(listed[m], listed[n]) {
      assert listed[m] in run[i].rows && listed[n] in run[i].rows;
      var x :| 0 <= x < |run[i].rows| && run[i].rows[x] == listed[m];
      var y :| 0 <= y < |run[i].rows| && run[i].rows[y] == listed[n];
      FlaggedIsTheEarliest(run, i, y);
    }
  }

  /** So in any listing of the rows, in any order, the flags add at most 20 to the agent's score
      per distinct resource the agent has touched: before decay, and in the decayed score. */
  lemma {:induction false} BonusWithinPairs(run: seq<State>, i: nat, listed: seq<Action>, agentId: string, now: real,
      decay: Decay)
    requires IsRun(run) && i < |run| && DistinctIds(listed) && forall a :: a in listed ==> a in run[i].rows
    requires IsHalfLifeDecay(decay)
    ensures Bonus(listed, agentId) <= 20.0 * |Resources(listed, agentId)| as real
    ensures Score(listed, agentId, now, decay) <=
      Score(Unflagged(listed), agentId, now, decay) + 20.0 * |Resources(listed, agentId)| as real
  {
    ListedFlags(run, i, listed);
    BonusWithinFlags(listed, agentId);
    FlaggedAreTouched(listed, agentId);
    ScoreWithinBonus(listed, agentId, now, decay);
  }
}
