/** `gateway/loops.py`: how many calls of a burst the background loop checks report. */
module Loops {
  import opened Records

  /** The calls an agent repeats: same tool, same argument summary. */
  datatype Pattern = Pattern(agentId: string, tool: string, argsSummary: Option<string>)

  predicate Fits(a: Action, p: Pattern) {
    a.agentId == p.agentId && a.tool == p.tool && a.argsSummary == p.argsSummary
  }

  function PatternOf(a: Action): Pattern {
    Pattern(a.agentId, a.tool, a.argsSummary)
  }

  /** `_count_recent_repeats` over the rows it lists. */
  function CountRecentRepeats(rows: seq<Action>, p: Pattern, actionId: string, since: real): nat {
    if rows == [] then 0
    else
      var a := rows[|rows| - 1];
      CountRecentRepeats(rows[..|rows| - 1], p, actionId, since)
      + if Fits(a, p) && a.actionId != actionId && a.requestedAt >= since then 1 else 0
  }

  /** When a check runs: the number of rows inserted by then, and the clock. */
  datatype Check = Check(visible: nat, now: real)

  /** The check of row `n`, run at `check`, reports a loop. */
  predicate Reports(rows: seq<Action>, n: nat, check: Check, window: real, threshold: nat)
    requires n < |rows| && check.visible <= |rows|
  {
    CountRecentRepeats(rows[..check.visible], PatternOf(rows[n]), rows[n].actionId, check.now - window) >= threshold
  }

  /** Rows in insertion order, one check per row, each run after its row was inserted. */
  ghost predicate IsHistory(rows: seq<Action>, checks: seq<Check>) {
    && |checks| == |rows|
    && (forall i, j :: 0 <= i < j < |rows| ==> rows[i].actionId != rows[j].actionId)
    && (forall n :: 0 <= n < |rows| ==> n < checks[n].visible <= |rows|)
  }

  /** Every check of the pattern runs within the window measured from its first call. */
  ghost predicate WithinWindow(rows: seq<Action>, checks: seq<Check>, p: Pattern, window: real)
    requires |checks| == |rows|
  {
    forall m, n :: 0 <= m < |rows| && 0 <= n < |rows| && Fits(rows[m], p) && Fits(rows[n], p) ==>
      rows[m].requestedAt >= checks[n].now - window
  }

  function CountFits(rows: seq<Action>, p: Pattern): nat {
    if rows == [] then 0 else CountFits(rows[..|rows| - 1], p) + if Fits(rows[|rows| - 1], p) then 1 else 0
  }

  /** The rows among the first `k` that fit the pattern and whose checks report. */
  function CountReports(rows: seq<Action>, checks: seq<Check>, p: Pattern, window: real, threshold: nat, k: nat): nat
    requires |checks| == |rows| && k <= |rows|
    requires forall n :: 0 <= n < |rows| ==> checks[n].visible <= |rows|
  {
    if k == 0 then 0
    else CountReports(rows, checks, p, window, threshold, k - 1)
         + if Fits(rows[k - 1], p) && Reports(rows, k - 1, checks[k - 1], window, threshold) then 1 else 0
  }

  lemma {:induction false} MoreRowsMoreRepeats(rows: seq<Action>, p: Pattern, actionId: string, since: real, k: nat)
    requires k <= |rows|
    ensures CountRecentRepeats(rows[..k], p, actionId, since) <= CountRecentRepeats(rows, p, actionId, since)
  {
    if k < |rows| {
      MoreRowsMoreRepeats(rows[..|rows| - 1], p, actionId, since, k);
      assert rows[..|rows| - 1][..k] == rows[..k];
    } else {
      assert rows[..k] == rows;
    }
  }

  /** Rows of the pattern inside the window, none of them the action itself, all count. */
  lemma {:induction false} AllFitsAreRepeats(rows: seq<Action>, p: Pattern, actionId: string, since: real)
    requires forall i :: 0 <= i < |rows| ==> rows[i].actionId != actionId
    requires forall i :: 0 <= i < |rows| && Fits(rows[i], p) ==> rows[i].requestedAt >= since
    ensures CountRecentRepeats(rows, p, actionId, since) == CountFits(rows, p)
  {
    if rows != [] {
      AllFitsAreRepeats(rows[..|rows| - 1], p, actionId, since);
    }
  }

  /** The check of row `n` counts at least the rows of its pattern inserted before it. */
  lemma {:induction false} EarlierFitsAreSeen(rows: seq<Action>, checks: seq<Check>, p: Pattern, window: real, n: nat)
    requires IsHistory(rows, checks) && WithinWindow(rows, checks, p, window)
    requires n < |rows| && Fits(rows[n], p)
    ensures CountRecentRepeats(rows[..checks[n].visible], p, rows[n].actionId,
      checks[n].now - window) >= CountFits(rows[..n], p)
  {
    var seen := rows[..checks[n].visible];
    MoreRowsMoreRepeats(seen, p, rows[n].actionId, checks[n].now - window, n);
    assert seen[..n] == rows[..n];
    AllFitsAreRepeats(rows[..n], p, rows[n].actionId, checks[n].now - window);
  }

  lemma {:induction false} ReportsKeepUp(rows: seq<Action>, checks: seq<Check>, p: Pattern, window: real,
      threshold: nat, k: nat)
    requires IsHistory(rows, checks) && WithinWindow(rows, checks, p, window) && k <= |rows|
    ensures CountReports(rows, checks, p, window, threshold, k) >= CountFits(rows[..k], p) - threshold
  {
    if k > 0 {
      ReportsKeepUp(rows, checks, p, window, threshold, k - 1);
      assert rows[..k][..k - 1] == rows[..k - 1];
      if Fits(rows[k - 1], p) {
        EarlierFitsAreSeen(rows, checks, p, window, k - 1);
        assert PatternOf(rows[k - 1]) == p;
      }
    }
  }

  /** The positions of the calls of a pattern since a time, the action itself apart. */
  function Repeats(rows: seq<Action>, p: Pattern, actionId: string, since: real): set<int> {
    set i | 0 <= i < |rows|
            && rows[i].agentId == p.agentId && rows[i].tool == p.tool && rows[i].argsSummary == p.argsSummary
            && rows[i].actionId != actionId && rows[i].requestedAt >= since
  }

  lemma {:induction false} LastRepeats(rows: seq<Action>, p: Pattern, actionId: string, since: real)
    requires rows != []
    ensures var n := |rows| - 1;
      Repeats(rows, p, actionId, since) == Repeats(rows[..n], p, actionId, since)
        + if Fits(rows[n], p) && rows[n].actionId != actionId && rows[n].requestedAt >= since then {n} else {}
  {
  }

  lemma {:induction false} CountIsRepeats(rows: seq<Action>, p: Pattern, actionId: string, since: real)
    ensures CountRecentRepeats(rows, p, actionId, since) == |Repeats(rows, p, actionId, since)|
  {
    if rows != [] {
      CountIsRepeats(rows[..|rows| - 1], p, actionId, since);
      LastRepeats(rows, p, actionId, since);
    }
  }

  /** A check reports exactly if at least threshold other calls of the same agent, tool and arguments
      are in the listing and inside the window measured back from the check; older ones never count. */
  lemma {:induction false} ReportsExactlyWhen(rows: seq<Action>, n: nat, check: Check, window: real, threshold: nat)
    requires n < |rows| && check.visible <= |rows|
    ensures var pattern := Pattern(rows[n].agentId, rows[n].tool, rows[n].argsSummary);
      Reports(rows, n, check, window, threshold)
      <==> |Repeats(rows[..check.visible], pattern, rows[n].actionId, check.now - window)| >= threshold
  {
    CountIsRepeats(rows[..check.visible], PatternOf(rows[n]), rows[n].actionId, check.now - window);
  }

  /** In a burst of n calls of one pattern at least n minus the threshold are reported, however
      late and in whatever order the checks run inside the window. */
  lemma {:induction false} BurstIsReported(rows: seq<Action>, checks: seq<Check>, p: Pattern, window: real,
      threshold: nat)
    requires IsHistory(rows, checks) && WithinWindow(rows, checks, p, window)
    ensures CountReports(rows, checks, p, window, threshold, |rows|) >= CountFits(rows, p) - threshold
  {
    ReportsKeepUp(rows, checks, p, window, threshold, |rows|);
    assert rows[..|rows|] == rows;
  }

  lemma {:induction false} RepeatsWithinFits(rows: seq<Action>, p: Pattern, actionId: string, since: real)
    ensures CountRecentRepeats(rows, p, actionId, since) <= CountFits(rows, p)
  {
    if rows != [] {
      RepeatsWithinFits(rows[..|rows| - 1], p, actionId, since);
    }
  }

  /** An action never counts itself, so fewer repeats than rows of its pattern. */
  lemma {:induction false} RepeatsExcludeSelf(rows: seq<Action>, p: Pattern, n: nat, since: real)
    requires n < |rows| && Fits(rows[n], p)
    requires forall i :: 0 <= i < |rows| && i != n ==> rows[i].actionId != rows[n].actionId
    ensures CountRecentRepeats(rows, p, rows[n].actionId, since) < CountFits(rows, p)
  {
    var rest := rows[..|rows| - 1];
    if n < |rest| {
      RepeatsExcludeSelf(rest, p, n, since);
    } else {
      RepeatsWithinFits(rest, p, rows[n].actionId, since);
    }
  }

  lemma {:induction false} FitsGrow(rows: seq<Action>, p: Pattern, k: nat)
    requires k <= |rows|
    ensures CountFits(rows[..k], p) <= CountFits(rows, p)
  {
    if k < |rows| {
      FitsGrow(rows[..|rows| - 1], p, k);
      assert rows[..|rows| - 1][..k] == rows[..k];
    } else {
      assert rows[..k] == rows;
    }
  }

  /** With at most threshold rows of a pattern in all, no check of it reports, whenever it runs
      and whatever the clock says. */
  lemma {:induction false} FewCallsAreNeverReported(rows: seq<Action>, checks: seq<Check>, window: real,
      threshold: nat, n: nat)
    requires IsHistory(rows, checks) && n < |rows|
    requires CountFits(rows, PatternOf(rows[n])) <= threshold
    ensures !Reports(rows, n, checks[n], window, threshold)
  {
    var seen := rows[..checks[n].visible];
    assert seen[n] == rows[n];
    RepeatsExcludeSelf(seen, PatternOf(rows[n]), n, checks[n].now - window);
    FitsGrow(rows, PatternOf(rows[n]), checks[n].visible);
  }
}
