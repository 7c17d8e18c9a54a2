/** `approval/manager.py`: the approval manager. Its coroutines are cut at their awaits;
    each method here is one stretch that runs without interference. */
module Approval {
  import opened Records
  import opened Tables
  import opened Holds
  import StoreModule

  function ExpiredRow(row: Action, now: real): Action {
    row.(status := EXPIRED, decidedBy := None, resolvedAt := Some(now))
  }

  /** `resume_stale_holds` on the table: every PENDING row expires, no other row changes. */
  function ExpireAll(t: ActionTable, now: real): ActionTable {
    map id | id in t :: if t[id].status == PENDING then ExpiredRow(t[id], now) else t[id]
  }

  /** The table when the rows of `done` have been expired. */
  ghost function ExpireThese(t: ActionTable, done: set<string>, now: real): ActionTable {
    map id | id in t :: if id in done then ExpiredRow(t[id], now) else t[id]
  }

  /** The rows of a listing, expired. */
  ghost function ExpiredRows(rows: seq<Action>, now: real): seq<Action> {
    seq(|rows|, i requires 0 <= i < |rows| => ExpiredRow(rows[i], now))
  }

  ghost function IdsOf(rows: seq<Action>): set<string> {
    set i | 0 <= i < |rows| :: rows[i].actionId
  }

  lemma {:induction false} ExpiredOneMore(rows: seq<Action>, n: nat, now: real)
    requires n < |rows|
    ensures ExpiredRows(rows[..n + 1], now) == ExpiredRows(rows[..n], now) + [ExpiredRow(rows[n], now)]
  {
  }

  lemma {:induction false} ExpireOneMore(t: ActionTable, rows: seq<Action>, n: nat, now: real)
    requires n < |rows| && DistinctIds(rows) && OnlyRowsOf(rows, t, Some(PENDING))
    ensures var id := rows[n].actionId; var before := ExpireThese(t, IdsOf(rows[..n]), now);
      && Resolves(before, id)
      && ResolveAction(before, id, Expired(now)) == ExpireThese(t, IdsOf(rows[..n + 1]), now)
      && id in ResolveAction(before, id, Expired(now))
      && ResolveAction(before, id, Expired(now))[id] == ExpiredRow(rows[n], now)
  {
    assert rows[n] in rows;
    assert IdsOf(rows[..n + 1]) == IdsOf(rows[..n]) + {rows[n].actionId};
    assert rows[n].actionId !in IdsOf(rows[..n]);
  }

  lemma {:induction false} ExpiredThemAll(t: ActionTable, rows: seq<Action>, now: real)
    requires Indexed(t) && Lists(rows, t, Some(PENDING))
    ensures ExpireThese(t, IdsOf(rows), now) == ExpireAll(t, now)
  {
    forall id | id in t ensures id in IdsOf(rows) <==> t[id].status == PENDING {
      assert forall i :: 0 <= i < |rows| ==> rows[i] in rows;
      if t[id].status == PENDING {
        assert t[id] in rows;
      }
    }
  }

  lemma {:induction false} ExpiredAreListed(t: ActionTable, rows: seq<Action>, now: real)
    requires Indexed(t) && Lists(rows, t, Some(PENDING))
    ensures DistinctIds(ExpiredRows(rows, now))
    ensures forall row: Action :: row in ExpiredRows(rows, now) <==>
      row.actionId in t && t[row.actionId].status == PENDING && row == ExpiredRow(t[row.actionId], now)
  {
    var expired := ExpiredRows(rows, now);
    assert forall i :: 0 <= i < |rows| ==> rows[i] in rows && expired[i] == ExpiredRow(rows[i], now);
    forall row: Action | row.actionId in t && t[row.actionId].status == PENDING
      && row == ExpiredRow(t[row.actionId], now)
      ensures row in expired
    {
      assert t[row.actionId] in rows;
      var i :| 0 <= i < |rows| && rows[i] == t[row.actionId];
      assert expired[i] == row;
    }
  }

  /** The row is approved or denied, by whom and when. */
  predicate SaysDecided(row: Action, approved: bool, decidedBy: string, now: real) {
    && row.status == (if approved then APPROVED else DENIED)
    && row.decidedBy == Some(decidedBy) && row.resolvedAt == Some(now)
  }

  /** The row after a decision: decided, by this decision if it was PENDING. */
  lemma {:induction false} DecisionTakes(t: ActionTable, id: string, approved: bool, decidedBy: string, now: real)
    requires id in t
    ensures var u := ResolveAction(t, id, Decided(approved, decidedBy, now));
      && id in u && u == t[id := u[id]] && SameRequest(t[id], u[id])
      && (t[id].status == PENDING ==> SaysDecided(u[id], approved, decidedBy, now))
      && (t[id].status != PENDING ==> u[id] == t[id])
  {
  }

  class Event {
    var isSet: bool

    constructor ()
      ensures !isSet
    {
      isSet := false;
    }
  }

  class ApprovalManager {
    const store: StoreModule.Store
    const heldRiskLevels: set<RiskLevel>
    var pendingEvents: map<string, Event>
    ghost var created: map<string, Event>  // every event ever registered, by action id
    ghost var resolvedLog: seq<Action>     // the rows published as action.resolved

    ghost predicate Valid()
      reads this
    {
      && (forall id :: id in pendingEvents ==> id in created && created[id] == pendingEvents[id])
      && (forall a, b :: a in created && b in created && a != b ==> created[a] != created[b])
    }

    ghost function Events(): set<Event>
      reads this
    {
      set id | id in created :: created[id]
    }

    ghost function View(): HoldMap
      reads this, Events()
    {
      HoldMap(pendingEvents.Keys, map id | id in created :: created[id].isSet)
    }

    constructor (store: StoreModule.Store, heldRiskLevels: set<RiskLevel>)
      ensures Valid() && this.store == store && this.heldRiskLevels == heldRiskLevels
      ensures View() == NO_HOLDS && created == map[] && resolvedLog == []
    {
      this.store, this.heldRiskLevels := store, heldRiskLevels;
      pendingEvents, created, resolvedLog := map[], map[], [];
    }

    /** `submit` up to its first await: the row is built and inserted. */
    method SubmitInsert(r: Request, id: string, now: real) returns (action: Action, ok: bool)
      modifies store`actions
      ensures action == NewAction(r, id, r.risk.riskLevel in heldRiskLevels, now)
      ensures RowOf(action, id, r, now) && action.decidedBy == None && !action.novel
      ensures r.risk.riskLevel in heldRiskLevels ==> action.status == PENDING && action.resolvedAt == None
      ensures r.risk.riskLevel !in heldRiskLevels ==> action.status == AUTO_ALLOWED && action.resolvedAt == Some(now)
      ensures ok <==> id !in old(store.actions)
      ensures store.actions == if ok then old(store.actions)[id := action] else old(store.actions)
    {
      var held := r.risk.riskLevel in heldRiskLevels;
      action := NewAction(r, id, held, now);
      ok := store.InsertAction(action);
    }

    /** `submit` after the insert, for a held action: only now does the event exist. */
    method SubmitRegister(id: string)
      requires Valid() && id !in created
      modifies this`pendingEvents, this`created
      ensures Valid() && created.Keys == old(created.Keys) + {id}
      ensures View() == Register(old(View()), id)
    {
      var event := new Event();
      pendingEvents := pendingEvents[id := event];
      created := created[id := event];
      assert View().flags == Register(old(View()), id).flags;
    }

    /** `submit` when nothing interferes. The returned copy says PENDING exactly when the
        action is held, and only then does an unset event wait for its decision. */
    method Submit(r: Request, id: string, now: real) returns (action: Action, ok: bool)
      requires Valid() && id !in created
      modifies store`actions, this`pendingEvents, this`created
      ensures Valid()
      ensures action == NewAction(r, id, r.risk.riskLevel in heldRiskLevels, now)
      ensures ok <==> id !in old(store.actions)
      ensures store.actions == if ok then old(store.actions)[id := action] else old(store.actions)
      ensures View() == if ok && action.status == PENDING then Register(old(View()), id) else old(View())
    {
      action, ok := SubmitInsert(r, id, now);
      if ok && r.risk.riskLevel in heldRiskLevels {
        SubmitRegister(id);
      }
    }

    /** The first line of `wait_for_decision`: whether there is an event to block on. */
    method WaitEnter(id: string) returns (event: Option<Event>)
      requires Valid()
      ensures event.Some? <==> id in View().pending
      ensures event.Some? ==> id in created && event.value == created[id]
    {
      if id in pendingEvents {
        event := Some(pendingEvents[id]);
      } else {
        event := None;
      }
    }

    /** The `finally` of `wait_for_decision`. */
    method WaitLeave(id: string)
      requires Valid()
      modifies this`pendingEvents
      ensures Valid() && View() == Forget(old(View()), id)
    {
      pendingEvents := map k | k in pendingEvents && k != id :: pendingEvents[k];
    }

    /** The UPDATE of the timeout path; its result is ignored there. */
    method ExpireRow(id: string, now: real) returns (won: bool)
      modifies store`actions
      ensures won <==> Resolves(old(store.actions), id)
      ensures store.actions == ResolveAction(old(store.actions), id, Expired(now))
    {
      won := store.ResolveAction(id, Expired(now));
    }

    /** The wait proper, with its timeout and its `finally`, when nothing interferes. */
    method WaitForEvent(id: string, event: Event, now: real) returns (expired: bool)
      requires Valid() && id in created && created[id] == event
      modifies this`pendingEvents, store`actions
      ensures Valid() && created == old(created)
      ensures expired <==> !old(View()).flags[id]
      ensures store.actions == if expired then ResolveAction(old(store.actions), id,
        Expired(now)) else old(store.actions)
      ensures View() == Forget(old(View()), id)
    {
      expired := !event.isSet;
      if expired {
        var won := ExpireRow(id, now);
      }
      WaitLeave(id);
    }

    /** `wait_for_decision` when nothing interferes: with no event it answers with the row as
        it stands, a set event ends the wait, and an unset one lets the timeout fire. Whenever
        a PENDING row has an unset event in the map, the answer is not PENDING. None where the
        source raises. */
    method WaitForDecision(id: string, now: real) returns (action: Option<Action>)
      requires Valid()
      modifies this`pendingEvents, this`resolvedLog, store`actions
      ensures Valid() && created == old(created)
      ensures action == if id in store.actions then Some(store.actions[id]) else None
      ensures var waits := id in old(View()).pending; var expires := waits && !old(View()).flags[id];
        && store.actions == (if expires then ResolveAction(old(store.actions), id,
          Expired(now)) else old(store.actions))
        && View() == (if waits then Forget(old(View()), id) else old(View()))
        && resolvedLog == old(resolvedLog) + (if expires && action.Some? then [action.value] else [])
      ensures
        var timedOut := id in old(View()).pending && !old(View()).flags[id];
        action.Some? && timedOut && old(store.actions)[id].status == PENDING ==>
          action.value.status == EXPIRED && action.value.decidedBy == None && action.value.resolvedAt == Some(now)
      ensures action.Some? ==>
        (old(store.actions)[id].status == PENDING ==> id in old(View()).pending && !old(View()).flags[id]) ==>
        action.value.status != PENDING
    {
      var event := WaitEnter(id);
      var expired := false;
      if event.Some? {
        expired := WaitForEvent(id, event.value, now);
      }
      action := store.GetAction(id);
      if expired && action.Some? {
        resolvedLog := resolvedLog + [action.value];
      }
    }

    /** The UPDATE of `decide`; its result is ignored there. */
    method DecideResolve(id: string, approved: bool, decidedBy: string, now: real) returns (won: bool)
      modifies store`actions
      ensures won <==> Resolves(old(store.actions), id)
      ensures store.actions == ResolveAction(old(store.actions), id, Decided(approved, decidedBy, now))
    {
      won := store.ResolveAction(id, Decided(approved, decidedBy, now));
    }

    /** `decide` between its UPDATE and its second read: pop the event, then set it. */
    method DecideRelease(id: string)
      requires Valid()
      modifies this`pendingEvents, Events()`isSet
      ensures Valid() && created == old(created) && View() == Release(old(View()), id)
    {
      if id in pendingEvents {
        var event := pendingEvents[id];
        pendingEvents := map k | k in pendingEvents && k != id :: pendingEvents[k];
        event.isSet := true;
        assert View().pending == old(View()).pending - {id};
        assert View().flags == old(View()).flags[id := true];
      }
    }

    /** The second read of `decide`, and the event it publishes. */
    method DecideReread(id: string) returns (updated: Option<Action>)
      requires Valid()
      modifies this`resolvedLog
      ensures Valid() && View() == old(View())
      ensures updated == if id in store.actions then Some(store.actions[id]) else None
      ensures resolvedLog == old(resolvedLog) + if updated.Some? then [updated.value] else []
    {
      updated := store.GetAction(id);
      if updated.Some? {
        resolvedLog := resolvedLog + [updated.value];
      }
    }

    /** `decide` when nothing interferes: a PENDING row takes the decision and its waiter is
        woken; any other row is answered as it stands. None where the source raises. */
    method Decide(id: string, approved: bool, decidedBy: string, now: real) returns (updated: Option<Action>)
      requires Valid()
      modifies this`pendingEvents, this`resolvedLog, Events()`isSet, store`actions
      ensures Valid() && created == old(created)
      ensures updated.None? <==> id !in old(store.actions)
      ensures updated.None? ==>
        store.actions == old(store.actions) && View() == old(View()) && resolvedLog == old(resolvedLog)
      ensures updated.Some? ==>
        && store.actions == old(store.actions)[id := updated.value]
        && updated.value.status != PENDING
        && (old(store.actions)[id].status == PENDING ==> SaysDecided(updated.value, approved, decidedBy, now))
        && (old(store.actions)[id].status != PENDING ==> updated.value == old(store.actions)[id])
        && SameRequest(old(store.actions)[id], updated.value)
        && View() == Release(old(View()), id)
        && resolvedLog == old(resolvedLog) + [updated.value]
    {
      var existing := store.GetAction(id);
      if existing.None? {
        return None;
      }
      DecisionTakes(store.actions, id, approved, decidedBy, now);
      var won := DecideResolve(id, approved, decidedBy, now);
      DecideRelease(id);
      updated := DecideReread(id);
    }

    /** `resume_stale_holds`, which runs alone at startup. */
    method ResumeStaleHolds(now: real) returns (expired: seq<Action>)
      requires Indexed(store.actions)
      modifies store`actions, this`resolvedLog
      ensures store.actions == ExpireAll(old(store.actions), now)
      ensures forall row: Action :: row in expired <==>
        row.actionId in old(store.actions) && old(store.actions)[row.actionId].status == PENDING
        && row == ExpiredRow(old(store.actions)[row.actionId], now)
      ensures DistinctIds(expired)
      ensures resolvedLog == old(resolvedLog) + expired
    {
      ghost var start := store.actions;
      var pending := store.ListActions(Some(PENDING));
      expired := [];
      assert store.actions == ExpireThese(start, IdsOf(pending[..0]), now);
      for n := 0 to |pending|
        invariant expired == ExpiredRows(pending[..n], now)
        invariant store.actions == ExpireThese(start, IdsOf(pending[..n]), now)
        invariant resolvedLog == old(resolvedLog) + expired
      {
        var id := pending[n].actionId;
        ExpireOneMore(start, pending, n, now);
        ExpiredOneMore(pending, n, now);
        var won := store.ResolveAction(id, Expired(now));
        var updated := store.GetAction(id);
        if updated.Some? {
          expired := expired + [updated.value];
          resolvedLog := resolvedLog + [updated.value];
        }
      }
      assert pending[..|pending|] == pending;
      ExpiredThemAll(start, pending, now);
      ExpiredAreListed(start, pending, now);
    }
  }
}
