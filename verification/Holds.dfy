/** The values that `approval/manager.py` works on: held requests, the rows and outcomes
    it writes, and its map of pending events. */
module Holds {
  import opened Records

  /** The in-memory side of the holds: the ids in `_pending_events`, and the flag of every
      event created so far (a waiter still holds an event that has left the map). */
  datatype HoldMap = HoldMap(pending: set<string>, flags: map<string, bool>)

  const NO_HOLDS := HoldMap({}, map[])

  /** `self._pending_events[action_id] = asyncio.Event()` */
  function Register(h: HoldMap, id: string): HoldMap {
    HoldMap(h.pending + {id}, h.flags[id := false])
  }

  /** `self._pending_events.pop(action_id, None)`, on the waiter's way out. */
  function Forget(h: HoldMap, id: string): HoldMap {
    h.(pending := h.pending - {id})
  }

  /** `decide` pops the event and sets it if it was there. */
  function Release(h: HoldMap, id: string): HoldMap {
    if id in h.pending then HoldMap(h.pending - {id}, h.flags[id := true]) else h
  }

  /** The row `submit` builds. */
  function NewAction(r: Request, id: string, held: bool, now: real): Action {
    Action(id, r.traceId, r.agentId, r.tool, r.resourceName, r.argsSummary, r.risk.riskLevel, r.risk.ruleId,
           if held then PENDING else AUTO_ALLOWED, None, now, if held then None else Some(now),
           r.risk.reversibility, r.blastRadius, false)
  }

  datatype Request = Request(
    traceId: string,
    agentId: string,
    tool: string,
    resourceName: Option<string>,
    argsSummary: Option<string>,
    risk: RiskDecision,
    blastRadius: Option<string>)

  /** The row of a gateway call under an id, as far as the request and the clock decide it. */
  predicate RowOf(row: Action, id: string, q: Request, now: real) {
    && row.actionId == id && row.traceId == q.traceId && row.agentId == q.agentId && row.tool == q.tool
    && row.resourceName == q.resourceName && row.argsSummary == q.argsSummary && row.blastRadius == q.blastRadius
    && row.riskLevel == q.risk.riskLevel && row.ruleId == q.risk.ruleId && row.reversibility == q.risk.reversibility
    && row.requestedAt == now
  }

  function Expired(now: real): Outcome {
    Outcome(EXPIRED, None, Some(now))
  }

  function Decided(approved: bool, decidedBy: string, now: real): Outcome {
    Outcome(if approved then APPROVED else DENIED, Some(decidedBy), Some(now))
  }
}
