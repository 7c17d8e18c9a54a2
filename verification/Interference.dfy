/** The lifecycle over the world its calls act on: capture, forward and compensating calls,
    interleaved with every other call's and with changes from outside. When is the journaled
    image still the pre-image when the call is forwarded, and when does the undo give the
    call's target back? */
module Interference {
  import opened Records
  import opened Literals
  import opened Database
  import opened Tools
  import opened Compensation
  import opened Capture
  import opened Restore
  import opened Targets
  import opened Tables
  import opened Lifecycle
  import opened LifecycleInvariant
  import opened LifecycleTheorems
  import opened LifecycleExecution

  // ---- Joint runs -------------------------------------------------------------

  /** With what the captures have read so far: the schema text of a table to be dropped, and the
      pre-image. A read and the journal INSERT are steps of their own. */
  datatype Joint = Joint(sys: System, world: World, schemas: map<string, Option<string>>,
    images: map<string, Option<Preimage>>)

  /** What is fixed for a run: the servers, the gateway's configuration, and the tool call each
      action id stands for. */
  datatype Setting = Setting(platform: Platform, config: Config, asks: string -> ApprovedCall)

  /** The compensating call an undo request is about to make. */
  function NextCall(s: System, u: nat): Option<ToolCall> {
    if u in s.undos && s.undos[u].phase.Compensating? && s.undos[u].phase.rest != [] then Some(s.undos[u].phase.rest[0])
    else None
  }

  /** What a step of the lifecycle sees of the world and does to it: a capture journals what was
      read, a forward runs the call, a compensating call runs and is told whether it failed. */
  ghost predicate Acts(env: Setting, s: Joint, step: Step, t: Joint) {
    match step
    case OfCall(CaptureImage(id, kind, payload, _)) =>
      t.world == s.world && id in s.images && s.images[id] == Some(Preimage(kind, payload))
    case OfCall(Forward(id)) => exists failed :: Runs(env.platform, env.asks(id), s.world, t.world, failed)
    case OfUndo(UndoCall(u, ok)) =>
      && NextCall(s.sys, u).Some?
      && (ok <==> !CallFails(env.platform, s.world, NextCall(s.sys, u).value))
      && t.world == AfterCall(env.platform, s.world, NextCall(s.sys, u).value)
    case _ => t.world == s.world
  }

  ghost predicate Steps(env: Setting, s: Joint, step: Step, t: Joint) {
    Take(env.config, s.sys, step) == Some(t.sys) && Acts(env, s, step, t)
  }

  predicate SameReads(s: Joint, t: Joint) {
    t.schemas == s.schemas && t.images == s.images
  }

  /** The first read of the capture of a DROP TABLE. */
  ghost predicate ReadsSchema(env: Setting, s: Joint, t: Joint, id: string) {
    && CallAt(s.sys, id, Cleared) && DropsTable(env.asks(id)) && id !in s.schemas
    && t == s.(schemas := s.schemas[id := SchemaFor(s.world, env.asks(id))])
  }

  function SchemaRead(s: Joint, id: string): Option<string> {
    if id in s.schemas then s.schemas[id] else None
  }

  /** The last read of a capture, and its only one but for a DROP TABLE. */
  ghost predicate ReadsImage(env: Setting, s: Joint, t: Joint, id: string) {
    && CallAt(s.sys, id, Cleared) && (DropsTable(env.asks(id)) ==> id in s.schemas) && id !in s.images
    && t == s.(images := s.images[id := ImageWith(env.platform, s.world, env.asks(id), SchemaRead(s, id))])
  }

  /** A step of the lifecycle, a read of a capture, or any change of the world from outside. */
  ghost predicate JointNext(env: Setting, s: Joint, t: Joint) {
    || (SameReads(s, t) && (t.sys == s.sys || exists step :: Steps(env, s, step, t)))
    || exists id :: ReadsSchema(env, s, t, id) || ReadsImage(env, s, t, id)
  }

  ghost predicate JointNextAt(env: Setting, run: seq<Joint>, i: nat)
    requires i + 1 < |run|
  {
    JointNext(env, run[i], run[i + 1])
  }

  ghost predicate IsJointRun(env: Setting, run: seq<Joint>) {
    && run != [] && run[0].sys == INIT && run[0].schemas == map[] && run[0].images == map[]
    && forall i :: 0 <= i < |run| - 1 ==> JointNextAt(env, run, i)
  }

  lemma {:induction false} JointSteps(env: Setting, run: seq<Joint>, i: nat)
    requires IsJointRun(env, run) && i + 1 < |run|
    ensures JointNext(env, run[i], run[i + 1])
  {
    assert JointNextAt(env, run, i);
  }

  lemma {:induction false} JointNextKeeps(env: Setting, s: Joint, t: Joint)
    requires Inv(env.config, s.sys) && JointNext(env, s, t)
    ensures Inv(env.config, t.sys)
  {
    if t.sys != s.sys {
      var step :| Steps(env, s, step, t);
      StepKeeps(env.config, s.sys, step, t.sys);
    }
  }

  lemma {:induction false} JointStepKeeps(env: Setting, run: seq<Joint>, i: nat)
    requires IsJointRun(env, run) && i + 1 < |run| && Inv(env.config, run[i].sys)
    ensures Inv(env.config, run[i + 1].sys)
  {
    JointSteps(env, run, i);
    JointNextKeeps(env, run[i], run[i + 1]);
  }

  lemma {:induction false} JointKeeps(env: Setting, run: seq<Joint>, i: nat)
    requires IsJointRun(env, run) && i < |run|
    ensures Inv(env.config, run[i].sys)
  {
    if i == 0 {
      InitKeeps(env.config);
    } else {
      JointKeeps(env, run, i - 1);
      JointStepKeeps(env, run, i - 1);
    }
  }

  lemma {:induction false} JointNextHistory(env: Setting, s: Joint, t: Joint)
    requires Inv(env.config, s.sys) && JointNext(env, s, t)
    ensures History(s.sys, t.sys)
  {
    if t.sys == s.sys {
      SameTablesHistory(s.sys, t.sys);
    } else {
      var step :| Steps(env, s, step, t);
      StepHistory(env.config, s.sys, step, t.sys);
    }
  }

  lemma {:induction false} JointStepHistory(env: Setting, run: seq<Joint>, i: nat)
    requires IsJointRun(env, run) && i + 1 < |run|
    ensures History(run[i].sys, run[i + 1].sys)
  {
    JointKeeps(env, run, i);
    JointSteps(env, run, i);
    JointNextHistory(env, run[i], run[i + 1]);
  }

  lemma {:induction false} JointHistory(env: Setting, run: seq<Joint>, i: nat, j: nat)
    requires IsJointRun(env, run) && i <= j < |run|
    ensures History(run[i].sys, run[j].sys)
    decreases j - i
  {
    if i == j {
      SameTablesHistory(run[i].sys, run[j].sys);
    } else {
      JointHistory(env, run, i, j - 1);
      JointStepHistory(env, run, j - 1);
      HistoryTransitive(run[i].sys, run[j - 1].sys, run[j].sys);
    }
  }

  ghost predicate LeftAloneAt(env: Setting, run: seq<Joint>, id: string, k: nat)
    requires k + 1 < |run|
  {
    SameTarget(env.platform, env.asks(id), run[k].world, run[k + 1].world)
  }

  /** No step from i to j changes the target of the call. */
  ghost predicate LeftAlone(env: Setting, run: seq<Joint>, id: string, i: nat, j: nat)
    requires j < |run|
  {
    forall k :: i <= k < j ==> LeftAloneAt(env, run, id, k)
  }

  lemma {:induction false} LeftAloneIsSame(env: Setting, run: seq<Joint>, id: string, i: nat, j: nat)
    requires i <= j < |run| && LeftAlone(env, run, id, i, j)
    ensures SameTarget(env.platform, env.asks(id), run[i].world, run[j].world)
    decreases j
  {
    if i < j {
      LeftAloneIsSame(env, run, id, i, j - 1);
      assert LeftAloneAt(env, run, id, j - 1);
      SameTargetTransitive(env.platform, env.asks(id), run[i].world, run[j - 1].world, run[j].world);
    }
  }

  // ---- The captured image -----------------------------------------------------

  /** The step from k to k + 1 captured the image of the call. */
  ghost predicate CapturedAt(run: seq<Joint>, k: nat, id: string) {
    k + 1 < |run| && id !in run[k].sys.journal && id in run[k + 1].sys.journal
  }

  ghost predicate EntryIs(s: System, id: string, pre: Option<Preimage>) {
    id in s.journal && pre == Some(Preimage(s.journal[id].kind, s.journal[id].payload))
  }

  lemma {:induction false} JournalsWhatWasRead(env: Setting, s: Joint, t: Joint, id: string)
    requires Inv(env.config, s.sys) && JointNext(env, s, t) && id !in s.sys.journal && id in t.sys.journal
    ensures id in s.images && EntryIs(t.sys, id, s.images[id])
  {
    var step :| Steps(env, s, step, t);
    OnlyCaptureJournals(env.config, s.sys, step, t.sys, id);
  }

  lemma {:induction false} EntryStays(s: System, t: System, id: string, pre: Option<Preimage>)
    requires History(s, t) && EntryIs(s, id, pre)
    ensures EntryIs(t, id, pre)
  {
  }

  // ---- What a capture has read ------------------------------------------------

  ghost predicate SchemaReadAt(env: Setting, run: seq<Joint>, a: nat, id: string) {
    a + 1 < |run| && ReadsSchema(env, run[a], run[a + 1], id)
  }

  ghost predicate ImageReadAt(env: Setting, run: seq<Joint>, b: nat, id: string) {
    b + 1 < |run| && ReadsImage(env, run[b], run[b + 1], id)
  }

  /** The step from a to a + 1 is the first read of the call's capture. */
  ghost predicate FirstReadAt(env: Setting, run: seq<Joint>, a: nat, id: string) {
    if DropsTable(env.asks(id)) then SchemaReadAt(env, run, a, id) else ImageReadAt(env, run, a, id)
  }

  /** What has been read stays read. */
  ghost predicate ReadsKept(s: Joint, t: Joint) {
    && (forall id :: id in s.schemas ==> id in t.schemas && t.schemas[id] == s.schemas[id])
    && (forall id :: id in s.images ==> id in t.images && t.images[id] == s.images[id])
  }

  lemma {:induction false} NextKeepsReads(env: Setting, s: Joint, t: Joint)
    requires JointNext(env, s, t)
    ensures ReadsKept(s, t)
  {
  }

  lemma {:induction false} RunKeepsReads(env: Setting, run: seq<Joint>, i: nat, j: nat)
    requires IsJointRun(env, run) && i <= j < |run|
    ensures ReadsKept(run[i], run[j])
    decreases j
  {
    if i < j {
      RunKeepsReads(env, run, i, j - 1);
      JointSteps(env, run, j - 1);
      NextKeepsReads(env, run[j - 1], run[j]);
    }
  }

  lemma {:induction false} NewRead(env: Setting, s: Joint, t: Joint, id: string)
    requires JointNext(env, s, t)
    ensures id in t.schemas && id !in s.schemas ==> ReadsSchema(env, s, t, id)
    ensures id in t.images && id !in s.images ==> ReadsImage(env, s, t, id)
  {
  }

  lemma {:induction false} ImageWasRead(env: Setting, run: seq<Joint>, i: nat, id: string) returns (b: nat)
    requires IsJointRun(env, run) && i < |run| && id in run[i].images
    ensures b < i && ImageReadAt(env, run, b, id)
  {
    if id in run[i - 1].images {
      b := ImageWasRead(env, run, i - 1, id);
    } else {
      b := i - 1;
      JointSteps(env, run, b);
      NewRead(env, run[b], run[i], id);
    }
  }

  lemma {:induction false} SchemaWasRead(env: Setting, run: seq<Joint>, i: nat, id: string) returns (a: nat)
    requires IsJointRun(env, run) && i < |run| && id in run[i].schemas
    ensures a < i && SchemaReadAt(env, run, a, id)
  {
    if id in run[i - 1].schemas {
      a := SchemaWasRead(env, run, i - 1, id);
    } else {
      a := i - 1;
      JointSteps(env, run, a);
      NewRead(env, run[a], run[i], id);
    }
  }

  lemma {:induction false} CaptureHasImage(env: Setting, run: seq<Joint>, i: nat, id: string)
    requires IsJointRun(env, run) && CapturedAt(run, i, id)
    ensures id in run[i].images && EntryIs(run[i + 1].sys, id, run[i].images[id])
  {
    JointKeeps(env, run, i);
    JointSteps(env, run, i);
    JournalsWhatWasRead(env, run[i], run[i + 1], id);
  }

  /** Every captured call had a first read. */
  lemma {:induction false} CaptureHasFirstRead(env: Setting, run: seq<Joint>, i: nat, id: string) returns (a: nat)
    requires IsJointRun(env, run) && CapturedAt(run, i, id)
    ensures a < i && FirstReadAt(env, run, a, id)
  {
    CaptureHasImage(env, run, i, id);
    a := ImageWasRead(env, run, i, id);
    if DropsTable(env.asks(id)) {
      a := SchemaWasRead(env, run, a, id);
    }
  }

  lemma {:induction false} SchemaStays(env: Setting, run: seq<Joint>, a: nat, b: nat, id: string)
    requires IsJointRun(env, run) && SchemaReadAt(env, run, a, id) && b < |run| && id in run[b].schemas
    ensures a < b && SchemaRead(run[b], id) == SchemaFor(run[a].world, env.asks(id))
  {
    if b <= a {
      RunKeepsReads(env, run, b, a);
    } else {
      RunKeepsReads(env, run, a + 1, b);
    }
  }

  lemma {:induction false} NoSchemaOfOthers(env: Setting, run: seq<Joint>, b: nat, id: string)
    requires IsJointRun(env, run) && b < |run| && !DropsTable(env.asks(id))
    ensures SchemaRead(run[b], id) == None
  {
    if id in run[b].schemas {
      var a := SchemaWasRead(env, run, b, id);
    }
  }

  /** The image that is read at b goes with the schema text that was read at a. */
  lemma {:induction false} ReadWithSchema(env: Setting, run: seq<Joint>, a: nat, b: nat, id: string)
    requires IsJointRun(env, run) && FirstReadAt(env, run, a, id) && ImageReadAt(env, run, b, id)
    ensures a <= b
    ensures run[b + 1].images[id]
         == ImageWith(env.platform, run[b].world, env.asks(id), SchemaFor(run[a].world, env.asks(id)))
  {
    if DropsTable(env.asks(id)) {
      SchemaStays(env, run, a, b, id);
    } else {
      NoSchemaOfOthers(env, run, b, id);
      if b < a { RunKeepsReads(env, run, b + 1, a); }
    }
  }

  /** What the capture journals: the last read, with the schema text of the first. */
  lemma {:induction false} CaptureJournalsReads(env: Setting, run: seq<Joint>, a: nat, i: nat, id: string)
      returns (b: nat)
    requires IsJointRun(env, run) && FirstReadAt(env, run, a, id) && CapturedAt(run, i, id)
    ensures a <= b < i && ImageReadAt(env, run, b, id)
    ensures EntryIs(run[i + 1].sys, id,
      ImageWith(env.platform, run[b].world, env.asks(id), SchemaFor(run[a].world, env.asks(id))))
  {
    CaptureHasImage(env, run, i, id);
    b := ImageWasRead(env, run, i, id);
    ReadWithSchema(env, run, a, b, id);
    RunKeepsReads(env, run, b + 1, i);
  }

  lemma {:induction false} ImageIsLocal(p: Platform, call: ApprovedCall, u: World, v: World)
    requires SameTarget(p, call, u, v)
    ensures ImageWith(p, v, call, SchemaFor(u, call)) == PreimageOf(p, u, call)
  {
    PreimageIsLocal(p, call, u, v);
  }

  lemma {:induction false} LeftAloneBetween(env: Setting, run: seq<Joint>, id: string, a: nat, b: nat, j: nat)
    requires a <= b <= j < |run| && LeftAlone(env, run, id, a, j)
    ensures SameTarget(env.platform, env.asks(id), run[a].world, run[b].world)
  {
    LeftAloneIsSame(env, run, id, a, b);
  }

  lemma {:induction false} EntryLater(env: Setting, run: seq<Joint>, i: nat, j: nat, id: string, pre: Option<Preimage>)
    requires IsJointRun(env, run) && i <= j < |run| && EntryIs(run[i].sys, id, pre)
    ensures EntryIs(run[j].sys, id, pre)
  {
    JointHistory(env, run, i, j);
    EntryStays(run[i].sys, run[j].sys, id, pre);
  }

  lemma {:induction false} JournaledReads(env: Setting, run: seq<Joint>, a: nat, i: nat, j: nat, id: string)
      returns (b: nat)
    requires IsJointRun(env, run) && i < j < |run| && FirstReadAt(env, run, a, id) && CapturedAt(run, i, id)
    ensures a <= b < i && EntryIs(run[j].sys, id,
      ImageWith(env.platform, run[b].world, env.asks(id), SchemaFor(run[a].world, env.asks(id))))
  {
    b := CaptureJournalsReads(env, run, a, i, id);
    EntryLater(env, run, i + 1, j, id,
      ImageWith(env.platform, run[b].world, env.asks(id), SchemaFor(run[a].world, env.asks(id))));
  }

  lemma {:induction false} ReadsOfOneState(env: Setting, run: seq<Joint>, id: string, a: nat, b: nat, j: nat)
    requires a <= b <= j < |run| && LeftAlone(env, run, id, a, j)
    ensures var call := env.asks(id); var pre := PreimageOf(env.platform, run[a].world, call);
      && ImageWith(env.platform, run[b].world, call, SchemaFor(run[a].world, call)) == pre
      && SameTarget(env.platform, call, run[a].world, run[j].world)
      && PreimageOf(env.platform, run[j].world, call) == pre
  {
    LeftAloneBetween(env, run, id, a, b, j);
    ImageIsLocal(env.platform, env.asks(id), run[a].world, run[b].world);
    LeftAloneBetween(env, run, id, a, j, j);
    PreimageIsLocal(env.platform, env.asks(id), run[a].world, run[j].world);
  }

  /** From the first read a of a capture on: at any time after its journal INSERT in step i, the
      journal holds what the reads found. As long as no step since a has touched the call's file or
      table that is its pre-image at that time, so what is forwarded hits exactly the state read. */
  lemma {:induction false} ImageHoldsAtForward(env: Setting, run: seq<Joint>, a: nat, i: nat, j: nat, id: string)
    requires IsJointRun(env, run) && i < j < |run| && FirstReadAt(env, run, a, id) && CapturedAt(run, i, id)
    ensures exists b :: a <= b < i && EntryIs(run[j].sys, id,
      ImageWith(env.platform, run[b].world, env.asks(id), SchemaFor(run[a].world, env.asks(id))))
    ensures LeftAlone(env, run, id, a, j) ==>
      && SameTarget(env.platform, env.asks(id), run[a].world, run[j].world)
      && EntryIs(run[j].sys, id, PreimageOf(env.platform, run[a].world, env.asks(id)))
      && EntryIs(run[j].sys, id, PreimageOf(env.platform, run[j].world, env.asks(id)))
  {
    var b := JournaledReads(env, run, a, i, j, id);
    if LeftAlone(env, run, id, a, j) {
      ReadsOfOneState(env, run, id, a, b, j);
    }
  }

  // ---- Compensating calls among others ----------------------------------------

  ghost predicate Compensates(s: System, u: nat, id: string) {
    u in s.undos && s.undos[u].id == id && s.undos[u].phase.Compensating?
  }

  /** The target is as if the calls made so far for the action had run one after the other from
      `base`; while a request is still making them, none has failed. */
  ghost predicate Tracks(p: Platform, call: ApprovedCall, base: World, s: Joint, id: string) {
    && SameTarget(p, call, s.world, AfterCalls(p, base, CallsFor(s.sys.log, id)))
    && forall u :: Compensates(s.sys, u, id) ==> !CallsFail(p, base, CallsFor(s.sys.log, id))
  }

  lemma {:induction false} OneCompensates(s: System, u: nat, v: nat, id: string)
    requires UndosOk(s) && Compensates(s, u, id) && Compensates(s, v, id)
    ensures u == v
  {
    assert UndoOk(s, s.undos[u]) && UndoOk(s, s.undos[v]);
  }

  /** A step that makes a compensating call for the action. */
  ghost predicate CallsFurther(s: System, t: System, id: string) {
    CallsFor(t.log, id) != CallsFor(s.log, id)
  }

  lemma {:induction false} CallLogSame(c: Config, s: System, step: CallStep, t: System)
    requires GateOk(c, s) && LogOk(s.actions, s.journal, s.log) && TakeCall(c, s, step) == Some(t)
    ensures SameCompensations(s.log, t.log)
  {
    if !step.BeginCall? && !step.CaptureImage? {
      StepHasContext(c, s, step);
      if Early(step) { EarlyStepMoves(c, s, step, t); } else { LateStepMoves(c, s, step, t); }
      GrownLogKeeps(s, t);
    }
  }

  lemma {:induction false} UndoLogSame(c: Config, s: System, step: UndoStep, t: System, id: string)
    requires TakeUndo(s, step) == Some(t) && CallsFurther(s, t, id)
    ensures step.UndoCall? && step.u in s.undos && s.undos[step.u].id == id
  {
    if t.log != s.log {
      var e := t.log[|s.log|];
      assert t.log == s.log + [e];
      if !(e.Compensated? && e.id == id) {
        CallsForOther(s.log, e, id);
      }
    }
  }

  lemma {:induction false} OnlyUndoCallsFurther(c: Config, s: System, step: Step, t: System, id: string)
    requires GateOk(c, s) && RecordsOk(s) && Take(c, s, step) == Some(t) && CallsFurther(s, t, id)
    ensures step.OfUndo? && step.undo.UndoCall? && step.undo.u in s.undos && s.undos[step.undo.u].id == id
  {
    match step
    case OfCall(m) => CallLogSame(c, s, m, t);
    case OfDecision(m) =>
      DecisionStepMoves(c, s, m, t);
      GrownLogKeeps(s, t);
    case OfUndo(m) => UndoLogSame(c, s, m, t, id);
    case OfSystem(m) =>
      SystemStepMoves(c, s, m, t);
      GrownLogKeeps(s, t);
  }

  lemma {:induction false} UndosUntouchedByCall(c: Config, s: System, step: CallStep, t: System)
    requires GateOk(c, s) && TakeCall(c, s, step) == Some(t)
    ensures t.undos == s.undos
  {
    if !step.BeginCall? && !step.CaptureImage? {
      StepHasContext(c, s, step);
      if Early(step) { EarlyStepMoves(c, s, step, t); } else { LateStepMoves(c, s, step, t); }
    }
  }

  lemma {:induction false} UndoPhaseFrom(s: System, step: UndoStep, t: System, u: nat, id: string)
    requires TakeUndo(s, step) == Some(t) && Compensates(t, u, id) && !(step.UndoMark? && step.u == u)
    ensures Compensates(s, u, id)
  {
  }

  lemma {:induction false} CompensatesStill(c: Config, s: System, step: Step, t: System, u: nat, id: string)
    requires GateOk(c, s) && Take(c, s, step) == Some(t) && Compensates(t, u, id)
    requires !(step.OfUndo? && step.undo.UndoMark? && step.undo.u == u)
    ensures Compensates(s, u, id)
  {
    match step
    case OfCall(m) => UndosUntouchedByCall(c, s, m, t);
    case OfDecision(m) => DecisionStepMoves(c, s, m, t);
    case OfUndo(m) => UndoPhaseFrom(s, m, t, u, id);
    case OfSystem(m) => SystemStepMoves(c, s, m, t);
  }

  lemma {:induction false} MarkHasNoCalls(c: Config, s: System, t: System, u: nat, now: real, id: string)
    requires GateOk(c, s) && RecordsOk(s) && DoUndoMark(s, u, now) == Some(t) && Compensates(t, u, id)
    ensures CallsFor(t.log, id) == []
  {
    WinnerStartsThePlan(c, s, t, u, now);
  }

  /** A request that starts compensating has made no call yet. */
  lemma {:induction false} CompensatesFrom(c: Config, s: System, step: Step, t: System, u: nat, id: string)
    requires GateOk(c, s) && RecordsOk(s) && Take(c, s, step) == Some(t) && Compensates(t, u, id)
    ensures Compensates(s, u, id) || CallsFor(t.log, id) == []
  {
    if step.OfUndo? && step.undo.UndoMark? && step.undo.u == u {
      MarkHasNoCalls(c, s, t, u, step.undo.now, id);
    } else {
      CompensatesStill(c, s, step, t, u, id);
    }
  }

  lemma {:induction false} NextOfPlan(c: Config, s: System, t: System, u: nat, ok: bool, pre: Preimage)
    requires GateOk(c, s) && RecordsOk(s) && DoUndoCall(s, u, ok) == Some(t)
    requires u in s.undos && EntryIs(s, s.undos[u].id, Some(pre))
    ensures NextCall(s, u).Some? && NextCall(s, u).value in PlanFrom(pre)
    ensures CallsFor(t.log, s.undos[u].id) == CallsFor(s.log, s.undos[u].id) + [NextCall(s, u).value]
    ensures !ok ==> t.undos[u].phase == Closed
  {
    assert UndoOk(s, s.undos[u]);
    var id, phase := s.undos[u].id, s.undos[u].phase;
    CallsForSelf(s.log, Compensated(id, phase.undoId, phase.rest[0]), id);
    assert phase.rest[0] in CallsFor(s.log, id) + phase.rest;
  }

  /** After its own call the request that made it is the only one that can go on, and it does
      only if the call went through. */
  lemma {:induction false} OnlyCallerGoesOn(c: Config, s: System, t: System, u: nat, ok: bool, v: nat)
    requires UndosOk(s) && DoUndoCall(s, u, ok) == Some(t) && Compensates(t, v, s.undos[u].id)
    ensures v == u && ok
  {
    if v != u {
      OneCompensates(s, u, v, s.undos[u].id);
    }
  }

  lemma {:induction false} OwnStepTracks(env: Setting, base: World, s: Joint, t: Joint, u: nat, ok: bool, id: string,
      pre: Preimage)
    requires Inv(env.config, s.sys) && DoUndoCall(s.sys, u, ok) == Some(t.sys)
      && Acts(env, s, OfUndo(UndoCall(u, ok)), t)
    requires u in s.sys.undos && s.sys.undos[u].id == id && EntryIs(s.sys, id, Some(pre))
    requires AllActOn(env.platform, env.asks(id), PlanFrom(pre)) && Tracks(env.platform, env.asks(id), base, s, id)
    ensures Tracks(env.platform, env.asks(id), base, t, id)
  {
    NextOfPlan(env.config, s.sys, t.sys, u, ok, pre);
    assert Compensates(s.sys, u, id);
    NextCallAlike(env.platform, env.asks(id), base, s.world, CallsFor(s.sys.log, id), NextCall(s.sys, u).value);
    forall v | Compensates(t.sys, v, id) ensures !CallsFail(env.platform, base, CallsFor(t.sys.log, id)) {
      OnlyCallerGoesOn(env.config, s.sys, t.sys, u, ok, v);
    }
  }

  lemma {:induction false} OtherStepTracks(env: Setting, base: World, s: Joint, t: Joint, id: string)
    requires SameTarget(env.platform, env.asks(id), s.world, t.world) && !CallsFurther(s.sys, t.sys, id)
    requires forall u :: Compensates(t.sys, u, id) ==> Compensates(s.sys, u, id) || CallsFor(t.sys.log, id) == []
    requires Tracks(env.platform, env.asks(id), base, s, id)
    ensures Tracks(env.platform, env.asks(id), base, t, id)
  {
    SameTargetSymmetric(env.platform, env.asks(id), s.world, t.world);
    SameTargetTransitive(env.platform, env.asks(id), t.world, s.world, AfterCalls(env.platform, base,
      CallsFor(s.sys.log, id)));
  }

  /** The step leaves the target alone, or is one of the action's own compensating calls. */
  ghost predicate OwnOrApart(env: Setting, s: Joint, t: Joint, id: string) {
    SameTarget(env.platform, env.asks(id), s.world, t.world) || CallsFurther(s.sys, t.sys, id)
  }

  lemma {:induction false} StepTracks(env: Setting, base: World, s: Joint, step: Step, t: Joint, id: string,
      pre: Preimage)
    requires Inv(env.config, s.sys) && Steps(env, s, step, t) && EntryIs(s.sys, id, Some(pre))
      && OwnOrApart(env, s, t, id)
    requires AllActOn(env.platform, env.asks(id), PlanFrom(pre)) && Tracks(env.platform, env.asks(id), base, s, id)
    ensures Tracks(env.platform, env.asks(id), base, t, id)
  {
    if CallsFurther(s.sys, t.sys, id) {
      OnlyUndoCallsFurther(env.config, s.sys, step, t.sys, id);
      OwnStepTracks(env, base, s, t, step.undo.u, step.undo.ok, id, pre);
    } else {
      forall u | Compensates(t.sys, u, id) ensures Compensates(s.sys, u, id) || CallsFor(t.sys.log, id) == [] {
        CompensatesFrom(env.config, s.sys, step, t.sys, u, id);
      }
      OtherStepTracks(env, base, s, t, id);
    }
  }

  lemma {:induction false} NextTracks(env: Setting, base: World, s: Joint, t: Joint, id: string, pre: Preimage)
    requires Inv(env.config, s.sys) && JointNext(env, s, t) && EntryIs(s.sys, id, Some(pre))
      && OwnOrApart(env, s, t, id)
    requires AllActOn(env.platform, env.asks(id), PlanFrom(pre)) && Tracks(env.platform, env.asks(id), base, s, id)
    ensures Tracks(env.platform, env.asks(id), base, t, id)
  {
    if t.sys == s.sys {
      OtherStepTracks(env, base, s, t, id);
    } else {
      var step :| Steps(env, s, step, t);
      StepTracks(env, base, s, step, t, id, pre);
    }
  }

  ghost predicate OwnOrApartAt(env: Setting, run: seq<Joint>, id: string, k: nat)
    requires k + 1 < |run|
  {
    OwnOrApart(env, run[k], run[k + 1], id)
  }

  /** From j to k the target is changed by nothing but the action's own compensating calls. */
  ghost predicate OnlyUndone(env: Setting, run: seq<Joint>, id: string, j: nat, k: nat)
    requires k < |run|
  {
    forall m :: j <= m < k ==> OwnOrApartAt(env, run, id, m)
  }

  lemma {:induction false} RunStepTracks(env: Setting, base: World, run: seq<Joint>, k: nat, id: string, pre: Preimage)
    requires IsJointRun(env, run) && k + 1 < |run| && EntryIs(run[k].sys, id, Some(pre))
      && OwnOrApartAt(env, run, id, k)
    requires AllActOn(env.platform, env.asks(id), PlanFrom(pre)) && Tracks(env.platform, env.asks(id), base, run[k], id)
    ensures Tracks(env.platform, env.asks(id), base, run[k + 1], id) && EntryIs(run[k + 1].sys, id, Some(pre))
  {
    JointKeeps(env, run, k);
    JointSteps(env, run, k);
    NextTracks(env, base, run[k], run[k + 1], id, pre);
    JointNextHistory(env, run[k], run[k + 1]);
    EntryStays(run[k].sys, run[k + 1].sys, id, Some(pre));
  }

  lemma {:induction false} RunTracks(env: Setting, base: World, run: seq<Joint>, j: nat, k: nat, id: string,
      pre: Preimage)
    requires IsJointRun(env, run) && j <= k < |run| && EntryIs(run[j].sys, id, Some(pre))
      && OnlyUndone(env, run, id, j, k)
    requires AllActOn(env.platform, env.asks(id), PlanFrom(pre)) && Tracks(env.platform, env.asks(id), base, run[j], id)
    ensures Tracks(env.platform, env.asks(id), base, run[k], id) && EntryIs(run[k].sys, id, Some(pre))
    decreases k
  {
    if j < k {
      RunTracks(env, base, run, j, k - 1, id, pre);
      assert OwnOrApartAt(env, run, id, k - 1);
      RunStepTracks(env, base, run, k - 1, id, pre);
    }
  }

  /** The step that forwards a call is the one that runs it. */
  lemma {:induction false} ForwardRuns(env: Setting, s: Joint, t: Joint, id: string)
    requires Inv(env.config, s.sys) && JointNext(env, s, t) && NewlyLogged(s.sys, t.sys, Forwarded(id))
    ensures exists failed :: Runs(env.platform, env.asks(id), s.world, t.world, failed)
  {
    var step :| Steps(env, s, step, t);
    ForwardedByItsStep(env.config, s.sys, step, t.sys, id);
  }

  // ---- The theorem ------------------------------------------------------------

  /** The call ran in the step from j to j + 1, and nothing had been compensated before. */
  ghost predicate RanAt(env: Setting, run: seq<Joint>, j: nat, id: string, failed: bool) {
    && j + 1 < |run| && Runs(env.platform, env.asks(id), run[j].world, run[j + 1].world, failed)
    && CallsFor(run[j + 1].sys.log, id) == []
  }

  /** All compensating calls of the journaled image have been made. */
  ghost predicate FullyUndone(s: System, id: string) {
    id in s.journal && CallsFor(s.log, id) == PlanOf(s.journal[id].kind, s.journal[id].payload)
  }

  lemma {:induction false} StartsTracking(env: Setting, before: World, run: seq<Joint>, j: nat, id: string,
      failed: bool) returns (base: World)
    requires RanAt(env, run, j, id, failed) && PreimageOf(env.platform, before, env.asks(id)).Some?
    requires SameTarget(env.platform, env.asks(id), before, run[j].world)
    ensures Runs(env.platform, env.asks(id), before, base, failed)
    ensures Tracks(env.platform, env.asks(id), base, run[j + 1], id)
  {
    base := Ran(env.platform, env.asks(id), before, failed);
    PreimageIsLocal(env.platform, env.asks(id), before, run[j].world);
    SameTargetSymmetric(env.platform, env.asks(id), before, run[j].world);
    RunsAlike(env.platform, env.asks(id), run[j].world, run[j + 1].world, before, failed);
  }

  lemma {:induction false} EndsTracking(p: Platform, call: ApprovedCall, before: World, base: World, s: Joint,
      id: string, failed: bool)
    requires CapturedWell(p, before, call) && Runs(p, call, before, base, failed) && Tracks(p, call, base, s, id)
    requires FullyUndone(s.sys, id) && EntryIs(s.sys, id, PreimageOf(p, before, call))
    ensures TargetBack(p, call, s.world, before) <==> Recoverable(p, before, call, failed)
  {
    var pre := PreimageOf(p, before, call).value;
    UndoneIsPlan(p, base, pre);
    UndoneTarget(p, before, base, call, failed);
    TargetBackIsLocal(p, call, s.world, Undone(p, base, pre), before);
  }

  lemma {:induction false} TracksToTheEnd(env: Setting, before: World, base: World, run: seq<Joint>, j: nat, k: nat,
      id: string)
    requires IsJointRun(env, run) && j <= k < |run| && OnlyUndone(env, run, id, j, k)
    requires CapturedWell(env.platform, before, env.asks(id))
    requires EntryIs(run[j].sys, id, PreimageOf(env.platform, before, env.asks(id)))
    requires Tracks(env.platform, env.asks(id), base, run[j], id)
    ensures Tracks(env.platform, env.asks(id), base, run[k], id)
    ensures EntryIs(run[k].sys, id, PreimageOf(env.platform, before, env.asks(id)))
  {
    PlanActsOn(env.platform, before, env.asks(id));
    RunTracks(env, base, run, j, k, id, PreimageOf(env.platform, before, env.asks(id)).value);
  }

  /** From the run of the call on, against any world that agrees with the one it ran in. */
  lemma {:induction false} UndoneSince(env: Setting, before: World, run: seq<Joint>, j: nat, k: nat, id: string,
      failed: bool)
    requires IsJointRun(env, run) && j < k < |run| && RanAt(env, run, j, id, failed)
    requires OnlyUndone(env, run, id, j + 1, k)
    requires CapturedWell(env.platform, before, env.asks(id))
    requires SameTarget(env.platform, env.asks(id), before, run[j].world)
    requires EntryIs(run[j + 1].sys, id, PreimageOf(env.platform, before, env.asks(id)))
    requires FullyUndone(run[k].sys, id)
    ensures TargetBack(env.platform, env.asks(id), run[k].world, before)
       <==> Recoverable(env.platform, before, env.asks(id), failed)
  {
    var base := StartsTracking(env, before, run, j, id, failed);
    TracksToTheEnd(env, before, base, run, j + 1, k, id);
    EndsTracking(env.platform, env.asks(id), before, base, run[k], id, failed);
  }

  lemma {:induction false} ImageWhenRun(env: Setting, run: seq<Joint>, a: nat, i: nat, j: nat, id: string)
    requires IsJointRun(env, run) && i < j && j + 1 < |run| && FirstReadAt(env, run, a, id) && CapturedAt(run, i, id)
    requires LeftAlone(env, run, id, a, j)
    ensures SameTarget(env.platform, env.asks(id), run[a].world, run[j].world)
    ensures EntryIs(run[j + 1].sys, id, PreimageOf(env.platform, run[a].world, env.asks(id)))
  {
    ImageHoldsAtForward(env, run, a, i, j, id);
    EntryLater(env, run, j, j + 1, id, PreimageOf(env.platform, run[a].world, env.asks(id)));
  }

  /** A capture makes its first read in step a and its journal INSERT in step i, the call runs in
      step j, and by k its undo has made all its calls, with anything else going on in between:
      other calls, decisions, undo requests, restarts, changes from outside. If nothing else has
      touched the call's own file or table since that first read, the file or table is back as it
      was then, exactly when the call is recoverable. */
  lemma {:induction false} UndoGivesTheTargetBack(env: Setting, run: seq<Joint>, a: nat, i: nat, j: nat, k: nat,
      id: string, failed: bool)
    requires IsJointRun(env, run) && i < j < k < |run| && FirstReadAt(env, run, a, id) && CapturedAt(run, i, id)
    requires CallSound(env.platform, run[a].world, env.asks(id))
    requires LeftAlone(env, run, id, a, j) && RanAt(env, run, j, id, failed) && OnlyUndone(env, run, id, j + 1, k)
    requires FullyUndone(run[k].sys, id)
    ensures TargetBack(env.platform, env.asks(id), run[k].world, run[a].world)
       <==> Recoverable(env.platform, run[a].world, env.asks(id), failed)
  {
    ImageWhenRun(env, run, a, i, j, id);
    UndoneSince(env, run[a].world, run, j, k, id, failed);
  }
}
