/** What the executor's commands answer, and what becomes of the answers: a plan's
    changes decide how its run goes on, and every command's counts are recorded. */
module RunAnswers {
  import opened Options
  import opened Runs
  import opened StackTemplates
  import opened RunTables
  import opened RunProtocol
  import opened RunInvariant
  import opened RunReachability
  import opened RunRoutes

  /** A plan command's answer. */
  datatype Answer = Answer(hasChanges: bool, summary: Summary)

  // ---- The answers of a history ----

  /** The answer a move brings: the plan command's, with its step acknowledged. */
  predicate PlanAnswers(flow: Option<PlanFlow>, move: Move) {
    move.PlanMove? && move.ack == Acked && flow.Some? && flow.value.pc == PlanRecords(Planning)
  }

  function PlanAnswerAfter(flow: Option<PlanFlow>, move: Move, answer: Option<Answer>): Option<Answer> {
    if PlanAnswers(flow, move) then Some(Answer(move.env.hasChanges, move.env.summary)) else answer
  }

  predicate ApplyAnswers(flow: Option<ApplyFlow>, move: Move) {
    move.ApplyMove? && move.ack == Acked && flow.Some? && flow.value.pc == ApplyRecords(Applying)
  }

  function ApplyAnswerAfter(flow: Option<ApplyFlow>, move: Move, answer: Option<Summary>): Option<Summary> {
    if ApplyAnswers(flow, move) then Some(move.env.summary) else answer
  }

  /** What the environment last answered to the run's plan command. */
  function PlanAnswer(actions: seq<Action>, r: RunId): Option<Answer> {
    if actions == [] then None
    else
      var before, action := actions[..|actions| - 1], actions[|actions| - 1];
      if action.OnRun? && action.run == r
      then PlanAnswerAfter(Lookup(Replay(before).plans, r), action.move, PlanAnswer(before, r))
      else PlanAnswer(before, r)
  }

  /** And to its apply or destroy command. */
  function ApplyAnswer(actions: seq<Action>, r: RunId): Option<Summary> {
    if actions == [] then None
    else
      var before, action := actions[..|actions| - 1], actions[|actions| - 1];
      if action.OnRun? && action.run == r
      then ApplyAnswerAfter(Lookup(Replay(before).applies, r), action.move, ApplyAnswer(before, r))
      else ApplyAnswer(before, r)
  }

  // ---- What the workflows and the rows make of them ----

  predicate Counted(run: Run, counts: Option<Summary>) {
    run.plan.Some? && run.plan.value.counts == counts
  }

  /** A plan that is done with its run: counted, if it found changes nobody is to
      apply, and not if it found none. */
  predicate SettledBy(run: Run, answer: Answer) {
    if answer.hasChanges then run.operation == Plan && Counted(run, Some(answer.summary)) else Counted(run, None)
  }

  predicate PlanAnswerOk(p: Part, answer: Option<Answer>) {
    && (p.plan.None? ==> answer.None?)
    && (p.plan.Some? ==>
          match p.plan.value.pc
          case PlanCarries => answer.None?
          case PlanMarksRunning => answer.None?
          case PlanRecords(step) =>
            if step == SavingPlan then Saves(p, answer) else answer.None? && Counted(p.run, None)
          case PlanMakesKey => Saves(p, answer)
          case PlanFinishes(hasChanges) => answer == Some(Answer(hasChanges, p.plan.value.output)) && Counted(p.run, None)
          case PlanRecordsDestroyed => answer.Some? && !answer.value.hasChanges && Counted(p.run, None)
          case PlanCompletes => answer.Some? && SettledBy(p.run, answer.value)
          case _ => true)
    && (HasSucceeded(p.run.plan) ==>
          && answer.Some?
          && if EndedByPlan(p.run) then SettledBy(p.run, answer.value)
             else answer.value.hasChanges && p.run.operation != Plan && Counted(p.run, Some(answer.value.summary)))
  }

  predicate Saves(p: Part, answer: Option<Answer>)
    requires p.plan.Some?
  {
    answer == Some(Answer(true, p.plan.value.output)) && p.run.operation != Plan && Counted(p.run, None)
  }

  predicate ApplyCounted(run: Run, counts: Option<Summary>) {
    run.apply.Some? && run.apply.value.counts == counts
  }

  predicate ApplyAnswerOk(p: Part, answer: Option<Summary>) {
    && (p.apply.None? ==> answer.None?)
    && (p.apply.Some? ==>
          match p.apply.value.pc
          case ApplyRecordsDone => answer == Some(p.apply.value.output)
          case ApplyCompletes => answer.Some? && ApplyCounted(p.run, answer)
          case ApplyFails => true
          case ApplyEnded => true
          case _ => answer.None?)
    && (HasSucceeded(p.run.apply) ==> answer.Some? && ApplyCounted(p.run, answer))
  }

  // ---- The plan's answer ----

  lemma RecordingCountsNothing(run: Run, step: Step, phase: Phase)
    requires run.status == Running && RunningPhase(run) == Some(phase) && Below(ExecutionOf(run, phase), Rank(step))
    ensures RecordStep(run, step).Ok?
    ensures var run' := RecordStep(run, step).value;
            && run' == WithExecution(run, phase, ExecutionOf(run', phase).value)
            && ExecutionOf(run', phase).value.counts == ExecutionOf(run, phase).value.counts
            && ExecutionOf(run', phase).value.status == InProgress
  {
    LaterStepIsNew(ExecutionOf(run, phase).value.steps, step);
  }

  lemma PlanRecordsAnswer(id: RunId, c: Cell, env: Env, answer: Option<Answer>)
    requires CellOk(id, c) && c.plan.Some? && c.plan.value.pc.PlanRecords? && PlanAnswerOk(CellPart(c), answer)
    ensures var effect, answer' := PlanEffect(id, c, env), PlanAnswerAfter(c.plan, PlanMove(Acked, env), answer);
            effect.Ok? && PlanAnswerOk(CellPart(effect.value), answer')
  {
    RecordingCountsNothing(c.run, c.plan.value.pc.step, PlanPhase);
  }

  lemma PlanFinishesAnswer(id: RunId, c: Cell, env: Env, answer: Option<Answer>)
    requires CellOk(id, c) && c.plan.Some? && c.plan.value.pc.PlanFinishes? && PlanAnswerOk(CellPart(c), answer)
    ensures var effect := PlanEffect(id, c, env); effect.Ok? ==> PlanAnswerOk(CellPart(effect.value), answer)
  {
  }

  lemma PlanEndsAnswer(id: RunId, c: Cell, env: Env, answer: Option<Answer>)
    requires CellOk(id, c) && c.plan.Some? && c.plan.value.pc in {PlanCompletes, PlanFails} && PlanAnswerOk(CellPart(c), answer)
    ensures var effect := PlanEffect(id, c, env); effect.Ok? ==> PlanAnswerOk(CellPart(effect.value), answer)
  {
  }

  lemma PlanEffectAnswer(id: RunId, c: Cell, env: Env, answer: Option<Answer>)
    requires CellOk(id, c) && c.plan.Some? && PlanAnswerOk(CellPart(c), answer)
    ensures var effect, answer' := PlanEffect(id, c, env), PlanAnswerAfter(c.plan, PlanMove(Acked, env), answer);
            effect.Ok? ==> PlanAnswerOk(CellPart(effect.value), answer')
  {
    match c.plan.value.pc
    case PlanRecords(_) => PlanRecordsAnswer(id, c, env, answer);
    case PlanFinishes(_) => PlanFinishesAnswer(id, c, env, answer);
    case PlanCompletes => PlanEndsAnswer(id, c, env, answer);
    case PlanFails => PlanEndsAnswer(id, c, env, answer);
    case _ =>
  }

  /** A workflow that has seen an error goes by no answer. */
  lemma PlanErrorAnswer(p: Part, p': Part, answer: Option<Answer>, answer': Option<Answer>)
    requires PlanAnswerOk(p, answer) && p.plan.Some? && p'.run == p.run
    requires p'.plan.Some? && p'.plan.value.pc in {PlanFails, PlanEnded}
    requires HasSucceeded(p.run.plan) ==> answer' == answer
    ensures PlanAnswerOk(p', answer')
  {
  }

  lemma PlanMoveAnswer(id: RunId, c: Cell, ack: Ack, env: Env, answer: Option<Answer>)
    requires CellOk(id, c) && c.plan.Some? && PlanAnswerOk(CellPart(c), answer)
    ensures PlanAnswerOk(CellPart(PlanMoves(id, c, ack, env)), PlanAnswerAfter(c.plan, PlanMove(ack, env), answer))
  {
    PlanEffectAnswer(id, c, env, answer);
    var effect := PlanEffect(id, c, env);
    if c.plan.value.pc.PlanRecords? { PlanRecordsAnswer(id, c, env, answer); }
    if ack == AckLost && effect.Ok? {
      LostAnswer(id, c, env, answer);
    } else if ack == NotApplied || effect.Err? {
      PlanErrorAnswer(CellPart(c), CellPart(PlanMoves(id, c, ack, env)), answer, PlanAnswerAfter(c.plan, PlanMove(ack, env), answer));
    }
  }

  lemma LostAnswer(id: RunId, c: Cell, env: Env, answer: Option<Answer>)
    requires CellOk(id, c) && c.plan.Some? && PlanAnswerOk(CellPart(c), answer) && PlanEffect(id, c, env).Ok?
    ensures PlanAnswerOk(CellPart(PlanMoves(id, c, AckLost, env)), answer)
  {
    var c' := PlanEffect(id, c, env).value;
    PlanEffectAnswer(id, c, env, answer);
    if c.plan.value.pc.PlanRecords? {
      RecordingCountsNothing(c.run, c.plan.value.pc.step, PlanPhase);
    } else {
      PlanErrorAnswer(CellPart(c'), CellPart(PlanMoves(id, c, AckLost, env)), answer, answer);
    }
  }

  // ---- The apply's answer ----

  lemma ApplyRecordsAnswer(id: RunId, c: Cell, env: Env, answer: Option<Summary>)
    requires CellOk(id, c) && c.apply.Some? && c.apply.value.pc.ApplyRecords? && ApplyAnswerOk(CellPart(c), answer)
    requires c.apply.value.pc.step !in {Planning, SavingPlan}
    ensures var effect, answer' := ApplyEffect(id, c, env), ApplyAnswerAfter(c.apply, ApplyMove(Acked, env), answer);
            effect.Ok? && ApplyAnswerOk(CellPart(effect.value), answer')
  {
    RecordingCountsNothing(c.run, c.apply.value.pc.step, ApplyPhase);
  }

  lemma ApplyEndsAnswer(id: RunId, c: Cell, env: Env, answer: Option<Summary>)
    requires CellOk(id, c) && c.apply.Some? && c.apply.value.pc in {ApplyCompletes, ApplyFails} && ApplyAnswerOk(CellPart(c), answer)
    ensures var effect := ApplyEffect(id, c, env); effect.Ok? ==> ApplyAnswerOk(CellPart(effect.value), answer)
  {
  }

  lemma ApplyEffectAnswer(id: RunId, c: Cell, env: Env, answer: Option<Summary>)
    requires CellOk(id, c) && c.apply.Some? && ApplyAnswerOk(CellPart(c), answer)
    ensures var effect, answer' := ApplyEffect(id, c, env), ApplyAnswerAfter(c.apply, ApplyMove(Acked, env), answer);
            effect.Ok? ==> ApplyAnswerOk(CellPart(effect.value), answer')
  {
    match c.apply.value.pc
    case ApplyRecords(_) => ApplyRecordsAnswer(id, c, env, answer);
    case ApplyCompletes => ApplyEndsAnswer(id, c, env, answer);
    case ApplyFails => ApplyEndsAnswer(id, c, env, answer);
    case _ =>
  }

  lemma ApplyMoveAnswer(id: RunId, c: Cell, ack: Ack, env: Env, answer: Option<Summary>)
    requires CellOk(id, c) && c.apply.Some? && ApplyAnswerOk(CellPart(c), answer)
    ensures ApplyAnswerOk(CellPart(ApplyMoves(id, c, ack, env)), ApplyAnswerAfter(c.apply, ApplyMove(ack, env), answer))
  {
    ApplyEffectAnswer(id, c, env, answer);
    if c.apply.value.pc.ApplyRecords? {
      ApplyRecordsAnswer(id, c, env, answer);
      RecordingCountsNothing(c.run, c.apply.value.pc.step, ApplyPhase);
    }
  }

  // ---- Every move ----

  lemma MovesKeepPlanAnswer(id: RunId, c: Cell, move: Move, answer: Option<Answer>)
    requires CellOk(id, c) && PlanAnswerOk(CellPart(c), answer)
    ensures PlanAnswerOk(CellPart(Moved(id, c, move)), PlanAnswerAfter(c.plan, move, answer))
  {
    match move
    case PlanMove(ack, env) => if c.plan.Some? { PlanMoveAnswer(id, c, ack, env, answer); }
    case ApplyMove(ack, env) => if c.apply.Some? { ApplyLeavesPlanAnswer(id, c, ack, env, answer); }
    case _ =>
  }

  lemma ApplyLeavesPlanAnswer(id: RunId, c: Cell, ack: Ack, env: Env, answer: Option<Answer>)
    requires CellOk(id, c) && PlanAnswerOk(CellPart(c), answer) && c.apply.Some?
    ensures PlanAnswerOk(CellPart(ApplyMoves(id, c, ack, env)), answer)
  {
    if ApplyEffect(id, c, env).Ok? {
      ApplyLeavesPlan(id, c, env);
      ApplyEffectKeeps(id, c, env);
      if c.plan.Some? { PlanIsOver(id, c); }
      if HasSucceeded(c.run.plan) {
        ApplyMeansNotEnded(id, c);
        ApplyMeansNotEnded(id, ApplyEffect(id, c, env).value);
      }
    }
  }

  /** By the time an apply workflow has started, the plan counts on nothing. */
  lemma PlanIsOver(id: RunId, c: Cell)
    requires CellOk(id, c) && c.apply.Some? && c.plan.Some?
    ensures c.plan.value.pc in {PlanFails, PlanEnded}
  {
  }

  lemma PlanLeavesApplyAnswer(id: RunId, c: Cell, ack: Ack, env: Env, answer: Option<Summary>)
    requires CellOk(id, c) && ApplyAnswerOk(CellPart(c), answer) && c.plan.Some?
    ensures ApplyAnswerOk(CellPart(PlanMoves(id, c, ack, env)), answer)
  {
    PlanLeavesApply(id, c, env);
    var p, p' := CellPart(c), CellPart(PlanMoves(id, c, ack, env));
    assert p'.run.apply == p.run.apply && p'.apply == p.apply;
  }

  lemma MovesKeepApplyAnswer(id: RunId, c: Cell, move: Move, answer: Option<Summary>)
    requires CellOk(id, c) && ApplyAnswerOk(CellPart(c), answer)
    ensures ApplyAnswerOk(CellPart(Moved(id, c, move)), ApplyAnswerAfter(c.apply, move, answer))
  {
    match move
    case PlanMove(ack, env) => if c.plan.Some? { PlanLeavesApplyAnswer(id, c, ack, env, answer); }
    case ApplyMove(ack, env) => if c.apply.Some? { ApplyMoveAnswer(id, c, ack, env, answer); }
    case _ =>
  }

  // ---- Over any history ----

  lemma {:induction false} NoRunNoAnswer(actions: seq<Action>, r: RunId)
    requires r !in Replay(actions).db.runs
    ensures PlanAnswer(actions, r) == None && ApplyAnswer(actions, r) == None
  {
    if actions != [] {
      var before := actions[..|actions| - 1];
      if r in Replay(before).db.runs {
        Reachable(before);
        DoMovesPart(Replay(before), actions[|actions| - 1], r);
      }
      OwnedHolds(before);
      NoRunNoAnswer(before, r);
    }
  }

  lemma {:induction false} AnswersHold(actions: seq<Action>, r: RunId)
    requires r in Replay(actions).db.runs
    ensures PlanAnswerOk(PartOf(Replay(actions), r), PlanAnswer(actions, r))
    ensures ApplyAnswerOk(PartOf(Replay(actions), r), ApplyAnswer(actions, r))
  {
    var before, action := actions[..|actions| - 1], actions[|actions| - 1];
    var s := Replay(before);
    Reachable(before);
    if r in s.db.runs {
      AnswersHold(before, r);
      DoMovesPart(s, action, r);
      RunHolds(before, r);
      if action.OnRun? && action.run == r {
        MovesKeepPlanAnswer(r, CellOf(s, r), action.move, PlanAnswer(before, r));
        MovesKeepApplyAnswer(r, CellOf(s, r), action.move, ApplyAnswer(before, r));
      }
    } else {
      NewPart(s, action, r);
      NoRunNoAnswer(before, r);
    }
  }

  /** A plan command answers once: whatever it said it said for good. */
  lemma AnswersStay(actions: seq<Action>, r: RunId)
    requires actions != [] && PlanAnswer(actions[..|actions| - 1], r).Some?
    ensures PlanAnswer(actions, r) == PlanAnswer(actions[..|actions| - 1], r)
  {
    var before := actions[..|actions| - 1];
    if r in Replay(before).db.runs { AnswersHold(before, r); } else { NoRunNoAnswer(before, r); }
  }

  /** A run waits, is approved, is discarded or applies an approved plan only if its
      plan command found changes, and the counts it shows are that answer's. */
  lemma OnlyChangesWait(actions: seq<Action>, r: RunId)
    requires r in Replay(actions).db.runs
    requires var run := Replay(actions).db.runs[r]; HoldsPlan(run) || run.status == Canceled || (run.apply.Some? && HasSucceeded(run.plan))
    ensures var run := Replay(actions).db.runs[r]; var answer := PlanAnswer(actions, r);
            answer.Some? && answer.value.hasChanges && run.operation != Plan && Counted(run, Some(answer.value.summary))
  {
    AnswersHold(actions, r);
    RowHolds(actions, r);
  }

  /** A run completes with its plan only if nothing of it is left to apply: the plan
      found no changes, or the run only plans, and then shows the changes' counts. */
  lemma OnlySettledPlansComplete(actions: seq<Action>, r: RunId)
    requires r in Replay(actions).db.runs && EndedByPlan(Replay(actions).db.runs[r])
    ensures var run := Replay(actions).db.runs[r]; var answer := PlanAnswer(actions, r);
            && answer.Some?
            && (answer.value.hasChanges ==> run.operation == Plan)
            && Counted(run, if answer.value.hasChanges then Some(answer.value.summary) else None)
  {
    AnswersHold(actions, r);
    RowHolds(actions, r);
  }

  /** A completed apply shows the counts its command answered. */
  lemma AppliesShowTheirCounts(actions: seq<Action>, r: RunId)
    requires r in Replay(actions).db.runs && HasSucceeded(Replay(actions).db.runs[r].apply)
    ensures ApplyAnswer(actions, r).Some?
    ensures Replay(actions).db.runs[r].apply.value.counts == ApplyAnswer(actions, r)
  {
    AnswersHold(actions, r);
  }

  // ---- What is live, and what is gone, by the answer ----

  lemma PlanWritesLiveAt(id: RunId, c: Cell, ack: Ack, env: Env)
    requires CellOk(id, c) && c.plan.Some?
    requires var template := PlanMoves(id, c, ack, env).template;
             template.lastApplied != c.template.lastApplied
    ensures c.plan.value.pc == PlanFinishes(false)
  {
  }

  lemma PlanWritesGoneAt(id: RunId, c: Cell, ack: Ack, env: Env)
    requires CellOk(id, c) && c.plan.Some?
    requires PlanMoves(id, c, ack, env).template.lifecycle != c.template.lifecycle
    requires PlanMoves(id, c, ack, env).template.lifecycle == Gone
    ensures c.plan.value.pc == PlanRecordsDestroyed && c.run.operation == Destroy
  {
  }

  /** Over any history a plan workflow makes its template live, or a template of its
      destroy gone, only after its command answered that there was nothing to
      change. */
  lemma PlansSettleOnlyUnchanged(actions: seq<Action>, r: RunId)
    requires actions != [] && r in Replay(actions[..|actions| - 1]).db.runs
    requires actions[|actions| - 1].OnRun? && actions[|actions| - 1].run == r && actions[|actions| - 1].move.PlanMove?
    requires var s, s' := Replay(actions[..|actions| - 1]), Replay(actions);
             var t := s.db.runs[r].template;
             t in s.db.templates && t in s'.db.templates
             && (s'.db.templates[t].lastApplied != s.db.templates[t].lastApplied
                 || (s'.db.templates[t].lifecycle == Gone && s.db.templates[t].lifecycle != Gone))
    ensures var answer := PlanAnswer(actions[..|actions| - 1], r); answer.Some? && !answer.value.hasChanges
  {
    var before, move := actions[..|actions| - 1], actions[|actions| - 1].move;
    var s := Replay(before);
    RunHolds(before, r);
    AnswersHold(before, r);
    var c := CellOf(s, r);
    PlanMoveTemplate(s, r, move);
    if Moved(r, c, move).template.lastApplied != c.template.lastApplied {
      PlanWritesLiveAt(r, c, move.ack, move.env);
    } else {
      PlanWritesGoneAt(r, c, move.ack, move.env);
    }
  }

  lemma PlanMoveTemplate(s: System, r: RunId, move: Move)
    requires RunOk(s, r) && move.PlanMove?
    ensures Moved(r, CellOf(s, r), move).template == Do(s, OnRun(r, move)).db.templates[s.db.runs[r].template]
    ensures Moved(r, CellOf(s, r), move) != CellOf(s, r) ==> CellOf(s, r).plan.Some?
  {
    MoveKeeps(r, CellOf(s, r), move);
  }
}
