/** What is live on a template: every run that makes itself live is running when it
    does, and what a workflow's single attempt at an activity has to do with it. */
module RunLive {
  import opened Options
  import opened Runs
  import opened StackTemplates
  import opened RunTables
  import opened RunProtocol
  import opened RunInvariant
  import opened RunReachability
  import RunHistory

  /** What is live stays, or the run makes itself live: a run that is no destroy,
      and is running before and after. */
  predicate LiveMove(id: RunId, c: Cell, c': Cell) {
    || c'.template.lastApplied == c.template.lastApplied
    || (&& c'.template.lastApplied == Some(Snapshot(id, c'.run))
        && c.run.operation != Destroy && c.run.status == Running && c'.run.status == Running)
  }

  lemma StatusLeavesLive(id: RunId, scope: Scope, input: StatusInput)
    ensures var result := RecordStatus(id, scope, input);
            result.Ok? ==> result.value.template.lastApplied == scope.template.lastApplied
  {
  }

  lemma PlanMovesLive(id: RunId, c: Cell, env: Env)
    requires CellOk(id, c) && c.plan.Some?
    ensures PlanEffect(id, c, env).Ok? ==> LiveMove(id, c, PlanEffect(id, c, env).value)
  {
    match c.plan.value.pc
    case PlanMarksRunning => StatusLeavesLive(id, ScopeOf(c), PlanStatus(c, Running, ""));
    case PlanCompletes => StatusLeavesLive(id, ScopeOf(c), PlanStatus(c, Completed, ""));
    case PlanFails => StatusLeavesLive(id, ScopeOf(c), PlanStatus(c, Failed, env.error));
    case _ =>
  }

  lemma ApplyMovesLive(id: RunId, c: Cell, env: Env)
    requires CellOk(id, c) && c.apply.Some?
    ensures ApplyEffect(id, c, env).Ok? ==> LiveMove(id, c, ApplyEffect(id, c, env).value)
  {
    match c.apply.value.pc
    case ApplyCompletes => StatusLeavesLive(id, ScopeOf(c), ApplyStatus(c, Completed, ""));
    case ApplyFails => StatusLeavesLive(id, ScopeOf(c), ApplyStatus(c, Failed, env.error));
    case _ =>
  }

  lemma MovesLive(id: RunId, c: Cell, move: Move)
    requires CellOk(id, c)
    ensures LiveMove(id, c, Moved(id, c, move))
  {
    match move
    case PlanMove(_, env) => if c.plan.Some? { PlanMovesLive(id, c, env); }
    case ApplyMove(_, env) => if c.apply.Some? { ApplyMovesLive(id, c, env); }
    case _ =>
  }

  // ---- Over whole histories ----

  /** The action is a move of this run, of the template, that makes it live. */
  predicate MakesLive(s: System, action: Action, t: TemplateId, r: RunId) {
    var s' := Do(s, action);
    && action.OnRun? && action.run == r && r in s.db.runs && r in s'.db.runs && t in s'.db.templates
    && s.db.runs[r].template == t && s.db.runs[r].operation != Destroy
    && s.db.runs[r].status == Running && s'.db.runs[r].status == Running
    && s'.db.templates[t].lastApplied == Some(Snapshot(r, s'.db.runs[r]))
  }

  lemma PutMovesLive(s: System, r: RunId, c': Cell, t: TemplateId)
    requires Known(s, r) && SameRun(CellOf(s, r).run, c'.run) && LiveMove(r, CellOf(s, r), c') && t in s.db.templates
    ensures var s' := Put(s, r, c');
            && t in s'.db.templates
            && (s'.db.templates[t].lastApplied == s.db.templates[t].lastApplied
                || (&& s.db.runs[r].template == t && s.db.runs[r].operation != Destroy
                    && s.db.runs[r].status == Running && s'.db.runs[r].status == Running
                    && s'.db.templates[t].lastApplied == Some(Snapshot(r, s'.db.runs[r]))))
  {
  }

  lemma DoMovesLive(s: System, action: Action, t: TemplateId)
    requires RunsOk(s) && t in s.db.templates
    ensures t in Do(s, action).db.templates
    ensures Do(s, action).db.templates[t].lastApplied == s.db.templates[t].lastApplied
            || (action.OnRun? && MakesLive(s, action, t, action.run))
  {
    if action.OnRun? && Known(s, action.run) {
      assert RunOk(s, action.run);
      var c := CellOf(s, action.run);
      MovesLive(action.run, c, action.move);
      MoveKeeps(action.run, c, action.move);
      PutMovesLive(s, action.run, Moved(action.run, c, action.move), t);
    }
  }

  /** What is live on a template changes only by a running run of it, no destroy,
      that makes itself live and goes on running: no run that waits, is approved or
      has ended ever rewrites it. */
  lemma OnlyRunningRunsGoLive(actions: seq<Action>, t: TemplateId)
    requires actions != [] && t in Replay(RunHistory.Before(actions)).db.templates
    ensures var s, action := Replay(RunHistory.Before(actions)), actions[|actions| - 1];
            && t in Replay(actions).db.templates
            && (Replay(actions).db.templates[t].lastApplied == s.db.templates[t].lastApplied
                || (action.OnRun? && MakesLive(s, action, t, action.run)))
  {
    Reachable(RunHistory.Before(actions));
    DoMovesLive(Replay(RunHistory.Before(actions)), actions[|actions| - 1], t);
  }

  /** What is live is the snapshot of a run of the template, no destroy. */
  ghost predicate LiveIsOwn(s: System, t: TemplateId)
    requires t in s.db.templates
  {
    var live := s.db.templates[t].lastApplied;
    live.Some? ==>
      var r := live.value.run;
      && r in s.db.runs && s.db.runs[r].template == t && s.db.runs[r].operation != Destroy
      && live == Some(Snapshot(r, s.db.runs[r]))
  }

  lemma DoKeepsLiveOwn(s: System, action: Action, t: TemplateId)
    requires RunsOk(s) && t in s.db.templates && LiveIsOwn(s, t)
    ensures t in Do(s, action).db.templates && LiveIsOwn(Do(s, action), t)
  {
    DoMovesLive(s, action, t);
    var s' := Do(s, action);
    var live := s'.db.templates[t].lastApplied;
    if live.Some? {
      if live == s.db.templates[t].lastApplied {
        DoMovesRun(s, action, live.value.run);
      } else {
        DoMovesRun(s, action, action.run);
      }
    }
  }

  /** In every reachable state what is live on a template is the snapshot of one of
      its own runs. */
  lemma {:induction false} LiveIsAlwaysOwn(actions: seq<Action>, t: TemplateId)
    requires t in Replay(actions).db.templates
    ensures LiveIsOwn(Replay(actions), t)
  {
    if actions != [] {
      var before := RunHistory.Before(actions);
      Reachable(before);
      if t in Replay(before).db.templates {
        LiveIsAlwaysOwn(before, t);
        DoKeepsLiveOwn(Replay(before), actions[|actions| - 1], t);
      } else {
        NewTemplateIsNotLive(Replay(before), actions[|actions| - 1], t);
      }
    }
  }

  lemma NewTemplateIsNotLive(s: System, action: Action, t: TemplateId)
    requires RunsOk(s) && t !in s.db.templates
    ensures t in Do(s, action).db.templates ==> Do(s, action).db.templates[t].lastApplied == None
  {
    if action.OnRun? && Known(s, action.run) {
      assert RunOk(s, action.run);
      MoveKeeps(action.run, CellOf(s, action.run), action.move);
    }
  }

  // ---- What a second attempt would do ----

  /** The run never made its template live, and asks for the template's desired
      state. */
  predicate NotLive(s: System, r: RunId) {
    && Known(s, r) && s.db.runs[r].operation == Apply
    && var template := s.db.templates[s.db.runs[r].template];
       && template.lastApplied == None && template.desiredConfig.Document?
       && s.db.runs[r].revision == template.desiredRevision && s.db.runs[r].config == template.desiredConfig
  }

  lemma StartedNotLive() returns (actions: seq<Action>)
    ensures var s := Replay(actions);
            NotLive(s, 0) && s.db.runs[0].status == Queued && 0 in s.plans && s.plans[0].pc == PlanCarries
  {
    actions := RunHistory.Longer([], InstallTemplate(0, 0, JNull));
    actions := RunHistory.Longer(actions, Start(0, StartCommand(0, Apply, false, "starter")));
    actions := RunHistory.Longer(actions, OnRun(0, DeliverPlan(true)));
  }

  const QUIET := Env(false, Summary(0, 0, 0), 0, "")

  /** The plan's first activity is not applied. */
  lemma FirstActivityFails(started: seq<Action>) returns (actions: seq<Action>)
    requires var s := Replay(started);
             NotLive(s, 0) && s.db.runs[0].status == Queued && 0 in s.plans && s.plans[0].pc == PlanCarries
    ensures var s := Replay(actions);
            NotLive(s, 0) && s.db.runs[0].status == Queued && 0 in s.plans && s.plans[0].pc == PlanFails
  {
    actions := RunHistory.Longer(started, OnRun(0, PlanMove(NotApplied, QUIET)));
  }

  lemma FailedEffect(id: RunId, c: Cell)
    requires CellOk(id, c) && c.plan.Some? && c.plan.value.pc == PlanFails && c.run.status == Queued
    ensures var effect := PlanEffect(id, c, QUIET);
            && effect.Ok? && effect.value.run.status == Failed
            && SameRun(c.run, effect.value.run)
            && effect.value.template.lastApplied == c.template.lastApplied
            && effect.value.template.desiredRevision == c.template.desiredRevision
            && effect.value.template.desiredConfig == c.template.desiredConfig
  {
  }

  lemma FailureIsRecorded(failing: seq<Action>) returns (actions: seq<Action>)
    requires var s := Replay(failing);
             NotLive(s, 0) && s.db.runs[0].status == Queued && 0 in s.plans && s.plans[0].pc == PlanFails
    ensures var s := Replay(actions);
            NotLive(s, 0) && s.db.runs[0].status == Failed
  {
    RunHolds(failing, 0);
    FailedEffect(0, CellOf(Replay(failing), 0));
    actions := RunHistory.Longer(failing, OnRun(0, PlanMove(Acked, QUIET)));
  }

  lemma UnchangedFinishGoesLive(s: System, r: RunId)
    requires NotLive(s, r)
    ensures var input := FinishInput(s.db.runs[r].template, Apply, false, Summary(0, 0, 0));
            var late := FinishPlan(r, ScopeOf(CellOf(s, r)), input);
            && LiveStateOf(CellOf(s, r).template) == LiveNever
            && late.Ok? && late.value.0.run == s.db.runs[r] && LiveStateOf(late.value.0.template) == LiveMatches
  {
  }

  /** Only the single attempt keeps an ended run's plan from finishing again. Here
      the plan failed before it began and the template never was live; a finished
      plan without changes, arriving then, would be accepted, leave the run failed
      and make the template read as live. */
  lemma LateUnchangedFinishGoesLive() returns (actions: seq<Action>)
    ensures var s := Replay(actions);
            && Known(s, 0) && s.db.runs[0].status == Failed
            && LiveStateOf(CellOf(s, 0).template) == LiveNever
            && var input := FinishInput(s.db.runs[0].template, Apply, false, Summary(0, 0, 0));
               var late := FinishPlan(0, ScopeOf(CellOf(s, 0)), input);
               late.Ok? && late.value.0.run == s.db.runs[0] && LiveStateOf(late.value.0.template) == LiveMatches
  {
    actions := StartedNotLive();
    actions := FirstActivityFails(actions);
    actions := FailureIsRecorded(actions);
    UnchangedFinishGoesLive(Replay(actions), 0);
  }
}
