/** Runs that go all the way: with every delivery made and every activity
    acknowledged, every kind of run completes, whatever its commands answer. */
module RunCompletions {
  import opened Options
  import opened Runs
  import opened StackTemplates
  import opened RunTables
  import opened RunProtocol
  import opened RunInvariant
  import opened RunReachability
  import opened RunProgress
  import opened RunAnswers
  import opened RunRoutes
  import RunHistory

  // The plan

  predicate PlanIsOn(s: System, r: RunId) {
    r in s.plans && s.plans[r].pc !in {PlanFails, PlanEnded}
  }

  lemma PlanEffectGoesOn(id: RunId, c: Cell, env: Env)
    requires CellOk(id, c) && c.plan.Some? && c.plan.value.pc !in {PlanFails, PlanEnded}
    ensures var effect := PlanEffect(id, c, env);
            && effect.Ok? && effect.value.plan.Some? && effect.value.plan.value.pc != PlanFails
            && (effect.value.plan.value.pc == PlanEnded ==>
                  c.run.status == Running && effect.value.run.status in {WaitingApproval, Completed})
  {
    PlanRefusedExactly(id, c, env);
  }

  lemma PlanDoesOn(s: System, r: RunId, env: Env)
    requires RunOk(s, r) && PlanIsOn(s, r)
    ensures var s' := Do(s, OnRun(r, PlanMove(Acked, env)));
            && r in s'.plans && r in s'.db.runs && s'.plans[r].pc != PlanFails
            && PlanProgress(s'.plans[r].pc) > PlanProgress(s.plans[r].pc)
            && s'.db.runs[r].apply == s.db.runs[r].apply
            && (s'.plans[r].pc == PlanEnded ==>
                  s.db.runs[r].status == Running && s'.db.runs[r].status in {WaitingApproval, Completed})
  {
    var c := CellOf(s, r);
    PlanEffectGoesOn(r, c, env);
    PlanEffectAdvances(r, c, env);
    PlanLeavesApply(r, c, env);
    PutsFlows(s, r, PlanEffect(r, c, env).value);
  }

  /** A plan workflow whose activities are all acknowledged ends with its run waiting
      or just completed; all that its command can have answered is the environment's
      answer. */
  lemma {:induction false} AckedPlanEnds(actions: seq<Action>, r: RunId, env: Env) returns (after: seq<Action>)
    requires r in Replay(actions).db.runs && PlanIsOn(Replay(actions), r)
    ensures r in Replay(after).db.runs && Replay(after).db.runs[r].status in {WaitingApproval, Completed}
    ensures Replay(after).db.runs[r].status == Completed ==> RunHistory.JustCompleted(after, r)
    ensures PlanAnswer(after, r) in {PlanAnswer(actions, r), Some(Answer(env.hasChanges, env.summary))}
    ensures SameRun(Replay(actions).db.runs[r], Replay(after).db.runs[r])
    ensures Replay(after).db.runs[r].apply == Replay(actions).db.runs[r].apply
    decreases PLAN_LENGTH - PlanProgress(Replay(actions).plans[r].pc)
  {
    RunHolds(actions, r);
    PlanDoesOn(Replay(actions), r, env);
    after := RunHistory.Longer(actions, OnRun(r, PlanMove(Acked, env)));
    RunHistory.LastActionIsLater(after, r);
    if Replay(after).plans[r].pc != PlanEnded { after := AckedPlanEnds(after, r, env); }
  }

  // The apply

  predicate ApplyIsOn(s: System, r: RunId) {
    && r in s.applies && r in s.db.runs && s.applies[r].pc !in {ApplyFails, ApplyEnded}
    && (s.applies[r].pc in {ApplyCarries, ApplyClaims} ==> s.db.runs[r].status != Canceled)
  }

  lemma ApplyEffectGoesOn(id: RunId, c: Cell, env: Env)
    requires CellOk(id, c) && c.apply.Some? && c.apply.value.pc !in {ApplyFails, ApplyEnded}
    requires c.apply.value.pc in {ApplyCarries, ApplyClaims} ==> c.run.status != Canceled
    ensures var effect := ApplyEffect(id, c, env);
            && effect.Ok? && effect.value.apply.Some? && effect.value.apply.value.pc !in {ApplyFails, ApplyCarries}
            && (effect.value.apply.value.pc == ApplyClaims ==> effect.value.run == c.run)
            && (effect.value.apply.value.pc == ApplyEnded ==> c.run.status == Running && effect.value.run.status == Completed)
            && (c.apply.value.pc == ApplyClaims || c.run.apply.Some? ==> effect.value.run.apply.Some?)
  {
    ApplyRefusedExactly(id, c, env);
  }

  lemma ApplyDoesOn(s: System, r: RunId, env: Env)
    requires RunOk(s, r) && ApplyIsOn(s, r)
    ensures var s' := Do(s, OnRun(r, ApplyMove(Acked, env)));
            && r in s'.applies && r in s'.db.runs
            && ApplyProgress(s'.applies[r].pc) > ApplyProgress(s.applies[r].pc)
            && (if s'.applies[r].pc == ApplyEnded
                then s.db.runs[r].status == Running && s'.db.runs[r].status == Completed
                else ApplyIsOn(s', r))
  {
    var c := CellOf(s, r);
    ApplyEffectGoesOn(r, c, env);
    ApplyEffectAdvances(r, c, env);
    PutsFlows(s, r, ApplyEffect(r, c, env).value);
  }

  /** An apply workflow not lost to a discard, whose activities are all acknowledged,
      completes its run. */
  lemma {:induction false} AckedApplyCompletes(actions: seq<Action>, r: RunId, env: Env) returns (after: seq<Action>)
    requires ApplyIsOn(Replay(actions), r)
    ensures RunHistory.JustCompleted(after, r)
    ensures SameRun(Replay(actions).db.runs[r], Replay(after).db.runs[r])
    decreases APPLY_LENGTH - ApplyProgress(Replay(actions).applies[r].pc)
  {
    RunHolds(actions, r);
    ApplyDoesOn(Replay(actions), r, env);
    after := RunHistory.Longer(actions, OnRun(r, ApplyMove(Acked, env)));
    RunHistory.LastActionIsLater(after, r);
    if Replay(after).applies[r].pc != ApplyEnded { after := AckedApplyCompletes(after, r, env); }
  }

  // From the command to the completed run

  lemma StartedRun(operation: Operation, autoApprove: bool) returns (actions: seq<Action>)
    requires autoApprove ==> operation == Apply
    ensures var s := Replay(actions);
            && 0 in s.db.runs && s.db.runs[0].status == Queued
            && s.db.runs[0].operation == operation && s.db.runs[0].autoApprove == autoApprove
            && 0 !in s.plans && 0 !in s.applies
  {
    actions := RunHistory.Longer([], InstallTemplate(0, 0, JNull));
    actions := RunHistory.Longer(actions, Start(0, StartCommand(0, operation, autoApprove, "starter")));
  }

  /** A queued run's workflow starts as its intent is delivered. */
  lemma DeliveredToPlan(queued: seq<Action>, r: RunId) returns (actions: seq<Action>)
    requires r in Replay(queued).db.runs && Replay(queued).db.runs[r].status == Queued
    requires !Replay(queued).db.runs[r].autoApprove && r !in Replay(queued).plans
    ensures r in Replay(actions).db.runs && PlanIsOn(Replay(actions), r) && Replay(actions).plans[r].pc == PlanCarries
    ensures Replay(actions).db.runs[r] == Replay(queued).db.runs[r]
  {
    RunHolds(queued, r);
    actions := RunHistory.Longer(queued, OnRun(r, DeliverPlan(true)));
  }

  lemma DeliveredToApply(ready: seq<Action>, r: RunId) returns (actions: seq<Action>)
    requires r in Replay(ready).db.runs && r !in Replay(ready).applies
    requires var run := Replay(ready).db.runs[r]; run.status == if run.autoApprove then Queued else Approved
    ensures ApplyIsOn(Replay(actions), r) && Replay(actions).db.runs[r] == Replay(ready).db.runs[r]
  {
    RunHolds(ready, r);
    actions := RunHistory.Longer(ready, OnRun(r, DeliverApply(true)));
  }

  lemma ApprovedToApply(waiting: seq<Action>, r: RunId) returns (actions: seq<Action>)
    requires r in Replay(waiting).db.runs && Replay(waiting).db.runs[r].status == WaitingApproval
    ensures r in Replay(actions).db.runs && Replay(actions).db.runs[r].status == Approved
    ensures r !in Replay(actions).applies && !Replay(actions).db.runs[r].autoApprove
    ensures SameRun(Replay(waiting).db.runs[r], Replay(actions).db.runs[r])
  {
    RunHolds(waiting, r);
    actions := RunHistory.Longer(waiting, OnRun(r, ApproveMove("approver")));
  }

  /** Any run that waits, apply or destroy, completes once it is approved, its apply
      delivered and every activity acknowledged. */
  lemma ApprovedRunCompletes(waiting: seq<Action>, r: RunId, env: Env) returns (actions: seq<Action>)
    requires r in Replay(waiting).db.runs && Replay(waiting).db.runs[r].status == WaitingApproval
    ensures RunHistory.JustCompleted(actions, r)
    ensures SameRun(Replay(waiting).db.runs[r], Replay(actions).db.runs[r])
  {
    actions := ApprovedToApply(waiting, r);
    actions := DeliveredToApply(actions, r);
    actions := AckedApplyCompletes(actions, r, env);
  }

  /** A plan that left its run waiting or completed did as its command answered. */
  lemma SettledStatus(actions: seq<Action>, r: RunId)
    requires r in Replay(actions).db.runs && Replay(actions).db.runs[r].apply.None?
    requires Replay(actions).db.runs[r].status in {WaitingApproval, Completed}
    ensures PlanAnswer(actions, r).Some?
    ensures Replay(actions).db.runs[r].status ==
            if PlanAnswer(actions, r).value.hasChanges && Replay(actions).db.runs[r].operation != Plan
            then WaitingApproval else Completed
  {
    if Replay(actions).db.runs[r].status == WaitingApproval { OnlyChangesWait(actions, r); } else { OnlySettledPlansComplete(actions, r); }
  }

  lemma DeliveredUnanswered(actions: seq<Action>, r: RunId)
    requires r in Replay(actions).db.runs && r in Replay(actions).plans && Replay(actions).plans[r].pc == PlanCarries
    ensures PlanAnswer(actions, r) == None && Replay(actions).db.runs[r].apply.None?
  {
    AnswersHold(actions, r);
    RunHolds(actions, r);
  }

  /** A plan delivered and acknowledged leaves its run waiting exactly when its
      command found changes that can be applied, and completed otherwise. */
  lemma AckedPlanSettles(queued: seq<Action>, r: RunId, env: Env) returns (actions: seq<Action>)
    requires r in Replay(queued).db.runs && Replay(queued).db.runs[r].status == Queued
    requires !Replay(queued).db.runs[r].autoApprove && r !in Replay(queued).plans
    ensures r in Replay(actions).db.runs && SameRun(Replay(queued).db.runs[r], Replay(actions).db.runs[r])
    ensures Replay(actions).db.runs[r].status ==
            if env.hasChanges && Replay(queued).db.runs[r].operation != Plan then WaitingApproval else Completed
    ensures Replay(actions).db.runs[r].status == Completed ==> RunHistory.JustCompleted(actions, r)
    ensures PlanAnswer(actions, r) == Some(Answer(env.hasChanges, env.summary))
  {
    var delivered := DeliveredToPlan(queued, r);
    DeliveredUnanswered(delivered, r);
    actions := AckedPlanEnds(delivered, r, env);
    SettledStatus(actions, r);
  }

  /** Every kind of run completes: an auto-approved one by its apply; any other by
      its plan, or, when that found changes to apply, by an apply that was approved. */
  lemma EveryKindOfRunCompletes(operation: Operation, autoApprove: bool, env: Env) returns (actions: seq<Action>)
    requires autoApprove ==> operation == Apply
    ensures RunHistory.JustCompleted(actions, 0)
    ensures Replay(actions).db.runs[0].operation == operation && Replay(actions).db.runs[0].autoApprove == autoApprove
  {
    actions := StartedRun(operation, autoApprove);
    if autoApprove {
      actions := DeliveredToApply(actions, 0);
      actions := AckedApplyCompletes(actions, 0, env);
    } else {
      actions := AckedPlanSettles(actions, 0, env);
      if Replay(actions).db.runs[0].status == WaitingApproval { actions := ApprovedRunCompletes(actions, 0, env); }
    }
  }
}
