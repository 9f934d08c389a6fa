/** The invariant of the whole system: every action keeps it, so it holds in
    every state any sequence of actions reaches. */
module RunReachability {
  import opened Options
  import opened Runs
  import opened StackTemplates
  import opened RunTables
  import opened RunProtocol
  import opened RunInvariant

  // ---- The invariant of the whole system ----

  ghost predicate OneInFlight(db: Db) {
    forall r, q ::
      (r in db.runs && q in db.runs && db.runs[r].template == db.runs[q].template
        && !Terminal(db.runs[r].status) && !Terminal(db.runs[q].status))
      ==> r == q
  }

  /** A pending plan is held by a run of its template, and a template being
      destroyed has the run that is destroying it. */
  ghost predicate TemplateLinked(db: Db, t: TemplateId)
    requires t in db.templates
  {
    var template := db.templates[t];
    && template.desiredConfig.Document?
    && (template.pending.Some? ==>
          var r := template.pending.value.run;
          r in db.runs && db.runs[r].template == t && HoldsPlan(db.runs[r]))
    && (template.lifecycle == BeingDestroyed ==>
          exists r :: r in db.runs && db.runs[r].template == t && DestroyApplying(db.runs[r]))
  }

  ghost predicate RunOk(s: System, r: RunId) {
    Known(s, r) && CellOk(r, CellOf(s, r))
  }

  ghost predicate RunsOk(s: System) {
    forall r :: r in s.db.runs ==> RunOk(s, r)
  }

  ghost predicate TemplatesOk(db: Db) {
    forall t :: t in db.templates ==> TemplateLinked(db, t)
  }

  predicate Owned(s: System) {
    s.db.planIntents.Keys + s.db.applyIntents.Keys + s.plans.Keys + s.applies.Keys <= s.db.runs.Keys
  }

  ghost predicate Inv(s: System) {
    RunsOk(s) && TemplatesOk(s.db) && OneInFlight(s.db) && Owned(s)
  }

  /** A run that has ended does not mind its template's next run. */
  lemma NeighbourKeeps(id: RunId, other: Cell, mover: RunId, c: Cell, c': Cell)
    requires id != mover && CellOk(id, other) && other.template == c.template
    requires MoveOk(mover, c, c')
    requires Terminal(other.run.status) || c'.template == c.template
    ensures CellOk(id, other.(template := c'.template))
  {
  }

  /** A move of one run leaves every other run as it was, but for the template
      they share. */
  lemma PutFrames(s: System, r: RunId, c': Cell, q: RunId)
    requires Known(s, r) && Known(s, q) && q != r && c'.run.template == s.db.runs[r].template
    ensures Known(Put(s, r, c'), q)
    ensures CellOf(Put(s, r, c'), q) ==
            if s.db.runs[q].template == c'.run.template then CellOf(s, q).(template := c'.template) else CellOf(s, q)
  {
  }

  lemma OthersKeep(s: System, r: RunId, c': Cell, q: RunId)
    requires Known(s, r) && RunOk(s, q) && q != r
    requires MoveOk(r, CellOf(s, r), c') && OneInFlight(s.db)
    ensures RunOk(Put(s, r, c'), q)
  {
    PutFrames(s, r, c', q);
    var c := CellOf(s, r);
    if s.db.runs[q].template == c.run.template {
      NeighbourKeeps(q, CellOf(s, q), r, c, c');
    }
  }

  lemma MoverKeeps(s: System, r: RunId, c': Cell)
    requires Known(s, r) && CellOk(r, c') && c'.run.template == s.db.runs[r].template
    ensures RunOk(Put(s, r, c'), r)
  {
    assert CellOf(Put(s, r, c'), r) == c';
  }

  lemma TemplatesKeep(s: System, r: RunId, c': Cell, t: TemplateId)
    requires Known(s, r) && MoveOk(r, CellOf(s, r), c') && TemplateOk(r, c')
    requires t in s.db.templates && TemplateLinked(s.db, t)
    ensures TemplateLinked(Put(s, r, c').db, t)
  {
    var c := CellOf(s, r);
    var db' := Put(s, r, c').db;
    if db'.templates[t].lifecycle == BeingDestroyed {
      if t == c.run.template && DestroyApplying(c'.run) {
        assert db'.runs[r] == c'.run;
      } else {
        var q :| q in s.db.runs && s.db.runs[q].template == t && DestroyApplying(s.db.runs[q]);
        assert q != r;
        assert db'.runs[q] == s.db.runs[q];
      }
    }
  }

  lemma InFlightKeeps(s: System, r: RunId, c': Cell)
    requires Known(s, r) && MoveOk(r, CellOf(s, r), c') && OneInFlight(s.db) && Owned(s)
    ensures OneInFlight(Put(s, r, c').db) && Owned(Put(s, r, c'))
  {
  }

  lemma RunsKeep(s: System, r: RunId, c': Cell)
    requires RunsOk(s) && r in s.db.runs && CellOk(r, c')
    requires MoveOk(r, CellOf(s, r), c') && OneInFlight(s.db)
    ensures RunsOk(Put(s, r, c'))
  {
    assert RunOk(s, r);
    forall q | q in Put(s, r, c').db.runs
      ensures RunOk(Put(s, r, c'), q)
    {
      if q == r { MoverKeeps(s, r, c'); } else { OthersKeep(s, r, c', q); }
    }
  }

  lemma MoveKeepsInv(s: System, r: RunId, c': Cell)
    requires Inv(s) && Known(s, r) && CellOk(r, c') && MoveOk(r, CellOf(s, r), c')
    ensures Inv(Put(s, r, c'))
  {
    RunsKeep(s, r, c');
    InFlightKeeps(s, r, c');
    forall t | t in s.db.templates
      ensures TemplateLinked(Put(s, r, c').db, t)
    {
      TemplatesKeep(s, r, c', t);
    }
  }

  lemma QueuedRunOk(id: RunId, template: StackTemplate, command: StartCommand)
    requires command.autoApprove ==> command.operation == Apply
    requires template.lifecycle == Active && template.desiredConfig.Document?
    requires template.pending.Some? ==> template.pending.value.run != id
    ensures var run := QueuedRun(template, command);
            var input := Some(InputOf(id, run));
            CellOk(id, Cell(run, template,
              if run.autoApprove then None else input, if run.autoApprove then input else None, None, None))
  {
  }

  /** A command that touches neither a run's rows nor its template leaves the
      run as it was. */
  lemma UntouchedKeeps(s: System, s': System, r: RunId)
    requires RunOk(s, r) && Known(s', r) && CellOf(s', r) == CellOf(s, r)
    ensures RunOk(s', r)
  {
  }

  lemma LinkKeeps(db: Db, db': Db, t: TemplateId)
    requires t in db.templates && TemplateLinked(db, t)
    requires t in db'.templates && db'.templates[t].desiredConfig.Document?
    requires db'.templates[t].pending == db.templates[t].pending
    requires db'.templates[t].lifecycle == db.templates[t].lifecycle
    requires forall r :: r in db.runs ==> r in db'.runs && db'.runs[r] == db.runs[r]
    ensures TemplateLinked(db', t)
  {
    if db'.templates[t].lifecycle == BeingDestroyed {
      var r :| r in db.runs && db.runs[r].template == t && DestroyApplying(db.runs[r]);
      assert db'.runs[r] == db.runs[r];
    }
  }

  lemma StartedCell(s: System, id: RunId, command: StartCommand)
    requires StartRun(s.db, id, command).Ok? && Owned(s)
    ensures var s' := Do(s, Start(id, command));
            var run := QueuedRun(s.db.templates[command.template], command);
            var input := Some(InputOf(id, run));
            && Known(s', id)
            && CellOf(s', id) == Cell(run, s.db.templates[command.template],
                 if run.autoApprove then None else input, if run.autoApprove then input else None, None, None)
            && forall r :: r != id && Known(s, r) ==> Known(s', r) && CellOf(s', r) == CellOf(s, r)
  {
  }

  lemma StartedRunOk(s: System, id: RunId, command: StartCommand)
    requires TemplatesOk(s.db) && Owned(s) && StartRun(s.db, id, command).Ok?
    ensures RunOk(Do(s, Start(id, command)), id)
  {
    assert TemplateLinked(s.db, command.template);
    QueuedRunOk(id, s.db.templates[command.template], command);
    StartedCell(s, id, command);
  }

  lemma StartKeepsRuns(s: System, id: RunId, command: StartCommand)
    requires Inv(s) && StartRun(s.db, id, command).Ok?
    ensures RunsOk(Do(s, Start(id, command)))
  {
    var s' := Do(s, Start(id, command));
    StartedRunOk(s, id, command);
    StartedCell(s, id, command);
    assert s'.db.runs.Keys == s.db.runs.Keys + {id};
    forall r | r in s'.db.runs && r != id
      ensures RunOk(s', r)
    {
      assert RunOk(s, r);
      UntouchedKeeps(s, s', r);
    }
  }

  lemma StartKeepsTemplates(s: System, id: RunId, command: StartCommand)
    requires TemplatesOk(s.db) && StartRun(s.db, id, command).Ok?
    ensures TemplatesOk(Do(s, Start(id, command)).db)
  {
    var s' := Do(s, Start(id, command));
    forall t | t in s'.db.templates
      ensures TemplateLinked(s'.db, t)
    {
      assert TemplateLinked(s.db, t);
      LinkKeeps(s.db, s'.db, t);
    }
  }

  lemma StartKeepsInFlight(s: System, id: RunId, command: StartCommand)
    requires OneInFlight(s.db) && Owned(s) && StartRun(s.db, id, command).Ok?
    ensures OneInFlight(Do(s, Start(id, command)).db) && Owned(Do(s, Start(id, command)))
  {
  }

  lemma StartKeepsInv(s: System, id: RunId, command: StartCommand)
    requires Inv(s) && StartRun(s.db, id, command).Ok?
    ensures Inv(Do(s, Start(id, command)))
  {
    StartKeepsRuns(s, id, command);
    StartKeepsTemplates(s, id, command);
    StartKeepsInFlight(s, id, command);
  }

  /** Desired state only moves under runs that have ended. */
  lemma DesiredKeepsRun(s: System, t: TemplateId, revision: Revision, config: Json, r: RunId)
    requires RunOk(s, r) && ChangeDesired(s.db, t, revision, Document(config)).Ok?
    ensures RunOk(Do(s, UpdateDesired(t, revision, config)), r)
  {
    var s' := Do(s, UpdateDesired(t, revision, config));
    if s.db.runs[r].template == t {
      assert Terminal(s.db.runs[r].status);
      assert CellOf(s', r) == CellOf(s, r).(template := s'.db.templates[t]);
    } else {
      assert CellOf(s', r) == CellOf(s, r);
    }
  }

  lemma DesiredKeepsInv(s: System, t: TemplateId, revision: Revision, config: Json)
    requires Inv(s) && ChangeDesired(s.db, t, revision, Document(config)).Ok?
    ensures Inv(Do(s, UpdateDesired(t, revision, config)))
  {
    var s' := Do(s, UpdateDesired(t, revision, config));
    forall r | r in s'.db.runs
      ensures RunOk(s', r)
    {
      DesiredKeepsRun(s, t, revision, config, r);
    }
    forall u | u in s'.db.templates
      ensures TemplateLinked(s'.db, u)
    {
      LinkKeeps(s.db, s'.db, u);
    }
  }

  lemma InstallKeepsInv(s: System, t: TemplateId, revision: Revision, config: Json)
    requires Inv(s) && Install(s.db, t, revision, Document(config)).Ok?
    ensures Inv(Do(s, InstallTemplate(t, revision, config)))
  {
    var s' := Do(s, InstallTemplate(t, revision, config));
    forall r | r in s'.db.runs
      ensures RunOk(s', r)
    {
      assert RunOk(s, r);
      assert CellOf(s', r) == CellOf(s, r);
      UntouchedKeeps(s, s', r);
    }
    forall u | u in s'.db.templates
      ensures TemplateLinked(s'.db, u)
    {
      if u != t { LinkKeeps(s.db, s'.db, u); }
    }
  }

  lemma DoKeepsInv(s: System, action: Action)
    requires Inv(s)
    ensures Inv(Do(s, action))
  {
    match action
    case InstallTemplate(t, revision, config) =>
      if Install(s.db, t, revision, Document(config)).Ok? { InstallKeepsInv(s, t, revision, config); }
    case UpdateDesired(t, revision, config) =>
      if ChangeDesired(s.db, t, revision, Document(config)).Ok? { DesiredKeepsInv(s, t, revision, config); }
    case Start(r, command) =>
      if StartRun(s.db, r, command).Ok? { StartKeepsInv(s, r, command); }
    case OnRun(r, move) =>
      if Known(s, r) {
        assert RunOk(s, r);
        MoveKeeps(r, CellOf(s, r), move);
        MoveKeepsInv(s, r, Moved(r, CellOf(s, r), move));
      }
  }

  /** The invariant holds after any sequence of actions. */
  lemma {:induction false} Reachable(actions: seq<Action>)
    ensures Inv(Replay(actions))
  {
    if actions != [] {
      Reachable(actions[..|actions| - 1]);
      DoKeepsInv(Replay(actions[..|actions| - 1]), actions[|actions| - 1]);
    }
  }

  // ---- What it says of one reachable run or template ----

  /** What the invariant says of one run. */
  lemma RunHolds(actions: seq<Action>, r: RunId)
    requires r in Replay(actions).db.runs
    ensures Known(Replay(actions), r) && CellOk(r, CellOf(Replay(actions), r))
  {
    Reachable(actions);
    assert RunOk(Replay(actions), r);
  }

  lemma KnownHolds(actions: seq<Action>, r: RunId)
    requires r in Replay(actions).db.runs
    ensures Known(Replay(actions), r)
  {
    RunHolds(actions, r);
  }

  lemma RowHolds(actions: seq<Action>, r: RunId)
    requires r in Replay(actions).db.runs
    ensures RowOk(Replay(actions).db.runs[r])
  {
    RunHolds(actions, r);
  }

  /** What it says of one template. */
  lemma TemplateHolds(actions: seq<Action>, t: TemplateId)
    requires t in Replay(actions).db.templates
    ensures OneInFlight(Replay(actions).db) && TemplateLinked(Replay(actions).db, t)
  {
    Reachable(actions);
  }

  lemma OwnedHolds(actions: seq<Action>)
    ensures Owned(Replay(actions))
  {
    Reachable(actions);
  }

  // ---- What one action does to one run ----

  lemma MoverMoves(s: System, r: RunId, move: Move)
    requires RunOk(s, r)
    ensures Known(Do(s, OnRun(r, move)), r)
    ensures MoveOk(r, CellOf(s, r), CellOf(Do(s, OnRun(r, move)), r))
  {
    var c' := Moved(r, CellOf(s, r), move);
    MoveKeeps(r, CellOf(s, r), move);
    assert CellOf(Put(s, r, c'), r) == c';
  }

  lemma OtherStays(s: System, q: RunId, move: Move, r: RunId)
    requires RunOk(s, q) && Known(s, r) && q != r
    ensures Known(Do(s, OnRun(q, move)), r) && Do(s, OnRun(q, move)).db.runs[r] == s.db.runs[r]
  {
    MoveKeeps(q, CellOf(s, q), move);
  }

  lemma CommandStays(s: System, action: Action, r: RunId)
    requires Known(s, r) && !action.OnRun?
    ensures Known(Do(s, action), r) && Do(s, action).db.runs[r] == s.db.runs[r]
  {
  }

  /** One action moves a run as its moves may, or leaves its row alone. */
  lemma DoMovesRun(s: System, action: Action, r: RunId)
    requires RunsOk(s) && r in s.db.runs
    ensures Known(s, r) && Known(Do(s, action), r)
    ensures MoveOk(r, CellOf(s, r), CellOf(Do(s, action), r)) || Do(s, action).db.runs[r] == s.db.runs[r]
  {
    assert RunOk(s, r);
    if !action.OnRun? {
      CommandStays(s, action, r);
    } else if action.run == r {
      MoverMoves(s, r, action.move);
    } else if Known(s, action.run) {
      assert RunOk(s, action.run);
      OtherStays(s, action.run, action.move, r);
    }
  }

  // ---- One run's row and workflows, whatever the action ----

  /** A run's own part of the system. */
  datatype Part = Part(run: Run, plan: Option<PlanFlow>, apply: Option<ApplyFlow>)

  function PartOf(s: System, r: RunId): Part
    requires r in s.db.runs
  {
    Part(s.db.runs[r], Lookup(s.plans, r), Lookup(s.applies, r))
  }

  function CellPart(c: Cell): Part {
    Part(c.run, c.plan, c.apply)
  }

  /** Its own moves move it, and nothing else does. */
  lemma DoMovesPart(s: System, action: Action, r: RunId)
    requires RunsOk(s) && r in s.db.runs
    ensures Known(s, r) && r in Do(s, action).db.runs
    ensures PartOf(Do(s, action), r) ==
            if action.OnRun? && action.run == r then CellPart(Moved(r, CellOf(s, r), action.move)) else PartOf(s, r)
  {
    assert RunOk(s, r);
    if !action.OnRun? {
      CommandStays(s, action, r);
    } else if action.run == r {
      MoverMoves(s, r, action.move);
    } else if Known(s, action.run) {
      assert RunOk(s, action.run);
      OtherStays(s, action.run, action.move, r);
    }
  }

  /** A run that is new is queued, and no workflow of it has started. */
  lemma NewPart(s: System, action: Action, r: RunId)
    requires RunsOk(s) && Owned(s) && r !in s.db.runs && r in Do(s, action).db.runs
    ensures var part := PartOf(Do(s, action), r);
            part.run.status == Queued && part.run.plan.None? && part.run.apply.None? && part.plan.None? && part.apply.None?
  {
    if action.OnRun? { OldRunsOnly(s, action, r); }
  }

  /** A run's move makes no run. */
  lemma OldRunsOnly(s: System, action: Action, r: RunId)
    requires action.OnRun? && r !in s.db.runs
    ensures r !in Do(s, action).db.runs
  {
  }
}
