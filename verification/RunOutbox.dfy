/** The outbox of the run protocol is the work queue: a map of start intents and
    what the queue holds pending for their job keys change in step. */
module RunOutbox {
  import opened Options
  import opened Runs
  import opened StackTemplates
  import opened RunTables
  import opened RunProtocol
  import W = WorkQueue
  import Q = QueueDeliveries

  /** How a kind of start intent is put in the queue: under its run's key, as a
      payload that decodes to it. */
  datatype Coding = Coding(kind: W.Kind, key: RunId -> string, encode: WorkflowInput -> W.Payload)

  ghost predicate Faithful(coding: Coding, specs: map<W.Kind, W.Mode>) {
    && coding.kind in specs && specs[coding.kind] == W.Job
    && (forall r: RunId :: coding.key(r) != "")
    && (forall a: RunId, b: RunId :: coding.key(a) == coding.key(b) ==> a == b)
    && (forall a, b :: coding.encode(a) == coding.encode(b) ==> a == b)
  }

  function Encoded(coding: Coding, intent: Option<WorkflowInput>): Option<W.Payload> {
    if intent.Some? then Some(coding.encode(intent.value)) else None
  }

  /** The queue holds pending, for each run's key, exactly the run's intent. */
  ghost predicate Mirrors(coding: Coding, q: W.Queue, intents: map<RunId, WorkflowInput>) {
    forall r: RunId :: Mirrored(coding, q, intents, r)
  }

  ghost predicate Mirrored(coding: Coding, q: W.Queue, intents: map<RunId, WorkflowInput>, r: RunId) {
    Q.PendingPayload(q, coding.kind, coding.key(r)) == Encoded(coding, Lookup(intents, r))
  }

  // ---- The steps of an outbox ----

  /** An intent is enqueued; a worker that delivered a run's intent completes it; or
      the queue does something else. */
  datatype Step =
    | Enqueues(input: WorkflowInput)
    | Completes(run: RunId, delivery: nat)
    | Other(action: Q.Action)

  function QueueAction(coding: Coding, step: Step): Q.Action {
    match step
    case Enqueues(input) => Q.Submit(W.Request(coding.kind, coding.key(input.run), coding.encode(input)))
    case Completes(_, delivery) => Q.Finish(delivery)
    case Other(action) => action
  }

  ghost predicate Enabled(coding: Coding, w: Q.World, step: Step) {
    match step
    case Enqueues(_) => true
    case Completes(run, delivery) => Q.CompletesKey(w, Q.Finish(delivery), coding.kind, coding.key(run))
    case Other(action) =>
      && !(action.Submit? && action.request.kind == coding.kind)
      && forall r: RunId :: !Q.CompletesKey(w, action, coding.kind, coding.key(r))
  }

  function IntentsAfter(intents: map<RunId, WorkflowInput>, step: Step): map<RunId, WorkflowInput> {
    match step
    case Enqueues(input) => Enqueue(intents, input)
    case Completes(run, _) => intents - {run}
    case Other(_) => intents
  }

  /** Whatever the queue does, short of a stranger's submission of the kind, is one
      of the steps. */
  lemma EveryActionIsAStep(coding: Coding, w: Q.World, action: Q.Action) returns (step: Step)
    requires !(action.Submit? && action.request.kind == coding.kind)
    ensures Enabled(coding, w, step) && QueueAction(coding, step) == action
  {
    if r: RunId :| Q.CompletesKey(w, action, coding.kind, coding.key(r)) {
      step := Completes(r, action.delivery);
    } else {
      step := Other(action);
    }
  }

  lemma StepMirrors(coding: Coding, specs: map<W.Kind, W.Mode>, w: Q.World, intents: map<RunId, WorkflowInput>, step: Step, r: RunId)
    requires Faithful(coding, specs) && Q.Fenced(w) && Enabled(coding, w, step) && Mirrored(coding, w.q, intents, r)
    ensures Mirrored(coding, Q.Do(specs, w, QueueAction(coding, step)).q, IntentsAfter(intents, step), r)
  {
    var action, key := QueueAction(coding, step), coding.key(r);
    if action.Submit? {
      Q.SubmitPends(specs, w, action.request, coding.kind, key);
    } else if Q.CompletesKey(w, action, coding.kind, key) {
      Q.CompletionEndsPending(specs, w, action, coding.kind, key);
    } else {
      Q.OthersKeepPending(specs, w, action, coding.kind, key);
    }
  }

  /** The world and the intents after any steps, from an empty queue. */
  datatype Outbox = Outbox(actions: seq<Q.Action>, intents: map<RunId, WorkflowInput>)

  ghost function After(coding: Coding, specs: map<W.Kind, W.Mode>, steps: seq<Step>): Outbox {
    if steps == [] then Outbox([], map[])
    else
      var before, step := After(coding, specs, steps[..|steps| - 1]), steps[|steps| - 1];
      if Enabled(coding, Q.Replay(specs, before.actions), step)
      then Outbox(before.actions + [QueueAction(coding, step)], IntentsAfter(before.intents, step))
      else before
  }

  /** After any interleaving of enqueues, claims, deliveries, crashes, settlements
      and pruning, the queue holds pending exactly the protocol's intents. */
  lemma {:induction false} QueueMirrorsOutbox(coding: Coding, specs: map<W.Kind, W.Mode>, steps: seq<Step>)
    requires Faithful(coding, specs)
    ensures Mirrors(coding, Q.Replay(specs, After(coding, specs, steps).actions).q, After(coding, specs, steps).intents)
  {
    if steps == [] {
      forall r: RunId ensures Mirrored(coding, Q.Replay(specs, []).q, map[], r) {
        assert forall id :: !W.PendingFor(Q.Replay(specs, []).q, id, coding.kind, coding.key(r));
      }
    } else {
      var before, step := After(coding, specs, steps[..|steps| - 1]), steps[|steps| - 1];
      var w := Q.Replay(specs, before.actions);
      QueueMirrorsOutbox(coding, specs, steps[..|steps| - 1]);
      if Enabled(coding, w, step) {
        var action := QueueAction(coding, step);
        assert (before.actions + [action])[..|before.actions|] == before.actions;
        Q.FencedAlways(specs, before.actions);
        forall r: RunId
          ensures Mirrored(coding, Q.Do(specs, w, action).q, IntentsAfter(before.intents, step), r)
        {
          assert Mirrored(coding, w.q, before.intents, r);
          StepMirrors(coding, specs, w, before.intents, step, r);
        }
      }
    }
  }

  /** A worker whose claimed row is still pending for a run holds the run's intent:
      what it starts is what was enqueued. */
  lemma WorkersHoldTheIntent(coding: Coding, specs: map<W.Kind, W.Mode>, steps: seq<Step>, d: nat, r: RunId)
    requires Faithful(coding, specs)
    requires var w := Q.Replay(specs, After(coding, specs, steps).actions);
             d < |w.deliveries| && W.PendingFor(w.q, w.deliveries[d].item.id, coding.kind, coding.key(r))
    ensures var o := After(coding, specs, steps); var w := Q.Replay(specs, o.actions);
            r in o.intents && w.deliveries[d].item.payload == coding.encode(o.intents[r])
  {
    var o := After(coding, specs, steps);
    QueueMirrorsOutbox(coding, specs, steps);
    Q.JobDeliveriesAreCurrent(specs, o.actions, d, coding.kind, coding.key(r));
    assert Mirrored(coding, Q.Replay(specs, o.actions).q, o.intents, r);
  }

  // ---- The protocol's own intents move by those steps ----

  /** The step an action of the protocol makes of one of its outboxes, if any. */
  ghost predicate StepsTo(intents: map<RunId, WorkflowInput>, intents': map<RunId, WorkflowInput>, input: Option<WorkflowInput>, run: Option<RunId>) {
    if input.Some? then intents' == Enqueue(intents, input.value)
    else if run.Some? then intents' == intents - {run.value}
    else intents' == intents
  }

  /** Workflow activities and discards leave both intents alone. */
  lemma MovesKeepIntents(id: RunId, c: Cell, move: Move)
    ensures var c' := Moved(id, c, move);
            && (!move.DeliverPlan? ==> c'.planIntent == c.planIntent)
            && (!move.DeliverApply? && !move.ApproveMove? ==> c'.applyIntent == c.applyIntent)
  {
  }

  /** Plan intents: an accepted start of a run to plan enqueues it; a completed
      delivery takes it out; nothing else touches any. */
  lemma PlanIntentsStep(s: System, action: Action)
    ensures var s' := Do(s, action);
            StepsTo(s.db.planIntents, s'.db.planIntents,
              if action.Start? && StartRun(s.db, action.run, action.command).Ok? && !action.command.autoApprove
              then Some(InputOf(action.run, s'.db.runs[action.run])) else None,
              if action.OnRun? && Known(s, action.run) && action.move.DeliverPlan? && action.move.completes
              then Some(action.run) else None)
  {
    if action.OnRun? && Known(s, action.run) {
      MovesKeepIntents(action.run, CellOf(s, action.run), action.move);
    }
  }

  /** Apply intents: an accepted auto-approved start and an accepted approval
      enqueue; a completed delivery takes out; nothing else touches any. */
  lemma ApplyIntentsStep(s: System, action: Action)
    ensures var s' := Do(s, action);
            StepsTo(s.db.applyIntents, s'.db.applyIntents,
              if action.Start? && StartRun(s.db, action.run, action.command).Ok? && action.command.autoApprove
              then Some(InputOf(action.run, s'.db.runs[action.run]))
              else if action.OnRun? && Known(s, action.run) && action.move.ApproveMove?
                      && ApproveRun(action.run, ScopeOf(CellOf(s, action.run)), action.move.actor).Ok?
              then Some(InputOf(action.run, s'.db.runs[action.run])) else None,
              if action.OnRun? && Known(s, action.run) && action.move.DeliverApply? && action.move.completes
              then Some(action.run) else None)
  {
    if action.OnRun? && Known(s, action.run) {
      MovesKeepIntents(action.run, CellOf(s, action.run), action.move);
    }
  }
}
