/** The queue with the workers that deliver from it, over any interleaving of
    enqueues, claims, settlements, crashes, pruning and the passing of time. */
module QueueDeliveries {
  import opened Options
  import opened WorkQueue

  /** A claimed item in a worker's hands: being delivered, or delivered but
      superseded by a newer intent and about to be put back; or out of them:
      delivered and completed, or given up. */
  datatype Stage = Delivering | Superseded | Done | GivenUp

  datatype Delivery = Delivery(item: Item, claimedAt: nat, lease: nat, stage: Stage)

  /** log holds, for each row, every payload the row has held, oldest first. */
  datatype World = World(q: Queue, now: nat, deliveries: seq<Delivery>, log: map<RowId, seq<Payload>>)

  datatype Action =
    | Submit(request: Request)
    | ClaimRow(id: RowId, lease: nat)     // a batch is claimed at one instant, row by row
    | Finish(delivery: nat)               // the handler succeeded: complete the row
    | Release(delivery: nat, delay: nat)  // the handler failed, or its intent was superseded: reschedule
    | Crash(delivery: nat)                // the worker is gone; its lease stays
    | Prune(retention: nat)
    | Tick(ticks: nat)

  predicate Open(w: World, d: nat) {
    d < |w.deliveries| && (w.deliveries[d].stage == Delivering || w.deliveries[d].stage == Superseded)
  }

  function WithStage(w: World, d: nat, stage: Stage): World
    requires d < |w.deliveries|
  {
    w.(deliveries := w.deliveries[d := w.deliveries[d].(stage := stage)])
  }

  function RowLeased(q: Queue, id: RowId, until: nat): Queue
    requires id in q.rows
  {
    q.(rows := q.rows[id := Leased(q.rows[id], until)])
  }

  ghost function Submitted(specs: map<Kind, Mode>, w: World, request: Request): World {
    if !Resolves(specs, request) then w
    else
      var mode := specs[request.kind];
      var q' := Enqueued(w.q, request, mode);
      match PendingId(w.q, request.kind, request.key)
      case None => w.(q := q', log := w.log[q'.nextId := [request.payload]])
      case Some(id) =>
        if mode == Reconcile && id in w.log
        then w.(q := q', log := w.log[id := w.log[id] + [request.payload]])
        else w.(q := q')
  }

  ghost function Do(specs: map<Kind, Mode>, w: World, action: Action): World {
    match action
    case Submit(request) => Submitted(specs, w, request)
    case ClaimRow(id, lease) =>
      if id !in w.q.rows || !Eligible(w.q.rows[id], w.now) then w
      else
        var q' := RowLeased(w.q, id, w.now + lease);
        w.(q := q', deliveries := w.deliveries + [Delivery(q'.rows[id].item, w.now, lease, Delivering)])
    case Finish(d) =>
      if !Open(w, d) || w.deliveries[d].stage != Delivering then w
      else
        var item := w.deliveries[d].item;
        WithStage(w.(q := Completed(w.q, item.id, item.revision, w.now)), d,
          if Completes(w.q, item.id, item.revision) then Done else Superseded)
    case Release(d, delay) =>
      if !Open(w, d) then w
      else WithStage(w.(q := Rescheduled(w.q, w.deliveries[d].item.id, w.now + delay, "")), d, GivenUp)
    case Crash(d) => if Open(w, d) then WithStage(w, d, GivenUp) else w
    case Prune(retention) => w.(q := Pruned(w.q, retention, w.now))
    case Tick(ticks) => w.(now := w.now + ticks)
  }

  ghost function Replay(specs: map<Kind, Mode>, actions: seq<Action>): World {
    if actions == [] then World(Queue(map[], 0), 0, [], map[])
    else Do(specs, Replay(specs, actions[..|actions| - 1]), actions[|actions| - 1])
  }

  /** Claiming a batch at one instant is claiming its rows one after another. */
  lemma BatchIsRowByRow(q: Queue, ids: seq<RowId>, id: RowId, until: nat)
    requires id in q.rows && id !in ids
    ensures Claimed(q, [], until) == q
    ensures Claimed(q, ids + [id], until) == RowLeased(Claimed(q, ids, until), id, until)
  {
    assert Claimed(q, [], until).rows == q.rows;
    assert Claimed(q, ids + [id], until).rows == RowLeased(Claimed(q, ids, until), id, until).rows;
  }

  // ---- The fence ----

  /** Each row's revision counts the payloads it has held, and it holds the last
      of them; each claimed item holds the one of its own revision. */
  ghost predicate Fenced(w: World) {
    && WellFormed(w.q)
    && (forall id :: id in w.log ==> id <= w.q.nextId)
    && (forall id :: id in w.q.rows ==> RowLogged(w, id))
    && (forall d :: 0 <= d < |w.deliveries| ==> ItemLogged(w, w.deliveries[d].item))
  }

  ghost predicate RowLogged(w: World, id: RowId)
    requires id in w.q.rows
  {
    var item := w.q.rows[id].item;
    id in w.log && |w.log[id]| == item.revision >= 1 && item.payload == w.log[id][item.revision - 1]
  }

  ghost predicate ItemLogged(w: World, item: Item) {
    && (item.id in w.q.rows ==> w.q.rows[item.id].item.kind == item.kind && w.q.rows[item.id].item.key == item.key)
    && item.id in w.log && 1 <= item.revision <= |w.log[item.id]| && item.payload == w.log[item.id][item.revision - 1]
  }

  /** A submission that gets a row of its own leaves everything else as it was. */
  lemma NewRowKeepsFence(w: World, request: Request)
    requires Fenced(w)
    requires WellFormed(Queue(w.q.rows[w.q.nextId + 1 := NewRow(w.q.nextId + 1, request)], w.q.nextId + 1))
    ensures Fenced(w.(q := Queue(w.q.rows[w.q.nextId + 1 := NewRow(w.q.nextId + 1, request)], w.q.nextId + 1),
                      log := w.log[w.q.nextId + 1 := [request.payload]]))
  {}

  /** One that coalesces adds its payload as the row's next revision. */
  lemma CoalescedKeepsFence(w: World, id: RowId, payload: Payload)
    requires Fenced(w) && id in w.q.rows
    requires WellFormed(w.q.(rows := w.q.rows[id := Coalesced(w.q.rows[id], payload)]))
    ensures id in w.log
    ensures Fenced(w.(q := w.q.(rows := w.q.rows[id := Coalesced(w.q.rows[id], payload)]), log := w.log[id := w.log[id] + [payload]]))
  {
    assert RowLogged(w, id);
  }

  lemma SubmitKeepsFence(specs: map<Kind, Mode>, w: World, request: Request)
    requires Fenced(w)
    ensures Fenced(Submitted(specs, w, request))
  {
    if Resolves(specs, request) {
      EnqueuedWellFormed(w.q, request, specs[request.kind]);
      match PendingId(w.q, request.kind, request.key)
      case None => NewRowKeepsFence(w, request);
      case Some(id) => if specs[request.kind] == Reconcile { CoalescedKeepsFence(w, id, request.payload); }
    }
  }

  predicate SameWork(a: Item, b: Item) {
    a.(attempts := b.attempts) == b
  }

  /** The fence holds as long as rows keep their work and workers take theirs
      from the rows. */
  lemma SameWorkKeepsFence(w: World, w': World)
    requires Fenced(w) && WellFormed(w'.q)
    requires w'.log == w.log && w'.q.nextId == w.q.nextId
    requires forall id :: id in w'.q.rows ==> id in w.q.rows && SameWork(w.q.rows[id].item, w'.q.rows[id].item)
    requires forall d :: 0 <= d < |w'.deliveries| ==>
               var item := w'.deliveries[d].item;
               (d < |w.deliveries| && item == w.deliveries[d].item)
               || (item.id in w'.q.rows && item == w'.q.rows[item.id].item)
    ensures Fenced(w')
  {
    forall id | id in w'.q.rows ensures RowLogged(w', id) { assert RowLogged(w, id); }
    forall d | 0 <= d < |w'.deliveries| ensures ItemLogged(w', w'.deliveries[d].item) {
      if d < |w.deliveries| { assert ItemLogged(w, w.deliveries[d].item); }
    }
  }

  lemma RowLeasedWellFormed(q: Queue, id: RowId, until: nat)
    requires WellFormed(q) && id in q.rows
    ensures WellFormed(RowLeased(q, id, until))
  {
    assert forall x, kind, key :: PendingFor(RowLeased(q, id, until), x, kind, key) ==> PendingFor(q, x, kind, key);
  }

  lemma ClaimKeepsFence(specs: map<Kind, Mode>, w: World, id: RowId, lease: nat)
    requires Fenced(w)
    ensures Fenced(Do(specs, w, ClaimRow(id, lease)))
  {
    if id in w.q.rows && Eligible(w.q.rows[id], w.now) {
      RowLeasedWellFormed(w.q, id, w.now + lease);
      SameWorkKeepsFence(w, Do(specs, w, ClaimRow(id, lease)));
    }
  }

  lemma FinishKeepsFence(specs: map<Kind, Mode>, w: World, d: nat)
    requires Fenced(w)
    ensures Fenced(Do(specs, w, Finish(d)))
  {
    if Open(w, d) {
      SettledWellFormed(w.q, w.deliveries[d].item.id, w.deliveries[d].item.revision, w.now);
      SameWorkKeepsFence(w, Do(specs, w, Finish(d)));
    }
  }

  lemma ReleaseKeepsFence(specs: map<Kind, Mode>, w: World, d: nat, delay: nat)
    requires Fenced(w)
    ensures Fenced(Do(specs, w, Release(d, delay)))
  {
    if Open(w, d) {
      RescheduledWellFormed(w.q, w.deliveries[d].item.id, w.now + delay, "");
      SameWorkKeepsFence(w, Do(specs, w, Release(d, delay)));
    }
  }

  lemma DoKeepsFence(specs: map<Kind, Mode>, w: World, action: Action)
    requires Fenced(w)
    ensures Fenced(Do(specs, w, action))
  {
    match action
    case Submit(request) => SubmitKeepsFence(specs, w, request);
    case ClaimRow(id, lease) => ClaimKeepsFence(specs, w, id, lease);
    case Finish(d) => FinishKeepsFence(specs, w, d);
    case Release(d, delay) => ReleaseKeepsFence(specs, w, d, delay);
    case Prune(retention) =>
      PrunedWellFormed(w.q, retention, w.now);
      SameWorkKeepsFence(w, Do(specs, w, action));
    case _ => SameWorkKeepsFence(w, Do(specs, w, action));
  }

  lemma {:induction false} FencedAlways(specs: map<Kind, Mode>, actions: seq<Action>)
    ensures Fenced(Replay(specs, actions))
  {
    if actions != [] {
      FencedAlways(specs, actions[..|actions| - 1]);
      DoKeepsFence(specs, Replay(specs, actions[..|actions| - 1]), actions[|actions| - 1]);
    }
  }

  /** Whenever a worker's Complete marks its row processed, what the worker
      delivered is the newest payload the row ever held. */
  lemma CompletedDeliveryIsNewest(specs: map<Kind, Mode>, actions: seq<Action>, d: nat)
    requires d < |Replay(specs, actions).deliveries|
    requires var w := Replay(specs, actions);
             Completes(w.q, w.deliveries[d].item.id, w.deliveries[d].item.revision)
    ensures var w := Replay(specs, actions); var item := w.deliveries[d].item;
            item.id in w.log && w.log[item.id] != [] && item.payload == w.log[item.id][|w.log[item.id]| - 1]
  {
    FencedAlways(specs, actions);
    var w := Replay(specs, actions);
    assert RowLogged(w, w.deliveries[d].item.id);
  }

  // ---- Conservation ----

  /** At most one row is pending for a kind and key. */
  lemma OnePendingRow(specs: map<Kind, Mode>, actions: seq<Action>, a: RowId, b: RowId, kind: Kind, key: string)
    requires PendingFor(Replay(specs, actions).q, a, kind, key) && PendingFor(Replay(specs, actions).q, b, kind, key)
    ensures a == b
  {
    FencedAlways(specs, actions);
  }

  /** A worker that delivered the row's current revision completes it. */
  predicate CompletesRow(w: World, action: Action, id: RowId) {
    && action.Finish? && Open(w, action.delivery) && w.deliveries[action.delivery].stage == Delivering
    && w.deliveries[action.delivery].item.id == id
    && Completes(w.q, id, w.deliveries[action.delivery].item.revision)
  }

  predicate StillPending(q: Queue, q': Queue, id: RowId)
    requires id in q.rows
  {
    && id in q'.rows && IsPending(q'.rows[id])
    && q'.rows[id].item.kind == q.rows[id].item.kind && q'.rows[id].item.key == q.rows[id].item.key
  }

  lemma SubmitLeavesPending(specs: map<Kind, Mode>, w: World, request: Request, id: RowId)
    requires Fenced(w) && id in w.q.rows && IsPending(w.q.rows[id])
    ensures StillPending(w.q, Submitted(specs, w, request).q, id)
  {}

  lemma OthersLeavePending(specs: map<Kind, Mode>, w: World, action: Action, id: RowId)
    requires !action.Submit? && id in w.q.rows && IsPending(w.q.rows[id])
    ensures StillPending(w.q, Do(specs, w, action).q, id) || CompletesRow(w, action, id)
  {}

  /** A pending row stops being pending only when a worker that delivered its
      current revision completes it; no other action ends or deletes it. */
  lemma OnlyCompletionEndsPending(specs: map<Kind, Mode>, actions: seq<Action>, action: Action, id: RowId)
    requires var q := Replay(specs, actions).q; id in q.rows && IsPending(q.rows[id])
    ensures var w := Replay(specs, actions);
            StillPending(w.q, Do(specs, w, action).q, id) || CompletesRow(w, action, id)
  {
    if action.Submit? {
      FencedAlways(specs, actions);
      SubmitLeavesPending(specs, Replay(specs, actions), action.request, id);
    } else {
      OthersLeavePending(specs, Replay(specs, actions), action, id);
    }
  }

  /** Leases are at most lease long, and no row is put off by more than delay. */
  predicate Bounded(actions: seq<Action>, lease: nat, delay: nat) {
    forall i :: 0 <= i < |actions| ==>
      && (actions[i].ClaimRow? ==> actions[i].lease <= lease)
      && (actions[i].Release? ==> actions[i].delay <= delay)
  }

  ghost predicate Soon(w: World, lease: nat, delay: nat) {
    forall id :: id in w.q.rows ==>
      && w.q.rows[id].availableAt <= w.now + delay
      && (w.q.rows[id].claimedUntil.Some? ==> w.q.rows[id].claimedUntil.value <= w.now + lease)
  }

  lemma SettleKeepsSoon(specs: map<Kind, Mode>, w: World, action: Action, lease: nat, delay: nat)
    requires Soon(w, lease, delay)
    requires action.Finish? || (action.Release? && action.delay <= delay)
    ensures Soon(Do(specs, w, action), lease, delay)
  {}

  lemma DoKeepsSoon(specs: map<Kind, Mode>, w: World, action: Action, lease: nat, delay: nat)
    requires Soon(w, lease, delay)
    requires action.ClaimRow? ==> action.lease <= lease
    requires action.Release? ==> action.delay <= delay
    ensures Soon(Do(specs, w, action), lease, delay)
  {
    if action.Finish? || action.Release? { SettleKeepsSoon(specs, w, action, lease, delay); }
  }

  lemma {:induction false} SoonAlways(specs: map<Kind, Mode>, actions: seq<Action>, lease: nat, delay: nat)
    requires Bounded(actions, lease, delay)
    ensures Soon(Replay(specs, actions), lease, delay)
  {
    if actions != [] {
      SoonAlways(specs, actions[..|actions| - 1], lease, delay);
      DoKeepsSoon(specs, Replay(specs, actions[..|actions| - 1]), actions[|actions| - 1], lease, delay);
    }
  }

  /** Every pending row can be claimed again within the longer of the lease and
      the longest delay, whatever became of its worker. */
  lemma PendingRowsComeBack(specs: map<Kind, Mode>, actions: seq<Action>, lease: nat, delay: nat, id: RowId, at: nat)
    requires Bounded(actions, lease, delay)
    requires var q := Replay(specs, actions).q; id in q.rows && IsPending(q.rows[id])
    requires at >= Replay(specs, actions).now + if lease < delay then delay else lease
    ensures Eligible(Replay(specs, actions).q.rows[id], at)
  {
    SoonAlways(specs, actions, lease, delay);
  }

  // ---- Mutual exclusion ----

  /** No delivery is ever still open when its lease runs out. */
  ghost predicate OnTime(specs: map<Kind, Mode>, actions: seq<Action>) {
    forall n :: 0 <= n <= |actions| ==> WithinLease(Replay(specs, actions[..n]))
  }

  ghost predicate WithinLease(w: World) {
    forall d: nat :: Open(w, d) ==> w.now < w.deliveries[d].claimedAt + w.deliveries[d].lease
  }

  /** Each open delivery holds its row's lease, and no two hold the same row. */
  ghost predicate Exclusive(w: World) {
    && (forall d: nat :: Open(w, d) ==> HoldsLease(w, d))
    && (forall d: nat, e: nat :: Open(w, d) && Open(w, e) && w.deliveries[d].item.id == w.deliveries[e].item.id ==> d == e)
  }

  ghost predicate HoldsLease(w: World, d: nat)
    requires Open(w, d)
  {
    var delivery := w.deliveries[d];
    var id := delivery.item.id;
    id in w.q.rows && IsPending(w.q.rows[id]) && w.q.rows[id].claimedUntil == Some(delivery.claimedAt + delivery.lease)
  }

  lemma ClaimKeepsExclusive(specs: map<Kind, Mode>, w: World, id: RowId, lease: nat)
    requires Exclusive(w) && Fenced(w) && WithinLease(w)
    ensures Exclusive(Do(specs, w, ClaimRow(id, lease)))
  {
    var w' := Do(specs, w, ClaimRow(id, lease));
    forall d: nat | Open(w', d)
      ensures HoldsLease(w', d)
      ensures d < |w.deliveries| && w' != w ==> w'.deliveries[d].item.id != id
    {
      if d < |w.deliveries| { assert Open(w, d) && HoldsLease(w, d); }
    }
  }

  lemma SettleKeepsExclusive(specs: map<Kind, Mode>, w: World, action: Action)
    requires Exclusive(w) && (action.Finish? || action.Release? || action.Crash?)
    ensures Exclusive(Do(specs, w, action))
  {
    var w' := Do(specs, w, action);
    forall d: nat | Open(w', d)
      ensures HoldsLease(w', d)
    {
      assert Open(w, d) && HoldsLease(w, d);
      assert d != action.delivery && Open(w, action.delivery) ==>
          w.deliveries[d].item.id != w.deliveries[action.delivery].item.id;
    }
  }

  lemma DoKeepsExclusive(specs: map<Kind, Mode>, w: World, action: Action)
    requires Exclusive(w) && Fenced(w) && WithinLease(w)
    ensures Exclusive(Do(specs, w, action))
  {
    match action
    case ClaimRow(id, lease) => ClaimKeepsExclusive(specs, w, id, lease);
    case Finish(_) => SettleKeepsExclusive(specs, w, action);
    case Release(_, _) => SettleKeepsExclusive(specs, w, action);
    case Crash(_) => SettleKeepsExclusive(specs, w, action);
    case _ =>
      var w' := Do(specs, w, action);
      forall d: nat | Open(w', d) ensures HoldsLease(w', d) { assert Open(w, d) && HoldsLease(w, d); }
  }

  /** When deliveries end before their leases do, no two deliveries of one row
      are ever open together, and the lease a settlement clears is always the
      settling worker's own. */
  lemma {:induction false} DeliveriesNeverOverlap(specs: map<Kind, Mode>, actions: seq<Action>)
    requires OnTime(specs, actions)
    ensures Exclusive(Replay(specs, actions))
  {
    if actions != [] {
      var before := actions[..|actions| - 1];
      assert forall n :: 0 <= n <= |before| ==> before[..n] == actions[..n];
      assert before == actions[..|before|];
      DeliveriesNeverOverlap(specs, before);
      FencedAlways(specs, before);
      DoKeepsExclusive(specs, Replay(specs, before), actions[|actions| - 1]);
    }
  }

  /** One tick of lateness is enough: a delivery still open when its lease runs
      out can be joined by another of the same row. */
  lemma LateDeliveryOverlaps(specs: map<Kind, Mode>, request: Request, lease: nat)
    requires Resolves(specs, request)
    ensures var w := Replay(specs, [Submit(request), ClaimRow(1, lease), Tick(lease), ClaimRow(1, lease)]);
            Open(w, 0) && Open(w, 1) && w.deliveries[0].item.id == w.deliveries[1].item.id && !Exclusive(w)
  {
    var submit, claim, tick := Submit(request), ClaimRow(1, lease), Tick(lease);
    var w0 := World(Queue(map[], 0), 0, [], map[]);
    Stepwise(specs, submit, claim, tick, claim);
    assert PendingId(w0.q, request.kind, request.key) == None;
    var w1 := Do(specs, w0, submit);
    assert Eligible(w1.q.rows[1], w1.now);
    var w2 := Do(specs, w1, claim);
    var w3 := Do(specs, w2, tick);
    assert Eligible(w3.q.rows[1], w3.now);
    var w4 := Do(specs, w3, claim);
    assert Open(w4, 0) && Open(w4, 1);
  }

  lemma Stepwise(specs: map<Kind, Mode>, a: Action, b: Action, c: Action, d: Action)
    ensures Replay(specs, [a, b, c, d]) ==
            Do(specs, Do(specs, Do(specs, Do(specs, World(Queue(map[], 0), 0, [], map[]), a), b), c), d)
  {
    assert [a, b, c, d][..3] == [a, b, c];
    assert [a, b, c][..2] == [a, b];
    assert [a, b][..1] == [a];
    assert Replay(specs, [a]) == Do(specs, Replay(specs, []), a) by { assert [a][..0] == []; }
    assert Replay(specs, [a, b]) == Do(specs, Replay(specs, [a]), b);
    assert Replay(specs, [a, b, c]) == Do(specs, Replay(specs, [a, b]), c);
  }

  // ---- The outbox ----

  /** What the outbox of a job kind holds: the payload pending for a key. */
  ghost function PendingPayload(q: Queue, kind: Kind, key: string): Option<Payload> {
    match PendingId(q, kind, key)
    case None => None
    case Some(id) => Some(q.rows[id].item.payload)
  }

  lemma PendingIdIs(q: Queue, id: RowId, kind: Kind, key: string)
    requires WellFormed(q) && PendingFor(q, id, kind, key)
    ensures PendingId(q, kind, key) == Some(id)
  {}

  /** A worker with the current revision of the row pending for a key completes it. */
  predicate CompletesKey(w: World, action: Action, kind: Kind, key: string) {
    && action.Finish? && Open(w, action.delivery) && w.deliveries[action.delivery].stage == Delivering
    && var item := w.deliveries[action.delivery].item;
       Completes(w.q, item.id, item.revision) && PendingFor(w.q, item.id, kind, key)
  }

  /** Only a submission changes a row's work, makes a row or makes one pending, and
      none changes what was claimed. */
  lemma OthersKeepWork(specs: map<Kind, Mode>, w: World, action: Action)
    requires !action.Submit?
    ensures var w' := Do(specs, w, action);
            && |w.deliveries| <= |w'.deliveries|
            && (forall d :: 0 <= d < |w.deliveries| ==> w'.deliveries[d].item == w.deliveries[d].item)
            && (forall id :: id in w'.q.rows ==>
                  && id in w.q.rows && SameWork(w.q.rows[id].item, w'.q.rows[id].item)
                  && (IsPending(w'.q.rows[id]) ==> IsPending(w.q.rows[id])))
  {}

  /** No other action touches what is pending for a key, or what it holds. */
  lemma OthersKeepPending(specs: map<Kind, Mode>, w: World, action: Action, kind: Kind, key: string)
    requires Fenced(w) && !action.Submit? && !CompletesKey(w, action, kind, key)
    ensures PendingPayload(Do(specs, w, action).q, kind, key) == PendingPayload(w.q, kind, key)
  {
    DoKeepsFence(specs, w, action);
    var q' := Do(specs, w, action).q;
    OthersKeepWork(specs, w, action);
    assert forall id :: PendingFor(q', id, kind, key) ==> PendingFor(w.q, id, kind, key);
    match PendingId(w.q, kind, key)
    case None =>
    case Some(id) =>
      assert PendingFor(q', id, kind, key) && q'.rows[id].item.payload == w.q.rows[id].item.payload;
      PendingIdIs(q', id, kind, key);
  }

  lemma SubmitPends(specs: map<Kind, Mode>, w: World, request: Request, kind: Kind, key: string)
    requires Fenced(w)
    ensures var before := PendingPayload(w.q, kind, key);
            PendingPayload(Submitted(specs, w, request).q, kind, key) ==
            if Resolves(specs, request) && request.kind == kind && request.key == key
               && (before.None? || specs[kind] == Reconcile)
            then Some(request.payload) else before
  {
    SubmitKeepsFence(specs, w, request);
    var q' := Submitted(specs, w, request).q;
    match PendingId(w.q, kind, key)
    case None =>
      assert forall id :: !PendingFor(w.q, id, kind, key);
      if Resolves(specs, request) && request.kind == kind && request.key == key {
        PendingIdIs(q', q'.nextId, kind, key);
      } else {
        forall id ensures !PendingFor(q', id, kind, key) { assert !PendingFor(w.q, id, kind, key); }
        assert PendingId(q', kind, key) == None;
      }
    case Some(id) =>
      assert PendingFor(q', id, kind, key);
      PendingIdIs(q', id, kind, key);
  }

  /** A job key's pending intent is added by the first enqueue, kept as it is by
      every other action, and removed only by a worker that completed it. */
  lemma JobIntentsArePreserved(specs: map<Kind, Mode>, actions: seq<Action>, action: Action, kind: Kind, key: string)
    requires kind in specs && specs[kind] == Job
    ensures var w := Replay(specs, actions);
            var before := PendingPayload(w.q, kind, key);
            var after := PendingPayload(Do(specs, w, action).q, kind, key);
            || after == before
            || (before.None? && after.Some? && action == Submit(Request(kind, key, after.value)))
            || (after.None? && CompletesKey(w, action, kind, key))
  {
    var w := Replay(specs, actions);
    FencedAlways(specs, actions);
    if action.Submit? {
      SubmitPends(specs, w, action.request, kind, key);
    } else if CompletesKey(w, action, kind, key) {
      CompletionEndsPending(specs, w, action, kind, key);
    } else {
      OthersKeepPending(specs, w, action, kind, key);
    }
  }

  lemma CompletionEndsPending(specs: map<Kind, Mode>, w: World, action: Action, kind: Kind, key: string)
    requires Fenced(w) && CompletesKey(w, action, kind, key)
    ensures PendingPayload(Do(specs, w, action).q, kind, key) == None
    ensures PendingPayload(w.q, kind, key) == Some(w.deliveries[action.delivery].item.payload)
  {
    var id := w.deliveries[action.delivery].item.id;
    var q' := Do(specs, w, action).q;
    assert RowLogged(w, id);
    PendingIdIs(w.q, id, kind, key);
    forall x | PendingFor(q', x, kind, key) ensures false { assert PendingFor(w.q, x, kind, key); }
  }

  /** A job's rows are never rewritten. */
  ghost predicate JobsUnchanged(specs: map<Kind, Mode>, q: Queue) {
    forall id :: id in q.rows && q.rows[id].item.kind in specs && specs[q.rows[id].item.kind] == Job ==>
      q.rows[id].item.revision == 1
  }

  lemma {:induction false} JobsNeverChange(specs: map<Kind, Mode>, actions: seq<Action>)
    ensures JobsUnchanged(specs, Replay(specs, actions).q)
  {
    if actions != [] {
      var before, action := actions[..|actions| - 1], actions[|actions| - 1];
      JobsNeverChange(specs, before);
      if !action.Submit? { OthersKeepWork(specs, Replay(specs, before), action); }
    }
  }

  /** So whatever a worker holds of a job's row that is still pending is what is
      pending for its key. */
  lemma JobDeliveriesAreCurrent(specs: map<Kind, Mode>, actions: seq<Action>, d: nat, kind: Kind, key: string)
    requires kind in specs && specs[kind] == Job && d < |Replay(specs, actions).deliveries|
    requires PendingFor(Replay(specs, actions).q, Replay(specs, actions).deliveries[d].item.id, kind, key)
    ensures var w := Replay(specs, actions); PendingPayload(w.q, kind, key) == Some(w.deliveries[d].item.payload)
    ensures var w := Replay(specs, actions); Completes(w.q, w.deliveries[d].item.id, w.deliveries[d].item.revision)
  {
    var w := Replay(specs, actions);
    FencedAlways(specs, actions);
    JobsNeverChange(specs, actions);
    assert ItemLogged(w, w.deliveries[d].item) && RowLogged(w, w.deliveries[d].item.id);
    PendingIdIs(w.q, w.deliveries[d].item.id, kind, key);
  }

  // ---- The newest intent ----

  predicate Submits(specs: map<Kind, Mode>, action: Action, kind: Kind, key: string) {
    action.Submit? && Resolves(specs, action.request) && action.request.kind == kind && action.request.key == key
  }

  /** The payload last submitted for a key. */
  function LastSubmitted(specs: map<Kind, Mode>, actions: seq<Action>, kind: Kind, key: string): Option<Payload> {
    if actions == [] then None
    else
      var last := actions[|actions| - 1];
      if Submits(specs, last, kind, key) then Some(last.request.payload)
      else LastSubmitted(specs, actions[..|actions| - 1], kind, key)
  }

  /** How many deliveries had been claimed when it was submitted. */
  ghost function ClaimsAtLast(specs: map<Kind, Mode>, actions: seq<Action>, kind: Kind, key: string): nat {
    if actions == [] then 0
    else
      var before := actions[..|actions| - 1];
      if Submits(specs, actions[|actions| - 1], kind, key) then |Replay(specs, before).deliveries|
      else ClaimsAtLast(specs, before, kind, key)
  }

  /** Whatever was claimed before then of the row now pending is of an older
      revision than the row's. */
  ghost predicate OlderBefore(w: World, since: nat, kind: Kind, key: string) {
    && since <= |w.deliveries|
    && forall d :: 0 <= d < since && PendingFor(w.q, w.deliveries[d].item.id, kind, key) ==>
         w.deliveries[d].item.revision < w.q.rows[w.deliveries[d].item.id].item.revision
  }

  /** A submission outdates every claim made so far. */
  lemma SubmissionOutdates(specs: map<Kind, Mode>, w: World, request: Request)
    requires Fenced(w) && Resolves(specs, request) && specs[request.kind] == Reconcile
    ensures OlderBefore(Submitted(specs, w, request), |w.deliveries|, request.kind, request.key)
  {
    var w' := Submitted(specs, w, request);
    SubmitKeepsFence(specs, w, request);
    forall d | 0 <= d < |w.deliveries| && PendingFor(w'.q, w.deliveries[d].item.id, request.kind, request.key)
      ensures w.deliveries[d].item.revision < w'.q.rows[w.deliveries[d].item.id].item.revision
    {
      assert ItemLogged(w, w.deliveries[d].item);
      match PendingId(w.q, request.kind, request.key)
      case None => PendingIdIs(w'.q, w'.q.nextId, request.kind, request.key);
      case Some(id) => assert RowLogged(w, id); PendingIdIs(w'.q, id, request.kind, request.key);
    }
  }

  lemma OlderStays(w: World, w': World, since: nat, kind: Kind, key: string)
    requires OlderBefore(w, since, kind, key) && since <= |w'.deliveries|
    requires forall d :: 0 <= d < since ==> w'.deliveries[d].item == w.deliveries[d].item
    requires forall d :: 0 <= d < since && PendingFor(w'.q, w.deliveries[d].item.id, kind, key) ==>
               var id := w.deliveries[d].item.id;
               PendingFor(w.q, id, kind, key) && w'.q.rows[id].item.revision == w.q.rows[id].item.revision
    ensures OlderBefore(w', since, kind, key)
  {}

  lemma OthersKeepOlder(specs: map<Kind, Mode>, w: World, action: Action, since: nat, kind: Kind, key: string)
    requires Fenced(w) && !Submits(specs, action, kind, key) && OlderBefore(w, since, kind, key)
    ensures OlderBefore(Do(specs, w, action), since, kind, key)
  {
    var w' := Do(specs, w, action);
    if action.Submit? {
      forall d | 0 <= d < since ensures w.deliveries[d].item.id <= w.q.nextId { assert ItemLogged(w, w.deliveries[d].item); }
    } else {
      OthersKeepWork(specs, w, action);
    }
    OlderStays(w, w', since, kind, key);
  }

  lemma {:induction false} OlderAlways(specs: map<Kind, Mode>, actions: seq<Action>, kind: Kind, key: string)
    requires kind in specs && specs[kind] == Reconcile
    ensures OlderBefore(Replay(specs, actions), ClaimsAtLast(specs, actions, kind, key), kind, key)
  {
    if actions != [] {
      var before, action := actions[..|actions| - 1], actions[|actions| - 1];
      OlderAlways(specs, before, kind, key);
      FencedAlways(specs, before);
      if Submits(specs, action, kind, key) {
        SubmissionOutdates(specs, Replay(specs, before), action.request);
      } else {
        OthersKeepOlder(specs, Replay(specs, before), action, ClaimsAtLast(specs, before, kind, key), kind, key);
      }
    }
  }

  /** A delivery claimed since then had this payload for the key, and completed. */
  ghost predicate Delivered(w: World, since: nat, kind: Kind, key: string, payload: Payload) {
    exists d: nat :: since <= d < |w.deliveries| && DoneWith(w.deliveries[d], kind, key, payload)
  }

  predicate DoneWith(delivery: Delivery, kind: Kind, key: string, payload: Payload) {
    delivery.stage == Done && delivery.item.kind == kind && delivery.item.key == key && delivery.item.payload == payload
  }

  lemma DeliveredStays(specs: map<Kind, Mode>, w: World, action: Action, since: nat, kind: Kind, key: string, payload: Payload)
    requires Delivered(w, since, kind, key, payload)
    ensures Delivered(Do(specs, w, action), since, kind, key, payload)
  {
    var d: nat :| since <= d < |w.deliveries| && DoneWith(w.deliveries[d], kind, key, payload);
    assert DoneWith(Do(specs, w, action).deliveries[d], kind, key, payload);
  }

  /** The newest payload submitted for the key is pending, or was claimed and
      completed after it was submitted. */
  ghost predicate NewestKept(specs: map<Kind, Mode>, actions: seq<Action>, kind: Kind, key: string) {
    var pending := PendingPayload(Replay(specs, actions).q, kind, key);
    match LastSubmitted(specs, actions, kind, key)
    case None => pending == None
    case Some(payload) =>
      || pending == Some(payload)
      || (pending == None && Delivered(Replay(specs, actions), ClaimsAtLast(specs, actions, kind, key), kind, key, payload))
  }

  lemma CompletionDelivers(specs: map<Kind, Mode>, w: World, action: Action, since: nat, kind: Kind, key: string)
    requires Fenced(w) && CompletesKey(w, action, kind, key) && OlderBefore(w, since, kind, key)
    ensures PendingPayload(w.q, kind, key).Some? && PendingPayload(Do(specs, w, action).q, kind, key) == None
    ensures Delivered(Do(specs, w, action), since, kind, key, PendingPayload(w.q, kind, key).value)
  {
    CompletionEndsPending(specs, w, action, kind, key);
    var d := action.delivery;
    assert d >= since;
    assert DoneWith(Do(specs, w, action).deliveries[d], kind, key, w.deliveries[d].item.payload);
  }

  /** No intent is lost: the newest submission for a reconcile key is still pending,
      or a worker that claimed it afterwards delivered and completed it, however
      often the same payload was delivered before. */
  lemma {:induction false} NewestIntentIsKept(specs: map<Kind, Mode>, actions: seq<Action>, kind: Kind, key: string)
    requires kind in specs && specs[kind] == Reconcile
    ensures NewestKept(specs, actions, kind, key)
  {
    if actions != [] {
      var before, action := actions[..|actions| - 1], actions[|actions| - 1];
      var w := Replay(specs, before);
      var submitted, since := LastSubmitted(specs, before, kind, key), ClaimsAtLast(specs, before, kind, key);
      NewestIntentIsKept(specs, before, kind, key);
      FencedAlways(specs, before);
      if submitted.Some? && Delivered(w, since, kind, key, submitted.value) {
        DeliveredStays(specs, w, action, since, kind, key, submitted.value);
      }
      if action.Submit? {
        SubmitPends(specs, w, action.request, kind, key);
      } else if CompletesKey(w, action, kind, key) {
        OlderAlways(specs, before, kind, key);
        CompletionDelivers(specs, w, action, since, kind, key);
      } else {
        OthersKeepPending(specs, w, action, kind, key);
      }
    }
  }
}
