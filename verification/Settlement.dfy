/** What a worker does with one claimed item: deliver it, chain what it asks for,
    and settle its row, backing off further with every failed attempt. */
module Settlement {
  import opened Options
  import opened WorkQueue
  import opened Dispatch
  import QueueDeliveries

  // ---- Backoff ----

  const MAX_EXPONENT := 32

  function Pow2(exponent: nat): (power: nat)
    ensures power >= 1
  {
    if exponent == 0 then 1 else 2 * Pow2(exponent - 1)
  }

  /** The cap that applies when a handler brings one of its own, or none. */
  function Cap(configured: int, handlers: Option<int>): int {
    OrDefault(if handlers.Some? && handlers.value > 0 then handlers.value else configured, DEFAULT_MAX_BACKOFF)
  }

  /** The exponential delay, before jitter, of the next attempt. */
  function Delay(baseBackoff: int, attempts: int, cap: int): int {
    var exponent := if attempts < 1 then 0 else if attempts - 1 > MAX_EXPONENT then MAX_EXPONENT else attempts - 1;
    var delay := OrDefault(baseBackoff, DEFAULT_BASE_BACKOFF) * Pow2(exponent);
    var max := OrDefault(cap, DEFAULT_MAX_BACKOFF);
    if delay > max then max else delay
  }

  /** Jitter adds up to a quarter of the delay. */
  predicate IsJitter(jitter: int, baseBackoff: int, attempts: int, cap: int) {
    0 <= jitter <= Delay(baseBackoff, attempts, cap) / 4
  }

  function Backoff(baseBackoff: int, attempts: int, cap: int, jitter: int): int {
    var max := OrDefault(cap, DEFAULT_MAX_BACKOFF);
    var delay := Delay(baseBackoff, attempts, cap) + jitter;
    if delay > max then max else delay
  }

  lemma {:induction false} Pow2Climbs(a: nat, b: nat)
    requires a <= b
    ensures Pow2(a) <= Pow2(b)
  {
    if a < b { Pow2Climbs(a, b - 1); }
  }

  lemma Products(base: int, a: int, b: int)
    requires base > 0 && 1 <= a <= b
    ensures 0 < base * a <= base * b
  {}

  /** Every backoff is positive, within its cap, and no shorter than the delay it
      jitters; no later attempt has a shorter delay. */
  lemma BackoffIsBounded(baseBackoff: int, attempts: int, later: int, cap: int, jitter: int)
    requires IsJitter(jitter, baseBackoff, attempts, cap) && attempts <= later
    ensures 0 < Delay(baseBackoff, attempts, cap) <= Backoff(baseBackoff, attempts, cap, jitter) <= OrDefault(cap, DEFAULT_MAX_BACKOFF)
    ensures Delay(baseBackoff, attempts, cap) <= Delay(baseBackoff, later, cap)
    ensures 4 * Backoff(baseBackoff, attempts, cap, jitter) <= 5 * Delay(baseBackoff, attempts, cap)
  {
    var base := OrDefault(baseBackoff, DEFAULT_BASE_BACKOFF);
    var n: nat := if attempts < 1 then 0 else if attempts - 1 > MAX_EXPONENT then MAX_EXPONENT else attempts - 1;
    var m: nat := if later < 1 then 0 else if later - 1 > MAX_EXPONENT then MAX_EXPONENT else later - 1;
    Pow2Climbs(n, m);
    Products(base, Pow2(n), Pow2(m));
  }

  /** Once doubling has reached the cap, every further attempt waits exactly the
      cap, whatever the jitter; until then the delay doubles with each attempt. */
  lemma BackoffReachesItsCap(baseBackoff: int, doublings: nat, attempts: int, cap: int, jitter: int)
    requires doublings <= MAX_EXPONENT && attempts > doublings && IsJitter(jitter, baseBackoff, attempts, cap)
    ensures OrDefault(baseBackoff, DEFAULT_BASE_BACKOFF) * Pow2(doublings) >= OrDefault(cap, DEFAULT_MAX_BACKOFF) ==>
              Backoff(baseBackoff, attempts, cap, jitter) == OrDefault(cap, DEFAULT_MAX_BACKOFF)
    ensures OrDefault(baseBackoff, DEFAULT_BASE_BACKOFF) * Pow2(doublings) <= OrDefault(cap, DEFAULT_MAX_BACKOFF) ==>
              Delay(baseBackoff, doublings + 1, cap) == OrDefault(baseBackoff, DEFAULT_BASE_BACKOFF) * Pow2(doublings)
  {
    var base := OrDefault(baseBackoff, DEFAULT_BASE_BACKOFF);
    var n: nat := if attempts - 1 > MAX_EXPONENT then MAX_EXPONENT else attempts - 1;
    Pow2Climbs(doublings, n);
    Products(base, Pow2(doublings), Pow2(n));
  }

  /** The jitter is added in full, short of the cap, and doubling stops after
      thirty-two. */
  lemma JitterIsAdded(baseBackoff: int, attempts: int, cap: int, jitter: int)
    requires IsJitter(jitter, baseBackoff, attempts, cap)
    ensures Backoff(baseBackoff, attempts, cap, jitter) ==
            if Delay(baseBackoff, attempts, cap) + jitter <= (if cap <= 0 then 300_000_000_000 else cap)
            then Delay(baseBackoff, attempts, cap) + jitter
            else if cap <= 0 then 300_000_000_000 else cap
    ensures attempts > 33 ==> Delay(baseBackoff, attempts, cap) == Delay(baseBackoff, 33, cap)
    ensures attempts < 1 ==> Delay(baseBackoff, attempts, cap) == Delay(baseBackoff, 1, cap)
  {
  }

  // ---- One item ----

  /** What became of the delivery: the handler failed or panicked, or succeeded
      and asks for follow-up work. */
  datatype Outcome = Broke(error: string) | Delivered(followUps: seq<Request>)

  /** A kind's handler, with the backoff cap it may bring, and its answer. */
  datatype Handler = Handler(maxBackoff: Option<int>, outcome: Outcome)

  predicate AllResolve(specs: map<Kind, Mode>, requests: seq<Request>) {
    forall i :: 0 <= i < |requests| ==> Resolves(specs, requests[i])
  }

  /** Why the item must be tried again after a backoff, if it must: no handler, a
      failed delivery, or follow-up work that cannot be enqueued. */
  function Failure(specs: map<Kind, Mode>, chaining: bool, item: Item, handler: Option<Handler>): Option<string> {
    match handler
    case None => Some("no handler registered for kind " + item.kind)
    case Some(Handler(_, Broke(error))) => Some(error)
    case Some(Handler(_, Delivered(followUps))) =>
      if followUps == [] then None
      else if !chaining then Some("no enqueuer configured for follow-up work")
      else if !AllResolve(specs, followUps) then Some("resolve work request")
      else None
  }

  /** The queue once the follow-up work is in it, as far as that got. */
  ghost function Chained(q: Queue, specs: map<Kind, Mode>, chaining: bool, handler: Option<Handler>): Queue {
    if handler.Some? && handler.value.outcome.Delivered? && chaining
    then EnqueuedAll(q, specs, handler.value.outcome.followUps)
    else q
  }

  /** The cap of the backoff an item gets if it is put back after a failure. */
  function FailureCap(r: Settings, handler: Option<Handler>): int {
    if handler.None? then DEFAULT_MAX_BACKOFF else Cap(r.maxBackoff, handler.value.maxBackoff)
  }

  /** A handler's own cap goes before the configured one; an item of no handler is
      capped at the default, five minutes. */
  lemma CapsAre(r: Settings, handler: Option<Handler>)
    ensures FailureCap(r, handler) ==
            if handler.None? then 300_000_000_000
            else if handler.value.maxBackoff.Some? && handler.value.maxBackoff.value > 0 then handler.value.maxBackoff.value
            else if r.maxBackoff > 0 then r.maxBackoff else 300_000_000_000
  {
  }

  /** How long a failed item waits. */
  function Wait(r: Settings, item: Item, cap: int, jitter: int): (wait: nat)
    requires IsJitter(jitter, r.baseBackoff, item.attempts, cap)
    ensures 0 < wait <= OrDefault(cap, DEFAULT_MAX_BACKOFF)
  {
    BackoffIsBounded(r.baseBackoff, item.attempts, item.attempts, cap, jitter);
    Backoff(r.baseBackoff, item.attempts, cap, jitter)
  }

  /** The queue after a delivery that succeeded: completed, or, when a newer intent
      coalesced onto the row, put back to run again at once. */
  function Settled(q: Queue, item: Item, now: nat): Queue {
    if Completes(q, item.id, item.revision)
    then Completed(q, item.id, item.revision, now)
    else Rescheduled(q, item.id, now, "")
  }

  ghost function Processed(q: Queue, specs: map<Kind, Mode>, chaining: bool, item: Item, handler: Option<Handler>, wait: nat, now: nat): Queue {
    var chained := Chained(q, specs, chaining, handler);
    match Failure(specs, chaining, item, handler)
    case Some(error) => Rescheduled(chained, item.id, now + wait, error)
    case None => Settled(chained, item, now)
  }

  method PutBack(backend: MemoryBackend, r: Settings, item: Item, cap: int, jitter: int, error: string, now: nat)
    requires backend.Valid() && IsJitter(jitter, r.baseBackoff, item.attempts, cap)
    modifies backend
    ensures backend.Valid()
    ensures backend.Contents() == Rescheduled(old(backend.Contents()), item.id, now + Wait(r, item, cap, jitter), error)
  {
    backend.Reschedule(item.id, Wait(r, item, cap, jitter), error, now);
  }

  method Settle(backend: MemoryBackend, item: Item, now: nat)
    requires backend.Valid()
    modifies backend
    ensures backend.Valid()
    ensures backend.Contents() == Settled(old(backend.Contents()), item, now)
  {
    var completed := backend.Complete(item.id, item.revision, now);
    if !completed {
      backend.Reschedule(item.id, 0, "", now);
    }
  }

  /** Enqueues what the delivery asks for, and says why not if it cannot. */
  method Chain(backend: MemoryBackend, chaining: bool, item: Item, handler: Option<Handler>) returns (failure: Option<string>)
    requires backend.Valid() && handler.Some? && handler.value.outcome.Delivered?
    modifies backend
    ensures backend.Valid()
    ensures failure == Failure(backend.specs, chaining, item, handler)
    ensures backend.Contents() == Chained(old(backend.Contents()), backend.specs, chaining, handler)
  {
    var followUps := handler.value.outcome.followUps;
    if |followUps| > 0 {
      if !chaining { return Some("no enqueuer configured for follow-up work"); }
      var ok := backend.Enqueue(followUps);
      if !ok { return Some("resolve work request"); }
    }
    return None;
  }

  /** Processes one claimed item against the store, once its handler has answered. */
  method Process(backend: MemoryBackend, r: Settings, chaining: bool, item: Item, handler: Option<Handler>, jitter: int, now: nat)
    requires backend.Valid() && IsJitter(jitter, r.baseBackoff, item.attempts, FailureCap(r, handler))
    modifies backend
    ensures backend.Valid()
    ensures backend.Contents() ==
      Processed(old(backend.Contents()), backend.specs, chaining, item, handler, Wait(r, item, FailureCap(r, handler), jitter), now)
  {
    if handler.None? {
      PutBack(backend, r, item, DEFAULT_MAX_BACKOFF, jitter, "no handler registered for kind " + item.kind, now);
      return;
    }
    var cap := Cap(r.maxBackoff, handler.value.maxBackoff);
    if handler.value.outcome.Broke? {
      PutBack(backend, r, item, cap, jitter, handler.value.outcome.error, now);
      return;
    }
    var failure := Chain(backend, chaining, item, handler);
    if failure.Some? {
      PutBack(backend, r, item, cap, jitter, failure.value, now);
    } else {
      Settle(backend, item, now);
    }
  }

  // ---- What settling promises ----

  /** The row waits, released, and can be claimed within the delay. */
  predicate ComesBackWithin(q: Queue, id: RowId, now: nat, delay: int) {
    && id in q.rows && IsPending(q.rows[id])
    && q.rows[id].claimedUntil.None? && now <= q.rows[id].availableAt <= now + delay
  }

  lemma {:induction false} EnqueuingKeepsPending(q: Queue, specs: map<Kind, Mode>, requests: seq<Request>, id: RowId)
    requires WellFormed(q) && id in q.rows && IsPending(q.rows[id])
    ensures var q' := EnqueuedAll(q, specs, requests);
            && WellFormed(q') && id in q'.rows && IsPending(q'.rows[id])
            && q'.rows[id].item.revision >= q.rows[id].item.revision
            && (q'.rows[id].item.revision == q.rows[id].item.revision ==> q'.rows[id].item.payload == q.rows[id].item.payload)
    decreases requests
  {
    if requests != [] && Resolves(specs, requests[0]) {
      EnqueuedWellFormed(q, requests[0], specs[requests[0].kind]);
      EnqueuingKeepsPending(Enqueued(q, requests[0], specs[requests[0].kind]), specs, requests[1..], id);
    }
  }

  /** Whatever its handler does, the pending row a worker claimed is never dropped:
      it is completed only when a delivery of the payload it still holds succeeded
      and all its follow-up work is enqueued; otherwise it stays pending, released,
      and can be claimed again within the wait, at once if it was superseded. */
  lemma NothingIsDropped(q: Queue, specs: map<Kind, Mode>, chaining: bool, item: Item, handler: Option<Handler>, wait: nat, now: nat)
    requires WellFormed(q) && item.id in q.rows && IsPending(q.rows[item.id])
    requires item.revision <= q.rows[item.id].item.revision
    requires item.revision == q.rows[item.id].item.revision ==> item.payload == q.rows[item.id].item.payload
    ensures var q' := Processed(q, specs, chaining, item, handler, wait, now);
            || ComesBackWithin(q', item.id, now, if Failure(specs, chaining, item, handler).Some? then wait else 0)
            || (&& Failure(specs, chaining, item, handler) == None
                && item.id in q'.rows && q'.rows[item.id].processedAt == Some(now)
                && q'.rows[item.id].item.revision == item.revision && q'.rows[item.id].item.payload == item.payload
                && handler.value.outcome.Delivered? && AllResolve(specs, handler.value.outcome.followUps))
  {
    if handler.Some? && handler.value.outcome.Delivered? {
      EnqueuingKeepsPending(q, specs, handler.value.outcome.followUps, item.id);
    }
  }

  /** The delivery succeeded, and all it asks for can be enqueued. */
  predicate Succeeds(specs: map<Kind, Mode>, chaining: bool, handler: Option<Handler>) {
    && handler.Some? && handler.value.outcome.Delivered?
    && var followUps := handler.value.outcome.followUps;
       || followUps == []
       || (chaining && forall i :: 0 <= i < |followUps| ==> followUps[i].kind in specs && followUps[i].key != "")
  }

  /** The rows once its follow-up work is enqueued, as far as it goes. */
  ghost function WithFollowUps(q: Queue, specs: map<Kind, Mode>, chaining: bool, handler: Option<Handler>): Queue {
    if chaining && handler.Some? && handler.value.outcome.Delivered?
    then EnqueuedAll(q, specs, handler.value.outcome.followUps) else q
  }

  lemma FailsExactly(specs: map<Kind, Mode>, chaining: bool, item: Item, handler: Option<Handler>)
    ensures Failure(specs, chaining, item, handler) == None <==> Succeeds(specs, chaining, handler)
    ensures handler.None? ==> Failure(specs, chaining, item, handler) == Some("no handler registered for kind " + item.kind)
    ensures handler.Some? && handler.value.outcome.Broke? ==>
              Failure(specs, chaining, item, handler) == Some(handler.value.outcome.error)
  {
  }

  lemma FollowUpsKeepTheRow(q: Queue, specs: map<Kind, Mode>, chaining: bool, item: Item, handler: Option<Handler>)
    requires WellFormed(q) && item.id in q.rows && q.rows[item.id].processedAt == None
    ensures var q1 := WithFollowUps(q, specs, chaining, handler);
            Chained(q, specs, chaining, handler) == q1 && item.id in q1.rows && q1.rows[item.id].processedAt == None
  {
    if handler.Some? && handler.value.outcome.Delivered? {
      EnqueuingKeepsPending(q, specs, handler.value.outcome.followUps, item.id);
    }
  }

  /** The row as a settlement leaves it: processed, or put back until then, with the
      error it was put back for; no lease in any case. */
  predicate IsProcessed(was: Row, row: Row, now: nat) {
    row == Row(was.item, was.availableAt, None, Some(now), "")
  }

  predicate IsPutBack(was: Row, row: Row, at: nat, error: string) {
    row == Row(was.item, at, None, was.processedAt, error)
  }

  /** A claimed row is processed exactly when its delivery succeeded, its follow-up
      work is enqueued, and no newer intent has coalesced onto it by then; put back at
      once exactly when only the last fails; and put back for its wait, with the error,
      exactly when one of the others does. No other row moves after the follow-ups. */
  lemma ProcessedExactly(q: Queue, specs: map<Kind, Mode>, chaining: bool, item: Item, handler: Option<Handler>, wait: nat, now: nat)
    requires WellFormed(q) && item.id in q.rows && q.rows[item.id].processedAt == None
    ensures var q1, q' := WithFollowUps(q, specs, chaining, handler), Processed(q, specs, chaining, item, handler, wait, now);
            && item.id in q1.rows && item.id in q'.rows
            && q' == Queue(q1.rows[item.id := q'.rows[item.id]], q1.nextId)
            && var was, row := q1.rows[item.id], q'.rows[item.id];
            && was.processedAt == None
            && (IsProcessed(was, row, now) <==> Succeeds(specs, chaining, handler) && was.item.revision == item.revision)
            && (Succeeds(specs, chaining, handler) && was.item.revision != item.revision ==> IsPutBack(was, row, now, ""))
            && (!Succeeds(specs, chaining, handler) ==> IsPutBack(was, row, now + wait, row.lastError))
            && (handler.None? ==> row.lastError == "no handler registered for kind " + item.kind)
            && (handler.Some? && handler.value.outcome.Broke? ==> row.lastError == handler.value.outcome.error)
  {
    FailsExactly(specs, chaining, item, handler);
    FollowUpsKeepTheRow(q, specs, chaining, item, handler);
    var q1 := WithFollowUps(q, specs, chaining, handler);
    var failure := Failure(specs, chaining, item, handler);
    if failure.Some? {
      RescheduledExactly(q1, item.id, now + wait, failure.value);
    } else {
      CompletedExactly(q1, item.id, item.revision, now);
      RescheduledExactly(q1, item.id, now, "");
    }
  }

  /** An item that is delivered, asks for nothing more and was not superseded is done:
      nobody can claim its row again. */
  lemma DeliveredIsDone(q: Queue, specs: map<Kind, Mode>, chaining: bool, item: Item, handler: Handler, wait: nat, now: nat,
                        later: nat, kinds: set<Kind>)
    requires WellFormed(q) && item.id in q.rows && q.rows[item.id].processedAt == None
    requires handler.outcome == Delivered([]) && q.rows[item.id].item.revision == item.revision
    ensures var row := Processed(q, specs, chaining, item, Some(handler), wait, now).rows[item.id];
            row.processedAt == Some(now) && row.claimedUntil == None && row.lastError == "" && !Wanted(row, later, kinds)
  {
    ProcessedExactly(q, specs, chaining, item, Some(handler), wait, now);
    assert WithFollowUps(q, specs, chaining, Some(handler)) == q;
  }

  // ---- How soon a pending row comes back ----

  /** The item waits as long as its failure earns it under the settings, with a
      handler whose own cap, if it brings one, is at most ownCap. */
  predicate FailedUnder(item: Item, delay: nat, given: Settings, ownCap: int, handler: Option<Handler>, jitter: int) {
    var r := WithDefaults(given);
    && IsJitter(jitter, r.baseBackoff, item.attempts, FailureCap(r, handler))
    && (handler.Some? && handler.value.maxBackoff.Some? ==> handler.value.maxBackoff.value <= ownCap)
    && delay == Wait(r, item, FailureCap(r, handler), jitter)
  }

  ghost predicate PutBackBy(delivery: QueueDeliveries.Delivery, delay: nat, fleet: set<Settings>, ownCap: int) {
    || (delivery.stage == QueueDeliveries.Superseded && delay == 0)
    || exists given, handler, jitter :: given in fleet && FailedUnder(delivery.item, delay, given, ownCap, handler, jitter)
  }

  /** Every claim and every release is one that a controller of the fleet makes. */
  ghost predicate RunBy(specs: map<Kind, Mode>, actions: seq<QueueDeliveries.Action>, fleet: set<Settings>, ownCap: int) {
    forall i :: 0 <= i < |actions| ==> StepBy(QueueDeliveries.Replay(specs, actions[..i]), actions[i], fleet, ownCap)
  }

  ghost predicate StepBy(w: QueueDeliveries.World, action: QueueDeliveries.Action, fleet: set<Settings>, ownCap: int) {
    && (action.ClaimRow? ==> exists given :: given in fleet && action.lease == WithDefaults(given).lease)
    && (action.Release? ==>
          && QueueDeliveries.Open(w, action.delivery)
          && PutBackBy(w.deliveries[action.delivery], action.delay, fleet, ownCap))
  }

  /** No controller of the fleet leases for longer, or waits for longer. */
  predicate Bounds(fleet: set<Settings>, ownCap: int, lease: nat, cap: nat) {
    && ownCap <= cap && DEFAULT_MAX_BACKOFF <= cap
    && forall given :: given in fleet ==> WithDefaults(given).lease <= lease && WithDefaults(given).maxBackoff <= cap
  }

  lemma ReleaseIsBounded(delivery: QueueDeliveries.Delivery, delay: nat, fleet: set<Settings>, ownCap: int, lease: nat, cap: nat)
    requires Bounds(fleet, ownCap, lease, cap) && PutBackBy(delivery, delay, fleet, ownCap)
    ensures delay <= cap
  {
    if !(delivery.stage == QueueDeliveries.Superseded && delay == 0) {
      var given, handler, jitter :| given in fleet && FailedUnder(delivery.item, delay, given, ownCap, handler, jitter);
      assert FailureCap(WithDefaults(given), handler) <= cap;
    }
  }

  /** Whatever became of its worker, a pending row can be claimed again within the
      longer of the longest lease and the longest backoff cap the controllers run
      with. */
  lemma PendingRowsComeBackWithinTheCap(specs: map<Kind, Mode>, actions: seq<QueueDeliveries.Action>, fleet: set<Settings>,
                                        ownCap: int, lease: nat, cap: nat, id: RowId, at: nat)
    requires RunBy(specs, actions, fleet, ownCap) && Bounds(fleet, ownCap, lease, cap)
    requires var q := QueueDeliveries.Replay(specs, actions).q; id in q.rows && IsPending(q.rows[id])
    requires at >= QueueDeliveries.Replay(specs, actions).now + if lease < cap then cap else lease
    ensures Eligible(QueueDeliveries.Replay(specs, actions).q.rows[id], at)
  {
    forall i | 0 <= i < |actions|
      ensures actions[i].ClaimRow? ==> actions[i].lease <= lease
      ensures actions[i].Release? ==> actions[i].delay <= cap
    {
      var w := QueueDeliveries.Replay(specs, actions[..i]);
      assert StepBy(w, actions[i], fleet, ownCap);
      if actions[i].Release? {
        ReleaseIsBounded(w.deliveries[actions[i].delivery], actions[i].delay, fleet, ownCap, lease, cap);
      }
    }
    QueueDeliveries.PendingRowsComeBack(specs, actions, lease, cap, id, at);
  }

  /** With the defaults, and no handler bringing a cap of its own, that is five
      minutes. */
  lemma DefaultsComeBackInFiveMinutes(specs: map<Kind, Mode>, actions: seq<QueueDeliveries.Action>, kinds: set<Kind>, id: RowId)
    requires RunBy(specs, actions, {Settings(0, 0, 0, 0, 0, 0, 0, 0, 0, kinds)}, 0)
    requires var q := QueueDeliveries.Replay(specs, actions).q; id in q.rows && IsPending(q.rows[id])
    ensures var w := QueueDeliveries.Replay(specs, actions); Eligible(w.q.rows[id], w.now + 5 * MINUTE)
  {
    PendingRowsComeBackWithinTheCap(specs, actions, {Settings(0, 0, 0, 0, 0, 0, 0, 0, 0, kinds)}, 0, 30 * SECOND, 5 * MINUTE, id,
      QueueDeliveries.Replay(specs, actions).now + 5 * MINUTE);
  }
}
