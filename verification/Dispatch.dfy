/** The controller's timing: the options it runs with, the worker pool a claimed
    batch is dealt to, and why no item outlives the lease it was claimed under.
    Durations are nanoseconds. */
module Dispatch {
  import opened Options
  import opened WorkQueue
  import QueueDeliveries

  const MILLISECOND := 1_000_000
  const SECOND := 1000 * MILLISECOND
  const MINUTE := 60 * SECOND
  const HOUR := 60 * MINUTE

  const DEFAULT_POLL_INTERVAL := SECOND
  const DEFAULT_LEASE := 30 * SECOND
  const DEFAULT_BASE_BACKOFF := SECOND
  const DEFAULT_MAX_BACKOFF := 5 * MINUTE
  const DEFAULT_WORKERS := 4
  const DEFAULT_PRUNE_AFTER := 24 * HOUR
  const DEFAULT_PRUNE_INTERVAL := 10 * MINUTE
  const LEASE_SAFETY_DIVISOR := 6

  /** What the controller is configured with; zero and negative values ask for
      the default. */
  datatype Settings = Settings(
    pollInterval: int, lease: int, itemTimeout: int, baseBackoff: int, maxBackoff: int,
    pruneAfter: int, pruneInterval: int, batchSize: int, workers: int, kinds: set<Kind>)

  function OrDefault(value: int, default: int): int {
    if value <= 0 then default else value
  }

  /** How many items one worker may have to run in turn. */
  function Rounds(batchSize: int, workers: int): int
    requires workers > 0
  {
    var rounds := (batchSize + workers - 1) / workers;
    if rounds < 1 then 1 else rounds
  }

  function SafeItemTimeout(lease: int, batchSize: int, workers: int): int
    requires workers > 0
  {
    (lease - lease / LEASE_SAFETY_DIVISOR) / Rounds(batchSize, workers)
  }

  /** The settings the controller actually runs with. */
  function WithDefaults(given: Settings): Settings {
    var workers := OrDefault(given.workers, DEFAULT_WORKERS);
    var lease := OrDefault(given.lease, DEFAULT_LEASE);
    var batchSize := OrDefault(given.batchSize, workers);
    var safe := SafeItemTimeout(lease, batchSize, workers);
    Settings(
      OrDefault(given.pollInterval, DEFAULT_POLL_INTERVAL),
      lease,
      if given.itemTimeout <= 0 || given.itemTimeout > safe then safe else given.itemTimeout,
      OrDefault(given.baseBackoff, DEFAULT_BASE_BACKOFF),
      OrDefault(given.maxBackoff, DEFAULT_MAX_BACKOFF),
      OrDefault(given.pruneAfter, DEFAULT_PRUNE_AFTER),
      OrDefault(given.pruneInterval, DEFAULT_PRUNE_INTERVAL),
      batchSize,
      workers,
      given.kinds)
  }

  /** What was asked for stays, and what was not is the default: one second between
      polls, a lease of thirty, a backoff from one second to five minutes, pruning
      every ten minutes what is a day old, four workers, and batches they can run at
      once. */
  lemma SettingsAreDefaulted(given: Settings)
    ensures var r := WithDefaults(given);
            && r.pollInterval == (if given.pollInterval > 0 then given.pollInterval else 1_000_000_000)
            && r.lease == (if given.lease > 0 then given.lease else 30_000_000_000)
            && r.baseBackoff == (if given.baseBackoff > 0 then given.baseBackoff else 1_000_000_000)
            && r.maxBackoff == (if given.maxBackoff > 0 then given.maxBackoff else 300_000_000_000)
            && r.pruneAfter == (if given.pruneAfter > 0 then given.pruneAfter else 86_400_000_000_000)
            && r.pruneInterval == (if given.pruneInterval > 0 then given.pruneInterval else 600_000_000_000)
            && r.workers == (if given.workers > 0 then given.workers else 4)
            && r.batchSize == (if given.batchSize > 0 then given.batchSize else r.workers)
            && r.kinds == given.kinds
  {
  }

  /** The rounds are the fewest that run a whole batch. */
  lemma RoundsAreFewest(batchSize: int, workers: int)
    requires batchSize > 0 && workers > 0
    ensures (Rounds(batchSize, workers) - 1) * workers < batchSize <= Rounds(batchSize, workers) * workers
  {
    var total := batchSize + workers - 1;
    assert total == (total / workers) * workers + total % workers;
    FloorTimes(total, workers, 1);
    assert (total / workers - 1) * workers == (total / workers) * workers - workers;
  }

  // ---- The timeout invariant ----

  lemma FloorTimes(total: int, rounds: int, part: int)
    requires total >= 0 && rounds >= 1
    ensures part <= total / rounds <==> part * rounds <= total
    ensures part == total / rounds && total % rounds == 0 ==> part * rounds == total
    ensures part * rounds == total ==> part == total / rounds && total % rounds == 0
  {
    var quotient := total / rounds;
    assert total == quotient * rounds + total % rounds;
    if part <= quotient { Scaled(part, quotient, rounds); } else { Scaled(quotient + 1, part, rounds); }
    if part < quotient { Scaled(part + 1, quotient, rounds); }
  }

  lemma Scaled(a: int, b: int, factor: int)
    requires a <= b && factor >= 0
    ensures a * factor <= b * factor
  {}

  /** Every round of a full batch at the full timeout fits five sixths of the
      lease, whatever was configured; and a longer timeout would not. */
  lemma TimeoutFitsTheBatch(given: Settings)
    ensures var r := WithDefaults(given); var rounds := Rounds(r.batchSize, r.workers);
            && r.workers > 0 && r.batchSize > 0 && r.lease > 0 && 0 <= r.itemTimeout
            && r.itemTimeout * rounds <= r.lease - r.lease / 6
            && (given.itemTimeout > 0 ==>
                  (r.itemTimeout == given.itemTimeout <==>
                   given.itemTimeout * rounds <= r.lease - r.lease / 6))
            && (given.itemTimeout <= 0 || r.itemTimeout != given.itemTimeout ==>
                  (r.itemTimeout + 1) * rounds > r.lease - r.lease / 6)
  {
    var r := WithDefaults(given);
    var rounds := Rounds(r.batchSize, r.workers);
    var total := r.lease - r.lease / LEASE_SAFETY_DIVISOR;
    FloorTimes(total, rounds, r.itemTimeout);
    FloorTimes(total, rounds, given.itemTimeout);
    FloorTimes(total, rounds, r.itemTimeout + 1);
  }

  /** The invariant the options are documented to keep: a batch at the full
      timeout ends strictly before its lease. */
  predicate BatchEndsBeforeLease(r: Settings)
    requires r.workers > 0
  {
    r.itemTimeout * Rounds(r.batchSize, r.workers) < r.lease
  }

  /** With fewer than six nanoseconds of lease there is no sixth to reserve: the
      documented invariant fails, as in this configuration. */
  lemma TinyLeaseBreaksTheInvariant()
    ensures var given := Settings(0, 5, 0, 0, 0, 0, 0, 1, 1, {});
            WithDefaults(given).itemTimeout == 5 && !BatchEndsBeforeLease(WithDefaults(given))
  {
    assert SafeItemTimeout(5, 1, 1) == 5;
  }

  /** The documented invariant holds exactly when the lease has a sixth, or does
      not divide into the rounds, or a shorter timeout was asked for. */
  lemma InvariantHoldsExactly(given: Settings)
    ensures var r := WithDefaults(given); var rounds := Rounds(r.batchSize, r.workers);
            BatchEndsBeforeLease(r) <==>
              r.lease >= 6 || r.lease % rounds != 0 || 0 < given.itemTimeout < r.lease / rounds
  {
    var r := WithDefaults(given);
    var rounds := Rounds(r.batchSize, r.workers);
    TimeoutFitsTheBatch(given);
    if r.lease < LEASE_SAFETY_DIVISOR {
      FloorTimes(r.lease, rounds, r.itemTimeout);
    }
  }

  // ---- The worker pool ----

  /** One item of a batch, in the order the batch was claimed: the worker that
      took it, when, and when that worker was done settling it; times are since
      the claim. */
  datatype Slot = Slot(worker: nat, taken: nat, done: nat)

  /** When a worker is done with what it has been given so far. */
  function FreeAt(slots: seq<Slot>, worker: nat): nat {
    if slots == [] then 0
    else
      var last := slots[|slots| - 1];
      if last.worker == worker then last.done else FreeAt(slots[..|slots| - 1], worker)
  }

  /** Each item is taken by a worker that is free, as soon as any worker is, and
      keeps it for at most each. */
  ghost predicate Greedy(slots: seq<Slot>, workers: nat, each: nat) {
    forall i :: 0 <= i < |slots| ==> TakenGreedily(slots[..i], slots[i], workers, each)
  }

  ghost predicate TakenGreedily(before: seq<Slot>, slot: Slot, workers: nat, each: nat) {
    && slot.worker < workers
    && slot.taken == FreeAt(before, slot.worker)
    && (forall worker: nat :: worker < workers ==> slot.taken <= FreeAt(before, worker))
    && slot.taken <= slot.done <= slot.taken + each
  }

  /** How many of the first workers are done by a time. */
  function FreeBy(slots: seq<Slot>, workers: nat, time: nat): nat {
    if workers == 0 then 0
    else FreeBy(slots, workers - 1, time) + if FreeAt(slots, workers - 1) <= time then 1 else 0
  }

  lemma SomeoneIsFree(slots: seq<Slot>, workers: nat, time: nat) returns (worker: nat)
    requires FreeBy(slots, workers, time) > 0
    ensures worker < workers && FreeAt(slots, worker) <= time
  {
    if FreeAt(slots, workers - 1) <= time { worker := workers - 1; } else { worker := SomeoneIsFree(slots, workers - 1, time); }
  }

  lemma EveryoneIsFree(slots: seq<Slot>, workers: nat, time: nat)
    requires forall worker: nat :: worker < workers ==> FreeAt(slots, worker) <= time
    ensures FreeBy(slots, workers, time) == workers
  {}

  /** Taking an item makes at most one worker busy. */
  lemma {:induction false} OneWorkerGetsBusy(slots: seq<Slot>, slot: Slot, workers: nat, time: nat)
    ensures FreeBy(slots + [slot], workers, time) >= FreeBy(slots, workers, time) - if slot.worker < workers then 1 else 0
  {
    if workers > 0 {
      OneWorkerGetsBusy(slots, slot, workers - 1, time);
      assert (slots + [slot])[..|slots|] == slots;
    }
  }

  /** When some items have been dealt in the round that starts then: every worker
      is free one round later, and those not among the items' are free already. */
  ghost predicate OnSchedule(slots: seq<Slot>, workers: nat, each: nat, start: nat, dealt: nat) {
    && (forall worker: nat :: worker < workers ==> FreeAt(slots, worker) <= start + each)
    && FreeBy(slots, workers, start) >= workers - dealt
  }

  lemma TakingKeepsSchedule(slots: seq<Slot>, slot: Slot, workers: nat, each: nat, start: nat, dealt: nat)
    requires dealt < workers && OnSchedule(slots, workers, each, start, dealt)
    requires TakenGreedily(slots, slot, workers, each)
    ensures slot.taken <= start
    ensures if dealt + 1 < workers then OnSchedule(slots + [slot], workers, each, start, dealt + 1)
            else OnSchedule(slots + [slot], workers, each, start + each, 0)
  {
    var free := SomeoneIsFree(slots, workers, start);
    assert slot.taken <= FreeAt(slots, free);
    assert (slots + [slot])[..|slots|] == slots;
    OneWorkerGetsBusy(slots, slot, workers, start);
    if dealt + 1 == workers {
      EveryoneIsFree(slots + [slot], workers, start + each);
    }
  }

  /** When the round of a batch's item starts, and how many items it deals before. */
  function RoundStart(item: nat, workers: nat, each: nat): nat
    requires workers > 0
  {
    if item < workers then 0 else RoundStart(item - workers, workers, each) + each
  }

  function DealtBefore(item: nat, workers: nat): nat
    requires workers > 0
  {
    if item < workers then item else DealtBefore(item - workers, workers)
  }

  lemma {:induction false} NextItem(item: nat, workers: nat, each: nat)
    requires workers > 0
    ensures DealtBefore(item, workers) < workers
    ensures if DealtBefore(item, workers) + 1 < workers
            then DealtBefore(item + 1, workers) == DealtBefore(item, workers) + 1
                 && RoundStart(item + 1, workers, each) == RoundStart(item, workers, each)
            else DealtBefore(item + 1, workers) == 0
                 && RoundStart(item + 1, workers, each) == RoundStart(item, workers, each) + each
  {
    if item >= workers { NextItem(item - workers, workers, each); }
  }

  lemma GreedyBefore(slots: seq<Slot>, workers: nat, each: nat, i: nat)
    requires Greedy(slots, workers, each) && i < |slots|
    ensures Greedy(slots[..i], workers, each) && TakenGreedily(slots[..i], slots[i], workers, each)
  {
    assert forall j :: 0 <= j < i ==> slots[..i][..j] == slots[..j];
  }

  lemma {:induction false} GreedyKeepsSchedule(slots: seq<Slot>, workers: nat, each: nat)
    requires workers > 0 && Greedy(slots, workers, each)
    ensures OnSchedule(slots, workers, each, RoundStart(|slots|, workers, each), DealtBefore(|slots|, workers))
    decreases |slots|
  {
    if slots == [] {
      EveryoneIsFree([], workers, 0);
    } else {
      var n: nat := |slots| - 1;
      GreedyBefore(slots, workers, each, n);
      GreedyKeepsSchedule(slots[..n], workers, each);
      ScheduleStep(slots[..n], slots[n], workers, each);
      assert slots == slots[..n] + [slots[n]];
    }
  }

  lemma ScheduleStep(before: seq<Slot>, slot: Slot, workers: nat, each: nat)
    requires workers > 0 && TakenGreedily(before, slot, workers, each)
    requires OnSchedule(before, workers, each, RoundStart(|before|, workers, each), DealtBefore(|before|, workers))
    ensures slot.taken <= RoundStart(|before|, workers, each)
    ensures OnSchedule(before + [slot], workers, each,
                RoundStart(|before| + 1, workers, each), DealtBefore(|before| + 1, workers))
  {
    NextItem(|before|, workers, each);
    TakingKeepsSchedule(before, slot, workers, each, RoundStart(|before|, workers, each), DealtBefore(|before|, workers));
  }

  /** However the pool deals a batch out, each item is taken by the start of its
      round, and done before the next. */
  lemma ItemStartsInItsRound(slots: seq<Slot>, workers: nat, each: nat, i: nat)
    requires workers > 0 && i < |slots| && Greedy(slots, workers, each)
    ensures slots[i].taken <= RoundStart(i, workers, each)
    ensures slots[i].done <= RoundStart(i, workers, each) + each
  {
    GreedyBefore(slots, workers, each, i);
    GreedyKeepsSchedule(slots[..i], workers, each);
    ScheduleStep(slots[..i], slots[i], workers, each);
  }

  /** The rounds start floor(item / workers) times each after the claim. */
  lemma {:induction false} RoundsAreCounted(item: nat, workers: nat, each: nat)
    requires workers > 0
    ensures RoundStart(item, workers, each) == item / workers * each
  {
    if item >= workers {
      RoundsAreCounted(item - workers, workers, each);
      OneRoundLess(item, workers);
      Distributes((item - workers) / workers, each);
    } else {
      OneRound(item, workers);
    }
  }

  lemma OneRound(item: nat, workers: nat)
    requires item < workers
    ensures item / workers == 0
  {}

  lemma OneRoundLess(item: nat, workers: nat)
    requires 0 < workers <= item
    ensures item / workers == (item - workers) / workers + 1
  {
    var q, m := (item - workers) / workers, (item - workers) % workers;
    Distributes(q, workers);
    Division(item, workers, q + 1, m);
  }

  lemma Division(n: int, d: int, q: int, m: int)
    requires d > 0 && n == q * d + m && 0 <= m < d
    ensures n / d == q && n % d == m
  {
    var q', m' := n / d, n % d;
    assert n == q' * d + m';
    if q < q' { Scaled(q + 1, q', d); }
    if q' < q { Scaled(q' + 1, q, d); }
  }

  lemma Distributes(a: int, b: int)
    ensures (a + 1) * b == a * b + b
  {}

  lemma RoundsCoverTheBatch(i: nat, batchSize: nat, workers: nat)
    requires workers > 0 && i < batchSize
    ensures i / workers + 1 <= Rounds(batchSize, workers)
  {
    var round := i / workers;
    Distributes(round, workers);
    FloorTimes(batchSize + workers - 1, workers, round + 1);
  }

  lemma BatchIsDoneInItsRounds(slots: seq<Slot>, workers: nat, each: nat, i: nat, batchSize: nat)
    requires workers > 0 && i < |slots| <= batchSize && Greedy(slots, workers, each)
    ensures slots[i].taken <= i / workers * each
    ensures slots[i].done <= Rounds(batchSize, workers) * each
  {
    ItemStartsInItsRound(slots, workers, each, i);
    RoundsAreCounted(i, workers, each);
    LastRoundEnds(i, batchSize, workers, each);
  }

  lemma LastRoundEnds(i: nat, batchSize: nat, workers: nat, each: nat)
    requires workers > 0 && i < batchSize
    ensures i / workers * each + each <= Rounds(batchSize, workers) * each
  {
    RoundsCoverTheBatch(i, batchSize, workers);
    Distributes(i / workers, each);
    Scaled(i / workers + 1, Rounds(batchSize, workers), each);
  }

  /** When a full batch is settled: each round is one timeout and, outside it, one
      settlement of the row. */
  function Budget(r: Settings, settle: nat): int
    requires r.workers > 0
  {
    Rounds(r.batchSize, r.workers) * (r.itemTimeout + settle)
  }

  lemma BudgetEndsBeforeLease(given: Settings, settle: nat)
    requires var r := WithDefaults(given);
             r.workers > 0 && Rounds(r.batchSize, r.workers) * settle < r.lease / LEASE_SAFETY_DIVISOR
    ensures Budget(WithDefaults(given), settle) < WithDefaults(given).lease
  {
    var r := WithDefaults(given);
    var rounds := Rounds(r.batchSize, r.workers);
    TimeoutFitsTheBatch(given);
    assert rounds * (r.itemTimeout + settle) == r.itemTimeout * rounds + rounds * settle;
  }

  /** When handlers stop at the timeout and a batch's settlements fit the reserved
      sixth of the lease, every item of a claimed batch is settled before the lease
      ends. */
  lemma BatchSettlesBeforeLease(given: Settings, slots: seq<Slot>, settle: nat, i: nat)
    requires var r := WithDefaults(given);
             && r.itemTimeout >= 0 && r.workers > 0
             && i < |slots| <= r.batchSize && Greedy(slots, r.workers, r.itemTimeout + settle)
             && Rounds(r.batchSize, r.workers) * settle < r.lease / LEASE_SAFETY_DIVISOR
    ensures slots[i].done <= Budget(WithDefaults(given), settle) < WithDefaults(given).lease
  {
    var r := WithDefaults(given);
    BatchIsDoneInItsRounds(slots, r.workers, r.itemTimeout + settle, i, r.batchSize);
    BudgetEndsBeforeLease(given, settle);
  }

  /** The worker that is free first. */
  method FirstFree(slots: seq<Slot>, workers: nat) returns (worker: nat)
    requires workers > 0
    ensures worker < workers
    ensures forall other: nat :: other < workers ==> FreeAt(slots, worker) <= FreeAt(slots, other)
  {
    worker := 0;
    for other := 1 to workers
      invariant worker < workers
      invariant forall seen: nat :: seen < other ==> FreeAt(slots, worker) <= FreeAt(slots, seen)
    {
      if FreeAt(slots, other) < FreeAt(slots, worker) { worker := other; }
    }
  }

  /** Deals a batch's items, in order, to whichever worker is free first; spans are
      how long each item keeps its worker. */
  method DealBatch(spans: seq<nat>, workers: nat, each: nat) returns (slots: seq<Slot>)
    requires workers > 0 && forall i :: 0 <= i < |spans| ==> spans[i] <= each
    ensures |slots| == |spans| && Greedy(slots, workers, each)
    ensures forall i :: 0 <= i < |slots| ==> slots[i].done == slots[i].taken + spans[i]
  {
    slots := [];
    for n := 0 to |spans|
      invariant |slots| == n && Greedy(slots, workers, each)
      invariant forall i :: 0 <= i < n ==> slots[i].done == slots[i].taken + spans[i]
    {
      var worker := FirstFree(slots, workers);
      var taken := FreeAt(slots, worker);
      var next := slots + [Slot(worker, taken, taken + spans[n])];
      assert forall i :: 0 <= i <= n ==> next[..i] == slots[..i];
      assert slots[..n] == slots;
      slots := next;
    }
  }

  // ---- Mutual exclusion, from the options up ----

  /** Where a delivery sits in the batch its controller claimed. */
  datatype Placement = Placement(given: Settings, batch: seq<Slot>, index: nat, settle: nat)

  /** The delivery was claimed under its controller's lease, in a batch no larger
      than it claims, dealt greedily, and is not open after its slot. */
  ghost predicate RunsInItsSlot(w: QueueDeliveries.World, d: nat, placement: Placement)
    requires QueueDeliveries.Open(w, d)
  {
    var r := WithDefaults(placement.given);
    var delivery := w.deliveries[d];
    && r.itemTimeout >= 0 && r.workers > 0
    && delivery.lease == r.lease
    && placement.index < |placement.batch| <= r.batchSize
    && Greedy(placement.batch, r.workers, r.itemTimeout + placement.settle)
    && Rounds(r.batchSize, r.workers) * placement.settle < r.lease / LEASE_SAFETY_DIVISOR
    && w.now <= delivery.claimedAt + placement.batch[placement.index].done
  }

  ghost predicate RunInSlots(w: QueueDeliveries.World, placements: seq<Placement>) {
    forall d: nat :: QueueDeliveries.Open(w, d) ==> d < |placements| && RunsInItsSlot(w, d, placements[d])
  }

  /** Any number of controllers, each with settings of its own, never have two
      deliveries of one row open together, and no settlement clears a lease that
      is not its own. */
  lemma ControllersNeverOverlap(specs: map<Kind, Mode>, actions: seq<QueueDeliveries.Action>, placements: seq<Placement>)
    requires forall n :: 0 <= n <= |actions| ==> RunInSlots(QueueDeliveries.Replay(specs, actions[..n]), placements)
    ensures QueueDeliveries.Exclusive(QueueDeliveries.Replay(specs, actions))
  {
    forall n | 0 <= n <= |actions|
      ensures QueueDeliveries.WithinLease(QueueDeliveries.Replay(specs, actions[..n]))
    {
      var w := QueueDeliveries.Replay(specs, actions[..n]);
      forall d: nat | QueueDeliveries.Open(w, d)
        ensures w.now < w.deliveries[d].claimedAt + w.deliveries[d].lease
      {
        assert RunsInItsSlot(w, d, placements[d]);
        BatchSettlesBeforeLease(placements[d].given, placements[d].batch, placements[d].settle, placements[d].index);
      }
    }
    QueueDeliveries.DeliveriesNeverOverlap(specs, actions);
  }
}
