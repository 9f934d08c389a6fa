/** The durable work queue: rows that are leased, settled behind a revision
    fence, rescheduled and pruned, with at most one pending row for each kind and
    key. Time is a natural number of ticks; the store owns the clock. */
module WorkQueue {
  import opened Options

  type Kind = string
  type RowId = nat
  type Payload = string

  /** A reconcile kind's payload is desired state: the newest wins. A job kind's
      payload is the work itself: a key already pending keeps its row. */
  datatype Mode = Reconcile | Job

  /** A request with the key its kind's spec derives from the payload. */
  datatype Request = Request(kind: Kind, key: string, payload: Payload)

  datatype Item = Item(id: RowId, kind: Kind, key: string, payload: Payload, revision: nat, attempts: nat)

  datatype Row = Row(
    item: Item,
    availableAt: nat,
    claimedUntil: Option<nat>,
    processedAt: Option<nat>,
    lastError: string)

  predicate IsPending(row: Row) {
    row.processedAt.None?
  }

  datatype Queue = Queue(rows: map<RowId, Row>, nextId: RowId)

  predicate PendingFor(q: Queue, id: RowId, kind: Kind, key: string) {
    id in q.rows && IsPending(q.rows[id]) && q.rows[id].item.kind == kind && q.rows[id].item.key == key
  }

  /** Every row is filed under its own id, and at most one is pending for a kind
      and key. */
  ghost predicate WellFormed(q: Queue) {
    && (forall id :: id in q.rows ==> q.rows[id].item.id == id && id <= q.nextId)
    && (forall a, b, kind, key :: PendingFor(q, a, kind, key) && PendingFor(q, b, kind, key) ==> a == b)
  }

  // ---- What each operation makes of the rows ----

  ghost function PendingId(q: Queue, kind: Kind, key: string): (found: Option<RowId>)
    ensures found.Some? ==> PendingFor(q, found.value, kind, key)
    ensures found.None? ==> forall id :: !PendingFor(q, id, kind, key)
  {
    if id :| PendingFor(q, id, kind, key) then Some(id) else None
  }

  function NewRow(id: RowId, request: Request): Row {
    Row(Item(id, request.kind, request.key, request.payload, 1, 0), 0, None, None, "")
  }

  function Coalesced(row: Row, payload: Payload): Row {
    row.(item := row.item.(payload := payload, revision := row.item.revision + 1))
  }

  /** One resolved request: it coalesces onto the pending row of its kind and
      key, is dropped there, or gets a row of its own. */
  ghost function Enqueued(q: Queue, request: Request, mode: Mode): Queue {
    match PendingId(q, request.kind, request.key)
    case Some(id) =>
      if mode == Reconcile then q.(rows := q.rows[id := Coalesced(q.rows[id], request.payload)]) else q
    case None => Queue(q.rows[q.nextId + 1 := NewRow(q.nextId + 1, request)], q.nextId + 1)
  }

  predicate Resolves(specs: map<Kind, Mode>, request: Request) {
    request.kind in specs && request.key != ""
  }

  /** The requests up to the first that does not resolve, in order. */
  ghost function EnqueuedAll(q: Queue, specs: map<Kind, Mode>, requests: seq<Request>): Queue
    decreases requests
  {
    if requests == [] || !Resolves(specs, requests[0]) then q
    else EnqueuedAll(Enqueued(q, requests[0], specs[requests[0].kind]), specs, requests[1..])
  }

  predicate Eligible(row: Row, now: nat) {
    IsPending(row) && row.availableAt <= now && (row.claimedUntil.None? || row.claimedUntil.value <= now)
  }

  predicate Wanted(row: Row, now: nat, kinds: set<Kind>) {
    Eligible(row, now) && (kinds == {} || row.item.kind in kinds)
  }

  function Leased(row: Row, until: nat): Row {
    row.(claimedUntil := Some(until), item := row.item.(attempts := row.item.attempts + 1))
  }

  function Claimed(q: Queue, ids: seq<RowId>, until: nat): Queue {
    q.(rows := map id | id in q.rows :: if id in ids then Leased(q.rows[id], until) else q.rows[id])
  }

  predicate Completes(q: Queue, id: RowId, revision: nat) {
    id in q.rows && IsPending(q.rows[id]) && q.rows[id].item.revision == revision
  }

  function Completed(q: Queue, id: RowId, revision: nat, now: nat): Queue {
    if Completes(q, id, revision)
    then q.(rows := q.rows[id := q.rows[id].(processedAt := Some(now), claimedUntil := None, lastError := "")])
    else q
  }

  function Rescheduled(q: Queue, id: RowId, at: nat, lastError: string): Queue {
    if id in q.rows
    then q.(rows := q.rows[id := q.rows[id].(claimedUntil := None, availableAt := at, lastError := lastError)])
    else q
  }

  predicate Stale(row: Row, retention: nat, now: nat) {
    row.processedAt.Some? && row.processedAt.value + retention < now
  }

  function Pruned(q: Queue, retention: nat, now: nat): Queue {
    q.(rows := map id | id in q.rows && !Stale(q.rows[id], retention, now) :: q.rows[id])
  }

  /** The order rows are claimed in. */
  predicate ClaimBefore(q: Queue, a: RowId, b: RowId)
    requires a in q.rows && b in q.rows
  {
    q.rows[a].availableAt < q.rows[b].availableAt || (q.rows[a].availableAt == q.rows[b].availableAt && a < b)
  }

  ghost predicate InClaimOrder(q: Queue, ids: seq<RowId>) {
    && (forall i :: 0 <= i < |ids| ==> ids[i] in q.rows)
    && (forall i, j :: 0 <= i < j < |ids| ==> ClaimBefore(q, ids[i], ids[j]))
  }

  lemma EnqueuedWellFormed(q: Queue, request: Request, mode: Mode)
    requires WellFormed(q)
    ensures WellFormed(Enqueued(q, request, mode))
  {
    var q' := Enqueued(q, request, mode);
    forall a, b, kind, key | PendingFor(q', a, kind, key) && PendingFor(q', b, kind, key)
      ensures a == b
    {
      assert a in q.rows ==> PendingFor(q, a, kind, key);
      assert b in q.rows ==> PendingFor(q, b, kind, key);
    }
  }

  class MemoryBackend {
    var rows: map<RowId, Row>
    var nextId: RowId
    const specs: map<Kind, Mode>

    ghost function Contents(): Queue
      reads this
    {
      Queue(rows, nextId)
    }

    ghost predicate Valid()
      reads this
    {
      WellFormed(Contents())
    }

    constructor (specs: map<Kind, Mode>)
      ensures Valid() && Contents() == Queue(map[], 0) && this.specs == specs
    {
      rows, nextId := map[], 0;
      this.specs := specs;
    }

    /** Looks through the rows, in no particular order, for the pending one. */
    method PendingRow(kind: Kind, key: string) returns (found: Option<RowId>)
      requires Valid()
      ensures found == PendingId(Queue(rows, nextId), kind, key)
    {
      var rest := rows.Keys;
      while rest != {}
        invariant rest <= rows.Keys
        invariant forall id :: id in rows && id !in rest ==> !PendingFor(Queue(rows, nextId), id, kind, key)
        decreases |rest|
      {
        var id :| id in rest;
        if IsPending(rows[id]) && rows[id].item.kind == kind && rows[id].item.key == key {
          assert PendingFor(Contents(), id, kind, key);
          return Some(id);
        }
        rest := rest - {id};
      }
      return None;
    }

    /** One resolved request. */
    method EnqueueOne(request: Request, mode: Mode)
      requires Valid()
      modifies this`rows, this`nextId
      ensures Valid()
      ensures Contents() == Enqueued(old(Contents()), request, mode)
    {
      EnqueuedWellFormed(Contents(), request, mode);
      ghost var after := Enqueued(Contents(), request, mode);
      var pending := PendingRow(request.kind, request.key);
      if pending.Some? {
        if mode == Reconcile {
          var row := rows[pending.value];
          rows := rows[pending.value := row.(item := row.item.(payload := request.payload, revision := row.item.revision + 1))];
        }
      } else {
        nextId := nextId + 1;
        rows := rows[nextId := NewRow(nextId, request)];
      }
      assert Contents() == after;
    }

    /** Enqueues the requests in order, stopping at one that does not resolve;
        those before it stay. */
    method Enqueue(requests: seq<Request>) returns (ok: bool)
      requires Valid()
      modifies this`rows, this`nextId
      ensures Valid()
      ensures Contents() == EnqueuedAll(old(Contents()), specs, requests)
      ensures ok <==> forall i :: 0 <= i < |requests| ==> Resolves(specs, requests[i])
    {
      ghost var before := Contents();
      for n := 0 to |requests|
        invariant Valid()
        invariant forall i :: 0 <= i < n ==> Resolves(specs, requests[i])
        invariant EnqueuedAll(before, specs, requests) == EnqueuedAll(Contents(), specs, requests[n..])
      {
        var request := requests[n];
        assert requests[n..][1..] == requests[n + 1..];
        if request.kind !in specs || request.key == "" {
          return false;
        }
        EnqueueOne(request, specs[request.kind]);
      }
      return true;
    }

    /** Puts one id into its place among ids in claim order. */
    method Place(ids: seq<RowId>, id: RowId) returns (placed: seq<RowId>)
      requires InClaimOrder(Queue(rows, nextId), ids) && id in rows && id !in ids
      ensures InClaimOrder(Queue(rows, nextId), placed)
      ensures |placed| == |ids| + 1 && forall x :: x in placed <==> x == id || x in ids
    {
      var n := 0;
      while n < |ids| && ClaimBefore(Queue(rows, nextId), ids[n], id)
        invariant 0 <= n <= |ids|
        invariant forall i :: 0 <= i < n ==> ClaimBefore(Queue(rows, nextId), ids[i], id)
      {
        n := n + 1;
      }
      placed := ids[..n] + [id] + ids[n..];
      assert forall x :: x in ids <==> x in ids[..n] || x in ids[n..] by { assert ids == ids[..n] + ids[n..]; }
    }

    /** The claimable rows, in claim order. */
    method ClaimableRows(now: nat, kinds: set<Kind>) returns (ids: seq<RowId>)
      ensures InClaimOrder(Queue(rows, nextId), ids)
      ensures forall id :: id in ids <==> id in rows && Wanted(rows[id], now, kinds)
    {
      ids := [];
      var rest := rows.Keys;
      while rest != {}
        invariant rest <= rows.Keys
        invariant InClaimOrder(Queue(rows, nextId), ids)
        invariant forall id :: id in ids <==> id in rows && id !in rest && Wanted(rows[id], now, kinds)
        decreases |rest|
      {
        var id :| id in rest;
        rest := rest - {id};
        if Wanted(rows[id], now, kinds) {
          ids := Place(ids, id);
        }
      }
    }

    /** Leases each of the rows until the given time. */
    method Lease(ids: seq<RowId>, until: nat) returns (items: seq<Item>)
      requires Valid() && forall i :: 0 <= i < |ids| ==> ids[i] in rows
      requires forall i, j :: 0 <= i < j < |ids| ==> ids[i] != ids[j]
      modifies this`rows
      ensures Valid()
      ensures Contents() == Claimed(old(Contents()), ids, until)
      ensures |items| == |ids|
      ensures forall i :: 0 <= i < |ids| ==> items[i].id == ids[i] && items[i] == rows[ids[i]].item
    {
      ghost var before := Contents();
      items := [];
      for n := 0 to |ids|
        invariant |items| == n && nextId == before.nextId && rows.Keys == before.rows.Keys
        invariant forall id :: id in before.rows ==>
          rows[id] == if id in ids[..n] then Leased(before.rows[id], until) else before.rows[id]
        invariant forall i :: 0 <= i < n ==> items[i].id == ids[i] && items[i] == rows[ids[i]].item
      {
        assert ids[n] !in ids[..n];
        var row := rows[ids[n]];
        row := row.(claimedUntil := Some(until), item := row.item.(attempts := row.item.attempts + 1));
        rows := rows[ids[n] := row];
        items := items + [row.item];
      }
      assert ids[..|ids|] == ids;
      assert Contents() == Claimed(before, ids, until);
      ClaimedWellFormed(before, ids, until);
    }

    /** Leases the first claimable rows, up to limit, until now + lease: whatever
        claimable row is left over, the limit was reached by rows before it. */
    method Claim(lease: nat, limit: nat, kinds: set<Kind>, now: nat) returns (ghost ids: seq<RowId>, items: seq<Item>)
      requires Valid()
      modifies this`rows
      ensures Valid()
      ensures InClaimOrder(old(Contents()), ids)
      ensures Contents() == Claimed(old(Contents()), ids, now + lease)
      ensures forall id :: id in ids ==> Wanted(old(rows)[id], now, kinds)
      ensures forall id :: id in ids ==>
                && old(rows)[id].processedAt == None && old(rows)[id].availableAt <= now
                && (old(rows)[id].claimedUntil.Some? ==> old(rows)[id].claimedUntil.value <= now)
                && (kinds != {} ==> old(rows)[id].item.kind in kinds)
      ensures forall id :: id in old(rows) && id !in ids && Wanted(old(rows)[id], now, kinds) ==>
                0 < limit == |ids| && forall i :: 0 <= i < |ids| ==> ClaimBefore(old(Contents()), ids[i], id)
      ensures limit > 0 ==> |ids| <= limit
      ensures |items| == |ids| && forall i :: 0 <= i < |ids| ==> items[i].id == ids[i] && items[i] == rows[ids[i]].item
    {
      var all := ClaimableRows(now, kinds);
      var first := if 0 < limit < |all| then all[..limit] else all;
      ids := first;
      assert forall x :: x in all && x !in first ==> exists k :: |first| <= k < |all| && all[k] == x;
      items := Lease(first, now + lease);
    }

    /** Marks a row processed, if no newer intent has coalesced onto it. */
    method Complete(id: RowId, revision: nat, now: nat) returns (completed: bool)
      requires Valid()
      modifies this`rows
      ensures Valid()
      ensures completed <==> Completes(old(Contents()), id, revision)
      ensures Contents() == Completed(old(Contents()), id, revision, now)
    {
      ghost var after := Completed(Contents(), id, revision, now);
      SettledWellFormed(Contents(), id, revision, now);
      if id !in rows || !IsPending(rows[id]) || rows[id].item.revision != revision {
        return false;
      }
      rows := rows[id := rows[id].(processedAt := Some(now))];
      rows := rows[id := rows[id].(claimedUntil := None)];
      rows := rows[id := rows[id].(lastError := "")];
      assert Contents() == after;
      return true;
    }

    /** Releases a row's lease and makes it available after the delay. */
    method Reschedule(id: RowId, delay: nat, lastError: string, now: nat)
      requires Valid()
      modifies this`rows
      ensures Valid()
      ensures Contents() == Rescheduled(old(Contents()), id, now + delay, lastError)
    {
      ghost var after := Rescheduled(Contents(), id, now + delay, lastError);
      RescheduledWellFormed(Contents(), id, now + delay, lastError);
      if id in rows {
        rows := rows[id := rows[id].(claimedUntil := None)];
        rows := rows[id := rows[id].(availableAt := now + delay, lastError := lastError)];
      }
      assert Contents() == after;
    }

    /** Deletes the rows processed longer ago than retention. */
    method Prune(retention: nat, now: nat) returns (pruned: nat)
      requires Valid()
      modifies this`rows
      ensures Valid()
      ensures Contents() == Pruned(old(Contents()), retention, now)
      ensures pruned == |old(rows)| - |rows|
    {
      ghost var before := Contents();
      PrunedWellFormed(before, retention, now);
      var rest := rows.Keys;
      pruned := 0;
      while rest != {}
        invariant rest <= rows.Keys <= before.rows.Keys
        invariant forall id :: id in rows ==> rows[id] == before.rows[id]
        invariant forall id :: id in before.rows && id !in rest ==> (id in rows <==> !Stale(before.rows[id], retention, now))
        invariant forall id :: id in rest ==> id in rows
        invariant pruned == |before.rows| - |rows|
        decreases |rest|
      {
        var id :| id in rest;
        rest := rest - {id};
        if Stale(rows[id], retention, now) {
          assert |(rows - {id}).Keys| == |rows.Keys - {id}| by { assert (rows - {id}).Keys == rows.Keys - {id}; }
          rows := rows - {id};
          pruned := pruned + 1;
        }
      }
      assert Contents() == Pruned(before, retention, now);
    }
  }

  lemma ClaimedWellFormed(q: Queue, ids: seq<RowId>, until: nat)
    requires WellFormed(q)
    ensures WellFormed(Claimed(q, ids, until))
  {
    assert forall id, kind, key :: PendingFor(Claimed(q, ids, until), id, kind, key) ==> PendingFor(q, id, kind, key);
  }

  lemma SettledWellFormed(q: Queue, id: RowId, revision: nat, now: nat)
    requires WellFormed(q)
    ensures WellFormed(Completed(q, id, revision, now))
  {
    assert forall x, kind, key :: PendingFor(Completed(q, id, revision, now), x, kind, key) ==> PendingFor(q, x, kind, key);
  }

  lemma RescheduledWellFormed(q: Queue, id: RowId, at: nat, lastError: string)
    requires WellFormed(q)
    ensures WellFormed(Rescheduled(q, id, at, lastError))
  {
    assert forall x, kind, key :: PendingFor(Rescheduled(q, id, at, lastError), x, kind, key) ==> PendingFor(q, x, kind, key);
  }

  lemma PrunedWellFormed(q: Queue, retention: nat, now: nat)
    requires WellFormed(q)
    ensures WellFormed(Pruned(q, retention, now))
  {
    assert forall x, kind, key :: PendingFor(Pruned(q, retention, now), x, kind, key) ==> PendingFor(q, x, kind, key);
  }

  // ---- What each operation does, row by row ----

  /** A row is claimable exactly when it is unprocessed, available, in no lease that
      still runs, and of a kind asked for. */
  lemma ClaimableExactly(row: Row, now: nat, kinds: set<Kind>)
    ensures Wanted(row, now, kinds) <==>
              && row.processedAt == None && row.availableAt <= now
              && (row.claimedUntil == None || row.claimedUntil.value <= now)
              && (kinds == {} || row.item.kind in kinds)
  {
  }

  /** Rows are claimed by when they became available, and then by id. */
  lemma ClaimOrderExactly(q: Queue, ids: seq<RowId>, i: nat, j: nat)
    requires InClaimOrder(q, ids) && i < j < |ids|
    ensures var a, b := q.rows[ids[i]], q.rows[ids[j]];
            a.availableAt < b.availableAt || (a.availableAt == b.availableAt && ids[i] < ids[j])
  {
    assert ClaimBefore(q, ids[i], ids[j]);
  }

  /** A claim leases its rows, counts the attempt, and changes nothing else. */
  lemma ClaimedExactly(q: Queue, ids: seq<RowId>, until: nat, id: RowId)
    ensures Claimed(q, ids, until).nextId == q.nextId && (id in Claimed(q, ids, until).rows <==> id in q.rows)
    ensures id in q.rows ==>
              var was, row := q.rows[id], Claimed(q, ids, until).rows[id];
              if id in ids
              then row == Row(was.item.(attempts := was.item.attempts + 1), was.availableAt, Some(until), was.processedAt, was.lastError)
              else row == was
  {
  }

  /** A request for a key that is pending replaces its payload, as the next revision
      of a reconcile kind, or is dropped; any other request gets the next row, new and
      claimable; no other row moves. */
  lemma EnqueuedExactly(q: Queue, request: Request, mode: Mode, id: RowId)
    requires WellFormed(q)
    ensures PendingFor(q, id, request.kind, request.key) ==>
              var was := q.rows[id];
              Enqueued(q, request, mode) ==
                if mode == Job then q
                else Queue(q.rows[id := was.(item := was.item.(payload := request.payload, revision := was.item.revision + 1))], q.nextId)
    ensures (forall x :: !PendingFor(q, x, request.kind, request.key)) ==>
              Enqueued(q, request, mode) ==
                Queue(q.rows[q.nextId + 1 := Row(Item(q.nextId + 1, request.kind, request.key, request.payload, 1, 0), 0, None, None, "")],
                      q.nextId + 1)
  {
  }

  /** Requests are enqueued in order, each as it would be alone, and one that names no
      known kind, or no key, stops those after it. */
  lemma {:induction false} EnqueuedOneByOne(q: Queue, specs: map<Kind, Mode>, requests: seq<Request>, last: Request)
    ensures EnqueuedAll(q, specs, []) == q
    ensures (forall i :: 0 <= i < |requests| ==> requests[i].kind in specs && requests[i].key != "") ==>
              EnqueuedAll(q, specs, requests + [last]) ==
                if last.kind in specs && last.key != ""
                then Enqueued(EnqueuedAll(q, specs, requests), last, specs[last.kind])
                else EnqueuedAll(q, specs, requests)
    ensures !(forall i :: 0 <= i < |requests| ==> requests[i].kind in specs && requests[i].key != "") ==>
              EnqueuedAll(q, specs, requests + [last]) == EnqueuedAll(q, specs, requests)
    decreases requests
  {
    if requests == [] {
      assert [last][1..] == [];
    } else {
      assert (requests + [last])[1..] == requests[1..] + [last];
      assert forall i :: 0 < i < |requests| ==> requests[i] == requests[1..][i - 1];
      if Resolves(specs, requests[0]) {
        EnqueuedOneByOne(Enqueued(q, requests[0], specs[requests[0].kind]), specs, requests[1..], last);
      }
    }
  }

  /** A completion takes effect exactly on a pending row still at its revision, which
      is then processed, without a lease or an error. */
  lemma CompletedExactly(q: Queue, id: RowId, revision: nat, now: nat)
    ensures var q' := Completed(q, id, revision, now);
            if id in q.rows && q.rows[id].processedAt == None && q.rows[id].item.revision == revision
            then q' == Queue(q.rows[id := Row(q.rows[id].item, q.rows[id].availableAt, None, Some(now), "")], q.nextId)
            else q' == q
  {
  }

  /** A row put back has no lease, is available exactly then, and says why. */
  lemma RescheduledExactly(q: Queue, id: RowId, at: nat, lastError: string)
    ensures var q' := Rescheduled(q, id, at, lastError);
            if id in q.rows
            then q' == Queue(q.rows[id := Row(q.rows[id].item, at, None, q.rows[id].processedAt, lastError)], q.nextId)
            else q' == q
  {
  }

  /** Pruning deletes exactly the rows processed longer ago than the retention. */
  lemma PrunedExactly(q: Queue, retention: nat, now: nat, id: RowId)
    ensures var q' := Pruned(q, retention, now);
            && q'.nextId == q.nextId
            && (id in q'.rows <==>
                  id in q.rows && (q.rows[id].processedAt == None || now <= q.rows[id].processedAt.value + retention))
            && (id in q'.rows ==> q'.rows[id] == q.rows[id])
  {
  }
}
