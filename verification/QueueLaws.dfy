/** Which jobs a worker is offered, on the fields of the jobs: due ones by schedule, priority and age,
    stale ones by the end of their lease. */
module QueueLaws {
  import opened Common
  import opened Sorting
  import opened Scheduler
  import opened SchedulerLaws

  // ----- pending jobs

  ghost predicate Waits(rows: Table, id: string, now: Time) {
    id in rows && rows[id].status == QUEUED && !(rows[id].scheduledFor.Some? && rows[id].scheduledFor.value > now)
  }

  /** Unscheduled jobs come first, then those scheduled earlier; on equal schedule the smaller priority
      number, then the older job. */
  ghost predicate NoLater(a: Job, b: Job) {
    && (a.scheduledFor != None ==> b.scheduledFor != None && a.scheduledFor.value <= b.scheduledFor.value)
    && (a.scheduledFor == b.scheduledFor ==> a.priority <= b.priority)
    && (a.scheduledFor == b.scheduledFor && a.priority == b.priority ==> a.createdAt <= b.createdAt)
  }

  ghost predicate Ahead(rows: Table, id: string, other: string) {
    id in rows && other in rows && NoLater(rows[id], rows[other])
  }

  lemma AheadIs(rows: Table, id: string, other: string, now: Time)
    requires Waits(rows, id, now) && Waits(rows, other, now)
    ensures Ahead(rows, id, other) <==> PendingOrder()(KeyIn(rows)(id), KeyIn(rows)(other))
  {
  }

  lemma WaitsIs(rows: Table, id: string, now: Time)
    ensures Due(rows, now)(id) <==> Waits(rows, id, now)
  {
  }

  /** A sorted list cut at a limit is in order. */
  lemma CutInOrder<K(!new)>(found: seq<string>, key: string -> K, le: (K, K) -> bool, limit: nat, listed: seq<string>)
    requires TotalOrder(le)
    requires var sorted := SortBy(found, key, le); listed == if |sorted| <= limit then sorted else sorted[..limit]
    ensures forall i, j :: 0 <= i < j < |listed| ==> le(key(listed[i]), key(listed[j]))
  {
    SortSorted(found, key, le);
  }

  /** The pending list: waiting jobs only, up to the limit; no job listed after, or not listed at all, comes
      before one that is listed. */
  lemma PendingInOrder(ids: seq<string>, rows: Table, limit: nat, now: Time)
    ensures var listed := Pending(ids, rows, limit, now);
            && |listed| <= limit
            && (forall id :: id in listed ==> id in ids && Waits(rows, id, now))
            && (forall i, j :: 0 <= i < j < |listed| ==> Ahead(rows, listed[i], listed[j]))
            && (forall id, other :: id in listed && other in ids && Waits(rows, other, now) && other !in listed ==>
                  Ahead(rows, id, other))
            && (forall other :: other in ids && Waits(rows, other, now) && other !in listed ==> |listed| == limit)
  {
    hide SortBy, Filter, Due, Waits, KeyIn, PendingOrder, Ahead;
    var found := Filter(ids, Due(rows, now));
    PendingTotal();
    FirstInOrder(found, KeyIn(rows), PendingOrder(), limit);
    var listed := Pending(ids, rows, limit, now);
    CutInOrder(found, KeyIn(rows), PendingOrder(), limit, listed);
    forall id
      ensures Due(rows, now)(id) <==> Waits(rows, id, now)
    {
      WaitsIs(rows, id, now);
    }
    forall id, other | Waits(rows, id, now) && Waits(rows, other, now)
      ensures Ahead(rows, id, other) <==> PendingOrder()(KeyIn(rows)(id), KeyIn(rows)(other))
    {
      AheadIs(rows, id, other, now);
    }
    assert forall id :: id in listed ==> id in found;
    forall i, j | 0 <= i < j < |listed|
      ensures Ahead(rows, listed[i], listed[j])
    {
      assert listed[i] in listed && listed[j] in listed;
      assert PendingOrder()(KeyIn(rows)(listed[i]), KeyIn(rows)(listed[j]));
    }
  }

  // ----- stale jobs

  /** Running past the end of its lease. */
  ghost predicate Overdue(rows: Table, id: string, now: Time) {
    id in rows && rows[id].status == RUNNING && exists e :: rows[id].expiresAt == Some(e) && !(now < e)
  }

  ghost predicate NoLaterStale(a: Job, b: Job) {
    a.expiresAt != None && b.expiresAt != None &&
    var e, f := a.expiresAt.value, b.expiresAt.value;
    && e <= f && (e == f ==> a.priority <= b.priority)
    && (e == f && a.priority == b.priority ==> a.createdAt <= b.createdAt)
  }

  ghost predicate AheadStale(rows: Table, id: string, other: string) {
    id in rows && other in rows && NoLaterStale(rows[id], rows[other])
  }

  lemma AheadStaleIs(rows: Table, id: string, other: string, now: Time)
    requires Overdue(rows, id, now) && Overdue(rows, other, now)
    ensures AheadStale(rows, id, other) <==> StaleOrder()(StaleKeyIn(rows)(id), StaleKeyIn(rows)(other))
  {
  }

  lemma OverdueIs(rows: Table, id: string, now: Time)
    ensures Stale(rows, now)(id) <==> Overdue(rows, id, now)
  {
  }

  /** The stale list: overdue jobs only, up to the limit, by the end of their lease, priority and age. */
  lemma StaleInOrder(ids: seq<string>, rows: Table, limit: nat, now: Time)
    ensures var listed := StaleList(ids, rows, limit, now);
            && |listed| <= limit
            && (forall id :: id in listed ==> id in ids && Overdue(rows, id, now))
            && (forall i, j :: 0 <= i < j < |listed| ==> AheadStale(rows, listed[i], listed[j]))
            && (forall id, other :: id in listed && other in ids && Overdue(rows, other, now) && other !in listed ==>
                  AheadStale(rows, id, other))
            && (forall other :: other in ids && Overdue(rows, other, now) && other !in listed ==> |listed| == limit)
  {
    hide SortBy, Filter, Stale, Overdue, StaleKeyIn, StaleOrder, AheadStale;
    var found := Filter(ids, Stale(rows, now));
    StaleTotal();
    FirstInOrder(found, StaleKeyIn(rows), StaleOrder(), limit);
    var listed := StaleList(ids, rows, limit, now);
    CutInOrder(found, StaleKeyIn(rows), StaleOrder(), limit, listed);
    forall id
      ensures Stale(rows, now)(id) <==> Overdue(rows, id, now)
    {
      OverdueIs(rows, id, now);
    }
    forall id, other | Overdue(rows, id, now) && Overdue(rows, other, now)
      ensures AheadStale(rows, id, other) <==> StaleOrder()(StaleKeyIn(rows)(id), StaleKeyIn(rows)(other))
    {
      AheadStaleIs(rows, id, other, now);
    }
    assert forall id :: id in listed ==> id in found;
    forall i, j | 0 <= i < j < |listed|
      ensures AheadStale(rows, listed[i], listed[j])
    {
      assert listed[i] in listed && listed[j] in listed;
      assert StaleOrder()(StaleKeyIn(rows)(listed[i]), StaleKeyIn(rows)(listed[j]));
    }
  }
}
