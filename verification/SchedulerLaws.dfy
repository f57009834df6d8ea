/** Safety of the lease protocol under every interleaving of worker steps. */
module SchedulerLaws {
  import opened Common
  import opened Sorting
  import opened Scheduler

  // ----- ownership

  /** A running job has an owner with a name. */
  ghost predicate Owned(rows: Table) {
    forall id :: id in rows && rows[id].status == RUNNING ==> rows[id].owner.Some? && rows[id].owner.value != ""
  }

  /** The only two ways a step can take effect and leave a running job nobody owns. */
  predicate Orphans(rows: Table, s: Step) {
    Succeeds(rows, s) && ((s.Lease? && s.owner == "") || (s.Release? && s.status == RUNNING))
  }

  /** The exact condition: a step keeps every running job owned unless it leases to nobody or
      releases back into RUNNING. */
  lemma OwnedExactly(rows: Table, s: Step)
    requires Owned(rows)
    ensures Owned(Apply(rows, s)) <==> !Orphans(rows, s)
  {
    var rows' := Apply(rows, s);
    if Orphans(rows, s) {
      assert s.id in rows' && rows'[s.id].status == RUNNING;
    }
  }

  /** Both happen: a job leased to nobody, and one its owner releases into RUNNING. */
  lemma OrphansExist(job: Job)
    requires job.status == QUEUED && job.scheduledFor.None? && job.attempts == 0
    ensures var rows := map["j" := job];
            var nobody, held := Lease("j", "", 900, 0), Lease("j", "w", 900, 0);
            var reopened := Release("j", "w", RUNNING, None, 1);
            && Owned(rows) && Orphans(rows, nobody) && !Owned(Apply(rows, nobody))
            && Owned(Apply(rows, held)) && Orphans(Apply(rows, held), reopened)
            && !Owned(Apply(Apply(rows, held), reopened))
  {
    var rows := map["j" := job];
    OwnedExactly(rows, Lease("j", "", 900, 0));
    OwnedExactly(rows, Lease("j", "w", 900, 0));
    OwnedExactly(Apply(rows, Lease("j", "w", 900, 0)), Release("j", "w", RUNNING, None, 1));
  }

  /** Workers with names, releasing to a status other than RUNNING. */
  predicate Proper(s: Step) {
    (s.Lease? ==> s.owner != "") && (s.Release? ==> s.status != RUNNING)
  }

  ghost predicate AllProper(steps: seq<Step>) {
    forall k :: 0 <= k < |steps| ==> Proper(steps[k])
  }

  /** Who holds a job, read off the history alone: the last successful lease not yet released. */
  function Holder(rows: Table, steps: seq<Step>, id: string): Option<string> {
    if steps == [] then
      if id in rows && rows[id].status == RUNNING then rows[id].owner else None
    else
      var n := |steps| - 1;
      var s := steps[n];
      if s.id == id && s.Lease? && Succeeds(Run(rows, steps[..n]), s) then Some(s.owner)
      else if s.id == id && s.Release? && Succeeds(Run(rows, steps[..n]), s) then None
      else Holder(rows, steps[..n], id)
  }

  /** The table agrees with the history: running means held, and the owner column is the holder. */
  lemma {:induction false} TableShowsHolder(rows: Table, steps: seq<Step>, id: string)
    requires Owned(rows) && AllProper(steps) && id in rows
    ensures var job := Run(rows, steps)[id];
            && (job.status == RUNNING <==> Holder(rows, steps, id).Some?)
            && (job.status == RUNNING ==> job.owner == Holder(rows, steps, id) && job.owner.value != "")
  {
    if steps != [] {
      TableShowsHolder(rows, steps[..|steps| - 1], id);
    }
  }

  /** Only the holder's heartbeat or release takes effect, and the holder's always does. */
  lemma {:induction false} OnlyTheHolderSucceeds(rows: Table, steps: seq<Step>, s: Step)
    requires Owned(rows) && AllProper(steps) && s.id in rows && !s.Lease? && s.owner != ""
    ensures Succeeds(Run(rows, steps), s) <==> Holder(rows, steps, s.id) == Some(s.owner)
  {
    TableShowsHolder(rows, steps, s.id);
  }

  /** While nothing releases it, a running job stays running. */
  lemma {:induction false} StaysRunning(rows: Table, steps: seq<Step>, id: string, i: nat, j: nat)
    requires i <= j <= |steps| && id in rows
    requires Run(rows, steps[..i])[id].status == RUNNING
    requires forall k :: i <= k < j && steps[k].id == id && steps[k].Release? ==> !Took(rows, steps, k)
    ensures Run(rows, steps[..j])[id].status == RUNNING
  {
    if i < j {
      StaysRunning(rows, steps, id, i, j - 1);
      RunStep(rows, steps, j - 1);
    }
  }

  /** Between two successful leases of a job there is a successful release of it. In particular,
      concurrent lease calls get disjoint jobs as long as nothing is released. */
  lemma LeasesAreExclusive(rows: Table, steps: seq<Step>, i: nat, j: nat)
    requires i < j < |steps| && steps[i].Lease? && steps[j].Lease? && steps[i].id == steps[j].id
    requires Took(rows, steps, i) && Took(rows, steps, j)
    ensures exists k :: i < k < j && steps[k].id == steps[i].id && steps[k].Release? && Took(rows, steps, k)
  {
    var id := steps[i].id;
    if forall k :: i < k < j && steps[k].id == id && steps[k].Release? ==> !Took(rows, steps, k) {
      RunStep(rows, steps, i);
      StaysRunning(rows, steps, id, i + 1, j);
      assert false;
    }
  }

  lemma {:induction false} LeasedAt(rows: Table, steps: seq<Step>, slots: seq<nat>, id: string)
    requires forall k :: k in slots ==> k < |steps|
    requires id in LeasedBy(rows, steps, slots)
    ensures exists k :: k in slots && steps[k].id == id && Took(rows, steps, k)
  {
    hide Took;
    if slots != [] {
      var n := |slots| - 1;
      assert slots[n] in slots && forall k :: k in slots[..n] ==> k in slots;
      if id in LeasedBy(rows, steps, slots[..n]) {
        LeasedAt(rows, steps, slots[..n], id);
      }
    }
  }

  /** Lease steps at two sets of positions, whoever takes the other steps: a job both of them leased was
      released in between. */
  lemma SlotsLeaseDisjointJobs(rows: Table, steps: seq<Step>, slots: seq<nat>, slots': seq<nat>, id: string)
    requires forall k :: k in slots || k in slots' ==> k < |steps| && steps[k].Lease?
    requires forall k :: k in slots ==> k !in slots'
    requires id in LeasedBy(rows, steps, slots) && id in LeasedBy(rows, steps, slots')
    ensures exists i, j ::
              && ((i in slots && j in slots') || (i in slots' && j in slots))
              && ReleasedBetween(rows, steps, i, j, id)
  {
    hide Took, LeasedBy;
    LeasedAt(rows, steps, slots, id);
    LeasedAt(rows, steps, slots', id);
    var a :| a in slots && steps[a].id == id && Took(rows, steps, a);
    var b :| b in slots' && steps[b].id == id && Took(rows, steps, b);
    var i, j := if a < b then a else b, if a < b then b else a;
    LeasesAreExclusive(rows, steps, i, j);
    assert ReleasedBetween(rows, steps, i, j, id);
  }

  /** The job was leased at `i`, leased again at `j`, and successfully released in between. */
  ghost predicate ReleasedBetween(rows: Table, steps: seq<Step>, i: nat, j: nat, id: string) {
    && i < j < |steps| && steps[i].Lease? && steps[j].Lease? && steps[i].id == steps[j].id == id
    && Took(rows, steps, i) && Took(rows, steps, j)
    && exists k :: i < k < j && steps[k].id == id && steps[k].Release? && Took(rows, steps, k)
  }

  // ----- calls in a common history

  /** A call that leases several jobs: its own lease steps, what others did before each, and where its
      history begins in the common one. */
  datatype Call = Call(own: seq<Step>, others: nat -> seq<Step>, at: nat)

  function HistoryOf(c: Call): seq<Step> {
    Woven(c.own, c.others, |c.own|)
  }

  ghost predicate TakesPlace(steps: seq<Step>, c: Call) {
    && (forall i :: 0 <= i < |c.own| ==> c.own[i].Lease?)
    && c.at + |HistoryOf(c)| <= |steps| && steps[c.at..c.at + |HistoryOf(c)|] == HistoryOf(c)
  }

  function Shift(slots: seq<nat>, p: nat): (r: seq<nat>)
    ensures |r| == |slots|
  {
    seq(|slots|, i requires 0 <= i < |slots| => slots[i] + p)
  }

  /** The positions of a call's own steps in the common history. */
  function Places(c: Call): seq<nat> {
    Shift(Slots(c.own, c.others, |c.own|), c.at)
  }

  lemma SlotsFit(c: Call)
    ensures forall k :: k in Slots(c.own, c.others, |c.own|) ==> k < |HistoryOf(c)|
  {
    var slots := Slots(c.own, c.others, |c.own|);
    SlotsHoldOwnSteps(c.own, c.others, |c.own|);
    hide Woven, Slots;
    forall k | k in slots
      ensures k < |HistoryOf(c)|
    {
      var i :| 0 <= i < |slots| && slots[i] == k;
      assert SlotHolds(c.own, c.others, |c.own|, i);
    }
  }

  lemma PlacesHoldLeases(steps: seq<Step>, c: Call)
    requires TakesPlace(steps, c)
    ensures forall k :: k in Places(c) ==> k < |steps| && steps[k].Lease?
  {
    var slots, w := Slots(c.own, c.others, |c.own|), HistoryOf(c);
    SlotsHoldOwnSteps(c.own, c.others, |c.own|);
    hide Woven, Slots;
    forall k | k in Places(c)
      ensures k < |steps| && steps[k].Lease?
    {
      var i :| 0 <= i < |slots| && Places(c)[i] == k;
      assert SlotHolds(c.own, c.others, |c.own|, i);
      assert steps[k] == steps[c.at..c.at + |w|][k - c.at];
    }
  }

  /** What the call returns, as `LeaseNext` promises it: the jobs its own steps leased, starting from the
      table it found. */
  function Returned(rows: Table, steps: seq<Step>, c: Call): seq<string>
    requires c.at <= |steps|
  {
    SlotsFit(c);
    LeasedBy(Run(rows, steps[..c.at]), HistoryOf(c), Slots(c.own, c.others, |c.own|))
  }

  lemma TookInPlace(rows: Table, steps: seq<Step>, w: seq<Step>, p: nat, k: nat)
    requires p + |w| <= |steps| && steps[p..p + |w|] == w && k < |w|
    ensures steps[k + p] == w[k] && (Took(rows, steps, k + p) <==> Took(Run(rows, steps[..p]), w, k))
  {
    hide Succeeds;
    assert steps[k + p] == steps[p..p + |w|][k];
    assert steps[..k + p] == steps[..p] + w[..k];
    RunConcat(rows, steps[..p], w[..k]);
  }

  lemma ShiftFits(slots: seq<nat>, p: nat, n: nat)
    requires forall k :: k in slots ==> k < n
    ensures forall k :: k in Shift(slots, p) ==> k < p + n
  {
    forall k | k in Shift(slots, p)
      ensures k < p + n
    {
      var i :| 0 <= i < |slots| && Shift(slots, p)[i] == k;
      assert slots[i] in slots;
    }
  }

  lemma ShiftSnoc(slots: seq<nat>, last: nat, p: nat)
    ensures Shift(slots + [last], p) == Shift(slots, p) + [last + p]
  {
  }

  /** A call leases in the common history what it leased in its own. */
  lemma {:induction false} LeasedInPlace(rows: Table, steps: seq<Step>, w: seq<Step>, p: nat, slots: seq<nat>)
    requires p + |w| <= |steps| && steps[p..p + |w|] == w && forall k :: k in slots ==> k < |w|
    ensures forall k :: k in Shift(slots, p) ==> k < |steps|
    ensures LeasedBy(rows, steps, Shift(slots, p)) == LeasedBy(Run(rows, steps[..p]), w, slots)
  {
    hide Took, Run, Shift;
    ShiftFits(slots, p, |w|);
    if slots != [] {
      var n := |slots| - 1;
      assert slots[n] in slots && forall k :: k in slots[..n] ==> k in slots;
      assert slots == slots[..n] + [slots[n]];
      ShiftSnoc(slots[..n], slots[n], p);
      assert Shift(slots, p)[..n] == Shift(slots[..n], p);
      LeasedInPlace(rows, steps, w, p, slots[..n]);
      TookInPlace(rows, steps, w, p, slots[n]);
    }
  }

  /** Two calls anywhere in a common history, interleaved in any way with each other and with further
      workers: no job is returned by both unless it was released between their leases of it. */
  lemma CallsLeaseDisjointJobs(rows: Table, steps: seq<Step>, a: Call, b: Call, id: string)
    requires TakesPlace(steps, a) && TakesPlace(steps, b)
    requires forall k :: k in Places(a) ==> k !in Places(b)
    requires id in Returned(rows, steps, a) && id in Returned(rows, steps, b)
    ensures exists i, j ::
              && ((i in Places(a) && j in Places(b)) || (i in Places(b) && j in Places(a)))
              && ReleasedBetween(rows, steps, i, j, id)
  {
    PlacesHoldLeases(steps, a);
    PlacesHoldLeases(steps, b);
    SlotsFit(a);
    SlotsFit(b);
    hide Woven, Slots, LeasedBy, Shift, ReleasedBetween;
    LeasedInPlace(rows, steps, HistoryOf(a), a.at, Slots(a.own, a.others, |a.own|));
    LeasedInPlace(rows, steps, HistoryOf(b), b.at, Slots(b.own, b.others, |b.own|));
    SlotsLeaseDisjointJobs(rows, steps, Places(a), Places(b), id);
  }

  /** And the first release after a lease is the lessee's own. */
  lemma FirstReleaseIsTheLessees(rows: Table, steps: seq<Step>, i: nat, k: nat)
    requires Owned(rows) && AllProper(steps) && i < k < |steps|
    requires steps[i].Lease? && Took(rows, steps, i)
    requires steps[k].Release? && steps[k].id == steps[i].id && Took(rows, steps, k) && steps[k].owner != ""
    requires forall m :: i < m < k && steps[m].id == steps[i].id && steps[m].Release? ==> !Took(rows, steps, m)
    ensures steps[k].owner == steps[i].owner
  {
    assert AllProper(steps[..k]);
    HolderSince(rows, steps, i, k);
    OnlyTheHolderSucceeds(rows, steps[..k], steps[k]);
  }

  lemma {:induction false} HolderSince(rows: Table, steps: seq<Step>, i: nat, k: nat)
    requires i < k <= |steps| && steps[i].Lease? && Took(rows, steps, i)
    requires forall m :: i < m < k && steps[m].id == steps[i].id && steps[m].Release? ==> !Took(rows, steps, m)
    ensures Holder(rows, steps[..k], steps[i].id) == Some(steps[i].owner)
  {
    var n := k - 1;
    assert steps[..k][..n] == steps[..n] && steps[..k][n] == steps[n];
    if i < n {
      HolderSince(rows, steps, i, n);
      if steps[n].id == steps[i].id && steps[n].Lease? && Took(rows, steps, n) {
        RunStep(rows, steps, i);
        StaysRunning(rows, steps, steps[i].id, i + 1, n);
        assert false;
      }
    }
  }

  // ----- attempts

  function LeaseCount(rows: Table, steps: seq<Step>, id: string): nat {
    if steps == [] then 0
    else
      var n := |steps| - 1;
      LeaseCount(rows, steps[..n], id)
      + if steps[n].id == id && steps[n].Lease? && Succeeds(Run(rows, steps[..n]), steps[n]) then 1 else 0
  }

  /** The attempt counter counts successful leases, and they never exceed what the limit leaves. */
  lemma {:induction false} AttemptsCountLeases(rows: Table, steps: seq<Step>, id: string)
    requires id in rows
    ensures var job := Run(rows, steps)[id];
            && job.attempts == rows[id].attempts + LeaseCount(rows, steps, id)
            && job.maxAttempts == rows[id].maxAttempts
            && job.attempts <= IntMax(rows[id].attempts, AttemptLimit(rows[id]))
  {
    if steps != [] {
      AttemptsCountLeases(rows, steps[..|steps| - 1], id);
    }
  }

  /** A job saved with no attempts is leased at most max(1, max_attempts) times, ever. */
  lemma FreshJobLeaseLimit(rows: Table, steps: seq<Step>, id: string)
    requires id in rows && rows[id].attempts == 0
    ensures LeaseCount(rows, steps, id) == Run(rows, steps)[id].attempts <= AttemptLimit(rows[id])
  {
    AttemptsCountLeases(rows, steps, id);
  }

  // ----- staleness

  /** The steps that set a deadline: a lease, or a heartbeat that names a length. */
  predicate Extends(rows: Table, steps: seq<Step>, k: nat, id: string)
    requires k < |steps|
  {
    steps[k].id == id && Took(rows, steps, k) && (steps[k].Lease? || (steps[k].Heartbeat? && steps[k].extension.Some?))
  }

  function Deadline(s: Step): Time {
    match s
    case Lease(_, _, seconds, now) => now + ClampSeconds(seconds) * SECOND
    case Heartbeat(_, _, extension, now) => now + ClampSeconds(extension.GetOr(0)) * SECOND
    case Release(_, _, _, _, now) => now
  }

  lemma {:induction false} DeadlineStands(rows: Table, steps: seq<Step>, id: string, i: nat, j: nat)
    requires i < j <= |steps| && id in rows && Extends(rows, steps, i, id)
    requires forall k :: i < k < j ==> !Extends(rows, steps, k, id)
    requires forall k :: i < k < j && steps[k].id == id && steps[k].Release? ==> !Took(rows, steps, k)
    ensures Run(rows, steps[..j])[id].status == RUNNING
           && Run(rows, steps[..j])[id].expiresAt == Some(Deadline(steps[i]))
  {
    var n := j - 1;
    var before, s := Run(rows, steps[..n]), steps[n];
    RunStep(rows, steps, n);
    if i < n {
      DeadlineStands(rows, steps, id, i, n);
      if s.id == id && Succeeds(before, s) {
        assert Took(rows, steps, n) && !Extends(rows, steps, n, id);
        assert s.Heartbeat? && s.extension.None?;
      }
    } else {
      assert Succeeds(before, s) && s.id == id;
    }
  }

  /** A held job counts as stale at `t` exactly when `t` has reached the deadline of its last lease
      or extending heartbeat. */
  lemma StaleExactly(rows: Table, steps: seq<Step>, id: string, i: nat, t: Time)
    requires i < |steps| && id in rows && Extends(rows, steps, i, id)
    requires forall k :: i < k < |steps| ==> !Extends(rows, steps, k, id)
    requires forall k :: i < k < |steps| && steps[k].id == id && steps[k].Release? ==> !Took(rows, steps, k)
    ensures Stale(Run(rows, steps), t)(id) <==> Deadline(steps[i]) <= t
    ensures t < steps[i].now + 30 * SECOND ==> !Stale(Run(rows, steps), t)(id)
  {
    assert steps[..|steps|] == steps;
    DeadlineStands(rows, steps, id, i, |steps|);
  }

  /** So an owner that beats within its clamped lease is never listed, whatever the limit; once the
      deadline has passed the job is listed, unless the limit is used up by stale jobs ordered no later. */
  lemma ListedExactly(ids: seq<string>, rows: Table, steps: seq<Step>, id: string, i: nat, t: Time, limit: nat)
    requires id in ids && i < |steps| && id in rows && Extends(rows, steps, i, id)
    requires forall k :: i < k < |steps| ==> !Extends(rows, steps, k, id)
    requires forall k :: i < k < |steps| && steps[k].id == id && steps[k].Release? ==> !Took(rows, steps, k)
    ensures var now := Run(rows, steps);
            var listed := StaleList(ids, now, limit, t);
            && (t < Deadline(steps[i]) ==> id !in listed)
            && (Deadline(steps[i]) <= t ==>
                  id in listed
                  || (|listed| == limit
                      && forall other :: other in listed ==>
                           Stale(now, t)(other) && StaleLe(StaleKeyIn(now)(other), StaleKeyIn(now)(id))))
  {
    hide Stale, StaleList, StaleLe, Extends, Took, Deadline, Run;
    StaleExactly(rows, steps, id, i, t);
    StaleAreFirst(ids, Run(rows, steps), limit, t);
  }

  // ----- lists in order, up to a limit

  lemma StaleTotal()
    ensures TotalOrder(StaleOrder())
  {
  }

  /** The stale list holds stale jobs only, as many as the limit allows, the first ones in order. */
  lemma StaleAreFirst(ids: seq<string>, rows: Table, limit: nat, now: Time)
    ensures var listed := StaleList(ids, rows, limit, now);
            && |listed| == IntMin(limit, |Filter(ids, Stale(rows, now))|)
            && (forall id :: id in listed ==> id in ids && Stale(rows, now)(id))
            && (forall id :: id in ids && Stale(rows, now)(id) && id !in listed ==> |listed| == limit)
            && (forall id, other :: id in listed && other in ids && Stale(rows, now)(other) && other !in listed ==>
                  StaleLe(StaleKeyIn(rows)(id), StaleKeyIn(rows)(other)))
  {
    var stale := Filter(ids, Stale(rows, now));
    StaleTotal();
    FirstInOrder(stale, StaleKeyIn(rows), StaleOrder(), limit);
    hide SortBy, Filter, Stale, StaleLe, StaleKeyIn;
    var listed := StaleList(ids, rows, limit, now);
    forall id, other | id in listed && other in ids && Stale(rows, now)(other) && other !in listed
      ensures StaleLe(StaleKeyIn(rows)(id), StaleKeyIn(rows)(other))
    {
      assert StaleOrder()(StaleKeyIn(rows)(id), StaleKeyIn(rows)(other));
    }
  }

  lemma PendingTotal()
    ensures TotalOrder(PendingOrder())
  {
  }

  /** The pending list holds due jobs only, as many as the limit allows, the first ones in order. */
  lemma PendingAreFirst(ids: seq<string>, rows: Table, limit: nat, now: Time)
    ensures var listed := Pending(ids, rows, limit, now);
            && |listed| == IntMin(limit, |Filter(ids, Due(rows, now))|)
            && (forall id :: id in listed ==> id in ids && Due(rows, now)(id))
            && (forall id, other :: id in listed && other in ids && Due(rows, now)(other) && other !in listed ==>
                  PendingLe(KeyIn(rows)(id), KeyIn(rows)(other)))
  {
    var due := Filter(ids, Due(rows, now));
    PendingTotal();
    FirstInOrder(due, KeyIn(rows), PendingOrder(), limit);
    hide SortBy, Filter, PendingLe, Due, KeyIn;
    var listed := Pending(ids, rows, limit, now);
    forall id, other | id in listed && other in ids && Due(rows, now)(other) && other !in listed
      ensures PendingLe(KeyIn(rows)(id), KeyIn(rows)(other))
    {
      assert PendingOrder()(KeyIn(rows)(id), KeyIn(rows)(other));
    }
  }

  /** A sorted list cut at a limit keeps the first ones. */
  lemma FirstInOrder<K(!new)>(found: seq<string>, key: string -> K, le: (K, K) -> bool, limit: nat)
    requires TotalOrder(le)
    ensures var sorted := SortBy(found, key, le);
            var listed := if |sorted| <= limit then sorted else sorted[..limit];
            && |listed| == IntMin(limit, |found|)
            && (forall id :: id in listed ==> id in found)
            && (forall id :: id in found && id !in listed ==> |listed| == limit)
            && (forall id, other :: id in listed && other in found && other !in listed ==> le(key(id), key(other)))
  {
    var sorted := SortBy(found, key, le);
    SortSorted(found, key, le);
    SameMembers(sorted, found);
    var listed := if |sorted| <= limit then sorted else sorted[..limit];
    hide SortBy;
    forall id, other | id in listed && other in found && other !in listed
      ensures le(key(id), key(other))
    {
      var i :| 0 <= i < |listed| && listed[i] == id;
      var j :| 0 <= j < |sorted| && sorted[j] == other;
      assert sorted[i] == id && j >= |listed|;
    }
  }
}
