/** The scheduler's lease protocol: workers lease, heartbeat and release job rows. Every locked
    repository method is one atomic step on the table. */
module Scheduler {
  import opened Common
  import opened Sorting

  const SECOND: Time := 1_000_000

  datatype Status = QUEUED | RUNNING | OTHER(name: string)

  datatype Job = Job(status: Status, scheduledFor: Option<Time>, priority: int, createdAt: Time,
                     owner: Option<string>, expiresAt: Option<Time>, heartbeatAt: Option<Time>,
                     attempts: int, maxAttempts: int, timeoutSeconds: int,
                     startedAt: Option<Time>, completedAt: Option<Time>,
                     failedReason: Option<string>, lastError: Option<string>, updatedAt: Time)

  type Table = map<string, Job>

  /** Lease lengths: zero means the default, and every length is clamped to half a minute to a day. */
  function ClampSeconds(seconds: int): (r: int)
    ensures 30 <= r <= 86400
    ensures 30 <= seconds <= 86400 ==> r == seconds
    ensures seconds == 0 ==> r == 900
    ensures seconds < 30 && seconds != 0 ==> r == 30
    ensures seconds > 86400 ==> r == 86400
  {
    IntMax(30, IntMin(if seconds == 0 then 900 else seconds, 86400))
  }

  function AttemptLimit(job: Job): int {
    IntMax(1, job.maxAttempts)
  }

  // ----- the atomic steps

  datatype Step =
    | Lease(id: string, owner: string, seconds: int, now: Time)
    | Heartbeat(id: string, owner: string, extension: Option<int>, now: Time)
    | Release(id: string, owner: string, status: Status, error: Option<string>, now: Time)

  predicate Succeeds(rows: Table, s: Step) {
    s.id in rows &&
    var job := rows[s.id];
    match s
    case Lease(_, _, _, now) =>
      job.status == QUEUED && (job.scheduledFor.Some? ==> job.scheduledFor.value <= now)
        && job.attempts < AttemptLimit(job)
    case Heartbeat(_, owner, _, _) => job.status == RUNNING && job.owner.GetOr("") == owner
    case Release(_, owner, _, _, _) => job.status == RUNNING && job.owner.GetOr("") == owner
  }

  function After(job: Job, s: Step): Job {
    match s
    case Lease(_, owner, seconds, now) =>
      job.(status := RUNNING, startedAt := Some(now), completedAt := None, failedReason := None, owner := Some(owner),
           expiresAt := Some(now + ClampSeconds(seconds) * SECOND), heartbeatAt := Some(now),
           attempts := job.attempts + 1, timeoutSeconds := ClampSeconds(seconds), lastError := None, updatedAt := now)
    case Heartbeat(_, _, extension, now) =>
      job.(heartbeatAt := Some(now), updatedAt := now,
           expiresAt := if extension.Some? then Some(now + ClampSeconds(extension.value) * SECOND) else job.expiresAt)
    case Release(_, _, status, error, now) =>
      job.(status := status, owner := None, expiresAt := None, heartbeatAt := None, updatedAt := now,
           lastError := if error.Some? && error.value != "" then error else job.lastError)
  }

  function Apply(rows: Table, s: Step): Table {
    if Succeeds(rows, s) then rows[s.id := After(rows[s.id], s)] else rows
  }

  // ----- the steps, field by field

  /** One row at most is touched, and no row comes or goes. */
  ghost predicate OnlyRow(before: Table, after: Table, id: string) {
    after.Keys == before.Keys && forall other :: other in before && other != id ==> after[other] == before[other]
  }

  ghost predicate Leasable(rows: Table, id: string, now: Time) {
    && id in rows && rows[id].status == QUEUED
    && !(rows[id].scheduledFor.Some? && rows[id].scheduledFor.value > now)
    && (rows[id].attempts < rows[id].maxAttempts || rows[id].attempts < 1)
  }

  /** A lease takes a queued job that is not scheduled for later and has an attempt left; it then runs in
      the worker's name until the lease ends. Anything else changes nothing. */
  ghost predicate Leases(before: Table, after: Table, id: string, owner: string, seconds: int, now: Time) {
    if Leasable(before, id, now) then
      OnlyRow(before, after, id) &&
      var was, job := before[id], after[id];
      && job.status == RUNNING && job.owner == Some(owner) && job.attempts == was.attempts + 1
      && job.expiresAt == Some(now + ClampSeconds(seconds) * 1_000_000) && job.timeoutSeconds == ClampSeconds(seconds)
      && job.startedAt == Some(now) && job.heartbeatAt == Some(now) && job.updatedAt == now
      && job.completedAt == None && job.failedReason == None && job.lastError == None
      && SamePlan(was, job)
    else after == before
  }

  /** What no step changes. */
  ghost predicate SamePlan(was: Job, job: Job) {
    && job.scheduledFor == was.scheduledFor && job.priority == was.priority && job.createdAt == was.createdAt
    && job.maxAttempts == was.maxAttempts
  }

  /** A missing owner counts as the empty name. */
  ghost predicate RunsFor(rows: Table, id: string, owner: string) {
    && id in rows && rows[id].status == RUNNING
    && (rows[id].owner == Some(owner) || (rows[id].owner == None && owner == ""))
  }

  /** A heartbeat of the job's owner shows the time, and moves the end of the lease if asked to. */
  ghost predicate Heartbeats(before: Table, after: Table, id: string, owner: string, extension: Option<int>,
                             now: Time) {
    if RunsFor(before, id, owner) then
      OnlyRow(before, after, id) &&
      var was, job := before[id], after[id];
      && job.heartbeatAt == Some(now) && job.updatedAt == now
      && (extension == None ==> job.expiresAt == was.expiresAt)
      && (extension != None ==> job.expiresAt == Some(now + ClampSeconds(extension.value) * 1_000_000))
      && job.(heartbeatAt := was.heartbeatAt, updatedAt := was.updatedAt, expiresAt := was.expiresAt) == was
    else after == before
  }

  /** A release by the job's owner leaves the job to nobody, in the status asked for; an error text that is
      not empty replaces the last one. */
  ghost predicate Releases(before: Table, after: Table, id: string, owner: string, status: Status,
                           error: Option<string>,
                           now: Time) {
    if RunsFor(before, id, owner) then
      OnlyRow(before, after, id) &&
      var was, job := before[id], after[id];
      && job.status == status && job.updatedAt == now
      && job.owner == None && job.expiresAt == None && job.heartbeatAt == None
      && job.lastError == (if error == None || error == Some("") then was.lastError else error)
      && job.attempts == was.attempts && job.timeoutSeconds == was.timeoutSeconds && job.startedAt == was.startedAt
      && job.completedAt == was.completedAt && job.failedReason == was.failedReason && SamePlan(was, job)
    else after == before
  }

  /** The atomic steps do that and nothing else. */
  lemma StepsExactly(rows: Table, id: string, owner: string, seconds: int, extension: Option<int>, status: Status,
                     error: Option<string>, now: Time)
    ensures Leases(rows, Apply(rows, Lease(id, owner, seconds, now)), id, owner, seconds, now)
    ensures Heartbeats(rows, Apply(rows, Heartbeat(id, owner, extension, now)), id, owner, extension, now)
    ensures Releases(rows, Apply(rows, Release(id, owner, status, error, now)), id, owner, status, error, now)
  {
    hide ClampSeconds;
  }

  /** The table after a history of steps by any workers, in any interleaving. */
  function Run(rows: Table, steps: seq<Step>): (r: Table)
    ensures r.Keys == rows.Keys
  {
    if steps == [] then rows else Apply(Run(rows, steps[..|steps| - 1]), Last(steps))
  }

  lemma RunStep(rows: Table, steps: seq<Step>, k: nat)
    requires k < |steps|
    ensures Run(rows, steps[..k + 1]) == Apply(Run(rows, steps[..k]), steps[k])
  {
    assert steps[..k + 1][..k] == steps[..k] && Last(steps[..k + 1]) == steps[k];
  }

  lemma NoSteps(rows: Table, steps: seq<Step>)
    ensures Run(rows, steps[..0]) == rows
  {
  }

  /** Step `k` of the history took effect. */
  predicate Took(rows: Table, steps: seq<Step>, k: nat)
    requires k < |steps|
  {
    Succeeds(Run(rows, steps[..k]), steps[k])
  }

  // ----- listing

  datatype PendingKey = PendingKey(scheduledFor: Option<Time>, priority: int, createdAt: Time)

  /** Unscheduled jobs first, then by schedule, priority and age. */
  predicate PendingLe(a: PendingKey, b: PendingKey) {
    if a.scheduledFor != b.scheduledFor then
      a.scheduledFor.None? || (b.scheduledFor.Some? && a.scheduledFor.value < b.scheduledFor.value)
    else if a.priority != b.priority then a.priority < b.priority
    else a.createdAt <= b.createdAt
  }

  function PendingOrder(): (PendingKey, PendingKey) -> bool {
    (a, b) => PendingLe(a, b)
  }

  function KeyIn(rows: Table): string -> PendingKey {
    id =>
      if id in rows then PendingKey(rows[id].scheduledFor, rows[id].priority, rows[id].createdAt)
      else PendingKey(None, 0, 0)
  }

  function Due(rows: Table, now: Time): string -> bool {
    id =>
      id in rows && rows[id].status == QUEUED
      && (rows[id].scheduledFor.Some? ==> rows[id].scheduledFor.value <= now)
  }

  function Pending(ids: seq<string>, rows: Table, limit: nat, now: Time): seq<string> {
    var sorted := SortBy(Filter(ids, Due(rows, now)), KeyIn(rows), PendingOrder());
    if |sorted| <= limit then sorted else sorted[..limit]
  }

  function Stale(rows: Table, now: Time): string -> bool {
    id => id in rows && rows[id].status == RUNNING && rows[id].expiresAt.Some? && rows[id].expiresAt.value <= now
  }

  datatype StaleKey = StaleKey(expiresAt: Time, priority: int, createdAt: Time)

  predicate StaleLe(a: StaleKey, b: StaleKey) {
    if a.expiresAt != b.expiresAt then a.expiresAt < b.expiresAt
    else if a.priority != b.priority then a.priority < b.priority
    else a.createdAt <= b.createdAt
  }

  function StaleOrder(): (StaleKey, StaleKey) -> bool {
    (a, b) => StaleLe(a, b)
  }

  function StaleKeyIn(rows: Table): string -> StaleKey {
    id =>
      if id in rows then StaleKey(rows[id].expiresAt.GetOr(0), rows[id].priority, rows[id].createdAt)
      else StaleKey(0, 0, 0)
  }

  /** The stale list: running jobs past their expiry, earliest expiry first, up to the limit. */
  function StaleList(ids: seq<string>, rows: Table, limit: nat, now: Time): seq<string> {
    var sorted := SortBy(Filter(ids, Stale(rows, now)), StaleKeyIn(rows), StaleOrder());
    if |sorted| <= limit then sorted else sorted[..limit]
  }

  // ----- leasing several jobs among other workers

  /** The lease steps of one call; the clock is read again for each of them. */
  function LeaseSteps(pending: seq<string>, owner: string, seconds: int, clock: nat -> Time): seq<Step> {
    seq(|pending|, i requires 0 <= i < |pending| => Lease(pending[i], owner, seconds, clock(i)))
  }

  /** The history of `n` own steps, each preceded by whatever other workers did just before it. */
  function Woven(own: seq<Step>, others: nat -> seq<Step>, n: nat): seq<Step>
    requires n <= |own|
  {
    if n == 0 then [] else Woven(own, others, n - 1) + others(n - 1) + [own[n - 1]]
  }

  /** Where the own steps stand in that history. */
  function Slots(own: seq<Step>, others: nat -> seq<Step>, n: nat): (r: seq<nat>)
    requires n <= |own|
    ensures |r| == n
  {
    if n == 0 then [] else Slots(own, others, n - 1) + [|Woven(own, others, n - 1)| + |others(n - 1)|]
  }

  /** Jobs leased by the steps of a history at the given positions, in that order. */
  function LeasedBy(rows: Table, steps: seq<Step>, slots: seq<nat>): seq<string>
    requires forall k :: k in slots ==> k < |steps|
  {
    if slots == [] then []
    else
      var n := |slots| - 1;
      assert slots[n] in slots && forall k :: k in slots[..n] ==> k in slots;
      LeasedBy(rows, steps, slots[..n]) + if Took(rows, steps, slots[n]) then [steps[slots[n]].id] else []
  }

  lemma WovenStep(own: seq<Step>, others: nat -> seq<Step>, n: nat)
    requires n < |own|
    ensures var more := Woven(own, others, n) + others(n);
            && Woven(own, others, n + 1) == more + [own[n]]
            && Slots(own, others, n + 1) == Slots(own, others, n) + [|more|]
  {
  }

  lemma NothingWoven(rows: Table, own: seq<Step>, others: nat -> seq<Step>)
    ensures Woven(own, others, 0) == [] && Slots(own, others, 0) == [] && LeasedBy(rows, [], []) == []
  {
  }

  lemma {:induction false} SlotsHoldOwnSteps(own: seq<Step>, others: nat -> seq<Step>, n: nat)
    requires n <= |own|
    ensures forall i :: 0 <= i < n ==> SlotHolds(own, others, n, i)
  {
    hide Woven, Slots, SlotHolds;
    if n > 0 {
      SlotsHoldOwnSteps(own, others, n - 1);
      forall i | 0 <= i < n
        ensures SlotHolds(own, others, n, i)
      {
        if i < n - 1 {
          SlotStays(own, others, n - 1, i);
        } else {
          LastSlotHolds(own, others, n - 1);
        }
      }
    }
  }

  /** The `i`-th own step stands at its slot. */
  predicate SlotHolds(own: seq<Step>, others: nat -> seq<Step>, n: nat, i: nat)
    requires i < n <= |own|
  {
    var k := Slots(own, others, n)[i];
    k < |Woven(own, others, n)| && Woven(own, others, n)[k] == own[i]
  }

  lemma SlotStays(own: seq<Step>, others: nat -> seq<Step>, n: nat, i: nat)
    requires i < n < |own| && SlotHolds(own, others, n, i)
    ensures SlotHolds(own, others, n + 1, i)
  {
    WovenStep(own, others, n);
    hide Woven, Slots;
    var before := Woven(own, others, n);
    var k := Slots(own, others, n)[i];
    assert Slots(own, others, n + 1)[i] == k;
    assert Woven(own, others, n + 1) == before + (others(n) + [own[n]]);
  }

  lemma LastSlotHolds(own: seq<Step>, others: nat -> seq<Step>, n: nat)
    requires n < |own|
    ensures SlotHolds(own, others, n + 1, n)
  {
    WovenStep(own, others, n);
    hide Woven, Slots;
    var more := Woven(own, others, n) + others(n);
    assert Slots(own, others, n + 1)[n] == |more|;
    assert (more + [own[n]])[|more|] == own[n];
  }

  /** Earlier positions lease the same in a longer history. */
  lemma {:induction false} LeasedByPrefix(rows: Table, steps: seq<Step>, more: seq<Step>, slots: seq<nat>)
    requires forall k :: k in slots ==> k < |steps|
    ensures LeasedBy(rows, steps + more, slots) == LeasedBy(rows, steps, slots)
  {
    if slots != [] {
      var n := |slots| - 1;
      assert slots[n] in slots && forall k :: k in slots[..n] ==> k in slots;
      LeasedByPrefix(rows, steps, more, slots[..n]);
      assert (steps + more)[..slots[n]] == steps[..slots[n]];
    }
  }

  lemma {:induction false} RunConcat(rows: Table, steps: seq<Step>, more: seq<Step>)
    ensures Run(rows, steps + more) == Run(Run(rows, steps), more)
  {
    if more == [] {
      assert steps + more == steps;
    } else {
      var n := |more| - 1;
      assert (steps + more)[..|steps| + n] == steps + more[..n];
      RunConcat(rows, steps, more[..n]);
    }
  }

  // ----- the repository

  /** Job rows in insertion order; the locked methods update one row each. */
  class SchedulerJobs {
    const ids: seq<string>
    var rows: Table

    constructor (ids: seq<string>, rows: Table)
      ensures this.ids == ids && this.rows == rows
    {
      this.ids, this.rows := ids, rows;
    }

    method LeaseJob(id: string, owner: string, seconds: int, now: Time) returns (job: Option<Job>)
      modifies this`rows
      ensures rows == Apply(old(rows), Lease(id, owner, seconds, now))
      ensures Leases(old(rows), rows, id, owner, seconds, now)
      ensures job == if Succeeds(old(rows), Lease(id, owner, seconds, now)) then Some(rows[id]) else None
    {
      var bounded := ClampSeconds(seconds);
      var expires := now + bounded * SECOND;
      if id !in rows || rows[id].status != QUEUED {
        return None;
      }
      var current := rows[id];
      if current.scheduledFor.Some? && current.scheduledFor.value > now {
        return None;
      }
      if current.attempts >= IntMax(1, current.maxAttempts) {
        return None;
      }
      rows := rows[id := current.(status := RUNNING, startedAt := Some(now), completedAt := None, failedReason := None,
                                  owner := Some(owner), expiresAt := Some(expires), heartbeatAt := Some(now),
                                  attempts := current.attempts + 1, timeoutSeconds := bounded, lastError := None,
                                  updatedAt := now)];
      return Some(rows[id]);
    }

    method HeartbeatJob(id: string, owner: string, extension: Option<int>, now: Time) returns (job: Option<Job>)
      modifies this`rows
      ensures rows == Apply(old(rows), Heartbeat(id, owner, extension, now))
      ensures Heartbeats(old(rows), rows, id, owner, extension, now)
      ensures job == if Succeeds(old(rows), Heartbeat(id, owner, extension, now)) then Some(rows[id]) else None
    {
      if id !in rows || rows[id].status != RUNNING || rows[id].owner.GetOr("") != owner {
        return None;
      }
      var expires := rows[id].expiresAt;
      if extension.Some? {
        expires := Some(now + ClampSeconds(extension.value) * SECOND);
      }
      rows := rows[id := rows[id].(heartbeatAt := Some(now), expiresAt := expires, updatedAt := now)];
      return Some(rows[id]);
    }

    method ReleaseJob(id: string, owner: string, status: Status, error: Option<string>, now: Time)
      returns (job: Option<Job>)
      modifies this`rows
      ensures rows == Apply(old(rows), Release(id, owner, status, error, now))
      ensures Releases(old(rows), rows, id, owner, status, error, now)
      ensures job == if Succeeds(old(rows), Release(id, owner, status, error, now)) then Some(rows[id]) else None
    {
      if id !in rows || rows[id].status != RUNNING || rows[id].owner.GetOr("") != owner {
        return None;
      }
      var lastError := if error.Some? && error.value != "" then error else rows[id].lastError;
      rows := rows[id := rows[id].(status := status, owner := None, expiresAt := None, heartbeatAt := None,
                                   lastError := lastError, updatedAt := now)];
      return Some(rows[id]);
    }

    /** What other workers do while this one is between two locked calls. */
    method Meanwhile(steps: seq<Step>)
      modifies this`rows
      ensures rows == Run(old(rows), steps)
    {
      assert Run(rows, steps[..0]) == rows by { NoSteps(rows, steps); }
      for k := 0 to |steps|
        invariant rows == Run(old(rows), steps[..k])
      {
        RunStep(old(rows), steps, k);
        rows := Apply(rows, steps[k]);
      }
      assert steps[..|steps|] == steps;
    }

    /** Reads the pending list, then leases its jobs one by one. The list is read outside the lock:
        before the `i`-th lease other workers take the steps `others(i)`, and the clock then shows
        `clock(i)`. Returned is what this call itself leased. */
    method LeaseNext(owner: string, maxJobs: int, seconds: int, listed: Time, clock: nat -> Time,
                     others: nat -> seq<Step>)
      returns (leased: seq<string>, ghost slots: seq<nat>)
      modifies this`rows
      ensures var limit := IntMax(1, IntMin(if maxJobs == 0 then 3 else maxJobs, 10));
              var own := LeaseSteps(Pending(ids, old(rows), limit, listed), owner, seconds, clock);
              var steps := Woven(own, others, |own|);
              && rows == Run(old(rows), steps)
              && slots == Slots(own, others, |own|) && (forall k :: k in slots ==> k < |steps|)
              && leased == LeasedBy(old(rows), steps, slots)
    {
      hide Pending, Succeeds, After, Apply, Run, Stale, Woven, Slots, LeasedBy, ClampSeconds;
      var limit := IntMax(1, IntMin(if maxJobs == 0 then 3 else maxJobs, 10));
      var pending := Pending(ids, rows, limit, listed);
      ghost var own := LeaseSteps(pending, owner, seconds, clock);
      leased, slots := [], [];
      ghost var steps := [];
      NothingWoven(rows, own, others);
      assert Run(rows, steps[..0]) == rows by { NoSteps(rows, steps); }
      for i := 0 to |pending|
        invariant steps == Woven(own, others, i) && slots == Slots(own, others, i)
        invariant rows == Run(old(rows), steps)
        invariant forall k :: k in slots ==> k < |steps|
        invariant leased == LeasedBy(old(rows), steps, slots)
      {
        ghost var more := steps + others(i);
        RunConcat(old(rows), steps, others(i));
        Meanwhile(others(i));
        var job := LeaseJob(pending[i], owner, seconds, clock(i));
        OneMoreLease(old(rows), steps, others(i), own[i], slots);
        WovenStep(own, others, i);
        slots := slots + [|more|];
        steps := more + [own[i]];
        if job.Some? {
          leased := leased + [pending[i]];
        }
      }
    }
  }

  /** Appending other steps and then one own lease to a history. */
  lemma OneMoreLease(rows: Table, steps: seq<Step>, others: seq<Step>, own: Step, slots: seq<nat>)
    requires forall k :: k in slots ==> k < |steps|
    ensures var more := steps + others;
            var longer := more + [own];
            && Run(rows, longer) == Apply(Run(rows, more), own)
            && (forall k :: k in slots + [|more|] ==> k < |longer|)
            && LeasedBy(rows, longer, slots + [|more|])
               == LeasedBy(rows, steps, slots) + if Succeeds(Run(rows, more), own) then [own.id] else []
  {
    hide Succeeds, Apply;
    var more := steps + others;
    var longer := more + [own];
    var all := slots + [|more|];
    assert longer[..|more|] == more && all[..|all| - 1] == slots;
    assert forall k :: k in all ==> k in slots || k == |more|;
    LeasedByPrefix(rows, steps, others + [own], slots);
    assert longer == steps + (others + [own]);
  }
}
