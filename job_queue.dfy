/**
 * The job queue: a map from id to job record plus the list of ids that are
 * still waiting or running, ordered by priority (higher first) and by
 * arrival within a priority.
 */
module Queue {
  import opened Wrappers
  import opened Lists
  import opened Ints
  import opened Jobs

  const MaxQueueSize: nat := 100

  const QueueFullMessage := "Queue is full (max 100 jobs)"

  /** `self.jobs.get(id, {}).get('priority', 1)` */
  function PriorityOf(jobs: map<JobId, Job>, id: JobId): int {
    if id in jobs then jobs[id].priority else 1
  }

  function Priorities(q: seq<JobId>, jobs: map<JobId, Job>): (ps: seq<int>)
    ensures |ps| == |q|
    ensures forall i | 0 <= i < |q| :: ps[i] == PriorityOf(jobs, q[i])
  {
    seq(|q|, i requires 0 <= i < |q| => PriorityOf(jobs, q[i]))
  }

  /**
   * Where `add_job` inserts a job of priority `p` into a list with
   * priorities `ps`: before the first strictly lower entry, else at the end.
   */
  function InsertPos(ps: seq<int>, p: int): (r: nat)
    ensures r <= |ps|
    ensures forall k | 0 <= k < r :: p <= ps[k]
    ensures r < |ps| ==> p > ps[r]
  {
    if ps == [] then 0
    else if p > ps[0] then 0
    else 1 + InsertPos(ps[1..], p)
  }

  predicate SortedDesc(ps: seq<int>) {
    forall i, j | 0 <= i < j < |ps| :: ps[i] >= ps[j]
  }

  /** Inserting by priority keeps a non-increasing list non-increasing. */
  lemma InsertKeepsSorted(ps: seq<int>, p: int)
    requires SortedDesc(ps)
    ensures SortedDesc(InsertAt(ps, InsertPos(ps, p), p))
  {
    var pos := InsertPos(ps, p);
    var r := InsertAt(ps, pos, p);
    assert r == ps[..pos] + [p] + ps[pos..];
    forall i, j | 0 <= i < j < |r| ensures r[i] >= r[j] {
      var vi := if i < pos then ps[i] else if i == pos then p else ps[i - 1];
      var vj := if j < pos then ps[j] else if j == pos then p else ps[j - 1];
      assert r[i] == vi && r[j] == vj;
      if j > pos && i <= pos {
        assert ps[pos] >= ps[j - 1];
      }
    }
  }

  /**
   * FIFO within a tier: in a sorted list the new job lands after every
   * entry of equal or higher priority and before every lower one.
   */
  lemma InsertAfterTies(ps: seq<int>, p: int)
    requires SortedDesc(ps)
    ensures forall k | 0 <= k < |ps| :: k < InsertPos(ps, p) <==> ps[k] >= p
  {
    var pos := InsertPos(ps, p);
    forall k | pos <= k < |ps| ensures ps[k] < p {
      assert ps[pos] >= ps[k];
    }
  }

  /** The list positions after inserting a fresh id drop its priority in at the same place. */
  lemma PrioritiesInsert(q: seq<JobId>, jobs: map<JobId, Job>, i: nat, job: Job)
    requires i <= |q| && job.id !in q
    ensures Priorities(InsertAt(q, i, job.id), jobs[job.id := job])
            == InsertAt(Priorities(q, jobs), i, job.priority)
  {
    var a := Priorities(InsertAt(q, i, job.id), jobs[job.id := job]);
    var b := InsertAt(Priorities(q, jobs), i, job.priority);
    forall k | 0 <= k < |a| ensures a[k] == b[k] {
      if k < i {
        assert q[k] != job.id;
      } else if k > i {
        assert q[k - 1] != job.id;
      }
    }
  }

  /** A(1), B(5), C(1) submitted in that order leave the list [B, A, C]. */
  lemma TierExample()
    ensures var q1 := InsertAt([], InsertPos([], 1), "A");
            var q2 := InsertAt(q1, InsertPos([1], 5), "B");
            var q3 := InsertAt(q2, InsertPos([5, 1], 1), "C");
            q3 == ["B", "A", "C"]
  {
    assert InsertPos([5, 1], 1) == 2;
  }

  predicate IsQueuedAt(q: seq<JobId>, jobs: map<JobId, Job>, k: nat)
    requires k < |q|
  {
    q[k] in jobs && jobs[q[k]].status == Queued
  }

  /** The first list position, from `i` on, whose job is `queued`. */
  function FirstQueuedFrom(q: seq<JobId>, jobs: map<JobId, Job>, i: nat): (r: Option<nat>)
    requires i <= |q|
    ensures r.Some? ==> i <= r.value < |q| && IsQueuedAt(q, jobs, r.value)
    ensures forall k | i <= k < |q| && (r.None? || k < r.value) :: !IsQueuedAt(q, jobs, k)
    decreases |q| - i
  {
    if i == |q| then None
    else if IsQueuedAt(q, jobs, i) then Some(i)
    else FirstQueuedFrom(q, jobs, i + 1)
  }

  function FirstQueued(q: seq<JobId>, jobs: map<JobId, Job>): (r: Option<nat>)
    ensures r.Some? ==> r.value < |q| && IsQueuedAt(q, jobs, r.value)
    ensures forall k | 0 <= k < |q| && (r.None? || k < r.value) :: !IsQueuedAt(q, jobs, k)
  {
    FirstQueuedFrom(q, jobs, 0)
  }

  /** The `queued` entries of `q`, in list order. */
  function QueuedOnes(q: seq<JobId>, jobs: map<JobId, Job>): (r: seq<JobId>)
    ensures forall x :: x in r <==> x in q && x in jobs && jobs[x].status == Queued
  {
    if q == [] then []
    else
      var front := q[..|q| - 1];
      var last := q[|q| - 1];
      assert q == front + [last];
      QueuedOnes(front, jobs) + (if last in jobs && jobs[last].status == Queued then [last] else [])
  }

  lemma {:induction false} QueuedOnesUnique(q: seq<JobId>, jobs: map<JobId, Job>)
    requires NoDup(q)
    ensures NoDup(QueuedOnes(q, jobs))
  {
    if q != [] {
      var front := q[..|q| - 1];
      var last := q[|q| - 1];
      assert NoDup(front);
      QueuedOnesUnique(front, jobs);
      assert last !in front by {
        forall k | 0 <= k < |front| ensures front[k] != last { assert q[k] != q[|q| - 1]; }
      }
    }
  }

  /** The ids whose job has status `st`. */
  function WithStatus(jobs: map<JobId, Job>, st: JobStatus): set<JobId> {
    set id | id in jobs && jobs[id].status == st
  }

  function Count(jobs: map<JobId, Job>, st: JobStatus): nat {
    |WithStatus(jobs, st)|
  }

  /** What the queue keeps true between operations. */
  ghost predicate Consistent(jobs: map<JobId, Job>, queue: seq<JobId>, nextId: JobId) {
    && NoDup(queue)
    && (forall id | id in queue :: id in jobs)
    && (forall id | id in jobs :: id < nextId && jobs[id].id == id)
    && (forall id | id in jobs :: (id in queue <==> jobs[id].status.InList()))
    && (forall id | id in jobs :: 0 <= jobs[id].progress <= 100)
  }

  lemma DisjointUnionSize(a: set<JobId>, b: set<JobId>)
    requires a * b == {}
    ensures |a + b| == |a| + |b|
  {
  }

  /** The jobs whose status is one of `sts`. */
  function WithAny(jobs: map<JobId, Job>, sts: set<JobStatus>): set<JobId> {
    set id | id in jobs && jobs[id].status in sts
  }

  /** Taking one more status into account adds that status's count. */
  lemma AddStatus(jobs: map<JobId, Job>, sts: set<JobStatus>, st: JobStatus)
    requires st !in sts
    ensures |WithAny(jobs, sts + {st})| == |WithAny(jobs, sts)| + Count(jobs, st)
  {
    var a, b := WithAny(jobs, sts), WithStatus(jobs, st);
    assert WithAny(jobs, sts + {st}) == a + b;
    DisjointUnionSize(a, b);
  }

  /** The five status counts add up to the number of jobs. */
  lemma CountsAddUp(jobs: map<JobId, Job>)
    ensures Count(jobs, Queued) + Count(jobs, Running) + Count(jobs, Completed)
            + Count(jobs, Failed) + Count(jobs, Cancelled) == |jobs|
  {
    var s0: set<JobStatus> := {};
    var s1 := s0 + {Queued};
    var s2 := s1 + {Running};
    var s3 := s2 + {Completed};
    var s4 := s3 + {Failed};
    assert WithAny(jobs, s0) == {};
    AddStatus(jobs, s0, Queued);
    AddStatus(jobs, s1, Running);
    AddStatus(jobs, s2, Completed);
    AddStatus(jobs, s3, Failed);
    AddStatus(jobs, s4, Cancelled);
    forall id | id in jobs ensures jobs[id].status in s4 + {Cancelled} {
      match jobs[id].status
      case Queued =>
      case Running =>
      case Completed =>
      case Failed =>
      case Cancelled =>
    }
    assert WithAny(jobs, s4 + {Cancelled}) == jobs.Keys;
  }

  /** The list holds exactly the queued and running jobs. */
  lemma ListLength(jobs: map<JobId, Job>, queue: seq<JobId>, nextId: JobId)
    ensures Consistent(jobs, queue, nextId) ==> |queue| == Count(jobs, Queued) + Count(jobs, Running)
  {
    if Consistent(jobs, queue, nextId) {
      ListLengthOf(jobs, queue, nextId);
    }
  }

  lemma ListLengthOf(jobs: map<JobId, Job>, queue: seq<JobId>, nextId: JobId)
    requires Consistent(jobs, queue, nextId)
    ensures |queue| == Count(jobs, Queued) + Count(jobs, Running)
  {
    ElemsSize(queue);
    assert Elems(queue) == WithStatus(jobs, Queued) + WithStatus(jobs, Running);
    assert WithStatus(jobs, Queued) * WithStatus(jobs, Running) == {};
  }

  /** `max(0, min(new_position - 1, len(queue)))`, with `len` taken after the removal. */
  function ReorderIndex(newPosition: int, lenAfterRemoval: nat): (i: nat)
    ensures i <= lenAfterRemoval
  {
    Max(0, Min(newPosition - 1, lenAfterRemoval))
  }

  /** The list after `reorder_job` takes `id` out and puts it back at `ReorderIndex`. */
  function Reordered(q: seq<JobId>, id: JobId, newPosition: int): seq<JobId>
    requires id in q
  {
    var rest := RemoveFirst(q, id);
    InsertAt(rest, ReorderIndex(newPosition, |rest|), id)
  }

  /**
   * A reordered job ends at 1-based position `new_position` clamped to
   * `1 .. len(queue)`, and the list is a permutation of the old one.
   */
  lemma ReorderLands(q: seq<JobId>, id: JobId, newPosition: int)
    requires NoDup(q) && id in q
    ensures var r := Reordered(q, id, newPosition);
            && NoDup(r)
            && multiset(r) == multiset(q)
            && IndexOf(r, id) + 1 == Clamp(1, |q|, newPosition)
  {
    var rest := RemoveFirst(q, id);
    RemoveFirstUnique(q, id);
    var i := ReorderIndex(newPosition, |q| - 1);
    InsertAtUnique(rest, i, id);
    var r := InsertAt(rest, i, id);
    assert multiset(r) == multiset(q) by {
      assert multiset(q) == multiset(q) - multiset{id} + multiset{id};
    }
  }

  lemma AddKeepsConsistent(jobs: map<JobId, Job>, queue: seq<JobId>, n: JobId, job: Job, i: nat)
    requires Consistent(jobs, queue, n)
    requires job.id == n && job.status == Queued && 0 <= job.progress <= 100 && i <= |queue|
    ensures n !in jobs && n !in queue
    ensures Consistent(jobs[n := job], InsertAt(queue, i, n), n + 1)
  {
    InsertAtUnique(queue, i, n);
  }

  lemma PermuteKeepsConsistent(jobs: map<JobId, Job>, queue: seq<JobId>, queue': seq<JobId>, n: JobId)
    requires Consistent(jobs, queue, n)
    requires NoDup(queue') && forall x :: x in queue' <==> x in queue
    ensures Consistent(jobs, queue', n)
  {
  }

  lemma ReorderKeepsConsistent(jobs: map<JobId, Job>, queue: seq<JobId>, n: JobId, id: JobId, newPosition: int)
    requires Consistent(jobs, queue, n) && id in queue
    ensures var r := Reordered(queue, id, newPosition);
            Consistent(jobs, r, n) && multiset(r) == multiset(queue)
  {
    ReorderLands(queue, id, newPosition);
    var r := Reordered(queue, id, newPosition);
    forall x ensures x in r <==> x in queue {
      assert x in r <==> x in multiset(r);
      assert x in queue <==> x in multiset(queue);
    }
    PermuteKeepsConsistent(jobs, queue, r, n);
  }

  /** The job map after marking the jobs with ids in `ids` cancelled at `now`. */
  function CancelAmong(jobs: map<JobId, Job>, ids: set<JobId>, now: Stamp): (r: map<JobId, Job>)
    ensures r.Keys == jobs.Keys
  {
    map id | id in jobs :: if id in ids then jobs[id].(status := Cancelled, completedAt := Some(now)) else jobs[id]
  }

  lemma CancelAmongStep(jobs: map<JobId, Job>, ids: set<JobId>, x: JobId, now: Stamp)
    requires x in jobs
    ensures CancelAmong(jobs, ids + {x}, now)
            == CancelAmong(jobs, ids, now)[x := jobs[x].(status := Cancelled, completedAt := Some(now))]
  {
  }

  lemma ClearKeepsConsistent(jobs: map<JobId, Job>, queue: seq<JobId>, n: JobId, now: Stamp)
    requires Consistent(jobs, queue, n)
    ensures Consistent(CancelAmong(jobs, WithStatus(jobs, Queued), now),
                       Without(queue, WithStatus(jobs, Queued)), n)
  {
    WithoutUnique(queue, WithStatus(jobs, Queued));
    var q := Without(queue, WithStatus(jobs, Queued));
    forall id | id in jobs ensures id in q <==> jobs[id].status == Running {
      if jobs[id].status == Running {
        var k :| 0 <= k < |queue| && queue[k] == id;
      }
    }
  }

  // ---------------------------------------------------------------------
  // `add_job` as written, with a priority Python cannot compare.

  /** What `add_job` leaves behind: the jobs map, the list, and whether it raised. */
  datatype Added = Added(jobs: map<JobId, Job>, queue: seq<JobId>, raised: bool)

  /**
   * `add_job` below the full-queue check, in the source's order: the record
   * is stored first (job_queue.py:100) and only then compared with the
   * listed jobs' priorities (line 106). `comparable` says whether Python can
   * compare the new priority with an integer; a string, `None`, a list or a
   * dict cannot, and the record's `priority` field then holds a stand-in.
   * An incomparable priority raises at the first comparison and the handler
   * (lines 119-121) re-raises with the record kept; with an empty list no
   * comparison happens and the id is appended.
   */
  function AddAsWritten(jobs: map<JobId, Job>, queue: seq<JobId>, job: Job, comparable: bool): (r: Added)
    ensures r.jobs == jobs[job.id := job]
    ensures r.raised <==> !comparable && queue != []
  {
    var stored := jobs[job.id := job];
    if comparable then Added(stored, InsertAt(queue, InsertPos(Priorities(queue, jobs), job.priority), job.id), false)
    else if queue == [] then Added(stored, [job.id], false)
    else Added(stored, queue, true)
  }

  /**
   * The raise leaves a `queued` record that is not listed: `get_next_job`
   * and `clear_queue` never see it, the invariant is broken, and the
   * status counts report one more queued and running job than the list
   * holds.
   */
  lemma StrayQueuedRecord(jobs: map<JobId, Job>, queue: seq<JobId>, n: JobId, job: Job)
    requires Consistent(jobs, queue, n) && queue != []
    requires job.id == n && job.status == Queued && 0 <= job.progress <= 100
    ensures var r := AddAsWritten(jobs, queue, job, false);
            && r.raised && n in r.jobs && r.jobs[n].status == Queued && n !in r.queue
            && n !in QueuedOnes(r.queue, r.jobs)
            && (forall i | FirstQueued(r.queue, r.jobs) == Some(i) :: r.queue[i] != n)
            && !Consistent(r.jobs, r.queue, n + 1)
            && Count(r.jobs, Queued) + Count(r.jobs, Running) == |r.queue| + 1
  {
    var r := AddAsWritten(jobs, queue, job, false);
    assert n !in jobs;
    ListLengthOf(jobs, queue, n);
    assert WithStatus(r.jobs, Queued) == WithStatus(jobs, Queued) + {n};
    assert WithStatus(r.jobs, Running) == WithStatus(jobs, Running);
  }

  /** A comparable priority is inserted as `AddJob` inserts it, and the invariant holds. */
  lemma ComparableAddConsistent(jobs: map<JobId, Job>, queue: seq<JobId>, n: JobId, job: Job)
    requires Consistent(jobs, queue, n)
    requires job.id == n && job.status == Queued && 0 <= job.progress <= 100
    ensures var r := AddAsWritten(jobs, queue, job, true);
            && !r.raised
            && Consistent(r.jobs, r.queue, n + 1)
            && Priorities(r.queue, r.jobs) == InsertAt(Priorities(queue, jobs), InsertPos(Priorities(queue, jobs), job.priority), job.priority)
  {
    var i := InsertPos(Priorities(queue, jobs), job.priority);
    AddKeepsConsistent(jobs, queue, n, job, i);
    PrioritiesInsert(queue, jobs, i, job);
  }

  datatype StatusCounts = StatusCounts(queued: nat, running: nat, completed: nat, failed: nat, cancelled: nat)

  datatype QueueStatus = QueueStatus(queueLength: nat, totalJobs: nat, counts: StatusCounts, nextJob: Option<JobId>)

  class JobQueue {
    var jobs: map<JobId, Job>
    var queue: seq<JobId>
    var nextId: JobId

    ghost predicate Valid()
      reads this
    {
      Consistent(jobs, queue, nextId)
    }

    /** Whether the list is non-increasing by priority, as priority insertion alone keeps it. */
    predicate SortedByPriority()
      reads this
    {
      SortedDesc(Priorities(queue, jobs))
    }

    /** A fresh queue (loading a saved one is not part of this model). */
    constructor()
      ensures Valid() && jobs == map[] && queue == []
    {
      jobs, queue, nextId := map[], [], 0;
    }

    /**
     * `add_job`: refuses when the list already holds `MaxQueueSize` ids
     * (running ones included), else records a new queued job and inserts
     * it before the first entry of strictly lower priority.
     */
    method AddJob(data: JobData, now: Stamp) returns (r: Result<JobId, string>)
      requires Valid()
      modifies this
      ensures Valid()
      ensures |old(queue)| >= MaxQueueSize ==> r == Err(QueueFullMessage) && unchanged(this)
      ensures |old(queue)| < MaxQueueSize ==>
                && r == Ok(old(nextId))
                && nextId == old(nextId) + 1
                && old(nextId) !in old(jobs)
                && jobs == old(jobs)[r.value := NewJob(r.value, data, now)]
                && queue == InsertAt(old(queue), InsertPos(Priorities(old(queue), old(jobs)), DataPriority(data)), r.value)
      ensures |old(queue)| < MaxQueueSize ==>
                var job := jobs[r.value];
                && job.status == Queued && job.progress == 0
                && job.startedAt.None? && job.completedAt.None?
                && job.errorMessage.None? && job.result.None?
      ensures old(SortedByPriority()) ==> SortedByPriority()
    {
      if |queue| >= MaxQueueSize {
        return Err(QueueFullMessage);
      }
      var id := nextId;
      var job := NewJob(id, data, now);
      assert id !in queue && id !in jobs;
      nextId := nextId + 1;
      jobs := jobs[id := job];
      var i := 0;
      while i < |queue|
        invariant 0 <= i <= |queue|
        invariant forall k | 0 <= k < i :: job.priority <= PriorityOf(old(jobs), queue[k])
      {
        assert queue[i] in old(jobs) && queue[i] != id;
        assert PriorityOf(jobs, queue[i]) == PriorityOf(old(jobs), queue[i]);
        if job.priority > PriorityOf(jobs, queue[i]) {
          break;
        }
        i := i + 1;
      }
      ghost var ps := Priorities(queue, old(jobs));
      assert i == InsertPos(ps, job.priority);
      AddKeepsConsistent(old(jobs), queue, id, job, i);
      PrioritiesInsert(queue, old(jobs), i, job);
      if SortedDesc(ps) {
        InsertKeepsSorted(ps, job.priority);
      }
      queue := InsertAt(queue, i, id);
      r := Ok(id);
    }

    /**
     * `get_next_job`: the first id in list order whose job is queued
     * becomes running with `started_at`; the list itself is unchanged.
     */
    method GetNextJob(now: Stamp) returns (r: Option<Job>)
      requires Valid()
      modifies this
      ensures Valid()
      ensures queue == old(queue) && nextId == old(nextId)
      ensures FirstQueued(old(queue), old(jobs)).None? ==> r.None? && jobs == old(jobs)
      ensures FirstQueued(old(queue), old(jobs)).Some? ==>
                var id := old(queue)[FirstQueued(old(queue), old(jobs)).value];
                && r == Some(old(jobs)[id].(status := Running, startedAt := Some(now)))
                && r.value.id == id
                && jobs == old(jobs)[id := r.value]
    {
      var i := 0;
      while i < |queue|
        invariant 0 <= i <= |queue|
        invariant forall k | 0 <= k < i :: !IsQueuedAt(queue, jobs, k)
      {
        var id := queue[i];
        if id in jobs && jobs[id].status == Queued {
          assert IsQueuedAt(queue, jobs, i);
          assert FirstQueued(queue, jobs) == Some(i);
          var job := jobs[id].(status := Running, startedAt := Some(now));
          jobs := jobs[id := job];
          return Some(job);
        }
        i := i + 1;
      }
      return None;
    }

    /** `complete_job`: terminal status, completion time, result and progress 100; the id leaves the list. */
    method CompleteJob(id: JobId, result: PlotResult, now: Stamp)
      requires Valid()
      modifies this
      ensures Valid()
      ensures nextId == old(nextId)
      ensures id !in old(jobs) ==> jobs == old(jobs) && queue == old(queue)
      ensures id in old(jobs) ==>
                && jobs == old(jobs)[id := old(jobs)[id].(status := Completed, completedAt := Some(now),
                                                         result := Some(result), progress := 100)]
                && queue == RemoveFirst(old(queue), id)
                && id !in queue
    {
      if id in jobs {
        RemoveFirstUnique(queue, id);
        jobs := jobs[id := jobs[id].(status := Completed, completedAt := Some(now), result := Some(result), progress := 100)];
        if id in queue {
          queue := RemoveFirst(queue, id);
        }
      }
    }

    /** `fail_job`: status failed with the message and completion time; the id leaves the list. */
    method FailJob(id: JobId, message: string, now: Stamp)
      requires Valid()
      modifies this
      ensures Valid()
      ensures nextId == old(nextId)
      ensures id !in old(jobs) ==> jobs == old(jobs) && queue == old(queue)
      ensures id in old(jobs) ==>
                && jobs == old(jobs)[id := old(jobs)[id].(status := Failed, completedAt := Some(now),
                                                         errorMessage := Some(message))]
                && queue == RemoveFirst(old(queue), id)
                && id !in queue
    {
      if id in jobs {
        RemoveFirstUnique(queue, id);
        jobs := jobs[id := jobs[id].(status := Failed, completedAt := Some(now), errorMessage := Some(message))];
        if id in queue {
          queue := RemoveFirst(queue, id);
        }
      }
    }

    /** `cancel_job`: only a queued job can be cancelled; anything else answers False and changes nothing. */
    method CancelJob(id: JobId, now: Stamp) returns (ok: bool)
      requires Valid()
      modifies this
      ensures Valid()
      ensures ok <==> id in old(jobs) && old(jobs)[id].status == Queued
      ensures !ok ==> unchanged(this)
      ensures ok ==>
                && jobs == old(jobs)[id := old(jobs)[id].(status := Cancelled, completedAt := Some(now))]
                && queue == RemoveFirst(old(queue), id)
                && id !in queue
                && nextId == old(nextId)
    {
      if id !in jobs {
        return false;
      }
      if jobs[id].status != Queued {
        return false;
      }
      RemoveFirstUnique(queue, id);
      jobs := jobs[id := jobs[id].(status := Cancelled, completedAt := Some(now))];
      if id in queue {
        queue := RemoveFirst(queue, id);
      }
      return true;
    }

    /** The first loop of `clear_queue`: the ids in the list whose job is queued, in list order. */
    method CollectQueued() returns (ids: seq<JobId>)
      ensures ids == QueuedOnes(queue, jobs)
    {
      var q, js := queue, jobs;
      ids := [];
      var i := 0;
      while i < |q|
        invariant 0 <= i <= |q|
        invariant ids == QueuedOnes(q[..i], js)
      {
        assert q[..i + 1] == q[..i] + [q[i]];
        if q[i] in js && js[q[i]].status == Queued {
          ids := ids + [q[i]];
        }
        i := i + 1;
      }
      assert q[..|q|] == q;
    }

    /** The second loop of `clear_queue`: each id in turn is cancelled and removed from the list. */
    method CancelEach(ids: seq<JobId>, now: Stamp)
      requires NoDup(queue) && NoDup(ids)
      requires forall k | 0 <= k < |ids| :: ids[k] in queue && ids[k] in jobs
      modifies this
      ensures nextId == old(nextId)
      ensures queue == Without(old(queue), Elems(ids))
      ensures jobs == CancelAmong(old(jobs), Elems(ids), now)
    {
      ghost var done: set<JobId> := {};
      var js0, q0 := jobs, queue;
      var js, q := js0, q0;
      WithoutNothing(q);
      var j := 0;
      while j < |ids|
        invariant 0 <= j <= |ids|
        invariant jobs == js0 && queue == q0 && nextId == old(nextId)
        invariant done == Elems(ids[..j])
        invariant q == Without(q0, done)
        invariant js == CancelAmong(js0, done, now)
      {
        var id := ids[j];
        ElemsSnoc(ids, j);
        WithoutStep(q0, done, id);
        CancelAmongStep(js0, done, id, now);
        js := js[id := js[id].(status := Cancelled, completedAt := Some(now))];
        q := RemoveFirst(q, id);
        done := done + {id};
        j := j + 1;
      }
      assert ids[..j] == ids;
      jobs, queue := js, q;
    }

    /** `clear_queue`: every queued job is cancelled and leaves the list; running ones stay. */
    method ClearQueue(now: Stamp)
      requires Valid()
      modifies this
      ensures Valid()
      ensures nextId == old(nextId)
      ensures queue == Without(old(queue), WithStatus(old(jobs), Queued))
      ensures jobs == CancelAmong(old(jobs), WithStatus(old(jobs), Queued), now)
    {
      var toRemove := CollectQueued();
      QueuedOnesUnique(queue, jobs);
      assert Elems(toRemove) == WithStatus(jobs, Queued);
      ClearKeepsConsistent(jobs, queue, nextId, now);
      CancelEach(toRemove, now);
    }

    /**
     * `reorder_job`: only a queued job that is in the list moves; it is
     * taken out and put back at `ReorderIndex(new_position, len)`.
     */
    method ReorderJob(id: JobId, newPosition: int) returns (ok: bool)
      requires Valid()
      modifies this
      ensures Valid()
      ensures ok <==> id in old(queue) && id in old(jobs) && old(jobs)[id].status == Queued
      ensures !ok ==> unchanged(this)
      ensures ok ==>
                && jobs == old(jobs) && nextId == old(nextId)
                && queue == Reordered(old(queue), id, newPosition)
      ensures multiset(queue) == multiset(old(queue))
    {
      if id !in queue || id !in jobs || jobs[id].status != Queued {
        return false;
      }
      ReorderKeepsConsistent(jobs, queue, nextId, id, newPosition);
      queue := Reordered(queue, id, newPosition);
      return true;
    }

    /** `update_job_progress`: the stored progress is the value clamped to 0..100. */
    method UpdateJobProgress(id: JobId, progress: int)
      requires Valid()
      modifies this
      ensures Valid()
      ensures queue == old(queue) && nextId == old(nextId)
      ensures id !in old(jobs) ==> jobs == old(jobs)
      ensures id in old(jobs) ==> jobs == old(jobs)[id := old(jobs)[id].(progress := Clamp(0, 100, progress))]
    {
      if id in jobs {
        jobs := jobs[id := jobs[id].(progress := Clamp(0, 100, progress))];
      }
    }

    /** `get_position`: the 1-based place of `id` in the list, or -1 when it is not there. */
    function GetPosition(id: JobId): (p: int)
      reads this
      ensures p == -1 <==> id !in queue
      ensures p != -1 ==> 1 <= p <= |queue| && queue[p - 1] == id && id !in queue[..p - 1]
    {
      if id in queue then IndexOf(queue, id) + 1 else -1
    }

    /** `get_status`: list length, job total, the five status counts and the head of the list. */
    function GetStatus(): (s: QueueStatus)
      reads this
      ensures s.totalJobs == s.counts.queued + s.counts.running + s.counts.completed
                             + s.counts.failed + s.counts.cancelled
      ensures Valid() ==> s.queueLength == s.counts.queued + s.counts.running
      ensures s.nextJob.Some? ==> s.nextJob.value in queue && GetPosition(s.nextJob.value) == 1
      ensures s.nextJob.None? ==> s.queueLength == 0
      ensures s.queueLength == |queue| && s.totalJobs == |jobs|
      ensures s.counts == StatusCounts(Count(jobs, Queued), Count(jobs, Running), Count(jobs, Completed),
                                       Count(jobs, Failed), Count(jobs, Cancelled))
      ensures s.nextJob == if queue == [] then None else Some(queue[0])
    {
      CountsAddUp(jobs);
      ListLength(jobs, queue, nextId);
      QueueStatus(
        |queue|,
        |jobs|,
        StatusCounts(Count(jobs, Queued), Count(jobs, Running), Count(jobs, Completed),
                     Count(jobs, Failed), Count(jobs, Cancelled)),
        if |queue| > 0 then Some(queue[0]) else None)
    }
  }
}
