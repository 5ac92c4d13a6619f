/**
 What every run of the escrow contract keeps: its tables are consistent, locked money is the price
 of the unfinished tasks, money is conserved, and each locked job ends exactly once.
 */
module EscrowSafety {
  import opened Base
  import opened Escrow

  // ---------------------------------------------------------------- invariants

  /** Entry `index` of a locked job has its own task, filed under the id computed from both. */
  ghost predicate HasTask(h: Hashes, tasks: map<Id, Task>, jobId: Id, index: nat) {
    var id := TaskId(h, jobId, index);
    id in tasks && tasks[id].jobId == jobId && tasks[id].argumentId == index
  }

  ghost predicate JobOk(h: Hashes, tasks: map<Id, Task>, id: Id, j: Job) {
    && j.minCheckingInterval > 14
    && (!j.isDraft ==>
          && 0 < |j.arguments| < TWO128
          && j.redundancy > 0
          && forall i | 0 <= i < |j.arguments| :: HasTask(h, tasks, id, i))
  }

  ghost predicate TaskOk(h: Hashes, jobs: map<Id, Job>, id: Id, t: Task) {
    && t.jobId in jobs
    && !jobs[t.jobId].isDraft
    && t.argumentId < |jobs[t.jobId].arguments|
    && id == TaskId(h, t.jobId, t.argumentId)
    && |t.managers| < TWO64
    && (t.state == Incomplete ==> t.result == [])
  }

  ghost predicate TablesOk(h: Hashes, jobs: map<Id, Job>, tasks: map<Id, Task>) {
    && (forall id | id in jobs :: JobOk(h, tasks, id, jobs[id]))
    && (forall id | id in tasks :: TaskOk(h, jobs, id, tasks[id]))
  }

  /** Unfinished tasks among the first `n` of a job. */
  ghost function OpenCount(h: Hashes, tasks: map<Id, Task>, jobId: Id, n: nat): nat {
    if n == 0 then 0
    else OpenCount(h, tasks, jobId, n - 1) + (if StateAt(tasks, TaskId(h, jobId, n - 1)) == Incomplete then 1 else 0)
  }

  ghost function OpenTasks(h: Hashes, tasks: map<Id, Task>, id: Id, j: Job): nat {
    OpenCount(h, tasks, id, |j.arguments|)
  }

  ghost function Due(price: nat, open: nat): int {
    price * open
  }

  /** What each locked job of `a` still holds back. */
  ghost function Dues(h: Hashes, jobs: map<Id, Job>, tasks: map<Id, Task>, a: Address): map<Id, int> {
    map id | id in jobs && !jobs[id].isDraft && jobs[id].sender == a ::
      Due(PricePerTask(jobs[id]), OpenTasks(h, tasks, id, jobs[id]))
  }

  ghost function Owed(h: Hashes, jobs: map<Id, Job>, tasks: map<Id, Task>, a: Address): int {
    Sum(Dues(h, jobs, tasks, a))
  }

  ghost predicate LocksMatch(h: Hashes, s: Ledger) {
    forall a: Address :: UserAt(s.users, a).locked == U256(Owed(h, s.jobs, s.tasks, a))
  }

  ghost function Holdings(users: map<Address, User>): map<Address, int> {
    map a | a in users :: users[a].pending + users[a].locked
  }

  ghost function Total(users: map<Address, User>): int {
    Sum(Holdings(users))
  }

  ghost predicate Conserved(s: Ledger) {
    U256(Total(s.users)) == U256(s.ether)
  }

  ghost function Ends(log: seq<Event>, id: Id): nat {
    multiset(log)[JobCompleted(id)]
  }

  ghost predicate Finished(h: Hashes, s: Ledger, id: Id) {
    id in s.jobs && !s.jobs[id].isDraft && OpenTasks(h, s.tasks, id, s.jobs[id]) == 0
  }

  ghost predicate EndsMatch(h: Hashes, s: Ledger) {
    forall id: Id :: Ends(s.log, id) == if Finished(h, s, id) then 1 else 0
  }

  ghost predicate Inv(h: Hashes, s: Ledger) {
    TablesOk(h, s.jobs, s.tasks) && LocksMatch(h, s) && Conserved(s) && EndsMatch(h, s)
  }

  // ---------------------------------------------------------------- counting open tasks

  lemma {:induction false} OpenCountFrame(h: Hashes, t1: map<Id, Task>, t2: map<Id, Task>, id: Id, n: nat)
    requires forall i | 0 <= i < n :: StateAt(t1, TaskId(h, id, i)) == StateAt(t2, TaskId(h, id, i))
    ensures OpenCount(h, t1, id, n) == OpenCount(h, t2, id, n)
  {
    if n > 0 {
      OpenCountFrame(h, t1, t2, id, n - 1);
    }
  }

  lemma {:induction false} OpenCountZero(h: Hashes, tasks: map<Id, Task>, id: Id, n: nat)
    ensures OpenCount(h, tasks, id, n) == 0 <==> AllDone(h, tasks, id, n)
    ensures OpenCount(h, tasks, id, n) <= n
  {
    if n > 0 {
      OpenCountZero(h, tasks, id, n - 1);
    }
  }

  lemma {:induction false} OpenCountFull(h: Hashes, tasks: map<Id, Task>, id: Id, n: nat)
    requires forall i | 0 <= i < n :: StateAt(tasks, TaskId(h, id, i)) == Incomplete
    ensures OpenCount(h, tasks, id, n) == n
  {
    if n > 0 {
      OpenCountFull(h, tasks, id, n - 1);
    }
  }

  /** Finishing one incomplete task of a job lowers its count by one. */
  lemma {:induction false} OpenCountClose(h: Hashes, tasks: map<Id, Task>, id: Id, n: nat, k: nat, t: Task)
    requires k < n && StateAt(tasks, TaskId(h, id, k)) == Incomplete && t.state != Incomplete
    requires forall i | 0 <= i < n && i != k :: TaskId(h, id, i) != TaskId(h, id, k)
    ensures OpenCount(h, tasks[TaskId(h, id, k) := t], id, n) == OpenCount(h, tasks, id, n) - 1
  {
    if k == n - 1 {
      OpenCountFrame(h, tasks, tasks[TaskId(h, id, k) := t], id, n - 1);
    } else {
      OpenCountClose(h, tasks, id, n - 1, k, t);
    }
  }

  // ---------------------------------------------------------------- effects on the tables

  /** Two tables with the same locked jobs, seen through tasks of the same states, owe the same. */
  lemma SameDues(h: Hashes, jobs: map<Id, Job>, tasks: map<Id, Task>, jobs': map<Id, Job>, tasks': map<Id, Task>)
    requires TablesOk(h, jobs, tasks)
    requires forall id | id in jobs && !jobs[id].isDraft :: id in jobs' && jobs'[id] == jobs[id]
    requires forall id | id in jobs' && !jobs'[id].isDraft :: id in jobs && jobs'[id] == jobs[id]
    requires forall id | id in tasks :: StateAt(tasks', id) == tasks[id].state
    ensures forall a :: Owed(h, jobs', tasks', a) == Owed(h, jobs, tasks, a)
    ensures forall id | id in jobs && !jobs[id].isDraft ::
              OpenTasks(h, tasks', id, jobs'[id]) == OpenTasks(h, tasks, id, jobs[id])
  {
    forall id | id in jobs && !jobs[id].isDraft
      ensures OpenTasks(h, tasks', id, jobs'[id]) == OpenTasks(h, tasks, id, jobs[id])
    {
      var n := |jobs[id].arguments|;
      assert JobOk(h, tasks, id, jobs[id]);
      forall i | 0 <= i < n ensures StateAt(tasks, TaskId(h, id, i)) == StateAt(tasks', TaskId(h, id, i)) {
        assert HasTask(h, tasks, id, i);
      }
      OpenCountFrame(h, tasks, tasks', id, n);
    }
    forall a ensures Owed(h, jobs', tasks', a) == Owed(h, jobs, tasks, a) {
      assert Dues(h, jobs', tasks', a) == Dues(h, jobs, tasks, a);
    }
  }

  /** Creating, editing and deleting drafts never touches a locked job or a task. */
  ghost predicate DraftChange(jobs: map<Id, Job>, jobs': map<Id, Job>) {
    && (forall id | id in jobs && !jobs[id].isDraft :: id in jobs' && jobs'[id] == jobs[id])
    && (forall id | id in jobs' :: (id in jobs && jobs'[id] == jobs[id])
                                   || (jobs'[id].isDraft && jobs'[id].minCheckingInterval > 14))
  }

  lemma DraftChangeKeeps(h: Hashes, jobs: map<Id, Job>, tasks: map<Id, Task>, jobs': map<Id, Job>)
    requires TablesOk(h, jobs, tasks) && DraftChange(jobs, jobs')
    ensures TablesOk(h, jobs', tasks)
    ensures forall a :: Owed(h, jobs', tasks, a) == Owed(h, jobs, tasks, a)
    ensures forall id | id in jobs && !jobs[id].isDraft ::
              OpenTasks(h, tasks, id, jobs'[id]) == OpenTasks(h, tasks, id, jobs[id])
  {
    forall id | id in jobs' ensures JobOk(h, tasks, id, jobs'[id]) {
      if id in jobs { assert JobOk(h, tasks, id, jobs[id]); }
    }
    forall id | id in tasks ensures TaskOk(h, jobs', id, tasks[id]) {
      assert TaskOk(h, jobs, id, tasks[id]);
    }
    SameDues(h, jobs, tasks, jobs', tasks);
  }

  /** Giving a task another list of managers. */
  lemma ManagersKeep(h: Hashes, jobs: map<Id, Job>, tasks: map<Id, Task>, id: Id, managers: seq<Address>)
    requires TablesOk(h, jobs, tasks) && id in tasks && |managers| < TWO64
    ensures TablesOk(h, jobs, tasks[id := tasks[id].(managers := managers)])
    ensures forall a :: Owed(h, jobs, tasks[id := tasks[id].(managers := managers)], a) == Owed(h, jobs, tasks, a)
    ensures forall j | j in jobs && !jobs[j].isDraft ::
              OpenTasks(h, tasks[id := tasks[id].(managers := managers)], j, jobs[j]) == OpenTasks(h, tasks, j, jobs[j])
  {
    var tasks' := tasks[id := tasks[id].(managers := managers)];
    forall j | j in jobs ensures JobOk(h, tasks', j, jobs[j]) {
      assert JobOk(h, tasks, j, jobs[j]);
      forall i | !jobs[j].isDraft && 0 <= i < |jobs[j].arguments| ensures HasTask(h, tasks', j, i) {
        assert HasTask(h, tasks, j, i);
      }
    }
    assert forall t | t in tasks' :: TaskOk(h, jobs, t, tasks[t]);
    SameDues(h, jobs, tasks, jobs, tasks');
  }

  /** The ids made by `lock` are new and distinct, and nothing else changes. */
  lemma {:induction false} LockTasksAdds(h: Hashes, tasks: map<Id, Task>, jobId: Id, n: nat)
    requires LockTasks(h, tasks, jobId, n).Some?
    ensures var after := LockTasks(h, tasks, jobId, n).value;
            && (forall id | id in tasks :: id in after && after[id] == tasks[id])
            && (forall i | 0 <= i < n :: HasTask(h, after, jobId, i)
                                        && TaskId(h, jobId, i) !in tasks
                                        && after[TaskId(h, jobId, i)] == FreshTask(jobId, i))
            && (forall id | id in after && id !in tasks :: exists i :: 0 <= i < n && id == TaskId(h, jobId, i))
  {
    if n > 0 {
      LockTasksAdds(h, tasks, jobId, n - 1);
      var before := LockTasks(h, tasks, jobId, n - 1).value;
      var after := LockTasks(h, tasks, jobId, n).value;
      forall i | 0 <= i < n
        ensures HasTask(h, after, jobId, i) && TaskId(h, jobId, i) !in tasks
        ensures after[TaskId(h, jobId, i)] == FreshTask(jobId, i)
      {
        if i < n - 1 { assert HasTask(h, before, jobId, i); }
      }
      forall id | id in after && id !in tasks ensures exists i :: 0 <= i < n && id == TaskId(h, jobId, i) {
        if id in before {
          var i :| 0 <= i < n - 1 && id == TaskId(h, jobId, i);
          assert 0 <= i < n && id == TaskId(h, jobId, i);
        } else {
          assert 0 <= n - 1 < n && id == TaskId(h, jobId, n - 1);
        }
      }
    }
  }

  lemma LockKeepsTables(h: Hashes, jobs: map<Id, Job>, tasks: map<Id, Task>, id: Id)
    requires TablesOk(h, jobs, tasks) && id in jobs && jobs[id].isDraft
    requires 0 < |jobs[id].arguments| < TWO128 && jobs[id].redundancy > 0
    requires LockTasks(h, tasks, id, |jobs[id].arguments|).Some?
    ensures var tasks' := LockTasks(h, tasks, id, |jobs[id].arguments|).value;
            var jobs' := jobs[id := jobs[id].(isDraft := false)];
            && TablesOk(h, jobs', tasks')
            && OpenTasks(h, tasks', id, jobs'[id]) == |jobs[id].arguments|
            && (forall j | j in jobs && !jobs[j].isDraft ::
                  OpenTasks(h, tasks', j, jobs'[j]) == OpenTasks(h, tasks, j, jobs[j]))
  {
    var n := |jobs[id].arguments|;
    LockTasksAdds(h, tasks, id, n);
    var tasks' := LockTasks(h, tasks, id, n).value;
    var jobs' := jobs[id := jobs[id].(isDraft := false)];
    forall j | j in jobs' ensures JobOk(h, tasks', j, jobs'[j]) {
      assert JobOk(h, tasks, j, jobs[j]);
      if j != id {
        forall i | !jobs[j].isDraft && 0 <= i < |jobs[j].arguments| ensures HasTask(h, tasks', j, i) {
          assert HasTask(h, tasks, j, i);
        }
      }
    }
    forall t | t in tasks' ensures TaskOk(h, jobs', t, tasks'[t]) {
      if t in tasks {
        assert TaskOk(h, jobs, t, tasks[t]);
      } else {
        var i :| 0 <= i < n && t == TaskId(h, id, i);
        assert HasTask(h, tasks', id, i);
      }
    }
    forall i | 0 <= i < n ensures StateAt(tasks', TaskId(h, id, i)) == Incomplete {
      assert HasTask(h, tasks', id, i);
    }
    OpenCountFull(h, tasks', id, n);
    SameDues(h, jobs, tasks, jobs, tasks');
  }

  /** Only job `id` changes what `a` owes. */
  lemma DuesUpdate(h: Hashes, jobs: map<Id, Job>, tasks: map<Id, Task>, jobs': map<Id, Job>, tasks': map<Id, Task>,
                   id: Id, a: Address)
    requires id in jobs' && !jobs'[id].isDraft
    requires forall j | j != id && j in jobs && !jobs[j].isDraft :: j in jobs' && jobs'[j] == jobs[j]
    requires forall j | j != id && j in jobs' && !jobs'[j].isDraft :: j in jobs && jobs'[j] == jobs[j]
    requires forall j | j != id && j in jobs && !jobs[j].isDraft ::
               OpenTasks(h, tasks', j, jobs[j]) == OpenTasks(h, tasks, j, jobs[j])
    requires id in jobs ==> jobs[id].sender == jobs'[id].sender
    ensures Owed(h, jobs', tasks', a) == Owed(h, jobs, tasks, a)
              + (if a != jobs'[id].sender then 0
                 else Due(PricePerTask(jobs'[id]), OpenTasks(h, tasks', id, jobs'[id]))
                      - (if id !in jobs || jobs[id].isDraft then 0
                         else Due(PricePerTask(jobs[id]), OpenTasks(h, tasks, id, jobs[id]))))
  {
    hide PricePerTask;
    hide OpenTasks;
    hide Due;
    var before, after := Dues(h, jobs, tasks, a), Dues(h, jobs', tasks', a);
    var due := Due(PricePerTask(jobs'[id]), OpenTasks(h, tasks', id, jobs'[id]));
    if a == jobs'[id].sender {
      assert after == before[id := due];
      SumUpdate(before, id, due);
    } else {
      assert after == before;
    }
  }

  /** Locking adds the whole price of the job to what its sender owes, and to nobody else. */
  lemma LockOwes(h: Hashes, jobs: map<Id, Job>, tasks: map<Id, Task>, id: Id, a: Address)
    requires TablesOk(h, jobs, tasks) && id in jobs && jobs[id].isDraft
    requires 0 < |jobs[id].arguments| < TWO128 && jobs[id].redundancy > 0
    requires LockTasks(h, tasks, id, |jobs[id].arguments|).Some?
    ensures var tasks' := LockTasks(h, tasks, id, |jobs[id].arguments|).value;
            var jobs' := jobs[id := jobs[id].(isDraft := false)];
            Owed(h, jobs', tasks', a) == Owed(h, jobs, tasks, a)
              + (if a == jobs[id].sender then Due(PricePerTask(jobs[id]), |jobs[id].arguments|) else 0)
  {
    hide PricePerTask;
    hide Due;
    LockKeepsTables(h, jobs, tasks, id);
    var tasks' := LockTasks(h, tasks, id, |jobs[id].arguments|).value;
    var jobs' := jobs[id := jobs[id].(isDraft := false)];
    SamePrice(jobs[id], jobs'[id]);
    DuesUpdate(h, jobs, tasks, jobs', tasks', id, a);
  }

  /** The price does not depend on whether the job is still a draft. */
  lemma SamePrice(j: Job, j': Job)
    requires j' == j.(isDraft := j'.isDraft)
    ensures PricePerTask(j') == PricePerTask(j) && MaxPrice(j') == MaxPrice(j)
  {
  }

  ghost predicate Closes(before: Task, after: Task) {
    && before.state == Incomplete && after.state != Incomplete
    && after.jobId == before.jobId && after.argumentId == before.argumentId
    && after.managers == before.managers
  }

  /** Finishing a task closes exactly one task, of exactly one job. */
  lemma CloseKeepsTables(h: Hashes, jobs: map<Id, Job>, tasks: map<Id, Task>, id: Id, t: Task)
    requires TablesOk(h, jobs, tasks) && id in tasks && Closes(tasks[id], t)
    ensures TablesOk(h, jobs, tasks[id := t])
    ensures forall j | j in jobs && !jobs[j].isDraft ::
              OpenTasks(h, tasks[id := t], j, jobs[j])
              == OpenTasks(h, tasks, j, jobs[j]) - (if j == t.jobId then 1 else 0)
  {
    var tasks' := tasks[id := t];
    forall j | j in jobs ensures JobOk(h, tasks', j, jobs[j]) {
      assert JobOk(h, tasks, j, jobs[j]);
      forall i | !jobs[j].isDraft && 0 <= i < |jobs[j].arguments| ensures HasTask(h, tasks', j, i) {
        assert HasTask(h, tasks, j, i);
      }
    }
    forall k | k in tasks' ensures TaskOk(h, jobs, k, tasks'[k]) {
      assert TaskOk(h, jobs, k, tasks[k]);
    }
    forall j | j in jobs && !jobs[j].isDraft
      ensures OpenTasks(h, tasks', j, jobs[j]) == OpenTasks(h, tasks, j, jobs[j]) - (if j == t.jobId then 1 else 0)
    {
      CloseCounts(h, jobs, tasks, id, t, j);
    }
  }

  lemma CloseCounts(h: Hashes, jobs: map<Id, Job>, tasks: map<Id, Task>, id: Id, t: Task, j: Id)
    requires TablesOk(h, jobs, tasks) && id in tasks && Closes(tasks[id], t)
    requires j in jobs && !jobs[j].isDraft
    ensures OpenTasks(h, tasks[id := t], j, jobs[j])
            == OpenTasks(h, tasks, j, jobs[j]) - (if j == t.jobId then 1 else 0)
  {
    var n := |jobs[j].arguments|;
    assert JobOk(h, tasks, j, jobs[j]) && TaskOk(h, jobs, id, tasks[id]);
    if j == t.jobId {
      var k := t.argumentId;
      assert HasTask(h, tasks, j, k);
      forall i | 0 <= i < n && i != k ensures TaskId(h, j, i) != TaskId(h, j, k) {
        assert HasTask(h, tasks, j, i);
      }
      OpenCountClose(h, tasks, j, n, k, t);
    } else {
      forall i | 0 <= i < n
        ensures StateAt(tasks, TaskId(h, j, i)) == StateAt(tasks[id := t], TaskId(h, j, i))
      {
        assert HasTask(h, tasks, j, i);
      }
      OpenCountFrame(h, tasks, tasks[id := t], j, n);
    }
  }

  /** Finishing a task takes its price off what the sender of its job owes, and off nobody else. */
  lemma CloseOwes(h: Hashes, jobs: map<Id, Job>, tasks: map<Id, Task>, id: Id, t: Task, a: Address)
    requires TablesOk(h, jobs, tasks) && id in tasks && Closes(tasks[id], t) && t.jobId in jobs
    ensures Owed(h, jobs, tasks[id := t], a) == Owed(h, jobs, tasks, a)
              - (if a == jobs[t.jobId].sender then PricePerTask(jobs[t.jobId]) else 0)
  {
    hide PricePerTask;
    hide Due;
    hide OpenTasks;
    CloseKeepsTables(h, jobs, tasks, id, t);
    var tasks' := tasks[id := t];
    assert TaskOk(h, jobs, id, tasks[id]);
    var j, job := t.jobId, jobs[t.jobId];
    DuesUpdate(h, jobs, tasks, jobs, tasks', j, a);
    DueOneLess(PricePerTask(job), OpenTasks(h, tasks, j, job));
  }

  lemma DueOneLess(price: nat, open: nat)
    requires open > 0
    ensures Due(price, open - 1) == Due(price, open) - price
  {
  }
}
