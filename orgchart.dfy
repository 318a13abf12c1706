/** The organizational directory the engine consumes read-only (employees,
    jobs, groups, branches) and the walk up the job hierarchy performed by
    `get_hierarchy_with_users_and_groups`. */
module OrgChart {
  import opened Base

  /** Given, finite directory maps.  `employeeOfUser[u]` is the first
      employee whose user is `u`; `jobEmployees[j]` lists the employees
      holding job `j` in search order; `jobLevel` ranks jobs so that a
      parent is always ranked below its child (the `parent_id` chain is
      acyclic). */
  datatype Directory = Directory(
    employeeOfUser: map<UserId, EmployeeId>,
    employeeJob: map<EmployeeId, JobId>,
    employeeBranch: map<EmployeeId, BranchId>,
    employeeUser: map<EmployeeId, UserId>,
    jobEmployees: map<JobId, seq<EmployeeId>>,
    jobParent: map<JobId, JobId>,
    jobLevel: map<JobId, nat>,
    userGroups: map<UserId, set<GroupId>>,
    userBranch: map<UserId, BranchId>)

  /** The `parent_id` chain is acyclic, witnessed by `jobLevel`. */
  predicate Acyclic(d: Directory)
  {
    forall j :: j in d.jobParent ==>
      j in d.jobLevel && d.jobParent[j] in d.jobLevel && d.jobLevel[d.jobParent[j]] < d.jobLevel[j]
  }

  function Level(d: Directory, j: JobId): nat
  {
    if j in d.jobLevel then d.jobLevel[j] + 1 else 0
  }

  function Parent(d: Directory, j: JobId): (p: Option<JobId>)
    requires Acyclic(d)
    ensures p.Some? ==> Level(d, p.value) < Level(d, j)
  {
    if j in d.jobParent then Some(d.jobParent[j]) else None
  }

  function Get<K, V>(m: map<K, V>, k: K): Option<V>
  {
    if k in m then Some(m[k]) else None
  }

  /** `user.groups_id` (empty for an unknown user). */
  function GroupsOf(d: Directory, u: UserId): set<GroupId>
  {
    if u in d.userGroups then d.userGroups[u] else {}
  }

  /** `group.users`: every user that is a member of `g`. */
  function UsersOf(d: Directory, g: GroupId): (r: set<UserId>)
    ensures forall u :: u in r <==> g in GroupsOf(d, u)
  {
    set u | u in d.userGroups && g in d.userGroups[u]
  }

  /** `step.role_id.users`; a step without a role has no role users. */
  function RoleUsers(d: Directory, role: Option<GroupId>): set<UserId>
  {
    if role.None? then {} else UsersOf(d, role.value)
  }

  function EmployeesAt(d: Directory, j: JobId): seq<EmployeeId>
  {
    if j in d.jobEmployees then d.jobEmployees[j] else []
  }

  /** One row of `hierarchy_data`. */
  datatype HierarchyEntry = HierarchyEntry(job: JobId, employee: EmployeeId, user: Option<UserId>, userGroups: set<GroupId>)

  function EntryFor(d: Directory, j: JobId, e: EmployeeId): HierarchyEntry
  {
    var u := Get(d.employeeUser, e);
    HierarchyEntry(j, e, u, if u.Some? then GroupsOf(d, u.value) else {})
  }

  /** The rows contributed by the employees of one job, in search order. */
  function EntriesAt(d: Directory, j: JobId): (r: seq<HierarchyEntry>)
    ensures |r| == |EmployeesAt(d, j)|
    ensures forall i :: 0 <= i < |r| ==> r[i] == EntryFor(d, j, EmployeesAt(d, j)[i])
  {
    var es := EmployeesAt(d, j);
    seq(|es|, i requires 0 <= i < |es| => EntryFor(d, j, es[i]))
  }

  /** The chain of jobs from `job` up to a job without parent. */
  function Chain(d: Directory, job: Option<JobId>): (c: seq<JobId>)
    requires Acyclic(d)
    decreases if job.Some? then Level(d, job.value) + 1 else 0
  {
    if job.None? then [] else [job.value] + Chain(d, Parent(d, job.value))
  }

  /** `get_hierarchy_with_users_and_groups` as a value: the rows of the job,
      then those of its parent, and so on up the chain. */
  function Hierarchy(d: Directory, job: Option<JobId>): seq<HierarchyEntry>
    requires Acyclic(d)
    decreases if job.Some? then Level(d, job.value) + 1 else 0
  {
    if job.None? then [] else EntriesAt(d, job.value) + Hierarchy(d, Parent(d, job.value))
  }

  /** The users named by the rows (`entry['user']` when set). */
  function HierarchyUsers(h: seq<HierarchyEntry>): set<UserId>
  {
    set i | 0 <= i < |h| && h[i].user.Some? :: h[i].user.value
  }

  /** `get_hierarchy_with_users_and_groups`: walks `job = job.parent_id`
      collecting a row for every employee of every job on the way. */
  method GetHierarchy(d: Directory, job: Option<JobId>) returns (data: seq<HierarchyEntry>)
    requires Acyclic(d)
    ensures data == Hierarchy(d, job)
  {
    data := [];
    var j := job;
    while j.Some?
      invariant data + Hierarchy(d, j) == Hierarchy(d, job)
      decreases if j.Some? then Level(d, j.value) + 1 else 0
    {
      ghost var before := data;
      var jv := j.value;
      var p := Parent(d, jv);
      ghost var rows := EntriesAt(d, jv);
      ghost var up := Hierarchy(d, p);
      assert Hierarchy(d, j) == rows + up;
      data := AppendRows(d, jv, data);
      ConcatAssoc(before, rows, up);
      j := p;
    }
  }

  /** The inner `for employee in employees` loop: one row per employee. */
  method AppendRows(d: Directory, j: JobId, data0: seq<HierarchyEntry>) returns (data: seq<HierarchyEntry>)
    ensures data == data0 + EntriesAt(d, j)
  {
    var employees := EmployeesAt(d, j);
    ghost var rows := EntriesAt(d, j);
    data := data0;
    var k := 0;
    while k < |employees|
      invariant 0 <= k <= |employees|
      invariant data == data0 + rows[..k]
    {
      assert rows[..k + 1] == rows[..k] + [EntryFor(d, j, employees[k])];
      data := data + [EntryFor(d, j, employees[k])];
      k := k + 1;
    }
    assert rows[..k] == rows;
  }

  /** The chain starts at the job, each next job is the parent of the one
      before, and it ends at a job without parent. */
  lemma {:induction false} ChainShape(d: Directory, job: Option<JobId>)
    requires Acyclic(d)
    ensures var c := Chain(d, job);
      (job.None? <==> c == []) &&
      (job.Some? ==> c[0] == job.value && c[|c| - 1] !in d.jobParent) &&
      (forall k :: 0 <= k < |c| - 1 ==> Parent(d, c[k]) == Some(c[k + 1]))
    decreases if job.Some? then Level(d, job.value) + 1 else 0
  {
    if job.Some? {
      var p := Parent(d, job.value);
      ChainShape(d, p);
      var c := Chain(d, job);
      var t := Chain(d, p);
      assert c == [job.value] + t;
      forall k | 0 <= k < |c| - 1 ensures Parent(d, c[k]) == Some(c[k + 1]) {
        if k > 0 {
          assert c[k] == t[k - 1] && c[k + 1] == t[k];
        }
      }
    }
  }

  /** Some employee holding job `j` is user `u`. */
  predicate HoldsJob(d: Directory, j: JobId, u: UserId)
  {
    exists i :: 0 <= i < |EmployeesAt(d, j)| && Get(d.employeeUser, EmployeesAt(d, j)[i]) == Some(u)
  }

  lemma HierarchyUsersConcat(a: seq<HierarchyEntry>, b: seq<HierarchyEntry>)
    ensures HierarchyUsers(a + b) == HierarchyUsers(a) + HierarchyUsers(b)
  {
    var ab := a + b;
    forall u | u in HierarchyUsers(ab) ensures u in HierarchyUsers(a) + HierarchyUsers(b) {
      var n :| 0 <= n < |ab| && ab[n].user.Some? && ab[n].user.value == u;
      if n >= |a| {
        assert b[n - |a|] == ab[n];
      }
    }
    forall u | u in HierarchyUsers(a) ensures u in HierarchyUsers(ab) {
      var n :| 0 <= n < |a| && a[n].user.Some? && a[n].user.value == u;
      assert ab[n] == a[n];
    }
    forall u | u in HierarchyUsers(b) ensures u in HierarchyUsers(ab) {
      var n :| 0 <= n < |b| && b[n].user.Some? && b[n].user.value == u;
      assert ab[|a| + n] == b[n];
    }
  }

  lemma EntriesAtUsers(d: Directory, j: JobId, u: UserId)
    ensures u in HierarchyUsers(EntriesAt(d, j)) <==> HoldsJob(d, j, u)
  {
    var rows := EntriesAt(d, j);
    if u in HierarchyUsers(rows) {
      var n :| 0 <= n < |rows| && rows[n].user.Some? && rows[n].user.value == u;
      assert Get(d.employeeUser, EmployeesAt(d, j)[n]) == Some(u);
    }
    if HoldsJob(d, j, u) {
      var n :| 0 <= n < |EmployeesAt(d, j)| && Get(d.employeeUser, EmployeesAt(d, j)[n]) == Some(u);
      assert rows[n].user == Some(u);
    }
  }

  /** A user is named by the hierarchy exactly when some employee holding a
      job on the chain is that user. */
  lemma {:induction false} HierarchyUsersOnChain(d: Directory, job: Option<JobId>, u: UserId)
    requires Acyclic(d)
    ensures u in HierarchyUsers(Hierarchy(d, job)) <==>
      exists k :: 0 <= k < |Chain(d, job)| && HoldsJob(d, Chain(d, job)[k], u)
    decreases if job.Some? then Level(d, job.value) + 1 else 0
  {
    if job.Some? {
      var j := job.value;
      var p := Parent(d, j);
      HierarchyUsersOnChain(d, p, u);
      HierarchyUsersConcat(EntriesAt(d, j), Hierarchy(d, p));
      EntriesAtUsers(d, j, u);
      var c := Chain(d, job);
      var t := Chain(d, p);
      assert c == [j] + t;
      assert Hierarchy(d, job) == EntriesAt(d, j) + Hierarchy(d, p);
      if u in HierarchyUsers(Hierarchy(d, job)) {
        if HoldsJob(d, j, u) {
          assert c[0] == j;
        } else {
          var k :| 0 <= k < |t| && HoldsJob(d, t[k], u);
          assert c[k + 1] == t[k];
        }
      }
      if exists k :: 0 <= k < |c| && HoldsJob(d, c[k], u) {
        var k :| 0 <= k < |c| && HoldsJob(d, c[k], u);
        if k > 0 {
          assert t[k - 1] == c[k];
        } else {
          assert c[0] == j;
        }
      }
    }
  }
}
