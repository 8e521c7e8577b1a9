/**
 * The founder-only team administration router (backend/app/routers/team.py): listing,
 * creating, updating and deleting staff accounts, forcing a logout or a password reset,
 * and the per-employee activity insights.
 */
module Team {
  import opened Wrappers
  import Auth

  const NotAuthorized: HttpError := HttpError(403, "Not authorized")
  const EmployeeNotFound: HttpError := HttpError(404, "Employee not found")

  /** The roles `list_employees` treats as staff. */
  const StaffRoles: set<string> := {"STAFF", "SUPPORT", "ANALYST", "MODERATOR"}

  predicate IsFounder(caller: Auth.User)
  {
    caller.role == "FOUNDER"
  }

  // ---------------------------------------------------------------------------
  // list_employees
  // ---------------------------------------------------------------------------

  /** The staff rows, in table order. */
  function StaffOf(users: seq<Auth.User>): (r: seq<Auth.User>)
    ensures forall u :: u in r <==> u in users && u.role in StaffRoles
    ensures |r| <= |users|
  {
    if |users| == 0 then []
    else StaffOf(users[..|users| - 1]) + (if users[|users| - 1].role in StaffRoles then [users[|users| - 1]] else [])
  }

  function ListEmployees(caller: Auth.User, users: seq<Auth.User>): (r: Result<seq<Auth.User>>)
    ensures r.Err? <==> !IsFounder(caller)
    ensures r.Err? ==> r.error == NotAuthorized
    ensures r.Ok? ==> forall u :: u in r.value <==> u in users && u.role in StaffRoles
  {
    if !IsFounder(caller) then Err(NotAuthorized) else Ok(StaffOf(users))
  }

  /** Listing keeps the table order: the staff rows of a longer table extend those of its prefix. */
  lemma {:induction false} StaffOfAppend(a: seq<Auth.User>, b: seq<Auth.User>)
    ensures StaffOf(a + b) == StaffOf(a) + StaffOf(b)
  {
    if |b| > 0 {
      var ab, init, last := a + b, b[..|b| - 1], b[|b| - 1];
      assert ab[..|ab| - 1] == a + init && ab[|ab| - 1] == last;
      StaffOfAppend(a, init);
      var tail := if last.role in StaffRoles then [last] else [];
      assert StaffOf(ab) == StaffOf(a + init) + tail;
      assert StaffOf(b) == StaffOf(init) + tail;
    } else {
      assert a + b == a;
    }
  }

  // ---------------------------------------------------------------------------
  // create_employee
  // ---------------------------------------------------------------------------

  const UserExists: HttpError := HttpError(400, "User already exists")

  /** `create_employee`; `hashed` stands for the hash of the given password. */
  method CreateEmployee(dir: Auth.UserDirectory, caller: Auth.User, email: string, fullName: string, hashed: string,
                        role: string, permissions: map<string, bool>)
    returns (r: Result<Auth.User>)
    requires dir.Valid()
    modifies dir
    ensures dir.Valid()
    ensures !IsFounder(caller) ==> r == Err(NotAuthorized) && dir.users == old(dir.users)
    ensures IsFounder(caller) && Auth.FindByEmail(old(dir.users), email).Some? ==>
      r == Err(UserExists) && dir.users == old(dir.users)
    ensures IsFounder(caller) && Auth.FindByEmail(old(dir.users), email).None? ==>
      r == Ok(Auth.NewUser(old(dir.nextId), email, fullName, hashed).(role := role, permissions := permissions))
      && dir.users == old(dir.users) + [r.value]
  {
    if !IsFounder(caller) {
      return Err(NotAuthorized);
    }
    if Auth.FindByEmail(dir.users, email).Some? {
      return Err(UserExists);
    }
    var u := Auth.NewUser(dir.nextId, email, fullName, hashed).(role := role, permissions := permissions);
    dir.users := dir.users + [u];
    dir.nextId := dir.nextId + 1;
    r := Ok(u);
  }

  // ---------------------------------------------------------------------------
  // force_logout / reset_password / update_employee / delete_employee
  // ---------------------------------------------------------------------------

  /** The status message of a successful action. */
  datatype Done = Done(status: string)

  /** `force_logout`: the employee's next request is refused once. */
  method ForceLogout(dir: Auth.UserDirectory, caller: Auth.User, employeeId: int) returns (r: Result<Done>)
    requires dir.Valid()
    modifies dir
    ensures dir.Valid() && dir.nextId == old(dir.nextId)
    ensures !IsFounder(caller) ==> r == Err(NotAuthorized) && dir.users == old(dir.users)
    ensures IsFounder(caller) && Auth.FindById(old(dir.users), employeeId).None? ==>
      r == Err(EmployeeNotFound) && dir.users == old(dir.users)
    ensures IsFounder(caller) && Auth.FindById(old(dir.users), employeeId).Some? ==>
      var i := Auth.FindById(old(dir.users), employeeId).value;
      r.Ok? && dir.users == old(dir.users)[i := old(dir.users)[i].(requiresReauth := true)]
  {
    if !IsFounder(caller) {
      return Err(NotAuthorized);
    }
    var found := Auth.FindById(dir.users, employeeId);
    if found.None? {
      return Err(EmployeeNotFound);
    }
    var i := found.value;
    dir.users := dir.users[i := dir.users[i].(requiresReauth := true)];
    r := Ok(Done("Force logout initiated"));
  }

  const PasswordRequired: HttpError := HttpError(400, "Password required")

  /**
   * `reset_password`. `password` is `data.get("password")`, None when the key is absent;
   * an empty password is refused like a missing one. `hash` is `get_password_hash`.
   */
  method ResetPassword(dir: Auth.UserDirectory, caller: Auth.User, employeeId: int, password: Option<string>,
                       hash: string -> string)
    returns (r: Result<Done>)
    requires dir.Valid()
    modifies dir
    ensures dir.Valid() && dir.nextId == old(dir.nextId)
    ensures !IsFounder(caller) ==> r == Err(NotAuthorized) && dir.users == old(dir.users)
    ensures IsFounder(caller) && Auth.FindById(old(dir.users), employeeId).None? ==>
      r == Err(EmployeeNotFound) && dir.users == old(dir.users)
    ensures (IsFounder(caller) && Auth.FindById(old(dir.users), employeeId).Some?
             && (password.None? || password.value == "")) ==> r == Err(PasswordRequired) && dir.users == old(dir.users)
    ensures (IsFounder(caller) && Auth.FindById(old(dir.users), employeeId).Some?
             && password.Some? && password.value != "") ==>
      var i := Auth.FindById(old(dir.users), employeeId).value;
      r.Ok? && dir.users == old(dir.users)[i := old(dir.users)[i].(hashedPassword := hash(password.value),
                                                                   requiresReauth := true)]
  {
    if !IsFounder(caller) {
      return Err(NotAuthorized);
    }
    var found := Auth.FindById(dir.users, employeeId);
    if found.None? {
      return Err(EmployeeNotFound);
    }
    if password.None? || password.value == "" {
      return Err(PasswordRequired);
    }
    var i := found.value;
    dir.users := dir.users[i := dir.users[i].(hashedPassword := hash(password.value), requiresReauth := true)];
    r := Ok(Done("Password reset successfully"));
  }

  /** The PATCH body; every field may be left out. */
  datatype EmployeeUpdate = EmployeeUpdate(role: Option<string>, isSuspended: Option<bool>,
                                            permissions: Option<map<string, bool>>)

  /** The row after a partial update: an empty role is ignored like a missing one. */
  function Patched(u: Auth.User, d: EmployeeUpdate): (v: Auth.User)
    ensures v.role == (if d.role.Some? && d.role.value != "" then d.role.value else u.role)
    ensures v.isSuspended == (if d.isSuspended.Some? then d.isSuspended.value else u.isSuspended)
    ensures v.permissions == (if d.permissions.Some? then d.permissions.value else u.permissions)
    ensures v.(role := u.role, isSuspended := u.isSuspended, permissions := u.permissions) == u
  {
    var u1 := if d.role.Some? && d.role.value != "" then u.(role := d.role.value) else u;
    var u2 := if d.isSuspended.Some? then u1.(isSuspended := d.isSuspended.value) else u1;
    if d.permissions.Some? then u2.(permissions := d.permissions.value) else u2
  }

  /** An update with every field left out changes nothing. */
  lemma EmptyUpdateChangesNothing(u: Auth.User)
    ensures Patched(u, EmployeeUpdate(None, None, None)) == u
  {
  }

  /** Applying the same update twice is the same as applying it once. */
  lemma PatchIdempotent(u: Auth.User, d: EmployeeUpdate)
    ensures Patched(Patched(u, d), d) == Patched(u, d)
  {
  }

  method UpdateEmployee(dir: Auth.UserDirectory, caller: Auth.User, employeeId: int, d: EmployeeUpdate)
    returns (r: Result<Auth.User>)
    requires dir.Valid()
    modifies dir
    ensures dir.Valid() && dir.nextId == old(dir.nextId)
    ensures !IsFounder(caller) ==> r == Err(NotAuthorized) && dir.users == old(dir.users)
    ensures IsFounder(caller) && Auth.FindById(old(dir.users), employeeId).None? ==>
      r == Err(EmployeeNotFound) && dir.users == old(dir.users)
    ensures IsFounder(caller) && Auth.FindById(old(dir.users), employeeId).Some? ==>
      var i := Auth.FindById(old(dir.users), employeeId).value;
      r == Ok(Patched(old(dir.users)[i], d)) && dir.users == old(dir.users)[i := r.value]
  {
    if !IsFounder(caller) {
      return Err(NotAuthorized);
    }
    var found := Auth.FindById(dir.users, employeeId);
    if found.None? {
      return Err(EmployeeNotFound);
    }
    var i := found.value;
    var staff := Patched(dir.users[i], d);
    dir.users := dir.users[i := staff];
    r := Ok(staff);
  }

  method DeleteEmployee(dir: Auth.UserDirectory, caller: Auth.User, employeeId: int) returns (r: Result<Done>)
    requires dir.Valid()
    modifies dir
    ensures dir.Valid() && dir.nextId == old(dir.nextId)
    ensures !IsFounder(caller) ==> r == Err(NotAuthorized) && dir.users == old(dir.users)
    ensures IsFounder(caller) && Auth.FindById(old(dir.users), employeeId).None? ==>
      r == Err(EmployeeNotFound) && dir.users == old(dir.users)
    ensures IsFounder(caller) && Auth.FindById(old(dir.users), employeeId).Some? ==>
      var i := Auth.FindById(old(dir.users), employeeId).value;
      r.Ok? && dir.users == old(dir.users)[..i] + old(dir.users)[i + 1..]
  {
    if !IsFounder(caller) {
      return Err(NotAuthorized);
    }
    var found := Auth.FindById(dir.users, employeeId);
    if found.None? {
      return Err(EmployeeNotFound);
    }
    var i := found.value;
    ghost var before := dir.users;
    dir.users := dir.users[..i] + dir.users[i + 1..];
    RemovedRowsKeepIndices(before, i);
    r := Ok(Done("Staff account deleted successfully"));
  }

  /** The rows after removing row `i` are the rows before it, then the rows after it shifted down by one. */
  lemma RemovedRowsKeepIndices(users: seq<Auth.User>, i: nat)
    requires i < |users|
    ensures var r := users[..i] + users[i + 1..];
      |r| == |users| - 1 && forall k | 0 <= k < |r| :: r[k] == (if k < i then users[k] else users[k + 1])
  {
  }

  // ---------------------------------------------------------------------------
  // get_employee_insights
  // ---------------------------------------------------------------------------

  /** An `employee_activities` row, reduced to what the insights read. */
  datatype Activity = Activity(employeeId: int, moduleName: string)

  /** The employee's activities, in table order. */
  function ActivitiesOf(all: seq<Activity>, employeeId: int): (r: seq<Activity>)
    ensures forall a :: a in r <==> a in all && a.employeeId == employeeId
  {
    if |all| == 0 then []
    else
      var last := all[|all| - 1];
      ActivitiesOf(all[..|all| - 1], employeeId) + (if last.employeeId == employeeId then [last] else [])
  }

  /** How many activities are in module `m`. */
  function CountIn(acts: seq<Activity>, m: string): nat
  {
    if |acts| == 0 then 0
    else CountIn(acts[..|acts| - 1], m) + (if acts[|acts| - 1].moduleName == m then 1 else 0)
  }

  /** The modules in the order they were first met, which is the dict's key order. */
  function Modules(acts: seq<Activity>): seq<string>
  {
    if |acts| == 0 then []
    else
      var prior := Modules(acts[..|acts| - 1]);
      if acts[|acts| - 1].moduleName in prior then prior else prior + [acts[|acts| - 1].moduleName]
  }

  /** The `module_counts` dict. */
  function CountsOf(acts: seq<Activity>): map<string, nat>
  {
    map m | m in Modules(acts) :: CountIn(acts, m)
  }

  lemma {:induction false} ModulesExact(acts: seq<Activity>)
    ensures forall m :: m in Modules(acts) <==> exists k | 0 <= k < |acts| :: acts[k].moduleName == m
  {
    if |acts| > 0 {
      var p := acts[..|acts| - 1];
      ModulesExact(p);
      forall m
        ensures m in Modules(acts) <==> exists k | 0 <= k < |acts| :: acts[k].moduleName == m
      {
        if m in Modules(p) {
          var k :| 0 <= k < |p| && p[k].moduleName == m;
          assert acts[k].moduleName == m;
        }
        if exists k | 0 <= k < |acts| :: acts[k].moduleName == m {
          var k :| 0 <= k < |acts| && acts[k].moduleName == m;
          if k < |acts| - 1 {
            assert p[k].moduleName == m;
          }
        }
      }
    }
  }

  lemma {:induction false} AbsentModuleCountsZero(acts: seq<Activity>, m: string)
    requires forall k | 0 <= k < |acts| :: acts[k].moduleName != m
    ensures CountIn(acts, m) == 0
  {
    if |acts| > 0 {
      AbsentModuleCountsZero(acts[..|acts| - 1], m);
    }
  }

  /** The counts of one module sum to the number of activities. */
  lemma {:induction false} CountsAddUp(acts: seq<Activity>)
    ensures SumCounts(acts, Modules(acts)) == |acts|
  {
    if |acts| > 0 {
      var p := acts[..|acts| - 1];
      var a := acts[|acts| - 1];
      assert acts == p + [a];
      CountsAddUp(p);
      ModulesExact(p);
      ModulesDistinct(p);
      SumCountsStep(p, a, Modules(p));
      if a.moduleName !in Modules(p) {
        AbsentModuleCountsZero(p, a.moduleName);
        SumCountsSnoc(acts, Modules(p), a.moduleName);
      }
    }
  }

  /** The sum of the counts of the listed modules. */
  function SumCounts(acts: seq<Activity>, ms: seq<string>): nat
  {
    if |ms| == 0 then 0 else SumCounts(acts, ms[..|ms| - 1]) + CountIn(acts, ms[|ms| - 1])
  }

  lemma SumCountsSnoc(acts: seq<Activity>, ms: seq<string>, m: string)
    ensures SumCounts(acts, ms + [m]) == SumCounts(acts, ms) + CountIn(acts, m)
  {
    assert (ms + [m])[..|ms|] == ms;
  }

  /** One more activity adds one to the sum over distinct listed modules that include its own. */
  lemma {:induction false} SumCountsStep(p: seq<Activity>, a: Activity, ms: seq<string>)
    requires forall i, j | 0 <= i < j < |ms| :: ms[i] != ms[j]
    ensures SumCounts(p + [a], ms) == SumCounts(p, ms) + (if a.moduleName in ms then 1 else 0)
  {
    var acts := p + [a];
    assert acts[..|acts| - 1] == p;
    if |ms| > 0 {
      var q := ms[..|ms| - 1];
      SumCountsStep(p, a, q);
      assert a.moduleName in ms <==> a.moduleName in q || a.moduleName == ms[|ms| - 1];
      if a.moduleName == ms[|ms| - 1] {
        assert a.moduleName !in q by {
          forall k | 0 <= k < |q| ensures q[k] != a.moduleName {
            assert ms[k] != ms[|ms| - 1];
          }
        }
      }
    }
  }

  lemma {:induction false} ModulesDistinct(acts: seq<Activity>)
    ensures forall i, j | 0 <= i < j < |Modules(acts)| :: Modules(acts)[i] != Modules(acts)[j]
  {
    if |acts| > 0 {
      ModulesDistinct(acts[..|acts| - 1]);
    }
  }

  /**
   * `max(module_counts, key=module_counts.get)`: the first key, in dict order, whose count
   * is largest; "None" when there are no activities.
   */
  function MostActive(acts: seq<Activity>): string
  {
    if |Modules(acts)| == 0 then "None" else Modules(acts)[ArgMax(acts, Modules(acts))]
  }

  /** The index of the first entry of `ms` with the largest count. */
  function ArgMax(acts: seq<Activity>, ms: seq<string>): (k: nat)
    requires |ms| > 0
    ensures k < |ms|
    ensures forall j | 0 <= j < |ms| :: CountIn(acts, ms[j]) <= CountIn(acts, ms[k])
    ensures forall j | 0 <= j < k :: CountIn(acts, ms[j]) < CountIn(acts, ms[k])
  {
    if |ms| == 1 then 0
    else
      var k := ArgMax(acts, ms[..|ms| - 1]);
      assert forall j | 0 <= j < |ms| - 1 :: ms[..|ms| - 1][j] == ms[j];
      if CountIn(acts, ms[|ms| - 1]) > CountIn(acts, ms[k]) then |ms| - 1 else k
  }

  datatype Insights = Insights(totalActions: nat, mostActiveModule: string)

  /**
   * The `module_counts` loop and the `max` over it, as the source runs them; returns the
   * dict and the most active module.
   */
  method CountModules(acts: seq<Activity>) returns (counts: map<string, nat>, order: seq<string>)
    ensures counts == CountsOf(acts) && order == Modules(acts)
  {
    counts, order := map[], [];
    var i := 0;
    while i < |acts|
      invariant 0 <= i <= |acts|
      invariant counts == CountsOf(acts[..i]) && order == Modules(acts[..i])
    {
      var act := acts[i];
      CountStep(acts[..i], act);
      assert acts[..i + 1] == acts[..i] + [act];
      if act.moduleName !in counts {
        order := order + [act.moduleName];
      }
      counts := counts[act.moduleName := (if act.moduleName in counts then counts[act.moduleName] else 0) + 1];
      i := i + 1;
    }
    assert acts[..i] == acts;
  }

  /** One more activity raises its module's count by one, creating it at one. */
  lemma CountStep(p: seq<Activity>, a: Activity)
    ensures var c := CountsOf(p);
      CountsOf(p + [a]) == c[a.moduleName := (if a.moduleName in c then c[a.moduleName] else 0) + 1]
    ensures Modules(p + [a]) == if a.moduleName in CountsOf(p) then Modules(p) else Modules(p) + [a.moduleName]
  {
    var acts := p + [a];
    assert acts[..|acts| - 1] == p;
    if a.moduleName !in Modules(p) {
      ModulesExact(p);
      AbsentModuleCountsZero(p, a.moduleName);
    }
  }

  /** The argmax loop over the dict's keys, keeping the first strict maximum. */
  method MaxByCount(acts: seq<Activity>, counts: map<string, nat>, order: seq<string>) returns (best: string)
    requires counts == CountsOf(acts) && order == Modules(acts)
    ensures best == MostActive(acts)
  {
    if |order| == 0 {
      return "None";
    }
    var k := 0;
    var i := 1;
    while i < |order|
      invariant 1 <= i <= |order| && k < i
      invariant k == ArgMax(acts, order[..i])
    {
      assert order[..i + 1][..i] == order[..i];
      assert order[..i + 1][i] == order[i] && order[..i + 1][k] == order[k];
      if counts[order[i]] > counts[order[k]] {
        k := i;
      }
      i := i + 1;
    }
    assert order[..i] == order;
    best := order[k];
  }

  method GetEmployeeInsights(caller: Auth.User, activities: seq<Activity>, employeeId: int)
    returns (r: Result<Insights>)
    ensures !IsFounder(caller) ==> r == Err(NotAuthorized)
    ensures IsFounder(caller) ==>
      r == Ok(Insights(|ActivitiesOf(activities, employeeId)|, MostActive(ActivitiesOf(activities, employeeId))))
  {
    if !IsFounder(caller) {
      return Err(NotAuthorized);
    }
    var acts := ActivitiesOf(activities, employeeId);
    var counts, order := CountModules(acts);
    var best := MaxByCount(acts, counts, order);
    r := Ok(Insights(|acts|, best));
  }

  /** The employee's stored row holds both a session start and a last-activity time. */
  predicate StampedSession(users: seq<Auth.User>, employeeId: int)
  {
    var i := Auth.FindById(users, employeeId);
    i.Some? && users[i.value].sessionStart.Some? && users[i.value].lastActive.Some?
  }

  const FuncUndefined: HttpError := HttpError(500, "name 'func' is not defined")

  /**
   * `get_employee_insights` as written. The router never imports `func`, so the
   * session-time test (reached when the employee's row has both stamps) and the 24-hour
   * count (evaluated once per activity) raise NameError, which the server answers with a 500.
   */
  function InsightsAsWritten(caller: Auth.User, users: seq<Auth.User>, activities: seq<Activity>, employeeId: int)
    : (r: Result<Insights>)
    ensures !IsFounder(caller) ==> r == Err(NotAuthorized)
    ensures IsFounder(caller) ==>
      (r.Err? <==> |ActivitiesOf(activities, employeeId)| > 0 || StampedSession(users, employeeId))
    ensures IsFounder(caller) && r.Err? ==> r.error.status == 500
    ensures r.Ok? ==> r.value.totalActions == 0
  {
    if !IsFounder(caller) then Err(NotAuthorized)
    else if StampedSession(users, employeeId) || |ActivitiesOf(activities, employeeId)| > 0 then Err(FuncUndefined)
    else Ok(Insights(0, "None"))
  }

  /** As written, a founder asking about an employee with any recorded activity gets a 500. */
  lemma InsightsWithActivityFailAsWritten(caller: Auth.User, users: seq<Auth.User>, activities: seq<Activity>,
                                          employeeId: int, k: nat)
    requires IsFounder(caller) && k < |activities| && activities[k].employeeId == employeeId
    ensures InsightsAsWritten(caller, users, activities, employeeId).Err?
    ensures InsightsAsWritten(caller, users, activities, employeeId).error.status == 500
  {
    assert activities[k] in ActivitiesOf(activities, employeeId);
  }

  /** Wherever the handler as written answers, it answers what the corrected handler computes. */
  lemma InsightsExtendsAsWritten(caller: Auth.User, users: seq<Auth.User>, activities: seq<Activity>, employeeId: int)
    ensures var w := InsightsAsWritten(caller, users, activities, employeeId);
      var acts := ActivitiesOf(activities, employeeId);
      w.Ok? ==> w.value == Insights(|acts|, MostActive(acts))
  {
    var acts := ActivitiesOf(activities, employeeId);
    if |acts| == 0 {
      MostActiveIsMaximal(acts);
    }
  }

  /**
   * The most active module is one of the employee's modules with a largest count (each
   * count is at most the total), and "None" exactly when there are no activities.
   */
  lemma MostActiveIsMaximal(acts: seq<Activity>)
    ensures |acts| == 0 ==> MostActive(acts) == "None"
    ensures |acts| > 0 ==> exists k | 0 <= k < |acts| :: acts[k].moduleName == MostActive(acts)
    ensures forall m | m in Modules(acts) :: CountIn(acts, m) <= CountIn(acts, MostActive(acts))
    ensures |acts| > 0 ==> 0 < CountIn(acts, MostActive(acts)) <= |acts|
  {
    if |acts| > 0 {
      var ms := Modules(acts);
      ModulesExact(acts);
      assert acts[0].moduleName in ms;
      var k := ArgMax(acts, ms);
      var best := ms[k];
      assert MostActive(acts) == best;
      forall m | m in ms ensures CountIn(acts, m) <= CountIn(acts, best) {
        var j :| 0 <= j < |ms| && ms[j] == m;
      }
      assert best in ms;
      var i :| 0 <= i < |acts| && acts[i].moduleName == best;
      CountPositive(acts, i);
      ModulesDistinct(acts);
      CountsAddUp(acts);
      SumAtLeastOne(acts, ms, k);
    }
  }

  /** A module that occurs has a positive count. */
  lemma {:induction false} CountPositive(acts: seq<Activity>, i: nat)
    requires i < |acts|
    ensures CountIn(acts, acts[i].moduleName) > 0
  {
    if i < |acts| - 1 {
      CountPositive(acts[..|acts| - 1], i);
    }
  }

  /** One listed count is at most the sum of all of them. */
  lemma {:induction false} SumAtLeastOne(acts: seq<Activity>, ms: seq<string>, k: nat)
    requires k < |ms|
    ensures CountIn(acts, ms[k]) <= SumCounts(acts, ms)
  {
    if k < |ms| - 1 {
      SumAtLeastOne(acts, ms[..|ms| - 1], k);
    }
  }

  /** The total is the number of the employee's activities, and equals the sum of the module counts. */
  lemma TotalIsSumOfCounts(all: seq<Activity>, employeeId: int)
    ensures var acts := ActivitiesOf(all, employeeId);
      SumCounts(acts, Modules(acts)) == |acts|
  {
    CountsAddUp(ActivitiesOf(all, employeeId));
  }

  // ---------------------------------------------------------------------------
  // get_team_activity
  // ---------------------------------------------------------------------------

  /** How many of the latest activities the feed returns. */
  const FeedLimit: nat := 50

  /**
   * `get_team_activity`: `newestFirst` is the activity table as the query orders it,
   * by timestamp descending; a founder gets its first fifty rows.
   */
  function GetTeamActivity(caller: Auth.User, newestFirst: seq<Activity>): (r: Result<seq<Activity>>)
    ensures r.Err? <==> !IsFounder(caller)
    ensures r.Err? ==> r.error == NotAuthorized
    ensures r.Ok? ==> |r.value| == (if |newestFirst| < FeedLimit then |newestFirst| else FeedLimit)
    ensures r.Ok? ==> forall k | 0 <= k < |r.value| :: r.value[k] == newestFirst[k]
  {
    if !IsFounder(caller) then Err(NotAuthorized)
    else if |newestFirst| <= FeedLimit then Ok(newestFirst)
    else Ok(newestFirst[..FeedLimit])
  }
}
