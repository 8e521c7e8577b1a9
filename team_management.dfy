/**
 * The staff console page (src/pages/admin/TeamManagement.tsx): the presence label of an
 * employee, the search filter, the permission switch, and the new-employee form.
 */
module TeamManagement {
  import opened Wrappers
  import Text
  import opened Seqs

  /** The seven permission keys the console offers, in display order. */
  const PermissionIds: seq<string> :=
    ["view_users", "support_reply", "view_complaints", "view_feedback", "system_logs",
     "send_announcements", "view_reports"]

  // ---------------------------------------------------------------------------
  // getStatusInfo
  // ---------------------------------------------------------------------------

  datatype Presence = Suspended | Inactive | Online | Away | Offline

  /**
   * The presence label. `lastActive` is the last-activity time in milliseconds, None when
   * the employee has none; `now` is the clock in milliseconds.
   */
  function StatusInfo(isSuspended: bool, lastActive: Option<int>, now: int): (p: Presence)
    ensures isSuspended ==> p == Suspended
    ensures !isSuspended && lastActive.None? ==> p == Inactive
    ensures !isSuspended && lastActive.Some? ==>
      var minutes := (now - lastActive.value) as real / 60000.0;
      && (p == Online <==> minutes < 5.0)
      && (p == Away <==> 5.0 <= minutes < 30.0)
      && (p == Offline <==> 30.0 <= minutes)
  {
    if isSuspended then Suspended
    else if lastActive.None? then Inactive
    else
      var diffMinutes := (now - lastActive.value) as real / 60000.0;
      if diffMinutes < 5.0 then Online
      else if diffMinutes < 30.0 then Away
      else Offline
  }

  /** How far a label is from being online. */
  function Staleness(p: Presence): nat
  {
    match p
    case Online => 0
    case Away => 1
    case Offline => 2
    case _ => 3
  }

  /** With no new activity, the label only moves from Online towards Offline as time passes. */
  lemma PresenceDecaysOverTime(lastActive: int, t1: int, t2: int)
    requires t1 <= t2
    ensures Staleness(StatusInfo(false, Some(lastActive), t1)) <= Staleness(StatusInfo(false, Some(lastActive), t2))
  {
    assert (t1 - lastActive) as real / 60000.0 <= (t2 - lastActive) as real / 60000.0;
  }

  // ---------------------------------------------------------------------------
  // filteredEmployees
  // ---------------------------------------------------------------------------

  /** An employee row of the page's state. */
  datatype Employee = Employee(id: int, fullName: Option<string>, email: Option<string>,
                               permissions: map<string, bool>, isSuspended: bool, lastActive: Option<int>)

  /** `field?.toLowerCase().includes(query.toLowerCase())` is truthy. */
  predicate FieldMatches(field: Option<string>, query: string)
  {
    field.Some? && Text.Contains(Text.Lower(field.value), Text.Lower(query))
  }

  predicate Matches(e: Employee, query: string)
  {
    FieldMatches(e.fullName, query) || FieldMatches(e.email, query)
  }

  /** `filteredEmployees`: the employees whose name or e-mail contains the query, ignoring case, in order. */
  function Filtered(employees: seq<Employee>, query: string): (r: seq<Employee>)
    ensures forall e :: e in r <==> e in employees && Matches(e, query)
    ensures |r| <= |employees|
    ensures IsSubsequence(r, employees)
  {
    if |employees| == 0 then []
    else
      var last := employees[|employees| - 1];
      var rest := Filtered(employees[..|employees| - 1], query);
      if Matches(last, query) then
        assert (rest + [last])[..|rest|] == rest;
        rest + [last]
      else rest
  }

  /** The search ignores the case of the query. */
  lemma {:induction false} SearchIgnoresQueryCase(employees: seq<Employee>, query: string)
    ensures Filtered(employees, Text.Lower(query)) == Filtered(employees, query)
  {
    Text.LowerIdempotent(query);
    if |employees| > 0 {
      SearchIgnoresQueryCase(employees[..|employees| - 1], query);
    }
  }

  /** The empty query keeps every employee with a name or an e-mail, and only those. */
  lemma EmptyQueryKeepsNamed(employees: seq<Employee>)
    ensures forall e :: e in Filtered(employees, "") <==> e in employees && (e.fullName.Some? || e.email.Some?)
  {
    forall s: string
      ensures Text.Contains(s, "")
    {
      Text.ContainsPrefix(s, "");
    }
  }

  // ---------------------------------------------------------------------------
  // The page state: employees and the new-employee form
  // ---------------------------------------------------------------------------

  /** The new-employee form. */
  datatype EmployeeForm = EmployeeForm(fullName: string, email: string, password: string, role: string,
                                       permissions: map<string, bool>)

  /** The form as the page opens it and as it resets it after a creation. */
  const BlankForm: EmployeeForm :=
    EmployeeForm("", "", "", "STAFF",
      map["view_users" := false, "support_reply" := false, "view_complaints" := false, "view_feedback" := false,
          "system_logs" := false, "send_announcements" := false, "view_reports" := false])

  /** The blank form is a STAFF form with exactly the seven permissions, all off. */
  lemma BlankFormGrantsNothing()
    ensures BlankForm.role == "STAFF" && BlankForm.fullName == "" && BlankForm.email == "" && BlankForm.password == ""
    ensures BlankForm.permissions.Keys == set p | p in PermissionIds
    ensures forall p | p in BlankForm.permissions :: !BlankForm.permissions[p]
  {
  }

  /** The first employee with the id, as `employees.find` returns it. */
  function FindEmployee(employees: seq<Employee>, id: int): (r: Option<nat>)
    ensures r.Some? ==> (r.value < |employees| && employees[r.value].id == id
                         && forall k | 0 <= k < r.value :: employees[k].id != id)
    ensures r.None? <==> forall k | 0 <= k < |employees| :: employees[k].id != id
  {
    if |employees| == 0 then None
    else if employees[0].id == id then Some(0)
    else
      var r := FindEmployee(employees[1..], id);
      if r.Some? then Some(r.value + 1) else None
  }

  /** Every row with the id takes the given permission map; other rows are unchanged. */
  function WithPermissions(employees: seq<Employee>, id: int, perms: map<string, bool>): (r: seq<Employee>)
    ensures |r| == |employees|
    ensures forall k | 0 <= k < |r| ::
      r[k] == (if employees[k].id == id then employees[k].(permissions := perms) else employees[k])
  {
    if |employees| == 0 then []
    else
      var last := employees[|employees| - 1];
      WithPermissions(employees[..|employees| - 1], id, perms)
        + [if last.id == id then last.(permissions := perms) else last]
  }

  /**
   * The employees after switching `permission` to `value` for employee `id`: the found
   * employee's map with that one key replaced, written back to every row with that id.
   */
  function PermissionsUpdated(employees: seq<Employee>, id: int, permission: string, value: bool): seq<Employee>
  {
    var found := FindEmployee(employees, id);
    if found.None? then employees
    else WithPermissions(employees, id, employees[found.value].permissions[permission := value])
  }

  /** An unknown id changes nothing. */
  lemma UnknownEmployeeIsNoOp(employees: seq<Employee>, id: int, permission: string, value: bool)
    requires forall k | 0 <= k < |employees| :: employees[k].id != id
    ensures PermissionsUpdated(employees, id, permission, value) == employees
  {
  }

  /**
   * A switch changes only the named key of only the targeted employee: other rows are
   * unchanged, and the target keeps every other key and field.
   */
  lemma SwitchChangesOneKey(employees: seq<Employee>, id: int, permission: string, value: bool, k: nat)
    requires k < |employees| && (forall i, j | 0 <= i < j < |employees| :: employees[i].id != employees[j].id)
    ensures var r := PermissionsUpdated(employees, id, permission, value);
      && |r| == |employees|
      && (employees[k].id != id ==> r[k] == employees[k])
      && (employees[k].id == id ==>
            && r[k] == employees[k].(permissions := r[k].permissions)
            && permission in r[k].permissions && r[k].permissions[permission] == value
            && forall p | p != permission :: (p in r[k].permissions <==> p in employees[k].permissions)
                 && (p in employees[k].permissions ==> r[k].permissions[p] == employees[k].permissions[p]))
  {
    var found := FindEmployee(employees, id);
    if employees[k].id == id {
      assert found.Some?;
      assert found.value == k;
    }
  }

  /** Switching the same key to the same value twice is switching it once. */
  lemma SwitchIdempotent(employees: seq<Employee>, id: int, permission: string, value: bool)
    ensures var once := PermissionsUpdated(employees, id, permission, value);
      PermissionsUpdated(once, id, permission, value) == once
  {
    var once := PermissionsUpdated(employees, id, permission, value);
    var found := FindEmployee(employees, id);
    if found.Some? {
      var perms := employees[found.value].permissions[permission := value];
      var again := FindEmployee(once, id);
      assert again.Some?;
      assert once[again.value].permissions == perms;
      assert perms[permission := value] == perms;
      assert WithPermissions(once, id, perms) == once;
    }
  }

  /** The page's state that these handlers replace. */
  class TeamPage {
    var employees: seq<Employee>
    var newEmployee: EmployeeForm

    constructor (loaded: seq<Employee>)
      ensures employees == loaded && newEmployee == BlankForm
    {
      employees := loaded;
      newEmployee := BlankForm;
    }

    /**
     * `handleUpdatePermissions`: with an unknown id nothing happens; otherwise the update
     * is sent, and only when it succeeds (`accepted`) the list is replaced.
     */
    method UpdatePermissions(id: int, permission: string, value: bool, accepted: bool)
      modifies this
      ensures newEmployee == old(newEmployee)
      ensures employees == (if accepted then PermissionsUpdated(old(employees), id, permission, value) else old(employees))
    {
      var found := FindEmployee(employees, id);
      if found.None? {
        return;
      }
      var updated := employees[found.value].permissions[permission := value];
      if accepted {
        employees := WithPermissions(employees, id, updated);
      }
    }

    /** The form reset after a successful creation. */
    method ResetForm()
      modifies this
      ensures newEmployee == BlankForm && employees == old(employees)
    {
      newEmployee := BlankForm;
    }
  }
}
