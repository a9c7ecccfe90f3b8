/** Recipient resolution: which users hear of a transition into a state. */
module Recipients {
  import opened Wrappers
  import opened Framework

  const EmployeeRole := "Employee"

  /** The document fields that may name the responsible employee, by priority. */
  const EmployeeFields: seq<string> := ["employee", "assigned_to", "owner", "created_by"]

  predicate NoDuplicates(s: seq<string>) {
    forall i, j :: 0 <= i < j < |s| ==> s[i] != s[j]
  }

  // ---------------------------------------------------------------------------
  // Role resolution
  // ---------------------------------------------------------------------------

  /** The value of the first field among `names` that is set on the document. */
  function FirstPopulated(doc: Doc, names: seq<string>): (r: Value)
    ensures r.None? <==> forall k :: 0 <= k < |names| ==> !Truthy(doc.Get(names[k]))
    ensures r.Some? ==>
      && Truthy(r)
      && exists k :: 0 <= k < |names| && doc.Get(names[k]) == r &&
           forall j :: 0 <= j < k ==> !Truthy(doc.Get(names[j]))
  {
    if names == [] then None
    else if Truthy(doc.Get(names[0])) then doc.Get(names[0])
    else
      var r := FirstPopulated(doc, names[1..]);
      assert forall k :: 1 <= k < |names| ==> names[k] == names[1..][k - 1];
      r
  }

  /** The user an employee-field value stands for: the value itself when it
      names a User, else the `user_id` of the Employee it names, if any. */
  function LinkedUser(v: string, site: Site): set<string> {
    if v in site.users then {v}
    else if v in site.employees && Truthy(site.employees[v]) then {site.employees[v].value}
    else {}
  }

  /** The owner, when the owner holds the Employee role. */
  function OwnerIfEmployee(doc: Doc, site: Site): set<string> {
    var owner := doc.Owner();
    if Truthy(owner) && EmployeeRole in site.RolesOf(owner.value) then {owner.value} else {}
  }

  /** The users a role resolves to. The Employee role resolves to the named
      individual and the owner, never to every holder of the role. */
  function UsersForRole(role: string, doc: Doc, site: Site): set<string> {
    if role == EmployeeRole then NamedEmployee(doc, site) + OwnerIfEmployee(doc, site)
    else set u | u in site.HoldersOf(role)
  }

  /** The user named by the first set employee field. */
  function NamedEmployee(doc: Doc, site: Site): set<string> {
    match FirstPopulated(doc, EmployeeFields)
    case Some(v) => LinkedUser(v, site)
    case None => {}
  }

  /** Any role but Employee resolves to exactly the users holding it. */
  lemma OtherRoleIsHolders(role: string, doc: Doc, site: Site, u: string)
    requires role != EmployeeRole
    ensures u in UsersForRole(role, doc, site) <==> u in site.HoldersOf(role)
  {
  }

  /** The Employee role resolves to at most two users: the one named by the
      first set employee field, and the owner when the owner is an Employee. */
  lemma EmployeeRoleIsPrecise(doc: Doc, site: Site)
    ensures |UsersForRole(EmployeeRole, doc, site)| <= 2
    ensures forall u :: u in UsersForRole(EmployeeRole, doc, site) <==>
      || (FirstPopulated(doc, EmployeeFields).Some? &&
          u in LinkedUser(FirstPopulated(doc, EmployeeFields).value, site))
      || (Truthy(doc.Owner()) && u == doc.Owner().value &&
          EmployeeRole in site.RolesOf(doc.Owner().value))
  {
    var named := NamedEmployee(doc, site);
    assert |named| <= 1;
    var owner := OwnerIfEmployee(doc, site);
    assert |owner| <= 1;
    assert |named + owner| <= |named| + |owner|;
  }

  /** `get_users_for_role` */
  method GetUsersForRole(role: string, doc: Doc, site: Site) returns (users: set<string>)
    ensures users == UsersForRole(role, doc, site)
  {
    users := {};
    if role == EmployeeRole {
      var employeeField: Value := None;
      var i := 0;
      while i < |EmployeeFields|
        invariant 0 <= i <= |EmployeeFields|
        invariant employeeField.None?
        invariant FirstPopulated(doc, EmployeeFields) == FirstPopulated(doc, EmployeeFields[i..])
      {
        var v := doc.Get(EmployeeFields[i]);
        if Truthy(v) {
          employeeField := v;
          break;
        }
        assert EmployeeFields[i..][1..] == EmployeeFields[i + 1..];
        i := i + 1;
      }
      if Truthy(employeeField) {
        var ef := employeeField.value;
        if ef in site.users {
          users := users + {ef};
        } else if ef in site.employees {
          var userId := site.employees[ef];
          if Truthy(userId) {
            users := users + {userId.value};
          }
        }
      }
      var owner := doc.Owner();
      if Truthy(owner) {
        var userRoles := site.RolesOf(owner.value);
        if EmployeeRole in userRoles {
          users := users + {owner.value};
        }
      }
    } else {
      users := set u | u in site.HoldersOf(role);
    }
  }

  // ---------------------------------------------------------------------------
  // Union over a list of roles
  // ---------------------------------------------------------------------------

  /** The users of every set role in `roles`; unset roles are skipped. */
  function RoleUnion(roles: seq<Value>, doc: Doc, site: Site): set<string> {
    if roles == [] then {}
    else
      var last := roles[|roles| - 1];
      RoleUnion(roles[..|roles| - 1], doc, site) +
        (if Truthy(last) then UsersForRole(last.value, doc, site) else {})
  }

  lemma {:induction false} RoleUnionMembers(roles: seq<Value>, doc: Doc, site: Site, u: string)
    ensures u in RoleUnion(roles, doc, site) <==>
      exists k :: 0 <= k < |roles| && Truthy(roles[k]) && u in UsersForRole(roles[k].value, doc, site)
  {
    if roles != [] {
      var init := roles[..|roles| - 1];
      RoleUnionMembers(init, doc, site, u);
      assert forall k :: 0 <= k < |init| ==> init[k] == roles[k];
    }
  }

  // ---------------------------------------------------------------------------
  // Transition recipients
  // ---------------------------------------------------------------------------

  /** The role a transition names: `allowed`, else `role`. */
  function RoleOf(t: WorkflowTransition): Value {
    if Truthy(t.allowed) then t.allowed else t.role
  }

  /** The transitions leaving `current`, in table order. */
  function FromState(ts: seq<WorkflowTransition>, current: string): seq<WorkflowTransition> {
    if ts == [] then []
    else
      var last := ts[|ts| - 1];
      FromState(ts[..|ts| - 1], current) + (if last.state == Some(current) then [last] else [])
  }

  /** The filter keeps exactly the transitions leaving `current`, and no more of them. */
  lemma {:induction false} FromStateMembers(ts: seq<WorkflowTransition>, current: string)
    ensures |FromState(ts, current)| <= |ts|
    ensures forall t :: t in FromState(ts, current) <==> t in ts && t.state == Some(current)
  {
    if ts != [] {
      var init := ts[..|ts| - 1];
      FromStateMembers(init, current);
      assert ts == init + [ts[|ts| - 1]];
    }
  }

  /** The transitions whose roles are notified: those of the workflow's own
      table leaving `current`, or, when there are none, the stored
      "Workflow Transition" rows leaving `current`. */
  function ApprovingTransitions(wf: Workflow, site: Site, current: string): seq<WorkflowTransition> {
    var own := FromState(wf.transitions, current);
    if own != [] then own else FromState(site.transitionRows, current)
  }

  /** Every approving transition leaves `current`, and it comes from the
      workflow's own table whenever that table has one leaving `current`. */
  lemma ApprovingTransitionsLeaveCurrent(wf: Workflow, site: Site, current: string)
    ensures forall t :: t in ApprovingTransitions(wf, site, current) ==> t.state == Some(current)
    ensures (exists t :: t in wf.transitions && t.state == Some(current)) ==>
      ApprovingTransitions(wf, site, current) == FromState(wf.transitions, current)
    ensures (forall t :: t in wf.transitions ==> t.state != Some(current)) ==>
      ApprovingTransitions(wf, site, current) == FromState(site.transitionRows, current)
  {
    FromStateMembers(wf.transitions, current);
    FromStateMembers(site.transitionRows, current);
    if exists t :: t in wf.transitions && t.state == Some(current) {
      var t :| t in wf.transitions && t.state == Some(current);
      assert t in FromState(wf.transitions, current);
    } else if FromState(wf.transitions, current) != [] {
      assert FromState(wf.transitions, current)[0] in FromState(wf.transitions, current);
    }
  }

  function TransitionRoles(ts: seq<WorkflowTransition>): (r: seq<Value>)
    ensures |r| == |ts| && forall k :: 0 <= k < |ts| ==> r[k] == RoleOf(ts[k])
  {
    seq(|ts|, k requires 0 <= k < |ts| => RoleOf(ts[k]))
  }

  function TransitionUsers(doc: Doc, wf: Workflow, site: Site, current: string): set<string> {
    RoleUnion(TransitionRoles(ApprovingTransitions(wf, site, current)), doc, site)
  }

  /** `get_transition_recipients` */
  method GetTransitionRecipients(doc: Doc, wf: Workflow, site: Site, current: string)
    returns (recipients: set<string>)
    ensures recipients == TransitionUsers(doc, wf, site, current)
  {
    var transitions: seq<WorkflowTransition> := [];
    var i := 0;
    while i < |wf.transitions|
      invariant 0 <= i <= |wf.transitions|
      invariant transitions == FromState(wf.transitions[..i], current)
    {
      var transition := wf.transitions[i];
      assert wf.transitions[..i + 1] == wf.transitions[..i] + [transition];
      if transition.state == Some(current) {
        transitions := transitions + [transition];
      }
      i := i + 1;
    }
    assert wf.transitions[..i] == wf.transitions;
    if transitions == [] {
      // the direct query of the stored transition rows, filtered by from-state
      transitions := FromState(site.transitionRows, current);
    }
    recipients := {};
    var j := 0;
    while j < |transitions|
      invariant 0 <= j <= |transitions|
      invariant recipients == RoleUnion(TransitionRoles(transitions)[..j], doc, site)
    {
      var transition := transitions[j];
      var role := if Truthy(transition.allowed) then transition.allowed else transition.role;
      assert TransitionRoles(transitions)[..j + 1][..j] == TransitionRoles(transitions)[..j];
      if Truthy(role) {
        var users := GetUsersForRole(role.value, doc, site);
        recipients := recipients + users;
      }
      j := j + 1;
    }
    assert TransitionRoles(transitions)[..j] == TransitionRoles(transitions);
  }

  // ---------------------------------------------------------------------------
  // Extra recipients
  // ---------------------------------------------------------------------------

  function RowRoles(rows: seq<ExtraRecipientRow>): (r: seq<Value>)
    ensures |r| == |rows| && forall k :: 0 <= k < |rows| ==> r[k] == rows[k].role
  {
    seq(|rows|, k requires 0 <= k < |rows| => rows[k].role)
  }

  function ExtraUsers(doc: Doc, site: Site): set<string> {
    RoleUnion(RowRoles(doc.extraRecipients), doc, site)
  }

  /** `get_extra_notification_recipients` */
  method GetExtraNotificationRecipients(doc: Doc, site: Site) returns (recipients: set<string>)
    ensures recipients == ExtraUsers(doc, site)
  {
    recipients := {};
    var rows := doc.extraRecipients;
    var i := 0;
    while i < |rows|
      invariant 0 <= i <= |rows|
      invariant recipients == RoleUnion(RowRoles(rows)[..i], doc, site)
    {
      var role := rows[i].role;
      assert RowRoles(rows)[..i + 1][..i] == RowRoles(rows)[..i];
      if Truthy(role) {
        var users := GetUsersForRole(role.value, doc, site);
        recipients := recipients + users;
      }
      i := i + 1;
    }
    assert RowRoles(rows)[..i] == RowRoles(rows);
  }

  // ---------------------------------------------------------------------------
  // All recipients
  // ---------------------------------------------------------------------------

  /** The recipients of a transition into `current`: the initiator, the users
      of the approving transitions' roles and the users of the extra-recipient
      roles, without empty identities. */
  function RecipientSet(doc: Doc, wf: Workflow, site: Site, current: string): set<string> {
    var initiator := Initiator(doc, site);
    ((if initiator != "" then {initiator} else {})
      + TransitionUsers(doc, wf, site, current)
      + ExtraUsers(doc, site)) - {""}
  }

  /** Membership in the recipient set, source by source. */
  lemma RecipientSetMembers(doc: Doc, wf: Workflow, site: Site, current: string, u: string)
    ensures u in RecipientSet(doc, wf, site, current) <==>
      u != "" &&
      (|| u == Initiator(doc, site)
       || (exists t :: t in ApprovingTransitions(wf, site, current) &&
             Truthy(RoleOf(t)) && u in UsersForRole(RoleOf(t).value, doc, site))
       || (exists row :: row in doc.extraRecipients &&
             Truthy(row.role) && u in UsersForRole(row.role.value, doc, site)))
  {
    var ts := ApprovingTransitions(wf, site, current);
    var rows := doc.extraRecipients;
    RoleUnionMembers(TransitionRoles(ts), doc, site, u);
    RoleUnionMembers(RowRoles(rows), doc, site, u);
    if u in TransitionUsers(doc, wf, site, current) {
      var k :| 0 <= k < |ts| && Truthy(TransitionRoles(ts)[k]) &&
        u in UsersForRole(TransitionRoles(ts)[k].value, doc, site);
      assert ts[k] in ts;
    }
    if exists t :: t in ts && Truthy(RoleOf(t)) && u in UsersForRole(RoleOf(t).value, doc, site) {
      var t :| t in ts && Truthy(RoleOf(t)) && u in UsersForRole(RoleOf(t).value, doc, site);
      var k :| 0 <= k < |ts| && ts[k] == t;
      assert TransitionRoles(ts)[k] == RoleOf(t);
    }
    if u in ExtraUsers(doc, site) {
      var k :| 0 <= k < |rows| && Truthy(RowRoles(rows)[k]) &&
        u in UsersForRole(RowRoles(rows)[k].value, doc, site);
      assert rows[k] in rows;
    }
    if exists row :: row in rows && Truthy(row.role) && u in UsersForRole(row.role.value, doc, site) {
      var row :| row in rows && Truthy(row.role) && u in UsersForRole(row.role.value, doc, site);
      var k :| 0 <= k < |rows| && rows[k] == row;
      assert RowRoles(rows)[k] == row.role;
    }
  }

  /** `list(recipients)`: the elements of a set, each once, in some order. */
  method ListOf(s: set<string>) returns (r: seq<string>)
    ensures NoDuplicates(r) && |r| == |s|
    ensures forall u :: u in r <==> u in s
  {
    r := [];
    var rest := s;
    while rest != {}
      invariant rest <= s
      invariant NoDuplicates(r) && |r| + |rest| == |s|
      invariant forall u :: u in r <==> u in s && u !in rest
      decreases |rest|
    {
      var x :| x in rest;
      r := r + [x];
      rest := rest - {x};
    }
  }

  /** `get_notification_recipients` */
  method GetNotificationRecipients(doc: Doc, wf: Workflow, site: Site, current: string)
    returns (recipients: seq<string>)
    ensures NoDuplicates(recipients)
    ensures forall k :: 0 <= k < |recipients| ==> recipients[k] != ""
    ensures forall u :: u in recipients <==> u in RecipientSet(doc, wf, site, current)
  {
    var found: set<string> := {};
    var initiator := if Truthy(doc.Owner()) then doc.Owner().value else site.sessionUser;
    if initiator != "" {
      found := found + {initiator};
    }
    var transitionRecipients := GetTransitionRecipients(doc, wf, site, current);
    found := found + transitionRecipients;
    var extraRecipients := GetExtraNotificationRecipients(doc, site);
    found := found + extraRecipients;
    found := set r | r in found && r != "";
    recipients := ListOf(found);
    assert forall k :: 0 <= k < |recipients| ==> recipients[k] in found;
  }
}
