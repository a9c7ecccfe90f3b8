/** Worked examples of recipient resolution on concrete framework answers. */
module Scenarios {
  import opened Wrappers
  import opened Framework
  import opened Recipients

  /** A site where U1..U5 are users, Manager is held by U2 and U3, and only
      the users in `employees` hold the Employee role. */
  function ExampleSite(employees: set<string>): Site {
    var user := UserRecord(None, true);
    Site(None, {}, NotStored, [],
         map["Manager" := ["U2", "U3", "U2"]],
         map u | u in employees :: {"Employee"},
         map["U1" := user, "U2" := user, "U3" := user, "U4" := user, "U5" := user],
         map[], "U1")
  }

  /** An Employee role on a document assigned to U5 and owned by U1, where U1 is
      an Employee too, resolves to U5 and U1, not to every Employee. */
  lemma EmployeeResolvesToNamedPeople()
    ensures UsersForRole(EmployeeRole, Doc("Leave", "L-1", map["assigned_to" := "U5", "owner" := "U1"], []),
                         ExampleSite({"U1", "U3"})) == {"U5", "U1"}
  {
    var doc := Doc("Leave", "L-1", map["assigned_to" := "U5", "owner" := "U1"], []);
    assert FirstPopulated(doc, EmployeeFields[3..]) == None;
    assert FirstPopulated(doc, EmployeeFields[2..]) == Some("U1");
    assert FirstPopulated(doc, EmployeeFields[1..]) == Some("U5");
    assert FirstPopulated(doc, EmployeeFields) == Some("U5");
  }

  /** Owner U1, a transition leaving state B for role Manager, and an extra
      recipient row for Employee on a document assigned to U4 give the
      recipients U1, U2, U3 and U4, each once. */
  lemma UnionOfThreeSources()
    ensures
      var wf := Workflow("Approval", "workflow_state",
                         [WorkflowTransition(Some("B"), Some("C"), Some("Manager"), None)]);
      var doc := Doc("Leave", "L-2", map["owner" := "U1", "assigned_to" := "U4"],
                     [ExtraRecipientRow(Some(EmployeeRole))]);
      RecipientSet(doc, wf, ExampleSite({}), "B") == {"U1", "U2", "U3", "U4"}
  {
    var t := WorkflowTransition(Some("B"), Some("C"), Some("Manager"), None);
    var wf := Workflow("Approval", "workflow_state", [t]);
    var doc := Doc("Leave", "L-2", map["owner" := "U1", "assigned_to" := "U4"],
                   [ExtraRecipientRow(Some(EmployeeRole))]);
    var site := ExampleSite({});
    assert [t][..0] == [];
    assert FromState([t], "B") == [t];
    assert TransitionRoles([t]) == [Some("Manager")];
    assert [Some("Manager")][..0] == [];
    assert UsersForRole("Manager", doc, site) == {"U2", "U3"};
    assert ApprovingTransitions(wf, site, "B") == [t];
    assert RoleUnion([Some("Manager")], doc, site) == {"U2", "U3"};
    assert TransitionUsers(doc, wf, site, "B") == {"U2", "U3"};
    assert FirstPopulated(doc, EmployeeFields[1..]) == Some("U4");
    assert FirstPopulated(doc, EmployeeFields) == Some("U4");
    assert UsersForRole(EmployeeRole, doc, site) == {"U4"};
    assert RowRoles(doc.extraRecipients) == [Some(EmployeeRole)];
    assert [Some(EmployeeRole)][..0] == [];
    assert RoleUnion([Some(EmployeeRole)], doc, site) == {"U4"};
    assert ExtraUsers(doc, site) == {"U4"};
  }
}
