/** The host framework as one document save sees it: the document itself and the
    answers that the metadata, database, role and user services give about it.
    Every framework call of the notifier is a lookup in one of these values. */
module Framework {
  import opened Wrappers

  /** A field value read from a document or the database: `None` is Python's
      `None`, `Some("")` an empty string. */
  type Value = Option<string>

  /** Python truthiness of a field value. */
  predicate Truthy(v: Value) {
    v.Some? && v.value != ""
  }

  /** `get` on a record: a missing or NULL field reads as `None`. */
  function Lookup(fields: map<string, string>, f: string): Value {
    if f in fields then Some(fields[f]) else None
  }

  /** One row of the document's extra-recipients child table. */
  datatype ExtraRecipientRow = ExtraRecipientRow(role: Value)

  /** The document being saved, with its in-memory field values. An unset
      document name is the empty string. */
  datatype Doc = Doc(
    doctype: string,
    name: string,
    fields: map<string, string>,
    extraRecipients: seq<ExtraRecipientRow>)
  {
    function Get(f: string): Value {
      Lookup(fields, f)
    }

    function Owner(): Value {
      Get("owner")
    }
  }

  /** A row of the workflow's transition table: `state` is the from-state,
      `allowed` (or, in older schemas, `role`) the role that may act on it. */
  datatype WorkflowTransition = WorkflowTransition(
    state: Value,
    nextState: Value,
    allowed: Value,
    role: Value)

  /** The active workflow of the document's type. */
  datatype Workflow = Workflow(
    name: string,
    stateField: string,
    transitions: seq<WorkflowTransition>)

  /** A row of the User table. */
  datatype UserRecord = UserRecord(email: Value, enabled: bool)

  /** The persisted row of the document: absent, present, or present but a
      read of one of its fields raises. */
  datatype StoredRecord = NotStored | Stored(row: map<string, string>) | Unreadable

  /** The framework's answers for one phase of a save.
      - `workflow`: the active workflow of the doctype; `None` also when the lookup failed
      - `schema`: the fields the doctype's metadata has
      - `record`: the document's row in the database
      - `transitionRows`: "Workflow Transition" rows stored under the workflow
      - `roleHolders`: per role, the users of its "Has Role" rows
      - `rolesOf`: per user, what `get_roles` returns
      - `users`: the User table by name
      - `employees`: the Employee table by name, giving each one's `user_id`
      - `sessionUser`: the acting user of the request */
  datatype Site = Site(
    workflow: Option<Workflow>,
    schema: set<string>,
    record: StoredRecord,
    transitionRows: seq<WorkflowTransition>,
    roleHolders: map<string, seq<string>>,
    rolesOf: map<string, set<string>>,
    users: map<string, UserRecord>,
    employees: map<string, Value>,
    sessionUser: string)
  {
    /** `db.exists(doc.doctype, doc.name)` */
    predicate InDatabase() {
      !record.NotStored?
    }

    function HoldersOf(role: string): seq<string> {
      if role in roleHolders then roleHolders[role] else []
    }

    function RolesOf(user: string): set<string> {
      if user in rolesOf then rolesOf[user] else {}
    }
  }

  /** The initiator of a transition: the document's owner, else the session user. */
  function Initiator(doc: Doc, site: Site): string {
    if Truthy(doc.Owner()) then doc.Owner().value else site.sessionUser
  }
}
