# Workflow transition notifier — a Dafny model

This project models the workflow-transition notifier of the `notifications_plugin`
app for the Frappe framework (`notifications_plugin/workflow_notifications.py`).
A document save runs two hooks (wired in `notifications_plugin/hooks.py:140-145`):

- on `validate`, `check_workflow_state_change` records the persisted workflow
  state of the document in a process-level dictionary keyed `"doctype:name"`;
- on `on_update`, `handle_workflow_transition` compares the in-memory state with
  the recorded one, with a database fallback on a cache miss. On a transition it
  computes the recipients: the initiator, the users of the roles that may act on
  the new state, and the users of the roles in the document's extra-recipients
  table. It hands their email addresses to the notification queue and removes the
  cache entry.

Modules:

- `Wrappers` (`wrappers.dfy`) holds `Option`.
- `Framework` (`framework.dfy`) holds the document, workflow, transition and
  user records. Every framework call is an answer inside one `Site` value per
  phase: the active workflow, the doctype schema, the persisted row, the stored
  transition rows, role holders, `get_roles`, the User and Employee tables and
  the session user. A Python `None` is `None` and an empty string is `Some("")`.
  `Truthy` is Python truthiness.
- `Recipients` (`recipients.dfy`) covers role resolution (with the Employee rule),
  transition recipients, extra recipients and the union. Each Python function
  that builds a set with a loop is a method whose loop is proved against a
  specification function.
- `Delivery` (`delivery.dfy`) covers the recipient-to-email loop and the
  enqueue decision.
- `Detector` (`detector.dfy`) holds state-field resolution, the recorder's
  decision `PreState`, and the transition predicate `Detect`. It also holds the
  `Notifier` class, whose map field `previousStates` is the process-level
  dictionary and whose methods are the two hooks.
- `Scenarios` (`scenarios.dfy`) works two recipient examples on concrete data.

Three behaviours of the code are easy to misread. The model follows the code:

- The cache entry is removed only after a detected transition
  (`workflow_notifications.py:179-181`), not unconditionally. A skipped
  detection or an unset current state leaves the entry in place.
- The recorder writes nothing for a stored document when no state field resolves
  or the read fails, so such a save leaves whatever entry was there before.
- When the workflow's own transition table has no transition leaving the new
  state, the stored "Workflow Transition" rows are queried by their from-state
  (`state == current`), the same filter as for the workflow's own table.

Inside the fallback branch the cached value is always `None`, so the new-document
test at line 126 reduces to "persisted value equals current value". The code
keeps that test, and the model's `PreviousState` states it in its reduced form.

## Model

| member | source | states |
|---|---|---|
| `Detector.ResolveStateField` | notifications_plugin/workflow_notifications.py:37-49 | The chosen field is in the schema. It is the workflow's field exactly when the schema has that field. Otherwise it is `status`. It is `None` exactly when the schema has neither field. |
| `Detector.PreState` | notifications_plugin/workflow_notifications.py:16-62 | Without a workflow nothing is written. A document with no name or no row gets `None`. A stored document gets the persisted value of the resolved field. Nothing is written when no field resolves or the read fails. |
| `Detector.PreviousState` | notifications_plugin/workflow_notifications.py:117-135 | A cached value is kept. The database is consulted only on a cache miss for a stored document. Then the result is the persisted value, or `None` when that value equals the current one or the read fails. |
| `Detector.Detect` | notifications_plugin/workflow_notifications.py:71-146 | No workflow means no transition. A transition happens if and only if a state field resolves, the current state is set, and the cached value differs from the current one. The reported previous state is never the current one. |
| `Detector.CacheMissIsInitialTransition` | notifications_plugin/workflow_notifications.py:117-129 | On a cache miss where the persisted value equals the current value, the result is an initial transition from `None`. |
| `Detector.SaveOfStoredDocument` | notifications_plugin/workflow_notifications.py:51-146 | Across a whole save of a stored document in state A, a transition (A, B) is reported if and only if the new state B is set and differs from A. |
| `Detector.SaveOfNewDocument` | notifications_plugin/workflow_notifications.py:59-146 | Across a whole save of a new document whose first state is S, an initial transition (`None`, S) is reported. |
| `Detector.Notifier.constructor` | notifications_plugin/workflow_notifications.py:9 | The dictionary starts empty. |
| `Detector.Notifier.CheckWorkflowStateChange` | notifications_plugin/workflow_notifications.py:12-68 | The cache becomes the old cache with the recorder's write applied. No other key changes. |
| `Detector.Notifier.HandleWorkflowTransition` | notifications_plugin/workflow_notifications.py:71-188 | Without a transition the cache is unchanged and nothing is sent. After a transition the outcome carries `Detect`'s previous and current states and a duplicate-free list equal to the recipient set. Emails are enqueued only if that list's email list is non-empty. The document's key is deleted and every other entry is unchanged. |
| `Detector.Notifier.Save` | notifications_plugin/hooks.py:140-145 | A save runs the recorder on the pre-save answers and then the detector on the post-save answers. The outcome and the cache follow from the two decisions. |
| `Recipients.FirstPopulated` | notifications_plugin/workflow_notifications.py:345-349 | Returns the value of the first set field in priority order, after only unset fields. It returns `None` if and only if no field is set. |
| `Recipients.OtherRoleIsHolders` | notifications_plugin/workflow_notifications.py:367-375 | A role other than Employee resolves to exactly the users holding it. |
| `Recipients.EmployeeRoleIsPrecise` | notifications_plugin/workflow_notifications.py:341-366 | The Employee role resolves to at most two users. They are the user named by the first set field among employee, assigned_to, owner and created_by, which is either a User itself or the linked Employee's user_id, and the owner if the owner holds Employee. |
| `Recipients.GetUsersForRole` | notifications_plugin/workflow_notifications.py:334-380 | The priority-scan loop computes the role resolution above. |
| `Recipients.FromStateMembers` | notifications_plugin/workflow_notifications.py:287-292 | The filter keeps exactly the transitions whose from-state is the current state, and yields no more than it was given. |
| `Recipients.ApprovingTransitionsLeaveCurrent` | notifications_plugin/workflow_notifications.py:284-309 | Every approving transition leaves the current state. The workflow's own table is used whenever it has such a transition. When it has none, the stored transition rows leaving the current state are used. |
| `Recipients.RoleUnionMembers` | notifications_plugin/workflow_notifications.py:312-322 | A user is in the union if and only if some set role in the list resolves to them. Unset roles contribute nothing. |
| `Recipients.GetTransitionRecipients` | notifications_plugin/workflow_notifications.py:267-331 | Both loops compute the users of the `allowed`-else-`role` roles of the approving transitions. |
| `Recipients.GetExtraNotificationRecipients` | notifications_plugin/workflow_notifications.py:383-415 | The loop computes the users of the set roles in the extra-recipients rows. |
| `Recipients.RecipientSetMembers` | notifications_plugin/workflow_notifications.py:229-258 | A user is a recipient if and only if they are non-empty and either the initiator, or resolved from the role of an approving transition, or resolved from an extra-recipient row's role. |
| `Recipients.ListOf` | notifications_plugin/workflow_notifications.py:264 | Converting the set to a list gives each element exactly once. |
| `Recipients.GetNotificationRecipients` | notifications_plugin/workflow_notifications.py:229-264 | The list is duplicate-free, has no empty identity, and has the same members as the recipient set. |
| `Delivery.EmailOf` | notifications_plugin/workflow_notifications.py:457-484 | The session user contributes nothing unless they are the initiator. Any other id containing `@` contributes itself exactly when an enabled user has that email. Any other id without `@` contributes its User's email exactly when that user exists, is enabled and has a non-empty email. Every contribution is a non-empty email of an enabled user. |
| `Delivery.Emails` | notifications_plugin/workflow_notifications.py:455-484 | There are never more emails than recipients. |
| `Delivery.EmailsAppend` | notifications_plugin/workflow_notifications.py:456-484 | Emails keep input order: the emails of a concatenation are the concatenation of the emails. |
| `Delivery.EmailsOfEnabledUsers` | notifications_plugin/workflow_notifications.py:466-484 | Every email handed off is non-empty and belongs to an enabled user. |
| `Delivery.EmailsMembers` | notifications_plugin/workflow_notifications.py:456-484 | An email is in the list if and only if some recipient contributes it. |
| `Delivery.SessionUserSkipped` | notifications_plugin/workflow_notifications.py:457-464 | When the session user is not the initiator, removing them from any recipient list leaves the same email list. |
| `Delivery.FilterRecipientEmails` | notifications_plugin/workflow_notifications.py:454-484 | The loop yields exactly the emails of the recipients, in order. |
| `Delivery.SendWorkflowNotifications` | notifications_plugin/workflow_notifications.py:418-505 | No recipients means nothing is enqueued. Otherwise the enqueued list is that email list, and enqueueing happens only if the list is non-empty. |
| `Scenarios.EmployeeResolvesToNamedPeople` | notifications_plugin/workflow_notifications.py:341-366 | For a document assigned to U5 and owned by U1, where U1 is an Employee, the Employee role resolves to {U5, U1}. It does not resolve to every Employee. |
| `Scenarios.UnionOfThreeSources` | notifications_plugin/workflow_notifications.py:229-258 | Owner U1, Manager holders U2 and U3, and an Employee extra row naming U4 give exactly {U1, U2, U3, U4}. |

## Left out

- Exception handling is left out: the broad `try`/`except` blocks, logging, `print`, `frappe.logger` and `frappe.log_error`. A failed lookup is modelled only where the code has a branch for it: a workflow lookup that fails reads as "no workflow", and a `db.get_value` of the state field that raises is `Unreadable`. Failures of `get_meta`, `db.exists`, the role queries and the email lookups are not modelled.
- `get_workflow_for_doctype` (lines 191-210) is not modelled. Its result is the site's `workflow` answer.
- `get_workflow_state` (lines 213-226) is not modelled. It is unused.
- Message formatting is not modelled, because it is text only: subject, HTML body, translation `_()` and `get_url_to_form` (lines 427-449).
- The notification record, `enqueue_create_notification` and push notifications (lines 493-535) are foreign side effects. The model records only the email list that would be enqueued.
- Concurrency is not modelled: several workers each hold their own dictionary. A save is one sequential call pair.
- `Detector.Key`: an unset document name is the empty string, so the key is `"doctype:"` where Python would form `"doctype:None"`.
- `Delivery.EmailOf`: a lookup by email matches the address exactly. Database collation (case-insensitive matching) is not modelled, so the returned email is the recipient itself.
- `Recipients.UsersForRole`: `frappe.get_roles` is the site's per-user table. Its built-in roles (Administrator, Guest, All) are not derived.
- `Recipients.GetNotificationRecipients`: the order of `list(set)` is chosen arbitrarily. Only the members and the absence of duplicates are stated.
