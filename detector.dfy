/** Transition detection across the two phases of a document save, and the
    process-level cache of pre-save states that carries a value between them. */
module Detector {
  import opened Wrappers
  import opened Framework
  import opened Recipients
  import opened Delivery

  const StatusField := "status"

  /** The field that holds the workflow state: the workflow's own state field
      when the doctype has it, else `status` when it has that. */
  function ResolveStateField(workflowField: string, schema: set<string>): (r: Option<string>)
    ensures r.Some? ==> r.value in schema
    ensures r == Some(workflowField) <==> workflowField in schema
    ensures r.Some? && r.value != workflowField ==> r.value == StatusField
    ensures r.None? <==> workflowField !in schema && StatusField !in schema
  {
    if workflowField in schema then Some(workflowField)
    else if StatusField in schema then Some(StatusField)
    else None
  }

  /** The cache key of a document. */
  function Key(doc: Doc): string {
    doc.doctype + ":" + doc.name
  }

  /** The cached previous state; an absent entry reads like a stored `None`. */
  function CachedPrevious(cache: map<string, Value>, key: string): Value {
    if key in cache then cache[key] else None
  }

  // ---------------------------------------------------------------------------
  // Phase 1: the pre-state recorder
  // ---------------------------------------------------------------------------

  /** What the recorder writes under the document's key, if anything. */
  datatype Recording = NoWrite | Write(value: Value)

  /** The recorder's decision. Without an active workflow nothing is written. A
      document not yet in the database gets `None`. For a stored document the
      persisted value of the resolved state field is written; when no state
      field resolves, or the read fails, nothing is. */
  function PreState(doc: Doc, site: Site): (r: Recording)
    ensures site.workflow.None? ==> r == NoWrite
    ensures site.workflow.Some? && (doc.name == "" || !site.InDatabase()) ==> r == Write(None)
    ensures site.workflow.Some? && doc.name != "" && site.InDatabase() ==>
      match ResolveStateField(site.workflow.value.stateField, site.schema)
      case None => r == NoWrite
      case Some(f) => r == (if site.record.Stored? then Write(Lookup(site.record.row, f)) else NoWrite)
  {
    if site.workflow.None? then NoWrite
    else if doc.name == "" || !site.InDatabase() then Write(None)
    else
      match ResolveStateField(site.workflow.value.stateField, site.schema)
      case None => NoWrite
      case Some(f) => if site.record.Stored? then Write(Lookup(site.record.row, f)) else NoWrite
  }

  /** The cache after a recording. */
  function Recorded(cache: map<string, Value>, key: string, rec: Recording): map<string, Value> {
    match rec
    case NoWrite => cache
    case Write(v) => cache[key := v]
  }

  // ---------------------------------------------------------------------------
  // Phase 2: the transition detector
  // ---------------------------------------------------------------------------

  /** The detector's verdict: no transition, or one from `previous` (`None` for
      an initial transition) to `current`, read from `field`. */
  datatype Detection = NoTransition | StateChange(previous: Value, current: string, field: string)

  /** The previous state after the database fallback: on a cache miss for a
      stored document the persisted value is taken, except that a persisted
      value equal to the current one leaves it `None`; a failed read leaves `None`. */
  function PreviousState(doc: Doc, site: Site, field: string, cached: Value, current: Value): (r: Value)
    ensures cached.Some? ==> r == cached
    ensures !InFallback(doc, site, cached) ==> r == cached
    ensures InFallback(doc, site, cached) ==>
      r == (if site.record.Stored? && Lookup(site.record.row, field) != current
            then Lookup(site.record.row, field) else None)
  {
    if InFallback(doc, site, cached) then
      match site.record
      case Stored(row) => if Lookup(row, field) == current then None else Lookup(row, field)
      case _ => None
    else cached
  }

  /** The database fallback runs on a cache miss for a stored document. */
  predicate InFallback(doc: Doc, site: Site, cached: Value) {
    cached.None? && doc.name != "" && site.InDatabase()
  }

  /** The detector's decision, given the cached previous state. */
  function Detect(doc: Doc, site: Site, cached: Value): (r: Detection)
    ensures site.workflow.None? ==> r == NoTransition
    ensures r.StateChange? <==>
      && site.workflow.Some?
      && ResolveStateField(site.workflow.value.stateField, site.schema).Some?
      && Truthy(doc.Get(ResolveStateField(site.workflow.value.stateField, site.schema).value))
      && cached != doc.Get(ResolveStateField(site.workflow.value.stateField, site.schema).value)
    ensures r.StateChange? ==>
      && Some(r.field) == ResolveStateField(site.workflow.value.stateField, site.schema)
      && doc.Get(r.field) == Some(r.current)
      && r.current != ""
      && r.previous == PreviousState(doc, site, r.field, cached, doc.Get(r.field))
      && r.previous != Some(r.current)
  {
    if site.workflow.None? then NoTransition
    else
      match ResolveStateField(site.workflow.value.stateField, site.schema)
      case None => NoTransition
      case Some(f) =>
        var current := doc.Get(f);
        var wasNew := cached.None?;
        var previous := PreviousState(doc, site, f, cached, current);
        if !Truthy(current) then NoTransition
        else if !wasNew && current == previous then NoTransition
        else StateChange(previous, current.value, f)
  }

  /** After a cache miss on a stored document whose persisted state equals the
      in-memory one, the detector reports an initial transition. */
  lemma CacheMissIsInitialTransition(doc: Doc, site: Site, f: string)
    requires site.workflow.Some?
    requires ResolveStateField(site.workflow.value.stateField, site.schema) == Some(f)
    requires doc.name != "" && site.record.Stored?
    requires Truthy(doc.Get(f)) && Lookup(site.record.row, f) == doc.Get(f)
    ensures Detect(doc, site, None) == StateChange(None, doc.Get(f).value, f)
  {
  }

  /** A whole save of a stored document: the recorder reads persisted state A
      before the update, the detector sees the document in state B after it. A
      transition from A to B is reported exactly when B is set and differs from A. */
  lemma SaveOfStoredDocument(doc: Doc, before: Site, after: Site, cache: map<string, Value>, f: string, a: string)
    requires before.workflow.Some? && after.workflow == before.workflow && after.schema == before.schema
    requires ResolveStateField(before.workflow.value.stateField, before.schema) == Some(f)
    requires doc.name != "" && before.record.Stored? && Lookup(before.record.row, f) == Some(a)
    ensures var d := Detect(doc, after, CachedPrevious(Recorded(cache, Key(doc), PreState(doc, before)), Key(doc)));
      && (d.StateChange? <==> Truthy(doc.Get(f)) && doc.Get(f) != Some(a))
      && (d.StateChange? ==> d.previous == Some(a) && Some(d.current) == doc.Get(f))
  {
  }

  /** A whole save of a new document whose first state is S: the detector
      reports an initial transition from `None` to S. */
  lemma SaveOfNewDocument(doc: Doc, before: Site, after: Site, cache: map<string, Value>, f: string)
    requires before.workflow.Some? && after.workflow == before.workflow
    requires ResolveStateField(after.workflow.value.stateField, after.schema) == Some(f)
    requires before.record.NotStored?
    requires Truthy(doc.Get(f))
    requires after.record.Stored? ==> Lookup(after.record.row, f) == doc.Get(f)
    ensures Detect(doc, after, CachedPrevious(Recorded(cache, Key(doc), PreState(doc, before)), Key(doc)))
      == StateChange(None, doc.Get(f).value, f)
  {
  }

  /** What the detector did on one `on_update`. */
  datatype Outcome =
    | Skipped
    | Notified(previous: Value, current: string, recipients: seq<string>, enqueued: Option<seq<string>>)

  /** The notifier and its process-level dictionary of pre-save states. */
  class Notifier {
    var previousStates: map<string, Value>

    constructor ()
      ensures previousStates == map[]
    {
      previousStates := map[];
    }

    /** `check_workflow_state_change`, run on `validate`. */
    method CheckWorkflowStateChange(doc: Doc, site: Site)
      modifies this
      ensures previousStates == Recorded(old(previousStates), Key(doc), PreState(doc, site))
      ensures forall k :: k != Key(doc) ==> CachedPrevious(previousStates, k) == CachedPrevious(old(previousStates), k)
    {
      if site.workflow.None? {
        return;
      }
      var workflow := site.workflow.value;
      var key := Key(doc);
      if doc.name != "" && site.InDatabase() {
        var stateField := workflow.stateField;
        if stateField !in site.schema {
          if StatusField in site.schema {
            stateField := StatusField;
          } else {
            return;
          }
        }
        match site.record
        case Stored(row) =>
          previousStates := previousStates[key := Lookup(row, stateField)];
        case _ =>
          // the read raised: nothing is stored
          return;
      } else {
        previousStates := previousStates[key := None];
      }
    }

    /** `handle_workflow_transition`, run on `on_update`. The cache entry is
        removed only after a detected transition. */
    method HandleWorkflowTransition(doc: Doc, site: Site) returns (outcome: Outcome)
      modifies this
      ensures var d := Detect(doc, site, CachedPrevious(old(previousStates), Key(doc)));
        && (d.NoTransition? ==> outcome == Skipped && previousStates == old(previousStates))
        && (d.StateChange? ==>
              && outcome.Notified?
              && outcome.previous == d.previous
              && outcome.current == d.current
              && NoDuplicates(outcome.recipients)
              && (forall u :: u in outcome.recipients <==> u in RecipientSet(doc, site.workflow.value, site, d.current))
              && (outcome.recipients == [] ==> outcome.enqueued.None?)
              && (outcome.enqueued.Some? ==>
                    && outcome.enqueued.value != []
                    && outcome.enqueued.value == Emails(outcome.recipients, Initiator(doc, site), site))
              && (outcome.enqueued.None? ==> Emails(outcome.recipients, Initiator(doc, site), site) == [])
              && previousStates == old(previousStates) - {Key(doc)})
    {
      if site.workflow.None? {
        return Skipped;
      }
      var workflow := site.workflow.value;
      var stateField := workflow.stateField;
      if stateField !in site.schema {
        if StatusField in site.schema {
          stateField := StatusField;
        } else {
          return Skipped;
        }
      }
      var currentState := doc.Get(stateField);
      var key := Key(doc);
      var previousState := if key in previousStates then previousStates[key] else None;
      var wasNewDocument := previousState.None?;
      if previousState.None? && doc.name != "" && site.InDatabase() {
        match site.record
        case Stored(row) =>
          var dbPreviousState := Lookup(row, stateField);
          if wasNewDocument && dbPreviousState == currentState {
            previousState := None;
          } else {
            previousState := dbPreviousState;
          }
        case _ =>
          previousState := None;
      }
      if !Truthy(currentState) {
        return Skipped;
      }
      if !wasNewDocument && currentState == previousState {
        return Skipped;
      }
      var recipients := GetNotificationRecipients(doc, workflow, site, currentState.value);
      var enqueued: Option<seq<string>> := None;
      if recipients != [] {
        enqueued := SendWorkflowNotifications(doc, site, recipients);
      }
      if key in previousStates {
        previousStates := previousStates - {key};
      }
      outcome := Notified(previousState, currentState.value, recipients, enqueued);
    }

    /** One document save as the hooks table wires it: the recorder on
        `validate`, the detector on `on_update`, with `before` and `after` the
        framework's answers in each phase. */
    method Save(doc: Doc, before: Site, after: Site) returns (outcome: Outcome)
      modifies this
      ensures var d := Detect(doc, after,
                CachedPrevious(Recorded(old(previousStates), Key(doc), PreState(doc, before)), Key(doc)));
        && (d.NoTransition? ==>
              && outcome == Skipped
              && previousStates == Recorded(old(previousStates), Key(doc), PreState(doc, before)))
        && (d.StateChange? ==>
              && outcome.Notified?
              && outcome.previous == d.previous
              && outcome.current == d.current
              && previousStates == old(previousStates) - {Key(doc)})
    {
      CheckWorkflowStateChange(doc, before);
      outcome := HandleWorkflowTransition(doc, after);
    }
  }
}
