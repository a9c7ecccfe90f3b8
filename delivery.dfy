/** Delivery hand-off: recipients become the email addresses of enabled users,
    and a notification is enqueued for them. */
module Delivery {
  import opened Wrappers
  import opened Framework

  /** Some enabled user has the email address `e`. */
  predicate IsEnabledEmail(site: Site, e: string) {
    exists u :: u in site.users && site.users[u].enabled && site.users[u].email == Some(e)
  }

  /** The email a recipient contributes. The session user is skipped unless they
      are the initiator; an identity with an `@` is looked up by email, any
      other by user name, among enabled users only. */
  function EmailOf(recipient: string, initiator: string, site: Site): (r: Value)
    ensures r.Some? ==> r.value != "" && IsEnabledEmail(site, r.value)
    ensures recipient == site.sessionUser && recipient != initiator ==> r.None?
    ensures !(recipient == site.sessionUser && recipient != initiator) && '@' in recipient ==>
      r == (if IsEnabledEmail(site, recipient) then Some(recipient) else None)
    ensures !(recipient == site.sessionUser && recipient != initiator) && '@' !in recipient ==>
      r == (if recipient in site.users && site.users[recipient].enabled && Truthy(site.users[recipient].email)
            then site.users[recipient].email else None)
  {
    if recipient == site.sessionUser && recipient != initiator then None
    else
      var email :=
        if '@' in recipient then
          (if IsEnabledEmail(site, recipient) then Some(recipient) else None)
        else if recipient in site.users && site.users[recipient].enabled then
          site.users[recipient].email
        else None;
      if Truthy(email) then email else None
  }

  /** The emails of `recipients`, in their order, each recipient giving at most one. */
  function Emails(recipients: seq<string>, initiator: string, site: Site): (r: seq<string>)
    ensures |r| <= |recipients|
  {
    if recipients == [] then []
    else
      var last := recipients[|recipients| - 1];
      var init := Emails(recipients[..|recipients| - 1], initiator, site);
      match EmailOf(last, initiator, site)
      case Some(e) => init + [e]
      case None => init
  }

  /** Emails keep input order: the emails of a concatenation are the
      concatenation of the emails. */
  lemma {:induction false} EmailsAppend(a: seq<string>, b: seq<string>, initiator: string, site: Site)
    ensures Emails(a + b, initiator, site) == Emails(a, initiator, site) + Emails(b, initiator, site)
  {
    if b == [] {
      assert a + b == a;
    } else {
      var init := b[..|b| - 1];
      EmailsAppend(a, init, initiator, site);
      assert (a + b)[..|a + b| - 1] == a + init;
    }
  }

  /** Every email handed off belongs to an enabled user and is non-empty. */
  lemma {:induction false} EmailsOfEnabledUsers(recipients: seq<string>, initiator: string, site: Site)
    ensures forall e :: e in Emails(recipients, initiator, site) ==> e != "" && IsEnabledEmail(site, e)
  {
    if recipients != [] {
      EmailsOfEnabledUsers(recipients[..|recipients| - 1], initiator, site);
    }
  }

  /** Every email comes from some recipient, and every recipient that has an
      email contributes it. */
  lemma {:induction false} EmailsMembers(recipients: seq<string>, initiator: string, site: Site, e: string)
    ensures e in Emails(recipients, initiator, site) <==>
      exists k :: 0 <= k < |recipients| && EmailOf(recipients[k], initiator, site) == Some(e)
  {
    if recipients != [] {
      var init := recipients[..|recipients| - 1];
      EmailsMembers(init, initiator, site, e);
      assert forall k :: 0 <= k < |init| ==> init[k] == recipients[k];
    }
  }

  /** The recipients other than `x`, in order. */
  function Without(recipients: seq<string>, x: string): seq<string> {
    if recipients == [] then []
    else
      var last := recipients[|recipients| - 1];
      Without(recipients[..|recipients| - 1], x) + (if last == x then [] else [last])
  }

  /** A session user who is not the initiator never changes the email list:
      removing them from any recipient list leaves the same emails. */
  lemma {:induction false} SessionUserSkipped(recipients: seq<string>, initiator: string, site: Site)
    requires site.sessionUser != initiator
    ensures Emails(recipients, initiator, site) == Emails(Without(recipients, site.sessionUser), initiator, site)
  {
    if recipients != [] {
      var init := recipients[..|recipients| - 1];
      var last := recipients[|recipients| - 1];
      SessionUserSkipped(init, initiator, site);
      var rest := Without(init, site.sessionUser);
      if last != site.sessionUser {
        assert Without(recipients, site.sessionUser) == rest + [last];
        assert (rest + [last])[..|rest + [last]| - 1] == rest;
      } else {
        assert Without(recipients, site.sessionUser) == rest;
        assert EmailOf(last, initiator, site).None?;
      }
    }
  }

  /** The recipient-to-email loop of `send_workflow_notifications` */
  method FilterRecipientEmails(recipients: seq<string>, initiator: string, site: Site)
    returns (emails: seq<string>)
    ensures emails == Emails(recipients, initiator, site)
  {
    emails := [];
    var i := 0;
    while i < |recipients|
      invariant 0 <= i <= |recipients|
      invariant emails == Emails(recipients[..i], initiator, site)
    {
      var recipient := recipients[i];
      assert recipients[..i + 1][..i] == recipients[..i];
      if recipient == site.sessionUser && recipient != initiator {
        // the session user is notified only as the initiator
        i := i + 1;
        continue;
      }
      var userEmail: Value := None;
      if '@' in recipient {
        if IsEnabledEmail(site, recipient) {
          userEmail := Some(recipient);
        }
      } else if recipient in site.users && site.users[recipient].enabled {
        userEmail := site.users[recipient].email;
      }
      if Truthy(userEmail) {
        emails := emails + [userEmail.value];
      }
      i := i + 1;
    }
    assert recipients[..i] == recipients;
  }

  /** `send_workflow_notifications`, up to the hand-off: the email list passed
      to the notification queue, or `None` when nothing is enqueued. */
  method SendWorkflowNotifications(doc: Doc, site: Site, recipients: seq<string>)
    returns (enqueued: Option<seq<string>>)
    ensures recipients == [] ==> enqueued.None?
    ensures enqueued.Some? ==>
      enqueued.value != [] && enqueued.value == Emails(recipients, Initiator(doc, site), site)
    ensures enqueued.None? ==> Emails(recipients, Initiator(doc, site), site) == []
  {
    if recipients == [] {
      return None;
    }
    var initiator := if Truthy(doc.Owner()) then doc.Owner().value else site.sessionUser;
    var emails := FilterRecipientEmails(recipients, initiator, site);
    if emails != [] {
      enqueued := Some(emails);
    } else {
      enqueued := None;
    }
  }
}
