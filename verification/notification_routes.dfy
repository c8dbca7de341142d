/**
 * The `/notifications` router (server/routes/notifications.js): the caller's own
 * notifications newest first and paged, mark-as-read, and compose; plus the
 * router's table of routes, which has no `GET /sent`.
 */
module NotificationRoutes {
  import opened Wrappers
  import opened Seqs
  import opened Schema
  import opened Store

  // ---------------------------------------------------------------------
  // GET / — the caller's notifications
  // ---------------------------------------------------------------------

  /** `.sort({ createdAt: -1 })`: newer first. */
  function NewestFirst(a: Notification, b: Notification): bool {
    a.createdAt >= b.createdAt
  }

  lemma NewestFirstOrder()
    ensures TotalPreorder(NewestFirst)
  {
  }

  /** The JSON body of a successful list. */
  datatype NotificationPage = NotificationPage(notifications: seq<Notification>, totalPages: nat, currentPage: int, total: nat)

  /** `GET /notifications`: the notifications addressed to exactly the caller's email, newest first,
      page `page` (default 1) of `limit` (default 20). The ghost `ids` are the selected documents. */
  method ListNotifications(db: Database, actor: User, page: Option<int>, limit: Option<int>)
    returns (r: Response<NotificationPage>, ghost ids: seq<Id>)
    requires limit.GetOr(20) >= 1
    ensures NoDuplicates(ids)
    ensures forall id :: id in ids <==> id in db.notifications && db.notifications[id].recipientEmail == actor.email
    ensures page.GetOr(1) < 1 ==> r == Fail(500, ServerError)
    ensures page.GetOr(1) >= 1 ==> r.Ok? && r.status == 200 && r.message == ""
    ensures r.Ok? ==> r.body.total == |ids| && r.body.currentPage == page.GetOr(1)
    ensures r.Ok? ==> r.body.totalPages == CeilDiv(|ids|, limit.GetOr(20))
    ensures r.Ok? ==> r.body.notifications == Page(ValuesAt(db.notifications, ids), NewestFirst, page.GetOr(1), limit.GetOr(20))
    ensures r.Ok? ==> SortedBy(r.body.notifications, NewestFirst) && |r.body.notifications| <= limit.GetOr(20)
    ensures r.Ok? ==> forall i :: 0 <= i < |r.body.notifications| ==>
      r.body.notifications[i] in db.notifications.Values && r.body.notifications[i].recipientEmail == actor.email
  {
    var p, l := page.GetOr(1), limit.GetOr(20);
    var found := Select(db.notifications, (n: Notification) => n.recipientEmail == actor.email);
    ids := found;
    if p < 1 {
      return Fail(500, ServerError), ids;
    }
    var all := ValuesAt(db.notifications, found);
    var items := Page(all, NewestFirst, p, l);
    NewestFirstOrder();
    PageSorted(all, NewestFirst, p, l);
    forall i | 0 <= i < |items|
      ensures items[i] in db.notifications.Values && items[i].recipientEmail == actor.email
    {
      var j :| 0 <= j < |all| && all[j] == items[i];
      assert db.notifications[found[j]] == items[i];
    }
    r := Ok(200, "", NotificationPage(items, CeilDiv(|found|, l), p, |found|));
  }

  // ---------------------------------------------------------------------
  // PUT /:id/read
  // ---------------------------------------------------------------------

  /** `PUT /notifications/:id/read`: 404 before 403; the recipient's request sets `isRead` and
      nothing else, so repeating it succeeds again and changes nothing. */
  method MarkRead(db: Database, actor: User, id: Id) returns (r: Response<()>)
    requires db.Valid()
    modifies db`notifications
    ensures db.Valid()
    ensures id !in old(db.notifications) ==> r == Fail(404, "Notification not found") && unchanged(db)
    ensures id in old(db.notifications) && old(db.notifications[id].recipientEmail) != actor.email ==>
      r == Fail(403, "Access denied") && unchanged(db)
    ensures id in old(db.notifications) && old(db.notifications[id].recipientEmail) == actor.email ==>
      && r == Ok(200, "Notification marked as read", ())
      && db.notifications == old(db.notifications)[id := old(db.notifications[id]).(isRead := true)]
    ensures id in old(db.notifications) && old(db.notifications[id].isRead) ==> unchanged(db)
  {
    if id !in db.notifications {
      return Fail(404, "Notification not found");
    }
    var n := db.notifications[id];
    if n.recipientEmail != actor.email {
      return Fail(403, "Access denied");
    }
    if n.isRead {
      assert n.(isRead := true) == n;
      assert db.notifications[id := n] == db.notifications;
    }
    db.notifications := db.notifications[id := n.(isRead := true)];
    r := Ok(200, "Notification marked as read", ());
  }

  // ---------------------------------------------------------------------
  // POST / — compose
  // ---------------------------------------------------------------------

  /** `POST /notifications`, open to every authenticated caller whatever the role. The sender is
      the caller whatever the body says, the type defaults to `general`, and the recipient is
      taken verbatim. `pushThrows` says whether the push dispatch threw; as written it always
      does, because the service it calls is never imported, and the handler swallows that, so
      the answer does not depend on it. */
  method Compose(db: Database, actor: User, title: string, message: string, recipientEmail: string,
                 kind: Option<string>, now: int, pushThrows: bool) returns (r: Response<Notification>)
    requires db.Valid()
    modifies db`notifications, db`nextId
    ensures db.Valid()
    ensures
      var n := NewNotification(old(db.nextId), title, message, Some(kind.GetOr("general")), recipientEmail, None, actor.id, now);
      if n.None? then
        r == Fail(500, ServerError) && unchanged(db)
      else
        && r == Ok(201, "Notification sent successfully", n.value)
        && db.notifications == old(db.notifications)[n.value.id := n.value]
        && db.nextId == old(db.nextId) + 1
  {
    var n := NewNotification(db.nextId, title, message, Some(kind.GetOr("general")), recipientEmail, None, actor.id, now);
    if n.None? {
      return Fail(500, ServerError);
    }
    db.notifications := db.notifications[n.value.id := n.value];
    db.nextId := db.nextId + 1;
    if pushThrows {
      // the failure is logged and otherwise ignored
    }
    r := Ok(201, "Notification sent successfully", n.value);
  }

  // ---------------------------------------------------------------------
  // The router's table
  // ---------------------------------------------------------------------

  datatype Verb = Get | Put | Post | Delete

  /** A route: its verb and its path below the mount point, one pattern per segment;
      a segment starting with `:` is a parameter. */
  datatype Route = Route(verb: Verb, path: seq<string>)

  /** The routes the notifications router declares, in order. */
  const NotificationRouter: seq<Route> := [Route(Get, []), Route(Put, [":id", "read"]), Route(Post, [])]

  predicate SegmentMatches(pattern: string, segment: string) {
    (|pattern| > 0 && pattern[0] == ':' && |segment| > 0) || pattern == segment
  }

  predicate PathMatches(pattern: seq<string>, path: seq<string>) {
    |pattern| == |path| && forall i :: 0 <= i < |path| ==> SegmentMatches(pattern[i], path[i])
  }

  predicate RouteMatches(route: Route, verb: Verb, path: seq<string>) {
    route.verb == verb && PathMatches(route.path, path)
  }

  /** The first route that handles `verb` on `path`, as Express dispatches. */
  function Dispatch(routes: seq<Route>, verb: Verb, path: seq<string>): (r: Option<nat>)
    ensures r.Some? ==> r.value < |routes| && RouteMatches(routes[r.value], verb, path)
    ensures r.Some? ==> forall i :: 0 <= i < r.value ==> !RouteMatches(routes[i], verb, path)
    ensures r.None? <==> forall i :: 0 <= i < |routes| ==> !RouteMatches(routes[i], verb, path)
  {
    if routes == [] then None
    else if RouteMatches(routes[0], verb, path) then Some(0)
    else
      var rest := Dispatch(routes[1..], verb, path);
      if rest.None? then None else Some(rest.value + 1)
  }

  /** `GET /notifications/sent` reaches no handler of the router, so the request ends in
      the framework's not-found answer. */
  lemma SentHasNoRoute()
    ensures Dispatch(NotificationRouter, Get, ["sent"]) == None
  {
    assert !RouteMatches(NotificationRouter[0], Get, ["sent"]);
    assert !RouteMatches(NotificationRouter[1], Get, ["sent"]);
    assert !RouteMatches(NotificationRouter[2], Get, ["sent"]);
  }

  /** Marking as read reaches its handler for every non-empty id. */
  lemma MarkReadRouted(id: string)
    requires |id| > 0
    ensures Dispatch(NotificationRouter, Put, [id, "read"]) == Some(1)
  {
    assert !RouteMatches(NotificationRouter[0], Put, [id, "read"]);
    assert RouteMatches(NotificationRouter[1], Put, [id, "read"]);
  }
}
