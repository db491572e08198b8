/** `GET /getNotifications`: behind `verifyToken`, a role-based query over the
    notification collection sorted by `createdAt`, newest first. The
    collection is only read. */
module NotificationRoutes {
  import opened Common
  import opened External
  import opened UserModel
  import opened NotificationModel
  import opened Http
  import opened AccessGuard

  const MissingClaims: string := "Unauthorized: Missing User ID or Role."
  const FetchFailed: string := "Server error during notification retrieval."

  /** The two queries the handler builds. */
  datatype Query =
    /** `{ targetRole: 'Admin' }` */
    | AdminQuery
    /** `{ targetUserId: userId, targetRole: 'User' }` */
    | UserQuery(userId: string)

  /** The query for a payload, absent when its id or role is falsy. Any role
      other than "Admin" is served as a plain user. */
  function QueryFor(c: Claims): (q: Option<Query>)
    ensures q.None? <==> !Truthy(c.id) || !Truthy(c.role)
    ensures q.Some? && c.role == Some("Admin") ==> q.value == AdminQuery
    ensures q.Some? && c.role != Some("Admin") ==> q.value == UserQuery(c.id.value)
  {
    if !Truthy(c.id) || !Truthy(c.role) then None
    else if c.role.value == "Admin" then Some(AdminQuery)
    else Some(UserQuery(c.id.value))
  }

  /** Whether `find(query)` returns the record: for an admin, records aimed at
      the "Admin" role; for a user, records aimed at the "User" role whose
      `targetUserId` is that user's id. */
  predicate Matches(q: Query, n: Notification)
  {
    match q
    case AdminQuery => n.targetRole == AdminRole
    case UserQuery(id) => n.targetRole == UserRole && n.targetUserId == Some(id)
  }

  /** `Notification.find(query)`: every matching record, as often as it is stored. */
  function Find(q: Query, store: seq<Notification>): (r: seq<Notification>)
    ensures forall n :: multiset(r)[n] == (if Matches(q, n) then multiset(store)[n] else 0)
    ensures forall n :: n in r <==> n in store && Matches(q, n)
  {
    if store == [] then []
    else
      var rest := Find(q, store[1..]);
      assert store == [store[0]] + store[1..];
      if Matches(q, store[0]) then [store[0]] + rest else rest
  }

  /** Non-increasing `createdAt`: the order of `.sort({ createdAt: -1 })`. */
  ghost predicate NewestFirst(s: seq<Notification>)
  {
    forall i, j :: 0 <= i < j < |s| ==> s[i].createdAt >= s[j].createdAt
  }

  /** A record no older than the head of a newest-first sequence can go in front of it. */
  lemma ConsNewestFirst(x: Notification, t: seq<Notification>)
    requires NewestFirst(t)
    requires t == [] || x.createdAt >= t[0].createdAt
    ensures NewestFirst([x] + t)
  {
    var r := [x] + t;
    forall i, j | 0 <= i < j < |r| ensures r[i].createdAt >= r[j].createdAt {
      if i == 0 && j > 1 {
        assert r[1] == t[0] && r[j] == t[j - 1];
      }
    }
  }

  /** Places one record into a newest-first sequence. */
  function Insert(n: Notification, s: seq<Notification>): (r: seq<Notification>)
    requires NewestFirst(s)
    ensures NewestFirst(r)
    ensures multiset(r) == multiset(s) + multiset{n}
    ensures |r| == |s| + 1
    ensures r[0] == n || (s != [] && r[0] == s[0])
  {
    if s == [] || n.createdAt >= s[0].createdAt then
      ConsNewestFirst(n, s);
      [n] + s
    else
      var rest := Insert(n, s[1..]);
      assert s == [s[0]] + s[1..];
      assert rest[0] == n || rest[0] == s[1];
      ConsNewestFirst(s[0], rest);
      [s[0]] + rest
  }

  /** The sort the query applies: the same records, newest first. */
  function SortNewestFirst(s: seq<Notification>): (r: seq<Notification>)
    ensures NewestFirst(r)
    ensures multiset(r) == multiset(s)
  {
    if s == [] then []
    else
      assert s == [s[0]] + s[1..];
      Insert(s[0], SortNewestFirst(s[1..]))
  }

  /** The handler after `verifyToken` has attached `claims`. */
  function Handle(claims: Claims, store: seq<Notification>, fault: bool): (r: Response)
    ensures !Truthy(claims.id) || !Truthy(claims.role) ==> r == Response(401, Message(MissingClaims))
    ensures Truthy(claims.id) && Truthy(claims.role) && fault ==> r == Response(500, Message(FetchFailed))
    ensures Truthy(claims.id) && Truthy(claims.role) && !fault ==>
      && r.status == 200 && r.body.NotificationList?
      && NewestFirst(r.body.items)
      && multiset(r.body.items) == multiset(Find(QueryFor(claims).value, store))
  {
    match QueryFor(claims)
    case None => Response(401, Message(MissingClaims))
    case Some(q) =>
      if fault then Response(500, Message(FetchFailed))
      else Response(200, NotificationList(SortNewestFirst(Find(q, store))))
  }

  /** What each requester receives: an admin exactly the Admin-targeted
      records, anyone else exactly the User-targeted records addressed to
      their own id; each as many times as it is stored, and nothing else. */
  lemma HandleDeliversExactly(claims: Claims, store: seq<Notification>)
    requires Truthy(claims.id) && Truthy(claims.role)
    ensures var items := Handle(claims, store, false).body.items;
      && (claims.role == Some("Admin") ==>
            forall n :: multiset(items)[n] == (if n.targetRole == AdminRole then multiset(store)[n] else 0))
      && (claims.role != Some("Admin") ==>
            forall n :: multiset(items)[n] ==
              (if n.targetRole == UserRole && n.targetUserId == claims.id then multiset(store)[n] else 0))
  {
    var q := QueryFor(claims).value;
    var items := Handle(claims, store, false).body.items;
    assert multiset(items) == multiset(Find(q, store));
    forall n ensures multiset(items)[n] == (if Matches(q, n) then multiset(store)[n] else 0) {
    }
  }

  /** A plain user never sees an Admin-targeted record nor one addressed to
      somebody else. */
  lemma NoLeakToOtherUsers(claims: Claims, store: seq<Notification>, n: Notification)
    requires Truthy(claims.id) && Truthy(claims.role) && claims.role != Some("Admin")
    requires n in Handle(claims, store, false).body.items
    ensures n.targetRole == UserRole && n.targetUserId == claims.id
  {
    var items := Handle(claims, store, false).body.items;
    assert n in multiset(items);
  }

  /** `router.get('/getNotifications', verifyToken, handler)`. */
  method GetNotifications(req: Request, env: Env, store: seq<Notification>, fault: bool)
    returns (r: Response)
    modifies req`user
    ensures var g := Authenticate(req.authorization, env);
      && (g.Respond? ==> r == Response(g.status, Text(g.message)) && req.user == old(req.user))
      && (g.Next? ==> r == Handle(g.user, store, fault) && req.user == Some(g.user))
  {
    var g := req.VerifyToken(env);
    if g.Respond? {
      return Response(g.status, Text(g.message));
    }
    var currentUser := req.user.value;
    var query := QueryFor(currentUser);
    if query.None? {
      return Response(401, Message(MissingClaims));
    }
    if fault {
      return Response(500, Message(FetchFailed));
    }
    var notifications := SortNewestFirst(Find(query.value, store));
    r := Response(200, NotificationList(notifications));
  }
}
